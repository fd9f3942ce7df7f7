/**
 * The browser client's artifact list (static/script.js): the page-wide `artifacts` array,
 * newest first, that `addArtifact` grows without duplicates and caps at twenty entries,
 * that `processArtifacts` feeds from a server reply's results, and that `startNewChat`
 * empties. Rendering, the counters and `localStorage` are not part of this model.
 */
module ClientArtifacts {
  import opened Wrappers

  const MAX_ARTIFACTS: nat := 20
  const RESEARCH := "research"
  const WEBSITE := "website"

  /** One result object of a server reply: the fields the client reads (each absent or a
      string) and `json`, its `JSON.stringify` text. */
  datatype Payload = Payload(kind: Option<string>, title: Option<string>, description: Option<string>,
                             query: Option<string>, json: string)

  /** An entry of `artifacts` (its id, timestamp and conversation id are not modelled). */
  datatype Artifact = Artifact(kind: string, title: string, data: Payload)

  /** The duplicate test of `addArtifact`: same type, same title, same serialized data. */
  predicate SameArtifact(a: Artifact, kind: string, title: string, data: Payload) {
    a.kind == kind && a.title == title && a.data.json == data.json
  }

  predicate IsDuplicate(list: seq<Artifact>, kind: string, title: string, data: Payload) {
    exists i :: 0 <= i < |list| && SameArtifact(list[i], kind, title, data)
  }

  /** No two entries are duplicates of each other. */
  predicate Distinct(list: seq<Artifact>) {
    forall i, j :: 0 <= i < j < |list| ==> !SameArtifact(list[i], list[j].kind, list[j].title, list[j].data)
  }

  /** The list after `addArtifact(kind, title, data)`. */
  function Added(list: seq<Artifact>, kind: string, title: string, data: Payload): seq<Artifact> {
    if IsDuplicate(list, kind, title, data) then list
    else [Artifact(kind, title, data)] + (if |list| >= MAX_ARTIFACTS then list[..MAX_ARTIFACTS - 1] else list)
  }

  /** A duplicate leaves the list as it was. Otherwise the new entry comes first, followed
      by the old entries in their order: all of them below the cap, the newest nineteen at
      or above it. Either way the artifact is then in the list. */
  lemma AddedShape(list: seq<Artifact>, kind: string, title: string, data: Payload)
    ensures var r := Added(list, kind, title, data);
      && (IsDuplicate(list, kind, title, data) ==> r == list)
      && (!IsDuplicate(list, kind, title, data) ==>
            && r[0] == Artifact(kind, title, data)
            && (|list| < MAX_ARTIFACTS ==> |r| == |list| + 1 && r[1..] == list)
            && (|list| >= MAX_ARTIFACTS ==> |r| == MAX_ARTIFACTS && r[1..] == list[..MAX_ARTIFACTS - 1]))
      && IsDuplicate(r, kind, title, data)
  {
    var r := Added(list, kind, title, data);
    if !IsDuplicate(list, kind, title, data) {
      assert SameArtifact(r[0], kind, title, data);
    }
  }

  /** A new artifact never takes the list past the cap, and a list within the cap stays
      within it. */
  lemma AddedWithinCap(list: seq<Artifact>, kind: string, title: string, data: Payload)
    ensures !IsDuplicate(list, kind, title, data) ==> |Added(list, kind, title, data)| <= MAX_ARTIFACTS
    ensures |list| <= MAX_ARTIFACTS ==> |Added(list, kind, title, data)| <= MAX_ARTIFACTS
  {
  }

  /** Adding keeps the list free of duplicates. */
  lemma AddedKeepsDistinct(list: seq<Artifact>, kind: string, title: string, data: Payload)
    requires Distinct(list)
    ensures Distinct(Added(list, kind, title, data))
  {
    var r := Added(list, kind, title, data);
    if !IsDuplicate(list, kind, title, data) {
      var rest := if |list| >= MAX_ARTIFACTS then list[..MAX_ARTIFACTS - 1] else list;
      assert r == [Artifact(kind, title, data)] + rest;
      forall i, j | 0 <= i < j < |r|
        ensures !SameArtifact(r[i], r[j].kind, r[j].title, r[j].data)
      {
        if i == 0 {
          assert r[j] == list[j - 1];
        } else {
          assert r[i] == list[i - 1] && r[j] == list[j - 1];
        }
      }
    }
  }

  // ---------------------------------------------------------------------
  // processArtifacts (static/script.js:183-213)
  // ---------------------------------------------------------------------

  /** The `results` argument: falsy, a single object, or an array of objects. */
  datatype Results = Missing | Single(item: Payload) | Many(items: seq<Payload>)

  /** `Array.isArray(results) ? results : [results]`, and nothing for a falsy argument. */
  function Items(results: Results): seq<Payload> {
    match results
    case Missing => []
    case Single(p) => [p]
    case Many(ps) => ps
  }

  /** JavaScript's `a || b` on an optional string: the empty string is falsy too. */
  function OrElse(a: Option<string>, b: string): (r: string)
    ensures a.Some? && a.value != "" ==> r == a.value
    ensures a.None? || a.value == "" ==> r == b
  {
    if a.Some? && a.value != "" then a.value else b
  }

  function ResearchTitle(p: Payload): string {
    OrElse(p.title, "Pesquisa: " + OrElse(p.description, OrElse(p.query, "Resultado")))
  }

  function WebsiteTitle(p: Payload): string {
    OrElse(p.title, "Site: " + OrElse(p.description, "Website"))
  }

  /** One iteration of the `forEach`: research and website results are added, any other
      type is skipped. */
  function ProcessOne(list: seq<Artifact>, p: Payload): seq<Artifact> {
    if p.kind == Some(RESEARCH) then Added(list, RESEARCH, ResearchTitle(p), p)
    else if p.kind == Some(WEBSITE) then Added(list, WEBSITE, WebsiteTitle(p), p)
    else list
  }

  /** The list after the results `ps` have been processed in order. */
  function Processed(list: seq<Artifact>, ps: seq<Payload>): seq<Artifact> {
    if ps == [] then list
    else ProcessOne(Processed(list, ps[..|ps| - 1]), ps[|ps| - 1])
  }

  /** Processing keeps the cap and the absence of duplicates, and every entry it adds is a
      research or website artifact. */
  lemma {:induction false} ProcessedInvariants(list: seq<Artifact>, ps: seq<Payload>)
    requires |list| <= MAX_ARTIFACTS && Distinct(list)
    ensures var r := Processed(list, ps);
      && |r| <= MAX_ARTIFACTS && Distinct(r)
      && forall a :: a in r ==> a in list || a.kind == RESEARCH || a.kind == WEBSITE
  {
    if ps != [] {
      var mid := Processed(list, ps[..|ps| - 1]);
      ProcessedInvariants(list, ps[..|ps| - 1]);
      var p := ps[|ps| - 1];
      if p.kind == Some(RESEARCH) {
        AddedWithinCap(mid, RESEARCH, ResearchTitle(p), p);
        AddedKeepsDistinct(mid, RESEARCH, ResearchTitle(p), p);
      } else if p.kind == Some(WEBSITE) {
        AddedWithinCap(mid, WEBSITE, WebsiteTitle(p), p);
        AddedKeepsDistinct(mid, WEBSITE, WebsiteTitle(p), p);
      }
    }
  }

  /** Results of any other type leave the list untouched. */
  lemma {:induction false} ProcessedIgnoresOtherTypes(list: seq<Artifact>, ps: seq<Payload>)
    requires forall k :: 0 <= k < |ps| ==> ps[k].kind != Some(RESEARCH) && ps[k].kind != Some(WEBSITE)
    ensures Processed(list, ps) == list
  {
    if ps != [] {
      ProcessedIgnoresOtherTypes(list, ps[..|ps| - 1]);
    }
  }

  /** A single research result without title, description or query is titled
      "Pesquisa: Resultado", and a website one "Site: Website". */
  lemma DefaultTitles(p: Payload)
    requires p.title.None? && p.description.None? && p.query.None?
    ensures ResearchTitle(p) == "Pesquisa: Resultado" && WebsiteTitle(p) == "Site: Website"
  {
  }

  /** The page-wide `artifacts` array and the functions that change it. */
  class ArtifactPanel {
    var artifacts: seq<Artifact>

    constructor ()
      ensures artifacts == []
    {
      artifacts := [];
    }

    /** `addArtifact(type, title, data)` (static/script.js:216-247). */
    method AddArtifact(kind: string, title: string, data: Payload)
      modifies this
      ensures artifacts == Added(old(artifacts), kind, title, data)
    {
      var duplicate := exists i :: 0 <= i < |artifacts| && SameArtifact(artifacts[i], kind, title, data);
      if duplicate {
        return;
      }
      if |artifacts| >= MAX_ARTIFACTS {
        artifacts := artifacts[..MAX_ARTIFACTS - 1];
      }
      artifacts := [Artifact(kind, title, data)] + artifacts;
    }

    /** `processArtifacts(results)` (static/script.js:183-213). */
    method ProcessArtifacts(results: Results)
      modifies this
      ensures artifacts == Processed(old(artifacts), Items(results))
    {
      if results.Missing? {
        return;
      }
      var items := if results.Many? then results.items else [results.item];
      var i := 0;
      while i < |items|
        invariant 0 <= i <= |items|
        invariant artifacts == Processed(old(artifacts), items[..i])
      {
        assert items[..i + 1][..i] == items[..i];
        var result := items[i];
        if result.kind == Some(RESEARCH) {
          AddArtifact(RESEARCH, ResearchTitle(result), result);
        } else if result.kind == Some(WEBSITE) {
          AddArtifact(WEBSITE, WebsiteTitle(result), result);
        }
        i := i + 1;
      }
      assert items[..|items|] == items;
    }

    /** The artifact reset of `startNewChat` (static/script.js:636). */
    method StartNewChat()
      modifies this
      ensures artifacts == []
    {
      artifacts := [];
    }
  }
}
