/**
 * Two pure string helpers of the browser client (static/script.js): the download file name
 * `downloadWebsite` derives from a website artifact's title (static/script.js:508, 538-543)
 * and the conversation title `saveCurrentConversation` derives from the first user message
 * (static/script.js:664-669).
 */
module ClientText {
  import opened Wrappers
  import opened Text

  // ---------------------------------------------------------------------
  // File name
  // ---------------------------------------------------------------------

  const DEFAULT_FILENAME := "website.html"
  const HTML_SUFFIX := ".html"

  predicate SlugChar(c: char) {
    'a' <= c <= 'z' || '0' <= c <= '9' || c == '_'
  }

  /** No two underscores in a row. */
  predicate NoDoubleUnderscore(s: string) {
    forall i :: 0 <= i < |s| - 1 ==> !(s[i] == '_' && s[i + 1] == '_')
  }

  /** What the slug chain promises of its result. */
  predicate WellFormedSlug(s: string) {
    && (forall i :: 0 <= i < |s| ==> SlugChar(s[i]))
    && NoDoubleUnderscore(s)
    && (s == [] || (s[0] != '_' && s[|s| - 1] != '_'))
  }

  /** `.replace(/[^a-z0-9]/g, '_')` */
  function Underscored(s: string): (r: string)
    ensures |r| == |s|
    ensures forall i :: 0 <= i < |s| ==> r[i] == (if SlugChar(s[i]) && s[i] != '_' then s[i] else '_')
  {
    seq(|s|, i requires 0 <= i < |s| => if SlugChar(s[i]) && s[i] != '_' then s[i] else '_')
  }

  /** `.replace(/_+/g, '_')`: every run of underscores becomes one. */
  function Collapse(s: string): (r: string)
    ensures |r| <= |s|
    ensures |s| > 0 ==> |r| > 0 && r[0] == s[0] && r[|r| - 1] == s[|s| - 1]
    ensures forall i :: 0 <= i < |r| ==> r[i] in s
    ensures NoDoubleUnderscore(r)
    ensures NoDoubleUnderscore(s) ==> r == s
    decreases |s|
  {
    if |s| <= 1 then s
    else if s[0] == '_' && s[1] == '_' then Collapse(s[1..])
    else
      var rest := Collapse(s[1..]);
      assert forall i :: 0 <= i < |rest| ==> rest[i] in s by {
        forall i | 0 <= i < |rest| ensures rest[i] in s {
          assert rest[i] in s[1..];
        }
      }
      [s[0]] + rest
  }

  /** `.replace(/^_|_$/g, '')`: one underscore off each end. */
  function TrimUnderscores(s: string): (r: string)
    ensures |r| <= |s|
  {
    var a := if |s| > 0 && s[0] == '_' then s[1..] else s;
    if |a| > 0 && a[|a| - 1] == '_' then a[..|a| - 1] else a
  }

  /** The stem of the file name. */
  function Slug(title: string): string {
    TrimUnderscores(Collapse(Underscored(Lower(title))))
  }

  /** The file name `downloadWebsite` offers: the slug of a truthy title plus ".html", and
      "website.html" when the title is absent or empty. */
  function FileName(title: Option<string>): string {
    if title.Some? && title.value != "" then Slug(title.value) + HTML_SUFFIX else DEFAULT_FILENAME
  }

  /** Dropping one underscore from each end of a string without double underscores leaves
      no underscore at either end. */
  lemma TrimUnderscoresClean(s: string)
    requires NoDoubleUnderscore(s)
    ensures var r := TrimUnderscores(s);
      && NoDoubleUnderscore(r)
      && (r == [] || (r[0] != '_' && r[|r| - 1] != '_'))
      && (forall c :: c in r ==> c in s)
  {
    var off := if |s| > 0 && s[0] == '_' then 1 else 0;
    var a := s[off..];
    var r := TrimUnderscores(s);
    var n := |r|;
    assert r == a[..n];
    assert forall i :: 0 <= i < n ==> r[i] == s[off + i];
    if n > 0 {
      assert r[0] != '_' by {
        if off == 1 {
          assert !(s[0] == '_' && s[1] == '_');
        }
      }
      assert r[n - 1] != '_' by {
        if n < |a| {
          assert a[n] == '_' && n == |a| - 1 && n >= 1;
        }
      }
    }
    forall c | c in r ensures c in s {
      var i :| 0 <= i < n && r[i] == c;
      assert s[off + i] == c;
    }
  }

  /** The stem is made of lower-case ASCII letters, digits and single underscores, and
      neither begins nor ends with an underscore. */
  lemma SlugWellFormed(title: string)
    ensures WellFormedSlug(Slug(title))
  {
    var u := Underscored(Lower(title));
    var c := Collapse(u);
    TrimUnderscoresClean(c);
  }

  /** A stem that is already well formed is its own slug, so slugging twice changes nothing. */
  lemma SlugFixesWellFormed(s: string)
    requires WellFormedSlug(s)
    ensures Slug(s) == s
  {
    assert Lower(s) == s;
    assert Underscored(s) == s;
  }

  lemma SlugIdempotent(title: string)
    ensures Slug(Slug(title)) == Slug(title)
  {
    SlugWellFormed(title);
    SlugFixesWellFormed(Slug(title));
  }

  /** The file name always ends in ".html", and is "website.html" for a falsy title. */
  lemma FileNameShape(title: Option<string>)
    ensures EndsWith(FileName(title), HTML_SUFFIX)
    ensures title.None? || title.value == "" ==> FileName(title) == DEFAULT_FILENAME
    ensures title.Some? && title.value != "" ==> FileName(title) == Slug(title.value) + HTML_SUFFIX
  {
    var f := FileName(title);
    assert f[|f| - |HTML_SUFFIX|..] == HTML_SUFFIX;
  }

  // ---------------------------------------------------------------------
  // Conversation title
  // ---------------------------------------------------------------------

  const DEFAULT_TITLE := "Nova Conversa"
  const TITLE_LIMIT := 50
  const ELLIPSIS := "..."

  /** The index of the first `c` in `s`. */
  function IndexOf(s: string, c: char): (r: nat)
    requires c in s
    ensures r < |s| && s[r] == c && c !in s[..r]
  {
    if s[0] == c then 0 else IndexOf(s[1..], c) + 1
  }

  /** `.replace(/<[^>]*>/g, '')`: every `<` that a later `>` closes is removed together with
      everything up to the first such `>`; a `<` that nothing closes stays. */
  function StripTags(s: string): (r: string)
    ensures |r| <= |s|
    ensures forall c :: c in r ==> c in s
    decreases |s|
  {
    if s == [] then []
    else if s[0] == '<' && '>' in s then
      var rest := s[IndexOf(s, '>') + 1..];
      assert forall c :: c in rest ==> c in s;
      StripTags(rest)
    else
      var rest := StripTags(s[1..]);
      assert forall c :: c in s[1..] ==> c in s;
      [s[0]] + rest
  }

  /** No `<` of `s` is followed by a `>`. */
  predicate NoTag(s: string) {
    forall i, j :: 0 <= i < j < |s| && s[i] == '<' ==> s[j] != '>'
  }

  /** No complete tag survives. */
  lemma {:induction false} StripTagsLeavesNoTag(s: string)
    ensures NoTag(StripTags(s))
    decreases |s|
  {
    if s == [] {
    } else if s[0] == '<' && '>' in s {
      var rest := s[IndexOf(s, '>') + 1..];
      StripTagsLeavesNoTag(rest);
      assert StripTags(s) == StripTags(rest);
    } else {
      StripTagsLeavesNoTag(s[1..]);
      var r := StripTags(s);
      var rest := StripTags(s[1..]);
      assert r == [s[0]] + rest;
      forall i, j | 0 <= i < j < |r| && r[i] == '<'
        ensures r[j] != '>'
      {
        assert r[j] == rest[j - 1];
        if i == 0 {
          assert s[0] == '<' && '>' !in s[1..];
          assert rest[j - 1] in rest;
        } else {
          assert r[i] == rest[i - 1];
        }
      }
    }
  }

  /** A message without `<` is kept as it is. */
  lemma {:induction false} StripTagsKeepsPlainText(s: string)
    requires '<' !in s
    ensures StripTags(s) == s
    decreases |s|
  {
    if s != [] {
      assert '<' !in s[1..];
      StripTagsKeepsPlainText(s[1..]);
    }
  }

  /** `saveCurrentConversation`'s title, from the first user message's HTML if there is one. */
  function ConversationTitle(firstUserMessage: Option<string>): (title: string)
    ensures firstUserMessage.None? ==> title == DEFAULT_TITLE
    ensures firstUserMessage.Some? ==>
      var text := StripTags(firstUserMessage.value);
      && (|text| > TITLE_LIMIT ==> |title| == TITLE_LIMIT + |ELLIPSIS| && title == text[..TITLE_LIMIT] + ELLIPSIS)
      && (|text| <= TITLE_LIMIT ==> title == text)
  {
    match firstUserMessage
    case None => DEFAULT_TITLE
    case Some(content) =>
      var text := StripTags(content);
      if |text| > TITLE_LIMIT then text[..TITLE_LIMIT] + ELLIPSIS else text
  }

  /** A title is never longer than 53 characters and always begins with the first (up to)
      50 characters of the tag-free message. */
  lemma TitleBounds(firstUserMessage: Option<string>)
    requires firstUserMessage.Some?
    ensures var text := StripTags(firstUserMessage.value);
      var title := ConversationTitle(firstUserMessage);
      var n := if |text| < TITLE_LIMIT then |text| else TITLE_LIMIT;
      && |title| <= TITLE_LIMIT + |ELLIPSIS|
      && title[..n] == text[..n]
  {
  }
}
