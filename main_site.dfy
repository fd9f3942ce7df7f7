/**
 * What main.py's website handler does with a generated reply (`CoderAgent.create_website`,
 * main.py:234-850) and with a failed one (main.py:855-920): the HTML document is cut out
 * of the reply with two case-insensitive lazy searches, a reply holding no `<html` tag is
 * replaced by a fixed template chosen by a keyword test on the description, and a raised
 * error becomes either a fallback site (transient errors) or an error record.
 */
module MainSite {
  import opened Wrappers
  import opened Text
  import MainRetry

  // ---------------------------------------------------------------------
  // The two searches of main.py:243 and main.py:248
  // ---------------------------------------------------------------------

  /** The patterns, lower-cased: the searches run with `re.IGNORECASE`. */
  const DOCTYPE_OPEN := "<!doctype html>"
  const HTML_OPEN := "<html"
  const HTML_CLOSE := "</html>"

  /** The DOCTYPE line the handler puts in front of a bare `<html…</html>` span. */
  const DOCTYPE_LINE := "<!DOCTYPE html>\n"

  /** A matched span `text[start..end]`. */
  datatype Span = Span(start: nat, end: nat)

  /** In the lower-cased text `l`, `open .*? close` matches `l[i..e]`. */
  predicate MatchesAt(l: string, open: string, close: string, i: nat, e: nat) {
    StartsAt(l, open, i) && i + |open| + |close| <= e && StartsAt(l, close, e - |close|)
  }

  /** `open .*? close` matches `text[i..e]`, letters compared without regard to case
      (`open` and `close` are given lower-cased). */
  predicate Matches(text: string, open: string, close: string, i: nat, e: nat) {
    MatchesAt(Lower(text), open, close, i, e)
  }

  /** The lazy search in the lower-cased text `l`: the first `open`, up to the first `close`
      that begins after it. */
  function SearchIn(l: string, open: string, close: string): (r: Option<Span>)
    ensures r.Some? ==> r.value.start + |open| + |close| <= r.value.end <= |l|
  {
    match Find(l, open, 0)
    case None => None
    case Some(i) =>
      match Find(l, close, i + |open|)
      case None => None
      case Some(j) => Some(Span(i, j + |close|))
  }

  /** `re.search(open + '.*?' + close, text, re.DOTALL | re.IGNORECASE)`. */
  function SearchSpan(text: string, open: string, close: string): (r: Option<Span>)
    ensures r.Some? ==> r.value.start + |open| + |close| <= r.value.end <= |text|
  {
    SearchIn(Lower(text), open, close)
  }

  /** At a start `i`, no match ends before the first `close` found after `open`. */
  lemma NoMatchShorter(l: string, open: string, close: string, i: nat, j: nat)
    requires i + |open| <= j
    requires forall k :: i + |open| <= k < j ==> !StartsAt(l, close, k)
    ensures forall e: nat :: e < j + |close| ==> !MatchesAt(l, open, close, i, e)
  {
    forall e: nat | e < j + |close| ensures !MatchesAt(l, open, close, i, e) {
      if i + |open| + |close| <= e {
        assert !StartsAt(l, close, e - |close|);
      }
    }
  }

  /** A span the search in `l` finds is a match, and the shortest one at its start. */
  lemma SearchInShortest(l: string, open: string, close: string)
    ensures var r := SearchIn(l, open, close);
      && (r.Some? ==> MatchesAt(l, open, close, r.value.start, r.value.end))
      && (r.Some? ==> forall e: nat :: e < r.value.end ==> !MatchesAt(l, open, close, r.value.start, e))
  {
    FindSpec(l, open, 0);
    var fo := Find(l, open, 0);
    if fo.Some? {
      var i := fo.value;
      FindSpec(l, close, i + |open|);
      var fc := Find(l, close, i + |open|);
      if fc.Some? {
        NoMatchShorter(l, open, close, i, fc.value);
      }
    }
  }

  /** No match starts before the span the search in `l` finds, and there is no match at all
      when it finds none. */
  lemma SearchInLeftmost(l: string, open: string, close: string)
    ensures var r := SearchIn(l, open, close);
      && (r.Some? ==> forall i: nat, e: nat :: i < r.value.start ==> !MatchesAt(l, open, close, i, e))
      && (r.None? ==> forall i: nat, e: nat :: !MatchesAt(l, open, close, i, e))
  {
    FindSpec(l, open, 0);
    var fo := Find(l, open, 0);
    if fo.Some? {
      var i := fo.value;
      FindSpec(l, close, i + |open|);
      if Find(l, close, i + |open|).None? {
        forall i': nat, e: nat ensures !MatchesAt(l, open, close, i', e) {
          if StartsAt(l, open, i') && i' + |open| + |close| <= e {
            assert i <= i';
            assert !StartsAt(l, close, e - |close|);
          }
        }
      }
    }
  }

  /** The search in `l` finds the leftmost match and, at that start, the shortest one. */
  lemma SearchInIsLeftmostShortest(l: string, open: string, close: string)
    ensures var r := SearchIn(l, open, close);
      && (r.Some? ==> MatchesAt(l, open, close, r.value.start, r.value.end))
      && (r.Some? ==> forall e: nat :: e < r.value.end ==> !MatchesAt(l, open, close, r.value.start, e))
      && (r.Some? ==> forall i: nat, e: nat :: i < r.value.start ==> !MatchesAt(l, open, close, i, e))
      && (r.None? ==> forall i: nat, e: nat :: !MatchesAt(l, open, close, i, e))
  {
    SearchInShortest(l, open, close);
    SearchInLeftmost(l, open, close);
  }

  /** `SearchSpan` is the regular-expression search: the leftmost match, and at that start
      the shortest one; `None` exactly when nothing matches. */
  lemma SearchSpanIsLeftmostShortest(text: string, open: string, close: string)
    ensures var r := SearchSpan(text, open, close);
      && (r.Some? ==> Matches(text, open, close, r.value.start, r.value.end))
      && (r.Some? ==> forall e: nat :: e < r.value.end ==> !Matches(text, open, close, r.value.start, e))
      && (r.Some? ==> forall i: nat, e: nat :: i < r.value.start ==> !Matches(text, open, close, i, e))
      && (r.None? ==> forall i: nat, e: nat :: !Matches(text, open, close, i, e))
  {
    SearchInIsLeftmostShortest(Lower(text), open, close);
  }

  // ---------------------------------------------------------------------
  // Cutting the document out of the reply (main.py:237-251)
  // ---------------------------------------------------------------------

  /** `html_content` after main.py:243-251, for the stripped reply `content`. */
  function ExtractHtml(content: string): string {
    match SearchSpan(content, DOCTYPE_OPEN, HTML_CLOSE)
    case Some(sp) => content[sp.start..sp.end]
    case None =>
      if Contains(Lower(content), HTML_OPEN) then
        match SearchSpan(content, HTML_OPEN, HTML_CLOSE)
        case Some(sp) => DOCTYPE_LINE + content[sp.start..sp.end]
        case None => content
      else content
  }

  lemma {:induction false} LowerConcat(a: string, b: string)
    ensures Lower(a + b) == Lower(a) + Lower(b)
  {
    assert forall i :: 0 <= i < |a + b| ==> Lower(a + b)[i] == (Lower(a) + Lower(b))[i];
  }

  /** A matched span, lower-cased, begins with `open` and ends with `close`. */
  lemma {:induction false} MatchedSpanShape(content: string, open: string, close: string, sp: Span)
    requires Matches(content, open, close, sp.start, sp.end) && sp.end <= |content|
    ensures StartsWith(Lower(content[sp.start..sp.end]), open)
    ensures EndsWith(Lower(content[sp.start..sp.end]), close)
  {
    var l := Lower(content);
    var r := content[sp.start..sp.end];
    assert Lower(r) == l[sp.start..sp.end];
    assert Lower(r)[..|open|] == l[sp.start..sp.start + |open|];
    assert Lower(r)[|r| - |close|..] == l[sp.end - |close|..sp.end];
  }

  /** Putting the DOCTYPE line in front of a span ending with `</html>` gives a document. */
  lemma {:induction false} DoctypePrefixed(span: string)
    requires EndsWith(Lower(span), HTML_CLOSE)
    ensures StartsWith(Lower(DOCTYPE_LINE + span), DOCTYPE_OPEN)
    ensures EndsWith(Lower(DOCTYPE_LINE + span), HTML_CLOSE)
  {
    var r := DOCTYPE_LINE + span;
    LowerConcat(DOCTYPE_LINE, span);
    assert Lower(DOCTYPE_LINE) == DOCTYPE_OPEN + "\n";
    assert Lower(r)[|r| - |HTML_CLOSE|..] == Lower(span)[|span| - |HTML_CLOSE|..];
  }

  /** A reply is left as it is, or the result is a whole document: it begins with the
      DOCTYPE, and ends with `</html>`, whatever the case of their letters. */
  lemma ExtractHtmlShape(content: string)
    ensures var r := ExtractHtml(content);
      r == content ||
      (StartsWith(Lower(r), DOCTYPE_OPEN) && EndsWith(Lower(r), HTML_CLOSE))
  {
    SearchSpanIsLeftmostShortest(content, DOCTYPE_OPEN, HTML_CLOSE);
    SearchSpanIsLeftmostShortest(content, HTML_OPEN, HTML_CLOSE);
    match SearchSpan(content, DOCTYPE_OPEN, HTML_CLOSE)
    case Some(sp) =>
      MatchedSpanShape(content, DOCTYPE_OPEN, HTML_CLOSE, sp);
    case None =>
      if Contains(Lower(content), HTML_OPEN) {
        match SearchSpan(content, HTML_OPEN, HTML_CLOSE)
        case Some(sp) =>
          MatchedSpanShape(content, HTML_OPEN, HTML_CLOSE, sp);
          DoctypePrefixed(content[sp.start..sp.end]);
        case None =>
      }
  }

  /** A reply whose document begins with the DOCTYPE is cut to exactly that span. */
  lemma DoctypeSpanKept(content: string, i: nat, e: nat)
    requires Matches(content, DOCTYPE_OPEN, HTML_CLOSE, i, e) && e <= |content|
    requires forall i': nat, e': nat :: i' < i ==> !Matches(content, DOCTYPE_OPEN, HTML_CLOSE, i', e')
    requires forall e': nat :: e' < e ==> !Matches(content, DOCTYPE_OPEN, HTML_CLOSE, i, e')
    ensures ExtractHtml(content) == content[i..e]
  {
    SearchSpanIsLeftmostShortest(content, DOCTYPE_OPEN, HTML_CLOSE);
    var r := SearchSpan(content, DOCTYPE_OPEN, HTML_CLOSE);
    assert r.Some?;
    assert r.value.start == i;
    assert r.value.end == e;
  }

  // ---------------------------------------------------------------------
  // The fallback test (main.py:254)
  // ---------------------------------------------------------------------

  /** `"<!DOCTYPE html>" not in html_content.upper() and "<html" not in html_content.lower()`. */
  predicate NeedsFallback(c: string) {
    !Contains(Upper(c), "<!DOCTYPE html>") && !Contains(Lower(c), HTML_OPEN)
  }

  /** The first half of the test always holds: `upper()` never yields the lower-case `h`
      of the mixed-case pattern. */
  lemma DoctypeUpperTestNeverHolds(c: string)
    ensures !Contains(Upper(c), "<!DOCTYPE html>")
  {
    var pat := "<!DOCTYPE html>";
    ContainsIff(Upper(c), pat);
    if Contains(Upper(c), pat) {
      var i: nat :| StartsAt(Upper(c), pat, i);
      assert Upper(c)[i + 10] == pat[10] == 'h';
      UpperCharNotLowerAscii(c[i + 10]);
    }
  }

  /** So the fallback replaces the content exactly when its lower-cased text lacks `<html`. */
  lemma FallbackIffNoHtmlTag(c: string)
    ensures NeedsFallback(c) <==> !Contains(Lower(c), HTML_OPEN)
  {
    DoctypeUpperTestNeverHolds(c);
  }

  // ---------------------------------------------------------------------
  // Keyword tests on the description (main.py:201 and main.py:255)
  // ---------------------------------------------------------------------

  /** The test choosing the AI prompt (main.py:201). */
  predicate AiPromptTopic(d: string) {
    Contains(Lower(d), "inteligência artificial") || Contains(Lower(d), "ia")
    || Contains(Lower(d), "artificial intelligence")
  }

  /** The test choosing the AI template (main.py:255). */
  predicate AiTemplateTopic(d: string) {
    Contains(Lower(d), "inteligência artificial") || Contains(Lower(d), "ia")
  }

  /** Both tests reduce to the substring `ia`, which the two longer keywords contain. */
  lemma {:induction false} AiTopicsAreIa(d: string)
    ensures AiPromptTopic(d) <==> Contains(Lower(d), "ia")
    ensures AiTemplateTopic(d) <==> Contains(Lower(d), "ia")
  {
    var pt := "inteligência artificial";
    var en := "artificial intelligence";
    assert StartsAt(pt, "ia", 10);
    ContainsWitness(pt, "ia", 10);
    assert StartsAt(en, "ia", 7);
    ContainsWitness(en, "ia", 7);
    if Contains(Lower(d), pt) {
      ContainsTrans(Lower(d), pt, "ia");
    }
    if Contains(Lower(d), en) {
      ContainsTrans(Lower(d), en, "ia");
    }
  }

  /** The test is a plain substring test: a description about cooking selects the AI template. */
  lemma CookingCountsAsAi()
    ensures AiTemplateTopic("crie um site sobre culinária japonesa")
  {
    var d := "crie um site sobre culinária japonesa";
    assert Lower(d) == d;
    assert StartsAt(d, "ia", 26);
    ContainsWitness(d, "ia", 26);
  }

  // ---------------------------------------------------------------------
  // The templates (main.py:257-841) and the failure pages (main.py:866-920)
  // ---------------------------------------------------------------------

  /** The opening every template and failure page shares. */
  const PAGE_HEAD := DOCTYPE_LINE + HTML_OPEN + " lang=\"pt-BR\">\n<head>\n"

  /** The static AI-themed page (main.py:257-699), reduced to its document skeleton. */
  const AI_TEMPLATE := PAGE_HEAD + AI_BODY
  const AI_BODY :=
    "    <meta charset=\"UTF-8\">\n    <title>O Futuro da Inteligência Artificial</title>\n</head>\n"
    + "<body>\n</body>\n</html>"

  /** The generic page (main.py:702-841), reduced to the lines that embed the description. */
  function GenericTemplate(d: string): string {
    PAGE_HEAD + GenericBody(d)
  }

  function GenericBody(d: string): string {
    "    <title>" + d + GenericRest(d)
  }

  function GenericRest(d: string): string {
    "</title>\n</head>\n<body>\n"
    + "            <h1><i class=\"fas fa-star\"></i> " + TitleCase(d) + "</h1>\n"
    + "                <p>Descubra tudo sobre " + d + " em um site moderno e interativo</p>\n"
    + "                        <p>Tecnologia de ponta aplicada a " + d + "</p>\n"
    + "            <p>&copy; 2024 - " + TitleCase(d)
    + " | Desenvolvido com <i class=\"fas fa-heart\" style=\"color: #ff6b6b;\"></i></p>\n"
    + "</body>\n</html>"
  }

  /** A page the handler returns as `content`, named by how it was made; `Render` gives its text. */
  datatype Page =
    | Extracted(html: string)          // the document taken from the reply
    | AiTemplate                       // main.py:257-699
    | GenericTemplateFor(topic: string)  // main.py:702-841
    | FallbackFor(topic: string)       // main.py:866-881
    | ErrorFor(msg: string)            // main.py:895-910

  function Render(p: Page): string {
    match p
    case Extracted(h) => h
    case AiTemplate => AI_TEMPLATE
    case GenericTemplateFor(t) => GenericTemplate(t)
    case FallbackFor(t) => FallbackPage(t)
    case ErrorFor(m) => ErrorPage(m)
  }

  /** The page chosen when the reply holds no document (main.py:255-841). */
  function FallbackSite(d: string): Page {
    if AiTemplateTopic(d) then AiTemplate else GenericTemplateFor(d)
  }

  /** The content of a successful generation: the extracted document, or the fallback page. */
  function SiteContent(d: string, reply: string): Page {
    var c := ExtractHtml(Strip(reply));
    if NeedsFallback(c) then FallbackSite(d) else Extracted(c)
  }

  lemma {:induction false} LowerKeepsHtmlOpen(s: string, k: nat)
    requires StartsAt(s, HTML_OPEN, k)
    ensures Contains(Lower(s), HTML_OPEN)
  {
    assert Lower(s)[k..k + |HTML_OPEN|] == HTML_OPEN by {
      forall j | 0 <= j < |HTML_OPEN| ensures Lower(s)[k + j] == HTML_OPEN[j] {
        assert s[k + j] == HTML_OPEN[j];
      }
    }
    ContainsWitness(Lower(s), HTML_OPEN, k);
  }

  /** Every page that begins with `PAGE_HEAD` holds an `<html` tag. */
  lemma PageHasHtmlTag(rest: string)
    ensures Contains(Lower(PAGE_HEAD + rest), HTML_OPEN)
  {
    var tail := " lang=\"pt-BR\">\n<head>\n" + rest;
    assert PAGE_HEAD + rest == DOCTYPE_LINE + HTML_OPEN + tail;
    InfixAt(DOCTYPE_LINE, HTML_OPEN, tail);
    LowerKeepsHtmlOpen(PAGE_HEAD + rest, |DOCTYPE_LINE|);
  }

  /** The content of a generated site always holds an `<html` tag, so it never trips the
      fallback test again. */
  lemma SiteContentHasHtmlTag(d: string, reply: string)
    ensures Contains(Lower(Render(SiteContent(d, reply))), HTML_OPEN)
  {
    var c := ExtractHtml(Strip(reply));
    FallbackIffNoHtmlTag(c);
    if NeedsFallback(c) {
      if AiTemplateTopic(d) {
        PageHasHtmlTag(AI_BODY);
      } else {
        PageHasHtmlTag(GenericBody(d));
      }
    }
  }

  /** The fallback replaces the content exactly when the extracted text has no `<html` tag;
      the AI page is chosen by the `ia` test, and the generic page embeds the description. */
  lemma SiteContentChoice(d: string, reply: string)
    ensures var c := ExtractHtml(Strip(reply));
      && (Contains(Lower(c), HTML_OPEN) ==> SiteContent(d, reply) == Extracted(c))
      && (!Contains(Lower(c), HTML_OPEN) && Contains(Lower(d), "ia") ==> SiteContent(d, reply) == AiTemplate)
      && (!Contains(Lower(c), HTML_OPEN) && !Contains(Lower(d), "ia") ==>
            SiteContent(d, reply) == GenericTemplateFor(d) && Contains(Render(SiteContent(d, reply)), d))
  {
    var c := ExtractHtml(Strip(reply));
    FallbackIffNoHtmlTag(c);
    AiTopicsAreIa(d);
    ContainsInfix("    <title>", d, GenericRest(d));
    ContainsExtended(PAGE_HEAD, GenericBody(d), "", d);
    assert GenericTemplate(d) == PAGE_HEAD + GenericBody(d) + "";
  }

  /** The DOCTYPE as a reply usually writes it. */
  const DOCTYPE_TAG := "<!DOCTYPE html>"

  /** The tags lower-cased, and the only `<` in each is its first character. */
  lemma TagsLowered()
    ensures Lower(DOCTYPE_TAG) == DOCTYPE_OPEN && Lower(HTML_CLOSE) == HTML_CLOSE
    ensures forall k :: 0 < k < |DOCTYPE_OPEN| ==> DOCTYPE_OPEN[k] != '<'
    ensures forall k :: 0 < k < |HTML_CLOSE| ==> HTML_CLOSE[k] != '<'
  {
    assert forall k :: 0 <= k < |DOCTYPE_OPEN| ==> Lower(DOCTYPE_TAG)[k] == DOCTYPE_OPEN[k];
    assert forall k :: 0 <= k < |HTML_CLOSE| ==> Lower(HTML_CLOSE)[k] == HTML_CLOSE[k];
  }

  /** The lower-cased reply `DOCTYPE_TAG + body + HTML_CLOSE`, for a body without `<`. */
  lemma {:induction false} DoctypeReplyLowered(body: string)
    requires forall k :: 0 <= k < |body| ==> body[k] != '<'
    ensures var l := Lower(DOCTYPE_TAG + body + HTML_CLOSE);
      var n := |DOCTYPE_TAG| + |body|;
      && |l| == n + |HTML_CLOSE|
      && l[..|DOCTYPE_OPEN|] == DOCTYPE_OPEN && l[n..] == HTML_CLOSE
      && l[1] == '!' && l[n + 1] == '/'
      && forall k :: 0 < k < |l| && k != n ==> l[k] != '<'
  {
    var l := Lower(DOCTYPE_TAG + body + HTML_CLOSE);
    var n := |DOCTYPE_TAG| + |body|;
    LowerConcat(DOCTYPE_TAG + body, HTML_CLOSE);
    LowerConcat(DOCTYPE_TAG, body);
    TagsLowered();
    var lb := Lower(body);
    assert l == DOCTYPE_OPEN + lb + HTML_CLOSE;
    forall k | 0 < k < |l| && k != n ensures l[k] != '<' {
      if n < k {
        assert l[k] == HTML_CLOSE[k - n];
      } else if k < |DOCTYPE_OPEN| {
        assert l[k] == DOCTYPE_OPEN[k];
      } else {
        assert l[k] == lb[k - |DOCTYPE_OPEN|] == LowerChar(body[k - |DOCTYPE_OPEN|]);
      }
    }
    assert l[..|DOCTYPE_OPEN|] == DOCTYPE_OPEN;
    assert l[n..] == HTML_CLOSE;
  }

  /** Such a reply is its own document: the DOCTYPE search matches all of it. */
  lemma {:induction false} DoctypeReplyExtracted(body: string)
    requires forall k :: 0 <= k < |body| ==> body[k] != '<'
    ensures ExtractHtml(DOCTYPE_TAG + body + HTML_CLOSE) == DOCTYPE_TAG + body + HTML_CLOSE
  {
    var reply := DOCTYPE_TAG + body + HTML_CLOSE;
    var l := Lower(reply);
    DoctypeReplyLowered(body);
    assert StartsAt(l, DOCTYPE_OPEN, 0);
    assert StartsAt(l, HTML_CLOSE, |reply| - |HTML_CLOSE|);
    assert Matches(reply, DOCTYPE_OPEN, HTML_CLOSE, 0, |reply|);
    forall e': nat | e' < |reply| ensures !Matches(reply, DOCTYPE_OPEN, HTML_CLOSE, 0, e') {
      if |DOCTYPE_OPEN| + |HTML_CLOSE| <= e' {
        assert l[e' - |HTML_CLOSE|] != '<';
        assert l[e' - |HTML_CLOSE|..e'][0] != HTML_CLOSE[0];
        assert !StartsAt(l, HTML_CLOSE, e' - |HTML_CLOSE|);
      }
    }
    DoctypeSpanKept(reply, 0, |reply|);
    assert reply[0..|reply|] == reply;
  }

  /** A tag `pat` cannot occur where no `<` is followed by its second character. */
  lemma {:induction false} NoTagIn(l: string, n: nat, pat: string)
    requires n + 1 < |l| && |pat| >= 2 && pat[0] == '<' && pat[1] != l[1] && pat[1] != l[n + 1]
    requires forall k :: 0 < k < |l| && k != n ==> l[k] != '<'
    ensures !Contains(l, pat)
  {
    ContainsIff(l, pat);
    forall i: nat ensures !StartsAt(l, pat, i) {
      if i + |pat| <= |l| {
        assert l[i..i + |pat|][0] == l[i] && l[i..i + |pat|][1] == l[i + 1];
      }
    }
  }

  /** Such a reply holds no `<html` tag. */
  lemma DoctypeReplyHasNoHtmlTag(body: string)
    requires forall k :: 0 <= k < |body| ==> body[k] != '<'
    ensures !Contains(Lower(DOCTYPE_TAG + body + HTML_CLOSE), HTML_OPEN)
  {
    DoctypeReplyLowered(body);
    NoTagIn(Lower(DOCTYPE_TAG + body + HTML_CLOSE), |DOCTYPE_TAG| + |body|, HTML_OPEN);
  }

  /** A document that opens with the DOCTYPE but has no `<html` tag (here: a body without
      any tag) is cut out whole and then thrown away for the fallback page. */
  lemma DoctypeWithoutHtmlTagDiscarded(d: string, body: string)
    requires forall k :: 0 <= k < |body| ==> body[k] != '<'
    ensures SiteContent(d, DOCTYPE_TAG + body + HTML_CLOSE) == FallbackSite(d)
  {
    var reply := DOCTYPE_TAG + body + HTML_CLOSE;
    assert reply[0] == '<' && reply[|reply| - 1] == '>';
    StripUnchanged(reply);
    DoctypeReplyExtracted(body);
    DoctypeReplyHasNoHtmlTag(body);
    FallbackIffNoHtmlTag(reply);
  }

  // ---------------------------------------------------------------------
  // A raised error (main.py:855-920)
  // ---------------------------------------------------------------------

  /** The minimal page of a transient failure (main.py:866-881). */
  function FallbackPage(d: string): string {
    PAGE_HEAD + (PAGE_META + "    <title>Site: " + d + FallbackRest(d))
  }

  const PAGE_META :=
    "    <meta charset=\"UTF-8\">\n"
    + "    <meta name=\"viewport\" content=\"width=device-width, initial-scale=1.0\">\n"

  function FallbackRest(d: string): string {
    " (Fallback)</title>\n"
    + "    <style>\n        body { font-family: Arial, sans-serif; text-align: center; padding: 50px; }\n    </style>\n"
    + "</head>\n<body>\n"
    + "    <h1>Site sobre: " + d + "</h1>\n"
    + "    <p>Este é um site de fallback gerado devido a um erro na API. Descrição: " + d + "</p>\n"
    + "    <p class=\"warning\">Gerado em modo de fallback</p>\n"
    + "</body>\n</html>"
  }

  /** The minimal page of any other failure (main.py:895-910). */
  function ErrorPage(msg: string): string {
    PAGE_HEAD + (ERROR_HEAD + msg + ERROR_TAIL)
  }

  const ERROR_HEAD :=
    PAGE_META
    + "    <title>Erro</title>\n"
    + "    <style>\n        body { font-family: Arial, sans-serif; text-align: center; padding: 50px; }\n"
    + "        .error { color: #e74c3c; }\n    </style>\n"
    + "</head>\n<body>\n"
    + "    <h1 class=\"error\">Erro ao criar site</h1>\n"
    + "    <p>"
  const ERROR_TAIL := "</p>\n</body>\n</html>"

  /** The `type` field of a handler's record. */
  datatype RecordType = ResearchType | WebsiteType | ErrorType
  {
    function Name(): string {
      match this
      case ResearchType => "research"
      case WebsiteType => "website"
      case ErrorType => "error"
    }
  }

  const TITLE_PREFIX := "Site: "
  const FALLBACK_SUFFIX := " (Fallback)"
  const FALLBACK_DESCRIPTION := "Site de fallback para: "
  const BUILT_PREVIEW := "Site criado com sucesso"
  const FALLBACK_PREVIEW := "Site criado em modo de fallback devido a instabilidade da API"
  const SITE_ERROR := "Erro ao criar site"

  /** The record main.py:843-920 returns; `kind` is its `type` and `url` is always `None`. */
  datatype SiteRecord = SiteRecord(kind: RecordType, title: string, description: string, content: Page, preview: string)

  /** The record of a successful generation (main.py:843-850). */
  function SiteBuilt(d: string, reply: string): SiteRecord {
    SiteRecord(WebsiteType, TITLE_PREFIX + d, d, SiteContent(d, reply), BUILT_PREVIEW)
  }

  /** The record of a raised error with text `msg` (main.py:855-920). */
  function SiteFailure(d: string, msg: string): SiteRecord {
    if MainRetry.IsTransient(msg) then
      SiteRecord(WebsiteType, TITLE_PREFIX + d + FALLBACK_SUFFIX, FALLBACK_DESCRIPTION + d, FallbackFor(d),
                 FALLBACK_PREVIEW)
    else
      SiteRecord(ErrorType, SITE_ERROR, msg, ErrorFor(msg), SITE_ERROR)
  }

  /** A transient error gives a website-typed fallback record naming the description; any other
      error gives an error-typed record whose description is the error text. */
  lemma SiteFailureClassified(d: string, msg: string)
    ensures var r := SiteFailure(d, msg);
      && (r.kind == WebsiteType <==> MainRetry.IsTransient(msg))
      && (r.kind == ErrorType <==> !MainRetry.IsTransient(msg))
      && (MainRetry.IsTransient(msg) ==>
            r.title == "Site: " + d + " (Fallback)" && r.description == "Site de fallback para: " + d
            && r.content == FallbackFor(d))
      && (!MainRetry.IsTransient(msg) ==> r.description == msg && r.content == ErrorFor(msg))
  {
  }

  /** The fallback page names the description, and the error page shows the error text. */
  lemma FailurePagesShowCause(d: string, msg: string)
    ensures Contains(Render(FallbackFor(d)), d)
    ensures Contains(Render(ErrorFor(msg)), msg)
  {
    ContainsInfix(PAGE_META + "    <title>Site: ", d, FallbackRest(d));
    ContainsExtended(PAGE_HEAD, PAGE_META + "    <title>Site: " + d + FallbackRest(d), "", d);
    assert FallbackPage(d) == PAGE_HEAD + (PAGE_META + "    <title>Site: " + d + FallbackRest(d)) + "";
    ContainsInfix(ERROR_HEAD, msg, ERROR_TAIL);
    ContainsExtended(PAGE_HEAD, ERROR_HEAD + msg + ERROR_TAIL, "", msg);
    assert ErrorPage(msg) == PAGE_HEAD + (ERROR_HEAD + msg + ERROR_TAIL) + "";
  }
}
