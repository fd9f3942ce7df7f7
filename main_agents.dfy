/**
 * The two worker agents of main.py: the research handler (`ResearchAgent.research`,
 * main.py:118-163) and the website handler (`CoderAgent.create_website`, main.py:187-920).
 *
 * Each handler is a method on its agent, proved against a function that states the whole
 * outcome: the record returned, the credential left active, the upstream calls made (with
 * the credential active at each call) and the back-off delays slept.
 */
module MainAgents {
  import opened Wrappers
  import opened Text
  import opened Config
  import opened Upstream
  import opened MainCredentials
  import opened MainRetry
  import opened MainSite
  import opened MainPrompts

  // ---------------------------------------------------------------------
  // Records
  // ---------------------------------------------------------------------

  const ERRO := "Erro"
  const NO_KEY_RESEARCH := ERRO + ": Nenhuma chave de API válida disponível para pesquisa"
  const RESEARCH_ERROR := ERRO + " na pesquisa: "
  const SOURCES := ["https://exemplo.com/fonte1", "https://exemplo.com/fonte2", "https://exemplo.com/fonte3"]
  const NO_KEY_SITE_HTML :=
    "<html><body><h1>Erro: Nenhuma chave de API válida disponível para criação de website</h1></body></html>"

  /** The kind of a JSON value other than a string, as `json.loads` returns it. */
  datatype JsonKind = JNull | JBool | JInt | JFloat | JList | JDict
  {
    /** The name of the Python type the value has. */
    function TypeName(): string {
      match this
      case JNull => "NoneType"
      case JBool => "bool"
      case JInt => "int"
      case JFloat => "float"
      case JList => "list"
      case JDict => "dict"
    }
  }

  /** A JSON value handed to a handler: a string, or any other value with its kind, its Python
      truth value and its `str()` text. */
  datatype JsonValue = JStr(s: string) | JOther(kind: JsonKind, truthy: bool, text: string)
  {
    predicate Truthy() {
      match this
      case JStr(s) => s != ""
      case JOther(_, t, _) => t
    }

    /** `str(value)`, as an f-string renders it. */
    function Text(): string {
      match this
      case JStr(s) => s
      case JOther(_, _, t) => t
    }
  }

  /** The text of the `AttributeError` that calling `.lower()` on a value of this kind raises. */
  function NoLowerError(kind: JsonKind): string {
    "'" + kind.TypeName() + "' object has no attribute 'lower'"
  }

  lemma TypeNamePairs(kind: JsonKind)
    ensures NoLowerPair(kind.TypeName(), '5', '0', 0)
    ensures NoLowerPair(kind.TypeName(), 'r', 'n', 0)
    ensures NoLowerPair(kind.TypeName(), 'r', 'e', 0)
  {
    match kind
    case JNull =>
      assert NoLowerPair("NoneType", '5', '0', 0) && NoLowerPair("NoneType", 'r', 'n', 0) && NoLowerPair("NoneType", 'r', 'e', 0);
    case JBool =>
      assert NoLowerPair("bool", '5', '0', 0) && NoLowerPair("bool", 'r', 'n', 0) && NoLowerPair("bool", 'r', 'e', 0);
    case JInt =>
      assert NoLowerPair("int", '5', '0', 0) && NoLowerPair("int", 'r', 'n', 0) && NoLowerPair("int", 'r', 'e', 0);
    case JFloat =>
      assert NoLowerPair("float", '5', '0', 0) && NoLowerPair("float", 'r', 'n', 0) && NoLowerPair("float", 'r', 'e', 0);
    case JList =>
      assert NoLowerPair("list", '5', '0', 0) && NoLowerPair("list", 'r', 'n', 0) && NoLowerPair("list", 'r', 'e', 0);
    case JDict =>
      assert NoLowerPair("dict", '5', '0', 0) && NoLowerPair("dict", 'r', 'n', 0) && NoLowerPair("dict", 'r', 'e', 0);
  }

  /** The error text of a missing `.lower()` holds none of the markers "500", "internal error"
      and "retry", whatever the kind of the value. */
  lemma NoLowerErrorNotTransient(kind: JsonKind)
    ensures !IsTransient(NoLowerError(kind))
  {
    var m := NoLowerError(kind);
    TypeNamePairs(kind);
    SuffixPairs();
    NoLowerErrorPair(kind, '5', '0');
    NoLowerErrorPair(kind, 'r', 'n');
    NoLowerErrorPair(kind, 'r', 'e');
    NoLowerPairNotContained(m, "500", 0);
    NoLowerPairNotContained(m, "internal error", 4);
    NoLowerPairNotContained(m, "retry", 0);
    IsTransientMarkers(m);
  }

  lemma NoLowerErrorPair(kind: JsonKind, a: char, b: char)
    requires a in "5r" && b in "0ne"
    requires NoLowerPair(kind.TypeName(), a, b, 0)
    requires NoLowerPair(" object has no", a, b, 0) && NoLowerPair(" attribute", a, b, 0)
    requires NoLowerPair(" 'lower'", a, b, 0)
    ensures NoLowerPair(NoLowerError(kind), a, b, 0)
  {
    var n := kind.TypeName();
    NoLowerErrorPieces(n);
    NoLowerPairConcat("'", n, a, b);
    NoLowerPairConcat("'" + n, "'", a, b);
    NoLowerPairConcat("'" + n + "'", " object has no", a, b);
    NoLowerPairConcat("'" + n + "'" + " object has no", " attribute", a, b);
    NoLowerPairConcat("'" + n + "'" + " object has no" + " attribute", " 'lower'", a, b);
  }

  lemma SuffixPairs()
    ensures NoLowerPair(" object has no", '5', '0', 0) && NoLowerPair(" attribute", '5', '0', 0)
    ensures NoLowerPair(" 'lower'", '5', '0', 0)
    ensures NoLowerPair(" object has no", 'r', 'n', 0) && NoLowerPair(" attribute", 'r', 'n', 0)
    ensures NoLowerPair(" 'lower'", 'r', 'n', 0)
    ensures NoLowerPair(" object has no", 'r', 'e', 0) && NoLowerPair(" attribute", 'r', 'e', 0)
    ensures NoLowerPair(" 'lower'", 'r', 'e', 0)
  {
  }

  lemma NoLowerErrorPieces(n: string)
    ensures "'" + n + "' object has no attribute 'lower'"
         == "'" + n + "'" + " object has no" + " attribute" + " 'lower'"
  {
    assert "' object has no attribute 'lower'" == "'" + " object has no" + " attribute" + " 'lower'";
  }

  /** A handler's result record. */
  datatype Artifact =
    | ResearchResult(query: JsonValue, results: string, sources: seq<string>)
      // main.py:124-129, 147-156, 158-163: type "research"
    | SiteKeyError(description: string)
      // main.py:221-228: type "website", html NO_KEY_SITE_HTML, css = js = "", status "error"
    | Site(record: SiteRecord)
      // main.py:843-850, 885-892, 913-920
  {
    /** The record's `type` field. */
    function Kind(): RecordType {
      match this
      case ResearchResult(_, _, _) => ResearchType
      case SiteKeyError(_) => WebsiteType
      case Site(r) => r.kind
    }
  }

  // ---------------------------------------------------------------------
  // Models
  // ---------------------------------------------------------------------

  /** `MODEL_BASE if level == "base" else MODEL_MEDIO if level == "medio" else MODEL_AVANCADO`
      (main.py:116 and main.py:168). */
  function ModelFor(s: Settings, level: string): string {
    if level == "base" then s.modelBase
    else if level == "medio" then s.modelMedio
    else s.modelAvancado
  }

  // ---------------------------------------------------------------------
  // ResearchAgent.research (main.py:118-163)
  // ---------------------------------------------------------------------

  /** The query may be any JSON value: the prompt interpolates its `str()` text and the
      record keeps the value itself. */
  function ResearchSpec(env: Env, level: string, start: nat, active: Option<string>, query: JsonValue): Outcome<Artifact, Prompt> {
    match Resolve(env.keys, env.refused, level)
    case Err(m) => Outcome(ResearchResult(query, RESEARCH_ERROR + m, []), active, [], [])
    case Ok(None) => Outcome(ResearchResult(query, NO_KEY_RESEARCH, []), active, [], [])
    case Ok(Some(k)) =>
      var run := Retry(env.replies, start, env.settings.maxRetries, env.settings.baseDelay);
      var call := Call(Some(k), ModelFor(env.settings, level), ResearchPrompt(query.Text()));
      var a := match run.result
        case Ok(t) => ResearchResult(query, t, SOURCES)
        case Err(m) => ResearchResult(query, RESEARCH_ERROR + m, []);
      Outcome(a, Some(k), Repeat(call, run.attempts), run.delays)
  }

  /** The research record always names the query; it carries the sources exactly when a key
      was activated and an attempt succeeded, and then its results are that attempt's text;
      otherwise its results are the no-key text or the error text. No upstream call is made
      without a key, and every call is made under the key the handler activated. */
  lemma ResearchOutcome(env: Env, level: string, start: nat, active: Option<string>, query: JsonValue)
    ensures var o := ResearchSpec(env, level, start, active, query);
      var key := Resolve(env.keys, env.refused, level);
      var run := Retry(env.replies, start, env.settings.maxRetries, env.settings.baseDelay);
      && o.value.ResearchResult? && o.value.query == query && o.value.Kind() == ResearchType
      && (o.value.sources == SOURCES <==> key.Ok? && key.value.Some? && run.result.Ok?)
      && (o.value.sources != SOURCES ==> o.value.sources == [])
      && (key.Err? ==> o.value.results == RESEARCH_ERROR + key.msg)
      && (key == Ok(None) ==> o.value.results == NO_KEY_RESEARCH)
      && (key.Ok? && key.value.Some? ==>
            o.value.results == (if run.result.Ok? then run.result.value else RESEARCH_ERROR + run.result.msg))
      && (!(key.Ok? && key.value.Some?) ==> o.calls == [] && o.delays == [] && o.active == active)
      && (key.Ok? && key.value.Some? ==>
            o.active == key.value && (forall i :: 0 <= i < |o.calls| ==> o.calls[i].key == key.value))
  {
  }

  /** Both failure texts of the research handler begin with "Erro". */
  lemma ResearchFailureTexts(m: string)
    ensures StartsWith(NO_KEY_RESEARCH, ERRO) && StartsWith(RESEARCH_ERROR + m, ERRO)
  {
    assert RESEARCH_ERROR + m == ERRO + (" na pesquisa: " + m);
    assert (ERRO + (" na pesquisa: " + m))[..|ERRO|] == ERRO;
    assert NO_KEY_RESEARCH[..|ERRO|] == ERRO;
  }

  class ResearchAgent {
    const level: string
    const settings: Settings
    const modelName := ModelFor(settings, level)

    constructor (level: string, settings: Settings)
      ensures this.level == level && this.settings == settings
    {
      this.level := level;
      this.settings := settings;
    }

    /** `research(query)`, under the process-wide credential configuration `cfg`. */
    method Research(cfg: ApiConfig, up: Oracle<Prompt>, query: JsonValue) returns (a: Artifact)
      modifies cfg, up
      ensures var o := ResearchSpec(Env(cfg.keys, cfg.refused, settings, up.replies), level,
                                    old(up.attempts), old(cfg.active), query);
        && a == o.value && cfg.active == o.active
        && Performed(up, old(up.attempts), old(up.calls), old(up.sleeps), o.calls, o.delays)
    {
      var key := cfg.ConfigureWithBackup(level);
      match key
      case Err(m) =>
        return ResearchResult(query, RESEARCH_ERROR + m, []);
      case Ok(None) =>
        return ResearchResult(query, NO_KEY_RESEARCH, []);
      case Ok(Some(k)) =>
        var r := RetryWithBackoff(up, cfg.active, modelName, ResearchPrompt(query.Text()),
                                  settings.maxRetries, settings.baseDelay);
        match r
        case Ok(t) =>
          return ResearchResult(query, t, SOURCES);
        case Err(m) =>
          return ResearchResult(query, RESEARCH_ERROR + m, []);
    }
  }

  // ---------------------------------------------------------------------
  // CoderAgent.create_website (main.py:187-920)
  // ---------------------------------------------------------------------

  function WebsiteSpec(env: Env, level: string, start: nat, active: Option<string>, d: string): Outcome<Artifact, Prompt> {
    match Resolve(env.keys, env.refused, level)
    case Err(m) => Outcome(Site(SiteFailure(d, m)), active, [], [])
    case Ok(None) => Outcome(SiteKeyError(d), active, [], [])
    case Ok(Some(k)) =>
      var run := Retry(env.replies, start, env.settings.coderMaxRetries, env.settings.coderBaseDelay);
      var call := Call(Some(k), ModelFor(env.settings, level), CoderPrompt(d));
      var a := match run.result
        case Ok(t) => Site(SiteBuilt(d, t))
        case Err(m) => Site(SiteFailure(d, m));
      Outcome(a, Some(k), Repeat(call, run.attempts), run.delays)
  }

  /** The website record is typed "error" exactly when the handler caught a non-transient
      error; a generated site's content is the reply's page; without a key there is no call. */
  lemma WebsiteOutcome(env: Env, level: string, start: nat, active: Option<string>, d: string)
    ensures var o := WebsiteSpec(env, level, start, active, d);
      var key := Resolve(env.keys, env.refused, level);
      var run := Retry(env.replies, start, env.settings.coderMaxRetries, env.settings.coderBaseDelay);
      && (o.value.Kind() == ErrorType <==>
            (key.Err? && !IsTransient(key.msg))
            || (key.Ok? && key.value.Some? && run.result.Err? && !IsTransient(run.result.msg)))
      && (o.value.Kind() != ErrorType ==> o.value.Kind() == WebsiteType)
      && (key == Ok(None) ==> o.value == SiteKeyError(d))
      && (key.Ok? && key.value.Some? && run.result.Ok? ==>
            o.value.Site? && o.value.record.description == d
            && o.value.record.content == SiteContent(d, run.result.value))
      && (!(key.Ok? && key.value.Some?) ==> o.calls == [] && o.delays == [] && o.active == active)
  {
    var key := Resolve(env.keys, env.refused, level);
    var run := Retry(env.replies, start, env.settings.coderMaxRetries, env.settings.coderBaseDelay);
    if key.Err? {
      SiteFailureClassified(d, key.msg);
    } else if key.value.Some? {
      if run.result.Err? {
        SiteFailureClassified(d, run.result.msg);
      }
    }
  }

  /** `create_website(description)` for any JSON value. A description that is not a string
      has no `.lower()`, so the AI-topic test (main.py:192) raises before any credential is
      configured, and the handler's `except` (main.py:855-920) turns the `AttributeError` into
      a record. */
  function CreateWebsiteSpec(env: Env, level: string, start: nat, active: Option<string>, d: JsonValue): Outcome<Artifact, Prompt> {
    match d
    case JStr(s) => WebsiteSpec(env, level, start, active, s)
    case JOther(kind, _, text) => Outcome(Site(SiteFailure(text, NoLowerError(kind))), active, [], [])
  }

  /** A description that is not a string gives the error-typed record of the `AttributeError`,
      with no credential configured, no upstream call and no sleep. */
  lemma NonStringDescriptionRaises(env: Env, level: string, start: nat, active: Option<string>, d: JsonValue)
    requires d.JOther?
    ensures var o := CreateWebsiteSpec(env, level, start, active, d);
      var m := "'" + d.kind.TypeName() + "' object has no attribute 'lower'";
      && o.value == Site(SiteRecord(ErrorType, "Erro ao criar site", m, ErrorFor(m), "Erro ao criar site"))
      && o.active == active && o.calls == [] && o.delays == []
  {
    NoLowerErrorNotTransient(d.kind);
  }

  /** Whatever the model replies, a generated site holds an `<html` tag. */
  lemma GeneratedSiteHasHtmlTag(env: Env, level: string, start: nat, active: Option<string>, d: string)
    requires Resolve(env.keys, env.refused, level).Ok? && Resolve(env.keys, env.refused, level).value.Some?
    requires Retry(env.replies, start, env.settings.coderMaxRetries, env.settings.coderBaseDelay).result.Ok?
    ensures var o := WebsiteSpec(env, level, start, active, d);
      o.value.Site? && Contains(Lower(Render(o.value.record.content)), HTML_OPEN)
  {
    SiteContentHasHtmlTag(d, Retry(env.replies, start, env.settings.coderMaxRetries, env.settings.coderBaseDelay).result.value);
  }

  /** Transient errors on every attempt give the fallback-tagged website record, not an
      error record, after exactly `coderMaxRetries` attempts. */
  lemma WebsiteTransientExhaustion(env: Env, level: string, start: nat, active: Option<string>, d: string)
    requires Resolve(env.keys, env.refused, level).Ok? && Resolve(env.keys, env.refused, level).value.Some?
    requires env.settings.coderMaxRetries >= 1
    requires forall i :: start <= i < start + env.settings.coderMaxRetries ==> IsTransientFailure(env.replies(i))
    ensures var o := WebsiteSpec(env, level, start, active, d);
      && IsTransientFailure(env.replies(start + env.settings.coderMaxRetries - 1))
      && o.value.Kind() == WebsiteType
      && o.value == Site(SiteFailure(d, env.replies(start + env.settings.coderMaxRetries - 1).msg))
      && o.value.record.title == "Site: " + d + " (Fallback)"
      && |o.calls| == env.settings.coderMaxRetries
  {
    RetryExhaustion(env.replies, start, env.settings.coderMaxRetries, env.settings.coderBaseDelay);
    var m := env.replies(start + env.settings.coderMaxRetries - 1).msg;
    SiteFailureClassified(d, m);
  }

  class CoderAgent {
    const level: string
    const settings: Settings
    const modelName := ModelFor(settings, level)

    constructor (level: string, settings: Settings)
      ensures this.level == level && this.settings == settings
    {
      this.level := level;
      this.settings := settings;
    }

    /** `create_website(description)`, under the process-wide credential configuration `cfg`. */
    method CreateWebsite(cfg: ApiConfig, up: Oracle<Prompt>, description: JsonValue) returns (a: Artifact)
      modifies cfg, up
      ensures var o := CreateWebsiteSpec(Env(cfg.keys, cfg.refused, settings, up.replies), level,
                                         old(up.attempts), old(cfg.active), description);
        && a == o.value && cfg.active == o.active
        && Performed(up, old(up.attempts), old(up.calls), old(up.sleeps), o.calls, o.delays)
    {
      if description.JOther? {
        return Site(SiteFailure(description.text, NoLowerError(description.kind)));
      }
      var d := description.s;
      var prompt := CoderPrompt(d);
      var key := cfg.ConfigureWithBackup(level);
      match key
      case Err(m) =>
        return Site(SiteFailure(d, m));
      case Ok(None) =>
        return SiteKeyError(d);
      case Ok(Some(k)) =>
        var r := RetryWithBackoff(up, cfg.active, modelName, prompt,
                                  settings.coderMaxRetries, settings.coderBaseDelay);
        match r
        case Ok(t) =>
          var html := ExtractHtml(Strip(t));
          var content := Extracted(html);
          if NeedsFallback(html) {
            content := FallbackSite(d);
          }
          return Site(SiteRecord(WebsiteType, TITLE_PREFIX + d, d, content, BUILT_PREVIEW));
        case Err(m) =>
          return Site(SiteFailure(d, m));
    }
  }
}
