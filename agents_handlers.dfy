/**
 * The three agents of api/agents.py (api/agents.py:104-320), the variant the serverless
 * entry points use. Every handler configures its own tier's credential (primary, then
 * backup), makes its upstream calls through `retry_with_backoff`, and catches every error
 * into an "error" dictionary: none of them raises.
 *
 * Each handler is a method on its agent, proved against a function that states the whole
 * outcome: the dictionary returned, the credential left active, the upstream calls made
 * (with the credential active at each call) and the back-off delays slept.
 */
module AgentsHandlers {
  import opened Wrappers
  import opened Text
  import opened Config
  import opened Upstream
  import opened AgentsCredentials
  import opened AgentsRetry
  import opened AgentsCode
  import opened AgentsPrompts

  // ---------------------------------------------------------------------
  // Responses
  // ---------------------------------------------------------------------

  /** The dictionary's `type` field. */
  datatype ResponseType = ResearchType | WebsiteType | ChatType | ErrorType

  const NO_KEYS := "Não foi possível configurar as chaves de API"
  const RESEARCH_CONFIG_ERROR := "Erro na configuração da API de pesquisa"
  const CODER_CONFIG_ERROR := "Erro na configuração da API de desenvolvimento"
  const MAIN_CONFIG_ERROR := "Erro na configuração da API principal"
  const RESEARCH_FAILED := "Erro na pesquisa: "
  const WEBSITE_FAILED := "Erro na criação do website: "
  const REQUEST_FAILED := "Desculpe, ocorreu um erro ao processar sua mensagem: "

  /** A handler's dictionary, one constructor per shape of dictionary the source builds. */
  datatype Response =
    | ConfigError(content: string)
      // "type": "error", "content", "details": NO_KEYS (api/agents.py:116-120, 200-204, 260-264)
    | Researched(content: string, query: string, modelUsed: string)
      // "type": "research" (api/agents.py:143-148)
    | ResearchFailed(content: string, query: string)
      // "type": "error" (api/agents.py:152-156)
    | Built(content: string, code: CodeBlocks, description: string, modelUsed: string)
      // "type": "website" (api/agents.py:231-237)
    | BuildFailed(content: string, description: string)
      // "type": "error" (api/agents.py:241-245)
    | Chatted(content: string, message: string, modelUsed: string)
      // "type": "chat" (api/agents.py:307-312)
    | RequestFailed(content: string, message: string)
      // "type": "error" (api/agents.py:316-320)
  {
    function Kind(): ResponseType {
      match this
      case Researched(_, _, _) => ResearchType
      case Built(_, _, _, _) => WebsiteType
      case Chatted(_, _, _) => ChatType
      case _ => ErrorType
    }
  }

  // ---------------------------------------------------------------------
  // Models
  // ---------------------------------------------------------------------

  /** The research agent's model: unknown tiers fall to the advanced model (api/agents.py:107). */
  function ResearchModel(s: Settings, level: string): string {
    if level == "base" then s.modelBase
    else if level == "medio" then s.modelMedio
    else s.modelAvancado
  }

  /** The coder agent's model: unknown tiers fall to the base model (api/agents.py:161). */
  function CoderModel(s: Settings, level: string): string {
    if level == "medio" then s.modelMedio
    else if level == "avancado" then s.modelAvancado
    else s.modelBase
  }

  /** The two agents agree on the three known tiers and part ways on any other. */
  lemma ModelChoices(s: Settings, level: string)
    requires s.modelBase != s.modelAvancado
    ensures level in {"base", "medio", "avancado"} <==> ResearchModel(s, level) == CoderModel(s, level)
    ensures level !in {"base", "medio", "avancado"} ==>
      ResearchModel(s, level) == s.modelAvancado && CoderModel(s, level) == s.modelBase
  {
  }

  // ---------------------------------------------------------------------
  // ResearchAgent.research (api/agents.py:109-156)
  // ---------------------------------------------------------------------

  function ResearchSpec(env: Env, level: string, start: nat, active: Option<string>, query: string): Outcome<Response, Ask> {
    match Resolve(env.keys, env.refused, level)
    case None => Outcome(ConfigError(RESEARCH_CONFIG_ERROR), active, [], [])
    case Some(k) =>
      var run := Retry(env.replies, start, env.settings.maxRetries, env.settings.baseDelay);
      var call := Call(Some(k), ResearchModel(env.settings, level), ResearchAsk(query));
      var r := match run.result
        case Ok(t) => Researched(t, query, ResearchModel(env.settings, level))
        case Err(m) => ResearchFailed(RESEARCH_FAILED + m, query);
      Outcome(r, Some(k), Repeat(call, run.attempts), run.delays)
  }

  /** Without a key: the configuration error and no call. With one: every call is made
      under it, and the dictionary is typed "research" exactly when an attempt succeeded,
      carrying that attempt's text; otherwise it carries the last error. */
  lemma ResearchOutcome(env: Env, level: string, start: nat, active: Option<string>, query: string)
    ensures var o := ResearchSpec(env, level, start, active, query);
      var key := Resolve(env.keys, env.refused, level);
      var run := Retry(env.replies, start, env.settings.maxRetries, env.settings.baseDelay);
      && (key.None? ==> o == Outcome(ConfigError(RESEARCH_CONFIG_ERROR), active, [], []))
      && (key.Some? ==>
            && o.active == key
            && (forall i :: 0 <= i < |o.calls| ==> o.calls[i].key == key && o.calls[i].prompt == ResearchAsk(query))
            && |o.calls| == run.attempts && o.delays == run.delays
            && (o.value.Kind() == ResearchType <==> run.result.Ok?)
            && (run.result.Ok? ==> o.value.content == run.result.value && o.value.query == query)
            && (run.result.Err? ==> o.value == ResearchFailed(RESEARCH_FAILED + run.result.msg, query)))
  {
  }

  // ---------------------------------------------------------------------
  // CoderAgent.create_website (api/agents.py:194-245)
  // ---------------------------------------------------------------------

  function WebsiteSpec(env: Env, level: string, start: nat, active: Option<string>, d: string): Outcome<Response, Ask> {
    match Resolve(env.keys, env.refused, level)
    case None => Outcome(ConfigError(CODER_CONFIG_ERROR), active, [], [])
    case Some(k) =>
      var run := Retry(env.replies, start, env.settings.coderMaxRetries, env.settings.coderBaseDelay);
      var call := Call(Some(k), CoderModel(env.settings, level), CodingAsk(d));
      var r := match run.result
        case Ok(t) => Built(t, CodeBlocks(t, "", ""), d, CoderModel(env.settings, level))
        case Err(m) => BuildFailed(WEBSITE_FAILED + m, d);
      Outcome(r, Some(k), Repeat(call, run.attempts), run.delays)
  }

  /** Without a key: the configuration error and no call. With one: the coder's retry policy
      applies, and a generated website's content and HTML are both the whole reply, with
      no CSS and no JS, whatever code blocks the reply holds. */
  lemma WebsiteOutcome(env: Env, level: string, start: nat, active: Option<string>, d: string)
    ensures var o := WebsiteSpec(env, level, start, active, d);
      var key := Resolve(env.keys, env.refused, level);
      var run := Retry(env.replies, start, env.settings.coderMaxRetries, env.settings.coderBaseDelay);
      && (key.None? ==> o == Outcome(ConfigError(CODER_CONFIG_ERROR), active, [], []))
      && (key.Some? ==>
            && o.active == key
            && (forall i :: 0 <= i < |o.calls| ==> o.calls[i].key == key && o.calls[i].prompt == CodingAsk(d))
            && |o.calls| == run.attempts && o.delays == run.delays
            && (o.value.Kind() == WebsiteType <==> run.result.Ok?)
            && (run.result.Ok? ==>
                  o.value.content == run.result.value && o.value.code.html == run.result.value
                  && o.value.code.css == "" && o.value.code.js == "" && o.value.description == d)
            && (run.result.Err? ==> o.value == BuildFailed(WEBSITE_FAILED + run.result.msg, d)))
  {
  }

  // ---------------------------------------------------------------------
  // SupervisorAgent.process_request (api/agents.py:247-320)
  // ---------------------------------------------------------------------

  /** The intent the analysis reply names, `"RESEARCH"` taking precedence over `"CODE"`. */
  datatype Intent = ResearchIntent | CodeIntent | ChatIntent

  /** `intent = text.strip().upper()`, then the two substring tests. */
  function IntentOf(text: string): (i: Intent)
    ensures i == ResearchIntent <==> Contains(Upper(Strip(text)), "RESEARCH")
    ensures i == CodeIntent <==> !Contains(Upper(Strip(text)), "RESEARCH") && Contains(Upper(Strip(text)), "CODE")
  {
    var intent := Upper(Strip(text));
    if Contains(intent, "RESEARCH") then ResearchIntent
    else if Contains(intent, "CODE") then CodeIntent
    else ChatIntent
  }

  /** The supervisor's own tier. */
  const SUPERVISOR_LEVEL := "avancado"

  /** What the request does after the analysis call succeeded with `text`, under the
      supervisor's key `k`, from attempt `start` on. */
  function AfterAnalysis(env: Env, researchLevel: string, coderLevel: string, start: nat, k: string,
                         message: string, text: string): Outcome<Response, Ask>
  {
    match IntentOf(text)
    case ResearchIntent => ResearchSpec(env, researchLevel, start, Some(k), message)
    case CodeIntent => WebsiteSpec(env, coderLevel, start, Some(k), message)
    case ChatIntent =>
      var s := env.settings;
      var chat := Retry(env.replies, start, s.maxRetries, s.baseDelay);
      var r := match chat.result
        case Ok(t) => Chatted(t, message, s.modelAvancado)
        case Err(m) => RequestFailed(REQUEST_FAILED + m, message);
      Outcome(r, Some(k), Repeat(Call(Some(k), s.modelAvancado, ChatAsk(message)), chat.attempts), chat.delays)
  }

  /** The whole request, with the research agent at tier `researchLevel` and the coder at
      tier `coderLevel` (api/agents.py:249-250 creates them at "base" and "medio"). */
  function ProcessSpec(env: Env, researchLevel: string, coderLevel: string,
                       start: nat, active: Option<string>, message: string): Outcome<Response, Ask>
  {
    match Resolve(env.keys, env.refused, SUPERVISOR_LEVEL)
    case None => Outcome(ConfigError(MAIN_CONFIG_ERROR), active, [], [])
    case Some(k) =>
      var s := env.settings;
      var run := Retry(env.replies, start, s.maxRetries, s.baseDelay);
      var asked := Repeat(Call(Some(k), s.modelAvancado, AnalysisAsk(message)), run.attempts);
      match run.result
      case Err(m) => Outcome(RequestFailed(REQUEST_FAILED + m, message), Some(k), asked, run.delays)
      case Ok(text) =>
        var h := AfterAnalysis(env, researchLevel, coderLevel, start + run.attempts, k, message, text);
        Outcome(h.value, h.active, asked + h.calls, run.delays + h.delays)
  }

  /** The analysis reply is read case-insensitively for ASCII letters: "research", "Research"
      and "RESEARCH" route the same way. */
  lemma IntentIgnoresCase(text: string)
    ensures IntentOf(text) == IntentOf(Upper(text))
  {
    UpperStripCommute(text);
    UpperIdempotent(Strip(text));
  }

  /** Without an "avancado" key: the configuration error and no upstream call at all. */
  lemma NoCredentialNoCall(env: Env, researchLevel: string, coderLevel: string,
                           start: nat, active: Option<string>, message: string)
    requires !(Present(env.keys.avancado.primary) && env.keys.avancado.primary.value !in env.refused)
    requires !(Present(env.keys.avancado.backup) && env.keys.avancado.backup.value !in env.refused)
    ensures ProcessSpec(env, researchLevel, coderLevel, start, active, message)
      == Outcome(ConfigError(MAIN_CONFIG_ERROR), active, [], [])
  {
    ResolvePrimaryThenBackup(env.keys, env.refused, SUPERVISOR_LEVEL);
  }

  /** The request never raises: its dictionary is typed "error" exactly when a configuration
      failed or an upstream call exhausted its retries, and each other type comes from the
      handler its intent names. */
  lemma ProcessTyped(env: Env, researchLevel: string, coderLevel: string,
                     start: nat, active: Option<string>, message: string)
    requires Resolve(env.keys, env.refused, SUPERVISOR_LEVEL).Some?
    requires Retry(env.replies, start, env.settings.maxRetries, env.settings.baseDelay).result.Ok?
    ensures var run := Retry(env.replies, start, env.settings.maxRetries, env.settings.baseDelay);
      var o := ProcessSpec(env, researchLevel, coderLevel, start, active, message);
      && (IntentOf(run.result.value) == ResearchIntent ==> o.value.Kind() in {ResearchType, ErrorType})
      && (IntentOf(run.result.value) == CodeIntent ==> o.value.Kind() in {WebsiteType, ErrorType})
      && (IntentOf(run.result.value) == ChatIntent ==> o.value.Kind() in {ChatType, ErrorType})
  {
  }

  /** The research and website handlers reconfigure their own tier's key, which stays active
      after the request; a chat keeps the supervisor's key active. */
  lemma ActiveKeyAfterRequest(env: Env, researchLevel: string, coderLevel: string,
                              start: nat, active: Option<string>, message: string)
    requires Resolve(env.keys, env.refused, SUPERVISOR_LEVEL).Some?
    requires Retry(env.replies, start, env.settings.maxRetries, env.settings.baseDelay).result.Ok?
    ensures var run := Retry(env.replies, start, env.settings.maxRetries, env.settings.baseDelay);
      var k := Resolve(env.keys, env.refused, SUPERVISOR_LEVEL);
      var o := ProcessSpec(env, researchLevel, coderLevel, start, active, message);
      var intent := IntentOf(run.result.value);
      && (intent == ResearchIntent && Resolve(env.keys, env.refused, researchLevel).Some? ==>
            o.active == Resolve(env.keys, env.refused, researchLevel))
      && (intent == CodeIntent && Resolve(env.keys, env.refused, coderLevel).Some? ==>
            o.active == Resolve(env.keys, env.refused, coderLevel))
      && (intent == ChatIntent ==> o.active == k)
  {
  }

  // ---------------------------------------------------------------------
  // The agents
  // ---------------------------------------------------------------------

  class ResearchAgent {
    const level: string
    const settings: Settings
    const modelName := ResearchModel(settings, level)

    constructor (level: string, settings: Settings)
      ensures this.level == level && this.settings == settings
    {
      this.level := level;
      this.settings := settings;
    }

    /** `research(query)`, under the process-wide credential configuration `cfg`. */
    method Research(cfg: ApiConfig, up: Oracle<Ask>, query: string) returns (r: Response)
      modifies cfg, up
      ensures var o := ResearchSpec(Env(cfg.keys, cfg.refused, settings, up.replies), level,
                                    old(up.attempts), old(cfg.active), query);
        && r == o.value && cfg.active == o.active
        && Performed(up, old(up.attempts), old(up.calls), old(up.sleeps), o.calls, o.delays)
    {
      var key := cfg.ConfigureWithBackup(level);
      if key.None? {
        return ConfigError(RESEARCH_CONFIG_ERROR);
      }
      var reply := RetryWithBackoff(up, cfg.active, modelName, ResearchAsk(query),
                                    settings.maxRetries, settings.baseDelay);
      match reply
      case Ok(t) =>
        return Researched(t, query, modelName);
      case Err(m) =>
        return ResearchFailed(RESEARCH_FAILED + m, query);
    }
  }

  class CoderAgent {
    const level: string
    const settings: Settings
    const modelName := CoderModel(settings, level)

    constructor (level: string, settings: Settings)
      ensures this.level == level && this.settings == settings
    {
      this.level := level;
      this.settings := settings;
    }

    /** `create_website(description)`, under the process-wide credential configuration `cfg`. */
    method CreateWebsite(cfg: ApiConfig, up: Oracle<Ask>, d: string) returns (r: Response)
      modifies cfg, up
      ensures var o := WebsiteSpec(Env(cfg.keys, cfg.refused, settings, up.replies), level,
                                   old(up.attempts), old(cfg.active), d);
        && r == o.value && cfg.active == o.active
        && Performed(up, old(up.attempts), old(up.calls), old(up.sleeps), o.calls, o.delays)
    {
      var key := cfg.ConfigureWithBackup(level);
      if key.None? {
        return ConfigError(CODER_CONFIG_ERROR);
      }
      var reply := RetryWithBackoff(up, cfg.active, modelName, CodingAsk(d),
                                    settings.coderMaxRetries, settings.coderBaseDelay);
      match reply
      case Ok(t) =>
        var code := ExtractCodeBlocks(t);
        return Built(t, code, d, modelName);
      case Err(m) =>
        return BuildFailed(WEBSITE_FAILED + m, d);
    }
  }

  class SupervisorAgent {
    const researchAgent: ResearchAgent
    const coderAgent: CoderAgent
    const settings: Settings

    constructor (settings: Settings)
      ensures this.settings == settings
      ensures researchAgent.level == "base" && researchAgent.settings == settings
      ensures coderAgent.level == "medio" && coderAgent.settings == settings
    {
      this.settings := settings;
      researchAgent := new ResearchAgent("base", settings);
      coderAgent := new CoderAgent("medio", settings);
    }

    /** `process_request(message)`, under the process-wide credential configuration `cfg`. */
    method ProcessRequest(cfg: ApiConfig, up: Oracle<Ask>, message: string) returns (r: Response)
      requires researchAgent.settings == settings && coderAgent.settings == settings
      modifies cfg, up
      ensures var o := ProcessSpec(Env(cfg.keys, cfg.refused, settings, up.replies),
                                   researchAgent.level, coderAgent.level, old(up.attempts), old(cfg.active), message);
        && r == o.value && cfg.active == o.active
        && Performed(up, old(up.attempts), old(up.calls), old(up.sleeps), o.calls, o.delays)
    {
      var key := cfg.ConfigureWithBackup(SUPERVISOR_LEVEL);
      if key.None? {
        return ConfigError(MAIN_CONFIG_ERROR);
      }
      var analysis := RetryWithBackoff(up, cfg.active, settings.modelAvancado, AnalysisAsk(message),
                                       settings.maxRetries, settings.baseDelay);
      if analysis.Err? {
        return RequestFailed(REQUEST_FAILED + analysis.msg, message);
      }
      ghost var env := Env(cfg.keys, cfg.refused, settings, up.replies);
      ghost var k := key.value;
      ghost var run := Retry(env.replies, old(up.attempts), settings.maxRetries, settings.baseDelay);
      ghost var asked := Repeat(Call(Some(k), settings.modelAvancado, AnalysisAsk(message)), run.attempts);
      ghost var mid := up.attempts;
      ghost var calls1, sleeps1 := up.calls, up.sleeps;
      assert mid == old(up.attempts) + run.attempts && calls1 == old(up.calls) + asked
          && sleeps1 == old(up.sleeps) + run.delays;
      r := Handle(cfg, up, message, analysis.value, k);
      ghost var h := AfterAnalysis(env, researchAgent.level, coderAgent.level, mid, k, message, analysis.value);
      assert Performed(up, mid, calls1, sleeps1, h.calls, h.delays);
      PerformedInSequence(up, old(up.attempts), old(up.calls), old(up.sleeps), asked, run.delays, h.calls, h.delays);
    }

    /** The branch on the analysis reply `text` (api/agents.py:286-312), run with the key `k`
        the supervisor left active. */
    method Handle(cfg: ApiConfig, up: Oracle<Ask>, message: string, text: string, ghost k: string) returns (r: Response)
      requires researchAgent.settings == settings && coderAgent.settings == settings
      requires cfg.active == Some(k)
      modifies cfg, up
      ensures var o := AfterAnalysis(Env(cfg.keys, cfg.refused, settings, up.replies),
                                     researchAgent.level, coderAgent.level, old(up.attempts), k, message, text);
        && r == o.value && cfg.active == o.active
        && Performed(up, old(up.attempts), old(up.calls), old(up.sleeps), o.calls, o.delays)
    {
      var intent := Upper(Strip(text));
      if Contains(intent, "RESEARCH") {
        r := researchAgent.Research(cfg, up, message);
      } else if Contains(intent, "CODE") {
        r := coderAgent.CreateWebsite(cfg, up, message);
      } else {
        var chat := RetryWithBackoff(up, cfg.active, settings.modelAvancado, ChatAsk(message),
                                     settings.maxRetries, settings.baseDelay);
        match chat
        case Ok(t) =>
          r := Chatted(t, message, settings.modelAvancado);
        case Err(m) =>
          r := RequestFailed(REQUEST_FAILED + m, message);
      }
    }
  }
}
