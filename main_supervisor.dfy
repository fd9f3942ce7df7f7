/**
 * The supervisor agent of main.py (`SupervisorAgent`, main.py:922-1061), proved equal to
 * `ProcessSpec` of `MainRouting`, and the properties of a whole request.
 */
module MainSupervisor {
  import opened Wrappers
  import opened Text
  import opened Config
  import opened Upstream
  import opened MainCredentials
  import opened MainRetry
  import opened MainSite
  import opened MainPrompts
  import opened MainAgents
  import opened MainRouting

  /** The handler's envelope is well shaped and typed by its route; only a conversation
      can fail. */
  lemma DispatchEnvelopeShape(env: Env, researchLevel: string, coderLevel: string, start: nat, k: string, route: Route)
    ensures var e := DispatchSpec(env, researchLevel, coderLevel, start, k, route).value;
      && WellShaped(e)
      && (route.Converse? ==> e.kind == ConversationReply || e.kind == ErrorReply)
      && (route.DoResearch? ==> e.kind == ResearchReply)
      && (route.DoWebsite? ==> e.kind == WebsiteReply)
  {
    if route.DoResearch? {
      ResearchOutcome(env, researchLevel, start, Some(k), route.query);
    }
  }

  /** After a successful decision the request's outcome is the decision calls followed by
      the chosen handler's outcome. */
  lemma ProcessDispatches(env: Env, parse: string -> Option<Decision>, researchLevel: string, coderLevel: string,
                          start: nat, active: Option<string>, message: string)
    requires Resolve(env.keys, env.refused, "medio").Ok? && Resolve(env.keys, env.refused, "medio").value.Some?
    requires Retry(env.replies, start, env.settings.maxRetries, env.settings.baseDelay).result.Ok?
    ensures var k := Resolve(env.keys, env.refused, "medio").value.value;
      var run := Retry(env.replies, start, env.settings.maxRetries, env.settings.baseDelay);
      var h := DispatchSpec(env, researchLevel, coderLevel, start + run.attempts, k,
                            RouteOf(DecisionData(parse, run.result.value, message), message));
      ProcessSpec(env, parse, researchLevel, coderLevel, start, active, message)
      == Outcome(h.value, h.active,
                 Repeat(Call(Some(k), env.settings.modelMedio, DecisionPrompt(message)), run.attempts) + h.calls,
                 run.delays + h.delays)
  {
  }

  /** Every envelope the supervisor returns is well shaped. */
  lemma ProcessEnvelopeShape(env: Env, parse: string -> Option<Decision>, researchLevel: string, coderLevel: string,
                             start: nat, active: Option<string>, message: string)
    ensures WellShaped(ProcessSpec(env, parse, researchLevel, coderLevel, start, active, message).value)
  {
    var key := Resolve(env.keys, env.refused, "medio");
    if key.Ok? && key.value.Some? {
      var run := Retry(env.replies, start, env.settings.maxRetries, env.settings.baseDelay);
      if run.result.Ok? {
        var route := RouteOf(DecisionData(parse, run.result.value, message), message);
        ProcessDispatches(env, parse, researchLevel, coderLevel, start, active, message);
        DispatchEnvelopeShape(env, researchLevel, coderLevel, start + run.attempts, key.value.value, route);
      }
    }
  }

  /** No usable "medio" credential: the error envelope, and no upstream call at all. */
  lemma NoCredentialNoCall(env: Env, parse: string -> Option<Decision>, researchLevel: string, coderLevel: string,
                           start: nat, active: Option<string>, message: string)
    requires !(Usable(env.keys.medio.primary) && env.keys.medio.primary.value !in env.refused)
    requires !(Usable(env.keys.medio.backup) && env.keys.medio.backup.value !in env.refused)
    ensures var o := ProcessSpec(env, parse, researchLevel, coderLevel, start, active, message);
      && o.value == Envelope(API_UNAVAILABLE, [], ErrorReply, Failed)
      && o.calls == [] && o.delays == [] && o.active == active
  {
    ResolvePrimaryThenBackup(env.keys, env.refused, "medio");
  }

  /** A conversation route whose first attempt succeeds: one call, the reply as response. */
  lemma ConverseFirstAttempt(env: Env, researchLevel: string, coderLevel: string, start: nat, k: string, p: Prompt)
    requires env.settings.maxRetries >= 1
    requires env.replies(start).Ok?
    ensures DispatchSpec(env, researchLevel, coderLevel, start, k, Converse(p))
      == Outcome(Envelope(env.replies(start).value, [], ConversationReply, Completed), Some(k),
                 [Call(Some(k), env.settings.modelMedio, p)], [])
  {
    RetrySucceedsAt(env.replies, start, env.settings.maxRetries, env.settings.baseDelay, 0);
    assert Repeat(Call(Some(k), env.settings.modelMedio, p), 1) == [Call(Some(k), env.settings.modelMedio, p)];
  }

  /** A decision with a falsy `needs_tool`: one decision call, one conversation call, and a
      conversation envelope with no records. */
  lemma ConversationScenario(env: Env, parse: string -> Option<Decision>, researchLevel: string, coderLevel: string,
                             start: nat, active: Option<string>, message: string)
    requires Resolve(env.keys, env.refused, "medio").Ok? && Resolve(env.keys, env.refused, "medio").value.Some?
    requires env.settings.maxRetries >= 1
    requires env.replies(start).Ok? && env.replies(start + 1).Ok?
    requires var data := DecisionData(parse, env.replies(start).value, message);
      !(data.needsTool.Some? && data.needsTool.value.Truthy())
    ensures var k := Resolve(env.keys, env.refused, "medio").value;
      ProcessSpec(env, parse, researchLevel, coderLevel, start, active, message)
      == Outcome(Envelope(env.replies(start + 1).value, [], ConversationReply, Completed), k,
                 [Call(k, env.settings.modelMedio, DecisionPrompt(message)),
                  Call(k, env.settings.modelMedio, ConversationPrompt(message))], [])
  {
    var s := env.settings;
    var k := Resolve(env.keys, env.refused, "medio").value;
    RetrySucceedsAt(env.replies, start, s.maxRetries, s.baseDelay, 0);
    assert Repeat(Call(k, s.modelMedio, DecisionPrompt(message)), 1) == [Call(k, s.modelMedio, DecisionPrompt(message))];
    var run := Retry(env.replies, start, s.maxRetries, s.baseDelay);
    assert run.attempts == 1 && run.delays == [] && run.result == env.replies(start);
    var route := RouteOf(DecisionData(parse, run.result.value, message), message);
    RouteDefaults(DecisionData(parse, run.result.value, message), message);
    assert route == Converse(ConversationPrompt(message));
    ProcessDispatches(env, parse, researchLevel, coderLevel, start, active, message);
    ConverseFirstAttempt(env, researchLevel, coderLevel, start + 1, k.value, ConversationPrompt(message));
  }

  /** A website decision whose generation fails transiently on every attempt: a website
      envelope holding the fallback-tagged record, not an error record. */
  lemma WebsiteFallbackScenario(env: Env, parse: string -> Option<Decision>, researchLevel: string,
                                start: nat, active: Option<string>, message: string, d: string)
    requires Resolve(env.keys, env.refused, "medio").Ok? && Resolve(env.keys, env.refused, "medio").value.Some?
    requires env.settings.maxRetries >= 1 && env.settings.coderMaxRetries >= 1
    requires env.replies(start).Ok?
    requires RouteOf(DecisionData(parse, env.replies(start).value, message), message) == DoWebsite(JStr(d))
    requires forall i :: start + 1 <= i < start + 1 + env.settings.coderMaxRetries ==> IsTransientFailure(env.replies(i))
    ensures var e := ProcessSpec(env, parse, researchLevel, "medio", start, active, message).value;
      && e.kind == WebsiteReply && e.status == Completed && |e.results| == 1
      && e.results[0].Kind() == WebsiteType
      && e.results[0].record.title == "Site: " + d + " (Fallback)"
  {
    RetrySucceedsAt(env.replies, start, env.settings.maxRetries, env.settings.baseDelay, 0);
    ProcessDispatches(env, parse, researchLevel, "medio", start, active, message);
    var k := Resolve(env.keys, env.refused, "medio").value;
    WebsiteTransientExhaustion(env, "medio", start + 1, k, d);
    var o := WebsiteSpec(env, "medio", start + 1, k, d);
    assert CreateWebsiteSpec(env, "medio", start + 1, k, JStr(d)) == o;
    assert DispatchSpec(env, researchLevel, "medio", start + 1, k.value, DoWebsite(JStr(d))).value
        == Envelope(WEBSITE_DONE, [o.value], WebsiteReply, Completed);
  }

  /** A website decision whose `description` is not a JSON string (a number, `null`, a list, …):
      the coder raises on `.lower()` before configuring a credential, so the request makes the
      decision calls only, and the completed website envelope holds the error record of the
      `AttributeError`. */
  lemma NonStringDescriptionScenario(env: Env, parse: string -> Option<Decision>, researchLevel: string,
                                     coderLevel: string, start: nat, active: Option<string>, message: string)
    requires Resolve(env.keys, env.refused, "medio").Ok? && Resolve(env.keys, env.refused, "medio").value.Some?
    requires Retry(env.replies, start, env.settings.maxRetries, env.settings.baseDelay).result.Ok?
    requires var data := DecisionData(parse, Retry(env.replies, start, env.settings.maxRetries, env.settings.baseDelay).result.value, message);
      && data.needsTool.Some? && data.needsTool.value.Truthy() && data.toolType == Some(JStr("website"))
      && data.description.Some? && data.description.value.JOther?
    ensures var run := Retry(env.replies, start, env.settings.maxRetries, env.settings.baseDelay);
      var k := Resolve(env.keys, env.refused, "medio").value.value;
      var data := DecisionData(parse, run.result.value, message);
      var m := "'" + data.description.value.kind.TypeName() + "' object has no attribute 'lower'";
      ProcessSpec(env, parse, researchLevel, coderLevel, start, active, message)
      == Outcome(Envelope(WEBSITE_DONE, [Site(SiteRecord(ErrorType, "Erro ao criar site", m, ErrorFor(m), "Erro ao criar site"))],
                          WebsiteReply, Completed),
                 Some(k), Repeat(Call(Some(k), env.settings.modelMedio, DecisionPrompt(message)), run.attempts),
                 run.delays)
  {
    var run := Retry(env.replies, start, env.settings.maxRetries, env.settings.baseDelay);
    var k := Resolve(env.keys, env.refused, "medio").value.value;
    var data := DecisionData(parse, run.result.value, message);
    assert RouteOf(data, message) == DoWebsite(data.description.value);
    ProcessDispatches(env, parse, researchLevel, coderLevel, start, active, message);
    NonStringDescriptionRaises(env, coderLevel, start + run.attempts, Some(k), data.description.value);
    var asked := Repeat(Call(Some(k), env.settings.modelMedio, DecisionPrompt(message)), run.attempts);
    assert asked + [] == asked && run.delays + [] == run.delays;
  }

  class SupervisorAgent {
    const researchAgent: ResearchAgent
    const coderAgent: CoderAgent
    const settings: Settings

    constructor (settings: Settings)
      ensures this.settings == settings
      ensures researchAgent.level == "base" && researchAgent.settings == settings
      ensures coderAgent.level == "medio" && coderAgent.settings == settings
    {
      this.settings := settings;
      researchAgent := new ResearchAgent("base", settings);
      coderAgent := new CoderAgent("medio", settings);
    }

    /** `process_request(message)`, with `parse` standing for `json.loads` of the extracted text. */
    method ProcessRequest(cfg: ApiConfig, up: Oracle<Prompt>, parse: string -> Option<Decision>, message: string)
      returns (e: Envelope)
      requires researchAgent.settings == settings && coderAgent.settings == settings
      modifies cfg, up
      ensures var o := ProcessSpec(Env(cfg.keys, cfg.refused, settings, up.replies), parse,
                                   researchAgent.level, coderAgent.level, old(up.attempts), old(cfg.active), message);
        && e == o.value && cfg.active == o.active
        && Performed(up, old(up.attempts), old(up.calls), old(up.sleeps), o.calls, o.delays)
    {
      var key := cfg.ConfigureWithBackup("medio");
      // "medio" is a level of the key table, so the lookup cannot raise here.
      if key.value.None? {
        return Envelope(API_UNAVAILABLE, [], ErrorReply, Failed);
      }
      e := Decide(cfg, up, parse, message, key.value.value);
    }

    /** The decision and what follows it (main.py:931-1050), with the "medio" key `k` active. */
    method Decide(cfg: ApiConfig, up: Oracle<Prompt>, parse: string -> Option<Decision>, message: string,
                  ghost k: string) returns (e: Envelope)
      requires researchAgent.settings == settings && coderAgent.settings == settings
      requires cfg.active == Some(k)
      modifies cfg, up
      ensures var o := DecidedSpec(Env(cfg.keys, cfg.refused, settings, up.replies), parse,
                                   researchAgent.level, coderAgent.level, old(up.attempts), k, message);
        && e == o.value && cfg.active == o.active
        && Performed(up, old(up.attempts), old(up.calls), old(up.sleeps), o.calls, o.delays)
    {
      var decision := RetryWithBackoff(up, cfg.active, settings.modelMedio, DecisionPrompt(message),
                                       settings.maxRetries, settings.baseDelay);
      if decision.Err? {
        return ErrorEnvelope(decision.msg);
      }
      ghost var env := Env(cfg.keys, cfg.refused, settings, up.replies);
      ghost var run := Retry(env.replies, old(up.attempts), settings.maxRetries, settings.baseDelay);
      ghost var asked := Repeat(Call(Some(k), settings.modelMedio, DecisionPrompt(message)), run.attempts);
      ghost var mid := up.attempts;
      ghost var calls1, sleeps1 := up.calls, up.sleeps;
      assert mid == old(up.attempts) + run.attempts && calls1 == old(up.calls) + asked
          && sleeps1 == old(up.sleeps) + run.delays;
      var route := RouteOf(DecisionData(parse, decision.value, message), message);
      e := Dispatch(cfg, up, route, k);
      ghost var h := DispatchSpec(env, researchAgent.level, coderAgent.level, mid, k, route);
      assert Performed(up, mid, calls1, sleeps1, h.calls, h.delays);
      PerformedInSequence(up, old(up.attempts), old(up.calls), old(up.sleeps), asked, run.delays, h.calls, h.delays);
    }

    /** The handler the routing decision chose (main.py:983-1050), run with the key `k` that
        the decision left active. */
    method Dispatch(cfg: ApiConfig, up: Oracle<Prompt>, route: Route, ghost k: string) returns (e: Envelope)
      requires researchAgent.settings == settings && coderAgent.settings == settings
      requires cfg.active == Some(k)
      modifies cfg, up
      ensures var o := DispatchSpec(Env(cfg.keys, cfg.refused, settings, up.replies),
                                    researchAgent.level, coderAgent.level, old(up.attempts), k, route);
        && e == o.value && cfg.active == o.active
        && Performed(up, old(up.attempts), old(up.calls), old(up.sleeps), o.calls, o.delays)
    {
      match route
      case Converse(p) =>
        var answer := RetryWithBackoff(up, cfg.active, settings.modelMedio, p, settings.maxRetries, settings.baseDelay);
        match answer {
          case Ok(text) =>
            return Envelope(text, [], ConversationReply, Completed);
          case Err(m) =>
            return ErrorEnvelope(m);
        }
      case DoResearch(q) =>
        var a := researchAgent.Research(cfg, up, q);
        return Envelope(RESEARCH_DONE, [a], ResearchReply, Completed);
      case DoWebsite(d) =>
        var a := coderAgent.CreateWebsite(cfg, up, d);
        return Envelope(WEBSITE_DONE, [a], WebsiteReply, Completed);
    }
  }
}
