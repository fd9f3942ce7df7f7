/**
 * What the supervisor of main.py (`SupervisorAgent.process_request`, main.py:922-1061) does:
 * it asks the "medio" model for a routing decision, reads a JSON object out of the reply and
 * dispatches to a conversation, to the research agent or to the coder agent, wrapping the
 * result in an envelope. This module holds the envelopes, the decision reading and
 * `ProcessSpec`, the function that states the whole request; the agent itself is in `MainSupervisor`.
 */
module MainRouting {
  import opened Wrappers
  import opened Text
  import opened Config
  import opened Upstream
  import opened MainCredentials
  import opened MainRetry
  import opened MainSite
  import opened MainPrompts
  import opened MainAgents

  // ---------------------------------------------------------------------
  // Envelopes and prompts
  // ---------------------------------------------------------------------

  /** The envelope's `type` field. */
  datatype ReplyType = ErrorReply | ConversationReply | ResearchReply | WebsiteReply
  {
    function Name(): string {
      match this
      case ErrorReply => "error"
      case ConversationReply => "conversation"
      case ResearchReply => "research"
      case WebsiteReply => "website"
    }
  }

  /** The envelope's `status` field. */
  datatype Status = Completed | Failed
  {
    function Name(): string {
      match this
      case Completed => "completed"
      case Failed => "error"
    }
  }

  /** The supervisor's envelope: `response`, `results`, `type` and `status`. */
  datatype Envelope = Envelope(response: string, results: seq<Artifact>, kind: ReplyType, status: Status)

  const API_UNAVAILABLE := "Desculpe, não consigo acessar a API no momento. Tente novamente mais tarde."
  const REQUEST_ERROR := "Desculpe, ocorreu um erro ao processar sua solicitação: "
  const RESEARCH_DONE := "🔍 Pesquisa realizada com sucesso!"
  const WEBSITE_DONE := "💻 Website criado com sucesso!"

  /** The envelope of an exception caught by the supervisor (main.py:1054-1061). */
  function ErrorEnvelope(msg: string): Envelope {
    Envelope(REQUEST_ERROR + msg, [], ErrorReply, Failed)
  }

  // ---------------------------------------------------------------------
  // The routing decision (main.py:966-1013)
  // ---------------------------------------------------------------------

  /** The object `json.loads` returns, reduced to the three keys the routing reads with
      `.get`; a key the object lacks is `None`. (The default decision's `is_greeting` is never
      read.) */
  datatype Decision = Decision(needsTool: Option<JsonValue>, toolType: Option<JsonValue>,
                               description: Option<JsonValue>)

  /** The decision used when no JSON can be read from the reply (main.py:976 and 980):
      `needs_tool` False, `tool_type` "none", `description` the message. */
  function DefaultDecision(message: string): Decision {
    Decision(Some(JOther(JBool, false, "False")), Some(JStr("none")), Some(JStr(message)))
  }

  /** `re.search(open + '.*' + close, t, re.DOTALL)` for single characters: the first `open`
      that has a `close` after it, up to the last `close`. */
  function BraceSpan(t: string, open: char, close: char): (r: Option<Span>)
    ensures r.Some? ==> r.value.start + 2 <= r.value.end <= |t|
  {
    FindSpec(t, [open], 0);
    match Find(t, [open], 0)
    case None => None
    case Some(i) =>
      match FindLast(t, close)
      case None => None
      case Some(j) => if j > i then Some(Span(i, j + 1)) else None
  }

  /** `open .* close` matches `t[i..e]`. */
  predicate BraceMatches(t: string, open: char, close: char, i: nat, e: nat) {
    i + 2 <= e <= |t| && t[i] == open && t[e - 1] == close
  }

  /** `BraceSpan` is the regular-expression search: the leftmost match, and at that start
      the longest one; `None` exactly when nothing matches. */
  lemma {:induction false} BraceSpanIsLeftmostLongest(t: string, open: char, close: char)
    ensures var r := BraceSpan(t, open, close);
      && (r.Some? ==> BraceMatches(t, open, close, r.value.start, r.value.end))
      && (r.Some? ==> forall e: nat :: e > r.value.end ==> !BraceMatches(t, open, close, r.value.start, e))
      && (r.Some? ==> forall i: nat, e: nat :: i < r.value.start ==> !BraceMatches(t, open, close, i, e))
      && (r.None? ==> forall i: nat, e: nat :: !BraceMatches(t, open, close, i, e))
  {
    FindSpec(t, [open], 0);
    FindLastSpec(t, close);
    forall k: nat | k < |t| ensures StartsAt(t, [open], k) <==> t[k] == open {
      assert t[k..k + 1] == [t[k]];
    }
  }

  /** `decision_data` (main.py:966-980): the JSON object read from the stripped reply, or the
      default decision when there is no `{…}` or it does not parse. */
  function DecisionData(parse: string -> Option<Decision>, reply: string, message: string): Decision {
    var t := Strip(reply);
    match BraceSpan(t, '{', '}')
    case None => DefaultDecision(message)
    case Some(sp) =>
      match parse(t[sp.start..sp.end])
      case None => DefaultDecision(message)
      case Some(data) => data
  }

  /** Where the supervisor sends a request. The research and website handlers are handed the
      decision's `description` as it was parsed, whatever its JSON type. */
  datatype Route = Converse(prompt: Prompt) | DoResearch(query: JsonValue) | DoWebsite(description: JsonValue)

  /** main.py:983-1050: a falsy or missing `needs_tool` means conversation; otherwise the
      `tool_type` (by default "research") picks the handler, given the `description` (by
      default the message), and any other tool type falls back to conversation. */
  function RouteOf(data: Decision, message: string): Route {
    if !(data.needsTool.Some? && data.needsTool.value.Truthy()) then Converse(ConversationPrompt(message))
    else
      var tool := data.toolType.GetOr(JStr("research"));
      var desc := data.description.GetOr(JStr(message));
      if tool == JStr("research") then DoResearch(desc)
      else if tool == JStr("website") then DoWebsite(desc)
      else Converse(FallbackChatPrompt(message))
  }

  /** A reply holding no `{…}`, or one the parser rejects, is a conversation about the message. */
  lemma DefaultRouteIsConversation(parse: string -> Option<Decision>, reply: string, message: string)
    requires BraceSpan(Strip(reply), '{', '}').None?
      || parse(Strip(reply)[BraceSpan(Strip(reply), '{', '}').value.start..BraceSpan(Strip(reply), '{', '}').value.end]).None?
    ensures RouteOf(DecisionData(parse, reply, message), message) == Converse(ConversationPrompt(message))
  {
  }

  /** How the routing reads the decision's fields: a missing `tool_type` means research, a
      missing `description` means the message, a falsy or missing `needs_tool` means
      conversation, and any non-empty string, even "false", is a truthy `needs_tool`. */
  lemma RouteDefaults(data: Decision, message: string)
    ensures data.needsTool.Some? && data.needsTool.value.Truthy() && data.toolType.None? ==>
      RouteOf(data, message) == DoResearch(data.description.GetOr(JStr(message)))
    ensures data.needsTool.Some? && data.needsTool.value.Truthy() && data.toolType.Some? && data.description.None? ==>
      RouteOf(data, message) == (if data.toolType.value == JStr("research") then DoResearch(JStr(message))
                                 else if data.toolType.value == JStr("website") then DoWebsite(JStr(message))
                                 else Converse(FallbackChatPrompt(message)))
    ensures !(data.needsTool.Some? && data.needsTool.value.Truthy()) ==>
      RouteOf(data, message) == Converse(ConversationPrompt(message))
    ensures JStr("false").Truthy()
  {
  }

  // ---------------------------------------------------------------------
  // SupervisorAgent.process_request (main.py:927-1061)
  // ---------------------------------------------------------------------

  /** What the handler chosen by the routing decision does, the decision call aside: `start`
      is the first attempt after the decision and `k` the key the decision left active. */
  function DispatchSpec(env: Env, researchLevel: string, coderLevel: string, start: nat, k: string,
                        route: Route): Outcome<Envelope, Prompt>
  {
    match route
    case Converse(p) =>
      var s := env.settings;
      var chat := Retry(env.replies, start, s.maxRetries, s.baseDelay);
      var e := match chat.result
        case Ok(answer) => Envelope(answer, [], ConversationReply, Completed)
        case Err(m) => ErrorEnvelope(m);
      Outcome(e, Some(k), Repeat(Call(Some(k), s.modelMedio, p), chat.attempts), chat.delays)
    case DoResearch(q) =>
      var o := ResearchSpec(env, researchLevel, start, Some(k), q);
      Outcome(Envelope(RESEARCH_DONE, [o.value], ResearchReply, Completed), o.active, o.calls, o.delays)
    case DoWebsite(d) =>
      var o := CreateWebsiteSpec(env, coderLevel, start, Some(k), d);
      Outcome(Envelope(WEBSITE_DONE, [o.value], WebsiteReply, Completed), o.active, o.calls, o.delays)
  }

  /** The request once the "medio" key `k` is active: the decision calls from attempt
      `start` on, then the handler the decision routes to. */
  function DecidedSpec(env: Env, parse: string -> Option<Decision>, researchLevel: string, coderLevel: string,
                       start: nat, k: string, message: string): Outcome<Envelope, Prompt>
  {
    var s := env.settings;
    var run := Retry(env.replies, start, s.maxRetries, s.baseDelay);
    var asked := Repeat(Call(Some(k), s.modelMedio, DecisionPrompt(message)), run.attempts);
    match run.result
    case Err(m) => Outcome(ErrorEnvelope(m), Some(k), asked, run.delays)
    case Ok(t) =>
      var route := RouteOf(DecisionData(parse, t, message), message);
      var o := DispatchSpec(env, researchLevel, coderLevel, start + run.attempts, k, route);
      Outcome(o.value, o.active, asked + o.calls, run.delays + o.delays)
  }

  /** The whole request, with the research agent at tier `researchLevel` and the coder at
      tier `coderLevel` (main.py:924-925 creates them at "base" and "medio"). */
  function ProcessSpec(env: Env, parse: string -> Option<Decision>, researchLevel: string, coderLevel: string,
                       start: nat, active: Option<string>, message: string): Outcome<Envelope, Prompt>
  {
    match Resolve(env.keys, env.refused, "medio")
    case Err(m) => Outcome(ErrorEnvelope(m), active, [], [])
    case Ok(None) => Outcome(Envelope(API_UNAVAILABLE, [], ErrorReply, Failed), active, [], [])
    case Ok(Some(k)) => DecidedSpec(env, parse, researchLevel, coderLevel, start, k, message)
  }

  /** Every envelope fails exactly when it is an error envelope; research and website
      envelopes carry exactly one record, a research envelope a research record, and the
      others none. */
  predicate WellShaped(e: Envelope) {
    && (e.status == Failed <==> e.kind == ErrorReply)
    && |e.results| == (if e.kind == ResearchReply || e.kind == WebsiteReply then 1 else 0)
    && (e.kind == ResearchReply ==> e.results[0].Kind() == ResearchType)
  }
}
