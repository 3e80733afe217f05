/** The bounded investigation: rounds of provider answers, governed tool calls and submissions, each
    written to the hash-chained transcript. */
module Investigation {
  import opened Wrappers
  import opened Texts
  import opened Scoring
  import opened InvestigationModels
  import opened Routing
  import opened Transcript

  // ---- the gateway ------------------------------------------------------------------

  /** What came of executing an authorized call. */
  datatype Execution = Produced(result: Json, resultHash: Text, evidence: seq<Text>, truncated: bool, sources: map<Text, Text>)
                     | Refused

  /** The contract between gateway, orchestrator and validator. */
  predicate Honours(s: Services, q: ToolRequest, r: ToolResponse) {
    && r.callId == q.callId
    && var d := s.authorize(q.tool, q.arguments);
       && r.normalized == d.normalized
       && (r.success ==> d.allowed && r.error.None?)
       && (!r.success ==> r.error == Some(if d.allowed then REJECTED else d.code))
  }

  /** The gateway: deny by policy, else execute. */
  function Invoke(s: Services, q: ToolRequest, x: Execution): (r: ToolResponse)
    ensures Honours(s, q, r)
    ensures r.success <==> s.authorize(q.tool, q.arguments).allowed && x.Produced?
    ensures r.success ==> Execution.Produced(r.result, r.resultHash, r.evidence, r.truncated, r.sources) == x
    ensures !r.success ==> r.evidence == [] && r.sources == map[] && r.result == Null
  {
    var d := s.authorize(q.tool, q.arguments);
    if d.allowed && x.Produced? then
      ToolResponse(q.callId, true, d.normalized, x.sources, x.evidence, x.truncated, x.resultHash, None, x.result)
    else
      ToolResponse(q.callId, false, d.normalized, map[], [], false, s.nullHash,
                   Some(if d.allowed then REJECTED else d.code), Null)
  }

  /** Any gateway: the reply to the n-th governed call, or nothing if it raised an exception. */
  type Gateway = (nat, ToolRequest) -> Option<ToolResponse>

  ghost predicate Governed(s: Services, g: Gateway) {
    forall n: nat, q: ToolRequest :: g(n, q).Some? ==> Honours(s, q, g(n, q).value)
  }

  // ---- one investigation ------------------------------------------------------------

  datatype Error = RoutesFailed(code: Text) | TokenBudget | ToolBudget | GatewayRaised | LineageChanged | RoundsExhausted

  /** What grows round by round. */
  datatype Log = Log(events: seq<Event>, trace: seq<TraceEntry>, observed: set<Text>, toolCalls: nat, tokens: nat)

  const EMPTY := Log([], [], {}, 0, 0)

  /** How a round ends. */
  datatype Turn = Continue(log: Log) | Submitted(report: Report, log: Log) | Stopped(error: Error, log: Log)

  /** What stays the same for a whole run. */
  datatype Setting = Setting(s: Services, c: Config, q: Request, sources: map<Text, Text>, gateway: Gateway)

  ghost predicate Proper(x: Setting) { Trusted(x.s) && Governed(x.s, x.gateway) }

  function WithEvent(x: Setting, log: Log, kind: Kind, payload: Dict): Log {
    log.(events := log.events + [NextEvent(x.s, log.events, kind, payload)])
  }

  function DumpCall(call: ToolCall): Json {
    Object(map[Id := Str(call.id), Name := Str(call.name), Arguments := Object(call.arguments)])
  }

  function DumpCalls(calls: seq<ToolCall>): Json { List(seq(|calls|, i requires 0 <= i < |calls| => DumpCall(calls[i]))) }

  function ProviderPayload(r: ProviderResponse): Dict {
    r.about + map[Usage := Number(r.usage.total), ToolCalls := DumpCalls(r.calls)]
  }

  function RejectedPayload(call: ToolCall, problem: Text): Dict {
    map[ToolCallId := Str(call.id), Problem := Str(problem)]
  }

  function AcceptedPayload(call: ToolCall, report: Report): Dict {
    map[ToolCallId := Str(call.id), ReportHash := Str(report.hash), Status := Bool(report.body.verdict.concluded)]
  }

  function ResultPayload(call: ToolCall, e: TraceEntry, r: ToolResponse): Dict {
    map[ToolCallId := Str(call.id), Trace := DumpEntry(e), Response := r.result]
  }

  function ReportOn(x: Setting, log: Log, attempts: seq<ModelAttempt>, p: Proposal, v: Verdict): Report {
    var body := Body(x.c.investigation, x.q.incident, x.q.question, v, log.observed, x.sources, attempts, log.trace, log.tokens, p);
    Report(body, x.s.reportDigest(body))
  }

  /** A submission: scored and accepted, or rejected with the round spent. */
  function Submit(x: Setting, log: Log, attempts: seq<ModelAttempt>, call: ToolCall): Turn
    requires Proper(x)
  {
    match x.s.parse(call.arguments)
    case None => Continue(WithEvent(x, log, ProposalRejected, RejectedPayload(call, "invalid proposal")))
    case Some(p) =>
      match Score(x.s.maths, x.c.policy, p, log.observed)
      case Err(_) => Continue(WithEvent(x, log, ProposalRejected, RejectedPayload(call, "refused proposal")))
      case Ok(v) =>
        var report := ReportOn(x, log, attempts, p, v);
        Submitted(report, WithEvent(x, log, ProposalAccepted, AcceptedPayload(call, report)))
  }

  function Evidence(r: ToolResponse): set<Text> { if r.success then (set e | e in r.evidence) else {} }

  /** The request that round `round` makes for a provider's call. */
  function RequestFor(x: Setting, round: nat, call: ToolCall): ToolRequest {
    var tool := GatewayName(call.name);
    ToolRequest(tool, call.arguments, CallIdOf(x.s, x.c, round, call.id, tool, call.arguments))
  }

  function WithResult(x: Setting, log: Log, call: ToolCall, r: ToolResponse): Log {
    var e := EntryOf(|log.trace| + 1, GatewayName(call.name), r);
    WithEvent(x, log.(trace := log.trace + [e], observed := log.observed + Evidence(r)), ToolResult, ResultPayload(call, e, r))
  }

  /** A call of another tool. */
  function CallTool(x: Setting, log: Log, round: nat, call: ToolCall): Turn {
    if GatewayName(call.name) !in x.c.allowedTools then Continue(log)
    else if log.toolCalls + 1 > x.c.maxToolCalls then Stopped(ToolBudget, log.(toolCalls := log.toolCalls + 1))
    else
      var log' := log.(toolCalls := log.toolCalls + 1);
      match x.gateway(log.toolCalls, RequestFor(x, round, call))
      case None => Stopped(GatewayRaised, log')
      case Some(r) =>
        if r.success && r.sources != x.sources then Stopped(LineageChanged, log')
        else Continue(WithResult(x, log', call, r))
  }

  /** What a round makes of an answer that has been written down. */
  function Proceed(x: Setting, heard: Log, attempts: seq<ModelAttempt>, round: nat, calls: seq<ToolCall>): Turn
    requires Proper(x)
  {
    if |calls| != 1 then Continue(heard)
    else if calls[0].name == SUBMIT then Submit(x, heard, attempts, calls[0])
    else CallTool(x, heard, round, calls[0])
  }

  function Spent(log: Log, r: ProviderResponse): Log { log.(tokens := log.tokens + r.usage.total) }

  function Heard(x: Setting, log: Log, r: ProviderResponse): Log {
    WithEvent(x, Spent(log, r), ProviderEvent, ProviderPayload(r))
  }

  /** What a round makes of the provider's answer. */
  function Respond(x: Setting, log: Log, attempts: seq<ModelAttempt>, round: nat, r: ProviderResponse): Turn
    requires Proper(x)
  {
    if log.tokens + r.usage.total > x.c.maxTotalTokens then Stopped(TokenBudget, Spent(log, r))
    else Proceed(x, Heard(x, log, r), attempts, round, r.calls)
  }

  // ---- the router's part ------------------------------------------------------------

  datatype Routes = Routes(models: seq<Text>, maxFailures: nat, attempts: seq<ModelAttempt>, failures: nat, preferred: nat)

  ghost predicate Routed(w: Routes) { w.preferred < |w.models| && w.failures == FailuresIn(w.attempts) }

  function Complete(provider: Provider, w: Routes): Outcome
    requires w.preferred < |w.models|
  {
    Fallback(provider, w.models, w.maxFailures, w.preferred, w.attempts, w.failures, "no_models", 0)
  }

  function After(w: Routes, o: Outcome): Routes { w.(attempts := o.log, failures := o.failures, preferred := o.preferred) }

  lemma StaysRouted(provider: Provider, w: Routes)
    requires Routed(w)
    ensures Routed(After(w, Complete(provider, w)))
  {
    FailuresCounted(provider, w.models, w.maxFailures, w.preferred, w.attempts, w.failures, "no_models", 0);
  }

  // ---- the run ----------------------------------------------------------------------

  datatype Ending = Ending(turn: Turn, routes: Routes)

  /** The run from round `round` on. */
  function RunFrom(x: Setting, provider: Provider, w: Routes, log: Log, round: nat): (e: Ending)
    requires Proper(x) && Routed(w) && round <= x.c.maxRounds + 1
    ensures !e.turn.Continue?
    decreases x.c.maxRounds + 1 - round
  {
    if round > x.c.maxRounds then Ending(Stopped(RoundsExhausted, log), w)
    else
      StaysRouted(provider, w);
      var o := Complete(provider, w);
      var w' := After(w, o);
      match o.result
      case Err(code) => Ending(Stopped(RoutesFailed(code), log), w')
      case Ok(r) =>
        match Respond(x, log, w'.attempts, round, r)
        case Continue(log') => RunFrom(x, provider, w', log', round + 1)
        case turn => Ending(turn, w')
  }

  class Investigator {
    const x: Setting
    const router: ModelRouter
    var events: seq<Event>
    var trace: seq<TraceEntry>
    var observed: set<Text>
    var toolCalls: nat
    var tokens: nat

    constructor (x: Setting, router: ModelRouter)
      ensures this.x == x && this.router == router && CurrentLog() == EMPTY
    {
      this.x, this.router := x, router;
      events, trace, observed, toolCalls, tokens := [], [], {}, 0, 0;
    }

    ghost function CurrentLog(): Log
      reads this
    {
      Log(events, trace, observed, toolCalls, tokens)
    }

    ghost function CurrentRoutes(): Routes
      reads router
    {
      Routes(router.models, router.maxFailures, router.attempts, router.failures, router.preferred)
    }

    /** Appends one event, chained to the last. */
    method AppendEvent(kind: Kind, payload: Dict)
      modifies this`events
      ensures CurrentLog() == WithEvent(x, old(CurrentLog()), kind, payload)
      ensures Chained(x.s, old(events)) ==> Chained(x.s, events)
    {
      if Chained(x.s, events) {
        ChainGrows(x.s, events, kind, payload);
      }
      var previous := if events != [] then events[|events| - 1].hash else ZERO_HASH;
      var draft := Draft(|events| + 1, kind, payload, previous);
      events := events + [Event(draft, x.s.digest(draft))];
    }

    method SubmitProposal(call: ToolCall) returns (turn: Turn)
      requires Proper(x)
      modifies this`events
      ensures turn == Submit(x, old(CurrentLog()), router.attempts, call)
      ensures CurrentLog() == turn.log
      ensures Chained(x.s, old(events)) ==> Chained(x.s, events)
      ensures !turn.Stopped? && |events| == |old(events)| + 1
      ensures turn.Submitted? ==>
                && Reconstructs(x.s, x.c.policy, turn.report) && turn.report.body.observed == observed
                && turn.report.body.trace == trace && turn.report.body.totalTokens == tokens
    {
      var parsed := x.s.parse(call.arguments);
      if parsed.None? {
        AppendEvent(ProposalRejected, RejectedPayload(call, "invalid proposal"));
        return Continue(Log(events, trace, observed, toolCalls, tokens));
      }
      var score := ScoreProposal(x.s.maths, x.c.policy, parsed.value, observed);
      if score.Err? {
        AppendEvent(ProposalRejected, RejectedPayload(call, "refused proposal"));
        return Continue(Log(events, trace, observed, toolCalls, tokens));
      }
      var body := Body(x.c.investigation, x.q.incident, x.q.question, score.value, observed, x.sources,
                       router.attempts, trace, tokens, parsed.value);
      var report := Report(body, x.s.reportDigest(body));
      AppendEvent(ProposalAccepted, AcceptedPayload(call, report));
      return Submitted(report, Log(events, trace, observed, toolCalls, tokens));
    }

    method InvokeTool(round: nat, call: ToolCall) returns (turn: Turn)
      modifies this
      ensures turn == CallTool(x, old(CurrentLog()), round, call)
      ensures CurrentLog() == turn.log
      ensures Chained(x.s, old(events)) ==> Chained(x.s, events)
      ensures old(observed) == Observed(old(trace)) ==> observed == Observed(trace)
      ensures old(toolCalls) <= x.c.maxToolCalls ==> toolCalls <= x.c.maxToolCalls || (turn.Stopped? && turn.error == ToolBudget)
      ensures !turn.Submitted? && (turn.Stopped? ==> events == old(events) && trace == old(trace) && observed == old(observed))
      ensures turn.Continue? ==> toolCalls - old(toolCalls) == |trace| - |old(trace)| == |events| - |old(events)| <= 1
    {
      var tool := GatewayName(call.name);
      if tool !in x.c.allowedTools {
        return Continue(Log(events, trace, observed, toolCalls, tokens));
      }
      toolCalls := toolCalls + 1;
      if toolCalls > x.c.maxToolCalls {
        return Stopped(ToolBudget, Log(events, trace, observed, toolCalls, tokens));
      }
      var callId := CallIdOf(x.s, x.c, round, call.id, tool, call.arguments);
      var reply := x.gateway(toolCalls - 1, ToolRequest(tool, call.arguments, callId));
      if reply.None? {
        return Stopped(GatewayRaised, Log(events, trace, observed, toolCalls, tokens));
      }
      var response := reply.value;
      if response.success && response.sources != x.sources {
        return Stopped(LineageChanged, Log(events, trace, observed, toolCalls, tokens));
      }
      observed := observed + Evidence(response);
      var entry := EntryOf(|trace| + 1, tool, response);
      ObservedGrows(trace, entry);
      trace := trace + [entry];
      AppendEvent(ToolResult, ResultPayload(call, entry, response));
      return Continue(Log(events, trace, observed, toolCalls, tokens));
    }

    method Dispatch(round: nat, calls: seq<ToolCall>) returns (turn: Turn)
      requires Proper(x)
      modifies this
      ensures turn == Proceed(x, old(CurrentLog()), router.attempts, round, calls)
      ensures CurrentLog() == turn.log
    {
      if |calls| != 1 {
        return Continue(Log(events, trace, observed, toolCalls, tokens));
      }
      if calls[0].name == SUBMIT {
        turn := SubmitProposal(calls[0]);
      } else {
        turn := InvokeTool(round, calls[0]);
      }
    }

    method HandleResponse(round: nat, r: ProviderResponse) returns (turn: Turn)
      requires Proper(x)
      modifies this
      ensures turn == Respond(x, old(CurrentLog()), router.attempts, round, r)
      ensures CurrentLog() == turn.log
    {
      tokens := tokens + r.usage.total;
      if tokens > x.c.maxTotalTokens {
        return Stopped(TokenBudget, Log(events, trace, observed, toolCalls, tokens));
      }
      AppendEvent(ProviderEvent, ProviderPayload(r));
      assert CurrentLog() == Heard(x, old(CurrentLog()), r);
      turn := Dispatch(round, r.calls);
    }

    /** The loop over rounds runs as `RunFrom` says. */
    method Run(provider: Provider) returns (turn: Turn)
      requires Proper(x) && router.Valid() && CurrentLog() == EMPTY
      modifies this, router
      ensures router.Valid()
      ensures Ending(turn, CurrentRoutes()) == RunFrom(x, provider, old(CurrentRoutes()), EMPTY, 1)
    {
      for round := 1 to x.c.maxRounds + 1
        invariant router.Valid()
        invariant RunFrom(x, provider, CurrentRoutes(), CurrentLog(), round)
                  == RunFrom(x, provider, old(CurrentRoutes()), EMPTY, 1)
      {
        var response := router.Complete(provider);
        if response.Err? {
          return Stopped(RoutesFailed(response.error), Log(events, trace, observed, toolCalls, tokens));
        }
        turn := HandleResponse(round, response.value);
        if !turn.Continue? {
          return turn;
        }
      }
      return Stopped(RoundsExhausted, Log(events, trace, observed, toolCalls, tokens));
    }
  }
}
