/** Every run that returns passes the independent validator, stays in its budgets and cites only
    what governed tools returned. */
module InvestigationTheorems {
  import opened Wrappers
  import opened Texts
  import opened Scoring
  import opened InvestigationModels
  import opened Routing
  import opened Transcript
  import opened TranscriptTheorems
  import opened Investigation

  // ---- what each event keeps ----------------------------------------------------------

  lemma CountGrows(t: seq<Event>, e: Event, kind: Kind)
    ensures Count(t + [e], kind) == Count(t, kind) + if e.draft.kind == kind then 1 else 0
  {
    assert (t + [e])[..|t|] == t;
  }

  lemma QuotesGrow(t: seq<Event>, e: Event, kind: Kind, key: Key)
    ensures Quoted(t + [e], kind, key) == Quoted(t, kind, key) + if e.draft.kind == kind then [Get(e.draft.payload, key)] else []
  {
    assert (t + [e])[..|t|] == t;
  }

  /** Pairing is kept by an event that is a provider's, or that answers the event before it. */
  lemma PairingGrows(s: Services, c: Config, t: seq<Event>, trace: seq<TraceEntry>, e: Event, more: seq<TraceEntry>)
    requires Paired(s, c, t, trace)
    requires |more| == if e.draft.kind == ToolResult then 1 else 0
    requires e.draft.kind == ProviderEvent
             || Follows(s, c, Last(t), e.draft, trace + more, Count(t, ProviderEvent), |trace|)
    ensures Paired(s, c, t + [e], trace + more)
  {
    var t' := t + [e];
    forall i: nat | i < |t'| ensures Answers(s, c, t', trace + more, i) {
      assert t'[..i] == t[..i];
      if i < |t| {
        assert Answers(s, c, t, trace, i);
      } else {
        assert t[..i] == t;
      }
    }
    CountGrows(t, e, ToolResult);
  }

  // ---- what every round keeps ---------------------------------------------------------

  /** Entry `k` is what the gateway replied to the provider's call. */
  ghost predicate FromGateway(x: Setting, e: TraceEntry, arguments: Dict, k: nat) {
    && e.tool in x.c.allowedTools
    && x.gateway(k, ToolRequest(e.tool, arguments, e.callId)).Some?
    && var r := x.gateway(k, ToolRequest(e.tool, arguments, e.callId)).value;
       e == EntryOf(k + 1, e.tool, r) && (r.success ==> r.sources == x.sources)
  }

  ghost predicate Sourced(x: Setting, trace: seq<TraceEntry>, arguments: seq<Dict>) {
    |arguments| == |trace| && forall k: nat | k < |trace| :: FromGateway(x, trace[k], arguments[k], k)
  }

  /** The transcript says what the log says. */
  ghost predicate Faithful(x: Setting, log: Log) {
    && Chained(x.s, log.events)
    && Paired(x.s, x.c, log.events, log.trace)
    && Quoted(log.events, ToolResult, Trace) == DumpTrace(log.trace)
    && Sourced(x, log.trace, ProviderArguments(log.events))
    && log.observed == Observed(log.trace)
  }

  ghost predicate InBudget(x: Setting, log: Log) {
    |log.trace| == log.toolCalls <= x.c.maxToolCalls && log.tokens <= x.c.maxTotalTokens
  }

  /** After `rounds` rounds without an accepted proposal. */
  ghost predicate Kept(x: Setting, log: Log, rounds: nat) {
    && Faithful(x, log) && InBudget(x, log)
    && Count(log.events, ProviderEvent) == rounds
    && Quoted(log.events, ProposalAccepted, ReportHash) == []
  }

  /** The log ends with a provider event that carries this one call. */
  ghost predicate Asks(log: Log, call: ToolCall) {
    && log.events != []
    && var e := log.events[|log.events| - 1].draft;
       e.kind == ProviderEvent && SingleCall(e.payload) == Some(DumpCall(call).fields)
  }

  lemma Hear(x: Setting, log: Log, r: ProviderResponse)
    requires Faithful(x, log)
    ensures var heard := WithEvent(x, log, ProviderEvent, ProviderPayload(r));
            && Faithful(x, heard)
            && Count(heard.events, ProviderEvent) == Count(log.events, ProviderEvent) + 1
            && Quoted(heard.events, ProposalAccepted, ReportHash) == Quoted(log.events, ProposalAccepted, ReportHash)
            && (|r.calls| == 1 ==> Asks(heard, r.calls[0]))
  {
    var payload := ProviderPayload(r);
    var e := NextEvent(x.s, log.events, ProviderEvent, payload);
    ChainGrows(x.s, log.events, ProviderEvent, payload);
    PairingGrows(x.s, x.c, log.events, log.trace, e, []);
    assert log.trace + [] == log.trace;
    CountGrows(log.events, e, ProviderEvent);
    QuotesGrow(log.events, e, ToolResult, Trace);
    QuotesGrow(log.events, e, ProposalAccepted, ReportHash);
    assert (log.events + [e])[..|log.events|] == log.events;
    assert Get(payload, ToolCalls) == DumpCalls(r.calls);
  }

  lemma Verdicted(x: Setting, log: Log, kind: Kind, payload: Dict, call: ToolCall)
    requires Faithful(x, log) && Asks(log, call) && call.name == SUBMIT
    requires kind == ProposalRejected || kind == ProposalAccepted
    requires Get(payload, ToolCallId) == Str(call.id)
    ensures var said := WithEvent(x, log, kind, payload);
            && Faithful(x, said)
            && Count(said.events, ProviderEvent) == Count(log.events, ProviderEvent)
            && Quoted(said.events, ProposalAccepted, ReportHash)
               == Quoted(log.events, ProposalAccepted, ReportHash) + if kind == ProposalAccepted then [Get(payload, ReportHash)] else []
  {
    var e := NextEvent(x.s, log.events, kind, payload);
    ChainGrows(x.s, log.events, kind, payload);
    assert log.trace + [] == log.trace;
    PairingGrows(x.s, x.c, log.events, log.trace, e, []);
    CountGrows(log.events, e, ProviderEvent);
    QuotesGrow(log.events, e, ToolResult, Trace);
    QuotesGrow(log.events, e, ProposalAccepted, ReportHash);
    assert (log.events + [e])[..|log.events|] == log.events;
  }

  /** The entry made of a governed reply matches the provider's call. */
  lemma ReplyMatches(x: Setting, log: Log, round: nat, call: ToolCall, r: ToolResponse)
    requires Honours(x.s, RequestFor(x, round, call), r)
    ensures EntryMatches(x.s, x.c, round, DumpCall(call).fields, EntryOf(|log.trace| + 1, GatewayName(call.name), r))
  {
  }

  lemma SourcesGrow(x: Setting, log: Log, call: ToolCall, e: Event, entry: TraceEntry)
    requires Sourced(x, log.trace, ProviderArguments(log.events)) && Asks(log, call) && e.draft.kind == ToolResult
    requires FromGateway(x, entry, call.arguments, |log.trace|)
    ensures Sourced(x, log.trace + [entry], ProviderArguments(log.events + [e]))
  {
    assert (log.events + [e])[..|log.events|] == log.events;
    assert ProviderArguments(log.events + [e]) == ProviderArguments(log.events) + [call.arguments];
  }

  lemma TraceGrows(log: Log, e: Event, entry: TraceEntry)
    requires Quoted(log.events, ToolResult, Trace) == DumpTrace(log.trace)
    requires e.draft.kind == ToolResult && Get(e.draft.payload, Trace) == DumpEntry(entry)
    ensures Quoted(log.events + [e], ToolResult, Trace) == DumpTrace(log.trace + [entry])
  {
    QuotesGrow(log.events, e, ToolResult, Trace);
    assert DumpTrace(log.trace + [entry]) == DumpTrace(log.trace) + [DumpEntry(entry)];
  }

  lemma Heed(x: Setting, log: Log, round: nat, call: ToolCall, r: ToolResponse)
    requires Faithful(x, log) && Asks(log, call) && Count(log.events, ProviderEvent) == round
    requires x.gateway(|log.trace|, RequestFor(x, round, call)) == Some(r) && Honours(x.s, RequestFor(x, round, call), r)
    requires GatewayName(call.name) in x.c.allowedTools && (r.success ==> r.sources == x.sources)
    ensures Faithful(x, WithResult(x, log, call, r))
  {
    var entry := EntryOf(|log.trace| + 1, GatewayName(call.name), r);
    var payload := ResultPayload(call, entry, r);
    var e := NextEvent(x.s, log.events, ToolResult, payload);
    ChainGrows(x.s, log.events, ToolResult, payload);
    ReplyMatches(x, log, round, call, r);
    PairingGrows(x.s, x.c, log.events, log.trace, e, [entry]);
    TraceGrows(log, e, entry);
    ObservedGrows(log.trace, entry);
    SourcesGrow(x, log, call, e, entry);
  }

  lemma HeedCounts(x: Setting, log: Log, call: ToolCall, r: ToolResponse)
    ensures var heeded := WithResult(x, log, call, r);
            && Count(heeded.events, ProviderEvent) == Count(log.events, ProviderEvent)
            && Quoted(heeded.events, ProposalAccepted, ReportHash) == Quoted(log.events, ProposalAccepted, ReportHash)
  {
    var entry := EntryOf(|log.trace| + 1, GatewayName(call.name), r);
    var e := NextEvent(x.s, log.events, ToolResult, ResultPayload(call, entry, r));
    CountGrows(log.events, e, ProviderEvent);
    QuotesGrow(log.events, e, ProposalAccepted, ReportHash);
  }

  /** The log ends with a provider event; if that carries one call, it is this. */
  ghost predicate Poses(log: Log, calls: seq<ToolCall>) { |calls| == 1 ==> Asks(log, calls[0]) }

  lemma HearKeeps(x: Setting, log: Log, round: nat, r: ProviderResponse)
    requires Kept(x, log, round) && log.tokens + r.usage.total <= x.c.maxTotalTokens
    ensures Kept(x, Heard(x, log, r), round + 1) && Poses(Heard(x, log, r), r.calls)
  {
    Hear(x, Spent(log, r), r);
  }

  lemma ProceedKeeps(x: Setting, heard: Log, attempts: seq<ModelAttempt>, round: nat, calls: seq<ToolCall>)
    requires Proper(x) && Kept(x, heard, round) && Poses(heard, calls)
    ensures TurnIsGood(x, Proceed(x, heard, attempts, round, calls), attempts, round)
  {
    if |calls| == 1 {
      if calls[0].name == SUBMIT {
        SubmitKeeps(x, heard, attempts, calls[0], round);
      } else {
        CallKeeps(x, heard, attempts, calls[0], round);
      }
    }
  }

  /** One round: either the run goes on with everything kept, or a report was accepted. */
  lemma RoundKeeps(x: Setting, log: Log, attempts: seq<ModelAttempt>, round: nat, r: ProviderResponse)
    requires Proper(x) && Kept(x, log, round)
    ensures TurnIsGood(x, Respond(x, log, attempts, round + 1, r), attempts, round + 1)
  {
    if log.tokens + r.usage.total <= x.c.maxTotalTokens {
      HearKeeps(x, log, round, r);
      ProceedKeeps(x, Heard(x, log, r), attempts, round + 1, r.calls);
    }
  }

  ghost predicate TurnIsGood(x: Setting, turn: Turn, attempts: seq<ModelAttempt>, rounds: nat)
    requires Trusted(x.s)
  {
    match turn
    case Continue(log) => Kept(x, log, rounds)
    case Submitted(report, log) => Good(x, report, log, attempts, rounds)
    case Stopped(_, _) => true
  }

  lemma CallKeeps(x: Setting, log: Log, attempts: seq<ModelAttempt>, call: ToolCall, round: nat)
    requires Proper(x) && Kept(x, log, round) && Asks(log, call)
    ensures TurnIsGood(x, CallTool(x, log, round, call), attempts, round)
  {
    if GatewayName(call.name) in x.c.allowedTools && log.toolCalls + 1 <= x.c.maxToolCalls {
      var reply := x.gateway(log.toolCalls, RequestFor(x, round, call));
      if reply.Some? && (reply.value.success ==> reply.value.sources == x.sources) {
        Heed(x, log.(toolCalls := log.toolCalls + 1), round, call, reply.value);
        HeedCounts(x, log.(toolCalls := log.toolCalls + 1), call, reply.value);
      }
    }
  }

  /** What an accepted report is. */
  ghost predicate Good(x: Setting, report: Report, log: Log, attempts: seq<ModelAttempt>, rounds: nat)
    requires Trusted(x.s)
  {
    && Faithful(x, log) && InBudget(x, log) && Count(log.events, ProviderEvent) == rounds
    && Quoted(log.events, ProposalAccepted, ReportHash) == [Str(report.hash)]
    && report.body.trace == log.trace && report.body.observed == log.observed && report.body.sources == x.sources
    && report.body.attempts == attempts && report.body.totalTokens == log.tokens
    && report.body.investigation == x.c.investigation
    && ValidProposal(report.body.proposal) && Reconstructs(x.s, x.c.policy, report)
  }

  lemma RejectionKeeps(x: Setting, log: Log, call: ToolCall, problem: Text, round: nat)
    requires Kept(x, log, round) && Asks(log, call) && call.name == SUBMIT
    ensures Kept(x, WithEvent(x, log, ProposalRejected, RejectedPayload(call, problem)), round)
  {
    Verdicted(x, log, ProposalRejected, RejectedPayload(call, problem), call);
  }

  /** The report that a submission makes says what the log says. */
  lemma ReportSays(x: Setting, log: Log, attempts: seq<ModelAttempt>, p: Proposal, v: Verdict)
    requires Trusted(x.s) && ValidProposal(p) && Score(x.s.maths, x.c.policy, p, log.observed) == Ok(v)
    ensures var report := ReportOn(x, log, attempts, p, v);
            && report.body.trace == log.trace && report.body.observed == log.observed && report.body.sources == x.sources
            && report.body.attempts == attempts && report.body.totalTokens == log.tokens
            && report.body.investigation == x.c.investigation
            && ValidProposal(report.body.proposal) && Reconstructs(x.s, x.c.policy, report)
  {
  }

  lemma AcceptanceIsGood(x: Setting, log: Log, attempts: seq<ModelAttempt>, call: ToolCall, round: nat, p: Proposal, v: Verdict)
    requires Trusted(x.s) && ValidProposal(p) && Score(x.s.maths, x.c.policy, p, log.observed) == Ok(v)
    requires Kept(x, log, round) && Asks(log, call) && call.name == SUBMIT
    ensures var report := ReportOn(x, log, attempts, p, v);
            Good(x, report, WithEvent(x, log, ProposalAccepted, AcceptedPayload(call, report)), attempts, round)
  {
    ReportSays(x, log, attempts, p, v);
    AcceptanceAppends(x, log, call, ReportOn(x, log, attempts, p, v), round);
  }

  lemma AcceptanceAppends(x: Setting, log: Log, call: ToolCall, report: Report, round: nat)
    requires Kept(x, log, round) && Asks(log, call) && call.name == SUBMIT
    ensures var said := WithEvent(x, log, ProposalAccepted, AcceptedPayload(call, report));
            && Faithful(x, said) && InBudget(x, said) && Count(said.events, ProviderEvent) == round
            && said.trace == log.trace && said.observed == log.observed && said.tokens == log.tokens
            && Quoted(said.events, ProposalAccepted, ReportHash) == [Str(report.hash)]
  {
    Verdicted(x, log, ProposalAccepted, AcceptedPayload(call, report), call);
  }

  lemma SubmitKeeps(x: Setting, log: Log, attempts: seq<ModelAttempt>, call: ToolCall, round: nat)
    requires Proper(x) && Kept(x, log, round) && Asks(log, call) && call.name == SUBMIT
    ensures TurnIsGood(x, Submit(x, log, attempts, call), attempts, round)
  {
    match x.s.parse(call.arguments)
    case None => RejectionKeeps(x, log, call, "invalid proposal", round);
    case Some(p) =>
      match Score(x.s.maths, x.c.policy, p, log.observed)
      case Err(_) => RejectionKeeps(x, log, call, "refused proposal", round);
      case Ok(v) => AcceptanceIsGood(x, log, attempts, call, round, p, v);
  }

  // ---- whole runs -------------------------------------------------------------------

  lemma {:induction false} RunIsGood(x: Setting, provider: Provider, w: Routes, log: Log, round: nat) returns (rounds: nat)
    requires Proper(x) && Routed(w) && 1 <= round <= x.c.maxRounds + 1 && Kept(x, log, round - 1)
    ensures var e := RunFrom(x, provider, w, log, round);
            e.turn.Submitted? ==>
              rounds <= x.c.maxRounds && Good(x, e.turn.report, e.turn.log, e.routes.attempts, rounds)
    decreases x.c.maxRounds + 1 - round
  {
    rounds := round;
    if round <= x.c.maxRounds {
      StaysRouted(provider, w);
      var o := Complete(provider, w);
      var w' := After(w, o);
      if o.result.Ok? {
        RoundKeeps(x, log, w'.attempts, round - 1, o.result.value);
        var turn := Respond(x, log, w'.attempts, round, o.result.value);
        if turn.Continue? {
          rounds := RunIsGood(x, provider, w', turn.log, round + 1);
        }
      }
    }
  }

  /** Whatever providers and gateway do: a run that returns a report has written an artifact in
      which the validator finds nothing wrong. */
  lemma ReturnedRunsAreAccepted(x: Setting, provider: Provider, w: Routes)
    requires Proper(x) && Routed(w)
    requires RunFrom(x, provider, w, EMPTY, 1).turn.Submitted?
    ensures var turn := RunFrom(x, provider, w, EMPTY, 1).turn;
            && ValidProposal(turn.report.body.proposal)
            && Accepted(x.s, Export(x.c, turn.report, turn.log.events))
  {
    var rounds := RunIsGood(x, provider, w, EMPTY, 1);
  }

  /** Rounds, tool calls and tokens of a returned run stay within their budgets, and the report
      counts them truly. */
  lemma ReturnedRunsKeepBudgets(x: Setting, provider: Provider, w: Routes)
    requires Proper(x) && Routed(w)
    requires RunFrom(x, provider, w, EMPTY, 1).turn.Submitted?
    ensures var turn := RunFrom(x, provider, w, EMPTY, 1).turn;
            && Count(turn.log.events, ProviderEvent) <= x.c.maxRounds
            && Count(turn.log.events, ToolResult) == |turn.report.body.trace| <= x.c.maxToolCalls
            && turn.report.body.totalTokens <= x.c.maxTotalTokens
  {
    var rounds := RunIsGood(x, provider, w, EMPTY, 1);
  }

  /** A cited record was returned by an earlier successful governed call. */
  lemma CitedEvidenceWasObserved(x: Setting, provider: Provider, w: Routes, id: Text)
    requires Proper(x) && Routed(w)
    requires RunFrom(x, provider, w, EMPTY, 1).turn.Submitted?
    requires id in Cited(RunFrom(x, provider, w, EMPTY, 1).turn.report.body.proposal)
    ensures var trace := RunFrom(x, provider, w, EMPTY, 1).turn.report.body.trace;
            exists k | 0 <= k < |trace| :: trace[k].success && id in trace[k].evidence
  {
    var rounds := RunIsGood(x, provider, w, EMPTY, 1);
    var k := ObservedAt(RunFrom(x, provider, w, EMPTY, 1).turn.report.body.trace, id);
  }

  /** Where the gateway depends on the request alone, replaying the trace of a returned run
      succeeds. */
  lemma ReturnedRunsReplay(x: Setting, provider: Provider, w: Routes, gateway: ToolRequest -> ToolResponse)
    requires Proper(x) && Routed(w)
    requires forall n: nat, q: ToolRequest :: x.gateway(n, q) == Some(gateway(q))
    requires RunFrom(x, provider, w, EMPTY, 1).turn.Submitted?
    ensures var turn := RunFrom(x, provider, w, EMPTY, 1).turn;
            Replays(gateway, Export(x.c, turn.report, turn.log.events))
  {
    var rounds := RunIsGood(x, provider, w, EMPTY, 1);
    var turn := RunFrom(x, provider, w, EMPTY, 1).turn;
    var arguments := ProviderArguments(turn.log.events);
    forall k: nat | k < |turn.log.trace|
      ensures EntryReplays(gateway, x.c, turn.report.body, arguments, k)
    {
      assert FromGateway(x, turn.log.trace[k], arguments[k], k);
    }
  }

  // ---- accounts ---------------------------------------------------------------------

  /** The tokens that the provider events report. */
  function TokensIn(t: seq<Event>): int {
    if t == [] then 0
    else
      var e := t[|t| - 1].draft;
      TokensIn(t[..|t| - 1]) + if e.kind == ProviderEvent && Get(e.payload, Usage).Number? then Get(e.payload, Usage).n else 0
  }

  lemma TokensGrow(t: seq<Event>, e: Event)
    ensures TokensIn(t + [e]) == TokensIn(t)
            + if e.draft.kind == ProviderEvent && Get(e.draft.payload, Usage).Number? then Get(e.draft.payload, Usage).n else 0
  {
    assert (t + [e])[..|t|] == t;
  }

  /** A call of the router logs one attempt for each failure, and one more if it has an answer. */
  lemma CallIsLogged(provider: Provider, w: Routes)
    requires Routed(w)
    ensures var o := Complete(provider, w);
            && |o.log| - o.failures == |w.attempts| - w.failures + (if o.result.Ok? then 1 else 0)
            && (w.failures <= w.maxFailures ==> o.failures <= w.maxFailures + 1 && (o.result.Ok? ==> o.failures <= w.maxFailures))
  {
    EveryTurnIsLogged(provider, w.models, w.maxFailures, w.preferred, w.attempts, w.failures, "no_models", 0);
    DecidingTurnDecides(provider, w.models, w.maxFailures, w.preferred, w.attempts, w.failures, "no_models", 0);
  }

  /** What a log and the router's log have in common. */
  ghost predicate Balanced(log: Log, w: Routes, base: int) {
    && TokensIn(log.events) == log.tokens
    && |w.attempts| - w.failures == base + Count(log.events, ProviderEvent)
  }

  ghost predicate SameAccounts(a: Log, b: Log) {
    && Count(a.events, ProviderEvent) == Count(b.events, ProviderEvent)
    && TokensIn(a.events) - a.tokens == TokensIn(b.events) - b.tokens
  }

  /** After the provider's event nothing touches the accounts. */
  lemma ProceedBalances(x: Setting, heard: Log, attempts: seq<ModelAttempt>, round: nat, calls: seq<ToolCall>)
    requires Proper(x)
    ensures var turn := Proceed(x, heard, attempts, round, calls);
            turn.Continue? || turn.Submitted? ==> SameAccounts(turn.log, heard)
  {
    var turn := Proceed(x, heard, attempts, round, calls);
    if turn.log.events != heard.events {
      var last := turn.log.events[|heard.events|];
      CountGrows(heard.events, last, ProviderEvent);
      TokensGrow(heard.events, last);
    }
  }

  lemma HeardBalances(x: Setting, log: Log, r: ProviderResponse)
    ensures var heard := Heard(x, log, r);
            && Count(heard.events, ProviderEvent) == Count(log.events, ProviderEvent) + 1
            && TokensIn(heard.events) - heard.tokens == TokensIn(log.events) - log.tokens
  {
    var payload := ProviderPayload(r);
    CountGrows(log.events, NextEvent(x.s, log.events, ProviderEvent, payload), ProviderEvent);
    TokensGrow(log.events, NextEvent(x.s, log.events, ProviderEvent, payload));
    assert Get(payload, Usage) == Number(r.usage.total);
  }

  lemma ResponseBalances(x: Setting, log: Log, attempts: seq<ModelAttempt>, round: nat, r: ProviderResponse)
    requires Proper(x)
    ensures var turn := Respond(x, log, attempts, round, r);
            turn.Continue? || turn.Submitted? ==>
              && Count(turn.log.events, ProviderEvent) == Count(log.events, ProviderEvent) + 1
              && TokensIn(turn.log.events) - turn.log.tokens == TokensIn(log.events) - log.tokens
  {
    HeardBalances(x, log, r);
    ProceedBalances(x, Heard(x, log, r), attempts, round, r.calls);
  }

  /** How a run stops short of a report, and what it has spent by then. */
  ghost predicate StopsRightly(x: Setting, e: Ending)
    requires e.turn.Stopped?
  {
    match e.turn.error
    case RoutesFailed(_) => true
    case TokenBudget => e.turn.log.tokens > x.c.maxTotalTokens
    case ToolBudget => e.turn.log.toolCalls == x.c.maxToolCalls + 1
    case RoundsExhausted => Kept(x, e.turn.log, x.c.maxRounds)
    case GatewayRaised => e.turn.log.toolCalls <= x.c.maxToolCalls
    case LineageChanged => e.turn.log.toolCalls <= x.c.maxToolCalls
  }

  lemma StopIsRight(x: Setting, log: Log, w: Routes, attempts: seq<ModelAttempt>, round: nat, r: ProviderResponse)
    requires Proper(x) && Kept(x, log, round)
    ensures var turn := Respond(x, log, attempts, round + 1, r);
            turn.Stopped? ==> StopsRightly(x, Ending(turn, w))
  {
  }

  /** Accounts of a whole run: the failure budget, tokens, attempts, and the reason for stopping. */
  lemma {:induction false} RunAccounts(x: Setting, provider: Provider, w: Routes, log: Log, round: nat, base: int)
    requires Proper(x) && Routed(w) && 1 <= round <= x.c.maxRounds + 1 && Kept(x, log, round - 1)
    requires Balanced(log, w, base) && w.failures <= w.maxFailures
    ensures var e := RunFrom(x, provider, w, log, round);
            && e.routes.failures <= w.maxFailures + 1
            && (e.turn.Submitted? ==> e.routes.failures <= w.maxFailures && Balanced(e.turn.log, e.routes, base))
            && (e.turn.Stopped? ==> StopsRightly(x, e))
    decreases x.c.maxRounds + 1 - round
  {
    if round <= x.c.maxRounds {
      StaysRouted(provider, w);
      CallIsLogged(provider, w);
      var o := Complete(provider, w);
      var w' := After(w, o);
      if o.result.Ok? {
        ResponseBalances(x, log, w'.attempts, round, o.result.value);
        RoundKeeps(x, log, w'.attempts, round - 1, o.result.value);
        StopIsRight(x, log, w', w'.attempts, round - 1, o.result.value);
        var turn := Respond(x, log, w'.attempts, round, o.result.value);
        if turn.Continue? {
          RunAccounts(x, provider, w', turn.log, round + 1, base);
        }
      }
    }
  }

  /** A report counts the tokens of all provider events, lists one attempt for each of them and one
      for each failure, and was reached within the failure budget. */
  lemma ReportsAccountForEverything(x: Setting, provider: Provider, models: seq<Text>, maxFailures: nat)
    requires Proper(x) && models != []
    ensures var e := RunFrom(x, provider, Routes(models, maxFailures, [], 0, 0), EMPTY, 1);
            e.turn.Submitted? ==>
              && e.turn.report.body.totalTokens == TokensIn(e.turn.log.events)
              && FailuresIn(e.turn.report.body.attempts) <= maxFailures
              && |e.turn.report.body.attempts|
                 == FailuresIn(e.turn.report.body.attempts) + Count(e.turn.log.events, ProviderEvent)
  {
    var w := Routes(models, maxFailures, [], 0, 0);
    RunAccounts(x, provider, w, EMPTY, 1, 0);
    RunStaysRouted(x, provider, w, EMPTY, 1);
    var rounds := RunIsGood(x, provider, w, EMPTY, 1);
  }

  lemma {:induction false} RunStaysRouted(x: Setting, provider: Provider, w: Routes, log: Log, round: nat)
    requires Proper(x) && Routed(w) && round <= x.c.maxRounds + 1
    ensures Routed(RunFrom(x, provider, w, log, round).routes)
    decreases x.c.maxRounds + 1 - round
  {
    if round <= x.c.maxRounds {
      StaysRouted(provider, w);
      var o := Complete(provider, w);
      var w' := After(w, o);
      if o.result.Ok? {
        var turn := Respond(x, log, w'.attempts, round, o.result.value);
        if turn.Continue? {
          RunStaysRouted(x, provider, w', turn.log, round + 1);
        }
      }
    }
  }
}
