/** How a round of an investigation ends, said of the provider's answer and the trace so far: when
    it returns a report, when a tool call adds an entry, when the run stops; and what that makes of
    whole runs. */
module InvestigationRounds {
  import opened Wrappers
  import opened Texts
  import opened Scoring
  import opened ScoringDecisions
  import opened InvestigationModels
  import opened Routing
  import opened Transcript
  import opened Investigation
  import opened InvestigationTheorems

  // ---- what an answer asks for --------------------------------------------------------

  predicate WithinTokens(x: Setting, log: Log, r: ProviderResponse) {
    log.tokens + r.usage.total <= x.c.maxTotalTokens
  }

  /** One call, and that a submission. */
  predicate Submits(r: ProviderResponse) {
    |r.calls| == 1 && r.calls[0].name == "submit_investigation"
  }

  /** A submission within the budget, of a proposal that the evidence observed so far bears out. */
  ghost predicate Proposes(x: Setting, log: Log, r: ProviderResponse)
    requires Proper(x)
  {
    && WithinTokens(x, log, r) && Submits(r)
    && x.s.parse(r.calls[0].arguments).Some?
    && Acceptable(x.s.maths, x.c.policy, x.s.parse(r.calls[0].arguments).value, Observed(log.trace))
  }

  /** One call, and that of another tool that the configuration allows. */
  predicate CallsTool(x: Setting, r: ProviderResponse) {
    |r.calls| == 1 && r.calls[0].name != "submit_investigation" && GatewayName(r.calls[0].name) in x.c.allowedTools
  }

  /** What the gateway makes of that call; it is its call number |log.trace|. */
  function Reply(x: Setting, log: Log, round: nat, r: ProviderResponse): Option<ToolResponse>
    requires CallsTool(x, r)
  {
    var tool, call := GatewayName(r.calls[0].name), r.calls[0];
    x.gateway(|log.trace|, ToolRequest(tool, call.arguments, x.s.nameId(CallName(x.s, x.c, round, call.id, tool, call.arguments))))
  }

  /** The call is within both budgets, and what comes back was made from the run's own sources. */
  predicate Replied(x: Setting, log: Log, round: nat, r: ProviderResponse) {
    && WithinTokens(x, log, r) && CallsTool(x, r) && |log.trace| < x.c.maxToolCalls
    && Reply(x, log, round, r).Some?
    && (Reply(x, log, round, r).value.success ==> Reply(x, log, round, r).value.sources == x.sources)
  }

  /** `log'` has events of these kinds beyond those of `log`. */
  predicate Adds(log: Log, log': Log, kinds: seq<Kind>) {
    && |log'.events| == |log.events| + |kinds| && log.events <= log'.events
    && forall i | 0 <= i < |kinds| :: log'.events[|log.events| + i].draft.kind == kinds[i]
  }

  /** The run goes on: with one entry more, the gateway's reply, if a tool was called, and else with
      the trace as it is. */
  ghost predicate GoesOn(x: Setting, log: Log, round: nat, r: ProviderResponse, log': Log)
    requires Proper(x)
  {
    && WithinTokens(x, log, r) && !Proposes(x, log, r)
    && log'.tokens == log.tokens + r.usage.total && |log'.trace| == log'.toolCalls
    && if CallsTool(x, r) then
         && Replied(x, log, round, r)
         && var y := Reply(x, log, round, r).value;
            var e := TraceEntry(|log.trace| + 1, y.callId, GatewayName(r.calls[0].name), y.normalized, y.success,
                                y.resultHash, y.evidence, y.truncated, y.error);
            && log'.trace == log.trace + [e]
            && log'.observed == log.observed + (if y.success then (set v | v in y.evidence) else {})
            && Adds(log, log', [ProviderEvent, ToolResult])
       else
         && log'.trace == log.trace && log'.observed == log.observed
         && Adds(log, log', if Submits(r) then [ProviderEvent, ProposalRejected] else [ProviderEvent])
  }

  /** Why the run stops in this round, if it does. */
  function Obstacle(x: Setting, log: Log, round: nat, r: ProviderResponse): Option<Error> {
    if !WithinTokens(x, log, r) then Some(TokenBudget)
    else if !CallsTool(x, r) || Replied(x, log, round, r) then None
    else if |log.trace| >= x.c.maxToolCalls then Some(ToolBudget)
    else if Reply(x, log, round, r).None? then Some(GatewayRaised)
    else Some(LineageChanged)
  }

  // ---- one round --------------------------------------------------------------------

  ghost predicate Consistent(log: Log) { log.observed == Observed(log.trace) && |log.trace| == log.toolCalls }

  /** A round returns a report exactly if the answer proposes. */
  lemma RoundReturnsExactly(x: Setting, log: Log, attempts: seq<ModelAttempt>, round: nat, r: ProviderResponse)
    requires Proper(x) && Consistent(log)
    ensures Respond(x, log, attempts, round, r).Submitted? <==> Proposes(x, log, r)
  {
    if WithinTokens(x, log, r) && Submits(r) && x.s.parse(r.calls[0].arguments).Some? {
      AcceptedExactly(x.s.maths, x.c.policy, x.s.parse(r.calls[0].arguments).value, log.observed);
    }
  }

  /** A report on this run: its request, sources, attempts, trace and tokens; and the verdict is
      the score of what was proposed. */
  ghost predicate ReportsOn(x: Setting, log: Log, attempts: seq<ModelAttempt>, r: ProviderResponse, body: Body)
    requires Proper(x) && Submits(r)
  {
    && body.investigation == x.c.investigation && body.incident == x.q.incident && body.question == x.q.question
    && body.observed == Observed(log.trace) && body.sources == x.sources && body.trace == log.trace
    && body.attempts == attempts && body.totalTokens == log.tokens + r.usage.total
    && x.s.parse(r.calls[0].arguments) == Some(body.proposal)
    && Score(x.s.maths, x.c.policy, body.proposal, Observed(log.trace)) == Ok(body.verdict)
  }

  lemma HeardAdds(x: Setting, log: Log, r: ProviderResponse)
    ensures var heard := Heard(x, log, r);
            && heard.trace == log.trace && heard.observed == log.observed && heard.toolCalls == log.toolCalls
            && heard.tokens == log.tokens + r.usage.total && Adds(log, heard, [ProviderEvent])
  {
  }

  lemma AcceptanceAdds(x: Setting, log: Log, heard: Log, payload: Dict)
    requires Adds(log, heard, [ProviderEvent])
    ensures Adds(log, WithEvent(x, heard, ProposalAccepted, payload), [ProviderEvent, ProposalAccepted])
  {
  }

  lemma SubmittedReport(x: Setting, heard: Log, attempts: seq<ModelAttempt>, call: ToolCall)
    requires Proper(x) && Submit(x, heard, attempts, call).Submitted?
    ensures var turn := Submit(x, heard, attempts, call);
            && x.s.parse(call.arguments).Some?
            && var p := x.s.parse(call.arguments).value;
               && Score(x.s.maths, x.c.policy, p, heard.observed).Ok?
               && turn.report == ReportOn(x, heard, attempts, p, Score(x.s.maths, x.c.policy, p, heard.observed).value)
               && turn.log == WithEvent(x, heard, ProposalAccepted, AcceptedPayload(call, turn.report))
  {
  }

  lemma SubmissionSays(x: Setting, log: Log, heard: Log, attempts: seq<ModelAttempt>, r: ProviderResponse)
    requires Proper(x) && Submits(r) && Submit(x, heard, attempts, r.calls[0]).Submitted?
    requires heard.trace == log.trace && heard.observed == Observed(log.trace) && heard.tokens == log.tokens + r.usage.total
    requires Adds(log, heard, [ProviderEvent])
    ensures var turn := Submit(x, heard, attempts, r.calls[0]);
            ReportsOn(x, log, attempts, r, turn.report.body) && Adds(log, turn.log, [ProviderEvent, ProposalAccepted])
  {
    SubmittedReport(x, heard, attempts, r.calls[0]);
    AcceptanceAdds(x, log, heard, AcceptedPayload(r.calls[0], Submit(x, heard, attempts, r.calls[0]).report));
  }

  lemma SubmittedRound(x: Setting, log: Log, attempts: seq<ModelAttempt>, round: nat, r: ProviderResponse)
    requires Proper(x) && Consistent(log) && Respond(x, log, attempts, round, r).Submitted?
    ensures var turn := Respond(x, log, attempts, round, r);
            Submits(r) && ReportsOn(x, log, attempts, r, turn.report.body) && Adds(log, turn.log, [ProviderEvent, ProposalAccepted])
  {
    HeardAdds(x, log, r);
    SubmissionSays(x, log, Heard(x, log, r), attempts, r);
  }

  lemma ReturnedReportSays(x: Setting, log: Log, attempts: seq<ModelAttempt>, round: nat, r: ProviderResponse)
    requires Proper(x) && Consistent(log) && Proposes(x, log, r)
    ensures var turn := Respond(x, log, attempts, round, r);
            && turn.Submitted? && ReportsOn(x, log, attempts, r, turn.report.body)
            && Adds(log, turn.log, [ProviderEvent, ProposalAccepted])
  {
    RoundReturnsExactly(x, log, attempts, round, r);
    SubmittedRound(x, log, attempts, round, r);
  }

  /** A round stops the run exactly if there is an obstacle, and names it. */
  lemma RoundStopsExactly(x: Setting, log: Log, attempts: seq<ModelAttempt>, round: nat, r: ProviderResponse)
    requires Proper(x) && Consistent(log)
    ensures var turn := Respond(x, log, attempts, round, r);
            Obstacle(x, log, round, r) == if turn.Stopped? then Some(turn.error) else None
  {
  }

  lemma ToolAdds(x: Setting, log: Log, heard: Log, round: nat, r: ProviderResponse)
    requires Proper(x) && Consistent(log) && WithinTokens(x, log, r) && CallsTool(x, r)
    requires heard.trace == log.trace && heard.observed == log.observed && heard.toolCalls == log.toolCalls
    requires heard.tokens == log.tokens + r.usage.total && Adds(log, heard, [ProviderEvent])
    requires CallTool(x, heard, round, r.calls[0]).Continue?
    ensures GoesOn(x, log, round, r, CallTool(x, heard, round, r.calls[0]).log)
    ensures Consistent(CallTool(x, heard, round, r.calls[0]).log)
  {
    ObservedGrows(log.trace, EntryOf(|log.trace| + 1, GatewayName(r.calls[0].name), Reply(x, log, round, r).value));
  }

  /** In every other round the run goes on. */
  lemma RoundGoesOn(x: Setting, log: Log, attempts: seq<ModelAttempt>, round: nat, r: ProviderResponse)
    requires Proper(x) && Consistent(log) && Respond(x, log, attempts, round, r).Continue?
    ensures GoesOn(x, log, round, r, Respond(x, log, attempts, round, r).log)
    ensures Consistent(Respond(x, log, attempts, round, r).log)
  {
    if CallsTool(x, r) {
      ToolAdds(x, log, Heard(x, log, r), round, r);
    } else {
      RoundReturnsExactly(x, log, attempts, round, r);
    }
  }

  /** An allowed call within the budgets, answered from the run's own sources, adds its entry. */
  lemma RepliedCallAddsEntry(x: Setting, log: Log, attempts: seq<ModelAttempt>, round: nat, r: ProviderResponse)
    requires Proper(x) && Consistent(log) && Replied(x, log, round, r)
    ensures Respond(x, log, attempts, round, r).Continue?
    ensures GoesOn(x, log, round, r, Respond(x, log, attempts, round, r).log)
  {
    RoundStopsExactly(x, log, attempts, round, r);
    RoundGoesOn(x, log, attempts, round, r);
  }

  // ---- whole runs -------------------------------------------------------------------

  /** A round that was played: the log before it, and the provider's answer or the router's failure. */
  datatype Round = Round(log: Log, attempts: seq<ModelAttempt>, answer: Result<ProviderResponse, Text>)

  ghost function Played(x: Setting, provider: Provider, w: Routes, log: Log, round: nat): seq<Round>
    requires Proper(x) && Routed(w) && round <= x.c.maxRounds + 1
    decreases x.c.maxRounds + 1 - round
  {
    if round > x.c.maxRounds then []
    else
      StaysRouted(provider, w);
      var o := Complete(provider, w);
      var w' := After(w, o);
      [Round(log, w'.attempts, o.result)]
      + if o.result.Err? then []
        else
          var turn := Respond(x, log, w'.attempts, round, o.result.value);
          if turn.Continue? then Played(x, provider, w', turn.log, round + 1) else []
  }

  ghost predicate Chain(next: (nat, Round, Round) -> bool, rounds: seq<Round>, first: nat) {
    forall k: nat | k + 1 < |rounds| :: next(first + k, rounds[k], rounds[k + 1])
  }

  lemma ChainExtends(next: (nat, Round, Round) -> bool, a: Round, rounds: seq<Round>, first: nat)
    requires Chain(next, rounds, first + 1) && (rounds != [] ==> next(first, a, rounds[0]))
    ensures Chain(next, [a] + rounds, first)
  {
    var all := [a] + rounds;
    forall k: nat | k + 1 < |all| ensures next(first + k, all[k], all[k + 1]) {
      if k > 0 {
        assert all[k] == rounds[k - 1] && all[k + 1] == rounds[k];
        assert first + k == first + 1 + (k - 1);
      }
    }
  }

  /** What makes round `b` follow round `a`, which is round number `n`. */
  ghost function NextIn(x: Setting): (nat, Round, Round) -> bool
    requires Proper(x)
  {
    (n: nat, a: Round, b: Round) => a.answer.Ok? && GoesOn(x, a.log, n, a.answer.value, b.log) && Consistent(b.log)
  }

  /** How the last round of all, which is round number `n`, leaves the run. */
  ghost predicate EndsAs(x: Setting, n: nat, last: Round, turn: Turn)
    requires Proper(x)
  {
    match last.answer
    case Err(code) => turn == Stopped(RoutesFailed(code), last.log)
    case Ok(r) =>
      && (turn.Submitted? <==> Proposes(x, last.log, r))
      && (turn.Submitted? ==> ReportsOn(x, last.log, last.attempts, r, turn.report.body))
      && (turn.Stopped? <==> Obstacle(x, last.log, n, r).Some? || (n == x.c.maxRounds && GoesOn(x, last.log, n, r, turn.log)))
      && (turn.Stopped? ==>
            turn.error == if Obstacle(x, last.log, n, r).Some? then Obstacle(x, last.log, n, r).value else RoundsExhausted)
  }

  ghost function EndIn(x: Setting): (nat, Round, Turn) -> bool
    requires Proper(x)
  {
    (n: nat, last: Round, turn: Turn) => EndsAs(x, n, last, turn)
  }

  lemma RoundIsFollowed(x: Setting, a: Round, n: nat, b: Round)
    requires Proper(x) && Consistent(a.log) && a.answer.Ok?
    requires Respond(x, a.log, a.attempts, n, a.answer.value) == Continue(b.log)
    ensures NextIn(x)(n, a, b) && Consistent(b.log)
  {
    RoundGoesOn(x, a.log, a.attempts, n, a.answer.value);
  }

  // In the inductions below `next` and `ends` stand for the relations above, of which nothing but
  // these is needed.

  ghost predicate Plays(x: Setting, a: Round, n: nat, b: Round)
    requires Proper(x)
  {
    && Consistent(a.log) && a.answer.Ok?
    && Respond(x, a.log, a.attempts, n, a.answer.value) == Continue(b.log)
  }

  ghost predicate Steps(x: Setting, next: (nat, Round, Round) -> bool)
    requires Proper(x)
  {
    forall a: Round, n: nat, b: Round | Plays(x, a, n, b) :: next(n, a, b)
  }

  ghost predicate Finishes(x: Setting, last: Round, n: nat, turn: Turn)
    requires Proper(x)
  {
    && Consistent(last.log)
    && match last.answer
       case Err(code) => turn == Stopped(RoutesFailed(code), last.log)
       case Ok(r) =>
         var t := Respond(x, last.log, last.attempts, n, r);
         if t.Continue? then n == x.c.maxRounds && turn == Stopped(RoundsExhausted, t.log) else turn == t
  }

  ghost predicate Ends(x: Setting, ends: (nat, Round, Turn) -> bool)
    requires Proper(x)
  {
    forall last: Round, n: nat, turn: Turn | Finishes(x, last, n, turn) :: ends(n, last, turn)
  }

  lemma LastRoundEnds(x: Setting, last: Round, n: nat, turn: Turn)
    requires Proper(x) && Finishes(x, last, n, turn)
    ensures EndIn(x)(n, last, turn)
  {
    if last.answer.Ok? {
      var r := last.answer.value;
      RoundReturnsExactly(x, last.log, last.attempts, n, r);
      RoundStopsExactly(x, last.log, last.attempts, n, r);
      if Respond(x, last.log, last.attempts, n, r).Continue? {
        RoundGoesOn(x, last.log, last.attempts, n, r);
      } else if turn.Submitted? {
        SubmittedRound(x, last.log, last.attempts, n, r);
      }
    }
  }

  lemma StaysConsistent(x: Setting, log: Log, attempts: seq<ModelAttempt>, round: nat, r: ProviderResponse)
    requires Proper(x) && Consistent(log) && Respond(x, log, attempts, round, r).Continue?
    ensures Consistent(Respond(x, log, attempts, round, r).log)
  {
    RoundGoesOn(x, log, attempts, round, r);
  }

  lemma RoundPrecedes(x: Setting, log: Log, attempts: seq<ModelAttempt>, answer: Result<ProviderResponse, Text>, round: nat,
                      log': Log, rest: seq<Round>, next: (nat, Round, Round) -> bool)
    requires Proper(x) && Steps(x, next) && Chain(next, rest, round + 1) && Consistent(log)
    requires answer.Ok? && Respond(x, log, attempts, round, answer.value) == Continue(log')
    requires rest != [] ==> rest[0].log == log'
    ensures Chain(next, [Round(log, attempts, answer)] + rest, round)
  {
    var a := Round(log, attempts, answer);
    if rest != [] {
      assert Plays(x, a, round, rest[0]);
    }
    ChainExtends(next, a, rest, round);
  }

  /** In a run none but the last round proposes or meets an obstacle, and each round takes its log
      from the one before. */
  lemma {:induction false} RoundsFollow(x: Setting, provider: Provider, w: Routes, log: Log, round: nat, next: (nat, Round, Round) -> bool)
    requires Proper(x) && Routed(w) && round <= x.c.maxRounds + 1 && Consistent(log) && Steps(x, next)
    ensures Chain(next, Played(x, provider, w, log, round), round)
    decreases x.c.maxRounds + 1 - round
  {
    if round <= x.c.maxRounds {
      StaysRouted(provider, w);
      var o := Complete(provider, w);
      var w' := After(w, o);
      if o.result.Ok? {
        var turn := Respond(x, log, w'.attempts, round, o.result.value);
        if turn.Continue? {
          var rest := Played(x, provider, w', turn.log, round + 1);
          StaysConsistent(x, log, w'.attempts, round, o.result.value);
          RoundsFollow(x, provider, w', turn.log, round + 1, next);
          RoundPrecedes(x, log, w'.attempts, o.result, round, turn.log, rest, next);
        }
      }
    }
  }

  lemma Finish(x: Setting, log: Log, attempts: seq<ModelAttempt>, n: nat, answer: Result<ProviderResponse, Text>, turn: Turn,
               ends: (nat, Round, Turn) -> bool)
    requires Proper(x) && Consistent(log) && Ends(x, ends)
    requires match answer
             case Err(code) => turn == Stopped(RoutesFailed(code), log)
             case Ok(r) =>
               var t := Respond(x, log, attempts, n, r);
               if t.Continue? then n == x.c.maxRounds && turn == Stopped(RoundsExhausted, t.log) else turn == t
    ensures ends(n, Round(log, attempts, answer), turn)
  {
    assert Finishes(x, Round(log, attempts, answer), n, turn);
  }

  ghost predicate EndsRun(rounds: seq<Round>, log: Log, round: nat, max: nat, turn: Turn, ends: (nat, Round, Turn) -> bool) {
    && rounds != [] && |rounds| <= max + 1 - round && rounds[0].log == log
    && ends(round + |rounds| - 1, rounds[|rounds| - 1], turn)
  }

  lemma OneMoreRound(a: Round, rounds: seq<Round>, log: Log, round: nat, max: nat, turn: Turn, ends: (nat, Round, Turn) -> bool)
    requires round < max && EndsRun(rounds, log, round + 1, max, turn, ends)
    ensures EndsRun([a] + rounds, a.log, round, max, turn, ends)
  {
    var all := [a] + rounds;
    assert all[|all| - 1] == rounds[|rounds| - 1] && round + |all| - 1 == round + 1 + |rounds| - 1;
  }

  lemma NoMoreRounds(x: Setting, provider: Provider, w: Routes, log: Log, round: nat)
    requires Proper(x) && Routed(w) && round == x.c.maxRounds + 1
    ensures RunFrom(x, provider, w, log, round).turn == Stopped(RoundsExhausted, log)
    ensures Played(x, provider, w, log, round) == []
  {
  }

  lemma FinishesHere(x: Setting, provider: Provider, w: Routes, log: Log, round: nat, ends: (nat, Round, Turn) -> bool)
    requires Proper(x) && Routed(w) && round <= x.c.maxRounds && Consistent(log) && Ends(x, ends)
    requires var o := Complete(provider, w);
             round < x.c.maxRounds ==>
               o.result.Err? || !Respond(x, log, After(w, o).attempts, round, o.result.value).Continue?
    ensures EndsRun(Played(x, provider, w, log, round), log, round, x.c.maxRounds, RunFrom(x, provider, w, log, round).turn, ends)
  {
    StaysRouted(provider, w);
    var o := Complete(provider, w);
    if o.result.Ok? && Respond(x, log, After(w, o).attempts, round, o.result.value).Continue? {
      var log' := Respond(x, log, After(w, o).attempts, round, o.result.value).log;
      NoMoreRounds(x, provider, After(w, o), log', round + 1);
    }
    Finish(x, log, After(w, o).attempts, round, o.result, RunFrom(x, provider, w, log, round).turn, ends);
  }

  lemma {:induction false} LastRoundFinishes(x: Setting, provider: Provider, w: Routes, log: Log, round: nat, ends: (nat, Round, Turn) -> bool)
    requires Proper(x) && Routed(w) && round <= x.c.maxRounds && Consistent(log) && Ends(x, ends)
    ensures EndsRun(Played(x, provider, w, log, round), log, round, x.c.maxRounds, RunFrom(x, provider, w, log, round).turn, ends)
    decreases x.c.maxRounds + 1 - round
  {
    StaysRouted(provider, w);
    var o := Complete(provider, w);
    var w' := After(w, o);
    if round < x.c.maxRounds && o.result.Ok? && Respond(x, log, w'.attempts, round, o.result.value).Continue? {
      var log' := Respond(x, log, w'.attempts, round, o.result.value).log;
      StaysConsistent(x, log, w'.attempts, round, o.result.value);
      LastRoundFinishes(x, provider, w', log', round + 1, ends);
      OneMoreRound(Round(log, w'.attempts, o.result), Played(x, provider, w', log', round + 1), log', round, x.c.maxRounds,
                   RunFrom(x, provider, w', log', round + 1).turn, ends);
    } else {
      FinishesHere(x, provider, w, log, round, ends);
    }
  }

  lemma EveryStepIsNext(x: Setting)
    requires Proper(x)
    ensures Steps(x, NextIn(x))
  {
    forall a: Round, n: nat, b: Round | Plays(x, a, n, b) ensures NextIn(x)(n, a, b) {
      RoundIsFollowed(x, a, n, b);
    }
  }

  lemma EveryEndIs(x: Setting)
    requires Proper(x)
    ensures Ends(x, EndIn(x))
  {
    forall last: Round, n: nat, turn: Turn | Finishes(x, last, n, turn) ensures EndIn(x)(n, last, turn) {
      LastRoundEnds(x, last, n, turn);
    }
  }

  /** A run is the rounds it plays.  Each but the last goes on to the next; the last returns exactly
      if it proposes, and else stops at the obstacle it meets, when all routes fail, or because it
      was the last there may be. */
  lemma RunIsItsRounds(x: Setting, provider: Provider, w: Routes)
    requires Proper(x) && Routed(w)
    ensures var rounds, turn := Played(x, provider, w, EMPTY, 1), RunFrom(x, provider, w, EMPTY, 1).turn;
            && |rounds| <= x.c.maxRounds && Chain(NextIn(x), rounds, 1)
            && if rounds == [] then x.c.maxRounds == 0 && turn == Stopped(RoundsExhausted, EMPTY)
               else rounds[0].log == EMPTY && EndIn(x)(|rounds|, rounds[|rounds| - 1], turn)
  {
    EveryStepIsNext(x);
    EveryEndIs(x);
    RoundsFollow(x, provider, w, EMPTY, 1, NextIn(x));
    if x.c.maxRounds > 0 {
      LastRoundFinishes(x, provider, w, EMPTY, 1, EndIn(x));
    } else {
      NoMoreRounds(x, provider, w, EMPTY, 1);
    }
  }

  ghost predicate SomeProposes(x: Setting, rounds: seq<Round>)
    requires Proper(x)
  {
    exists k | 0 <= k < |rounds| :: rounds[k].answer.Ok? && Proposes(x, rounds[k].log, rounds[k].answer.value)
  }

  /** A run returns a report exactly if one of its rounds proposes. */
  lemma RunReturnsExactly(x: Setting, provider: Provider, w: Routes)
    requires Proper(x) && Routed(w)
    ensures RunFrom(x, provider, w, EMPTY, 1).turn.Submitted? <==> SomeProposes(x, Played(x, provider, w, EMPTY, 1))
  {
    RunIsItsRounds(x, provider, w);
    var rounds := Played(x, provider, w, EMPTY, 1);
    forall k: nat | k + 1 < |rounds| ensures rounds[k].answer.Ok? && !Proposes(x, rounds[k].log, rounds[k].answer.value) {
      assert NextIn(x)(1 + k, rounds[k], rounds[k + 1]);
    }
  }
}
