/** The independent validator of an exported investigation: hash chain, pairing of events with
    provider tool calls, trace, acceptance, and the replay of governed tool calls. */
module Transcript {
  import opened Wrappers
  import opened Texts
  import opened Scoring
  import opened InvestigationModels

  // ---- names ------------------------------------------------------------------------

  /** Every "__" becomes ".". */
  function GatewayName(name: Text): Text {
    if name == "" then ""
    else if |name| >= 2 && name[0] == '_' && name[1] == '_' then "." + GatewayName(name[2..])
    else [name[0]] + GatewayName(name[1..])
  }

  /** Every "." becomes "__". */
  function ProviderName(tool: Text): Text {
    if tool == "" then "" else (if tool[0] == '.' then "__" else [tool[0]]) + ProviderName(tool[1..])
  }

  const DIGITS: Text := "0123456789"

  function Decimal(n: nat): Text {
    if n < 10 then [DIGITS[n]] else Decimal(n / 10) + [DIGITS[n % 10]]
  }

  /** The name from which the identifier of a governed call is made. */
  function CallName(s: Services, c: Config, round: nat, id: Text, tool: Text, arguments: Dict): Text {
    c.investigation + ":" + Decimal(round) + ":" + (id + ":" + tool + ":" + s.canonical(arguments))
  }

  function CallIdOf(s: Services, c: Config, round: nat, id: Text, tool: Text, arguments: Dict): Text {
    s.nameId(CallName(s, c, round, id, tool, arguments))
  }

  // ---- the hash chain ---------------------------------------------------------------

  function LastHash(t: seq<Event>): Text { if t == [] then ZERO_HASH else t[|t| - 1].hash }

  /** The event that the orchestrator appends. */
  function NextEvent(s: Services, t: seq<Event>, kind: Kind, payload: Dict): Event {
    var draft := Draft(|t| + 1, kind, payload, LastHash(t));
    Event(draft, s.digest(draft))
  }

  ghost predicate Linked(s: Services, t: seq<Event>, i: nat)
    requires i < |t|
  {
    t[i].draft.sequence == i + 1 && t[i].draft.previous == LastHash(t[..i]) && t[i].hash == s.digest(t[i].draft)
  }

  ghost predicate Chained(s: Services, t: seq<Event>) {
    forall i: nat | i < |t| :: Linked(s, t, i)
  }

  /** The orchestrator's event continues a valid chain. */
  lemma ChainGrows(s: Services, t: seq<Event>, kind: Kind, payload: Dict)
    requires Chained(s, t)
    ensures Chained(s, t + [NextEvent(s, t, kind, payload)])
  {
    var t' := t + [NextEvent(s, t, kind, payload)];
    forall i: nat | i < |t'| ensures Linked(s, t', i) {
      assert t'[..i] == t[..i];
      assert i < |t| ==> Linked(s, t, i);
    }
  }

  method ChainIsValid(s: Services, t: seq<Event>) returns (valid: bool)
    ensures valid <==> Chained(s, t)
  {
    var previous := ZERO_HASH;
    for i := 0 to |t|
      invariant previous == LastHash(t[..i])
      invariant forall j: nat | j < i :: Linked(s, t, j)
    {
      var event := t[i];
      if event.draft.sequence != i + 1 || event.draft.previous != previous || event.hash != s.digest(event.draft) {
        assert !Linked(s, t, i);
        return false;
      }
      previous := event.hash;
    }
    return true;
  }

  // ---- pairing ----------------------------------------------------------------------

  /** The one tool call of a provider event, if it has exactly one and that is an object. */
  function SingleCall(payload: Dict): Option<Dict> {
    match Get(payload, ToolCalls)
    case List(items) => if |items| == 1 && items[0].Object? then Some(items[0].fields) else None
    case _ => None
  }

  function Count(t: seq<Event>, kind: Kind): nat {
    if t == [] then 0 else Count(t[..|t| - 1], kind) + if t[|t| - 1].draft.kind == kind then 1 else 0
  }

  /** What governance makes of a call of this tool. */
  predicate OutcomeMatches(d: Decision, e: TraceEntry) {
    && d.normalized == e.arguments
    && (if e.success then d.allowed && e.error.None?
        else e.error == Some(if d.allowed then REJECTED else d.code))
  }

  /** The trace entry says what governance makes of the provider's call. */
  predicate EntryMatches(s: Services, c: Config, round: nat, call: Dict, e: TraceEntry) {
    && Get(call, Id).Str? && Get(call, Name).Str? && Get(call, Arguments).Object?
    && e.tool == GatewayName(Get(call, Name).text)
    && OutcomeMatches(s.authorize(e.tool, Get(call, Arguments).fields), e)
    && e.callId == CallIdOf(s, c, round, Get(call, Id).text, e.tool, Get(call, Arguments).fields)
  }

  /** Entry `k` of the trace, if there is one, matches the call. */
  predicate ResultMatches(s: Services, c: Config, round: nat, call: Dict, trace: seq<TraceEntry>, k: nat) {
    k < |trace| && EntryMatches(s, c, round, call, trace[k])
  }

  /** Event `e` answers the call, being preceded by `round` provider events and `k` tool results. */
  predicate AnswersCall(s: Services, c: Config, call: Dict, e: Draft, trace: seq<TraceEntry>, round: nat, k: nat) {
    && Get(e.payload, ToolCallId) == Get(call, Id)
    && if e.kind == ToolResult then ResultMatches(s, c, round, call, trace, k) else Get(call, Name) == Str(SUBMIT)
  }

  /** Event `e` directly follows a provider event with one call, and answers that. */
  predicate Follows(s: Services, c: Config, previous: Option<Event>, e: Draft, trace: seq<TraceEntry>, round: nat, k: nat) {
    && previous.Some? && previous.value.draft.kind == ProviderEvent
    && SingleCall(previous.value.draft.payload).Some?
    && AnswersCall(s, c, SingleCall(previous.value.draft.payload).value, e, trace, round, k)
  }

  function Last(t: seq<Event>): Option<Event> { if t == [] then None else Some(t[|t| - 1]) }

  /** A tool result or a verdict on a proposal answers the provider event before it; the n-th tool
      result stands for the n-th trace entry. */
  ghost predicate Answers(s: Services, c: Config, t: seq<Event>, trace: seq<TraceEntry>, i: nat)
    requires i < |t|
  {
    t[i].draft.kind == ProviderEvent
    || Follows(s, c, Last(t[..i]), t[i].draft, trace, Count(t[..i], ProviderEvent), Count(t[..i], ToolResult))
  }

  ghost predicate Paired(s: Services, c: Config, t: seq<Event>, trace: seq<TraceEntry>) {
    && (forall i: nat | i < |t| :: Answers(s, c, t, trace, i))
    && Count(t, ToolResult) == |trace|
  }

  datatype Issue = NotPaired | NotSingle | WrongIdentity | TooManyResults | Malformed | WrongTool | WrongArguments
                 | NotAuthorized | UnexpectedCode | WrongCode | WrongCallId | NotSubmission | MissingResult
                 | WrongReport | BrokenChain | WrongCounts | WrongTrace | NotAccepted

  /** What is wrong with the trace entry for a call. */
  method EntryIssues(s: Services, c: Config, round: nat, call: Dict, e: TraceEntry) returns (issues: seq<Issue>)
    ensures issues == [] <==> EntryMatches(s, c, round, call, e)
  {
    var id, name, arguments := Get(call, Id), Get(call, Name), Get(call, Arguments);
    if !id.Str? || !name.Str? || !arguments.Object? {
      return [Malformed];
    }
    issues := [];
    var tool := GatewayName(name.text);
    var decision := s.authorize(tool, arguments.fields);
    if tool != e.tool {
      issues := issues + [WrongTool];
    }
    if decision.normalized != e.arguments {
      issues := issues + [WrongArguments];
    }
    if e.success {
      if !decision.allowed {
        issues := issues + [NotAuthorized];
      }
      if e.error.Some? {
        issues := issues + [UnexpectedCode];
      }
    } else if e.error != Some(if decision.allowed then REJECTED else decision.code) {
      issues := issues + [WrongCode];
    }
    if CallIdOf(s, c, round, id.text, tool, arguments.fields) != e.callId {
      issues := issues + [WrongCallId];
    }
  }

  /** The validator's pass over the events finds nothing exactly when they are paired. */
  method TranscriptSemanticIssues(s: Services, c: Config, t: seq<Event>, trace: seq<TraceEntry>) returns (issues: seq<Issue>)
    ensures issues == [] <==> Paired(s, c, t, trace)
  {
    issues := [];
    var providerRound, traceIndex := 0, 0;
    var previous: Option<Event> := None;
    for i := 0 to |t|
      invariant previous == Last(t[..i])
      invariant providerRound == Count(t[..i], ProviderEvent)
      invariant issues == [] ==> traceIndex == Count(t[..i], ToolResult)
      invariant issues == [] <==> forall j: nat | j < i :: Answers(s, c, t, trace, j)
    {
      var event := t[i];
      assert t[..i + 1][..i] == t[..i];
      if event.draft.kind == ProviderEvent {
        providerRound := providerRound + 1;
      } else if previous.None? || previous.value.draft.kind != ProviderEvent {
        assert !Answers(s, c, t, trace, i);
        issues := issues + [NotPaired];
      } else if SingleCall(previous.value.draft.payload).None? {
        assert !Answers(s, c, t, trace, i);
        issues := issues + [NotSingle];
      } else {
        var call := SingleCall(previous.value.draft.payload).value;
        var found: seq<Issue> := [];
        if Get(event.draft.payload, ToolCallId) != Get(call, Id) {
          found := [WrongIdentity];
        }
        if event.draft.kind == ToolResult {
          if traceIndex >= |trace| {
            found := found + [TooManyResults];
          } else {
            var more := EntryIssues(s, c, providerRound, call, trace[traceIndex]);
            found := found + more;
            traceIndex := traceIndex + 1;
          }
        } else if Get(call, Name) != Str(SUBMIT) {
          found := found + [NotSubmission];
        }
        assert issues == [] ==> (found == [] <==> Answers(s, c, t, trace, i));
        issues := issues + found;
      }
      previous := Some(event);
    }
    assert t[..|t|] == t;
    if traceIndex != |trace| {
      issues := issues + [MissingResult];
    }
  }

  // ---- the whole artifact -----------------------------------------------------------

  datatype Manifest = Manifest(investigation: Text, incident: Text, concluded: bool, selected: Option<Text>,
                               reportHash: Text, sources: map<Text, Text>, attempts: nat, toolCalls: nat, events: nat)

  datatype Artifact = Artifact(config: Config, report: Report, transcript: seq<Event>, manifest: Manifest)

  function ManifestOf(r: Report, t: seq<Event>): Manifest {
    Manifest(r.body.investigation, r.body.incident, r.body.verdict.concluded, r.body.verdict.selected, r.hash,
             r.body.sources, |r.body.attempts|, |r.body.trace|, |t|)
  }

  function Export(c: Config, r: Report, t: seq<Event>): Artifact { Artifact(c, r, t, ManifestOf(r, t)) }

  /** Scoring the report's own proposal again yields the report. */
  ghost predicate Reconstructs(s: Services, policy: Policy, r: Report)
    requires Trusted(s) && ValidProposal(r.body.proposal)
  {
    && Score(s.maths, policy, r.body.proposal, r.body.observed) == Ok(r.body.verdict)
    && r.hash == s.reportDigest(r.body)
  }

  method VerifyReport(s: Services, policy: Policy, r: Report) returns (ok: bool)
    requires Trusted(s) && ValidProposal(r.body.proposal)
    ensures ok <==> Reconstructs(s, policy, r)
  {
    var score := ScoreProposal(s.maths, policy, r.body.proposal, r.body.observed);
    if score.Err? {
      return false;
    }
    var body := r.body.(verdict := score.value);
    return Report(body, s.reportDigest(body)) == r;
  }

  /** The traces in the tool results, and the hashes in the acceptances. */
  function Quoted(t: seq<Event>, kind: Kind, key: Key): seq<Json> {
    if t == [] then []
    else
      var e := t[|t| - 1].draft;
      Quoted(t[..|t| - 1], kind, key) + if e.kind == kind then [Get(e.payload, key)] else []
  }

  function DumpTrace(trace: seq<TraceEntry>): seq<Json> {
    seq(|trace|, i requires 0 <= i < |trace| => DumpEntry(trace[i]))
  }

  ghost predicate Accepted(s: Services, a: Artifact)
    requires Trusted(s) && ValidProposal(a.report.body.proposal)
  {
    && a.manifest == ManifestOf(a.report, a.transcript)
    && Reconstructs(s, a.config.policy, a.report)
    && Chained(s, a.transcript)
    && Quoted(a.transcript, ToolResult, Trace) == DumpTrace(a.report.body.trace)
    && Paired(s, a.config, a.transcript, a.report.body.trace)
    && Quoted(a.transcript, ProposalAccepted, ReportHash) == [Str(a.report.hash)]
  }

  /** Report and counts are those of the manifest. */
  method ManifestIssues(a: Artifact) returns (issues: seq<Issue>)
    ensures issues == [] <==> a.manifest == ManifestOf(a.report, a.transcript)
  {
    issues := [];
    if a.report.hash != a.manifest.reportHash || a.report.body.investigation != a.manifest.investigation
       || a.report.body.incident != a.manifest.incident || a.report.body.verdict.concluded != a.manifest.concluded
       || a.report.body.verdict.selected != a.manifest.selected {
      issues := issues + [WrongReport];
    }
    if |a.report.body.attempts| != a.manifest.attempts || |a.report.body.trace| != a.manifest.toolCalls
       || a.report.body.sources != a.manifest.sources || |a.transcript| != a.manifest.events {
      issues := issues + [WrongCounts];
    }
  }

  /** The validator finds no issue exactly in accepted artifacts. */
  method ValidateInvestigation(s: Services, a: Artifact) returns (issues: seq<Issue>)
    requires Trusted(s) && ValidProposal(a.report.body.proposal)
    ensures issues == [] <==> Accepted(s, a)
  {
    issues := ManifestIssues(a);
    var verified := VerifyReport(s, a.config.policy, a.report);
    if !verified {
      issues := issues + [WrongReport];
    }
    var chained := ChainIsValid(s, a.transcript);
    if !chained {
      issues := issues + [BrokenChain];
    }
    if Quoted(a.transcript, ToolResult, Trace) != DumpTrace(a.report.body.trace) {
      issues := issues + [WrongTrace];
    }
    var semantic := TranscriptSemanticIssues(s, a.config, a.transcript, a.report.body.trace);
    issues := issues + semantic;
    var accepted := Quoted(a.transcript, ProposalAccepted, ReportHash);
    if |accepted| != 1 || accepted[0] != Str(a.report.hash) {
      issues := issues + [NotAccepted];
    }
  }

  // ---- replay -----------------------------------------------------------------------

  /** The arguments of the provider's calls that tool results answer. */
  function ProviderArguments(t: seq<Event>): seq<Dict> {
    if |t| < 2 then []
    else
      var n := |t| - 1;
      ProviderArguments(t[..n]) + if t[n].draft.kind == ToolResult then ArgumentsOf(t[n - 1].draft) else []
  }

  function ArgumentsOf(e: Draft): seq<Dict> {
    if e.kind == ProviderEvent && SingleCall(e.payload).Some? && Get(SingleCall(e.payload).value, Arguments).Object?
    then [Get(SingleCall(e.payload).value, Arguments).fields]
    else []
  }

  /** The evidence that successful entries returned. */
  function Observed(trace: seq<TraceEntry>): set<Text> {
    if trace == [] then {}
    else
      var e := trace[|trace| - 1];
      Observed(trace[..|trace| - 1]) + if e.success then (set x | x in e.evidence) else {}
  }

  lemma ObservedGrows(trace: seq<TraceEntry>, e: TraceEntry)
    ensures Observed(trace + [e]) == Observed(trace) + if e.success then (set v | v in e.evidence) else {}
  {
    assert (trace + [e])[..|trace|] == trace;
  }

  /** The request by which entry `k` is repeated. */
  function Repeated(trace: seq<TraceEntry>, arguments: seq<Dict>, k: nat): ToolRequest
    requires k < |trace|
  {
    ToolRequest(trace[k].tool, if k < |arguments| then arguments[k] else trace[k].arguments, trace[k].callId)
  }

  /** Entry `k` is what the gateway says, with the sources of the report. */
  ghost predicate EntryReplays(gateway: ToolRequest -> ToolResponse, c: Config, body: Body, arguments: seq<Dict>, k: nat)
    requires k < |body.trace|
  {
    var e := body.trace[k];
    var r := gateway(Repeated(body.trace, arguments, k));
    e.tool in c.allowedTools && e == EntryOf(k + 1, e.tool, r) && (r.success ==> r.sources == body.sources)
  }

  ghost predicate Replays(gateway: ToolRequest -> ToolResponse, a: Artifact) {
    && (forall k: nat | k < |a.report.body.trace| ::
          EntryReplays(gateway, a.config, a.report.body, ProviderArguments(a.transcript), k))
    && Observed(a.report.body.trace) == a.report.body.observed
  }

  method ReplayGovernedToolTrace(gateway: ToolRequest -> ToolResponse, a: Artifact) returns (ok: bool)
    ensures ok <==> Replays(gateway, a)
  {
    var observed: set<Text> := {};
    var body := a.report.body;
    var arguments := ProviderArguments(a.transcript);
    for k := 0 to |body.trace|
      invariant observed == Observed(body.trace[..k])
      invariant forall j: nat | j < k :: EntryReplays(gateway, a.config, body, arguments, j)
    {
      var e := body.trace[k];
      if e.sequence != k + 1 || e.tool !in a.config.allowedTools {
        assert !EntryReplays(gateway, a.config, body, arguments, k);
        return false;
      }
      var r := gateway(Repeated(body.trace, arguments, k));
      if e != EntryOf(e.sequence, e.tool, r) || (r.success && r.sources != body.sources) {
        assert !EntryReplays(gateway, a.config, body, arguments, k);
        return false;
      }
      if r.success {
        observed := observed + (set x | x in r.evidence);
      }
      assert body.trace[..k + 1][..k] == body.trace[..k];
    }
    assert body.trace[..|body.trace|] == body.trace;
    return observed == body.observed;
  }
}
