/** Records that an investigation exchanges and keeps: JSON values, tool calls, tool responses,
    the trace, transcript events and the report. */
module InvestigationModels {
  import opened Wrappers
  import opened Texts
  import opened Scoring

  datatype Key = ToolCalls | ToolCallId | Id | Name | Arguments | Trace | Response | ReportHash | Status | Problem
               | Model | FinishReason | Usage | Content
               | Sequence | CallId | Tool | ExecutionStatus | ResultHash | EvidenceIds | Truncated | ErrorCode
               | Other(name: Text)

  datatype Json = Null | Bool(b: bool) | Number(n: int) | Str(text: Text) | List(items: seq<Json>) | Object(fields: Dict)

  type Dict = map<Key, Json>

  /** A missing key reads as null. */
  function Get(d: Dict, k: Key): Json { if k in d then d[k] else Null }

  // ---- providers --------------------------------------------------------------------

  datatype ToolCall = ToolCall(id: Text, name: Text, arguments: Dict)

  datatype TokenUsage = TokenUsage(prompt: nat, completion: nat, total: nat)

  /** `about` stands for the model's name, the finish reason, and length and hash of the content. */
  datatype ProviderResponse = ProviderResponse(calls: seq<ToolCall>, usage: TokenUsage, about: Dict)

  datatype AttemptStatus = Success | RetryableError | FatalError

  datatype ModelAttempt = ModelAttempt(model: Text, status: AttemptStatus, code: Option<Text>, prompt: nat, completion: nat)

  // ---- tools ------------------------------------------------------------------------

  /** A governed request; incident, role and source directories are those of the investigation. */
  datatype ToolRequest = ToolRequest(tool: Text, arguments: Dict, callId: Text)

  datatype Decision = Decision(allowed: bool, code: Text, normalized: Dict)

  datatype ToolResponse = ToolResponse(callId: Text, success: bool, normalized: Dict, sources: map<Text, Text>,
                                       evidence: seq<Text>, truncated: bool, resultHash: Text,
                                       error: Option<Text>, result: Json)

  datatype TraceEntry = TraceEntry(sequence: nat, callId: Text, tool: Text, arguments: Dict, success: bool,
                                   resultHash: Text, evidence: seq<Text>, truncated: bool, error: Option<Text>)

  function EntryOf(sequence: nat, tool: Text, r: ToolResponse): TraceEntry {
    TraceEntry(sequence, r.callId, tool, r.normalized, r.success, r.resultHash, r.evidence, r.truncated, r.error)
  }

  function Strings(xs: seq<Text>): Json { List(seq(|xs|, i requires 0 <= i < |xs| => Str(xs[i]))) }

  function DumpEntry(e: TraceEntry): Json {
    Object(map[Sequence := Number(e.sequence), CallId := Str(e.callId), Tool := Str(e.tool),
               Arguments := Object(e.arguments), ExecutionStatus := Bool(e.success), ResultHash := Str(e.resultHash),
               EvidenceIds := Strings(e.evidence), Truncated := Bool(e.truncated),
               ErrorCode := if e.error.Some? then Str(e.error.value) else Null])
  }

  // ---- transcript and report --------------------------------------------------------

  datatype Kind = ProviderEvent | ToolResult | ProposalRejected | ProposalAccepted

  /** What is hashed: an event without its own hash. */
  datatype Draft = Draft(sequence: int, kind: Kind, payload: Dict, previous: Text)

  datatype Event = Event(draft: Draft, hash: Text)

  datatype Body = Body(investigation: Text, incident: Text, question: Text, verdict: Verdict, observed: set<Text>,
                       sources: map<Text, Text>, attempts: seq<ModelAttempt>, trace: seq<TraceEntry>,
                       totalTokens: nat, proposal: Proposal)

  datatype Report = Report(body: Body, hash: Text)

  // ---- what is not computed here ------------------------------------------------------

  /** Hashes, name-based identifiers, policy, parsing and real functions. */
  datatype Services = Services(digest: Draft -> Text, reportDigest: Body -> Text, nullHash: Text, nameId: Text -> Text,
                               canonical: Dict -> Text, authorize: (Text, Dict) -> Decision,
                               parse: Dict -> Option<Proposal>, maths: Maths)

  ghost predicate Trusted(s: Services) {
    && Lawful(s.maths)
    && forall a: Dict :: s.parse(a).Some? ==> ValidProposal(s.parse(a).value)
  }

  datatype Config = Config(investigation: Text, allowedTools: set<Text>, maxRounds: nat, maxToolCalls: nat,
                           maxTotalTokens: nat, policy: Policy)

  datatype Request = Request(incident: Text, question: Text)

  const SUBMIT: Text := "submit_investigation"
  const REJECTED: Text := "request_rejected"
  const ZERO_HASH: Text := "0000000000000000000000000000000000000000000000000000000000000000"
}
