/** What a valid transcript establishes. */
module TranscriptTheorems {
  import opened Wrappers
  import opened Texts
  import opened Scoring
  import opened InvestigationModels
  import opened Transcript

  // ---- the hash chain -----------------------------------------------------------------

  ghost predicate Collisionless(s: Services) {
    forall d, e :: s.digest(d) == s.digest(e) ==> d == e
  }

  /** The last hash pins the whole transcript: two valid chains that end in the same hash are the
      same, whatever their lengths. */
  lemma {:induction false} LastHashPinsTranscript(s: Services, t: seq<Event>, u: seq<Event>)
    requires Collisionless(s) && Chained(s, t) && Chained(s, u) && t != [] && u != []
    requires LastHash(t) == LastHash(u)
    ensures t == u
  {
    var n, k := |t| - 1, |u| - 1;
    assert Linked(s, t, n) && Linked(s, u, k);
    assert t[n] == u[k] && n == k;
    if n > 0 {
      ChainShrinks(s, t);
      ChainShrinks(s, u);
      LastHashPinsTranscript(s, t[..n], u[..n]);
    }
    assert t == t[..n] + [t[n]] && u == u[..n] + [u[n]];
  }

  lemma ChainShrinks(s: Services, t: seq<Event>)
    requires Chained(s, t) && t != []
    ensures Chained(s, t[..|t| - 1])
  {
    var t' := t[..|t| - 1];
    forall i: nat | i < |t'| ensures Linked(s, t', i) {
      assert Linked(s, t, i);
      assert t'[..i] == t[..i];
    }
  }

  // ---- identifiers ------------------------------------------------------------------

  lemma {:induction false} CountRises(t: seq<Event>, kind: Kind, i: nat, j: nat)
    requires i <= j <= |t|
    ensures Count(t[..i], kind) <= Count(t[..j], kind)
    ensures forall k | i <= k < j && t[k].draft.kind == kind :: Count(t[..i], kind) < Count(t[..j], kind)
    decreases j
  {
    if i < j {
      CountRises(t, kind, i, j - 1);
      assert t[..j][..j - 1] == t[..j - 1];
    }
  }

  /** The event of trace entry `k`. */
  lemma {:induction false} ResultEvent(t: seq<Event>, k: nat) returns (i: nat)
    requires k < Count(t, ToolResult)
    ensures i < |t| && t[i].draft.kind == ToolResult && Count(t[..i], ToolResult) == k
  {
    var n := |t| - 1;
    if k < Count(t[..n], ToolResult) {
      i := ResultEvent(t[..n], k);
      assert t[..n][..i] == t[..i];
    } else {
      i := n;
    }
  }

  predicate NoColon(a: Text) { forall i | 0 <= i < |a| :: a[i] != ':' }

  lemma {:induction false} DecimalHasNoColon(n: nat)
    ensures NoColon(Decimal(n)) && Decimal(n) != ""
  {
    if n >= 10 {
      DecimalHasNoColon(n / 10);
    }
  }

  lemma DigitsDiffer(i: nat, j: nat)
    requires i < 10 && j < 10 && DIGITS[i] == DIGITS[j]
    ensures i == j
  {
  }

  lemma {:induction false} DecimalIsInjective(n: nat, m: nat)
    requires Decimal(n) == Decimal(m)
    ensures n == m
  {
    var a, b := Decimal(n), Decimal(m);
    assert a[|a| - 1] == DIGITS[n % 10] && b[|b| - 1] == DIGITS[m % 10];
    DigitsDiffer(n % 10, m % 10);
    DecimalHasNoColon(n / 10);
    DecimalHasNoColon(m / 10);
    if n >= 10 && m >= 10 {
      assert a[..|a| - 1] == Decimal(n / 10) && b[..|b| - 1] == Decimal(m / 10);
      DecimalIsInjective(n / 10, m / 10);
    }
  }

  lemma FirstColon(a: Text, x: Text)
    requires NoColon(a)
    ensures (a + ":" + x)[|a|] == ':' && forall i | 0 <= i < |a| :: (a + ":" + x)[i] != ':'
  {
  }

  /** Text up to the first colon. */
  lemma ColonSplits(a: Text, b: Text, x: Text, y: Text)
    requires NoColon(a) && NoColon(b) && a + ":" + x == b + ":" + y
    ensures a == b && x == y
  {
    var l, r := a + ":" + x, b + ":" + y;
    FirstColon(a, x);
    FirstColon(b, y);
    assert |a| == |b|;
    assert a == l[..|a|] && b == r[..|b|];
    assert x == l[|a| + 1..] && y == r[|b| + 1..];
  }

  /** Calls of different rounds have different names, so different identifiers. */
  lemma NamesTellRounds(s: Services, c: Config, m: nat, n: nat, id: Text, tool: Text, arguments: Dict,
                        id': Text, tool': Text, arguments': Dict)
    requires NoColon(c.investigation)
    requires CallName(s, c, m, id, tool, arguments) == CallName(s, c, n, id', tool', arguments')
    ensures m == n
  {
    var x := id + ":" + tool + ":" + s.canonical(arguments);
    var y := id' + ":" + tool' + ":" + s.canonical(arguments');
    assert CallName(s, c, m, id, tool, arguments) == c.investigation + ":" + (Decimal(m) + ":" + x);
    assert CallName(s, c, n, id', tool', arguments') == c.investigation + ":" + (Decimal(n) + ":" + y);
    ColonSplits(c.investigation, c.investigation, Decimal(m) + ":" + x, Decimal(n) + ":" + y);
    DecimalHasNoColon(m);
    DecimalHasNoColon(n);
    ColonSplits(Decimal(m), Decimal(n), x, y);
    DecimalIsInjective(m, n);
  }

  /** Where trace entry `k` comes from: the event, the call before it and the round. */
  lemma Origin(s: Services, c: Config, t: seq<Event>, trace: seq<TraceEntry>, k: nat) returns (i: nat, call: Dict)
    requires Paired(s, c, t, trace) && k < |trace|
    ensures 0 < i < |t| && t[i].draft.kind == ToolResult && t[i - 1].draft.kind == ProviderEvent
    ensures Count(t[..i], ToolResult) == k && EntryMatches(s, c, Count(t[..i], ProviderEvent), call, trace[k])
  {
    i := ResultEvent(t, k);
    assert Answers(s, c, t, trace, i);
    call := SingleCall(Last(t[..i]).value.draft.payload).value;
  }

  /** The provider's event before the event of trace entry `k` makes one call, of the entry's tool;
      the entry has that call's arguments as the policy normalizes them, it succeeded only with the
      policy's leave, and its error is that of the policy if this denied it. */
  lemma TraceIsGoverned(s: Services, c: Config, t: seq<Event>, trace: seq<TraceEntry>, k: nat) returns (i: nat, call: Dict)
    requires Paired(s, c, t, trace) && k < |trace|
    ensures 0 < i < |t| && t[i].draft.kind == ToolResult && Count(t[..i], ToolResult) == k
    ensures t[i - 1].draft.kind == ProviderEvent && Get(t[i - 1].draft.payload, ToolCalls) == List([Object(call)])
    ensures Get(t[i].draft.payload, ToolCallId) == Get(call, Id)
    ensures Get(call, Name).Str? && Get(call, Arguments).Object? && trace[k].tool == GatewayName(Get(call, Name).text)
    ensures var d := s.authorize(trace[k].tool, Get(call, Arguments).fields);
            && trace[k].arguments == d.normalized
            && (trace[k].success ==> d.allowed && trace[k].error.None?)
            && (!trace[k].success ==> trace[k].error == Some(if d.allowed then "request_rejected" else d.code))
  {
    i, call := Origin(s, c, t, trace, k);
    assert Answers(s, c, t, trace, i);
    assert Last(t[..i]) == Some(t[i - 1]);
    call := SingleCall(t[i - 1].draft.payload).value;
  }

  lemma RoundsRise(t: seq<Event>, a: nat, b: nat)
    requires a < |t| && 0 < b < |t| && t[a].draft.kind == ToolResult && t[b - 1].draft.kind == ProviderEvent
    requires Count(t[..a], ToolResult) < Count(t[..b], ToolResult)
    ensures Count(t[..a], ProviderEvent) < Count(t[..b], ProviderEvent)
  {
    if b <= a {
      CountRises(t, ToolResult, b, a);
    }
    CountRises(t, ProviderEvent, a, b);
    assert t[b - 1].draft.kind == ProviderEvent && b - 1 != a;
  }

  /** In a paired transcript no two governed calls share an identifier. */
  lemma CallIdsAreDistinct(s: Services, c: Config, t: seq<Event>, trace: seq<TraceEntry>, j: nat, k: nat)
    requires Paired(s, c, t, trace) && NoColon(c.investigation) && j < k < |trace|
    requires forall x, y :: s.nameId(x) == s.nameId(y) ==> x == y
    ensures trace[j].callId != trace[k].callId
  {
    var a, p := Origin(s, c, t, trace, j);
    var b, q := Origin(s, c, t, trace, k);
    RoundsRise(t, a, b);
    if trace[j].callId == trace[k].callId {
      NamesTellRounds(s, c, Count(t[..a], ProviderEvent), Count(t[..b], ProviderEvent),
                      Get(p, Id).text, trace[j].tool, Get(p, Arguments).fields,
                      Get(q, Id).text, trace[k].tool, Get(q, Arguments).fields);
    }
  }

  // ---- tool names -------------------------------------------------------------------

  /** No underscore before an underscore or a dot. */
  predicate Plain(tool: Text) {
    tool == "" || (Plain(tool[1..]) && !(tool[0] == '_' && |tool| > 1 && (tool[1] == '_' || tool[1] == '.')))
  }

  /** A tool offered to a provider is recognized again exactly if its name is plain. */
  lemma {:induction false} OfferedNamesComeBack(tool: Text)
    ensures GatewayName(ProviderName(tool)) == tool <==> Plain(tool)
  {
    if tool != "" {
      OfferedNamesComeBack(tool[1..]);
      var name, rest := ProviderName(tool), ProviderName(tool[1..]);
      assert tool == [tool[0]] + tool[1..];
      if tool[0] == '.' {
        assert name[2..] == rest;
        assert GatewayName(name) == "." + GatewayName(rest);
      } else {
        assert name == [tool[0]] + rest && name[1..] == rest;
        if tool[0] == '_' && |tool| > 1 && (tool[1] == '_' || tool[1] == '.') {
          assert rest[0] == '_';
          assert GatewayName(name)[0] == '.';
        } else {
          assert tool[0] == '_' && |tool| > 1 ==> rest[0] == tool[1];
          assert GatewayName(name) == [tool[0]] + GatewayName(rest);
        }
      }
      assert GatewayName(name) == tool ==> GatewayName(name)[1..] == tool[1..];
    }
  }

  // ---- replay -----------------------------------------------------------------------

  /** In an accepted artifact that replays, every cited record comes back from the gateway. */
  lemma ReplayedCitationsAreReal(s: Services, gateway: ToolRequest -> ToolResponse, a: Artifact, id: Text)
    requires Trusted(s) && ValidProposal(a.report.body.proposal)
    requires Accepted(s, a) && Replays(gateway, a) && id in Cited(a.report.body.proposal)
    ensures exists k | 0 <= k < |a.report.body.trace| ::
              var r := gateway(Repeated(a.report.body.trace, ProviderArguments(a.transcript), k));
              r.success && id in r.evidence
  {
    var trace := a.report.body.trace;
    var k := ObservedAt(trace, id);
    assert EntryReplays(gateway, a.config, a.report.body, ProviderArguments(a.transcript), k);
  }

  lemma {:induction false} ObservedAt(trace: seq<TraceEntry>, id: Text) returns (k: nat)
    requires id in Observed(trace)
    ensures k < |trace| && trace[k].success && id in trace[k].evidence
  {
    var n := |trace| - 1;
    if id in Observed(trace[..n]) {
      k := ObservedAt(trace[..n], id);
    } else {
      k := n;
    }
  }
}
