/** Scoring of metric series against their own past, false discovery control per period, and alerts. */
module Detection {
  import opened Wrappers
  import opened Reals
  import opened Sums
  import opened Frames
  import Cusum
  import FalseDiscovery

  // ---- rows and settings --------------------------------------------------------------

  datatype Quality = Good | Insufficient | Invalid | Undefined

  /** One period of one series; `details` stands for numerator, denominator and labels. */
  datatype Row = Row(series: nat, grain: nat, period: int, value: Option<real>, quality: Quality, sampleSize: nat, details: nat)

  datatype HistoryPoint = HistoryPoint(period: int, value: real, details: nat)

  datatype Location = Location(expected: real, scale: real)

  /** What is configured for a series; seasonal alignment, the robust location and scale, p-values
      and the evidence score are not computed here. */
  datatype Settings = Settings(lookback: nat, minimumHistory: nat, minimumSeasonal: nat, minimumSample: nat, minimumScale: real,
                               cusumEnabled: bool, drift: real, threshold: real,
                               sequentialEnabled: bool, shift: real, sequentialThreshold: real,
                               fdrAlpha: real, zThreshold: real, minimumSupport: nat, minimumRelative: real, minimumAbsolute: real,
                               aligned: (int, int) -> bool, locate: seq<real> -> Location,
                               pValue: (Row, real, seq<HistoryPoint>) -> Option<real>, evidence: Observation -> real)

  datatype Observation = Observation(row: Row, baselinePoints: nat, baselineLast: Option<int>, location: Option<Location>,
                                     robustZ: Option<real>, eligible: bool, pValue: Option<real>,
                                     cusumScore: real, changeDetected: bool, changeStart: Option<int>,
                                     sequentialScore: real, sequentialAlert: bool, qValue: Option<real>)

  // ---- scoring one series -------------------------------------------------------------

  /** The last `n` points; with `n` zero, all of them. */
  function Recent(h: seq<HistoryPoint>, n: nat): seq<HistoryPoint> {
    if n == 0 || n >= |h| then h else h[|h| - n..]
  }

  function Baseline(d: Settings, h: seq<HistoryPoint>, period: int): seq<HistoryPoint> {
    var recent := Recent(h, d.lookback);
    var seasonal := Keep((x: HistoryPoint) => d.aligned(period, x.period), recent);
    if |seasonal| >= d.minimumSeasonal then seasonal else recent
  }

  function LocationFrom(d: Settings, baseline: seq<HistoryPoint>): Location {
    d.locate(Map((x: HistoryPoint) => x.value, baseline))
  }

  function Standardize(value: real, l: Location): real {
    if l.scale == 0.0 then 0.0 else (value - l.expected) / l.scale
  }

  predicate Eligible(d: Settings, h: seq<HistoryPoint>, r: Row) {
    && r.value.Some? && (r.quality == Good || r.quality == Insufficient)
    && r.sampleSize >= d.minimumSample && |Recent(h, d.lookback)| >= d.minimumHistory
  }

  /** What is known before a row: the points for baselines, and what the detectors have been fed. */
  datatype State = State(history: seq<HistoryPoint>, fed: seq<Cusum.Point>)

  const START := State([], [])

  function LocationAt(d: Settings, s: State, r: Row): Option<Location> {
    var baseline := Baseline(d, s.history, r.period);
    if r.value.Some? && baseline != [] then Some(LocationFrom(d, baseline)) else None
  }

  function ZAt(d: Settings, s: State, r: Row): Option<real> {
    var l := LocationAt(d, s, r);
    if l.Some? && r.value.Some? then Some(Standardize(r.value.value, l.value)) else None
  }

  predicate Feeds(d: Settings, s: State, r: Row) { Eligible(d, s.history, r) && ZAt(d, s, r).Some? }

  function FedBy(d: Settings, s: State, r: Row): seq<Cusum.Point> {
    if Feeds(d, s, r) then s.fed + [Cusum.Point(ZAt(d, s, r).value, r.period)] else s.fed
  }

  function Zs(fed: seq<Cusum.Point>): seq<real> { Map((p: Cusum.Point) => p.z, fed) }

  function LastPeriod(h: seq<HistoryPoint>): Option<int> { if h == [] then None else Some(h[|h| - 1].period) }

  /** The row of the result for one row of the series. */
  function Observe(d: Settings, s: State, r: Row): (o: Observation)
    ensures o.row == r
  {
    var feeds, fed := Feeds(d, s, r), FedBy(d, s, r);
    var recent := Recent(s.history, d.lookback);
    var c, q := feeds && d.cusumEnabled, feeds && d.sequentialEnabled;
    Observation(r, |recent|, LastPeriod(recent), LocationAt(d, s, r), ZAt(d, s, r), Eligible(d, s.history, r),
                if feeds then d.pValue(r, ZAt(d, s, r).value, Baseline(d, s.history, r.period)) else None,
                if c then Cusum.Score(fed, d.drift) else 0.0,
                c && Cusum.Crosses(fed, d.drift, d.threshold),
                if c && Cusum.Above(fed, d.drift, d.threshold) then Cusum.ChangeStart(fed, d.drift) else None,
                if q then Cusum.Evidence(d.shift, Zs(fed)) else 0.0,
                q && Cusum.Convinced(d.shift, Zs(fed), d.sequentialThreshold) && !Cusum.Convinced(d.shift, Zs(s.fed), d.sequentialThreshold),
                None)
  }

  function PointOf(r: Row): seq<HistoryPoint> {
    if r.value.Some? && r.quality != Invalid then [HistoryPoint(r.period, r.value.value, r.details)] else []
  }

  function Advance(d: Settings, s: State, r: Row): State { State(s.history + PointOf(r), FedBy(d, s, r)) }

  function ObserveBy(d: Settings): (State, Row) -> Observation { (s: State, r: Row) => Observe(d, s, r) }

  function AdvanceBy(d: Settings): (State, Row) -> State { (s: State, r: Row) => Advance(d, s, r) }

  function StateAfter(d: Settings, rows: seq<Row>): State { Final(AdvanceBy(d), START, rows) }

  function Scores(d: Settings, rows: seq<Row>): seq<Observation> { Outputs(ObserveBy(d), AdvanceBy(d), START, rows) }

  /** The detectors hold what they were fed, unless they are switched off. */
  ghost predicate Tracks(d: Settings, cusum: Cusum.CusumState, sequential: Cusum.SequentialState, fed: seq<Cusum.Point>)
    reads cusum, sequential
  {
    && cusum.Valid(d.drift, d.threshold) && (d.cusumEnabled ==> cusum.history == fed)
    && sequential.Valid(d.shift, d.sequentialThreshold) && (d.sequentialEnabled ==> sequential.history == Zs(fed))
  }

  method ScoreRow(d: Settings, history: seq<HistoryPoint>, cusum: Cusum.CusumState, sequential: Cusum.SequentialState,
                  r: Row, ghost s: State) returns (o: Observation)
    requires s.history == history && Tracks(d, cusum, sequential, s.fed)
    modifies cusum, sequential
    ensures o == Observe(d, s, r) && Tracks(d, cusum, sequential, Advance(d, s, r).fed)
  {
    var recent := Recent(history, d.lookback);
    var baseline := Baseline(d, history, r.period);
    var eligible := Eligible(d, history, r);
    var location: Option<Location>, z: Option<real>, p: Option<real> := None, None, None;
    var cusumScore, detected, start := 0.0, false, None;
    var sequentialScore, alert := 0.0, false;
    if r.value.Some? && baseline != [] {
      var l := LocationFrom(d, baseline);
      location, z := Some(l), Some(Standardize(r.value.value, l));
    }
    if eligible && z.Some? {
      p := d.pValue(r, z.value, baseline);
      if d.cusumEnabled {
        cusumScore, detected, start := cusum.Update(z.value, r.period, d.drift, d.threshold);
      }
      if d.sequentialEnabled {
        assert Zs(s.fed + [Cusum.Point(z.value, r.period)]) == Zs(s.fed) + [z.value];
        sequentialScore, alert := sequential.Update(z.value, d.shift, d.sequentialThreshold);
      }
    }
    o := Observation(r, |recent|, LastPeriod(recent), location, z, eligible, p, cusumScore, detected, start,
                     sequentialScore, alert, None);
  }

  lemma ScoresNext(d: Settings, rows: seq<Row>, r: Row)
    ensures Scores(d, rows + [r]) == Scores(d, rows) + [Observe(d, StateAfter(d, rows), r)]
    ensures StateAfter(d, rows + [r]) == Advance(d, StateAfter(d, rows), r)
  {
    assert (rows + [r])[..|rows|] == rows;
  }

  /** The loop over the rows of one series. */
  method ScoreSeries(d: Settings, rows: seq<Row>) returns (output: seq<Observation>)
    ensures output == Scores(d, rows)
  {
    output := [];
    var history: seq<HistoryPoint> := [];
    var cusum := new Cusum.CusumState();
    var sequential := new Cusum.SequentialState();
    ghost var s, done: seq<Row> := START, [];
    for i := 0 to |rows|
      invariant fresh(cusum) && fresh(sequential)
      invariant done == rows[..i] && output == Scores(d, done) && s == StateAfter(d, done) && history == s.history
      invariant Tracks(d, cusum, sequential, s.fed)
    {
      ScoresNext(d, done, rows[i]);
      var o := ScoreRow(d, history, cusum, sequential, rows[i], s);
      output := output + [o];
      history := history + PointOf(rows[i]);
      s, done := Advance(d, s, rows[i]), done + [rows[i]];
    }
    assert rows[..|rows|] == rows;
  }

  // ---- all series -------------------------------------------------------------------

  /** The rows of one series. */
  datatype Block = Block(series: nat, rows: seq<Row>)

  type Config = nat -> Settings

  function Earlier(): (Row, Row) -> bool { (a: Row, b: Row) => a.period < b.period }

  function ByKey(): (Observation, Observation) -> bool {
    (a: Observation, b: Observation) =>
      || a.row.grain < b.row.grain
      || (a.row.grain == b.row.grain && a.row.period < b.row.period)
      || (a.row.grain == b.row.grain && a.row.period == b.row.period && a.row.series < b.row.series)
  }

  function BlockScores(k: Config, b: Block): seq<Observation> { Scores(k(b.series), Sort(Earlier(), b.rows)) }

  function FrameScores(k: Config, frame: seq<Block>): seq<Observation> {
    if frame == [] then [] else FrameScores(k, frame[..|frame| - 1]) + BlockScores(k, frame[|frame| - 1])
  }

  method ScoreFrame(k: Config, frame: seq<Block>) returns (output: seq<Observation>)
    ensures output == Sort(ByKey(), FrameScores(k, frame))
  {
    output := [];
    for i := 0 to |frame|
      invariant output == FrameScores(k, frame[..i])
    {
      assert frame[..i + 1][..i] == frame[..i];
      var scores := ScoreSeries(k(frame[i].series), Sort(Earlier(), frame[i].rows));
      output := output + scores;
    }
    assert frame[..|frame|] == frame;
    return Sort(ByKey(), output);
  }

  // ---- false discovery control ----------------------------------------------------------

  /** Observations of one grain and period are corrected together. */
  datatype Family = Family(grain: nat, period: int)

  function FamilyOf(o: Observation): Family { Family(o.row.grain, o.row.period) }

  predicate Tested(o: Observation) { o.eligible && o.pValue.Some? }

  predicate Belongs(o: Observation, f: Family) { Tested(o) && FamilyOf(o) == f }

  /** The indices below `n` of the members of a family. */
  function Members(rows: seq<Observation>, f: Family, n: nat): seq<nat>
    requires n <= |rows|
    ensures forall j | 0 <= j < |Members(rows, f, n)| :: Members(rows, f, n)[j] < n && Belongs(rows[Members(rows, f, n)[j]], f)
  {
    if n == 0 then [] else Members(rows, f, n - 1) + if Belongs(rows[n - 1], f) then [n - 1] else []
  }

  function PValues(rows: seq<Observation>, indices: seq<nat>): seq<real>
    requires forall j | 0 <= j < |indices| :: indices[j] < |rows| && rows[indices[j]].pValue.Some?
  {
    seq(|indices|, j requires 0 <= j < |indices| => rows[indices[j]].pValue.value)
  }

  function Cleaned(ps: seq<real>): seq<real> { FalseDiscovery.CleanAll(Map(p => FalseDiscovery.Finite(p), ps)) }

  /** The adjusted p-value of row `i` within its family. */
  function QAt(rows: seq<Observation>, i: nat): real
    requires i < |rows| && Tested(rows[i])
  {
    var f := FamilyOf(rows[i]);
    MemberAt(rows, f, i, |rows|);
    FalseDiscovery.AdjustedValue(Cleaned(PValues(rows, Members(rows, f, |rows|))), |Members(rows, f, i)|)
  }

  lemma {:induction false} MemberAt(rows: seq<Observation>, f: Family, i: nat, n: nat)
    requires i < n <= |rows| && Belongs(rows[i], f)
    ensures |Members(rows, f, i)| < |Members(rows, f, n)| && Members(rows, f, n)[|Members(rows, f, i)|] == i
  {
    if i < n - 1 {
      MemberAt(rows, f, i, n - 1);
    }
  }

  function Corrected(rows: seq<Observation>, i: nat): Observation
    requires i < |rows|
  {
    if Tested(rows[i]) then rows[i].(qValue := Some(QAt(rows, i))) else rows[i]
  }

  function CorrectedAmong(): (seq<Observation>, Observation, seq<Observation>) -> Observation {
    (done: seq<Observation>, o: Observation, more: seq<Observation>) => Corrected(done + [o] + more, |done|)
  }

  function ApplyFdr(rows: seq<Observation>): seq<Observation> { Each(CorrectedAmong(), [], rows) }

  lemma ApplyFdrAt(rows: seq<Observation>, i: nat)
    requires i < |rows|
    ensures ApplyFdr(rows)[i] == Corrected(rows, i)
  {
    EachAt(CorrectedAmong(), [], rows, i);
    assert rows[..i] + [rows[i]] + rows[i + 1..] == rows;
    assert [] + rows[..i] == rows[..i];
  }

  type Groups = map<Family, seq<nat>>

  /** A group for every family met among the first `n` rows, with the indices of its members. */
  ghost predicate Grouped(rows: seq<Observation>, groups: Groups, n: nat)
    requires n <= |rows|
  {
    && (forall f | f in groups :: groups[f] == Members(rows, f, n) != [])
    && (forall f: Family | f !in groups :: Members(rows, f, n) == [])
  }

  function Enter(groups: Groups, o: Observation, n: nat): Groups {
    var f := FamilyOf(o);
    if Tested(o) then groups[f := (if f in groups then groups[f] else []) + [n]] else groups
  }

  lemma EnterGroups(rows: seq<Observation>, groups: Groups, n: nat)
    requires n < |rows| && Grouped(rows, groups, n)
    ensures Grouped(rows, Enter(groups, rows[n], n), n + 1)
  {
    forall f: Family
      ensures Members(rows, f, n + 1) == Members(rows, f, n) + if Belongs(rows[n], f) then [n] else []
    {
    }
  }

  /** The families that have a group, each once. */
  ghost predicate ListsKeys(order: seq<Family>, groups: Groups) {
    && (forall f :: f in groups <==> f in order)
    && (forall i, j | 0 <= i < j < |order| :: order[i] != order[j])
  }

  lemma EnterLists(order: seq<Family>, groups: Groups, o: Observation, n: nat)
    requires ListsKeys(order, groups)
    ensures ListsKeys(if Tested(o) && FamilyOf(o) !in groups then order + [FamilyOf(o)] else order, Enter(groups, o, n))
  {
    var f := FamilyOf(o);
    if Tested(o) && f !in groups {
      assert forall i | 0 <= i < |order| :: order[i] in order;
      assert f !in order;
    }
  }

  /** Groups the rows by family. */
  method Group(rows: seq<Observation>) returns (groups: Groups, order: seq<Family>)
    ensures Grouped(rows, groups, |rows|) && ListsKeys(order, groups)
  {
    groups, order := map[], [];
    for n := 0 to |rows|
      invariant Grouped(rows, groups, n) && ListsKeys(order, groups)
    {
      EnterGroups(rows, groups, n);
      EnterLists(order, groups, rows[n], n);
      if Tested(rows[n]) && FamilyOf(rows[n]) !in groups {
        order := order + [FamilyOf(rows[n])];
      }
      groups := Enter(groups, rows[n], n);
    }
  }

  /** Writes the adjusted values of one family into the rows. */
  method CorrectFamily(rows: array<Observation>, ghost was: seq<Observation>, f: Family, indices: seq<nat>)
    requires |was| == rows.Length && indices == Members(was, f, |was|)
    requires forall i | 0 <= i < rows.Length && Belongs(was[i], f) :: rows[i] == was[i]
    modifies rows
    ensures forall i | 0 <= i < rows.Length :: rows[i] == if Belongs(was[i], f) then Corrected(was, i) else old(rows[i])
  {
    ghost var before := rows[..];
    var values := seq(|indices|, j requires 0 <= j < |indices| && indices[j] < rows.Length reads rows =>
                        if rows[indices[j]].pValue.Some? then FalseDiscovery.Finite(rows[indices[j]].pValue.value) else FalseDiscovery.NonFinite);
    assert values == Map(p => FalseDiscovery.Finite(p), PValues(was, indices));
    var q := FalseDiscovery.BenjaminiHochberg(values);
    for j := 0 to |indices|
      invariant forall i | 0 <= i < rows.Length ::
                  rows[i] == if Belongs(was[i], f) && |Members(was, f, i)| < j then Corrected(was, i) else before[i]
    {
      var index := indices[j];
      MemberAt(was, f, index, |was|);
      MembersApart(was, f, j, |Members(was, f, index)|);
      FalseDiscovery.AdjustedIsUnique(Cleaned(PValues(was, indices)), j, q[j], QAt(was, index));
      rows[index] := rows[index].(qValue := Some(q[j]));
      forall i | 0 <= i < rows.Length && Belongs(was[i], f) && |Members(was, f, i)| == j ensures i == index {
        MemberAt(was, f, i, |was|);
      }
    }
    forall i | 0 <= i < rows.Length && Belongs(was[i], f) ensures |Members(was, f, i)| < |indices| {
      MemberAt(was, f, i, |was|);
    }
  }

  lemma {:induction false} MembersAscend(rows: seq<Observation>, f: Family, n: nat)
    requires n <= |rows|
    ensures forall i, j | 0 <= i < j < |Members(rows, f, n)| :: Members(rows, f, n)[i] < Members(rows, f, n)[j]
  {
    if n > 0 {
      MembersAscend(rows, f, n - 1);
    }
  }

  lemma MembersApart(rows: seq<Observation>, f: Family, j: nat, k: nat)
    requires j < |Members(rows, f, |rows|)| && k < |Members(rows, f, |rows|)|
    requires Members(rows, f, |rows|)[j] == Members(rows, f, |rows|)[k]
    ensures j == k
  {
    MembersAscend(rows, f, |rows|);
  }

  /** False discovery control, rewriting the rows family by family. */
  method CorrectAll(rows: array<Observation>)
    modifies rows
    ensures rows[..] == ApplyFdr(old(rows[..]))
  {
    ghost var was := rows[..];
    var groups, order := Group(rows[..]);
    for n := 0 to |order|
      invariant forall i | 0 <= i < rows.Length ::
                  rows[i] == if Tested(was[i]) && FamilyOf(was[i]) in order[..n] then Corrected(was, i) else was[i]
    {
      assert order[n] in groups && order[n] !in order[..n];
      CorrectFamily(rows, was, order[n], groups[order[n]]);
    }
    assert order[..|order|] == order;
    forall i | 0 <= i < rows.Length ensures rows[i] == ApplyFdr(was)[i] {
      ApplyFdrAt(was, i);
      if Tested(was[i]) {
        MemberAt(was, FamilyOf(was[i]), i, |was|);
      }
    }
  }

  method Correct(scores: seq<Observation>) returns (corrected: seq<Observation>)
    ensures corrected == ApplyFdr(scores)
  {
    var rows := new Observation[|scores|](i requires 0 <= i < |scores| => scores[i]);
    assert rows[..] == scores;
    CorrectAll(rows);
    corrected := rows[..];
  }

  // ---- alerts -----------------------------------------------------------------------

  datatype Alert = Alert(o: Observation, robust: bool, significant: bool, changed: bool, shifted: bool,
                         magnitude: bool, anomaly: bool, evidence: real)

  function Residual(o: Observation): Option<real> {
    if o.location.Some? && o.row.value.Some? then Some(o.row.value.value - o.location.value.expected) else None
  }

  predicate BigRelative(d: Settings, o: Observation) {
    && Residual(o).Some? && o.location.Some? && Abs(o.location.value.expected) > d.minimumScale
    && Abs(o.location.value.expected) != 0.0
    && Abs(Residual(o).value / Abs(o.location.value.expected)) >= d.minimumRelative
  }

  predicate BigAbsolute(d: Settings, o: Observation) {
    d.minimumAbsolute > 0.0 && Residual(o).Some? && Abs(Residual(o).value) >= d.minimumAbsolute
  }

  function One(b: bool): nat { if b then 1 else 0 }

  function Finalize(k: Config, o: Observation): Alert {
    var d := k(o.row.series);
    var robust := o.robustZ.Some? && Abs(o.robustZ.value) >= d.zThreshold;
    var significant := o.qValue.Some? && o.qValue.value <= d.fdrAlpha;
    var changed := o.cusumScore >= d.threshold;
    var shifted := o.sequentialScore >= d.sequentialThreshold;
    var magnitude := BigRelative(d, o) || BigAbsolute(d, o);
    Alert(o, robust, significant, changed, shifted, magnitude,
          o.eligible && significant && magnitude
          && One(robust) + One(significant) + One(changed) + One(shifted) >= d.minimumSupport,
          d.evidence(o))
  }

  function FinalizeBy(k: Config): Observation -> Alert { o => Finalize(k, o) }

  /** Scores, correction and alerts of a whole frame. */
  function Alerts(k: Config, frame: seq<Block>): seq<Alert> {
    Map(FinalizeBy(k), Sort(ByKey(), ApplyFdr(Sort(ByKey(), FrameScores(k, frame)))))
  }

  method FinalizeAll(k: Config, rows: seq<Observation>) returns (alerts: seq<Alert>)
    ensures alerts == Map(FinalizeBy(k), rows)
  {
    alerts := [];
    for i := 0 to |rows|
      invariant alerts == Map(FinalizeBy(k), rows[..i])
    {
      alerts := alerts + [Finalize(k, rows[i])];
    }
    assert rows[..|rows|] == rows;
  }

  method DetectAlerts(k: Config, frame: seq<Block>) returns (alerts: seq<Alert>)
    ensures alerts == Alerts(k, frame)
  {
    var scores := ScoreFrame(k, frame);
    var corrected := Correct(scores);
    alerts := FinalizeAll(k, Sort(ByKey(), corrected));
  }
}
