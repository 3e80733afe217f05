/** When a row of a frame is an anomaly: the condition read off the rows themselves. */
module DetectionMeaning {
  import opened Wrappers
  import opened Reals
  import opened Sums
  import opened Frames
  import opened Detection
  import opened DetectionTheorems
  import Cusum
  import FalseDiscovery

  // ---- baselines --------------------------------------------------------------------

  /** How many of the elements before position `j` satisfy `p`. */
  function PlaceIn<T>(p: T -> bool, xs: seq<T>, j: nat): nat
    requires j <= |xs|
  {
    if j == 0 then 0 else PlaceIn(p, xs, j - 1) + One(p(xs[j - 1]))
  }

  /** `ys` lists the elements that satisfy `p`, in order. */
  ghost predicate Picks<T>(p: T -> bool, xs: seq<T>, ys: seq<T>) {
    && |ys| == PlaceIn(p, xs, |xs|)
    && forall j: nat | j < |xs| && p(xs[j]) :: PlaceIn(p, xs, j) < |ys| && ys[PlaceIn(p, xs, j)] == xs[j]
  }

  lemma {:induction false} PlaceInPrefix<T>(p: T -> bool, xs: seq<T>, x: T, j: nat)
    requires j <= |xs|
    ensures PlaceIn(p, xs + [x], j) == PlaceIn(p, xs, j)
  {
    if j > 0 {
      PlaceInPrefix(p, xs, x, j - 1);
    }
  }

  lemma {:induction false} KeepPicks<T>(p: T -> bool, xs: seq<T>)
    ensures Picks(p, xs, Keep(p, xs))
  {
    if xs != [] {
      var n := |xs| - 1;
      var before, x := xs[..n], xs[n];
      assert xs == before + [x];
      KeepPicks(p, before);
      KeepLast(p, before, x);
      forall j: nat | j <= n ensures PlaceIn(p, xs, j) == PlaceIn(p, before, j) {
        PlaceInPrefix(p, before, x, j);
      }
    }
  }

  /** The last `n` of `h`, or all if `n` is zero. */
  ghost predicate Latest<T>(h: seq<T>, n: nat, w: seq<T>) {
    |w| == (if n == 0 || |h| < n then |h| else n) && w == h[|h| - |w|..]
  }

  /** A baseline consists of the points of the lookback window that are aligned with the period, if
      there are enough of them, and else of the whole window. */
  ghost predicate IsBaseline(d: Settings, h: seq<HistoryPoint>, period: int, baseline: seq<HistoryPoint>) {
    exists w: seq<HistoryPoint> ::
      && Latest(h, d.lookback, w)
      && var aligned := (x: HistoryPoint) => d.aligned(period, x.period);
         if PlaceIn(aligned, w, |w|) >= d.minimumSeasonal then Picks(aligned, w, baseline) else baseline == w
  }

  lemma BaselineIs(d: Settings, h: seq<HistoryPoint>, period: int)
    ensures Latest(h, d.lookback, Recent(h, d.lookback)) && IsBaseline(d, h, period, Baseline(d, h, period))
  {
    var w := Recent(h, d.lookback);
    KeepPicks((x: HistoryPoint) => d.aligned(period, x.period), w);
    assert Latest(h, d.lookback, w);
  }

  // ---- one row, in the light of those before it in its series ---------------------------

  /** The points that earlier rows leave. */
  function Past(before: seq<Row>): seq<HistoryPoint> {
    if before == [] then []
    else
      var last := before[|before| - 1];
      Past(before[..|before| - 1])
      + if last.value.Some? && last.quality != Invalid then [HistoryPoint(last.period, last.value.value, last.details)] else []
  }

  function BaseOf(d: Settings, before: seq<Row>, r: Row): seq<HistoryPoint> { Baseline(d, Past(before), r.period) }

  /** Value, quality, sample and history are good enough. */
  predicate Qualifies(d: Settings, before: seq<Row>, r: Row) {
    && r.value.Some? && r.quality in {Good, Insufficient}
    && r.sampleSize >= d.minimumSample && |Recent(Past(before), d.lookback)| >= d.minimumHistory
  }

  predicate Comparable(d: Settings, before: seq<Row>, r: Row) { r.value.Some? && BaseOf(d, before, r) != [] }

  function LocationOf(d: Settings, before: seq<Row>, r: Row): Location {
    d.locate(Map((x: HistoryPoint) => x.value, BaseOf(d, before, r)))
  }

  /** The distance from the expected value. */
  function Deviation(d: Settings, before: seq<Row>, r: Row): real
    requires r.value.Some?
  {
    r.value.value - LocationOf(d, before, r).expected
  }

  /** ... in scales. */
  function InScales(d: Settings, before: seq<Row>, r: Row): real
    requires r.value.Some?
  {
    var scale := LocationOf(d, before, r).scale;
    if scale == 0.0 then 0.0 else Deviation(d, before, r) / scale
  }

  predicate Counts(d: Settings, before: seq<Row>, r: Row) { Qualifies(d, before, r) && Comparable(d, before, r) }

  /** What the detectors have been fed. */
  function Fed(d: Settings, before: seq<Row>): seq<Cusum.Point> {
    if before == [] then []
    else
      var fewer, last := before[..|before| - 1], before[|before| - 1];
      Fed(d, fewer) + if Counts(d, fewer, last) then [Cusum.Point(InScales(d, fewer, last), last.period)] else []
  }

  function PValueOf(d: Settings, before: seq<Row>, r: Row): Option<real> {
    if Counts(d, before, r) then d.pValue(r, InScales(d, before, r), BaseOf(d, before, r)) else None
  }

  lemma PastGrows(before: seq<Row>, r: Row)
    ensures Past(before + [r]) == Past(before) + PointOf(r)
  {
    assert (before + [r])[..|before|] == before;
  }

  lemma FedGrows(d: Settings, before: seq<Row>, r: Row)
    ensures Fed(d, before + [r])
            == Fed(d, before) + if Counts(d, before, r) then [Cusum.Point(InScales(d, before, r), r.period)] else []
  {
    assert (before + [r])[..|before|] == before;
  }

  lemma FeedsAs(d: Settings, before: seq<Row>, r: Row)
    ensures FedBy(d, State(Past(before), Fed(d, before)), r)
            == Fed(d, before) + if Counts(d, before, r) then [Cusum.Point(InScales(d, before, r), r.period)] else []
  {
  }

  lemma {:induction false} StateIs(d: Settings, before: seq<Row>)
    ensures StateAfter(d, before) == State(Past(before), Fed(d, before))
  {
    if before != [] {
      var fewer, last := before[..|before| - 1], before[|before| - 1];
      assert before == fewer + [last];
      StateIs(d, fewer);
      ScoresNext(d, fewer, last);
      PastGrows(fewer, last);
      FedGrows(d, fewer, last);
      FeedsAs(d, fewer, last);
    }
  }

  // ---- the four conditions and the size -------------------------------------------------

  /** At least `zThreshold` scales away from the expected value. */
  predicate Far(d: Settings, before: seq<Row>, r: Row) {
    && Comparable(d, before, r)
    && var scale := LocationOf(d, before, r).scale;
       if scale == 0.0 then d.zThreshold <= 0.0 else Abs(Deviation(d, before, r)) >= d.zThreshold * Abs(scale)
  }

  /** The sum of the latest steps, from some point on, reaches the threshold. */
  ghost predicate Reaches(steps: seq<real>, threshold: real) {
    exists i: nat :: i <= |steps| && Cusum.Tail(steps, i) >= threshold
  }

  function ZsWith(d: Settings, before: seq<Row>, r: Row): seq<real>
    requires r.value.Some?
  {
    Map((p: Cusum.Point) => p.z, Fed(d, before)) + [InScales(d, before, r)]
  }

  /** A drift, upward or downward: the distances beyond the allowed drift have added up. */
  ghost predicate Drifted(d: Settings, before: seq<Row>, r: Row) {
    if Counts(d, before, r) && d.cusumEnabled then
      || Reaches(Map((z: real) => z - d.drift, ZsWith(d, before, r)), d.threshold)
      || Reaches(Map((z: real) => -z - d.drift, ZsWith(d, before, r)), d.threshold)
    else 0.0 >= d.threshold
  }

  /** A shift, upward or downward: its log likelihood ratios have added up. */
  ghost predicate Shifted(d: Settings, before: seq<Row>, r: Row) {
    if Counts(d, before, r) && d.sequentialEnabled then
      || Reaches(Map((z: real) => Cusum.Gain(d.shift, z), ZsWith(d, before, r)), d.sequentialThreshold)
      || Reaches(Map((z: real) => Cusum.Gain(d.shift, -z), ZsWith(d, before, r)), d.sequentialThreshold)
    else 0.0 >= d.sequentialThreshold
  }

  /** Big enough, in proportion to what is expected or as such. */
  predicate Big(d: Settings, before: seq<Row>, r: Row) {
    && Comparable(d, before, r)
    && var size, expected := Abs(Deviation(d, before, r)), Abs(LocationOf(d, before, r).expected);
       || (expected > d.minimumScale && expected > 0.0 && size >= d.minimumRelative * expected)
       || (d.minimumAbsolute > 0.0 && size >= d.minimumAbsolute)
  }

  lemma ReachesGreatest(steps: seq<real>, threshold: real)
    ensures Cusum.Side(steps) >= threshold <==> Reaches(steps, threshold)
  {
    Cusum.SideIsGreatestTail(steps);
    if Cusum.Side(steps) >= threshold {
      var i :| 0 <= i <= |steps| && Cusum.Tail(steps, i) == Cusum.Side(steps);
    }
  }

  lemma ScoreReaches(h: seq<Cusum.Point>, zs: seq<real>, drift: real, threshold: real)
    requires zs == Map((p: Cusum.Point) => p.z, h)
    ensures Cusum.Score(h, drift) >= threshold
            <==> Reaches(Map((z: real) => z - drift, zs), threshold) || Reaches(Map((z: real) => -z - drift, zs), threshold)
  {
    assert Cusum.Rises(h, drift) == Map((z: real) => z - drift, zs);
    assert Cusum.Falls(h, drift) == Map((z: real) => -z - drift, zs);
    ReachesGreatest(Cusum.Rises(h, drift), threshold);
    ReachesGreatest(Cusum.Falls(h, drift), threshold);
  }

  lemma EvidenceReaches(shift: real, zs: seq<real>, threshold: real)
    ensures Cusum.Evidence(shift, zs) >= threshold
            <==> || Reaches(Map((z: real) => Cusum.Gain(shift, z), zs), threshold)
                 || Reaches(Map((z: real) => Cusum.Gain(shift, -z), zs), threshold)
  {
    assert Cusum.Gains(shift, zs) == Map((z: real) => Cusum.Gain(shift, z), zs);
    assert Cusum.Gains(shift, Cusum.Negated(zs)) == Map((z: real) => Cusum.Gain(shift, -z), zs);
    ReachesGreatest(Cusum.Gains(shift, zs), threshold);
    ReachesGreatest(Cusum.Gains(shift, Cusum.Negated(zs)), threshold);
  }

  lemma QuotientReaches(x: real, scale: real, threshold: real)
    requires scale != 0.0
    ensures Abs(x / scale) >= threshold <==> Abs(x) >= threshold * Abs(scale)
  {
    var q := x / scale;
    assert q * scale == x;
    AbsOfProduct(q, scale);
    Ordered(threshold, Abs(q), Abs(scale));
  }

  lemma AbsOfProduct(a: real, b: real)
    ensures Abs(a * b) == Abs(a) * Abs(b)
  {
  }

  // ---- what scoring says of the row ---------------------------------------------------

  function Scored(d: Settings, before: seq<Row>, r: Row): Observation { Observe(d, StateAfter(d, before), r) }

  lemma ScoredBasics(d: Settings, before: seq<Row>, r: Row)
    ensures var o := Scored(d, before, r);
            && o.row == r && o.qValue.None? && (o.eligible <==> Qualifies(d, before, r))
            && o.location == (if Comparable(d, before, r) then Some(LocationOf(d, before, r)) else None)
            && o.robustZ == (if Comparable(d, before, r) then Some(InScales(d, before, r)) else None)
            && o.pValue == PValueOf(d, before, r) && (Tested(o) <==> PValueOf(d, before, r).Some?)
  {
    StateIs(d, before);
  }

  /** The location and the standardized value are as the rows have them. */
  ghost predicate Located(d: Settings, before: seq<Row>, r: Row, o: Observation) {
    && o.row == r
    && o.location == (if Comparable(d, before, r) then Some(LocationOf(d, before, r)) else None)
    && o.robustZ == (if Comparable(d, before, r) then Some(InScales(d, before, r)) else None)
  }

  lemma LocatedFar(d: Settings, before: seq<Row>, r: Row, o: Observation)
    requires Located(d, before, r, o)
    ensures o.robustZ.Some? && Abs(o.robustZ.value) >= d.zThreshold <==> Far(d, before, r)
  {
    if Comparable(d, before, r) {
      var scale := LocationOf(d, before, r).scale;
      if scale != 0.0 {
        QuotientReaches(Deviation(d, before, r), scale, d.zThreshold);
      }
    }
  }

  lemma LocatedBig(d: Settings, before: seq<Row>, r: Row, o: Observation)
    requires Located(d, before, r, o)
    ensures BigRelative(d, o) || BigAbsolute(d, o) <==> Big(d, before, r)
  {
    if Comparable(d, before, r) {
      var expected := Abs(LocationOf(d, before, r).expected);
      if expected != 0.0 {
        QuotientReaches(Deviation(d, before, r), expected, d.minimumRelative);
      }
    }
  }

  lemma FedWith(d: Settings, before: seq<Row>, r: Row)
    ensures var s := StateAfter(d, before);
            && (Feeds(d, s, r) <==> Counts(d, before, r))
            && (Counts(d, before, r) ==> Zs(FedBy(d, s, r)) == ZsWith(d, before, r))
  {
    StateIs(d, before);
  }

  lemma ScoredDrifted(d: Settings, before: seq<Row>, r: Row)
    ensures Scored(d, before, r).cusumScore >= d.threshold <==> Drifted(d, before, r)
  {
    FedWith(d, before, r);
    if Counts(d, before, r) && d.cusumEnabled {
      ScoreReaches(FedBy(d, StateAfter(d, before), r), ZsWith(d, before, r), d.drift, d.threshold);
    }
  }

  lemma ScoredShifted(d: Settings, before: seq<Row>, r: Row)
    ensures Scored(d, before, r).sequentialScore >= d.sequentialThreshold <==> Shifted(d, before, r)
  {
    FedWith(d, before, r);
    if Counts(d, before, r) && d.sequentialEnabled {
      EvidenceReaches(d.shift, ZsWith(d, before, r), d.sequentialThreshold);
    }
  }

  /** Some drift, or some shift, has added up by now. */
  ghost predicate DriftIn(d: Settings, zs: seq<real>) {
    && zs != []
    && (Reaches(Map((z: real) => z - d.drift, zs), d.threshold) || Reaches(Map((z: real) => -z - d.drift, zs), d.threshold))
  }

  ghost predicate ShiftIn(d: Settings, zs: seq<real>) {
    && zs != []
    && (|| Reaches(Map((z: real) => Cusum.Gain(d.shift, z), zs), d.sequentialThreshold)
        || Reaches(Map((z: real) => Cusum.Gain(d.shift, -z), zs), d.sequentialThreshold))
  }

  lemma AboveIsDrift(d: Settings, h: seq<Cusum.Point>)
    ensures Cusum.Above(h, d.drift, d.threshold) <==> DriftIn(d, Zs(h))
  {
    ScoreReaches(h, Zs(h), d.drift, d.threshold);
  }

  lemma ConvincedIsShift(d: Settings, zs: seq<real>)
    ensures Cusum.Convinced(d.shift, zs, d.sequentialThreshold) <==> ShiftIn(d, zs)
  {
    EvidenceReaches(d.shift, zs, d.sequentialThreshold);
  }

  /** A change is detected, and a shift alerted, in the row in which it has added up for the first
      time; rows that are not fed to the detectors report nothing. */
  lemma DetectionsAre(d: Settings, before: seq<Row>, r: Row)
    ensures var o, was := Scored(d, before, r), Zs(Fed(d, before));
            if Counts(d, before, r) then
              && (o.changeDetected <==> d.cusumEnabled && DriftIn(d, ZsWith(d, before, r)) && !DriftIn(d, was))
              && (o.changeStart.Some? <==> d.cusumEnabled && DriftIn(d, ZsWith(d, before, r)))
              && (o.sequentialAlert <==> d.sequentialEnabled && ShiftIn(d, ZsWith(d, before, r)) && !ShiftIn(d, was))
            else !o.changeDetected && o.changeStart.None? && !o.sequentialAlert
  {
    StateIs(d, before);
    FedWith(d, before, r);
    if Counts(d, before, r) {
      var h, fed := Fed(d, before), FedBy(d, StateAfter(d, before), r);
      assert fed[..|fed| - 1] == h;
      AboveIsDrift(d, h);
      AboveIsDrift(d, fed);
      ConvincedIsShift(d, Zs(h));
      ConvincedIsShift(d, Zs(fed));
      StartKnown(fed, d.drift);
    }
  }

  lemma StartKnown(h: seq<Cusum.Point>, drift: real)
    requires h != []
    ensures Cusum.ChangeStart(h, drift).Some?
  {
    Cusum.StartInside(Cusum.Rises(h, drift));
    Cusum.StartInside(Cusum.Falls(h, drift));
  }

  // ---- families ---------------------------------------------------------------------

  /** The p-values of one series that belong to a family, each forced into [0, 1]. */
  function TestedIn(d: Settings, rows: seq<Row>, f: Family): seq<real> {
    if rows == [] then []
    else
      var fewer, last := rows[..|rows| - 1], rows[|rows| - 1];
      TestedIn(d, fewer, f)
      + if PValueOf(d, fewer, last).Some? && last.grain == f.grain && last.period == f.period
        then [FalseDiscovery.Clean(FalseDiscovery.Finite(PValueOf(d, fewer, last).value))] else []
  }

  /** ... and of all series, each in order of time. */
  function TestedInFrame(k: Config, frame: seq<Block>, f: Family): seq<real> {
    if frame == [] then []
    else
      var last := frame[|frame| - 1];
      TestedInFrame(k, frame[..|frame| - 1], f) + TestedIn(k(last.series), Sort(Earlier(), last.rows), f)
  }

  function PsOf(f: Family): Observation -> seq<real> {
    (o: Observation) => if Belongs(o, f) then [FalseDiscovery.Clean(FalseDiscovery.Finite(o.pValue.value))] else []
  }

  lemma CleanedGrows(ps: seq<real>, more: seq<real>)
    ensures Cleaned(ps + more) == Cleaned(ps) + Cleaned(more)
  {
  }

  lemma {:induction false} FamilyIsFlat(rows: seq<Observation>, f: Family)
    ensures Cleaned(FamilyValues(rows, f)) == Flatten(PsOf(f), rows)
  {
    if rows != [] {
      var fewer, o := rows[..|rows| - 1], rows[|rows| - 1];
      assert rows == fewer + [o];
      FamilyIsFlat(fewer, f);
      FamilyValuesGrow(fewer, o, f);
      FlattenLast(PsOf(f), fewer, o);
      CleanedGrows(FamilyValues(fewer, f), if Belongs(o, f) then [o.pValue.value] else []);
    }
  }

  lemma {:induction false} TestedIsFlat(d: Settings, rows: seq<Row>, f: Family)
    ensures Flatten(PsOf(f), Scores(d, rows)) == TestedIn(d, rows, f)
  {
    if rows != [] {
      var fewer, r := rows[..|rows| - 1], rows[|rows| - 1];
      assert rows == fewer + [r];
      TestedIsFlat(d, fewer, f);
      ScoresNext(d, fewer, r);
      ScoredBasics(d, fewer, r);
      FlattenLast(PsOf(f), Scores(d, fewer), Scored(d, fewer, r));
    }
  }

  lemma {:induction false} FlattenConcat<T, U>(f: T -> seq<U>, xs: seq<T>, ys: seq<T>)
    ensures Flatten(f, xs + ys) == Flatten(f, xs) + Flatten(f, ys)
  {
    if ys == [] {
      assert xs + ys == xs;
    } else {
      var n := |ys| - 1;
      FlattenConcat(f, xs, ys[..n]);
      assert xs + ys == (xs + ys[..n]) + [ys[n]] && ys == ys[..n] + [ys[n]];
      FlattenLast(f, xs + ys[..n], ys[n]);
      FlattenLast(f, ys[..n], ys[n]);
    }
  }

  lemma {:induction false} FrameIsFlat(k: Config, frame: seq<Block>, f: Family)
    ensures Flatten(PsOf(f), FrameScores(k, frame)) == TestedInFrame(k, frame, f)
  {
    if frame != [] {
      var n := |frame| - 1;
      FrameIsFlat(k, frame[..n], f);
      TestedIsFlat(k(frame[n].series), Sort(Earlier(), frame[n].rows), f);
      FlattenConcat(PsOf(f), FrameScores(k, frame[..n]), BlockScores(k, frame[n]));
    }
  }

  /** However the scores are ordered, a family has the p-values of its rows. */
  lemma FamilyOfFrame(k: Config, frame: seq<Block>, rows: seq<Observation>, f: Family)
    requires Permuted(FrameScores(k, frame), rows)
    ensures Permuted(Cleaned(FamilyValues(rows, f)), TestedInFrame(k, frame, f))
  {
    FamilyIsFlat(rows, f);
    FlattenPermuted(PsOf(f), FrameScores(k, frame), rows);
    FrameIsFlat(k, frame, f);
  }

  function UpToValue(t: real): real -> real { (x: real) => if x <= t then 1.0 else 0.0 }

  lemma {:induction false} CountIsSum(ps: seq<real>, t: real)
    ensures FalseDiscovery.Count(ps, t) as real == Sum(Map(UpToValue(t), ps))
  {
    if ps != [] {
      var n := |ps| - 1;
      CountIsSum(ps[..n], t);
      assert FalseDiscovery.AtMost(ps, t) == FalseDiscovery.AtMost(ps[..n], t) + (if ps[n] <= t then {n} else {});
      assert Map(UpToValue(t), ps)[..n] == Map(UpToValue(t), ps[..n]);
    } else {
      assert FalseDiscovery.AtMost(ps, t) == {};
    }
  }

  lemma CountPermuted(ps: seq<real>, qs: seq<real>, t: real)
    requires Permuted(ps, qs)
    ensures FalseDiscovery.Count(ps, t) == FalseDiscovery.Count(qs, t)
  {
    CountIsSum(ps, t);
    CountIsSum(qs, t);
    MapPermuted(UpToValue(t), ps, qs);
    SumPermuted(Map(UpToValue(t), ps), Map(UpToValue(t), qs));
  }

  lemma RejectsPermuted(ps: seq<real>, qs: seq<real>, value: real, alpha: real)
    requires Permuted(ps, qs) && FalseDiscovery.Rejects(ps, value, alpha)
    ensures FalseDiscovery.Rejects(qs, value, alpha)
  {
    SameLength(ps, qs);
    var j :| 0 <= j < |ps| && value <= ps[j] && ps[j] * |ps| as real <= alpha * FalseDiscovery.Count(ps, ps[j]) as real;
    CountPermuted(ps, qs, ps[j]);
    assert ps[j] in multiset(qs);
    var i :| 0 <= i < |qs| && qs[i] == ps[j];
    assert qs[i] * |qs| as real <= alpha * FalseDiscovery.Count(qs, qs[i]) as real;
  }

  /** The p-value of a row is rejected within its grain and period. */
  ghost predicate Significant(k: Config, frame: seq<Block>, d: Settings, before: seq<Row>, r: Row) {
    && PValueOf(d, before, r).Some?
    && FalseDiscovery.Rejects(TestedInFrame(k, frame, Family(r.grain, r.period)),
                              FalseDiscovery.Clean(FalseDiscovery.Finite(PValueOf(d, before, r).value)), d.fdrAlpha)
  }

  lemma CorrectedRejects(k: Config, frame: seq<Block>, rows: seq<Observation>, m: nat, alpha: real)
    requires Permuted(FrameScores(k, frame), rows) && m < |rows| && Tested(rows[m])
    ensures QAt(rows, m) <= alpha
            <==> FalseDiscovery.Rejects(TestedInFrame(k, frame, FamilyOf(rows[m])),
                                        FalseDiscovery.Clean(FalseDiscovery.Finite(rows[m].pValue.value)), alpha)
  {
    var f := FamilyOf(rows[m]);
    var ps, qs, i := Cleaned(FamilyValues(rows, f)), TestedInFrame(k, frame, f), |Members(rows, f, m)|;
    MemberAt(rows, f, m, |rows|);
    FamilyOfFrame(k, frame, rows, f);
    FalseDiscovery.RejectsExactly(ps, i, QAt(rows, m), alpha);
    assert ps[i] == FalseDiscovery.Clean(FalseDiscovery.Finite(rows[m].pValue.value));
    if FalseDiscovery.Rejects(ps, ps[i], alpha) {
      RejectsPermuted(ps, qs, ps[i], alpha);
    }
    if FalseDiscovery.Rejects(qs, ps[i], alpha) {
      RejectsPermuted(qs, ps, ps[i], alpha);
    }
  }

  // ---- alerts -----------------------------------------------------------------------

  ghost predicate Supported(k: Config, frame: seq<Block>, d: Settings, before: seq<Row>, r: Row) {
    One(Far(d, before, r)) + One(Significant(k, frame, d, before, r)) + One(Drifted(d, before, r)) + One(Shifted(d, before, r))
    >= d.minimumSupport
  }

  /** The row is eligible, significant and big enough, and enough of the four conditions hold. */
  ghost predicate Anomalous(k: Config, frame: seq<Block>, d: Settings, before: seq<Row>, r: Row) {
    && Qualifies(d, before, r) && Significant(k, frame, d, before, r) && Big(d, before, r)
    && Supported(k, frame, d, before, r)
  }

  /** The alert says what holds of the row. */
  ghost predicate Says(k: Config, frame: seq<Block>, d: Settings, before: seq<Row>, r: Row, a: Alert) {
    && a.o.row == r
    && (a.robust <==> Far(d, before, r)) && (a.significant <==> Significant(k, frame, d, before, r))
    && (a.changed <==> Drifted(d, before, r)) && (a.shifted <==> Shifted(d, before, r))
    && (a.magnitude <==> Big(d, before, r)) && (a.anomaly <==> Anomalous(k, frame, d, before, r))
  }

  lemma CorrectedSignificant(k: Config, frame: seq<Block>, rows: seq<Observation>, m: nat, before: seq<Row>, r: Row)
    requires Permuted(FrameScores(k, frame), rows) && m < |rows| && rows[m] == Scored(k(r.series), before, r)
    ensures var d, o := k(r.series), Corrected(rows, m);
            && o == rows[m].(qValue := o.qValue)
            && (o.qValue.Some? && o.qValue.value <= d.fdrAlpha <==> Significant(k, frame, d, before, r))
  {
    ScoredBasics(k(r.series), before, r);
    if Tested(rows[m]) {
      CorrectedRejects(k, frame, rows, m, k(r.series).fdrAlpha);
    }
  }

  lemma FinalizedSays(k: Config, frame: seq<Block>, before: seq<Row>, r: Row, o: Observation, q: Option<real>)
    requires o == Scored(k(r.series), before, r)
    requires q.Some? && q.value <= k(r.series).fdrAlpha <==> Significant(k, frame, k(r.series), before, r)
    ensures Says(k, frame, k(r.series), before, r, Finalize(k, o.(qValue := q)))
  {
    var d := k(r.series);
    ScoredBasics(d, before, r);
    LocatedFar(d, before, r, o.(qValue := q));
    LocatedBig(d, before, r, o.(qValue := q));
    ScoredDrifted(d, before, r);
    ScoredShifted(d, before, r);
  }

  // ---- the whole frame --------------------------------------------------------------

  /** Each series has its own rows. */
  predicate Partitioned(frame: seq<Block>) { forall b, r | b in frame && r in b.rows :: r.series == b.series }

  function InTime(b: Block): seq<Row> { Sort(Earlier(), b.rows) }

  lemma SortKeeps<T(!new)>(before: (T, T) -> bool, xs: seq<T>)
    requires WeakOrder(before)
    ensures Permuted(xs, Sort(before, xs)) && |Sort(before, xs)| == |xs|
  {
    SortSorts(before, xs);
    SameLength(xs, Sort(before, xs));
  }

  lemma BlockScoreIs(k: Config, b: Block, j: nat)
    requires j < |InTime(b)|
    ensures |BlockScores(k, b)| == |InTime(b)| && BlockScores(k, b)[j] == Scored(k(b.series), InTime(b)[..j], InTime(b)[j])
  {
    var d := k(b.series);
    OutputAt(ObserveBy(d), AdvanceBy(d), START, InTime(b), j);
  }

  lemma {:induction false} FrameHas(k: Config, frame: seq<Block>, i: nat)
    requires i < |frame|
    ensures forall o | o in BlockScores(k, frame[i]) :: o in FrameScores(k, frame)
  {
    if i < |frame| - 1 {
      FrameHas(k, frame[..|frame| - 1], i);
    }
  }

  lemma {:induction false} FrameHasOnly(k: Config, frame: seq<Block>, o: Observation) returns (i: nat, j: nat)
    requires o in FrameScores(k, frame)
    ensures i < |frame| && j < |BlockScores(k, frame[i])| && BlockScores(k, frame[i])[j] == o
  {
    var n := |frame| - 1;
    if o in BlockScores(k, frame[n]) {
      i := n;
      j :| 0 <= j < |BlockScores(k, frame[n])| && BlockScores(k, frame[n])[j] == o;
    } else {
      i, j := FrameHasOnly(k, frame[..n], o);
    }
  }

  lemma RowSeries(frame: seq<Block>, i: nat, j: nat)
    requires Partitioned(frame) && i < |frame| && j < |InTime(frame[i])|
    ensures InTime(frame[i])[j].series == frame[i].series
  {
    OrdersAreWeak();
    SortKeeps(Earlier(), frame[i].rows);
    assert InTime(frame[i])[j] in multiset(frame[i].rows);
  }

  /** The alert made of the row at position `m` of the sorted scores. */
  lemma AlertMade(k: Config, frame: seq<Block>, m: nat, i: nat, j: nat)
    requires Partitioned(frame) && i < |frame| && j < |InTime(frame[i])|
    requires m < |Sort(ByKey(), FrameScores(k, frame))|
    requires Sort(ByKey(), FrameScores(k, frame))[m] == BlockScores(k, frame[i])[j]
    ensures Says(k, frame, k(frame[i].series), InTime(frame[i])[..j], InTime(frame[i])[j],
                 Finalize(k, ApplyFdr(Sort(ByKey(), FrameScores(k, frame)))[m]))
  {
    var rows := Sort(ByKey(), FrameScores(k, frame));
    OrdersAreWeak();
    SortKeeps(ByKey(), FrameScores(k, frame));
    BlockScoreIs(k, frame[i], j);
    RowSeries(frame, i, j);
    ApplyFdrAt(rows, m);
    CorrectedSignificant(k, frame, rows, m, InTime(frame[i])[..j], InTime(frame[i])[j]);
    FinalizedSays(k, frame, InTime(frame[i])[..j], InTime(frame[i])[j], rows[m], Corrected(rows, m).qValue);
  }

  lemma InSorted<T(!new)>(before: (T, T) -> bool, xs: seq<T>, x: T) returns (n: nat)
    requires WeakOrder(before) && x in xs
    ensures n < |Sort(before, xs)| && Sort(before, xs)[n] == x
  {
    SortKeeps(before, xs);
    assert x in multiset(Sort(before, xs));
    n :| 0 <= n < |Sort(before, xs)| && Sort(before, xs)[n] == x;
  }

  lemma OutOfSorted<T(!new)>(before: (T, T) -> bool, xs: seq<T>, n: nat) returns (m: nat)
    requires WeakOrder(before) && n < |Sort(before, xs)|
    ensures m < |xs| && xs[m] == Sort(before, xs)[n]
  {
    SortKeeps(before, xs);
    assert Sort(before, xs)[n] in multiset(xs);
    m :| 0 <= m < |xs| && xs[m] == Sort(before, xs)[n];
  }

  /** Every row of every series has its alert, which is an anomaly exactly if the row is anomalous, */
  lemma RowHasAlert(k: Config, frame: seq<Block>, i: nat, j: nat) returns (n: nat)
    requires Partitioned(frame) && i < |frame| && j < |InTime(frame[i])|
    ensures n < |Alerts(k, frame)|
    ensures Says(k, frame, k(frame[i].series), InTime(frame[i])[..j], InTime(frame[i])[j], Alerts(k, frame)[n])
  {
    OrdersAreWeak();
    var rows := Sort(ByKey(), FrameScores(k, frame));
    BlockScoreIs(k, frame[i], j);
    FrameHas(k, frame, i);
    var m := InSorted(ByKey(), FrameScores(k, frame), BlockScores(k, frame[i])[j]);
    AlertMade(k, frame, m, i, j);
    n := InSorted(ByKey(), ApplyFdr(rows), ApplyFdr(rows)[m]);
  }

  /** ... and there are no other alerts. */
  lemma AlertHasRow(k: Config, frame: seq<Block>, n: nat) returns (i: nat, j: nat)
    requires Partitioned(frame) && n < |Alerts(k, frame)|
    ensures i < |frame| && j < |InTime(frame[i])|
    ensures Says(k, frame, k(frame[i].series), InTime(frame[i])[..j], InTime(frame[i])[j], Alerts(k, frame)[n])
  {
    OrdersAreWeak();
    var rows := Sort(ByKey(), FrameScores(k, frame));
    var m := OutOfSorted(ByKey(), ApplyFdr(rows), n);
    var l := OutOfSorted(ByKey(), FrameScores(k, frame), m);
    i, j := FrameHasOnly(k, frame, rows[m]);
    AlertMade(k, frame, m, i, j);
  }

  function RowCount(frame: seq<Block>): nat {
    if frame == [] then 0 else RowCount(frame[..|frame| - 1]) + |frame[|frame| - 1].rows|
  }

  lemma {:induction false} ScoreCount(k: Config, frame: seq<Block>)
    ensures |FrameScores(k, frame)| == RowCount(frame)
  {
    if frame != [] {
      ScoreCount(k, frame[..|frame| - 1]);
      OrdersAreWeak();
      SortKeeps(Earlier(), frame[|frame| - 1].rows);
    }
  }

  /** There are as many alerts as rows. */
  lemma AlertCount(k: Config, frame: seq<Block>)
    ensures |Alerts(k, frame)| == RowCount(frame)
  {
    OrdersAreWeak();
    ScoreCount(k, frame);
    SortKeeps(ByKey(), FrameScores(k, frame));
    SortKeeps(ByKey(), ApplyFdr(Sort(ByKey(), FrameScores(k, frame))));
  }
}
