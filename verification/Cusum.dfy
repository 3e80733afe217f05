/** Two-sided cumulative sums: change detection and the sequential test. */
module Cusum {
  import opened Wrappers
  import opened Reals
  import opened Sums

  type Period = int

  datatype Point = Point(z: real, period: Period)

  // ---- one side ---------------------------------------------------------------------

  /** The recursion: add the step, never fall below zero. */
  function Side(steps: seq<real>): real {
    if steps == [] then 0.0 else Max(0.0, Side(steps[..|steps| - 1]) + steps[|steps| - 1])
  }

  /** The index at which the current excursion began: set anew whenever the side was at zero. */
  function Start(steps: seq<real>): nat {
    if steps == [] then 0
    else if Side(steps[..|steps| - 1]) <= 0.0 then |steps| - 1
    else Start(steps[..|steps| - 1])
  }

  /** The sum of the steps from `i` on. */
  function Tail(steps: seq<real>, i: nat): real
    requires i <= |steps|
  {
    Sum(steps[i..])
  }

  lemma TailGrows(steps: seq<real>, i: nat)
    requires i < |steps|
    ensures Tail(steps, i) == Tail(steps[..|steps| - 1], i) + steps[|steps| - 1]
  {
    var n := |steps| - 1;
    assert steps[i..][..|steps[i..]| - 1] == steps[..n][i..];
  }

  /** `v` is the greatest sum of a suffix, the empty one included. */
  ghost predicate GreatestTail(steps: seq<real>, v: real) {
    && (exists i | 0 <= i <= |steps| :: Tail(steps, i) == v)
    && forall i | 0 <= i <= |steps| :: Tail(steps, i) <= v
  }

  /** `k` is the latest start of a suffix with that sum. */
  ghost predicate LatestStart(steps: seq<real>, k: nat, v: real) {
    k <= |steps| && Tail(steps, k) == v && forall i | k < i <= |steps| :: Tail(steps, i) < v
  }

  /** The recursion computes the greatest suffix sum; while it is positive its start is the latest
      suffix start that attains it. */
  lemma {:induction false} SideIsGreatestTail(steps: seq<real>)
    ensures GreatestTail(steps, Side(steps))
    ensures Side(steps) > 0.0 ==> Start(steps) < |steps| && LatestStart(steps, Start(steps), Side(steps))
  {
    var n := |steps|;
    assert Tail(steps, n) == 0.0;
    if n > 0 {
      var shorter, step := steps[..n - 1], steps[n - 1];
      SideIsGreatestTail(shorter);
      forall i | 0 <= i < n ensures Tail(steps, i) == Tail(shorter, i) + step {
        TailGrows(steps, i);
      }
      assert Tail(shorter, n - 1) == 0.0;
      var k := if Side(shorter) > 0.0 then Start(shorter) else n - 1;
      assert Tail(steps, k) == Tail(shorter, k) + step == Side(shorter) + step;
      if Side(shorter) + step > 0.0 {
        forall i | k < i <= n ensures Tail(steps, i) < Side(steps) {
          if i < n {
            assert Tail(shorter, i) < Side(shorter);
          }
        }
      }
    }
  }

  // ---- both sides -------------------------------------------------------------------

  function Rises(h: seq<Point>, drift: real): seq<real> { Map((p: Point) => p.z - drift, h) }

  function Falls(h: seq<Point>, drift: real): seq<real> { Map((p: Point) => -p.z - drift, h) }

  function Score(h: seq<Point>, drift: real): real { Max(Side(Rises(h, drift)), Side(Falls(h, drift))) }

  predicate Above(h: seq<Point>, drift: real, threshold: real) { h != [] && Score(h, drift) >= threshold }

  /** The score has just risen to the threshold. */
  predicate Crosses(h: seq<Point>, drift: real, threshold: real) {
    h != [] && Above(h, drift, threshold) && !Above(h[..|h| - 1], drift, threshold)
  }

  function PeriodAt(h: seq<Point>, k: nat): Option<Period> { if k < |h| then Some(h[k].period) else None }

  /** Where the greater side began. */
  function ChangeStart(h: seq<Point>, drift: real): Option<Period> {
    var up, down := Rises(h, drift), Falls(h, drift);
    PeriodAt(h, if Side(up) >= Side(down) then Start(up) else Start(down))
  }

  lemma StepsGrow(h: seq<Point>, p: Point, drift: real)
    ensures Rises(h + [p], drift) == Rises(h, drift) + [p.z - drift]
    ensures Falls(h + [p], drift) == Falls(h, drift) + [-p.z - drift]
    ensures (h + [p])[..|h|] == h
  {
  }

  lemma {:induction false} StartInside(steps: seq<real>)
    requires steps != []
    ensures Start(steps) < |steps|
  {
    if Side(steps[..|steps| - 1]) > 0.0 {
      StartInside(steps[..|steps| - 1]);
    }
  }

  /** What one more point does to a side and to its start. */
  lemma SideStep(h: seq<Point>, steps: seq<real>, p: Point, step: real)
    requires |steps| == |h|
    ensures Side(steps + [step]) == Max(0.0, Side(steps) + step)
    ensures PeriodAt(h + [p], Start(steps + [step])) == if Side(steps) <= 0.0 then Some(p.period) else PeriodAt(h, Start(steps))
  {
    assert (steps + [step])[..|steps|] == steps;
    if steps != [] {
      StartInside(steps);
    }
  }

  /** The fields of the detector, and what they are after the observations `h`. */
  datatype Sides = Sides(positive: real, negative: real, positiveStart: Option<Period>, negativeStart: Option<Period>,
                         above: bool)

  function SidesAfter(h: seq<Point>, drift: real, threshold: real): Sides {
    Sides(Side(Rises(h, drift)), Side(Falls(h, drift)),
          PeriodAt(h, Start(Rises(h, drift))), PeriodAt(h, Start(Falls(h, drift))), Above(h, drift, threshold))
  }

  /** One step from the fields alone. */
  function Step(f: Sides, p: Point, drift: real, threshold: real): Sides {
    var positive := Max(0.0, f.positive + p.z - drift);
    var negative := Max(0.0, f.negative - p.z - drift);
    Sides(positive, negative,
          if f.positive <= 0.0 then Some(p.period) else f.positiveStart,
          if f.negative <= 0.0 then Some(p.period) else f.negativeStart,
          Max(positive, negative) >= threshold)
  }

  lemma SidesStep(h: seq<Point>, p: Point, drift: real, threshold: real)
    ensures SidesAfter(h + [p], drift, threshold) == Step(SidesAfter(h, drift, threshold), p, drift, threshold)
    ensures (h + [p])[..|h|] == h
  {
    StepsGrow(h, p, drift);
    SideStep(h, Rises(h, drift), p, p.z - drift);
    SideStep(h, Falls(h, drift), p, -p.z - drift);
  }

  /** The fields step by step. */
  function Folded(h: seq<Point>, drift: real, threshold: real): Sides {
    if h == [] then Sides(0.0, 0.0, None, None, false)
    else Step(Folded(h[..|h| - 1], drift, threshold), h[|h| - 1], drift, threshold)
  }

  lemma {:induction false} FoldedIsAfter(h: seq<Point>, drift: real, threshold: real)
    ensures Folded(h, drift, threshold) == SidesAfter(h, drift, threshold)
  {
    if h != [] {
      var n := |h| - 1;
      FoldedIsAfter(h[..n], drift, threshold);
      SidesStep(h[..n], h[n], drift, threshold);
      assert h == h[..n] + [h[n]];
    }
  }

  /** What the fields say about the history. */
  lemma SidesTell(h: seq<Point>, p: Point, drift: real, threshold: real)
    ensures var f := SidesAfter(h + [p], drift, threshold);
            && Score(h + [p], drift) == Max(f.positive, f.negative)
            && (Crosses(h + [p], drift, threshold) <==> f.above && !SidesAfter(h, drift, threshold).above)
            && (Above(h + [p], drift, threshold) <==> f.above)
            && ChangeStart(h + [p], drift) == if f.positive >= f.negative then f.positiveStart else f.negativeStart
  {
    assert (h + [p])[..|h|] == h;
  }

  class CusumState {
    var positive: real
    var negative: real
    var positiveStart: Option<Period>
    var negativeStart: Option<Period>
    var previouslyAboveThreshold: bool
    ghost var history: seq<Point>

    constructor ()
      ensures history == [] && forall drift, threshold :: Valid(drift, threshold)
    {
      positive, negative := 0.0, 0.0;
      positiveStart, negativeStart := None, None;
      previouslyAboveThreshold := false;
      history := [];
    }

    ghost predicate Valid(drift: real, threshold: real)
      reads this
    {
      Fields() == Folded(history, drift, threshold)
    }

    ghost function Fields(): Sides
      reads this
    {
      Sides(positive, negative, positiveStart, negativeStart, previouslyAboveThreshold)
    }

    /** The assignments of one update. */
    method Apply(z: real, period: Period, drift: real, threshold: real)
      returns (score: real, detected: bool, estimated: Option<Period>)
      modifies this
      ensures history == old(history) && var f := Step(old(Fields()), Point(z, period), drift, threshold);
              && Fields() == f
              && score == Max(f.positive, f.negative)
              && detected == (f.above && !old(previouslyAboveThreshold))
              && estimated == if !f.above then None else if f.positive >= f.negative then f.positiveStart else f.negativeStart
    {
      if positive <= 0.0 {
        positiveStart := Some(period);
      }
      if negative <= 0.0 {
        negativeStart := Some(period);
      }
      positive := Max(0.0, positive + z - drift);
      negative := Max(0.0, negative - z - drift);
      score := Max(positive, negative);
      var above := score >= threshold;
      detected := above && !previouslyAboveThreshold;
      previouslyAboveThreshold := above;
      estimated := if !above then None else if positive >= negative then positiveStart else negativeStart;
    }

    /** One observation: the sides are again the greatest suffix sums, a detection is a crossing from
        below, and above the threshold the estimate is the start of the greater side. */
    method Update(z: real, period: Period, drift: real, threshold: real)
      returns (score: real, detected: bool, estimated: Option<Period>)
      requires Valid(drift, threshold)
      modifies this
      ensures Valid(drift, threshold) && history == old(history) + [Point(z, period)]
      ensures score == Score(history, drift)
      ensures detected <==> Crosses(history, drift, threshold)
      ensures estimated == if Above(history, drift, threshold) then ChangeStart(history, drift) else None
    {
      FoldedIsAfter(history, drift, threshold);
      FoldedIsAfter(history + [Point(z, period)], drift, threshold);
      SidesStep(history, Point(z, period), drift, threshold);
      SidesTell(history, Point(z, period), drift, threshold);
      score, detected, estimated := Apply(z, period, drift, threshold);
      history := history + [Point(z, period)];
    }
  }

  /** What an estimate says: from the estimated start on the observations exceed the drift, upward
      or downward, by the whole score, and from no later start by as much. */
  lemma EstimateExplainsScore(h: seq<Point>, drift: real)
    requires h != [] && Score(h, drift) > 0.0
    ensures exists k | 0 <= k < |h| ::
              && ChangeStart(h, drift) == Some(h[k].period)
              && (LatestStart(Rises(h, drift), k, Score(h, drift)) || LatestStart(Falls(h, drift), k, Score(h, drift)))
  {
    var up, down := Rises(h, drift), Falls(h, drift);
    SideIsGreatestTail(up);
    SideIsGreatestTail(down);
    var k := if Side(up) >= Side(down) then Start(up) else Start(down);
    assert k < |h| && ChangeStart(h, drift) == Some(h[k].period);
  }

  // ---- the sequential test ------------------------------------------------------------

  /** The log likelihood ratio of one observation: mean `shift` against mean zero. */
  function Gain(shift: real, z: real): real { shift * z - shift * shift / 2.0 }

  /** The exponent of the standard normal density. */
  function Exponent(x: real): real { -(x * x) / 2.0 }

  lemma GainIsLogRatio(shift: real, z: real)
    ensures Gain(shift, z) == Exponent(z - shift) - Exponent(z)
  {
    assert (z - shift) * (z - shift) == z * z - 2.0 * (shift * z) + shift * shift;
  }

  lemma GainOfNegation(shift: real, z: real)
    ensures Gain(shift, -z) == -(shift * z) - shift * shift / 2.0
  {
    assert shift * (-z) == -(shift * z);
  }

  function Gains(shift: real, zs: seq<real>): seq<real> { Map(z => Gain(shift, z), zs) }

  function Negated(zs: seq<real>): seq<real> { Map((z: real) => -z, zs) }

  function Evidence(shift: real, zs: seq<real>): real {
    Max(Side(Gains(shift, zs)), Side(Gains(shift, Negated(zs))))
  }

  predicate Convinced(shift: real, zs: seq<real>, threshold: real) { zs != [] && Evidence(shift, zs) >= threshold }

  lemma GainsGrow(shift: real, zs: seq<real>, z: real)
    ensures Gains(shift, zs + [z]) == Gains(shift, zs) + [Gain(shift, z)]
    ensures Gains(shift, Negated(zs + [z])) == Gains(shift, Negated(zs)) + [Gain(shift, -z)]
    ensures (zs + [z])[..|zs|] == zs
  {
  }

  class SequentialState {
    var positive: real
    var negative: real
    var previouslyAboveThreshold: bool
    ghost var history: seq<real>

    constructor ()
      ensures history == [] && forall shift, threshold :: Valid(shift, threshold)
    {
      positive, negative, previouslyAboveThreshold, history := 0.0, 0.0, false, [];
    }

    ghost predicate Valid(shift: real, threshold: real)
      reads this
    {
      && positive == Side(Gains(shift, history)) && negative == Side(Gains(shift, Negated(history)))
      && previouslyAboveThreshold == Convinced(shift, history, threshold)
    }

    method Update(z: real, shift: real, threshold: real) returns (score: real, alert: bool)
      requires Valid(shift, threshold)
      modifies this
      ensures Valid(shift, threshold) && history == old(history) + [z]
      ensures score == Evidence(shift, history)
      ensures alert <==> Convinced(shift, history, threshold) && !Convinced(shift, old(history), threshold)
    {
      GainsGrow(shift, history, z);
      GainOfNegation(shift, z);
      var square := shift * shift / 2.0;
      positive := Max(0.0, positive + shift * z - square);
      negative := Max(0.0, negative - shift * z - square);
      history := history + [z];
      score := Max(positive, negative);
      var above := score >= threshold;
      alert := above && !previouslyAboveThreshold;
      previouslyAboveThreshold := above;
    }
  }

  /** The sequential score is the greatest log likelihood ratio of a recent shift, in either
      direction, over all times at which it may have begun. */
  lemma EvidenceIsGreatest(shift: real, zs: seq<real>)
    ensures var up, down := Gains(shift, zs), Gains(shift, Negated(zs));
            && (forall i | 0 <= i <= |zs| :: Tail(up, i) <= Evidence(shift, zs) && Tail(down, i) <= Evidence(shift, zs))
            && (exists i | 0 <= i <= |zs| :: Tail(up, i) == Evidence(shift, zs) || Tail(down, i) == Evidence(shift, zs))
  {
    SideIsGreatestTail(Gains(shift, zs));
    SideIsGreatestTail(Gains(shift, Negated(zs)));
  }
}
