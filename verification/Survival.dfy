/** The Kaplan-Meier survival table. */
module Survival {
  import opened Reals

  datatype Row = Row(time: real, atRisk: nat, events: nat, censored: nat, survival: real, lower: real, upper: real)

  // ---- counting ---------------------------------------------------------------------

  /** Number of true entries. */
  function Count(mask: seq<bool>): nat {
    if mask == [] then 0 else Count(mask[..|mask| - 1]) + if mask[|mask| - 1] then 1 else 0
  }

  /** Where exactly one of two masks is set, the counts add up. */
  lemma {:induction false} CountAdds(a: seq<bool>, b: seq<bool>, c: seq<bool>)
    requires |a| == |b| == |c|
    requires forall i | 0 <= i < |a| :: (a[i] <==> b[i] || c[i]) && !(b[i] && c[i])
    ensures Count(a) == Count(b) + Count(c)
  {
    if a != [] {
      var n := |a| - 1;
      CountAdds(a[..n], b[..n], c[..n]);
    }
  }

  lemma {:induction false} CountAll(a: seq<bool>)
    ensures Count(a) <= |a|
    ensures (forall i | 0 <= i < |a| :: a[i]) ==> Count(a) == |a|
    ensures (exists i :: 0 <= i < |a| && a[i]) ==> Count(a) > 0
    ensures (forall i | 0 <= i < |a| :: !a[i]) ==> Count(a) == 0
  {
    if a != [] {
      CountAll(a[..|a| - 1]);
    }
  }

  function AtLeast(d: seq<real>, t: real): seq<bool> {
    seq(|d|, i requires 0 <= i < |d| => d[i] >= t)
  }

  function Beyond(d: seq<real>, t: real): seq<bool> {
    seq(|d|, i requires 0 <= i < |d| => d[i] > t)
  }

  function EventsAt(d: seq<real>, e: seq<bool>, t: real): seq<bool>
    requires |e| == |d|
  {
    seq(|d|, i requires 0 <= i < |d| => d[i] == t && e[i])
  }

  function CensoredAt(d: seq<real>, e: seq<bool>, t: real): seq<bool>
    requires |e| == |d|
  {
    seq(|d|, i requires 0 <= i < |d| => d[i] == t && !e[i])
  }

  function EventsUpTo(d: seq<real>, e: seq<bool>, t: real): seq<bool>
    requires |e| == |d|
  {
    seq(|d|, i requires 0 <= i < |d| => d[i] <= t && e[i])
  }

  /** Those at risk at a time either fail then, are censored then, or go on. */
  lemma RiskSplits(d: seq<real>, e: seq<bool>, t: real)
    requires |e| == |d|
    ensures Count(AtLeast(d, t)) == Count(EventsAt(d, e, t)) + Count(CensoredAt(d, e, t)) + Count(Beyond(d, t))
    ensures (exists i :: 0 <= i < |d| && d[i] == t) ==> Count(AtLeast(d, t)) > 0
  {
    var now := seq(|d|, i requires 0 <= i < |d| => d[i] == t);
    CountAdds(AtLeast(d, t), now, Beyond(d, t));
    CountAdds(now, EventsAt(d, e, t), CensoredAt(d, e, t));
    if i :| 0 <= i < |d| && d[i] == t {
      assert AtLeast(d, t)[i];
      CountAll(AtLeast(d, t));
    }
  }

  // ---- distinct times ---------------------------------------------------------------

  predicate Occurs(d: seq<real>, n: nat, x: real)
    requires n <= |d|
  {
    exists j :: 0 <= j < n && d[j] == x
  }

  predicate Listed(times: seq<real>, x: real) { exists j :: 0 <= j < |times| && times[j] == x }

  predicate Climbs(times: seq<real>) { forall i, j | 0 <= i < j < |times| :: times[i] < times[j] }

  /** The distinct values among the first `n` in ascending order. */
  ghost predicate DistinctTo(times: seq<real>, d: seq<real>, n: nat) {
    && n <= |d| && Climbs(times)
    && (forall i | 0 <= i < |times| :: Occurs(d, n, times[i]))
    && (forall i | 0 <= i < n :: Listed(times, d[i]))
  }

  ghost predicate Distinct(times: seq<real>, d: seq<real>) { DistinctTo(times, d, |d|) }

  lemma InsertedClimbs(times: seq<real>, k: nat, x: real)
    requires Climbs(times) && k <= |times|
    requires forall j | k <= j < |times| :: times[j] > x
    requires k > 0 ==> times[k - 1] < x
    ensures Climbs(times[..k] + [x] + times[k..])
  {
    forall j | 0 <= j < k ensures times[j] < x {
      assert j < k - 1 ==> times[j] < times[k - 1];
    }
  }

  lemma InsertedListed(times: seq<real>, k: nat, x: real, y: real)
    requires k <= |times|
    ensures Listed(times[..k] + [x] + times[k..], y) <==> Listed(times, y) || y == x
  {
    var grown := times[..k] + [x] + times[k..];
    if j :| 0 <= j < |times| && times[j] == y {
      assert grown[if j < k then j else j + 1] == y;
    }
    if y == x {
      assert grown[k] == y;
    }
    if j :| 0 <= j < |grown| && grown[j] == y && j != k {
      assert times[if j < k then j else j - 1] == y;
    }
  }

  lemma InsertedTime(times: seq<real>, d: seq<real>, n: nat, k: nat)
    requires n < |d| && DistinctTo(times, d, n) && k <= |times|
    requires forall j | k <= j < |times| :: times[j] > d[n]
    requires k > 0 ==> times[k - 1] < d[n]
    ensures DistinctTo(times[..k] + [d[n]] + times[k..], d, n + 1)
  {
    var grown := times[..k] + [d[n]] + times[k..];
    InsertedClimbs(times, k, d[n]);
    forall i | 0 <= i < n + 1 ensures Listed(grown, d[i]) {
      InsertedListed(times, k, d[n], d[i]);
    }
    forall j | 0 <= j < |grown| ensures Occurs(d, n + 1, grown[j]) {
      if j == k {
        assert d[n] == grown[j];
      } else {
        var i := if j < k then j else j - 1;
        assert grown[j] == times[i] && Occurs(d, n, times[i]);
      }
    }
  }

  lemma KnownTime(times: seq<real>, d: seq<real>, n: nat, k: nat)
    requires n < |d| && DistinctTo(times, d, n) && 0 < k <= |times| && times[k - 1] == d[n]
    ensures DistinctTo(times, d, n + 1)
  {
    forall i | 0 <= i < |times| ensures Occurs(d, n + 1, times[i]) {
      assert Occurs(d, n, times[i]);
    }
    assert Listed(times, d[n]);
  }

  method Unique(d: seq<real>) returns (times: seq<real>)
    ensures Distinct(times, d)
  {
    times := [];
    for n := 0 to |d|
      invariant DistinctTo(times, d, n)
    {
      var k := |times|;
      while k > 0 && times[k - 1] > d[n]
        invariant 0 <= k <= |times| && forall j | k <= j < |times| :: times[j] > d[n]
      {
        k := k - 1;
      }
      if k == 0 || times[k - 1] != d[n] {
        InsertedTime(times, d, n, k);
        times := times[..k] + [d[n]] + times[k..];
      } else {
        KnownTime(times, d, n, k);
      }
    }
  }

  /** No duration lies strictly between consecutive times: whoever is at risk at the next time is
      exactly whoever went beyond the one before. */
  lemma NextAtRisk(d: seq<real>, times: seq<real>, k: nat)
    requires Distinct(times, d) && k + 1 < |times|
    ensures AtLeast(d, times[k + 1]) == Beyond(d, times[k])
  {
    forall i | 0 <= i < |d| ensures d[i] >= times[k + 1] <==> d[i] > times[k] {
      assert Listed(times, d[i]);
      var j :| 0 <= j < |times| && times[j] == d[i];
      assert times[k] < times[k + 1];
    }
  }

  lemma Ends(d: seq<real>, times: seq<real>)
    requires Distinct(times, d) && d != []
    ensures times != [] && Count(AtLeast(d, times[0])) == |d| && Count(Beyond(d, times[|times| - 1])) == 0
  {
    assert Listed(times, d[0]);
    forall i | 0 <= i < |d| ensures times[0] <= d[i] <= times[|times| - 1] {
      assert Listed(times, d[i]);
      var j :| 0 <= j < |times| && times[j] == d[i];
    }
    CountAll(AtLeast(d, times[0]));
    CountAll(Beyond(d, times[|times| - 1]));
  }

  /** Events up to a time are those up to the time before and those at it. */
  lemma EventsAccumulate(d: seq<real>, e: seq<bool>, times: seq<real>, k: nat)
    requires |e| == |d| && Distinct(times, d) && k < |times|
    ensures Count(EventsUpTo(d, e, times[k]))
            == (if k == 0 then 0 else Count(EventsUpTo(d, e, times[k - 1]))) + Count(EventsAt(d, e, times[k]))
  {
    var before := if k == 0 then seq(|d|, i => false) else EventsUpTo(d, e, times[k - 1]);
    forall i | 0 <= i < |d|
      ensures EventsUpTo(d, e, times[k])[i] <==> before[i] || EventsAt(d, e, times[k])[i]
      ensures !(before[i] && EventsAt(d, e, times[k])[i])
    {
      assert Listed(times, d[i]);
      var j :| 0 <= j < |times| && times[j] == d[i];
      assert k > 0 ==> times[k - 1] < times[k];
    }
    CountAdds(EventsUpTo(d, e, times[k]), before, EventsAt(d, e, times[k]));
    if k == 0 {
      CountAll(before);
    }
  }

  // ---- the estimate -----------------------------------------------------------------

  lemma {:induction false} TimesScales(x: real, f: real, y: real, n: nat)
    requires y == x * f
    ensures Times(y, n) == Times(x, n) * f
  {
    if n > 0 {
      TimesScales(x, f, y, n - 1);
      Distributes(Times(x, n - 1), x, f);
    }
  }

  /** What losing the fraction `f` of `t` does to the two bounds. */
  lemma FractionLost(t: real, r: real, u: real, e: real, f: real)
    requires r <= t <= u && 0.0 <= f <= 1.0 && f * r == e
    ensures r - e <= t * (1.0 - f) <= u - e
  {
    Shrinks(t - r, f);
    assert (t - r) * (1.0 - f) == t * (1.0 - f) - r + f * r;
    assert t * (1.0 - f) == t - r * f - (t - r) * f;
  }

  lemma Shrinks(x: real, f: real)
    requires 0.0 <= x && 0.0 <= f <= 1.0
    ensures 0.0 <= x * (1.0 - f) <= x && x * f >= 0.0
  {
    Nonnegative(x, f);
    Nonnegative(x, 1.0 - f);
  }

  lemma Fraction(observed: nat, atRisk: nat) returns (f: real)
    requires 0 < atRisk && observed <= atRisk
    ensures 0.0 <= f <= 1.0 && f == observed as real / atRisk as real && f * atRisk as real == observed as real
  {
    f := observed as real / atRisk as real;
    FractionBounds(f, atRisk as real, observed as real);
  }

  lemma FractionBounds(f: real, r: real, e: real)
    requires r > 0.0 && f * r == e && 0.0 <= e <= r
    ensures 0.0 <= f <= 1.0
  {
    Signs(f, r);
    Signs(1.0 - f, r);
  }

  /** What each row says: the counts at its time, and an estimate between the fraction that went
      beyond it and one minus the fraction of events so far. */
  predicate RowOk(d: seq<real>, e: seq<bool>, r: Row)
    requires |e| == |d|
  {
    && r.atRisk == Count(AtLeast(d, r.time))
    && r.events == Count(EventsAt(d, e, r.time))
    && r.censored == Count(CensoredAt(d, e, r.time))
    && 0.0 <= r.survival <= 1.0
    && Times(r.survival, |d|) >= Count(Beyond(d, r.time)) as real
    && Times(r.survival, |d|) <= |d| as real - Count(EventsUpTo(d, e, r.time)) as real
    && 0.0 <= r.lower <= r.survival <= r.upper <= 1.0
  }

  lemma TimesBetween(x: real, n: nat, low: real, high: real)
    requires low <= Times(x, n) <= high
    ensures low <= x * n as real <= high
  {
    TimesIsProduct(x, n);
  }

  /** In fractions of all: the estimate is at least those that went beyond the time, and at most those
      that have not had their event. */
  lemma EstimateBounds(d: seq<real>, e: seq<bool>, r: Row, low: real, high: real)
    requires |e| == |d| && RowOk(d, e, r)
    requires low == Count(Beyond(d, r.time)) as real && high == |d| as real - Count(EventsUpTo(d, e, r.time)) as real
    ensures low <= r.survival * |d| as real <= high
  {
    TimesBetween(r.survival, |d|, low, high);
  }

  /** From row to row the estimate loses the fraction of those at risk that had their event. */
  predicate Follows(previous: Row, r: Row) {
    && r.survival <= previous.survival && r.events <= r.atRisk
    && Times(r.survival, r.atRisk) == Times(previous.survival, r.atRisk - r.events)
  }

  lemma EstimateFollows(previous: Row, r: Row)
    requires Follows(previous, r)
    ensures r.survival * r.atRisk as real == previous.survival * (r.atRisk - r.events) as real
  {
    TimesIsProduct(r.survival, r.atRisk);
    TimesIsProduct(previous.survival, r.atRisk - r.events);
  }

  /** The first row starts from an estimate of one. */
  predicate Begins(r: Row) {
    r.events <= r.atRisk && Times(r.survival, r.atRisk) == (r.atRisk - r.events) as real
  }

  ghost predicate TableOk(d: seq<real>, e: seq<bool>, times: seq<real>, rows: seq<Row>)
    requires |e| == |d|
  {
    && |rows| <= |times|
    && (rows != [] ==> Begins(rows[0]))
    && (forall k | 0 <= k < |rows| :: rows[k].time == times[k] && RowOk(d, e, rows[k]))
    && (forall j, k | 0 <= j && k == j + 1 && k < |rows| :: Follows(rows[j], rows[k]))
  }

  /** The estimate and the counts carried from one time to the next. */
  predicate Carried(d: seq<real>, s: real, atRisk: nat, gone: nat) {
    && 0.0 <= s <= 1.0 && gone <= |d|
    && Times(s, |d|) >= atRisk as real
    && Times(s, |d|) <= (|d| - gone) as real
  }

  function NextSurvival(before: real, atRisk: nat, observed: nat): real {
    if observed != 0 && atRisk != 0 then before * (1.0 - observed as real / atRisk as real) else before
  }

  lemma NextCarried(d: seq<real>, e: seq<bool>, time: real, before: real, gone: nat)
    requires |e| == |d| && Occurs(d, |d|, time)
    requires Carried(d, before, Count(AtLeast(d, time)), gone)
    requires Count(EventsUpTo(d, e, time)) == gone + Count(EventsAt(d, e, time))
    ensures var atRisk, observed := Count(AtLeast(d, time)), Count(EventsAt(d, e, time));
            var s := NextSurvival(before, atRisk, observed);
            && observed <= atRisk && s <= before
            && Times(s, atRisk) == Times(before, atRisk - observed)
            && Carried(d, s, Count(Beyond(d, time)), Count(EventsUpTo(d, e, time)))
  {
    var atRisk, observed := Count(AtLeast(d, time)), Count(EventsAt(d, e, time));
    RiskSplits(d, e, time);
    CountAll(AtLeast(d, time));
    CountAll(EventsUpTo(d, e, time));
    Factors(before, |d|, atRisk, observed, gone);
  }

  lemma Factors(before: real, n: nat, atRisk: nat, observed: nat, gone: nat)
    requires 0 < atRisk <= n && observed <= atRisk && gone <= n && 0.0 <= before <= 1.0
    requires Times(before, n) >= atRisk as real && Times(before, n) <= (n - gone) as real
    ensures var s := NextSurvival(before, atRisk, observed);
            && 0.0 <= s <= before
            && Times(s, atRisk) == Times(before, atRisk - observed)
            && Times(s, n) >= (atRisk - observed) as real
            && Times(s, n) <= (n - gone - observed) as real
  {
    FactorsBound(before, n, atRisk, observed, gone);
    FactorsLink(before, atRisk, observed);
  }

  lemma FactorsBound(before: real, n: nat, atRisk: nat, observed: nat, gone: nat)
    requires 0 < atRisk <= n && observed <= atRisk && gone <= n && 0.0 <= before <= 1.0
    requires Times(before, n) >= atRisk as real && Times(before, n) <= (n - gone) as real
    ensures var s := NextSurvival(before, atRisk, observed);
            && 0.0 <= s <= before
            && Times(s, n) >= (atRisk - observed) as real
            && Times(s, n) <= (n - gone - observed) as real
  {
    if observed != 0 {
      var f := Fraction(observed, atRisk);
      Shrinks(before, f);
      var kept := 1.0 - f;
      TimesScales(before, kept, NextSurvival(before, atRisk, observed), n);
      FractionLost(Times(before, n), atRisk as real, (n - gone) as real, observed as real, f);
    }
  }

  lemma FactorsLink(before: real, atRisk: nat, observed: nat)
    requires 0 < atRisk && observed <= atRisk
    ensures Times(NextSurvival(before, atRisk, observed), atRisk) == Times(before, atRisk - observed)
  {
    if observed != 0 {
      TimesIsProduct(NextSurvival(before, atRisk, observed), atRisk);
      TimesIsProduct(before, atRisk - observed);
      FactorValue(before, NextSurvival(before, atRisk, observed), atRisk, observed);
    }
  }

  /** A band around the estimate, `z` standard errors wide to either side and kept inside [0, 1]. */
  function LowerBound(survival: real, spread: real, z: real): real { Max(0.0, survival - z * (survival * spread)) }

  function UpperBound(survival: real, spread: real, z: real): real { Min(1.0, survival + z * (survival * spread)) }

  method Band(survival: real, spread: real, z: real) returns (lower: real, upper: real)
    requires 0.0 <= survival <= 1.0 && spread >= 0.0 && z >= 0.0
    ensures 0.0 <= lower <= survival <= upper <= 1.0
    ensures lower == LowerBound(survival, spread, z) && upper == UpperBound(survival, spread, z)
  {
    Products(survival, spread, z);
    var margin := z * (survival * spread);
    lower, upper := Max(0.0, survival - margin), Min(1.0, survival + margin);
  }

  function Term(atRisk: nat, observed: nat): real {
    var n := atRisk as real * (atRisk - observed) as real;
    if observed == 0 || atRisk <= observed || n == 0.0 then 0.0 else observed as real / n
  }

  /** Greenwood's sum over the rows: events over those at risk, before and after. */
  function Greenwood(rows: seq<Row>): real {
    if rows == [] then 0.0
    else Greenwood(rows[..|rows| - 1]) + Term(rows[|rows| - 1].atRisk, rows[|rows| - 1].events)
  }

  /** The band of every row comes from the sum over the rows so far. */
  ghost predicate Banded(rows: seq<Row>, z: real, root: real -> real) {
    rows == []
    || (var r, spread := rows[|rows| - 1], root(Max(Greenwood(rows), 0.0));
        && Banded(rows[..|rows| - 1], z, root)
        && r.lower == LowerBound(r.survival, spread, z) && r.upper == UpperBound(r.survival, spread, z))
  }

  /** One time of the table.  `z` is the normal quantile and `root` a square root. */
  method RowAt(d: seq<real>, e: seq<bool>, time: real, before: real, variance: real, z: real, root: real -> real, ghost gone: nat)
    returns (row: Row, survival: real, greenwood: real)
    requires |e| == |d| && z >= 0.0 && forall x :: root(x) >= 0.0
    requires Occurs(d, |d|, time)
    requires Carried(d, before, Count(AtLeast(d, time)), gone)
    requires Count(EventsUpTo(d, e, time)) == gone + Count(EventsAt(d, e, time))
    ensures row.time == time && RowOk(d, e, row) && row.survival == survival <= before
    ensures row.events <= row.atRisk && Times(survival, row.atRisk) == Times(before, row.atRisk - row.events)
    ensures Carried(d, survival, Count(Beyond(d, time)), Count(EventsUpTo(d, e, time)))
    ensures greenwood == variance + Term(row.atRisk, row.events)
    ensures row.lower == LowerBound(survival, root(Max(greenwood, 0.0)), z)
    ensures row.upper == UpperBound(survival, root(Max(greenwood, 0.0)), z)
  {
    var atRisk := Count(AtLeast(d, time));
    var observed := Count(EventsAt(d, e, time));
    var censored := Count(CensoredAt(d, e, time));
    NextCarried(d, e, time, before, gone);
    survival := NextSurvival(before, atRisk, observed);
    greenwood := variance + Term(atRisk, observed);
    var lower, upper := Band(survival, root(Max(greenwood, 0.0)), z);
    row := Row(time, atRisk, observed, censored, survival, lower, upper);
  }

  lemma BandGrows(rows: seq<Row>, row: Row, z: real, root: real -> real, greenwood: real)
    requires Banded(rows, z, root) && greenwood == Greenwood(rows) + Term(row.atRisk, row.events)
    requires row.lower == LowerBound(row.survival, root(Max(greenwood, 0.0)), z)
    requires row.upper == UpperBound(row.survival, root(Max(greenwood, 0.0)), z)
    ensures Banded(rows + [row], z, root) && Greenwood(rows + [row]) == greenwood
  {
    assert (rows + [row])[..|rows|] == rows;
  }

  lemma TableGrows(d: seq<real>, e: seq<bool>, times: seq<real>, rows: seq<Row>, row: Row)
    requires |e| == |d| && TableOk(d, e, times, rows) && |rows| < |times|
    requires row.time == times[|rows|] && RowOk(d, e, row)
    requires if rows == [] then Begins(row) else Follows(rows[|rows| - 1], row)
    ensures TableOk(d, e, times, rows + [row])
  {
  }

  /** `kaplan_meier`. */
  method KaplanMeier(d: seq<real>, e: seq<bool>, z: real, root: real -> real) returns (rows: seq<Row>, ghost times: seq<real>)
    requires |e| == |d| && z >= 0.0 && forall x :: root(x) >= 0.0
    ensures Distinct(times, d) && |rows| == |times| && TableOk(d, e, times, rows) && Banded(rows, z, root)
  {
    rows := [];
    if |d| == 0 {
      times := [];
      return;
    }
    var survival, greenwood := 1.0, 0.0;
    var unique := Unique(d);
    times := unique;
    NothingYet(d, e, unique, z, root);
    for k := 0 to |unique|
      invariant Underway(d, e, unique, rows, survival, greenwood, z, root, k)
    {
      EventsAccumulate(d, e, unique, k);
      var row: Row;
      row, survival, greenwood := RowAt(d, e, unique[k], survival, greenwood, z, root, GoneBefore(d, e, unique, k));
      RowAdded(d, e, unique, rows, row, greenwood, z, root, k);
      rows := rows + [row];
    }
  }

  lemma NothingYet(d: seq<real>, e: seq<bool>, times: seq<real>, z: real, root: real -> real)
    requires |e| == |d| && d != [] && Distinct(times, d)
    ensures Underway(d, e, times, [], 1.0, 0.0, z, root, 0)
  {
    Ends(d, times);
    TimesOne(|d|);
  }

  /** Where the loop stands after `k` times. */
  ghost predicate Underway(d: seq<real>, e: seq<bool>, times: seq<real>, rows: seq<Row>, survival: real, greenwood: real,
                           z: real, root: real -> real, k: nat)
    requires |e| == |d|
  {
    && |rows| == k && TableOk(d, e, times, rows) && Banded(rows, z, root) && greenwood == Greenwood(rows)
    && survival == (if k == 0 then 1.0 else rows[k - 1].survival)
    && ReadyFor(d, e, times, survival, k)
  }

  lemma RowAdded(d: seq<real>, e: seq<bool>, times: seq<real>, rows: seq<Row>, row: Row, greenwood: real,
                 z: real, root: real -> real, k: nat)
    requires |e| == |d| && Distinct(times, d) && k < |times| && row.time == times[k] && RowOk(d, e, row)
    requires |rows| == k && TableOk(d, e, times, rows) && Banded(rows, z, root)
    requires greenwood == Greenwood(rows) + Term(row.atRisk, row.events)
    requires row.lower == LowerBound(row.survival, root(Max(greenwood, 0.0)), z)
    requires row.upper == UpperBound(row.survival, root(Max(greenwood, 0.0)), z)
    requires var before := if k == 0 then 1.0 else rows[k - 1].survival;
             row.survival <= before && row.events <= row.atRisk
             && Times(row.survival, row.atRisk) == Times(before, row.atRisk - row.events)
    requires Carried(d, row.survival, Count(Beyond(d, times[k])), Count(EventsUpTo(d, e, times[k])))
    ensures Underway(d, e, times, rows + [row], row.survival, greenwood, z, root, k + 1)
  {
    TimesOne(row.atRisk - row.events);
    TableGrows(d, e, times, rows, row);
    BandGrows(rows, row, z, root, greenwood);
    StaysReady(d, e, times, row.survival, k);
  }

  /** The estimate carried up to the time with index `k`. */
  ghost predicate ReadyFor(d: seq<real>, e: seq<bool>, times: seq<real>, survival: real, k: nat)
    requires |e| == |d|
  {
    k < |times| ==> Carried(d, survival, Count(AtLeast(d, times[k])), GoneBefore(d, e, times, k))
  }

  lemma StaysReady(d: seq<real>, e: seq<bool>, times: seq<real>, survival: real, k: nat)
    requires |e| == |d| && Distinct(times, d) && k < |times|
    requires Carried(d, survival, Count(Beyond(d, times[k])), Count(EventsUpTo(d, e, times[k])))
    ensures ReadyFor(d, e, times, survival, k + 1)
  {
    if k + 1 < |times| {
      NextAtRisk(d, times, k);
    }
  }

  ghost function GoneBefore(d: seq<real>, e: seq<bool>, times: seq<real>, k: nat): nat
    requires |e| == |d| && k <= |times|
  {
    if k == 0 then 0 else Count(EventsUpTo(d, e, times[k - 1]))
  }

  lemma Products(a: real, b: real, c: real)
    requires a >= 0.0 && b >= 0.0 && c >= 0.0
    ensures c * (a * b) >= 0.0
  {
    assert a * b >= 0.0;
  }

  lemma FactorValue(before: real, after: real, atRisk: nat, observed: nat)
    requires 0 < atRisk && observed <= atRisk
    requires after == if observed != 0 then before * (1.0 - observed as real / atRisk as real) else before
    ensures after * atRisk as real == before * (atRisk - observed) as real
    ensures after == before * (1.0 - observed as real / atRisk as real)
  {
    var r, o := atRisk as real, observed as real;
    var f := o / r;
    assert f * r == o;
  }

  // ---- consequences -----------------------------------------------------------------

  /** From one row to the next exactly those leave who had their event or were censored. */
  lemma RiskDrops(d: seq<real>, e: seq<bool>, times: seq<real>, rows: seq<Row>, k: nat)
    requires |e| == |d| && d != [] && Distinct(times, d) && |rows| == |times| && TableOk(d, e, times, rows) && k < |rows|
    ensures rows[0].atRisk == |d|
    ensures k + 1 < |rows| ==> rows[k + 1].atRisk == rows[k].atRisk - rows[k].events - rows[k].censored
    ensures k + 1 == |rows| ==> rows[k].atRisk == rows[k].events + rows[k].censored
  {
    Ends(d, times);
    RiskSplits(d, e, times[k]);
    if k + 1 < |rows| {
      NextAtRisk(d, times, k);
    }
  }

  lemma TimesIsFraction(x: real, n: nat, c: real)
    requires n > 0 && Times(x, n) == c
    ensures x == c / n as real
  {
    TimesIsProduct(x, n);
    QuotientIs(x, n as real, c);
  }

  lemma QuotientIs(x: real, n: real, c: real)
    requires n > 0.0 && x * n == c
    ensures x == c / n
  {
  }

  /** With nothing censored the estimate is the empirical survival function. */
  lemma UncensoredIsEmpirical(d: seq<real>, e: seq<bool>, times: seq<real>, rows: seq<Row>, k: nat)
    requires |e| == |d| && Distinct(times, d) && |rows| == |times| && TableOk(d, e, times, rows) && k < |rows|
    requires forall i | 0 <= i < |e| :: e[i]
    ensures Times(rows[k].survival, |d|) == Count(Beyond(d, times[k])) as real
  {
    var all := seq(|d|, i => true);
    CountAll(all);
    CountAdds(all, EventsUpTo(d, e, times[k]), Beyond(d, times[k]));
  }

  /** ... which is the fraction of all whose time lies beyond it. */
  lemma UncensoredIsFraction(d: seq<real>, e: seq<bool>, times: seq<real>, rows: seq<Row>, k: nat)
    requires |e| == |d| && Distinct(times, d) && |rows| == |times| && TableOk(d, e, times, rows) && k < |rows|
    requires d != [] && forall i | 0 <= i < |e| :: e[i]
    ensures rows[k].survival == Count(Beyond(d, times[k])) as real / |d| as real
  {
    UncensoredIsEmpirical(d, e, times, rows, k);
    TimesIsFraction(rows[k].survival, |d|, Count(Beyond(d, times[k])) as real);
  }
}
