/** Benjamini-Hochberg adjusted p-values: the reverse running minimum over the sorted list, and
    what it means without any sorting. */
module FalseDiscovery {
  import opened Reals

  datatype Value = Finite(value: real) | NonFinite

  // ---- the meaning ------------------------------------------------------------------

  /** The given value forced into [0, 1]; anything not finite counts as 1. */
  function Clean(v: Value): real {
    match v
    case NonFinite => 1.0
    case Finite(x) => if x < 0.0 then 0.0 else if x > 1.0 then 1.0 else x
  }

  predicate Probabilities(p: seq<real>) { forall i | 0 <= i < |p| :: 0.0 <= p[i] <= 1.0 }

  /** Positions whose value is at most `t`, and how many there are. */
  function AtMost(p: seq<real>, t: real): set<int> { set i | 0 <= i < |p| && p[i] <= t }

  function Count(p: seq<real>, t: real): nat { |AtMost(p, t)| }

  function Ratio(value: real, total: nat, rank: nat): real
    requires rank > 0
  {
    value * total as real / rank as real
  }

  /** The bound that value `p[j]` puts on the adjusted value of everything not above it. */
  function Bound(p: seq<real>, j: int): real
    requires 0 <= j < |p|
  {
    Own(p, j);
    Ratio(p[j], |p|, Count(p, p[j]))
  }

  lemma Own(p: seq<real>, j: int)
    requires 0 <= j < |p|
    ensures 1 <= Count(p, p[j]) <= |p|
  {
    assert j in AtMost(p, p[j]);
    Range(AtMost(p, p[j]), |p|);
  }

  lemma {:induction false} Range(s: set<int>, n: nat)
    requires forall x | x in s :: 0 <= x < n
    ensures |s| <= n
    decreases n
  {
    if n > 0 {
      Range(s - {n - 1}, n - 1);
    } else {
      assert forall x :: x !in s;
    }
  }

  /** `x` is the adjusted value at position `i`: the least of 1 and the bounds of all values not
      below `p[i]`. */
  ghost predicate Adjusted(p: seq<real>, i: int, x: real)
    requires 0 <= i < |p|
  {
    && x <= 1.0 && (forall j | 0 <= j < |p| && p[j] >= p[i] :: x <= Bound(p, j))
    && (x == 1.0 || exists j :: 0 <= j < |p| && p[j] >= p[i] && x == Bound(p, j))
  }

  ghost predicate AllAdjusted(p: seq<real>, q: seq<real>) {
    |q| == |p| && forall i | 0 <= i < |p| :: Adjusted(p, i, q[i])
  }

  // ---- consequences -----------------------------------------------------------------

  /** Largest rank whose order statistic passes its threshold; 0 if none does. */
  function LargestPassing(s: seq<real>, alpha: real, k: nat): (r: nat)
    requires k <= |s|
    ensures r <= k
  {
    if k == 0 then 0
    else if Passes(s, alpha, k) then k
    else LargestPassing(s, alpha, k - 1)
  }

  predicate Ascending(s: seq<real>) { forall i, j | 0 <= i < j < |s| :: s[i] <= s[j] }

  /** A rearrangement of the positions below `n`. */
  ghost predicate Permutation(f: seq<int>, n: nat) {
    && |f| == n && (forall k | 0 <= k < n :: 0 <= f[k] < n)
    && (forall i, j | 0 <= i < j < n :: f[i] != f[j])
    && (forall i | 0 <= i < n :: i in f)
  }

  /** The order statistics of `p`: its values in ascending order, through a permutation. */
  ghost predicate Sorts(p: seq<real>, order: seq<int>, s: seq<real>) {
    && |p| == |s| && Ascending(s) && Permutation(order, |p|)
    && forall k | 0 <= k < |p| :: s[k] == p[order[k]]
  }

  lemma Place(f: seq<int>, i: int) returns (k: nat)
    requires i in f
    ensures k < |f| && f[k] == i
  {
    var r :| 0 <= r < |f| && f[r] == i;
    k := r;
  }

  /** The bound rank `r` puts on everything of lower rank. */
  function RankBound(s: seq<real>, r: int): real
    requires 0 <= r < |s|
  {
    Ratio(s[r], |s|, r + 1)
  }

  predicate Passes(s: seq<real>, alpha: real, k: int)
    requires 0 < k <= |s|
  {
    s[k - 1] * |s| as real <= alpha * k as real
  }

  /** The first `k` positions of an order. */
  function First(order: seq<int>, k: nat): set<int>
    requires k <= |order|
  {
    set i | 0 <= i < k :: order[i]
  }

  lemma {:induction false} PrefixSize(order: seq<int>, k: nat)
    requires k <= |order| && forall i, j | 0 <= i < j < |order| :: order[i] != order[j]
    ensures |First(order, k)| == k
  {
    if k > 0 {
      PrefixSize(order, k - 1);
      assert First(order, k) == First(order, k - 1) + {order[k - 1]};
    }
  }

  /** Exactly the first `Count(p, t)` order statistics are at most `t`. */
  lemma CountSplits(p: seq<real>, order: seq<int>, s: seq<real>, t: real)
    requires Sorts(p, order, s)
    ensures Count(p, t) <= |s|
    ensures forall k | 0 <= k < |s| :: s[k] <= t <==> k < Count(p, t)
  {
    var k := 0;
    while k < |s| && s[k] <= t
      invariant 0 <= k <= |s| && forall i | 0 <= i < k :: s[i] <= t
    {
      k := k + 1;
    }
    PrefixSize(order, k);
    var first := First(order, k);
    forall i ensures i in first <==> i in AtMost(p, t) {
      if i in AtMost(p, t) {
        var r := Place(order, i);
      }
    }
    assert first == AtMost(p, t);
  }

  /** The last order statistic of a tie has its value. */
  lemma LastOfTie(p: seq<real>, order: seq<int>, s: seq<real>, j: int)
    requires Sorts(p, order, s) && 0 <= j < |p|
    ensures 1 <= Count(p, p[j]) <= |p| && s[Count(p, p[j]) - 1] == p[j]
  {
    Own(p, j);
    CountSplits(p, order, s, p[j]);
    var r := Place(order, j);
  }

  lemma LargestPassingIsLargest(s: seq<real>, alpha: real, k: nat)
    requires k <= |s|
    ensures var r := LargestPassing(s, alpha, k);
            && (r > 0 ==> Passes(s, alpha, r))
            && forall i | r < i <= k :: !Passes(s, alpha, i)
  {
  }

  /** The adjusted value is at most `alpha` exactly for the step-up rejections: the values up to
      the order statistic of the largest passing rank. */
  lemma StepUp(p: seq<real>, order: seq<int>, s: seq<real>, alpha: real, i: int, x: real)
    requires Probabilities(p) && Sorts(p, order, s) && 0 <= i < |p| && alpha < 1.0 && Adjusted(p, i, x)
    ensures var r := LargestPassing(s, alpha, |s|);
            x <= alpha <==> r > 0 && p[i] <= s[r - 1]
  {
    var r := LargestPassing(s, alpha, |s|);
    LargestPassingIsLargest(s, alpha, |s|);
    if x <= alpha {
      var j :| 0 <= j < |p| && p[j] >= p[i] && x == Bound(p, j);
      var k := BoundPasses(p, order, s, alpha, j);
      assert s[k - 1] <= s[r - 1];
    }
    if r > 0 && p[i] <= s[r - 1] {
      var j := order[r - 1];
      PassBounds(p, order, s, alpha, r);
      assert x <= Bound(p, j);
    }
  }

  lemma BoundPasses(p: seq<real>, order: seq<int>, s: seq<real>, alpha: real, j: int) returns (k: nat)
    requires Sorts(p, order, s) && 0 <= j < |p| && Bound(p, j) <= alpha
    ensures 0 < k <= |s| && Passes(s, alpha, k) && s[k - 1] == p[j]
  {
    LastOfTie(p, order, s, j);
    k := Count(p, p[j]);
    QuotientAtMost(p[j] * |p| as real, k as real, alpha);
  }

  lemma PassBounds(p: seq<real>, order: seq<int>, s: seq<real>, alpha: real, r: nat)
    requires Probabilities(p) && Sorts(p, order, s) && 0 < r <= |s| && Passes(s, alpha, r)
    ensures Bound(p, order[r - 1]) <= alpha
  {
    var j := order[r - 1];
    CountSplits(p, order, s, p[j]);
    Own(p, j);
    var k := Count(p, p[j]);
    PassesFurther(p[j], |p| as real, alpha, r, k);
    QuotientAtMost(p[j] * |p| as real, k as real, alpha);
  }

  lemma PassesFurther(t: real, m: real, alpha: real, r: nat, k: nat)
    requires 0.0 <= t && 0.0 <= m && 0 < r <= k && t * m <= alpha * r as real
    ensures t * m <= alpha * k as real
  {
    assert t * m >= 0.0;
    Signs(alpha, r as real);
    var more := (k - r) as real;
    assert alpha * more >= 0.0;
    assert alpha * k as real == alpha * r as real + alpha * more;
  }

  /** Step-up rejection of a value, without ranks: some value not below it is at most its share of
      `alpha`, which is how many values do not exceed it, of all. */
  ghost predicate Rejects(p: seq<real>, value: real, alpha: real) {
    exists j :: 0 <= j < |p| && value <= p[j] && p[j] * |p| as real <= alpha * Count(p, p[j]) as real
  }

  lemma BoundWithin(p: seq<real>, j: int, alpha: real)
    requires 0 <= j < |p|
    ensures Bound(p, j) <= alpha <==> p[j] * |p| as real <= alpha * Count(p, p[j]) as real
  {
    Own(p, j);
    QuotientAtMost(p[j] * |p| as real, Count(p, p[j]) as real, alpha);
  }

  lemma NothingKept(p: seq<real>, i: int, alpha: real)
    requires Probabilities(p) && 0 <= i < |p| && alpha >= 1.0
    ensures Rejects(p, p[i], alpha)
  {
    var j := GreatestAt(p);
    CountAll(p, p[j]);
    AtMostWhole(p[j], alpha, |p| as real);
  }

  /** The adjusted value is at most `alpha` exactly for these. */
  lemma RejectsExactly(p: seq<real>, i: int, x: real, alpha: real)
    requires Probabilities(p) && 0 <= i < |p| && Adjusted(p, i, x)
    ensures x <= alpha <==> Rejects(p, p[i], alpha)
  {
    if alpha >= 1.0 {
      NothingKept(p, i, alpha);
    } else {
      forall j | 0 <= j < |p| ensures Bound(p, j) <= alpha <==> p[j] * |p| as real <= alpha * Count(p, p[j]) as real {
        BoundWithin(p, j, alpha);
      }
    }
  }

  lemma {:induction false} CountAll(p: seq<real>, t: real)
    requires forall i | 0 <= i < |p| :: p[i] <= t
    ensures Count(p, t) == |p|
  {
    if p == [] {
      assert AtMost(p, t) == {};
    } else {
      var n := |p| - 1;
      CountAll(p[..n], t);
      assert AtMost(p, t) == AtMost(p[..n], t) + {n};
    }
  }

  lemma AtMostWhole(t: real, alpha: real, m: real)
    requires t <= 1.0 <= alpha && 0.0 <= m
    ensures t * m <= alpha * m
  {
    assert (alpha - t) * m >= 0.0;
  }

  lemma {:induction false} GreatestAt(p: seq<real>) returns (j: nat)
    requires p != []
    ensures j < |p| && forall i | 0 <= i < |p| :: p[i] <= p[j]
  {
    j := |p| - 1;
    if |p| > 1 {
      var k := GreatestAt(p[..|p| - 1]);
      if p[k] > p[j] {
        j := k;
      }
    }
  }

  lemma AdjustedIsUnique(p: seq<real>, i: int, x: real, y: real)
    requires 0 <= i < |p| && Adjusted(p, i, x) && Adjusted(p, i, y)
    ensures x == y
  {
  }

  /** The least of 1 and the bounds of the first `k` values that are not below `p[i]`. */
  function LeastBound(p: seq<real>, i: int, k: nat): real
    requires 0 <= i < |p| && k <= |p|
  {
    if k == 0 then 1.0
    else if p[k - 1] >= p[i] then Min(LeastBound(p, i, k - 1), Bound(p, k - 1))
    else LeastBound(p, i, k - 1)
  }

  lemma {:induction false} LeastBoundIsLeast(p: seq<real>, i: int, k: nat)
    requires 0 <= i < |p| && k <= |p|
    ensures var x := LeastBound(p, i, k);
            && x <= 1.0 && (forall j | 0 <= j < k && p[j] >= p[i] :: x <= Bound(p, j))
            && (x == 1.0 || exists j :: 0 <= j < k && p[j] >= p[i] && x == Bound(p, j))
  {
    if k > 0 {
      LeastBoundIsLeast(p, i, k - 1);
    }
  }

  /** The adjusted value as a function. */
  function AdjustedValue(p: seq<real>, i: int): (x: real)
    requires 0 <= i < |p|
    ensures Adjusted(p, i, x)
  {
    LeastBoundIsLeast(p, i, |p|);
    LeastBound(p, i, |p|)
  }

  /** Larger values are adjusted to larger values, and ties to the same value. */
  lemma AdjustedIsMonotone(p: seq<real>, q: seq<real>, i: int, j: int)
    requires AllAdjusted(p, q) && 0 <= i < |p| && 0 <= j < |p| && p[i] <= p[j]
    ensures q[i] <= q[j]
    ensures p[i] == p[j] ==> q[i] == q[j]
  {
    assert Adjusted(p, i, q[i]) && Adjusted(p, j, q[j]);
  }

  /** Rearranging the values rearranges the adjusted values. */
  lemma AdjustedFollowsPermutation(p: seq<real>, q: seq<real>, p': seq<real>, q': seq<real>, f: seq<int>)
    requires AllAdjusted(p, q) && AllAdjusted(p', q')
    requires |p'| == |p| && Permutation(f, |p|) && forall k | 0 <= k < |f| :: p'[k] == p[f[k]]
    ensures forall k | 0 <= k < |f| :: q'[k] == q[f[k]]
  {
    forall k | 0 <= k < |f| ensures q'[k] == q[f[k]] {
      forall j | 0 <= j < |f| ensures Bound(p', j) == Bound(p, f[j]) {
        SameCount(p, p', f, p'[j]);
        assert p'[j] == p[f[j]] && Count(p', p'[j]) == Count(p, p[f[j]]);
      }
      assert Adjusted(p', k, q'[k]) && Adjusted(p, f[k], q[f[k]]);
      forall j | 0 <= j < |p| && p[j] >= p[f[k]] ensures q'[k] <= Bound(p, j) {
        var r := Place(f, j);
        assert q'[k] <= Bound(p', r);
      }
      assert Adjusted(p, f[k], q'[k]);
      AdjustedIsUnique(p, f[k], q'[k], q[f[k]]);
    }
  }

  lemma SameCount(p: seq<real>, p': seq<real>, f: seq<int>, t: real)
    requires |p'| == |p| && Permutation(f, |p|) && forall k | 0 <= k < |f| :: p'[k] == p[f[k]]
    ensures Count(p', t) == Count(p, t)
  {
    ImageSize(f, AtMost(p', t), |f|);
    var image := Image(f, AtMost(p', t));
    forall i | i in AtMost(p, t) ensures i in image {
      var k := Place(f, i);
      assert k in AtMost(p', t);
    }
    assert image == AtMost(p, t);
  }

  function Image(f: seq<int>, s: set<int>): set<int>
    requires forall k | k in s :: 0 <= k < |f|
  {
    set k | k in s :: f[k]
  }

  lemma {:induction false} ImageSize(f: seq<int>, s: set<int>, n: nat)
    requires n <= |f| && forall k | k in s :: 0 <= k < n
    requires forall i, j | 0 <= i < j < |f| :: f[i] != f[j]
    ensures |Image(f, s)| == |s|
  {
    if n > 0 {
      ImageSize(f, s - {n - 1}, n - 1);
      if n - 1 in s {
        assert Image(f, s) == Image(f, s - {n - 1}) + {f[n - 1]};
      } else {
        assert s - {n - 1} == s;
      }
    } else {
      assert forall k :: k !in s;
    }
  }

  // ---- the algorithm ----------------------------------------------------------------

  /** Position `a` comes before position `b`: by value, equal values by position. */
  predicate Precedes(p: seq<real>, a: int, b: int)
    requires 0 <= a < |p| && 0 <= b < |p|
  {
    p[a] < p[b] || (p[a] == p[b] && a < b)
  }

  ghost predicate OrderedPositions(p: seq<real>, order: seq<int>, n: nat) {
    && n <= |p| && Permutation(order, n)
    && forall i, j | 0 <= i < j < |order| :: Precedes(p, order[i], order[j])
  }

  method SortPositions(p: seq<real>) returns (order: seq<int>)
    ensures OrderedPositions(p, order, |p|)
  {
    order := [];
    for i := 0 to |p|
      invariant OrderedPositions(p, order, i)
    {
      var k := |order|;
      while k > 0 && p[order[k - 1]] > p[i]
        invariant 0 <= k <= |order| && forall j | k <= j < |order| :: p[order[j]] > p[i]
      {
        k := k - 1;
      }
      Inserted(p, order, k, i);
      order := order[..k] + [i] + order[k..];
    }
  }

  lemma InsertedAt(before: seq<int>, k: nat, i: int, j: nat)
    requires k <= |before| && j <= |before|
    ensures (before[..k] + [i] + before[k..])[j] == if j < k then before[j] else if j == k then i else before[j - 1]
  {
  }

  lemma InsertedPermutes(before: seq<int>, k: nat, i: nat)
    requires Permutation(before, i) && k <= i
    ensures Permutation(before[..k] + [i] + before[k..], i + 1)
  {
    var order := before[..k] + [i] + before[k..];
    forall j | 0 <= j < i ensures j in order {
      var r := Place(before, j);
      InsertedAt(before, k, i, if r < k then r else r + 1);
      assert order[if r < k then r else r + 1] == j;
    }
    assert order[k] == i;
    forall j | 0 <= j < |order| ensures 0 <= order[j] < i + 1 {
      InsertedAt(before, k, i, j);
    }
    forall j, l | 0 <= j < l < |order| ensures order[j] != order[l] {
      InsertedAt(before, k, i, j);
      InsertedAt(before, k, i, l);
    }
  }

  lemma Inserted(p: seq<real>, before: seq<int>, k: nat, i: nat)
    requires i < |p| && OrderedPositions(p, before, i) && k <= i
    requires forall j | k <= j < |before| :: p[before[j]] > p[i]
    requires k > 0 ==> p[before[k - 1]] <= p[i]
    ensures OrderedPositions(p, before[..k] + [i] + before[k..], i + 1)
  {
    var order := before[..k] + [i] + before[k..];
    InsertedPermutes(before, k, i);
    forall j | 0 <= j < k ensures Precedes(p, before[j], i) {
      assert j < k - 1 ==> Precedes(p, before[j], before[k - 1]);
    }
    forall j, l | 0 <= j < l < |order| ensures Precedes(p, order[j], order[l]) {
      InsertedAt(before, k, i, j);
      InsertedAt(before, k, i, l);
    }
  }

  /** The running minimum over ranks `k + 1` and up, and 1. */
  function RunningMinimum(s: seq<real>, k: nat): real
    requires k <= |s|
    decreases |s| - k
  {
    if k == |s| then 1.0
    else
      var rest := RunningMinimum(s, k + 1);
      Min(rest, RankBound(s, k))
  }

  lemma {:induction false} RunningMinimumBounds(s: seq<real>, k: nat)
    requires k <= |s|
    ensures var x := RunningMinimum(s, k);
            && x <= 1.0 && (forall r | k <= r < |s| :: x <= RankBound(s, r))
            && (x == 1.0 || exists r :: k <= r < |s| && x == RankBound(s, r))
    decreases |s| - k
  {
    if k < |s| {
      RunningMinimumBounds(s, k + 1);
      var x, rest := RunningMinimum(s, k), RunningMinimum(s, k + 1);
      if x != 1.0 && x == rest {
        var r :| k + 1 <= r < |s| && rest == RankBound(s, r);
        assert k <= r < |s| && x == RankBound(s, r);
      }
    }
  }

  /** The bound of a rank is never below the values up to it. */
  lemma RankBoundAbove(s: seq<real>, k: nat, r: nat)
    requires k <= r < |s| && Ascending(s) && Probabilities(s)
    ensures s[k] <= RankBound(s, r)
  {
    var x, n, m := s[r], (r + 1) as real, |s| as real;
    assert s[k] <= x && 0.0 <= x && 0.0 <= m - n;
    assert x * (m - n) >= 0.0;
    AtMostQuotient(x, x * m, n);
  }

  /** The running minimum is never below the value itself: the clamp changes nothing. */
  lemma ClampIsIdle(s: seq<real>, k: nat)
    requires k < |s| && Ascending(s) && Probabilities(s)
    ensures s[k] <= RunningMinimum(s, k) <= 1.0
  {
    RunningMinimumBounds(s, k);
    var x := RunningMinimum(s, k);
    if x != 1.0 {
      var r :| k <= r < |s| && x == RankBound(s, r);
      RankBoundAbove(s, k, r);
    }
  }

  /** A later rank of the same value bounds at least as tightly. */
  lemma LaterRankTighter(s: seq<real>, r: nat, n: nat)
    requires r <= n < |s| && s[r] == s[n] >= 0.0
    ensures RankBound(s, n) <= RankBound(s, r)
  {
    var a, b, t := (r + 1) as real, (n + 1) as real, s[r] * |s| as real;
    var x := RankBound(s, r);
    assert x * a == t;
    Signs(x, a);
    assert x * (b - a) >= 0.0;
    QuotientAtMost(t, b, x);
  }

  /** The running minimum at the rank of position `i` is its adjusted value. */
  lemma RunningMinimumAdjusts(p: seq<real>, order: seq<int>, s: seq<real>, k: nat)
    requires Probabilities(p) && Sorts(p, order, s) && k < |s|
    ensures Adjusted(p, order[k], RunningMinimum(s, k))
  {
    var x, i := RunningMinimum(s, k), order[k];
    RunningMinimumBounds(s, k);
    forall j | 0 <= j < |p| && p[j] >= p[i] ensures x <= Bound(p, j) {
      var r := BoundAtLastOfTie(p, order, s, j);
      CountSplits(p, order, s, p[j]);
      assert k <= r;
    }
    if x != 1.0 {
      var r :| k <= r < |s| && x == RankBound(s, r);
      var j := order[r];
      var n := BoundAtLastOfTie(p, order, s, j);
      CountSplits(p, order, s, p[j]);
      LaterRankTighter(s, r, n);
      assert p[j] >= p[i];
      assert Bound(p, j) == x;
    }
  }

  lemma BoundAtLastOfTie(p: seq<real>, order: seq<int>, s: seq<real>, j: int) returns (r: nat)
    requires Sorts(p, order, s) && 0 <= j < |p|
    ensures r == Count(p, p[j]) - 1 < |s| && s[r] == p[j] && Bound(p, j) == RankBound(s, r)
  {
    LastOfTie(p, order, s, j);
    r := Count(p, p[j]) - 1;
  }

  lemma OrderSorts(p: seq<real>, order: seq<int>) returns (s: seq<real>)
    requires OrderedPositions(p, order, |p|)
    ensures Sorts(p, order, s)
  {
    s := seq(|p|, k requires 0 <= k < |p| => p[order[k]]);
    forall i, j | 0 <= i < j < |s| ensures s[i] <= s[j] {
      assert Precedes(p, order[i], order[j]);
    }
  }

  function CleanAll(values: seq<Value>): (p: seq<real>)
    ensures |p| == |values| && Probabilities(p)
  {
    seq(|values|, i requires 0 <= i < |values| => Clean(values[i]))
  }

  /** One step of the sweep: the new running minimum and the clamped value, which are the same. */
  method SweepStep(ghost s: seq<real>, rank: nat, value: real, count: nat, running: real) returns (next: real, clamped: real)
    requires 0 < rank <= |s| == count && Ascending(s) && Probabilities(s)
    requires value == s[rank - 1] && running == RunningMinimum(s, rank)
    ensures next == clamped == RunningMinimum(s, rank - 1)
  {
    ClampIsIdle(s, rank - 1);
    next := Min(running, Ratio(value, count, rank));
    clamped := Min(Max(next, value), 1.0);
  }

  /** `order` lists positions by rank and `rankOf` is its inverse. */
  ghost predicate Ranks(order: seq<int>, rankOf: seq<int>, n: nat) {
    && |order| == |rankOf| == n
    && (forall k | 0 <= k < n :: 0 <= order[k] < n && rankOf[order[k]] == k)
    && (forall i | 0 <= i < n :: 0 <= rankOf[i] < n && order[rankOf[i]] == i)
  }

  /** Positions of rank `k + 1` and up have their adjusted values. */
  ghost predicate Swept(s: seq<real>, rankOf: seq<int>, a: seq<real>, k: int) {
    && |rankOf| == |a| == |s|
    && forall i | 0 <= i < |s| && k <= rankOf[i] <= |s| && 0 <= rankOf[i] :: a[i] == RunningMinimum(s, rankOf[i])
  }

  lemma SweptOneMore(s: seq<real>, order: seq<int>, rankOf: seq<int>, a: seq<real>, k: nat, x: real)
    requires Ranks(order, rankOf, |s|) && k < |s| && Swept(s, rankOf, a, k + 1) && x == RunningMinimum(s, k)
    ensures Swept(s, rankOf, a[order[k] := x], k)
  {
  }

  /** The reverse sweep: from the largest value down, in place. */
  method Sweep(cleaned: seq<real>, order: seq<int>, ghost s: seq<real>, ghost rankOf: seq<int>, adjusted: array<real>)
    requires |s| == |cleaned| == adjusted.Length && Ascending(s) && Probabilities(s) && Ranks(order, rankOf, |s|)
    requires forall k | 0 <= k < |s| :: s[k] == cleaned[order[k]]
    modifies adjusted
    ensures Swept(s, rankOf, adjusted[..], 0)
  {
    var count := |cleaned|;
    var running := 1.0;
    for reverseRank := 1 to count + 1
      invariant running == RunningMinimum(s, count - reverseRank + 1)
      invariant Swept(s, rankOf, adjusted[..], count - reverseRank + 1)
    {
      var rank := count - reverseRank + 1;
      var index := order[rank - 1];
      var clamped: real;
      running, clamped := SweepStep(s, rank, cleaned[index], count, running);
      SweptOneMore(s, order, rankOf, adjusted[..], rank - 1, clamped);
      adjusted[index] := clamped;
    }
  }

  lemma Inverse(order: seq<int>, n: nat) returns (rankOf: seq<int>)
    requires Permutation(order, n)
    ensures Ranks(order, rankOf, n)
  {
    rankOf := [];
    while |rankOf| < n
      invariant |rankOf| <= n && forall i | 0 <= i < |rankOf| :: 0 <= rankOf[i] < n && order[rankOf[i]] == i
    {
      var k := Place(order, |rankOf|);
      rankOf := rankOf + [k];
    }
  }

  /** `benjamini_hochberg`: every result is the adjusted value of its position. */
  method BenjaminiHochberg(values: seq<Value>) returns (q: seq<real>)
    ensures AllAdjusted(CleanAll(values), q)
  {
    var count := |values|;
    var cleaned := CleanAll(values);
    if count == 0 {
      return [];
    }
    var order := SortPositions(cleaned);
    ghost var s := OrderSorts(cleaned, order);
    ghost var rankOf := Inverse(order, count);
    var adjusted := new real[count](_ => 1.0);
    Sweep(cleaned, order, s, rankOf, adjusted);
    q := adjusted[..];
    forall i | 0 <= i < count ensures Adjusted(cleaned, i, q[i]) {
      RunningMinimumAdjusts(cleaned, order, s, rankOf[i]);
    }
  }
}
