/** Greedy nearest-neighbour matching of treated to control units within a caliper. */
module Matching {
  import opened Reals

  type Unit = nat

  datatype Study = Study(scores: seq<real>, logit: seq<real>, exposed: seq<bool>, maximumDistance: real)

  predicate Valid(d: Study) { |d.scores| == |d.logit| == |d.exposed| }

  predicate Treated(d: Study, i: Unit) { 0 <= i < |d.exposed| && d.exposed[i] }

  predicate Control(d: Study, i: Unit) { 0 <= i < |d.exposed| && !d.exposed[i] }

  function Distance(d: Study, i: Unit, j: Unit): real
    requires 0 <= i < |d.logit| && 0 <= j < |d.logit|
  {
    Abs(d.logit[i] - d.logit[j])
  }

  predicate Within(d: Study, i: Unit, j: Unit)
    requires 0 <= i < |d.logit| && 0 <= j < |d.logit|
  {
    Distance(d, i, j) <= d.maximumDistance
  }

  /** `c` comes before `e` among candidates for `i`: nearer, or as near and with smaller index. */
  predicate Preferred(d: Study, i: Unit, c: Unit, e: Unit)
    requires 0 <= i < |d.logit| && 0 <= c < |d.logit| && 0 <= e < |d.logit|
  {
    Distance(d, i, c) < Distance(d, i, e) || (Distance(d, i, c) == Distance(d, i, e) && c <= e)
  }

  // ---- what a matching is -----------------------------------------------------------

  /** Disjoint pairs of a treated and a control unit within the caliper. */
  ghost predicate IsMatching(d: Study, m: map<Unit, Unit>) {
    && Valid(d)
    && (forall i | i in m :: Treated(d, i) && Control(d, m[i]) && Within(d, i, m[i]))
    && (forall i, j | i in m && j in m && i != j :: m[i] != m[j])
  }

  /** No pair could be added. */
  ghost predicate Maximal(d: Study, m: map<Unit, Unit>)
    requires Valid(d)
  {
    forall i, c | Treated(d, i) && i !in m && Control(d, c) && c !in m.Values :: !Within(d, i, c)
  }

  // ---- what greedy matching does ----------------------------------------------------

  /** Control units not given away before turn `k`. */
  function Free(d: Study, order: seq<Unit>, m: map<Unit, Unit>, k: nat): set<Unit>
    requires k <= |order|
  {
    set c | 0 <= c < |d.exposed| && !d.exposed[c] && forall j | 0 <= j < k && order[j] in m :: m[order[j]] != c
  }

  /** The turn of unit `order[k]`: the preferred free control if it lies within the caliper, no
      partner otherwise. */
  ghost predicate Turn(d: Study, order: seq<Unit>, m: map<Unit, Unit>, k: nat)
    requires Valid(d) && k < |order| && forall j | 0 <= j < |order| :: 0 <= order[j] < |d.logit|
  {
    var i := order[k];
    if i in m then
      && m[i] in Free(d, order, m, k) && Within(d, i, m[i])
      && forall c | c in Free(d, order, m, k) :: Preferred(d, i, m[i], c)
    else forall c | c in Free(d, order, m, k) :: !Within(d, i, c)
  }

  /** Unit `a` takes its turn before unit `b`. */
  predicate Sooner(d: Study, a: Unit, b: Unit)
    requires a < |d.scores| && b < |d.scores|
  {
    d.scores[a] < d.scores[b] || (d.scores[a] == d.scores[b] && a < b)
  }

  /** Treated units by score, equal scores by index. */
  ghost predicate TurnOrder(d: Study, order: seq<Unit>) {
    && Valid(d)
    && (forall k | 0 <= k < |order| :: Treated(d, order[k]))
    && (forall i | Treated(d, i) :: i in order)
    && (forall j, k | 0 <= j < k < |order| :: Sooner(d, order[j], order[k]))
  }

  ghost predicate Greedy(d: Study, order: seq<Unit>, m: map<Unit, Unit>) {
    && TurnOrder(d, order) && (forall i | i in m :: i in order)
    && forall k | 0 <= k < |order| :: Turn(d, order, m, k)
  }

  // ---- consequences -----------------------------------------------------------------

  /** Taking turns yields disjoint pairs within the caliper, and leaves no pair that could be
      added. */
  lemma GreedyIsMaximalMatching(d: Study, order: seq<Unit>, m: map<Unit, Unit>)
    requires Greedy(d, order, m)
    ensures IsMatching(d, m) && Maximal(d, m)
  {
    forall i | i in m ensures Treated(d, i) && Control(d, m[i]) && Within(d, i, m[i]) {
      var k :| 0 <= k < |order| && order[k] == i;
      assert Turn(d, order, m, k);
    }
    forall i, j | i in m && j in m && i != j ensures m[i] != m[j] {
      var a :| 0 <= a < |order| && order[a] == i;
      var b :| 0 <= b < |order| && order[b] == j;
      assert Turn(d, order, m, a) && Turn(d, order, m, b);
    }
    forall i, c | Treated(d, i) && i !in m && Control(d, c) && c !in m.Values ensures !Within(d, i, c) {
      var k :| 0 <= k < |order| && order[k] == i;
      assert Turn(d, order, m, k);
      forall j | 0 <= j < k && order[j] in m ensures m[order[j]] != c {
        assert m[order[j]] in m.Values;
      }
      assert c in Free(d, order, m, k);
    }
  }

  /** Two turn-takers with the same order agree pair by pair. */
  lemma {:induction false} GreedyIsDetermined(d: Study, order: seq<Unit>, m: map<Unit, Unit>, m': map<Unit, Unit>, k: nat)
    requires Greedy(d, order, m) && Greedy(d, order, m') && k <= |order|
    ensures forall j | 0 <= j < k :: (order[j] in m <==> order[j] in m') && (order[j] in m ==> m[order[j]] == m'[order[j]])
  {
    if k > 0 {
      GreedyIsDetermined(d, order, m, m', k - 1);
      assert Free(d, order, m, k - 1) == Free(d, order, m', k - 1);
      assert Turn(d, order, m, k - 1) && Turn(d, order, m', k - 1);
    }
  }

  lemma {:induction false} ValuesFewer(m: map<Unit, Unit>)
    ensures |m.Values| <= |m|
    decreases |m|
  {
    if i :| i in m {
      var rest := map j | j in m && j != i :: m[j];
      assert rest.Keys == m.Keys - {i};
      ValuesFewer(rest);
      forall v | v in m.Values ensures v in rest.Values + {m[i]} {
        var j :| j in m && m[j] == v;
        if j != i {
          assert rest[j] == v;
        }
      }
      SubsetFits(m.Values, rest.Values + {m[i]});
    } else {
      assert m.Values == {};
    }
  }

  /** Units whose partners, all different, lie in `targets` are no more than `targets`. */
  lemma {:induction false} InjectionFits(m: map<Unit, Unit>, units: set<Unit>, targets: set<Unit>)
    requires units <= m.Keys && forall i | i in units :: m[i] in targets
    requires forall i, j | i in m && j in m && i != j :: m[i] != m[j]
    ensures |units| <= |targets|
    decreases |units|
  {
    if i :| i in units {
      InjectionFits(m, units - {i}, targets - {m[i]});
      assert |units| == |units - {i}| + 1;
    }
  }

  /** Any other set of disjoint pairs within the caliper is at most twice as large. */
  lemma AtLeastHalfOfBest(d: Study, m: map<Unit, Unit>, other: map<Unit, Unit>)
    requires IsMatching(d, m) && Maximal(d, m) && IsMatching(d, other)
    ensures |other| <= 2 * |m|
  {
    var treated := set i | i in other && i in m;
    var taken := set i | i in other && other[i] in m.Values;
    assert other.Keys == treated + taken;
    assert treated <= m.Keys;
    SubsetFits(treated, m.Keys);
    InjectionFits(other, taken, m.Values);
    ValuesFewer(m);
  }

  lemma {:induction false} SubsetFits(a: set<Unit>, b: set<Unit>)
    requires a <= b
    ensures |a| <= |b|
    decreases |a|
  {
    if x :| x in a {
      SubsetFits(a - {x}, b - {x});
      assert |a| == |a - {x}| + 1;
    }
  }

  /** Two treated and two control units at 0, 2, 1 and -1 times `l`. */
  function FourUnits(l: real, reach: real): Study {
    Study([0.5, 0.8, 2.0 / 3.0, 1.0 / 3.0], [0.0, 2.0 * l, l, -l], [true, true, false, false], reach)
  }

  lemma GreedyTakesOne(l: real, reach: real)
    requires 0.0 < l <= reach < 3.0 * l
    ensures Greedy(FourUnits(l, reach), [0, 1], map[0 := 2])
    ensures IsMatching(FourUnits(l, reach), map[0 := 3, 1 := 2])
  {
    var d, order, m := FourUnits(l, reach), [0, 1], map[0 := 2];
    assert Free(d, order, m, 0) == {2, 3};
    assert Free(d, order, m, 1) == {3} by {
      assert forall c | c in Free(d, order, m, 1) :: m[order[0]] != c;
    }
    assert Distance(d, 0, 2) == l && Distance(d, 0, 3) == l && Distance(d, 1, 2) == l && Distance(d, 1, 3) == 3.0 * l;
    assert Turn(d, order, m, 0) && Turn(d, order, m, 1);
  }

  /** The law of the logarithm that makes these the logits of the scores. */
  predicate Multiplies(ln: real -> real, x: real, y: real) { x > 0.0 && y > 0.0 ==> ln(x * y) == ln(x) + ln(y) }

  function Odds(score: real): real
    requires score != 1.0
  {
    score / (1.0 - score)
  }

  lemma LogitsOfFour(ln: real -> real, reach: real)
    requires forall x: real, y: real :: Multiplies(ln, x, y)
    ensures var d := FourUnits(ln(2.0), reach);
            forall i | 0 <= i < |d.scores| :: 0.0 < d.scores[i] < 1.0 && d.logit[i] == ln(Odds(d.scores[i]))
  {
    assert Multiplies(ln, 1.0, 1.0) && Multiplies(ln, 2.0, 2.0) && Multiplies(ln, 2.0, 0.5);
    assert Odds(0.5) == 1.0 && Odds(0.8) == 4.0 && Odds(2.0 / 3.0) == 2.0 && Odds(1.0 / 3.0) == 0.5;
  }

  /** The factor two is reached: at odds of 1, 4, 2 and 1/2, for any caliper between one and three
      times the logarithm of 2, such as the standard deviation of these logits. */
  lemma HalfCanBeAllThereIs(ln: real -> real, reach: real)
    returns (d: Study, order: seq<Unit>, m: map<Unit, Unit>, best: map<Unit, Unit>)
    requires forall x: real, y: real :: Multiplies(ln, x, y)
    requires 0.0 < ln(2.0) <= reach < 3.0 * ln(2.0)
    ensures Greedy(d, order, m) && IsMatching(d, best) && |best| == 2 && |m| == 1
    ensures d.maximumDistance == reach
    ensures forall i | 0 <= i < |d.scores| :: 0.0 < d.scores[i] < 1.0 && d.logit[i] == ln(Odds(d.scores[i]))
  {
    d, order, m, best := FourUnits(ln(2.0), reach), [0, 1], map[0 := 2], map[0 := 3, 1 := 2];
    GreedyTakesOne(ln(2.0), reach);
    LogitsOfFour(ln, reach);
  }

  // ---- the algorithm ----------------------------------------------------------------

  ghost predicate SortedBelow(d: Study, order: seq<Unit>, n: nat) {
    && Valid(d) && n <= |d.exposed|
    && (forall k | 0 <= k < |order| :: order[k] < n && d.exposed[order[k]])
    && (forall j: Unit | j < n && d.exposed[j] :: j in order)
    && (forall j, k | 0 <= j < k < |order| :: Sooner(d, order[j], order[k]))
  }

  lemma InsertedMembers(before: seq<Unit>, k: nat, i: Unit)
    requires k <= |before|
    ensures forall j: Unit :: j in before[..k] + [i] + before[k..] <==> j in before || j == i
  {
    assert before == before[..k] + before[k..];
  }

  lemma InsertedOrder(d: Study, before: seq<Unit>, k: nat, i: Unit)
    requires k <= |before| && i < |d.scores| && forall j | 0 <= j < |before| :: before[j] < |d.scores|
    requires forall a, b | 0 <= a < b < |before| :: Sooner(d, before[a], before[b])
    requires forall j | 0 <= j < k :: Sooner(d, before[j], i)
    requires forall j | k <= j < |before| :: Sooner(d, i, before[j])
    ensures var order := before[..k] + [i] + before[k..];
            forall a, b | 0 <= a < b < |order| ::
              order[a] < |d.scores| && order[b] < |d.scores| && Sooner(d, order[a], order[b])
  {
    var order := before[..k] + [i] + before[k..];
    assert order[k] == i;
    forall j | 0 <= j < |order| && j != k ensures order[j] == before[if j < k then j else j - 1] {
    }
  }

  lemma Inserted(d: Study, before: seq<Unit>, k: nat, i: Unit)
    requires SortedBelow(d, before, i) && i < |d.exposed| && d.exposed[i] && k <= |before|
    requires forall j | k <= j < |before| :: d.scores[before[j]] > d.scores[i]
    requires k > 0 ==> d.scores[before[k - 1]] <= d.scores[i]
    ensures SortedBelow(d, before[..k] + [i] + before[k..], i + 1)
  {
    var order := before[..k] + [i] + before[k..];
    InsertedMembers(before, k, i);
    forall j | 0 <= j < k ensures Sooner(d, before[j], i) {
      assert j < k - 1 ==> Sooner(d, before[j], before[k - 1]);
    }
    InsertedOrder(d, before, k, i);
    forall j | 0 <= j < |order| ensures order[j] < i + 1 && d.exposed[order[j]] {
      assert order[j] in order;
    }
  }

  method SortTreated(d: Study) returns (order: seq<Unit>)
    requires Valid(d)
    ensures TurnOrder(d, order)
  {
    order := [];
    for i := 0 to |d.exposed|
      invariant SortedBelow(d, order, i)
    {
      if d.exposed[i] {
        var k := |order|;
        while k > 0 && d.scores[order[k - 1]] > d.scores[i]
          invariant 0 <= k <= |order| && forall j | k <= j < |order| :: d.scores[order[j]] > d.scores[i]
        {
          k := k - 1;
        }
        Inserted(d, order, k, i);
        order := order[..k] + [i] + order[k..];
      }
    }
  }

  lemma PreferredIsTransitive(d: Study, i: Unit, a: Unit, b: Unit, c: Unit)
    requires i < |d.logit| && a < |d.logit| && b < |d.logit| && c < |d.logit|
    requires !Preferred(d, i, b, a) && Preferred(d, i, b, c)
    ensures Preferred(d, i, a, c)
  {
  }

  method Nearest(d: Study, i: Unit, unused: set<Unit>) returns (candidate: Unit)
    requires Valid(d) && 0 <= i < |d.logit| && unused != {}
    requires forall c | c in unused :: 0 <= c < |d.logit|
    ensures candidate in unused && forall c | c in unused :: Preferred(d, i, candidate, c)
  {
    candidate :| candidate in unused;
    var rest := unused - {candidate};
    while rest != {}
      invariant rest <= unused && candidate in unused
      invariant forall c | c in unused - rest :: Preferred(d, i, candidate, c)
      decreases rest
    {
      var c :| c in rest;
      ghost var seen := unused - rest;
      if !Preferred(d, i, candidate, c) {
        forall e | e in seen ensures Preferred(d, i, c, e) {
          PreferredIsTransitive(d, i, c, candidate, e);
        }
        candidate := c;
      }
      assert unused - (rest - {c}) == seen + {c};
      rest := rest - {c};
    }
  }

  /** `nearest_neighbor_matches` takes the turns in order. */
  method NearestNeighborMatches(d: Study) returns (matches: map<Unit, Unit>, ghost order: seq<Unit>)
    requires Valid(d)
    ensures Greedy(d, order, matches) && IsMatching(d, matches) && Maximal(d, matches)
  {
    var treated := SortTreated(d);
    order := treated;
    var unused := set c | 0 <= c < |d.exposed| && !d.exposed[c];
    matches := map[];
    for k := 0 to |treated|
      invariant unused == Free(d, treated, matches, k)
      invariant Turns(d, treated, matches, k)
    {
      var index := treated[k];
      if unused != {} {
        var candidate := Nearest(d, index, unused);
        if Distance(d, index, candidate) <= d.maximumDistance {
          Taken(d, treated, matches, k, candidate);
          matches := matches[index := candidate];
          unused := unused - {candidate};
        } else {
          forall c | c in unused ensures !Within(d, index, c) {
            assert Preferred(d, index, candidate, c);
          }
          Passed(d, treated, matches, k);
        }
      } else {
        Passed(d, treated, matches, k);
      }
    }
    GreedyIsMaximalMatching(d, treated, matches);
  }

  /** What is known after `k` turns. */
  ghost predicate Turns(d: Study, order: seq<Unit>, m: map<Unit, Unit>, k: nat) {
    && TurnOrder(d, order) && k <= |order|
    && (forall i | i in m :: i in order[..k])
    && (forall j | 0 <= j < k :: Turn(d, order, m, j))
  }

  lemma NotYet(d: Study, order: seq<Unit>, m: map<Unit, Unit>, k: nat)
    requires Turns(d, order, m, k) && k < |order|
    ensures order[k] !in m
    ensures order[..k + 1] == order[..k] + [order[k]]
  {
  }

  lemma Passed(d: Study, order: seq<Unit>, m: map<Unit, Unit>, k: nat)
    requires Turns(d, order, m, k) && k < |order|
    requires forall c | c in Free(d, order, m, k) :: !Within(d, order[k], c)
    ensures Turns(d, order, m, k + 1) && Free(d, order, m, k + 1) == Free(d, order, m, k)
  {
    NotYet(d, order, m, k);
  }

  lemma EarlierFree(d: Study, order: seq<Unit>, m: map<Unit, Unit>, k: nat, candidate: Unit, j: nat)
    requires Turns(d, order, m, k) && j <= k < |order|
    ensures Free(d, order, m[order[k] := candidate], j) == Free(d, order, m, j)
  {
    forall r | 0 <= r < j ensures order[r] != order[k] {
      assert Sooner(d, order[r], order[k]);
    }
  }

  lemma Taken(d: Study, order: seq<Unit>, m: map<Unit, Unit>, k: nat, candidate: Unit)
    requires Turns(d, order, m, k) && k < |order|
    requires candidate in Free(d, order, m, k) && Within(d, order[k], candidate)
    requires forall e | e in Free(d, order, m, k) :: Preferred(d, order[k], candidate, e)
    ensures var m' := m[order[k] := candidate];
            Turns(d, order, m', k + 1) && Free(d, order, m', k + 1) == Free(d, order, m, k) - {candidate}
  {
    var m' := m[order[k] := candidate];
    NotYet(d, order, m, k);
    EarlierFree(d, order, m, k, candidate, k);
    forall j | 0 <= j < k ensures Turn(d, order, m', j) {
      EarlierFree(d, order, m, k, candidate, j);
      assert Sooner(d, order[j], order[k]);
      assert Turn(d, order, m, j);
    }
    assert Turn(d, order, m', k);
    forall c ensures c in Free(d, order, m', k + 1) <==> c in Free(d, order, m', k) && c != candidate {
      assert order[k] in m' && m'[order[k]] == candidate;
    }
  }
}
