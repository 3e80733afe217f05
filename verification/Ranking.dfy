/** Hypotheses by posterior, the most probable first and equal ones by name. */
module Ranking {
  import opened Texts
  import opened Sums

  datatype Computed = Computed(id: Text, prior: real, posterior: real, logScore: real,
                               supporting: set<Text>, contradicting: set<Text>)

  predicate Before(a: Computed, b: Computed) {
    a.posterior > b.posterior || (a.posterior == b.posterior && Less(a.id, b.id))
  }

  ghost predicate DistinctIds(xs: seq<Computed>) {
    forall i, j | 0 <= i < j < |xs| :: xs[i].id != xs[j].id
  }

  ghost predicate Ranked(xs: seq<Computed>) {
    forall i, j | 0 <= i < j < |xs| :: Before(xs[i], xs[j])
  }

  function Insert(x: Computed, ys: seq<Computed>): seq<Computed> {
    if ys == [] || Before(x, ys[0]) then [x] + ys else [ys[0]] + Insert(x, ys[1..])
  }

  function Rank(xs: seq<Computed>): seq<Computed> {
    if xs == [] then [] else Insert(xs[|xs| - 1], Rank(xs[..|xs| - 1]))
  }

  lemma Transitive(a: Computed, b: Computed, c: Computed)
    requires Before(a, b) && Before(b, c)
    ensures Before(a, c)
  {
    if a.posterior == b.posterior == c.posterior {
      LessTransitive(a.id, b.id, c.id);
    }
  }

  lemma Antisymmetric(a: Computed, b: Computed)
    requires Before(a, b)
    ensures !Before(b, a)
  {
    if Less(a.id, b.id) && Less(b.id, a.id) {
      LessTransitive(a.id, b.id, a.id);
      LessIrreflexive(a.id);
    }
  }

  lemma {:induction false} InsertPermutes(x: Computed, ys: seq<Computed>)
    ensures Permuted(Insert(x, ys), ys + [x])
  {
    if ys == [] || Before(x, ys[0]) {
    } else {
      InsertPermutes(x, ys[1..]);
      assert ys == [ys[0]] + ys[1..];
    }
  }

  lemma {:induction false} InsertRanks(x: Computed, ys: seq<Computed>)
    requires Ranked(ys) && forall i | 0 <= i < |ys| :: ys[i].id != x.id
    ensures Ranked(Insert(x, ys))
  {
    if ys == [] {
    } else if Before(x, ys[0]) {
      forall i | 0 < i < |ys| ensures Before(x, ys[i]) {
        Transitive(x, ys[0], ys[i]);
      }
    } else {
      InsertRanks(x, ys[1..]);
      InsertPermutes(x, ys[1..]);
      LessTotal(x.id, ys[0].id);
      var zs := Insert(x, ys[1..]);
      forall i | 0 <= i < |zs| ensures Before(ys[0], zs[i]) {
        assert zs[i] in multiset(ys[1..] + [x]);
      }
    }
  }

  /** Ranking reorders, and what comes out is in order. */
  lemma {:induction false} RankRanks(xs: seq<Computed>)
    requires DistinctIds(xs)
    ensures Permuted(xs, Rank(xs)) && Ranked(Rank(xs))
  {
    if xs != [] {
      var n := |xs| - 1;
      RankRanks(xs[..n]);
      var ys := Rank(xs[..n]);
      forall i | 0 <= i < |ys| ensures ys[i].id != xs[n].id {
        assert ys[i] in multiset(xs[..n]);
      }
      InsertPermutes(xs[n], ys);
      InsertRanks(xs[n], ys);
      assert xs == xs[..n] + [xs[n]];
    }
  }

  /** There is one ranking of given elements. */
  lemma {:induction false} RankingIsUnique(xs: seq<Computed>, ys: seq<Computed>)
    requires Ranked(xs) && Ranked(ys) && Permuted(xs, ys)
    ensures xs == ys
  {
    SameLength(xs, ys);
    if xs != [] {
      var n := |xs| - 1;
      var k := TakeOut(xs, ys);
      assert ys[n] in multiset(xs);
      var j :| 0 <= j < |xs| && xs[j] == ys[n];
      if k < n {
        if j < n {
          Antisymmetric(xs[j], xs[n]);
        }
        Antisymmetric(ys[k], ys[n]);
      }
      assert ys[..k] + ys[k + 1..] == ys[..n];
      RankingIsUnique(xs[..n], ys[..n]);
    }
  }

  /** The order in which hypotheses were listed does not show in the ranking. */
  lemma RankForgetsOrder(xs: seq<Computed>, ys: seq<Computed>)
    requires DistinctIds(xs) && DistinctIds(ys) && Permuted(xs, ys)
    ensures Rank(xs) == Rank(ys)
  {
    RankRanks(xs);
    RankRanks(ys);
    RankingIsUnique(Rank(xs), Rank(ys));
  }
}
