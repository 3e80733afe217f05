/** Selecting and sorting the rows of a table. */
module Frames {
  import opened Sums

  /** The rows that satisfy `p`, in order. */
  function Keep<T>(p: T -> bool, xs: seq<T>): seq<T> {
    if xs == [] then [] else (if p(xs[0]) then [xs[0]] else []) + Keep(p, xs[1..])
  }

  function Insert<T>(before: (T, T) -> bool, x: T, ys: seq<T>): seq<T> {
    if ys == [] || before(x, ys[0]) then [x] + ys else [ys[0]] + Insert(before, x, ys[1..])
  }

  /** Stable: rows that are not ordered by `before` stay in the order they came in. */
  function Sort<T>(before: (T, T) -> bool, xs: seq<T>): seq<T> {
    if xs == [] then [] else Insert(before, xs[|xs| - 1], Sort(before, xs[..|xs| - 1]))
  }

  ghost predicate WeakOrder<T(!new)>(before: (T, T) -> bool) {
    && (forall a, b, c :: before(a, b) && !before(c, b) ==> before(a, c))
    && (forall a, b :: before(a, b) ==> !before(b, a))
  }

  ghost predicate Sorted<T>(before: (T, T) -> bool, xs: seq<T>) {
    forall i, j | 0 <= i < j < |xs| :: !before(xs[j], xs[i])
  }

  lemma {:induction false} KeepMembers<T>(p: T -> bool, xs: seq<T>)
    ensures forall x :: x in Keep(p, xs) <==> x in xs && p(x)
  {
    if xs != [] {
      KeepMembers(p, xs[1..]);
      assert xs == [xs[0]] + xs[1..];
    }
  }

  lemma {:induction false} InsertMembers<T>(before: (T, T) -> bool, x: T, ys: seq<T>)
    ensures forall z :: z in Insert(before, x, ys) <==> z == x || z in ys
    ensures multiset(Insert(before, x, ys)) == multiset(ys) + multiset{x}
  {
    if ys == [] || before(x, ys[0]) {
    } else {
      InsertMembers(before, x, ys[1..]);
      assert ys == [ys[0]] + ys[1..];
    }
  }

  lemma {:induction false} InsertSorts<T(!new)>(before: (T, T) -> bool, x: T, ys: seq<T>)
    requires WeakOrder(before) && Sorted(before, ys)
    ensures Sorted(before, Insert(before, x, ys))
  {
    if ys == [] || before(x, ys[0]) {
    } else {
      InsertSorts(before, x, ys[1..]);
      InsertMembers(before, x, ys[1..]);
      var zs := Insert(before, x, ys[1..]);
      forall j | 0 <= j < |zs| ensures !before(zs[j], ys[0]) {
        assert zs[j] in zs;
        if zs[j] != x {
          var k :| 0 <= k < |ys[1..]| && ys[1..][k] == zs[j];
        }
      }
    }
  }

  lemma {:induction false} SortSorts<T(!new)>(before: (T, T) -> bool, xs: seq<T>)
    requires WeakOrder(before)
    ensures Sorted(before, Sort(before, xs)) && multiset(Sort(before, xs)) == multiset(xs)
  {
    if xs != [] {
      var n := |xs| - 1;
      SortSorts(before, xs[..n]);
      InsertSorts(before, xs[n], Sort(before, xs[..n]));
      InsertMembers(before, xs[n], Sort(before, xs[..n]));
      assert xs == xs[..n] + [xs[n]];
    }
  }

  lemma KeepFirst<T>(p: T -> bool, x: T, xs: seq<T>)
    ensures Keep(p, [x] + xs) == if p(x) then [x] + Keep(p, xs) else Keep(p, xs)
  {
    assert ([x] + xs)[1..] == xs;
  }

  lemma InsertFirst<T>(before: (T, T) -> bool, x: T, y: T, ys: seq<T>)
    ensures Insert(before, x, [y] + ys) == if before(x, y) then [x, y] + ys else [y] + Insert(before, x, ys)
  {
    assert ([y] + ys)[1..] == ys;
  }

  lemma {:induction false} KeepInsert<T(!new)>(p: T -> bool, before: (T, T) -> bool, x: T, ys: seq<T>)
    requires WeakOrder(before) && Sorted(before, ys)
    ensures Keep(p, Insert(before, x, ys)) == if p(x) then Insert(before, x, Keep(p, ys)) else Keep(p, ys)
  {
    if ys == [] {
      KeepFirst(p, x, []);
    } else if before(x, ys[0]) {
      KeepFirst(p, x, ys);
      if p(x) && Keep(p, ys) != [] {
        KeepMembers(p, ys);
        var z := Keep(p, ys)[0];
        assert z in ys;
        assert before(x, z);
      }
    } else {
      var y, rest := ys[0], ys[1..];
      assert ys == [y] + rest;
      KeepInsert(p, before, x, rest);
      KeepFirst(p, y, rest);
      KeepFirst(p, y, Insert(before, x, rest));
      InsertFirst(before, x, y, Keep(p, rest));
    }
  }

  lemma SortLast<T>(before: (T, T) -> bool, xs: seq<T>, x: T)
    ensures Sort(before, xs + [x]) == Insert(before, x, Sort(before, xs))
  {
    assert (xs + [x])[..|xs|] == xs;
  }

  lemma {:induction false} KeepLast<T>(p: T -> bool, xs: seq<T>, x: T)
    ensures Keep(p, xs + [x]) == if p(x) then Keep(p, xs) + [x] else Keep(p, xs)
  {
    if xs == [] {
      assert xs + [x] == [x] + [];
      KeepFirst(p, x, []);
    } else {
      var first, rest := xs[0], xs[1..];
      assert xs == [first] + rest && xs + [x] == [first] + (rest + [x]);
      KeepLast(p, rest, x);
      KeepFirst(p, first, rest);
      KeepFirst(p, first, rest + [x]);
    }
  }

  lemma {:induction false} KeepConcat<T>(p: T -> bool, xs: seq<T>, ys: seq<T>)
    ensures Keep(p, xs + ys) == Keep(p, xs) + Keep(p, ys)
    decreases |ys|
  {
    if ys == [] {
      assert xs + ys == xs;
    } else {
      var n := |ys| - 1;
      assert ys == ys[..n] + [ys[n]] && xs + ys == (xs + ys[..n]) + [ys[n]];
      KeepConcat(p, xs, ys[..n]);
      KeepLast(p, ys[..n], ys[n]);
      KeepLast(p, xs + ys[..n], ys[n]);
    }
  }

  /** Selecting and sorting commute. */
  lemma {:induction false} KeepSort<T(!new)>(p: T -> bool, before: (T, T) -> bool, xs: seq<T>)
    requires WeakOrder(before)
    ensures Keep(p, Sort(before, xs)) == Sort(before, Keep(p, xs))
    decreases |xs|
  {
    if xs != [] {
      var fewer, x := xs[..|xs| - 1], xs[|xs| - 1];
      assert xs == fewer + [x];
      KeepSort(p, before, fewer);
      SortSorts(before, fewer);
      SortLast(before, fewer, x);
      KeepInsert(p, before, x, Sort(before, fewer));
      KeepLast(p, fewer, x);
      SortLast(before, Keep(p, fewer), x);
    }
  }

  /** Different elements are ordered one way or the other. */
  ghost predicate Told<T(!new)>(before: (T, T) -> bool, xs: seq<T>) {
    forall a, b | a in xs && b in xs && a != b :: before(a, b) || before(b, a)
  }

  lemma SortedLast<T(!new)>(before: (T, T) -> bool, xs: seq<T>, ys: seq<T>)
    requires Sorted(before, xs) && Sorted(before, ys) && Told(before, xs) && Permuted(xs, ys) && xs != [] && ys != []
    ensures xs[|xs| - 1] == ys[|ys| - 1]
  {
    var x, y := xs[|xs| - 1], ys[|ys| - 1];
    assert x in multiset(ys) && y in multiset(xs);
    var j :| 0 <= j < |xs| && xs[j] == y;
    var k :| 0 <= k < |ys| && ys[k] == x;
  }

  lemma WithoutLast<T>(xs: seq<T>, ys: seq<T>)
    requires Permuted(xs, ys) && xs != [] && ys != [] && xs[|xs| - 1] == ys[|ys| - 1]
    ensures Permuted(xs[..|xs| - 1], ys[..|ys| - 1])
  {
    var n, x := |xs| - 1, xs[|xs| - 1];
    SameLength(xs, ys);
    assert xs == xs[..n] + [x] && ys == ys[..n] + [x];
    assert multiset(xs[..n]) == multiset(xs) - multiset{x};
    assert multiset(ys[..n]) == multiset(ys) - multiset{x};
  }

  lemma {:induction false} SortedIsUnique<T(!new)>(before: (T, T) -> bool, xs: seq<T>, ys: seq<T>)
    requires Sorted(before, xs) && Sorted(before, ys) && Told(before, xs) && Permuted(xs, ys)
    ensures xs == ys
  {
    SameLength(xs, ys);
    if xs != [] {
      SortedLast(before, xs, ys);
      WithoutLast(xs, ys);
      SortedIsUnique(before, xs[..|xs| - 1], ys[..|ys| - 1]);
    }
  }

  /** Sorting forgets the order in which elements came, where the order tells them apart. */
  lemma SortForgetsOrder<T(!new)>(before: (T, T) -> bool, xs: seq<T>, ys: seq<T>)
    requires WeakOrder(before) && Told(before, xs) && Permuted(xs, ys)
    ensures Sort(before, xs) == Sort(before, ys)
  {
    SortSorts(before, xs);
    SortSorts(before, ys);
    forall x ensures x in Sort(before, xs) <==> x in xs {
      assert x in multiset(Sort(before, xs)) <==> x in multiset(xs);
    }
    SortedIsUnique(before, Sort(before, xs), Sort(before, ys));
  }

  // ---- tables in parts ----------------------------------------------------------------

  /** What the parts contribute, one after the other. */
  function Flatten<T, U>(f: T -> seq<U>, xs: seq<T>): seq<U> {
    if xs == [] then [] else Flatten(f, xs[..|xs| - 1]) + f(xs[|xs| - 1])
  }

  lemma FlattenLast<T, U>(f: T -> seq<U>, xs: seq<T>, x: T)
    ensures Flatten(f, xs + [x]) == Flatten(f, xs) + f(x)
  {
    assert (xs + [x])[..|xs|] == xs;
  }

  lemma {:induction false} FlattenTakesOut<T, U>(f: T -> seq<U>, xs: seq<T>, x: T, more: seq<T>)
    ensures multiset(Flatten(f, xs + [x] + more)) == multiset(Flatten(f, xs + more)) + multiset(f(x))
    decreases |more|
  {
    if more == [] {
      FlattenLast(f, xs, x);
      assert xs + [x] + more == xs + [x] && xs + more == xs;
    } else {
      var fewer, last := more[..|more| - 1], more[|more| - 1];
      FlattenTakesOut(f, xs, x, fewer);
      FlattenLast(f, xs + [x] + fewer, last);
      FlattenLast(f, xs + fewer, last);
      assert xs + [x] + more == xs + [x] + fewer + [last] && xs + more == xs + fewer + [last];
    }
  }

  lemma {:induction false} FlattenMap<S(!new), T, U>(f: T -> seq<U>, g: S -> T, h: S -> seq<U>, xs: seq<S>)
    requires forall x :: f(g(x)) == h(x)
    ensures Flatten(f, Map(g, xs)) == Flatten(h, xs)
  {
    if xs != [] {
      var n := |xs| - 1;
      FlattenMap(f, g, h, xs[..n]);
      assert Map(g, xs)[..n] == Map(g, xs[..n]);
    }
  }

  lemma {:induction false} FlattenPermuted<T, U>(f: T -> seq<U>, xs: seq<T>, ys: seq<T>)
    requires Permuted(xs, ys)
    ensures Permuted(Flatten(f, xs), Flatten(f, ys))
  {
    SameLength(xs, ys);
    if xs != [] {
      var i := TakeOut(xs, ys);
      FlattenPermuted(f, xs[..|xs| - 1], ys[..i] + ys[i + 1..]);
      FlattenTakesOut(f, ys[..i], ys[i], ys[i + 1..]);
      assert ys == ys[..i] + [ys[i]] + ys[i + 1..];
    }
  }

  // ---- passes over rows ---------------------------------------------------------------

  /** Selecting commutes with a change that does not touch what is selected by. */
  lemma {:induction false} KeepMap<T, U>(p: T -> bool, q: U -> bool, f: T -> U, xs: seq<T>)
    requires forall x :: q(f(x)) == p(x)
    ensures Keep(q, Map(f, xs)) == Map(f, Keep(p, xs))
  {
    if xs != [] {
      KeepMap(p, q, f, xs[1..]);
      assert Map(f, xs)[1..] == Map(f, xs[1..]);
    }
  }

  /** The state of a pass after the rows. */
  function Final<S, R>(advance: (S, R) -> S, start: S, rows: seq<R>): S {
    if rows == [] then start else advance(Final(advance, start, rows[..|rows| - 1]), rows[|rows| - 1])
  }

  /** What a pass writes: one output for each row, from the state before it. */
  function Outputs<S, R, O>(observe: (S, R) -> O, advance: (S, R) -> S, start: S, rows: seq<R>): (os: seq<O>)
    ensures |os| == |rows|
  {
    if rows == [] then []
    else
      var fewer := rows[..|rows| - 1];
      Outputs(observe, advance, start, fewer) + [observe(Final(advance, start, fewer), rows[|rows| - 1])]
  }

  lemma {:induction false} OutputAt<S, R, O>(observe: (S, R) -> O, advance: (S, R) -> S, start: S, rows: seq<R>, i: nat)
    requires i < |rows|
    ensures Outputs(observe, advance, start, rows)[i] == observe(Final(advance, start, rows[..i]), rows[i])
  {
    if i < |rows| - 1 {
      OutputAt(observe, advance, start, rows[..|rows| - 1], i);
      assert rows[..|rows| - 1][..i] == rows[..i];
    }
  }

  lemma {:induction false} KeepAll<T>(p: T -> bool, xs: seq<T>)
    requires forall i | 0 <= i < |xs| :: p(xs[i])
    ensures Keep(p, xs) == xs
  {
    if xs != [] {
      KeepAll(p, xs[1..]);
    }
  }

  /** Where the selected rows come first, a pass over them writes what the pass over all rows writes
      for them. */
  lemma {:induction false} OutputsKeep<S(!new), R(!new), O>(observe: (S, R) -> O, advance: (S, R) -> S, start: S, rows: seq<R>,
                                                  p: R -> bool, q: O -> bool)
    requires forall s, r :: q(observe(s, r)) == p(r)
    requires forall i, j | 0 <= i < j < |rows| && p(rows[j]) :: p(rows[i])
    ensures Keep(q, Outputs(observe, advance, start, rows)) == Outputs(observe, advance, start, Keep(p, rows))
  {
    if rows != [] {
      var n := |rows| - 1;
      assert rows == rows[..n] + [rows[n]];
      if p(rows[n]) {
        forall i | 0 <= i < |rows| ensures q(Outputs(observe, advance, start, rows)[i]) {
          OutputAt(observe, advance, start, rows, i);
        }
        KeepAll(p, rows);
        KeepAll(q, Outputs(observe, advance, start, rows));
      } else {
        OutputsKeep(observe, advance, start, rows[..n], p, q);
        KeepLast(p, rows[..n], rows[n]);
        KeepLast(q, Outputs(observe, advance, start, rows[..n]), observe(Final(advance, start, rows[..n]), rows[n]));
      }
    }
  }

  /** Every row rewritten in the light of those before and after it. */
  function Each<T, U>(f: (seq<T>, T, seq<T>) -> U, done: seq<T>, rest: seq<T>): (us: seq<U>)
    ensures |us| == |rest|
    decreases |rest|
  {
    if rest == [] then [] else [f(done, rest[0], rest[1..])] + Each(f, done + [rest[0]], rest[1..])
  }

  lemma {:induction false} EachAt<T, U>(f: (seq<T>, T, seq<T>) -> U, done: seq<T>, rest: seq<T>, i: nat)
    requires i < |rest|
    ensures Each(f, done, rest)[i] == f(done + rest[..i], rest[i], rest[i + 1..])
    decreases |rest|
  {
    if i > 0 {
      EachAt(f, done + [rest[0]], rest[1..], i - 1);
      assert done + [rest[0]] + rest[1..][..i - 1] == done + rest[..i];
      assert rest[1..][i..] == rest[i + 1..];
    } else {
      assert done + rest[..0] == done;
    }
  }

  lemma EachStep<T, U>(f: (seq<T>, T, seq<T>) -> U, done: seq<T>, x: T, more: seq<T>)
    ensures Each(f, done, [x] + more) == [f(done, x, more)] + Each(f, done + [x], more)
  {
    assert ([x] + more)[1..] == more;
  }

  /** For a selected row only the selected rows matter. */
  ghost predicate Local<T(!new), U>(f: (seq<T>, T, seq<T>) -> U, p: T -> bool, q: U -> bool) {
    && (forall done, x, more :: q(f(done, x, more)) == p(x))
    && (forall done, x, more :: p(x) ==> f(done, x, more) == f(Keep(p, done), x, Keep(p, more)))
  }

  lemma {:induction false} EachKeep<T(!new), U>(f: (seq<T>, T, seq<T>) -> U, p: T -> bool, q: U -> bool, done: seq<T>, rest: seq<T>)
    requires Local(f, p, q)
    ensures Keep(q, Each(f, done, rest)) == Each(f, Keep(p, done), Keep(p, rest))
    decreases |rest|
  {
    if rest != [] {
      var x, more := rest[0], rest[1..];
      assert rest == [x] + more;
      EachStep(f, done, x, more);
      EachKeep(f, p, q, done + [x], more);
      KeepLast(p, done, x);
      KeepFirst(p, x, more);
      KeepFirst(q, f(done, x, more), Each(f, done + [x], more));
      EachStep(f, Keep(p, done), x, Keep(p, more));
    }
  }
}
