/** Products and quotients of real numbers. */
module Reals {
  function Abs(x: real): real { if x < 0.0 then -x else x }

  function Min(a: real, b: real): real { if b < a then b else a }

  function Max(a: real, b: real): real { if a < b then b else a }

  lemma Signs(a: real, b: real)
    requires b > 0.0
    ensures a < 0.0 <==> a * b < 0.0
    ensures a > 0.0 <==> a * b > 0.0
  {
  }

  lemma Nonnegative(x: real, y: real)
    requires 0.0 <= x && 0.0 <= y
    ensures 0.0 <= x * y
  {
  }

  lemma Positive(x: real, y: real)
    requires 0.0 < x && 0.0 < y
    ensures 0.0 < x * y
  {
  }

  lemma Distributes(a: real, b: real, c: real)
    ensures (a + b) * c == a * c + b * c
  {
  }

  lemma Difference(a: real, b: real, c: real)
    ensures (a - b) * c == a * c - b * c
  {
  }

  lemma Quotient(a: real, b: real)
    requires b > 0.0
    ensures a / b * b == a
  {
  }

  lemma Inverse(n: real) returns (inverse: real)
    requires n > 1.0
    ensures 0.0 < inverse < 1.0 && n * inverse == 1.0
  {
    inverse := 1.0 / n;
    Quotient(1.0, n);
    Signs(inverse, n);
    Difference(1.0, inverse, n);
    Signs(1.0 - inverse, n);
  }

  lemma Ordered(x: real, y: real, f: real)
    requires f > 0.0
    ensures x <= y <==> x * f <= y * f
  {
    Difference(y, x, f);
    Signs(y - x, f);
  }

  lemma Cancel(x: real, y: real, f: real)
    requires f > 0.0 && x * f == y * f
    ensures x == y
  {
    Ordered(x, y, f);
    Ordered(y, x, f);
  }

  lemma QuotientAtMost(a: real, b: real, c: real)
    requires b > 0.0
    ensures a / b <= c <==> a <= c * b
  {
    Quotient(a, b);
    Ordered(a / b, c, b);
  }

  lemma AtMostQuotient(a: real, b: real, c: real)
    requires c > 0.0
    ensures a <= b / c <==> a * c <= b
  {
    Quotient(b, c);
    Ordered(a, b / c, c);
  }

  lemma IsOne(x: real, all: real, y: real)
    requires all > 0.0 && y == all && y == x * all
    ensures x == 1.0
  {
    Cancel(x, 1.0, all);
  }

  // ---- multiples --------------------------------------------------------------------

  /** `n` times `x`. */
  function Times(x: real, n: nat): real {
    if n == 0 then 0.0 else Times(x, n - 1) + x
  }

  lemma {:induction false} TimesIsProduct(x: real, n: nat)
    ensures Times(x, n) == x * n as real
  {
    if n > 0 {
      TimesIsProduct(x, n - 1);
      assert x * n as real == x * (n - 1) as real + x;
    }
  }

  lemma {:induction false} TimesAdds(x: real, y: real, n: nat)
    ensures Times(x + y, n) == Times(x, n) + Times(y, n)
  {
    if n > 0 {
      TimesAdds(x, y, n - 1);
    }
  }

  lemma {:induction false} TimesOrders(x: real, y: real, n: nat)
    requires n > 0
    ensures x <= y <==> Times(x, n) <= Times(y, n)
  {
    if n > 1 {
      TimesOrders(x, y, n - 1);
    }
  }

  lemma {:induction false} TimesZero(n: nat)
    ensures Times(0.0, n) == 0.0
  {
    if n > 0 {
      TimesZero(n - 1);
    }
  }

  lemma {:induction false} TimesOne(n: nat)
    ensures Times(1.0, n) == n as real
  {
    if n > 0 {
      TimesOne(n - 1);
    }
  }
}
