/** Rate and mix effects of cohorts on the change of a rate from one period to the next. */
module Contribution {
  import opened Reals
  import opened Sums

  /** The value of a dimension that makes a cohort. */
  type Name = nat

  datatype Cell = Cell(numerator: real, denominator: real)

  const NOTHING := Cell(0.0, 0.0)

  /** The rows of one period: cohort names in the order met, and their cells. */
  datatype Period = Period(names: seq<Name>, cells: map<Name, Cell>)

  ghost predicate Distinct(names: seq<Name>) { forall i, j | 0 <= i < j < |names| :: names[i] != names[j] }

  ghost predicate ValidPeriod(p: Period) {
    Distinct(p.names) && forall name :: name in p.names <==> name in p.cells
  }

  /** `cohorts` lists every cohort of both periods once. */
  ghost predicate Lists(cohorts: seq<Name>, b: Period, c: Period) {
    Distinct(cohorts) && forall name :: name in cohorts <==> name in b.cells || name in c.cells
  }

  function CellOf(p: Period, name: Name): Cell { if name in p.cells then p.cells[name] else NOTHING }

  function CellsOf(p: Period, names: seq<Name>): seq<Cell> { Map(name => CellOf(p, name), names) }

  function SafeRate(numerator: real, denominator: real): real {
    if denominator > 0.0 then numerator / denominator else 0.0
  }

  // ---- sums over cells --------------------------------------------------------------

  function Numerators(cells: seq<Cell>): seq<real> { Map((x: Cell) => x.numerator, cells) }

  function Denominators(cells: seq<Cell>): seq<real> { Map((x: Cell) => x.denominator, cells) }

  /** The numerators that the decomposition can see: those over a positive denominator. */
  function Kept(x: Cell): real { if x.denominator > 0.0 then x.numerator else 0.0 }

  function KeptOf(cells: seq<Cell>): seq<real> { Map(Kept, cells) }

  /** The numerators that it cannot see. */
  function Stranded(x: Cell): real { if x.denominator > 0.0 then 0.0 else x.numerator }

  function StrandedOf(cells: seq<Cell>): seq<real> { Map(Stranded, cells) }

  function Overall(cells: seq<Cell>): real { SafeRate(Sum(Numerators(cells)), Sum(Denominators(cells))) }

  // ---- the effects ------------------------------------------------------------------

  datatype Row = Row(cohort: Name, baseline: Cell, current: Cell, baselineRate: real, currentRate: real,
                     baselineShare: real, currentShare: real, rateEffect: real, mixEffect: real, total: real)

  function RowOf(cohort: Name, b: Cell, c: Cell, baselineTotal: real, currentTotal: real): Row {
    var baselineRate := SafeRate(b.numerator, b.denominator);
    var currentRate := SafeRate(c.numerator, c.denominator);
    var baselineShare := SafeRate(b.denominator, baselineTotal);
    var currentShare := SafeRate(c.denominator, currentTotal);
    var rateEffect := 0.5 * (baselineShare + currentShare) * (currentRate - baselineRate);
    var mixEffect := 0.5 * (baselineRate + currentRate) * (currentShare - baselineShare);
    Row(cohort, b, c, baselineRate, currentRate, baselineShare, currentShare, rateEffect, mixEffect, rateEffect + mixEffect)
  }

  /** The part of the overall rate that a cohort carries. */
  function Weight(x: Cell, total: real): real {
    SafeRate(x.numerator, x.denominator) * SafeRate(x.denominator, total)
  }

  lemma Kitagawa(s: real, t: real, p: real, q: real)
    ensures 0.5 * (s + t) * (q - p) + 0.5 * (p + q) * (t - s) == q * t - p * s
  {
  }

  /** Rate and mix effect together are the change of the cohort's weight. */
  lemma TotalIsWeightChange(cohort: Name, b: Cell, c: Cell, baselineTotal: real, currentTotal: real)
    ensures RowOf(cohort, b, c, baselineTotal, currentTotal).total == Weight(c, currentTotal) - Weight(b, baselineTotal)
  {
    Kitagawa(SafeRate(b.denominator, baselineTotal), SafeRate(c.denominator, currentTotal),
             SafeRate(b.numerator, b.denominator), SafeRate(c.numerator, c.denominator));
  }

  lemma WeightIsKept(x: Cell, total: real)
    requires total > 0.0
    ensures Kept(x) == Weight(x, total) * total
  {
    if x.denominator > 0.0 {
      Quotients(x.numerator, x.denominator, total);
    }
  }

  lemma Quotients(n: real, d: real, t: real)
    requires d > 0.0 && t > 0.0
    ensures n == (n / d) * (d / t) * t
  {
    var p, q := n / d, d / t;
    assert p * d == n && q * t == d;
    assert p * q * t == p * (q * t);
  }

  function Weights(cells: seq<Cell>, total: real): seq<real> { Map(x => Weight(x, total), cells) }

  lemma {:induction false} WeightsAreKept(cells: seq<Cell>, total: real)
    requires total > 0.0
    ensures Scaled(KeptOf(cells), Weights(cells, total), total)
  {
    if cells != [] {
      var n := |cells| - 1;
      WeightsAreKept(cells[..n], total);
      WeightIsKept(cells[n], total);
      assert KeptOf(cells)[..n] == KeptOf(cells[..n]);
      assert Weights(cells, total)[..n] == Weights(cells[..n], total);
    }
  }

  lemma {:induction false} KeptAndStranded(cells: seq<Cell>)
    ensures Sum(Numerators(cells)) == Sum(KeptOf(cells)) + Sum(StrandedOf(cells))
  {
    if cells != [] {
      var n := |cells| - 1;
      KeptAndStranded(cells[..n]);
      assert KeptOf(cells)[..n] == KeptOf(cells[..n]);
      assert StrandedOf(cells)[..n] == StrandedOf(cells[..n]);
      assert Numerators(cells)[..n] == Numerators(cells[..n]);
    }
  }

  lemma DivideSum(w: real, kept: real, stranded: real, all: real, total: real)
    requires total > 0.0 && kept == w * total && all == kept + stranded
    ensures w == all / total - stranded / total
  {
    var x, y := all / total, stranded / total;
    assert (w - (x - y)) * total == 0.0;
  }

  lemma WeightsSumToKept(cells: seq<Cell>, total: real)
    requires total > 0.0
    ensures Sum(KeptOf(cells)) == Sum(Weights(cells, total)) * total
  {
    WeightsAreKept(cells, total);
    SumScaled(Weights(cells, total), KeptOf(cells), total);
  }

  lemma OverallLessStranded(cells: seq<Cell>, weights: real, total: real)
    requires total > 0.0 && total == Sum(Denominators(cells)) && Sum(KeptOf(cells)) == weights * total
    ensures weights == Overall(cells) - Sum(StrandedOf(cells)) / total
  {
    KeptAndStranded(cells);
    DivideSum(weights, Sum(KeptOf(cells)), Sum(StrandedOf(cells)), Sum(Numerators(cells)), total);
  }

  /** The weights sum to the overall rate less what the stranded numerators contribute to it. */
  lemma WeightsSum(cells: seq<Cell>, total: real)
    requires total > 0.0 && total == Sum(Denominators(cells))
    ensures Sum(Weights(cells, total)) == Overall(cells) - Sum(StrandedOf(cells)) / total
  {
    WeightsSumToKept(cells, total);
    OverallLessStranded(cells, Sum(Weights(cells, total)), total);
  }

  function RowsOf(cohorts: seq<Name>, bs: seq<Cell>, cs: seq<Cell>, baselineTotal: real, currentTotal: real): seq<Row>
    requires |bs| == |cohorts| == |cs|
  {
    seq(|cohorts|, i requires 0 <= i < |cohorts| => RowOf(cohorts[i], bs[i], cs[i], baselineTotal, currentTotal))
  }

  function Totals(rows: seq<Row>): seq<real> { Map((r: Row) => r.total, rows) }

  lemma {:induction false} TotalsSum(cohorts: seq<Name>, bs: seq<Cell>, cs: seq<Cell>, baselineTotal: real, currentTotal: real)
    requires |bs| == |cohorts| == |cs|
    ensures Sum(Totals(RowsOf(cohorts, bs, cs, baselineTotal, currentTotal)))
            == Sum(Weights(cs, currentTotal)) - Sum(Weights(bs, baselineTotal))
  {
    if cohorts != [] {
      var n := |cohorts| - 1;
      TotalsSum(cohorts[..n], bs[..n], cs[..n], baselineTotal, currentTotal);
      TotalIsWeightChange(cohorts[n], bs[n], cs[n], baselineTotal, currentTotal);
      var rows := RowsOf(cohorts, bs, cs, baselineTotal, currentTotal);
      assert Totals(rows)[..n] == Totals(RowsOf(cohorts[..n], bs[..n], cs[..n], baselineTotal, currentTotal));
      assert Weights(cs, currentTotal)[..n] == Weights(cs[..n], currentTotal);
      assert Weights(bs, baselineTotal)[..n] == Weights(bs[..n], baselineTotal);
    }
  }

  /** The effects sum to the overall change less the change of what is stranded, in proportion to
      the denominators. */
  lemma EffectsSum(cohorts: seq<Name>, bs: seq<Cell>, cs: seq<Cell>)
    requires |bs| == |cohorts| == |cs| && Sum(Denominators(bs)) > 0.0 && Sum(Denominators(cs)) > 0.0
    ensures Sum(Totals(RowsOf(cohorts, bs, cs, Sum(Denominators(bs)), Sum(Denominators(cs)))))
            == (Overall(cs) - Sum(StrandedOf(cs)) / Sum(Denominators(cs)))
               - (Overall(bs) - Sum(StrandedOf(bs)) / Sum(Denominators(bs)))
  {
    TotalsSum(cohorts, bs, cs, Sum(Denominators(bs)), Sum(Denominators(cs)));
    WeightsSum(bs, Sum(Denominators(bs)));
    WeightsSum(cs, Sum(Denominators(cs)));
  }

  /** Swapping the periods negates every effect. */
  lemma SwapNegates(cohort: Name, b: Cell, c: Cell, baselineTotal: real, currentTotal: real)
    ensures var forth, back := RowOf(cohort, b, c, baselineTotal, currentTotal), RowOf(cohort, c, b, currentTotal, baselineTotal);
            back.rateEffect == -forth.rateEffect && back.mixEffect == -forth.mixEffect && back.total == -forth.total
  {
  }

  /** A cohort whose share stays contributes by its rate alone, one whose rate stays by its share
      alone. */
  lemma EachEffectIsOfItsKind(cohort: Name, b: Cell, c: Cell, baselineTotal: real, currentTotal: real)
    ensures var row := RowOf(cohort, b, c, baselineTotal, currentTotal);
            var p, q := SafeRate(b.numerator, b.denominator), SafeRate(c.numerator, c.denominator);
            var s, t := SafeRate(b.denominator, baselineTotal), SafeRate(c.denominator, currentTotal);
            && (s == t ==> row.mixEffect == 0.0 && row.rateEffect == t * (q - p))
            && (p == q ==> row.rateEffect == 0.0 && row.mixEffect == q * (t - s))
  {
  }

  /** Rates and shares are quotients: a rate of its own cell, a share of its period's volume. */
  lemma RatesAndShares(cohort: Name, b: Cell, c: Cell, baselineTotal: real, currentTotal: real)
    ensures var row := RowOf(cohort, b, c, baselineTotal, currentTotal);
            && row.cohort == cohort && row.baseline == b && row.current == c
            && (if b.denominator > 0.0 then row.baselineRate * b.denominator == b.numerator else row.baselineRate == 0.0)
            && (if c.denominator > 0.0 then row.currentRate * c.denominator == c.numerator else row.currentRate == 0.0)
            && (if baselineTotal > 0.0 then row.baselineShare * baselineTotal == b.denominator else row.baselineShare == 0.0)
            && (if currentTotal > 0.0 then row.currentShare * currentTotal == c.denominator else row.currentShare == 0.0)
  {
  }

  lemma {:induction false} SharesScale(cells: seq<Cell>, total: real)
    requires total > 0.0
    ensures Scaled(Denominators(cells), Map((x: Cell) => SafeRate(x.denominator, total), cells), total)
  {
    if cells != [] {
      var n := |cells| - 1;
      SharesScale(cells[..n], total);
      assert Denominators(cells)[..n] == Denominators(cells[..n]);
      var share := (x: Cell) => SafeRate(x.denominator, total);
      assert Map(share, cells)[..n] == Map(share, cells[..n]);
    }
  }

  /** The shares of one period sum to one. */
  lemma SharesSumToOne(cells: seq<Cell>)
    requires Sum(Denominators(cells)) > 0.0
    ensures Sum(Map((x: Cell) => SafeRate(x.denominator, Sum(Denominators(cells))), cells)) == 1.0
  {
    var total := Sum(Denominators(cells));
    SharesScale(cells, total);
    var shares := Map((x: Cell) => SafeRate(x.denominator, total), cells);
    SumScaled(shares, Denominators(cells), total);
    IsOne(Sum(shares), total, Sum(Denominators(cells)));
  }

  // ---- periods ----------------------------------------------------------------------

  lemma RestOf(names: seq<Name>, k: nat)
    requires Distinct(names) && k < |names|
    ensures var rest := names[..k] + names[k + 1..];
            Distinct(rest) && forall y :: y in rest <==> y in names && y != names[k]
  {
    var rest := names[..k] + names[k + 1..];
    forall y | y in names && y != names[k] ensures y in rest {
      var i :| 0 <= i < |names| && names[i] == y;
      assert rest[if i < k then i else i - 1] == y;
    }
  }

  /** Takes one name out of a list of distinct names. */
  lemma TakeName(names: seq<Name>, x: Name, g: Name -> real) returns (rest: seq<Name>)
    requires Distinct(names) && x in names
    ensures |rest| == |names| - 1 && Distinct(rest) && forall y :: y in rest <==> y in names && y != x
    ensures Sum(Map(g, names)) == Sum(Map(g, rest)) + g(x)
  {
    var k :| 0 <= k < |names| && names[k] == x;
    rest := names[..k] + names[k + 1..];
    RestOf(names, k);
    SumTakesOut(Map(g, names), k);
    assert Map(g, names)[..k] + Map(g, names)[k + 1..] == Map(g, rest);
  }

  /** Names outside `names` add nothing to a sum. */
  lemma {:induction false} SumOverMore(names: seq<Name>, more: seq<Name>, g: Name -> real)
    requires Distinct(names) && Distinct(more) && forall x | x in names :: x in more
    requires forall x | x in more && x !in names :: g(x) == 0.0
    ensures Sum(Map(g, more)) == Sum(Map(g, names))
    decreases |names|
  {
    if names == [] {
      SumOfZeros(Map(g, more));
    } else {
      var x := names[0];
      var fewer := TakeName(more, x, g);
      var rest := TakeName(names, x, g);
      SumOverMore(rest, fewer, g);
    }
  }

  /** A quantity that is zero for an absent cohort sums alike over the period's own cohorts and over
      those of both periods. */
  lemma SumOverCohorts(p: Period, cohorts: seq<Name>, f: Cell -> real)
    requires ValidPeriod(p) && Distinct(cohorts) && f(NOTHING) == 0.0 && forall name | name in p.cells :: name in cohorts
    ensures Sum(Map(f, CellsOf(p, cohorts))) == Sum(Map(f, CellsOf(p, p.names)))
  {
    var g := (name: Name) => f(CellOf(p, name));
    forall x | x in cohorts && x !in p.names ensures g(x) == 0.0 {
      assert CellOf(p, x) == NOTHING;
    }
    SumOverMore(p.names, cohorts, g);
    assert Map(f, CellsOf(p, cohorts)) == Map(g, cohorts);
    assert Map(f, CellsOf(p, p.names)) == Map(g, p.names);
  }

  function Own(p: Period): seq<Cell> { CellsOf(p, p.names) }

  function Volume(p: Period): real { Sum(Denominators(Own(p))) }

  function StrandedShare(p: Period): real
    requires Volume(p) != 0.0
  {
    Sum(StrandedOf(Own(p))) / Volume(p)
  }

  lemma SameSums(p: Period, cohorts: seq<Name>)
    requires ValidPeriod(p) && Distinct(cohorts) && forall name | name in p.cells :: name in cohorts
    ensures Sum(Denominators(CellsOf(p, cohorts))) == Volume(p)
    ensures Sum(Numerators(CellsOf(p, cohorts))) == Sum(Numerators(Own(p)))
    ensures Sum(StrandedOf(CellsOf(p, cohorts))) == Sum(StrandedOf(Own(p)))
  {
    SumOverCohorts(p, cohorts, (x: Cell) => x.denominator);
    SumOverCohorts(p, cohorts, (x: Cell) => x.numerator);
    SumOverCohorts(p, cohorts, Stranded);
  }

  // ---- the decomposition of two periods ----------------------------------------------------

  function Greater(x: real, y: real): real { if x < y then y else x }

  predicate Close(x: real, y: real) {
    Abs(x - y) <= Greater(0.000000001 * Greater(Abs(x), Abs(y)), 0.000000000001)
  }

  datatype Outcome = Skipped | Decomposed(rows: seq<Row>) | Failed(reconstructed: real, change: real)

  function RowsBetween(b: Period, c: Period, cohorts: seq<Name>): seq<Row> {
    RowsOf(cohorts, CellsOf(b, cohorts), CellsOf(c, cohorts), Volume(b), Volume(c))
  }

  function Change(b: Period, c: Period): real { Overall(Own(c)) - Overall(Own(b)) }

  function Reconstructed(b: Period, c: Period, cohorts: seq<Name>): real { Sum(Totals(RowsBetween(b, c, cohorts))) }

  /** One pair of adjacent periods, with the guard at the end. */
  method DecomposePair(b: Period, c: Period, cohorts: seq<Name>) returns (o: Outcome)
    ensures o == if Volume(b) <= 0.0 || Volume(c) <= 0.0 then Skipped
                 else if cohorts != [] && !Close(Reconstructed(b, c, cohorts), Change(b, c))
                 then Failed(Reconstructed(b, c, cohorts), Change(b, c))
                 else Decomposed(RowsBetween(b, c, cohorts))
  {
    var baselineTotal, currentTotal := Volume(b), Volume(c);
    if baselineTotal <= 0.0 || currentTotal <= 0.0 {
      return Skipped;
    }
    var change := Overall(Own(c)) - Overall(Own(b));
    var rows: seq<Row> := [];
    for i := 0 to |cohorts|
      invariant rows == RowsBetween(b, c, cohorts)[..i]
    {
      rows := rows + [RowOf(cohorts[i], CellOf(b, cohorts[i]), CellOf(c, cohorts[i]), baselineTotal, currentTotal)];
    }
    assert rows == RowsBetween(b, c, cohorts);
    if rows != [] {
      var reconstructed := 0.0;
      for i := 0 to |rows|
        invariant reconstructed == Sum(Totals(rows)[..i])
      {
        reconstructed := reconstructed + rows[i].total;
        assert Totals(rows)[..i + 1][..i] == Totals(rows)[..i];
      }
      assert Totals(rows)[..|rows|] == Totals(rows);
      if !Close(reconstructed, change) {
        return Failed(reconstructed, change);
      }
    }
    return Decomposed(rows);
  }

  /** Over any two periods: rate and mix effects sum exactly to the overall change exactly if the
      stranded numerators are the same share of both volumes. */
  lemma ExactReconstruction(b: Period, c: Period, cohorts: seq<Name>)
    requires ValidPeriod(b) && ValidPeriod(c) && Lists(cohorts, b, c) && Volume(b) > 0.0 && Volume(c) > 0.0
    ensures Reconstructed(b, c, cohorts) == Change(b, c) - (StrandedShare(c) - StrandedShare(b))
    ensures Reconstructed(b, c, cohorts) == Change(b, c) <==> StrandedShare(b) == StrandedShare(c)
  {
    SameSums(b, cohorts);
    SameSums(c, cohorts);
    EffectsSum(cohorts, CellsOf(b, cohorts), CellsOf(c, cohorts));
  }

  /** Every cohort with a numerator has a positive denominator. */
  ghost predicate Sound(p: Period) {
    forall name | name in p.cells :: p.cells[name].denominator > 0.0 || p.cells[name].numerator == 0.0
  }

  lemma {:induction false} NothingStranded(cells: seq<Cell>)
    requires forall i | 0 <= i < |cells| :: Stranded(cells[i]) == 0.0
    ensures Sum(StrandedOf(cells)) == 0.0
  {
    if cells != [] {
      var n := |cells| - 1;
      NothingStranded(cells[..n]);
      assert StrandedOf(cells)[..n] == StrandedOf(cells[..n]);
    }
  }

  lemma SoundStrandsNothing(p: Period)
    requires ValidPeriod(p) && Sound(p) && Volume(p) > 0.0
    ensures StrandedShare(p) == 0.0
  {
    forall i | 0 <= i < |Own(p)| ensures Stranded(Own(p)[i]) == 0.0 {
      assert p.names[i] in p.cells;
    }
    NothingStranded(Own(p));
  }

  /** The guard is silent wherever every cohort with a numerator has a positive denominator. */
  lemma GuardIsSilent(b: Period, c: Period, cohorts: seq<Name>)
    requires ValidPeriod(b) && ValidPeriod(c) && Lists(cohorts, b, c) && Volume(b) > 0.0 && Volume(c) > 0.0
    requires Sound(b) && Sound(c)
    ensures Reconstructed(b, c, cohorts) == Change(b, c)
  {
    SoundStrandsNothing(b);
    SoundStrandsNothing(c);
    ExactReconstruction(b, c, cohorts);
  }

  const BEFORE := Period([0], map[0 := Cell(0.0, 1.0)])
  const AFTER := Period([0, 1], map[0 := Cell(0.0, 1.0), 1 := Cell(1.0, 0.0)])

  lemma ExampleVolumes()
    ensures Volume(BEFORE) == 1.0 && Volume(AFTER) == 1.0 && Change(BEFORE, AFTER) == 1.0
    ensures Sum(StrandedOf(Own(BEFORE))) == 0.0 && Sum(StrandedOf(Own(AFTER))) == 1.0
  {
    assert Own(BEFORE) == [Cell(0.0, 1.0)] && Own(AFTER) == [Cell(0.0, 1.0), Cell(1.0, 0.0)];
    Sums1(Denominators(Own(BEFORE)));
    Sums1(Numerators(Own(BEFORE)));
    Sums1(StrandedOf(Own(BEFORE)));
    Sums2(Denominators(Own(AFTER)));
    Sums2(Numerators(Own(AFTER)));
    Sums2(StrandedOf(Own(AFTER)));
  }

  lemma ExamplePeriods()
    ensures ValidPeriod(BEFORE) && ValidPeriod(AFTER) && Lists([0, 1], BEFORE, AFTER)
  {
  }

  lemma ExampleEffects()
    ensures Reconstructed(BEFORE, AFTER, [0, 1]) == 0.0
  {
    ExamplePeriods();
    ExampleVolumes();
    ExactReconstruction(BEFORE, AFTER, [0, 1]);
  }

  lemma ExampleIsFar()
    ensures !Close(Reconstructed(BEFORE, AFTER, [0, 1]), Change(BEFORE, AFTER))
  {
    ExampleVolumes();
    ExampleEffects();
    FarFromOne(Reconstructed(BEFORE, AFTER, [0, 1]), Change(BEFORE, AFTER));
  }

  /** A numerator over a zero denominator makes the guard fire. */
  lemma StrandedNumeratorFails()
    ensures ValidPeriod(BEFORE) && ValidPeriod(AFTER) && Lists([0, 1], BEFORE, AFTER)
    ensures Volume(BEFORE) > 0.0 && Volume(AFTER) > 0.0
    ensures !Close(Reconstructed(BEFORE, AFTER, [0, 1]), Change(BEFORE, AFTER))
  {
    ExamplePeriods();
    ExampleVolumes();
    ExampleIsFar();
  }

  lemma FarFromOne(x: real, y: real)
    requires x == 0.0 && y == 1.0
    ensures !Close(x, y)
  {
  }
}
