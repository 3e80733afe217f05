/** Reliability bins and the expected calibration error of predictions. */
module Calibration {
  import opened Wrappers
  import opened Reals
  import opened Sums

  type Id = nat

  datatype Answer = Answer(caseId: Id, acceptable: set<Id>)

  datatype Prediction = Prediction(caseId: Id, ranked: seq<Id>, probabilities: map<Id, real>, abstained: bool)

  ghost predicate ValidPrediction(p: Prediction) {
    p.ranked != [] && forall x | x in p.ranked :: x in p.probabilities && 0.0 <= p.probabilities[x] <= 1.0
  }

  /** What counts of a prediction: its confidence in its first hypothesis, and whether that is
      acceptable. */
  datatype Case = Case(confidence: real, correct: bool)

  predicate InUnit(c: Case) { 0.0 <= c.confidence <= 1.0 }

  ghost predicate AllInUnit(cases: seq<Case>) { forall k | 0 <= k < |cases| :: InUnit(cases[k]) }

  function CaseOf(a: Answer, p: Prediction): (c: Case)
    requires ValidPrediction(p)
    ensures InUnit(c)
  {
    Case(p.probabilities[p.ranked[0]], p.ranked[0] in a.acceptable)
  }

  /** The cases that count among the first `n`, in order. */
  function Included(answers: seq<Answer>, predictions: seq<Prediction>, abstentions: bool, n: nat): (cases: seq<Case>)
    requires n <= |answers| == |predictions| && forall k | 0 <= k < |predictions| :: ValidPrediction(predictions[k])
    ensures AllInUnit(cases)
  {
    if n == 0 then []
    else
      Included(answers, predictions, abstentions, n - 1)
      + if predictions[n - 1].abstained && !abstentions then [] else [CaseOf(answers[n - 1], predictions[n - 1])]
  }

  /** How many of the first `n` predictions count. */
  function CountedBefore(predictions: seq<Prediction>, abstentions: bool, n: nat): nat
    requires n <= |predictions|
  {
    if n == 0 then 0
    else CountedBefore(predictions, abstentions, n - 1) + if predictions[n - 1].abstained && !abstentions then 0 else 1
  }

  lemma {:induction false} AsManyCases(answers: seq<Answer>, predictions: seq<Prediction>, abstentions: bool, n: nat)
    requires n <= |answers| == |predictions| && forall k | 0 <= k < |predictions| :: ValidPrediction(predictions[k])
    ensures |Included(answers, predictions, abstentions, n)| == CountedBefore(predictions, abstentions, n)
  {
    if n > 0 {
      AsManyCases(answers, predictions, abstentions, n - 1);
    }
  }

  /** A prediction counts unless it abstained and abstentions are left out; its case has the
      probability of its first hypothesis, and is correct if that is acceptable. */
  lemma {:induction false} CaseAt(answers: seq<Answer>, predictions: seq<Prediction>, abstentions: bool, n: nat, k: nat)
    requires k < n <= |answers| == |predictions| && forall j | 0 <= j < |predictions| :: ValidPrediction(predictions[j])
    requires abstentions || !predictions[k].abstained
    ensures var cases, i := Included(answers, predictions, abstentions, n), CountedBefore(predictions, abstentions, k);
            && |cases| == CountedBefore(predictions, abstentions, n) && i < |cases|
            && cases[i].confidence == predictions[k].probabilities[predictions[k].ranked[0]]
            && (cases[i].correct <==> predictions[k].ranked[0] in answers[k].acceptable)
  {
    AsManyCases(answers, predictions, abstentions, n);
    AsManyCases(answers, predictions, abstentions, n - 1);
    if k < n - 1 {
      CaseAt(answers, predictions, abstentions, n - 1, k);
    }
  }

  // ---- bins -------------------------------------------------------------------------

  function Floor(x: real): int { x.Floor }

  function BinOf(confidence: real, bins: nat): (i: nat)
    requires bins > 0 && 0.0 <= confidence <= 1.0
    ensures i < bins
  {
    Nonnegative(confidence, bins as real);
    var i := Floor(confidence * bins as real);
    if i < bins - 1 then i else bins - 1
  }

  function Lower(i: nat, bins: nat): real
    requires bins > 0
  {
    i as real / bins as real
  }

  /** A case falls between the bounds of its bin; only the last bin contains its upper bound. */
  lemma BinContains(confidence: real, bins: nat)
    requires bins > 0 && 0.0 <= confidence <= 1.0
    ensures var i := BinOf(confidence, bins);
            && Lower(i, bins) <= confidence <= Lower(i + 1, bins)
            && (confidence == Lower(i + 1, bins) ==> i == bins - 1)
  {
    var n, i := bins as real, BinOf(confidence, bins);
    QuotientAtMost(i as real, n, confidence);
    QuotientAtMost((i + 1) as real, n, confidence);
    AtMostQuotient(confidence, (i + 1) as real, n);
  }

  predicate Lands(c: Case, bins: nat, i: nat)
    requires bins > 0
  {
    InUnit(c) && BinOf(c.confidence, bins) == i
  }

  /** The cases of bin `i`, in order. */
  function Bucket(cases: seq<Case>, bins: nat, i: nat): seq<Case>
    requires bins > 0
  {
    if cases == [] then []
    else
      Bucket(cases[..|cases| - 1], bins, i) + if Lands(cases[|cases| - 1], bins, i) then [cases[|cases| - 1]] else []
  }

  lemma BucketGrows(cases: seq<Case>, c: Case, bins: nat, i: nat)
    requires bins > 0
    ensures Bucket(cases + [c], bins, i) == Bucket(cases, bins, i) + if Lands(c, bins, i) then [c] else []
  {
    assert (cases + [c])[..|cases|] == cases;
  }

  function Confidences(cases: seq<Case>): seq<real> { Map((c: Case) => c.confidence, cases) }

  function Hits(cases: seq<Case>): seq<real> { Map((c: Case) => if c.correct then 1.0 else 0.0, cases) }

  /** By how much confidence and accuracy of a bucket differ, times its size. */
  function Gap(cases: seq<Case>): real { Sum(Confidences(cases)) - Sum(Hits(cases)) }

  // ---- the report -------------------------------------------------------------------

  datatype ReliabilityBin = ReliabilityBin(lower: real, upper: real, count: nat, meanConfidence: Option<real>, accuracy: Option<real>)

  function BinReport(bucket: seq<Case>, i: nat, bins: nat): ReliabilityBin
    requires bins > 0
  {
    if bucket == [] then ReliabilityBin(Lower(i, bins), Lower(i + 1, bins), 0, None, None)
    else ReliabilityBin(Lower(i, bins), Lower(i + 1, bins), |bucket|,
                        Some(Sum(Confidences(bucket)) / |bucket| as real), Some(Sum(Hits(bucket)) / |bucket| as real))
  }

  /** What one bucket adds to the error. */
  function Term(bucket: seq<Case>, included: nat): real {
    if bucket == [] || included == 0 then 0.0
    else |bucket| as real / included as real
         * Abs(Sum(Confidences(bucket)) / |bucket| as real - Sum(Hits(bucket)) / |bucket| as real)
  }

  function Terms(cases: seq<Case>, bins: nat): seq<real>
    requires bins > 0
  {
    seq(bins, i requires 0 <= i < bins => Term(Bucket(cases, bins, i), |cases|))
  }

  datatype Error = BadBins | LengthMismatch | Misaligned

  datatype Report = Report(ece: real, included: nat, reliability: seq<ReliabilityBin>)

  predicate Aligned(answers: seq<Answer>, predictions: seq<Prediction>)
    requires |answers| == |predictions|
  {
    forall k | 0 <= k < |answers| :: answers[k].caseId == predictions[k].caseId
  }

  function BinReports(cases: seq<Case>, bins: nat): seq<ReliabilityBin>
    requires bins > 0
  {
    seq(bins, i requires 0 <= i < bins => BinReport(Bucket(cases, bins, i), i, bins))
  }

  function ReportOn(cases: seq<Case>, bins: nat): Report
    requires bins > 0
  {
    Report(Sum(Terms(cases, bins)), |cases|, BinReports(cases, bins))
  }

  ghost predicate Filled(buckets: seq<seq<Case>>, cases: seq<Case>, bins: nat) {
    bins > 0 && |buckets| == bins && forall i | 0 <= i < bins :: buckets[i] == Bucket(cases, bins, i)
  }

  /** Puts one more case into its bucket. */
  method Place(buckets: array<seq<Case>>, c: Case, ghost cases: seq<Case>)
    requires Filled(buckets[..], cases, buckets.Length) && InUnit(c)
    modifies buckets
    ensures Filled(buckets[..], cases + [c], buckets.Length)
  {
    forall i | 0 <= i < buckets.Length
      ensures Bucket(cases + [c], buckets.Length, i) == Bucket(cases, buckets.Length, i) + if Lands(c, buckets.Length, i) then [c] else []
    {
      BucketGrows(cases, c, buckets.Length, i);
    }
    var index := BinOf(c.confidence, buckets.Length);
    buckets[index] := buckets[index] + [c];
  }

  method FillBuckets(answers: seq<Answer>, predictions: seq<Prediction>, bins: nat, abstentions: bool)
    returns (r: Result<array<seq<Case>>, Error>)
    requires bins > 0 && |answers| == |predictions| && forall k | 0 <= k < |predictions| :: ValidPrediction(predictions[k])
    ensures r.Ok? <==> Aligned(answers, predictions)
    ensures r.Ok? ==> fresh(r.value) && Filled(r.value[..], Included(answers, predictions, abstentions, |answers|), bins)
    ensures r.Err? ==> r.error == Misaligned
  {
    var buckets := new seq<Case>[bins](_ => []);
    ghost var cases: seq<Case> := [];
    for k := 0 to |answers|
      invariant buckets.Length == bins && fresh(buckets)
      invariant cases == Included(answers, predictions, abstentions, k) && Filled(buckets[..], cases, bins)
      invariant forall j | 0 <= j < k :: answers[j].caseId == predictions[j].caseId
    {
      if predictions[k].caseId != answers[k].caseId {
        return Err(Misaligned);
      }
      if !predictions[k].abstained || abstentions {
        var c := CaseOf(answers[k], predictions[k]);
        Place(buckets, c, cases);
        cases := cases + [c];
      }
    }
    return Ok(buckets);
  }

  method Total(buckets: seq<seq<Case>>, ghost cases: seq<Case>, bins: nat) returns (included: nat)
    requires Filled(buckets, cases, bins) && AllInUnit(cases)
    ensures included == |cases|
  {
    included := 0;
    for i := 0 to bins
      invariant included == SizesUpTo(cases, bins, i)
    {
      included := included + |buckets[i]|;
    }
    SizesSum(cases, bins);
  }

  method Accumulate(buckets: seq<seq<Case>>, included: nat) returns (ece: real)
    ensures ece == Sum(Map(b => Term(b, included), buckets))
  {
    ece := 0.0;
    ghost var terms := Map(b => Term(b, included), buckets);
    for i := 0 to |buckets|
      invariant ece == Sum(terms[..i])
    {
      var term := Term(buckets[i], included);
      ece := ece + term;
      assert terms[..i + 1][..i] == terms[..i];
    }
    assert terms[..|buckets|] == terms;
  }

  /** The report over filled buckets. */
  method Summarize(buckets: seq<seq<Case>>, ghost cases: seq<Case>, bins: nat) returns (r: Report)
    requires Filled(buckets, cases, bins) && AllInUnit(cases)
    ensures r == ReportOn(cases, bins)
  {
    var included := Total(buckets, cases, bins);
    var reliability: seq<ReliabilityBin> := [];
    for i := 0 to bins
      invariant reliability == BinReports(cases, bins)[..i]
    {
      reliability := reliability + [BinReport(buckets[i], i, bins)];
    }
    var ece := Accumulate(buckets, included);
    assert Map(b => Term(b, included), buckets) == Terms(cases, bins);
    r := Report(ece, included, reliability);
  }

  method CalibrationReport(answers: seq<Answer>, predictions: seq<Prediction>, bins: int, abstentions: bool)
    returns (r: Result<Report, Error>)
    requires forall k | 0 <= k < |predictions| :: ValidPrediction(predictions[k])
    ensures r == if bins < 1 || bins > 100 then Err(BadBins)
                 else if |answers| != |predictions| then Err(LengthMismatch)
                 else if !Aligned(answers, predictions) then Err(Misaligned)
                 else Ok(ReportOn(Included(answers, predictions, abstentions, |answers|), bins))
  {
    if bins < 1 || bins > 100 {
      return Err(BadBins);
    }
    if |answers| != |predictions| {
      return Err(LengthMismatch);
    }
    var filled := FillBuckets(answers, predictions, bins, abstentions);
    if filled.Err? {
      return Err(Misaligned);
    }
    var report := Summarize(filled.value[..], Included(answers, predictions, abstentions, |answers|), bins);
    return Ok(report);
  }

  // ---- every case is in exactly one bin ---------------------------------------------------

  function SizesUpTo(cases: seq<Case>, bins: nat, i: nat): nat
    requires bins > 0
  {
    if i == 0 then 0 else SizesUpTo(cases, bins, i - 1) + |Bucket(cases, bins, i - 1)|
  }

  lemma {:induction false} SizesGrow(cases: seq<Case>, bins: nat, i: nat)
    requires bins > 0 && cases != [] && InUnit(cases[|cases| - 1])
    ensures SizesUpTo(cases, bins, i)
            == SizesUpTo(cases[..|cases| - 1], bins, i) + if BinOf(cases[|cases| - 1].confidence, bins) < i then 1 else 0
  {
    if i > 0 {
      SizesGrow(cases, bins, i - 1);
    }
  }

  lemma {:induction false} NoSizes(bins: nat, i: nat)
    requires bins > 0
    ensures SizesUpTo([], bins, i) == 0
  {
    if i > 0 {
      NoSizes(bins, i - 1);
    }
  }

  /** The bins hold every included case once. */
  lemma {:induction false} SizesSum(cases: seq<Case>, bins: nat)
    requires bins > 0 && AllInUnit(cases)
    ensures SizesUpTo(cases, bins, bins) == |cases|
  {
    if cases == [] {
      NoSizes(bins, bins);
    } else {
      SizesSum(cases[..|cases| - 1], bins);
      SizesGrow(cases, bins, bins);
    }
  }

  // ---- bounds on the error --------------------------------------------------------------

  function Gaps(cases: seq<Case>, bins: nat): seq<real>
    requires bins > 0
  {
    seq(bins, i requires 0 <= i < bins => Gap(Bucket(cases, bins, i)))
  }

  lemma GapGrows(cases: seq<Case>, c: Case)
    ensures Gap(cases + [c]) == Gap(cases) + c.confidence - (if c.correct then 1.0 else 0.0)
  {
    assert Confidences(cases + [c])[..|cases|] == Confidences(cases);
    assert Hits(cases + [c])[..|cases|] == Hits(cases);
  }

  lemma BucketAfter(cases: seq<Case>, c: Case, bins: nat, i: nat)
    requires bins > 0 && InUnit(c)
    ensures Bucket(cases + [c], bins, i)
            == if i == BinOf(c.confidence, bins) then Bucket(cases, bins, i) + [c] else Bucket(cases, bins, i)
  {
    BucketGrows(cases, c, bins, i);
    assert Bucket(cases, bins, i) + [] == Bucket(cases, bins, i);
  }

  /** The gaps of the bins add up to the gap of all cases. */
  lemma {:induction false} GapsSum(cases: seq<Case>, bins: nat)
    requires bins > 0 && AllInUnit(cases)
    ensures Sum(Gaps(cases, bins)) == Gap(cases)
  {
    if cases == [] {
      SumOfZeros(Gaps(cases, bins));
    } else {
      var fewer, c := cases[..|cases| - 1], cases[|cases| - 1];
      GapsSum(fewer, bins);
      assert cases == fewer + [c];
      GapGrows(fewer, c);
      var k := BinOf(c.confidence, bins);
      forall i | 0 <= i < bins
        ensures Gaps(cases, bins)[i] == if i == k then Gap(Bucket(fewer, bins, i) + [c]) else Gaps(fewer, bins)[i]
      {
        BucketAfter(fewer, c, bins, i);
      }
      GapGrows(Bucket(fewer, bins, k), c);
      assert Gaps(cases, bins) == Gaps(fewer, bins)[k := Gaps(cases, bins)[k]];
      SumUpdate(Gaps(fewer, bins), k, Gaps(cases, bins)[k]);
    }
  }

  /** A bucket's confidence and accuracy differ by at most its size. */
  lemma {:induction false} GapBounded(cases: seq<Case>)
    requires AllInUnit(cases)
    ensures Abs(Gap(cases)) <= |cases| as real
  {
    if cases != [] {
      var fewer, c := cases[..|cases| - 1], cases[|cases| - 1];
      GapBounded(fewer);
      assert cases == fewer + [c];
      GapGrows(fewer, c);
    }
  }

  lemma {:induction false} BucketInUnit(cases: seq<Case>, bins: nat, i: nat)
    requires bins > 0
    ensures AllInUnit(Bucket(cases, bins, i))
  {
    if cases != [] {
      BucketInUnit(cases[..|cases| - 1], bins, i);
    }
  }

  lemma {:induction false} AbsOfSum(xs: seq<real>, ys: seq<real>)
    requires |ys| == |xs| && forall i | 0 <= i < |xs| :: ys[i] == Abs(xs[i])
    ensures Abs(Sum(xs)) <= Sum(ys)
  {
    if xs != [] {
      AbsOfSum(xs[..|xs| - 1], ys[..|ys| - 1]);
    }
  }

  function Distances(cases: seq<Case>, bins: nat): seq<real>
    requires bins > 0
  {
    Map(Abs, Gaps(cases, bins))
  }

  lemma {:induction false} SizesBound(cases: seq<Case>, bins: nat, i: nat)
    requires i <= bins && bins > 0
    ensures Sum(Distances(cases, bins)[..i]) <= SizesUpTo(cases, bins, i) as real
  {
    if i > 0 {
      SizesBound(cases, bins, i - 1);
      BucketInUnit(cases, bins, i - 1);
      GapBounded(Bucket(cases, bins, i - 1));
      assert Distances(cases, bins)[..i][..i - 1] == Distances(cases, bins)[..i - 1];
    }
  }

  /** The distances of the bins sum to at least the overall gap and at most the number of cases. */
  lemma DistancesBound(cases: seq<Case>, bins: nat)
    requires bins > 0 && AllInUnit(cases)
    ensures Abs(Gap(cases)) <= Sum(Distances(cases, bins)) <= |cases| as real
  {
    GapsSum(cases, bins);
    AbsOfSum(Gaps(cases, bins), Distances(cases, bins));
    SizesBound(cases, bins, bins);
    SizesSum(cases, bins);
    assert Distances(cases, bins)[..bins] == Distances(cases, bins);
  }

  lemma AbsScales(d: real, n: real)
    requires n > 0.0
    ensures Abs(d) * n == Abs(d * n)
  {
    Signs(d, n);
    assert (-d) * n == -(d * n);
  }

  lemma DifferenceOfQuotients(c: real, a: real, n: real, d: real)
    requires n > 0.0 && d == c / n - a / n
    ensures d * n == c - a
  {
    Quotient(c, n);
    Quotient(a, n);
    Difference(c / n, a / n, n);
  }

  /** The distance of two means, times their size. */
  lemma MeanDistance(c: real, a: real, n: nat)
    requires n > 0
    ensures Times(Abs(c / n as real - a / n as real), n) == Abs(c - a)
  {
    var d := c / n as real - a / n as real;
    DifferenceOfQuotients(c, a, n as real, d);
    AbsScales(d, n as real);
    TimesIsProduct(Abs(d), n);
  }

  lemma WeightedTimes(w: real, b: nat, n: nat, x: real, y: real)
    requires w * n as real == b as real && y == w * x
    ensures Times(y, n) == Times(x, b)
  {
    Reorder(w, x, n as real);
    TimesIsProduct(y, n);
    TimesIsProduct(x, b);
  }

  lemma Reorder(w: real, x: real, n: real)
    ensures w * x * n == x * (w * n)
  {
  }

  lemma TermTimes(bucket: seq<Case>, included: nat)
    requires included > 0
    ensures Times(Term(bucket, included), included) == Abs(Gap(bucket))
  {
    if bucket != [] {
      var b := |bucket|;
      var x := Abs(Sum(Confidences(bucket)) / b as real - Sum(Hits(bucket)) / b as real);
      Quotient(b as real, included as real);
      WeightedTimes(b as real / included as real, b, included, x, Term(bucket, included));
      MeanDistance(Sum(Confidences(bucket)), Sum(Hits(bucket)), b);
    } else {
      SumOfZeros(Confidences(bucket));
      SumOfZeros(Hits(bucket));
      TimesZero(included);
    }
  }

  lemma {:induction false} SumTimes(xs: seq<real>, ys: seq<real>, n: nat)
    requires |ys| == |xs| && forall i | 0 <= i < |xs| :: Times(xs[i], n) == ys[i]
    ensures Times(Sum(xs), n) == Sum(ys)
  {
    if xs == [] {
      TimesZero(n);
    } else {
      var k := |xs| - 1;
      SumTimes(xs[..k], ys[..k], n);
      TimesAdds(Sum(xs[..k]), xs[k], n);
    }
  }

  function Mean(xs: seq<real>): real
    requires xs != []
  {
    Sum(xs) / |xs| as real
  }

  lemma ErrorTimesCases(cases: seq<Case>, bins: nat)
    requires bins > 0 && cases != []
    ensures Times(ReportOn(cases, bins).ece, |cases|) == Sum(Distances(cases, bins))
  {
    forall i | 0 <= i < bins ensures Times(Terms(cases, bins)[i], |cases|) == Distances(cases, bins)[i] {
      TermTimes(Bucket(cases, bins, i), |cases|);
    }
    SumTimes(Terms(cases, bins), Distances(cases, bins), |cases|);
  }

  /** The expected calibration error is at most one, and at least the distance between the mean
      confidence and the accuracy over all included cases. */
  lemma ErrorBounds(cases: seq<Case>, bins: nat)
    requires bins > 0 && AllInUnit(cases) && cases != []
    ensures Abs(Mean(Confidences(cases)) - Mean(Hits(cases))) <= ReportOn(cases, bins).ece <= 1.0
  {
    DistancesBound(cases, bins);
    ErrorTimesCases(cases, bins);
    MeanDistance(Sum(Confidences(cases)), Sum(Hits(cases)), |cases|);
    TimesOne(|cases|);
    TimesOrders(Abs(Mean(Confidences(cases)) - Mean(Hits(cases))), ReportOn(cases, bins).ece, |cases|);
    TimesOrders(ReportOn(cases, bins).ece, 1.0, |cases|);
  }

  /** Without included cases the error is zero. */
  lemma NoCasesNoError(bins: nat)
    requires bins > 0
    ensures ReportOn([], bins).ece == 0.0
  {
    SumOfZeros(Terms([], bins));
  }

  // ---- what a bin reports -------------------------------------------------------------

  /** How many of the cases are predicted correctly. */
  function CorrectIn(cases: seq<Case>): nat {
    if cases == [] then 0 else CorrectIn(cases[..|cases| - 1]) + if cases[|cases| - 1].correct then 1 else 0
  }

  lemma {:induction false} HitsCount(cases: seq<Case>)
    ensures Sum(Hits(cases)) == CorrectIn(cases) as real && CorrectIn(cases) <= |cases|
  {
    if cases != [] {
      var n := |cases| - 1;
      HitsCount(cases[..n]);
      assert Hits(cases)[..n] == Hits(cases[..n]);
    }
  }

  lemma {:induction false} SumWithin(xs: seq<real>, lower: real, upper: real)
    requires forall k | 0 <= k < |xs| :: lower <= xs[k] <= upper
    ensures Times(lower, |xs|) <= Sum(xs) <= Times(upper, |xs|)
  {
    if xs != [] {
      SumWithin(xs[..|xs| - 1], lower, upper);
    }
  }

  lemma {:induction false} BucketLands(cases: seq<Case>, bins: nat, i: nat)
    requires bins > 0
    ensures forall c | c in Bucket(cases, bins, i) :: Lands(c, bins, i)
  {
    if cases != [] {
      BucketLands(cases[..|cases| - 1], bins, i);
    }
  }

  lemma BucketWithin(bucket: seq<Case>, bins: nat, i: nat)
    requires bins > 0 && forall c | c in bucket :: Lands(c, bins, i)
    ensures forall x | x in Confidences(bucket) :: Lower(i, bins) <= x <= Lower(i + 1, bins)
  {
    forall x | x in Confidences(bucket) ensures Lower(i, bins) <= x <= Lower(i + 1, bins) {
      var k :| 0 <= k < |bucket| && bucket[k].confidence == x;
      assert bucket[k] in bucket;
      assert Lands(bucket[k], bins, i);
      BinContains(bucket[k].confidence, bins);
    }
  }

  lemma MeanTimes(xs: seq<real>)
    requires xs != []
    ensures Times(Mean(xs), |xs|) == Sum(xs)
  {
    TimesIsProduct(Mean(xs), |xs|);
    Quotient(Sum(xs), |xs| as real);
  }

  lemma MeanWithin(xs: seq<real>, mean: real, lower: real, upper: real)
    requires xs != [] && Times(mean, |xs|) == Sum(xs) && forall x | x in xs :: lower <= x <= upper
    ensures lower <= mean <= upper
  {
    forall k | 0 <= k < |xs| ensures lower <= xs[k] <= upper {
      assert xs[k] in xs;
    }
    SumWithin(xs, lower, upper);
    TimesOrders(lower, mean, |xs|);
    TimesOrders(mean, upper, |xs|);
  }

  /** A bin counts its cases.  Its mean confidence times that number is the sum of their
      confidences, and lies within the bin; its accuracy times that number is how many of them are
      correct. */
  lemma BinMeans(cases: seq<Case>, bins: nat, i: nat)
    requires i < bins && Bucket(cases, bins, i) != []
    ensures var bucket, r := Bucket(cases, bins, i), ReportOn(cases, bins).reliability[i];
            && r.count == |bucket| && r.meanConfidence.Some? && r.accuracy.Some?
            && r.lower == Lower(i, bins) <= r.meanConfidence.value <= r.upper == Lower(i + 1, bins)
            && Times(r.meanConfidence.value, r.count) == Sum(Confidences(bucket))
            && Times(r.accuracy.value, r.count) == CorrectIn(bucket) as real
            && 0.0 <= r.accuracy.value <= 1.0
  {
    var bucket := Bucket(cases, bins, i);
    BucketLands(cases, bins, i);
    BucketWithin(bucket, bins, i);
    MeanTimes(Confidences(bucket));
    MeanTimes(Hits(bucket));
    assert forall x | x in Hits(bucket) :: 0.0 <= x <= 1.0;
    MeanWithin(Confidences(bucket), Mean(Confidences(bucket)), Lower(i, bins), Lower(i + 1, bins));
    MeanWithin(Hits(bucket), Mean(Hits(bucket)), 0.0, 1.0);
    HitsCount(bucket);
  }

  /** Only a bin without cases reports neither. */
  lemma EmptyBins(cases: seq<Case>, bins: nat, i: nat)
    requires i < bins
    ensures var r := ReportOn(cases, bins).reliability[i];
            && (r.meanConfidence.None? <==> Bucket(cases, bins, i) == [])
            && (r.accuracy.None? <==> Bucket(cases, bins, i) == [])
            && (r.count == 0 <==> Bucket(cases, bins, i) == [])
  {
  }
}
