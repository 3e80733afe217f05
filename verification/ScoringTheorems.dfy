/** What the scorer's numbers mean. */
module ScoringTheorems {
  import opened Wrappers
  import opened Texts
  import opened Reals
  import opened Sums
  import opened Ranking
  import opened Scoring

  // ---- Bayes' rule ------------------------------------------------------------------

  lemma {:induction false} LikelihoodPositive(prior: real, evidence: seq<Assessment>)
    requires prior > 0.0 && forall k | 0 <= k < |evidence| :: evidence[k].ratio > 0.0
    ensures Likelihood(prior, evidence) > 0.0
  {
    if evidence != [] {
      LikelihoodPositive(prior, evidence[..|evidence| - 1]);
      Positive(Likelihood(prior, evidence[..|evidence| - 1]), evidence[|evidence| - 1].ratio);
    }
  }

  lemma {:induction false} ExpOfLogLikelihood(m: Maths, prior: real, evidence: seq<Assessment>)
    requires Lawful(m) && prior > 0.0 && forall k | 0 <= k < |evidence| :: evidence[k].ratio > 0.0
    ensures m.exp(LogLikelihood(m, prior, evidence)) == Likelihood(prior, evidence)
  {
    if evidence != [] {
      var n := |evidence| - 1;
      ExpOfLogLikelihood(m, prior, evidence[..n]);
      assert ExpOfSum(m, LogLikelihood(m, prior, evidence[..n]), m.ln(evidence[n].ratio));
    }
  }

  lemma ExpOfDifference(m: Maths, a: real, b: real)
    requires Lawful(m)
    ensures m.exp(a - b) == m.exp(a) * m.exp(-b) && m.exp(-b) > 0.0
  {
    assert ExpOfSum(m, a, -b);
  }

  ghost predicate AllPositive(xs: seq<real>) { forall i | 0 <= i < |xs| :: xs[i] > 0.0 }

  function Masses(p: Proposal): seq<real> { Map(Mass, p.hypotheses) }

  lemma MassesPositive(p: Proposal)
    requires ValidProposal(p)
    ensures AllPositive(Masses(p))
  {
    forall i | 0 <= i < |p.hypotheses| ensures Masses(p)[i] > 0.0 {
      LikelihoodPositive(p.hypotheses[i].prior, p.hypotheses[i].evidence);
    }
  }

  lemma HypothesisWeight(m: Maths, h: Hypothesis, shift: real)
    requires Lawful(m) && ValidHypothesis(h)
    ensures m.exp(LogScore(m, h) - shift) == Mass(h) * m.exp(-shift)
  {
    ExpOfLogLikelihood(m, h.prior, h.evidence);
    ExpOfDifference(m, LogScore(m, h), shift);
  }

  function ScoresOf(m: Maths, hs: seq<Hypothesis>): seq<real> { Map(h => LogScore(m, h), hs) }

  lemma PrefixesOf(m: Maths, hs: seq<Hypothesis>, shift: real, n: nat)
    requires |hs| == n + 1
    ensures Shifted(m, ScoresOf(m, hs), shift)[..n] == Shifted(m, ScoresOf(m, hs[..n]), shift)
    ensures Map(Mass, hs)[..n] == Map(Mass, hs[..n])
  {
  }

  /** Every shifted weight is the mass times one common factor. */
  lemma {:induction false} WeightsAreMasses(m: Maths, hs: seq<Hypothesis>, shift: real)
    requires Lawful(m) && forall i | 0 <= i < |hs| :: ValidHypothesis(hs[i])
    ensures Scaled(Shifted(m, ScoresOf(m, hs), shift), Map(Mass, hs), m.exp(-shift))
  {
    if hs != [] {
      var n := |hs| - 1;
      WeightsAreMasses(m, hs[..n], shift);
      PrefixesOf(m, hs, shift, n);
      HypothesisWeight(m, hs[n], shift);
      ScaledStep(Shifted(m, ScoresOf(m, hs), shift), Map(Mass, hs), m.exp(-shift), n);
    }
  }

  lemma NormalizedStep(weights: seq<real>, total: real, n: nat)
    requires total > 0.0 && |weights| == n + 1
    ensures Normalized(weights, total)[..n] == Normalized(weights[..n], total)
    ensures weights[n] == Normalized(weights, total)[n] * total
  {
    Quotient(weights[n], total);
  }

  lemma {:induction false} NormalizedScales(weights: seq<real>, total: real)
    requires total > 0.0
    ensures Scaled(weights, Normalized(weights, total), total)
  {
    if weights != [] {
      var n := |weights| - 1;
      NormalizedScales(weights[..n], total);
      NormalizedStep(weights, total, n);
      ScaledStep(weights, Normalized(weights, total), total, n);
    }
  }

  lemma Regroup(q: real, all: real, factor: real)
    ensures q * (all * factor) == (q * all) * factor
  {
  }

  /** Each of `qs` is the share of its mass in all of the mass. */
  ghost predicate Shares(qs: seq<real>, masses: seq<real>, all: real) {
    |qs| == |masses| && forall i {:trigger qs[i]} | 0 <= i < |qs| :: qs[i] * all == masses[i]
  }

  lemma FactorCancels(q: real, weight: real, total: real, mass: real, all: real, factor: real)
    requires factor > 0.0 && q * total == weight && weight == mass * factor && total == all * factor
    ensures mass == q * all
  {
    Regroup(q, all, factor);
    Cancel(q * all, mass, factor);
  }

  /** A common factor cancels. */
  lemma {:induction false} Rescale(qs: seq<real>, weights: seq<real>, masses: seq<real>, total: real, all: real, factor: real)
    requires Scaled(weights, qs, total) && Scaled(weights, masses, factor)
    requires factor > 0.0 && total == all * factor
    ensures Scaled(masses, qs, all)
  {
    if qs != [] {
      var n := |qs| - 1;
      Rescale(qs[..n], weights[..n], masses[..n], total, all, factor);
      FactorCancels(qs[n], weights[n], total, masses[n], all, factor);
    }
  }

  lemma NormalizedShares(weights: seq<real>, masses: seq<real>, factor: real, total: real, all: real)
    requires factor > 0.0 && Scaled(weights, masses, factor) && total > 0.0 && total == all * factor
    ensures Scaled(masses, Normalized(weights, total), all)
  {
    NormalizedScales(weights, total);
    Rescale(Normalized(weights, total), weights, masses, total, all, factor);
  }

  lemma NormalizedBySum(weights: seq<real>, masses: seq<real>, factor: real)
    requires factor > 0.0 && Scaled(weights, masses, factor) && Sum(weights) > 0.0
    ensures Scaled(masses, Normalized(weights, Sum(weights)), Sum(masses))
  {
    SumScaled(masses, weights, factor);
    NormalizedShares(weights, masses, factor, Sum(weights), Sum(masses));
  }

  lemma ScaledShares(qs: seq<real>, masses: seq<real>, all: real)
    requires Scaled(masses, qs, all)
    ensures Shares(qs, masses, all)
  {
    forall i {:trigger qs[i]} | 0 <= i < |qs| ensures qs[i] * all == masses[i] {
      ScaledAt(masses, qs, all, i);
    }
  }

  lemma CommonFactor(m: Maths, p: Proposal) returns (factor: real)
    requires Lawful(m) && ValidProposal(p)
    ensures factor > 0.0 && Scaled(Weights(m, LogScores(m, p)), Masses(p), factor)
  {
    var shift := Greatest(LogScores(m, p));
    factor := m.exp(-shift);
    ExpOfDifference(m, 0.0, shift);
    WeightsAreMasses(m, p.hypotheses, shift);
  }

  lemma PosteriorsScale(m: Maths, p: Proposal)
    requires Lawful(m) && ValidProposal(p)
    ensures Scaled(Masses(p), Posteriors(m, p), TotalMass(p))
  {
    var factor := CommonFactor(m, p);
    WeightsArePositive(m, LogScores(m, p));
    NormalizedBySum(Weights(m, LogScores(m, p)), Masses(p), factor);
  }

  /** The shifted exponentials are Bayes' rule: a posterior is the share of its hypothesis in the
      total mass. */
  lemma PosteriorsAreBayes(m: Maths, p: Proposal)
    requires Lawful(m) && ValidProposal(p)
    ensures Shares(Posteriors(m, p), Masses(p), TotalMass(p)) && AllPositive(Masses(p))
  {
    PosteriorsScale(m, p);
    ScaledShares(Posteriors(m, p), Masses(p), TotalMass(p));
    MassesPositive(p);
  }

  ghost predicate InsideUnit(qs: seq<real>) { forall i | 0 <= i < |qs| :: 0.0 < qs[i] < 1.0 }

  lemma SharesInsideUnit(qs: seq<real>, masses: seq<real>)
    requires |masses| > 1 && AllPositive(masses) && Scaled(masses, qs, Sum(masses))
    ensures InsideUnit(qs)
  {
    SumPositive(masses);
    forall i | 0 <= i < |qs| ensures 0.0 < qs[i] < 1.0 {
      ScaledAt(masses, qs, Sum(masses), i);
      Share(qs[i], Sum(masses), masses[i]);
    }
  }

  lemma SharesSumToOne(qs: seq<real>, masses: seq<real>, all: real)
    requires all > 0.0 && all == Sum(masses) && Scaled(masses, qs, all)
    ensures Sum(qs) == 1.0
  {
    SumScaled(qs, masses, all);
    IsOne(Sum(qs), all, Sum(masses));
  }

  lemma PosteriorsSumToOne(m: Maths, p: Proposal)
    requires Lawful(m) && ValidProposal(p)
    ensures Sum(Posteriors(m, p)) == 1.0 && InsideUnit(Posteriors(m, p))
  {
    PosteriorsScale(m, p);
    MassesPositive(p);
    SumPositive(Masses(p));
    SharesSumToOne(Posteriors(m, p), Masses(p), TotalMass(p));
    SharesInsideUnit(Posteriors(m, p), Masses(p));
  }

  lemma Share(q: real, all: real, mass: real)
    requires all > 0.0 && q * all == mass && 0.0 < mass < all
    ensures 0.0 < q < 1.0
  {
    Signs(q, all);
    var x := 1.0 - q;
    assert x * all == all - mass;
    Signs(x, all);
  }

  // ---- one likelihood ratio goes up -----------------------------------------------------

  lemma {:induction false} LikelihoodGrows(prior: real, old': seq<Assessment>, new': seq<Assessment>, k: nat)
    requires prior > 0.0 && |old'| == |new'| && k < |old'| && old'[k].ratio < new'[k].ratio
    requires forall j | 0 <= j < |old'| :: 0.0 < old'[j].ratio && (j != k ==> old'[j].ratio == new'[j].ratio)
    ensures Likelihood(prior, old') < Likelihood(prior, new')
  {
    var n := |old'| - 1;
    LikelihoodPositive(prior, old'[..n]);
    if k == n {
      SameRatios(prior, old'[..n], new'[..n]);
      Positive(Likelihood(prior, old'[..n]), new'[n].ratio - old'[n].ratio);
    } else {
      LikelihoodGrows(prior, old'[..n], new'[..n], k);
      Positive(Likelihood(prior, new'[..n]) - Likelihood(prior, old'[..n]), old'[n].ratio);
    }
  }

  lemma {:induction false} SameRatios(prior: real, a: seq<Assessment>, b: seq<Assessment>)
    requires |a| == |b| && forall l | 0 <= l < |a| :: a[l].ratio == b[l].ratio
    ensures Likelihood(prior, a) == Likelihood(prior, b)
  {
    if a != [] {
      SameRatios(prior, a[..|a| - 1], b[..|b| - 1]);
    }
  }

  lemma ShareFalls(q: real, q': real, all: real, all': real, mass: real)
    requires 0.0 < all < all' && q * all == mass && q' * all' == mass && 0.0 < mass < all
    ensures q' < q
  {
    Share(q, all, mass);
    Positive(q, all' - all);
    var x := q - q';
    assert x * all' == q * (all' - all);
    Signs(x, all');
  }

  lemma ShareRises(q: real, q': real, all: real, d: real, mass: real)
    requires 0.0 < all && 0.0 < d && q * all == mass && q' * (all + d) == mass + d && 0.0 < mass < all
    ensures q' > q
  {
    Share(q, all, mass);
    Positive(1.0 - q, d);
    var x, all' := q' - q, all + d;
    assert q * all' == mass + q * d;
    assert x * all' == d - q * d;
    Signs(x, all');
  }

  /** More mass for one: its share rises, every other share falls. */
  lemma SharesMove(qs: seq<real>, qs': seq<real>, masses: seq<real>, masses': seq<real>, all: real, all': real, j: nat, own: bool)
    requires j < |masses| == |masses'| && 0.0 < masses[j] < all < all'
    requires Shares(qs, masses, all) && Shares(qs', masses', all')
    requires masses'[j] == if own then masses[j] + (all' - all) else masses[j]
    ensures if own then qs'[j] > qs[j] else qs'[j] < qs[j]
  {
    ShareMoves(qs[j], qs'[j], all, all' - all, masses[j], own);
  }

  lemma ShareMoves(q: real, q': real, all: real, d: real, mass: real, own: bool)
    requires 0.0 < all && 0.0 < d && q * all == mass && q' * (all + d) == (if own then mass + d else mass) && 0.0 < mass < all
    ensures if own then q' > q else q' < q
  {
    if own {
      ShareRises(q, q', all, d, mass);
    } else {
      ShareFalls(q, q', all, all + d, mass);
    }
  }

  ghost predicate SameButOneRatio(g: Hypothesis, h: Hypothesis, k: nat) {
    && |g.evidence| == |h.evidence| && g.prior == h.prior && k < |g.evidence|
    && forall l | 0 <= l < |g.evidence| && l != k :: g.evidence[l].ratio == h.evidence[l].ratio
  }

  ghost predicate SameBut(p: Proposal, q: Proposal, i: nat) {
    && |q.hypotheses| == |p.hypotheses| && i < |p.hypotheses|
    && forall l | 0 <= l < |p.hypotheses| && l != i :: q.hypotheses[l] == p.hypotheses[l]
  }

  lemma MassesMove(p: Proposal, q: Proposal, i: nat, k: nat, j: nat)
    requires ValidProposal(p) && SameBut(p, q, i) && j < |p.hypotheses|
    requires SameButOneRatio(p.hypotheses[i], q.hypotheses[i], k)
    requires q.hypotheses[i].evidence[k].ratio > p.hypotheses[i].evidence[k].ratio
    ensures 0.0 < Masses(p)[j] < TotalMass(p) < TotalMass(q)
    ensures Masses(q)[j] == if j == i then Masses(p)[j] + (TotalMass(q) - TotalMass(p)) else Masses(p)[j]
  {
    var g, h := p.hypotheses[i], q.hypotheses[i];
    LikelihoodGrows(g.prior, g.evidence, h.evidence, k);
    MassBelowTotal(p, j);
    assert Masses(q) == Masses(p)[i := Mass(h)];
    SumUpdate(Masses(p), i, Mass(h));
  }

  /** Proposals that differ in one likelihood ratio: the greater ratio gives its own hypothesis the
      greater posterior and every other hypothesis a smaller one. */
  lemma RaisingOneRatio(m: Maths, p: Proposal, q: Proposal, i: nat, k: nat, j: nat)
    requires Lawful(m) && ValidProposal(p) && ValidProposal(q) && j < |p.hypotheses|
    requires SameBut(p, q, i) && SameButOneRatio(p.hypotheses[i], q.hypotheses[i], k)
    requires q.hypotheses[i].evidence[k].ratio > p.hypotheses[i].evidence[k].ratio
    ensures if j == i then Posteriors(m, q)[j] > Posteriors(m, p)[j] else Posteriors(m, q)[j] < Posteriors(m, p)[j]
  {
    MassesMove(p, q, i, k, j);
    PosteriorsAreBayes(m, p);
    PosteriorsAreBayes(m, q);
    SharesMove(Posteriors(m, p), Posteriors(m, q), Masses(p), Masses(q), TotalMass(p), TotalMass(q), j, j == i);
  }

  lemma MassBelowTotal(p: Proposal, j: nat)
    requires ValidProposal(p) && j < |p.hypotheses|
    ensures 0.0 < Masses(p)[j] < TotalMass(p)
  {
    MassesPositive(p);
    SumPositive(Masses(p));
  }

  function PosteriorsOf(cs: seq<Computed>): seq<real> { Map((c: Computed) => c.posterior, cs) }

  // ---- entropy ----------------------------------------------------------------------

  lemma LnOfQuotient(m: Maths, x: real, p: real, inverse: real, n: real)
    requires Lawful(m) && 0.0 < p && 0.0 < x && n > 0.0 && inverse > 0.0
    requires x * p == inverse && n * inverse == 1.0
    ensures m.ln(x) == -m.ln(p) - m.ln(n)
  {
    assert LnOfProduct(m, x, p);
    LnOfInverse(m, n, inverse);
  }

  /** Gibbs' inequality for one term, from the tangent at 1. */
  lemma SurpriseBound(m: Maths, p: real, n: real, inverse: real)
    requires Lawful(m) && 0.0 < p < 1.0 && n > 0.0 && n * inverse == 1.0
    ensures Surprise(m, p) < 0.0
    ensures -Surprise(m, p) <= p * m.ln(n) + inverse - p
  {
    var x := inverse / p;
    assert x * p == inverse;
    Signs(inverse, n);
    Signs(x, p);
    LnOfQuotient(m, x, p, inverse, n);
    Tangent(p, x, inverse, m.ln(p), m.ln(n));
    Positive(p, -m.ln(p));
  }

  lemma Tangent(p: real, x: real, inverse: real, a: real, b: real)
    requires 0.0 < p && x * p == inverse && -a - b <= x - 1.0
    ensures -(p * a) <= p * b + inverse - p
  {
    var slack := x - 1.0 + a + b;
    assert p * slack >= 0.0;
    assert p * slack == x * p - p + p * a + p * b;
  }

  lemma {:induction false} Gibbs(m: Maths, qs: seq<real>, n: real, inverse: real)
    requires Lawful(m) && n > 1.0 && n * inverse == 1.0 && InsideUnit(qs)
    ensures Sum(Map(q => Surprise(m, q), qs)) <= 0.0
    ensures -Sum(Map(q => Surprise(m, q), qs)) <= Sum(qs) * m.ln(n) + |qs| as real * inverse - Sum(qs)
  {
    if qs != [] {
      var k := |qs| - 1;
      Gibbs(m, qs[..k], n, inverse);
      SurpriseBound(m, qs[k], n, inverse);
      var terms := Map(q => Surprise(m, q), qs);
      assert terms[..k] == Map(q => Surprise(m, q), qs[..k]);
      Distributes(Sum(qs[..k]), qs[k], m.ln(n));
      Distributes(k as real, 1.0, inverse);
      assert k as real + 1.0 == |qs| as real;
    }
  }

  lemma Fraction(h: real, l: real)
    requires 0.0 <= h <= l && l > 0.0
    ensures 0.0 <= h / l <= 1.0
  {
    var x := h / l;
    assert x * l == h;
  }

  /** The entropy of posteriors lies between 0 and 1. */
  lemma EntropyInUnit(m: Maths, cs: seq<Computed>)
    requires Lawful(m) && |cs| > 1 && Sum(PosteriorsOf(cs)) == 1.0 && InsideUnit(PosteriorsOf(cs))
    ensures m.ln(|cs| as real) > 0.0 && 0.0 <= Entropy(m, cs) <= 1.0
  {
    var n := |cs| as real;
    var qs := PosteriorsOf(cs);
    LnGrows(m, n);
    Gibbs(m, qs, n, 1.0 / n);
    assert Map(q => Surprise(m, q), qs) == Map((c: Computed) => Surprise(m, c.posterior), cs);
    Fraction(-Sum(Map(q => Surprise(m, q), qs)), m.ln(n));
  }

  // ---- the verdict ------------------------------------------------------------------

  lemma {:induction false} InsideUnitPermuted(qs: seq<real>, ys: seq<real>)
    requires Permuted(qs, ys) && InsideUnit(qs)
    ensures InsideUnit(ys)
  {
    forall i | 0 <= i < |ys| ensures 0.0 < ys[i] < 1.0 {
      assert ys[i] in multiset(qs);
      var j :| 0 <= j < |qs| && qs[j] == ys[i];
    }
  }

  /** Ranked candidates still carry posteriors inside the unit interval that sum to one. */
  lemma RankedPosteriors(cs: seq<Computed>, ranked: seq<Computed>)
    requires Permuted(cs, ranked) && Sum(PosteriorsOf(cs)) == 1.0 && InsideUnit(PosteriorsOf(cs))
    ensures Sum(PosteriorsOf(ranked)) == 1.0 && InsideUnit(PosteriorsOf(ranked))
  {
    MapPermuted((c: Computed) => c.posterior, cs, ranked);
    SumPermuted(PosteriorsOf(cs), PosteriorsOf(ranked));
    InsideUnitPermuted(PosteriorsOf(cs), PosteriorsOf(ranked));
  }

  lemma CandidatePosteriors(m: Maths, p: Proposal)
    requires Lawful(m) && ValidProposal(p)
    ensures PosteriorsOf(Candidates(m, p)) == Posteriors(m, p)
  {
  }

  lemma ProductInUnit(x: real, y: real)
    requires 0.0 <= x <= 1.0 && 0.0 <= y <= 1.0
    ensures 0.0 <= x * y <= x
  {
    assert x * (1.0 - y) >= 0.0;
  }

  lemma VerdictInUnit(policy: Policy, ranked: seq<Computed>, entropy: real)
    requires |ranked| > 1 && Ranked(ranked) && InsideUnit(PosteriorsOf(ranked)) && 0.0 <= entropy <= 1.0
    ensures var v := VerdictOn(policy, ranked, entropy);
            && 0.0 <= v.margin <= 1.0
            && 0.0 <= v.confidence <= ranked[0].posterior
            && v.confidence == ranked[0].posterior * (1.0 - entropy)
  {
    assert PosteriorsOf(ranked)[0] == ranked[0].posterior && PosteriorsOf(ranked)[1] == ranked[1].posterior;
    assert Before(ranked[0], ranked[1]);
    ProductInUnit(ranked[0].posterior, 1.0 - entropy);
    assert ranked[0].posterior * (1.0 - entropy) <= ranked[0].posterior <= 1.0;
  }

  /** An accepted score is the verdict on the ranked candidates. */
  lemma ScoreIsVerdict(m: Maths, policy: Policy, p: Proposal, observed: set<Text>) returns (ranked: seq<Computed>, entropy: real)
    requires Lawful(m) && ValidProposal(p) && Score(m, policy, p, observed).Ok?
    ensures ranked == Rank(Candidates(m, p)) && |ranked| == |p.hypotheses|
    ensures Permuted(Candidates(m, p), ranked) && Ranked(ranked)
    ensures m.ln(|ranked| as real) != 0.0 && entropy == Entropy(m, ranked)
    ensures Score(m, policy, p, observed).value == VerdictOn(policy, ranked, entropy)
  {
    RankKeepsLength(m, p);
    ranked := Rank(Candidates(m, p));
    LnGrows(m, |ranked| as real);
    entropy := Entropy(m, ranked);
  }

  lemma VerdictNumbers(m: Maths, policy: Policy, cs: seq<Computed>, ranked: seq<Computed>)
    requires Lawful(m) && Permuted(cs, ranked) && Ranked(ranked) && |ranked| > 1
    requires Sum(PosteriorsOf(cs)) == 1.0 && InsideUnit(PosteriorsOf(cs)) && m.ln(|ranked| as real) != 0.0
    ensures InUnit(VerdictOn(policy, ranked, Entropy(m, ranked)))
  {
    RankedPosteriors(cs, ranked);
    EntropyInUnit(m, ranked);
    VerdictInUnit(policy, ranked, Entropy(m, ranked));
  }

  ghost predicate InUnit(v: Verdict) {
    && |v.hypotheses| > 1
    && 0.0 <= v.entropy <= 1.0
    && 0.0 <= v.margin <= 1.0
    && 0.0 <= v.confidence <= v.hypotheses[0].posterior
    && v.confidence == v.hypotheses[0].posterior * (1.0 - v.entropy)
  }

  /** All reported numbers lie between 0 and 1, and the clamp on the confidence never acts. */
  lemma NumbersInUnit(m: Maths, policy: Policy, p: Proposal, observed: set<Text>)
    requires Lawful(m) && ValidProposal(p) && Score(m, policy, p, observed).Ok?
    ensures InUnit(Score(m, policy, p, observed).value)
  {
    var ranked, entropy := ScoreIsVerdict(m, policy, p, observed);
    assert Sum(PosteriorsOf(Candidates(m, p))) == 1.0 && InsideUnit(PosteriorsOf(Candidates(m, p))) by {
      PosteriorsSumToOne(m, p);
      CandidatePosteriors(m, p);
    }
    VerdictNumbers(m, policy, Candidates(m, p), ranked);
  }

  /** Where a ranking begins with a margin, the first is ahead of every other by it. */
  lemma FirstIsAhead(cs: seq<Computed>, ranked: seq<Computed>, margin: real) returns (i: nat)
    requires Permuted(cs, ranked) && Ranked(ranked) && |ranked| > 1
    requires ranked[0].posterior - ranked[1].posterior >= margin
    ensures i < |cs| && cs[i] == ranked[0]
    ensures forall j | 0 <= j < |cs| && cs[j] != cs[i] :: cs[i].posterior - cs[j].posterior >= margin
  {
    assert ranked[0] in multiset(cs);
    i :| 0 <= i < |cs| && cs[i] == ranked[0];
    forall j | 0 <= j < |cs| && cs[j] != cs[i] ensures cs[i].posterior - cs[j].posterior >= margin {
      assert cs[j] in multiset(ranked);
      var k :| 0 <= k < |ranked| && ranked[k] == cs[j];
      if k > 1 {
        assert Before(ranked[1], ranked[k]);
      }
    }
  }

  ghost predicate Leads(qs: seq<real>, i: nat, margin: real) {
    i < |qs| && forall j | 0 <= j < |qs| && j != i :: qs[i] - qs[j] >= margin
  }

  /** The same for posteriors listed apart from the candidates. */
  lemma FirstLeads(cs: seq<Computed>, ranked: seq<Computed>, margin: real, qs: seq<real>) returns (i: nat)
    requires Permuted(cs, ranked) && Ranked(ranked) && |ranked| > 1 && DistinctIds(cs) && PosteriorsOf(cs) == qs
    requires ranked[0].posterior - ranked[1].posterior >= margin
    ensures Leads(qs, i, margin) && i < |cs| && cs[i] == ranked[0]
  {
    i := FirstIsAhead(cs, ranked, margin);
    forall j | 0 <= j < |qs| && j != i ensures qs[i] - qs[j] >= margin {
      assert qs[j] == cs[j].posterior && qs[i] == cs[i].posterior;
      assert cs[j].id != cs[i].id;
    }
  }

  /** A concluded report names the one hypothesis that is more probable than every other, by at
      least the margin asked for; it is probable enough and rests on enough distinct evidence. */
  lemma ConcludedLeads(m: Maths, policy: Policy, p: Proposal, observed: set<Text>) returns (i: nat)
    requires Lawful(m) && ValidProposal(p) && Score(m, policy, p, observed).Ok?
    requires Score(m, policy, p, observed).value.concluded
    ensures i < |p.hypotheses| && Score(m, policy, p, observed).value.selected == Some(p.hypotheses[i].id)
    ensures Leads(Posteriors(m, p), i, policy.minimumMargin) && Posteriors(m, p)[i] >= policy.minimumTop
    ensures |CitedBy(p.hypotheses[i])| >= policy.minimumDistinct
  {
    var ranked, entropy := ScoreIsVerdict(m, policy, p, observed);
    i := ConcludedVerdict(m, policy, p, ranked, entropy);
  }

  lemma ConcludedVerdict(m: Maths, policy: Policy, p: Proposal, ranked: seq<Computed>, entropy: real) returns (i: nat)
    requires Lawful(m) && ValidProposal(p) && Permuted(Candidates(m, p), ranked) && Ranked(ranked) && |ranked| > 1
    requires Concludes(policy, ranked, entropy)
    ensures i < |p.hypotheses| && ranked[0].id == p.hypotheses[i].id
    ensures Leads(Posteriors(m, p), i, policy.minimumMargin) && Posteriors(m, p)[i] >= policy.minimumTop
    ensures |CitedBy(p.hypotheses[i])| >= policy.minimumDistinct
  {
    CandidatePosteriors(m, p);
    i := FirstLeads(Candidates(m, p), ranked, policy.minimumMargin, Posteriors(m, p));
    CandidateAt(m, p, i);
  }

  lemma CandidateAt(m: Maths, p: Proposal, i: nat)
    requires Lawful(m) && ValidProposal(p) && i < |p.hypotheses|
    ensures var c := Candidates(m, p)[i];
            && c.id == p.hypotheses[i].id && c.posterior == Posteriors(m, p)[i]
            && c.supporting + c.contradicting == CitedBy(p.hypotheses[i])
  {
    assert CitedBy(p.hypotheses[i]) == Citing(p.hypotheses[i], true) + Citing(p.hypotheses[i], false);
  }

  // ---- the order of the hypotheses ----------------------------------------------------

  function Over(total: real): real -> real { x => if total == 0.0 then 0.0 else x / total }

  lemma {:induction false} NormalizedIsMap(weights: seq<real>, total: real)
    requires total != 0.0
    ensures Normalized(weights, total) == Map(Over(total), weights)
  {
    if weights != [] {
      NormalizedIsMap(weights[..|weights| - 1], total);
    }
  }

  /** Candidates made hypothesis by hypothesis, from a score `f` and a posterior `g` of the score. */
  lemma CandidatesApart(f: Hypothesis -> real, g: real -> real, hs: seq<Hypothesis>)
    ensures CandidatesFrom(hs, Map(f, hs), Map(g, Map(f, hs))) == Map(h => Candidate(h, f(h), g(f(h))), hs)
  {
  }

  lemma CandidatesFromPermuted(f: Hypothesis -> real, g: real -> real, hs: seq<Hypothesis>, gs: seq<Hypothesis>)
    requires Permuted(hs, gs)
    ensures Permuted(CandidatesFrom(hs, Map(f, hs), Map(g, Map(f, hs))), CandidatesFrom(gs, Map(f, gs), Map(g, Map(f, gs))))
  {
    CandidatesApart(f, g, hs);
    CandidatesApart(f, g, gs);
    MapPermuted(h => Candidate(h, f(h), g(f(h))), hs, gs);
  }

  lemma WeightsPermuted(m: Maths, a: seq<real>, b: seq<real>)
    requires Permuted(a, b) && a != []
    ensures b != [] && Greatest(a) == Greatest(b) && Sum(Weights(m, a)) == Sum(Weights(m, b))
  {
    SameGreatest(a, b);
    MapPermuted(x => m.exp(x - Greatest(a)), a, b);
    SumPermuted(Weights(m, a), Weights(m, b));
  }

  function PosteriorOf(m: Maths, shift: real, total: real): real -> real { x => Over(total)(m.exp(x - shift)) }

  lemma PosteriorsApart(m: Maths, p: Proposal, shift: real, total: real)
    requires Lawful(m) && p.hypotheses != []
    requires shift == Greatest(LogScores(m, p)) && total == Sum(Weights(m, LogScores(m, p)))
    ensures Posteriors(m, p) == Map(PosteriorOf(m, shift, total), LogScores(m, p))
  {
    WeightsArePositive(m, LogScores(m, p));
    NormalizedIsMap(Weights(m, LogScores(m, p)), total);
  }

  lemma CandidatesPermuted(m: Maths, p: Proposal, q: Proposal)
    requires Lawful(m) && p.hypotheses != [] && Permuted(p.hypotheses, q.hypotheses)
    ensures q.hypotheses != [] && Permuted(Candidates(m, p), Candidates(m, q))
  {
    SameLength(p.hypotheses, q.hypotheses);
    MapPermuted(h => LogScore(m, h), p.hypotheses, q.hypotheses);
    WeightsPermuted(m, LogScores(m, p), LogScores(m, q));
    var shift, total := Greatest(LogScores(m, p)), Sum(Weights(m, LogScores(m, p)));
    PosteriorsApart(m, p, shift, total);
    PosteriorsApart(m, q, shift, total);
    CandidatesFromPermuted(h => LogScore(m, h), PosteriorOf(m, shift, total), p.hypotheses, q.hypotheses);
  }

  lemma CandidatesDistinct(m: Maths, p: Proposal)
    requires Lawful(m) && ValidProposal(p)
    ensures DistinctIds(Candidates(m, p))
  {
  }

  lemma SameRanking(m: Maths, p: Proposal, q: Proposal)
    requires Lawful(m) && ValidProposal(p) && ValidProposal(q) && Permuted(p.hypotheses, q.hypotheses)
    ensures Rank(Candidates(m, p)) == Rank(Candidates(m, q))
  {
    CandidatesPermuted(m, p, q);
    CandidatesDistinct(m, p);
    CandidatesDistinct(m, q);
    RankForgetsOrder(Candidates(m, p), Candidates(m, q));
  }

  /** What leads to a refusal or to abstention does not depend on the order of the hypotheses:
      proposals with the same hypotheses get the same verdict. */
  lemma OrderDoesNotMatter(m: Maths, policy: Policy, p: Proposal, q: Proposal, observed: set<Text>)
    requires Lawful(m) && ValidProposal(p) && ValidProposal(q)
    requires Permuted(p.hypotheses, q.hypotheses) && q.unknowns == p.unknowns && q.nextSteps == p.nextSteps
    ensures Score(m, policy, p, observed) == Score(m, policy, q, observed)
  {
    SameHypotheses(p, q);
    SameHypotheses(q, p);
    assert Cited(p) == Cited(q);
    assert RatiosInBounds(policy, p) <==> RatiosInBounds(policy, q);
    SameRanking(m, p, q);
  }

  lemma SameHypotheses(p: Proposal, q: Proposal)
    requires Permuted(p.hypotheses, q.hypotheses)
    ensures forall h | h in p.hypotheses :: h in q.hypotheses
  {
    forall h | h in p.hypotheses ensures h in q.hypotheses {
      assert h in multiset(q.hypotheses);
    }
  }

  lemma SameGreatest(xs: seq<real>, ys: seq<real>)
    requires Permuted(xs, ys) && xs != []
    ensures ys != [] && Greatest(xs) == Greatest(ys)
  {
    SameLength(xs, ys);
    assert Greatest(xs) in multiset(ys) && Greatest(ys) in multiset(xs);
    var i :| 0 <= i < |xs| && xs[i] == Greatest(ys);
    var j :| 0 <= j < |ys| && ys[j] == Greatest(xs);
  }
}
