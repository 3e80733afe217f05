/** Turning a proposal of competing hypotheses into posteriors and a decision. */
module Scoring {
  import opened Wrappers
  import opened Texts
  import opened Reals
  import opened Sums
  import opened Ranking

  // ---- logarithm and exponential ----------------------------------------------------

  datatype Maths = Maths(ln: real -> real, exp: real -> real)

  ghost predicate LnOfProduct(m: Maths, x: real, y: real) {
    0.0 < x && 0.0 < y ==> m.ln(x * y) == m.ln(x) + m.ln(y)
  }

  ghost predicate ExpOfSum(m: Maths, a: real, b: real) { m.exp(a + b) == m.exp(a) * m.exp(b) }

  /** The laws that are used; the last one is the tangent at 1. */
  ghost predicate Lawful(m: Maths) {
    && (forall x, y :: LnOfProduct(m, x, y))
    && (forall a, b :: ExpOfSum(m, a, b))
    && (forall x :: 0.0 < x ==> m.exp(m.ln(x)) == x)
    && (forall a :: 0.0 < m.exp(a))
    && (forall x :: 0.0 < x ==> m.ln(x) <= x - 1.0)
  }

  lemma LnOfOne(m: Maths)
    requires Lawful(m)
    ensures m.ln(1.0) == 0.0
  {
    assert LnOfProduct(m, 1.0, 1.0);
  }

  lemma LnOfInverse(m: Maths, n: real, inverse: real)
    requires Lawful(m) && n > 0.0 && inverse > 0.0 && n * inverse == 1.0
    ensures m.ln(n) == -m.ln(inverse)
  {
    var one := n * inverse;
    assert LnOfProduct(m, n, inverse);
    assert m.ln(one) == m.ln(n) + m.ln(inverse);
    LnOfOne(m);
  }

  lemma LnGrows(m: Maths, n: real)
    requires Lawful(m) && n > 1.0
    ensures m.ln(n) > 0.0
  {
    var inverse := Inverse(n);
    LnOfInverse(m, n, inverse);
    assert m.ln(inverse) <= inverse - 1.0;
  }

  // ---- proposals --------------------------------------------------------------------

  datatype Assessment = Assessment(evidence: Text, support: bool, ratio: real)

  datatype Hypothesis = Hypothesis(id: Text, prior: real, evidence: seq<Assessment>)

  datatype Proposal = Proposal(hypotheses: seq<Hypothesis>, unknowns: seq<Text>, nextSteps: seq<Text>)

  datatype Policy = Policy(minimumTop: real, minimumMargin: real, minimumDistinct: nat, maximumEntropy: real,
                           ratioMin: real, ratioMax: real)

  predicate ValidAssessment(a: Assessment) {
    0.0 < a.ratio <= 100.0 && if a.support then a.ratio > 1.0 else a.ratio < 1.0
  }

  ghost predicate ValidHypothesis(h: Hypothesis) {
    && 0.0 < h.prior < 1.0 && 1 <= |h.evidence| <= 30
    && (forall k | 0 <= k < |h.evidence| :: ValidAssessment(h.evidence[k]))
    && (forall j, k | 0 <= j < k < |h.evidence| :: h.evidence[j].evidence != h.evidence[k].evidence)
  }

  ghost predicate ValidProposal(p: Proposal) {
    && 2 <= |p.hypotheses| <= 8
    && (forall i | 0 <= i < |p.hypotheses| :: ValidHypothesis(p.hypotheses[i]))
    && (forall i, j | 0 <= i < j < |p.hypotheses| :: p.hypotheses[i].id != p.hypotheses[j].id)
  }

  predicate InBounds(policy: Policy, h: Hypothesis) {
    forall a | a in h.evidence :: policy.ratioMin <= a.ratio <= policy.ratioMax
  }

  predicate RatiosInBounds(policy: Policy, p: Proposal) {
    forall h | h in p.hypotheses :: InBounds(policy, h)
  }

  function CitedBy(h: Hypothesis): set<Text> { set a | a in h.evidence :: a.evidence }

  function Cited(p: Proposal): set<Text> { set h, e | h in p.hypotheses && e in CitedBy(h) :: e }

  function Citing(h: Hypothesis, support: bool): set<Text> {
    set a | a in h.evidence && a.support == support :: a.evidence
  }

  // ---- Bayes' rule, as a definition ---------------------------------------------------

  /** Prior times the likelihood ratios of the evidence. */
  function Likelihood(prior: real, evidence: seq<Assessment>): real {
    if evidence == [] then prior
    else Likelihood(prior, evidence[..|evidence| - 1]) * evidence[|evidence| - 1].ratio
  }

  function Mass(h: Hypothesis): real { Likelihood(h.prior, h.evidence) }

  function TotalMass(p: Proposal): real { Sum(Map(Mass, p.hypotheses)) }

  // ---- the score --------------------------------------------------------------------

  function LogLikelihood(m: Maths, prior: real, evidence: seq<Assessment>): real {
    if evidence == [] then m.ln(prior)
    else LogLikelihood(m, prior, evidence[..|evidence| - 1]) + m.ln(evidence[|evidence| - 1].ratio)
  }

  function LogScore(m: Maths, h: Hypothesis): real { LogLikelihood(m, h.prior, h.evidence) }

  function LogScores(m: Maths, p: Proposal): seq<real> { Map(h => LogScore(m, h), p.hypotheses) }

  function Greatest(xs: seq<real>): (g: real)
    requires xs != []
    ensures g in xs && forall i | 0 <= i < |xs| :: xs[i] <= g
  {
    var last := xs[|xs| - 1];
    if |xs| == 1 then last
    else
      var g := Greatest(xs[..|xs| - 1]);
      if g < last then last else g
  }

  function Shifted(m: Maths, scores: seq<real>, shift: real): seq<real> { Map(x => m.exp(x - shift), scores) }

  /** Scores are shifted by the greatest one before they are exponentiated. */
  function Weights(m: Maths, scores: seq<real>): seq<real>
    requires scores != []
  {
    Shifted(m, scores, Greatest(scores))
  }

  function Normalized(weights: seq<real>, total: real): (qs: seq<real>)
    requires total != 0.0
    ensures |qs| == |weights|
  {
    if weights == [] then []
    else Normalized(weights[..|weights| - 1], total) + [weights[|weights| - 1] / total]
  }

  function Posteriors(m: Maths, p: Proposal): (qs: seq<real>)
    requires Lawful(m) && p.hypotheses != []
    ensures |qs| == |p.hypotheses|
  {
    var weights := Weights(m, LogScores(m, p));
    WeightsArePositive(m, LogScores(m, p));
    Normalized(weights, Sum(weights))
  }

  function Candidate(h: Hypothesis, score: real, posterior: real): Computed {
    Computed(h.id, h.prior, posterior, score, Citing(h, true), Citing(h, false))
  }

  function CandidatesFrom(hs: seq<Hypothesis>, scores: seq<real>, posteriors: seq<real>): seq<Computed>
    requires |scores| == |hs| == |posteriors|
  {
    seq(|hs|, i requires 0 <= i < |hs| => Candidate(hs[i], scores[i], posteriors[i]))
  }

  function Candidates(m: Maths, p: Proposal): seq<Computed>
    requires Lawful(m) && p.hypotheses != []
  {
    CandidatesFrom(p.hypotheses, LogScores(m, p), Posteriors(m, p))
  }

  function Surprise(m: Maths, p: real): real { if p > 0.0 then p * m.ln(p) else 0.0 }

  /** Entropy in units of its greatest possible value. */
  function Entropy(m: Maths, cs: seq<Computed>): real
    requires |cs| > 1 && m.ln(|cs| as real) != 0.0
  {
    -Sum(Map((c: Computed) => Surprise(m, c.posterior), cs)) / m.ln(|cs| as real)
  }

  function Clamp(x: real): real {
    var y := if x < 1.0 then x else 1.0;
    if y > 0.0 then y else 0.0
  }

  datatype Refusal = Unobserved | OutsideBounds | NoUnknown | NoNextStep

  datatype Verdict = Verdict(concluded: bool, selected: Option<Text>, confidence: real, entropy: real,
                             margin: real, hypotheses: seq<Computed>)

  predicate Concludes(policy: Policy, ranked: seq<Computed>, entropy: real)
    requires |ranked| > 1
  {
    && ranked[0].posterior >= policy.minimumTop
    && ranked[0].posterior - ranked[1].posterior >= policy.minimumMargin
    && |ranked[0].supporting + ranked[0].contradicting| >= policy.minimumDistinct
    && entropy <= policy.maximumEntropy
  }

  function VerdictOn(policy: Policy, ranked: seq<Computed>, entropy: real): Verdict
    requires |ranked| > 1
  {
    var concluded := Concludes(policy, ranked, entropy);
    Verdict(concluded, if concluded then Some(ranked[0].id) else None,
            Clamp(ranked[0].posterior * (1.0 - entropy)), entropy,
            ranked[0].posterior - ranked[1].posterior, ranked)
  }

  function Score(m: Maths, policy: Policy, p: Proposal, observed: set<Text>): (r: Result<Verdict, Refusal>)
    requires Lawful(m) && ValidProposal(p)
    ensures r.Ok? ==> Cited(p) <= observed && RatiosInBounds(policy, p)
    ensures r.Ok? && !r.value.concluded ==> p.unknowns != [] && p.nextSteps != []
  {
    if !(Cited(p) <= observed) then Err(Unobserved)
    else if !RatiosInBounds(policy, p) then Err(OutsideBounds)
    else
      RankKeepsLength(m, p);
      var ranked := Rank(Candidates(m, p));
      LnGrows(m, |ranked| as real);
      var v := VerdictOn(policy, ranked, Entropy(m, ranked));
      if !v.concluded && p.unknowns == [] then Err(NoUnknown)
      else if !v.concluded && p.nextSteps == [] then Err(NoNextStep)
      else Ok(v)
  }

  lemma RankKeepsLength(m: Maths, p: Proposal)
    requires Lawful(m) && ValidProposal(p)
    ensures |Rank(Candidates(m, p))| == |p.hypotheses|
    ensures Permuted(Candidates(m, p), Rank(Candidates(m, p))) && Ranked(Rank(Candidates(m, p)))
  {
    RankRanks(Candidates(m, p));
    SameLength(Candidates(m, p), Rank(Candidates(m, p)));
  }

  /** The log score of one hypothesis, unless one of its ratios is out of bounds. */
  method AccumulateScore(m: Maths, policy: Policy, h: Hypothesis) returns (r: Option<real>)
    ensures r == if InBounds(policy, h) then Some(LogScore(m, h)) else None
  {
    var score := m.ln(h.prior);
    for k := 0 to |h.evidence|
      invariant score == LogLikelihood(m, h.prior, h.evidence[..k])
      invariant forall j | 0 <= j < k :: policy.ratioMin <= h.evidence[j].ratio <= policy.ratioMax
    {
      var a := h.evidence[k];
      if !(policy.ratioMin <= a.ratio <= policy.ratioMax) {
        return None;
      }
      score := score + m.ln(a.ratio);
      assert h.evidence[..k + 1][..k] == h.evidence[..k];
    }
    assert h.evidence[..|h.evidence|] == h.evidence;
    return Some(score);
  }

  method AccumulateScores(m: Maths, policy: Policy, p: Proposal) returns (r: Option<seq<real>>)
    ensures r == if RatiosInBounds(policy, p) then Some(LogScores(m, p)) else None
  {
    var scores: seq<real> := [];
    for i := 0 to |p.hypotheses|
      invariant scores == LogScores(m, p)[..i]
      invariant forall j | 0 <= j < i :: InBounds(policy, p.hypotheses[j])
    {
      var score := AccumulateScore(m, policy, p.hypotheses[i]);
      if score.None? {
        return None;
      }
      scores := scores + [score.value];
    }
    assert LogScores(m, p)[..|p.hypotheses|] == LogScores(m, p);
    return Some(scores);
  }

  method MakeCandidates(hs: seq<Hypothesis>, scores: seq<real>, posteriors: seq<real>) returns (computed: seq<Computed>)
    requires |scores| == |hs| == |posteriors|
    ensures computed == CandidatesFrom(hs, scores, posteriors)
  {
    computed := [];
    for i := 0 to |hs|
      invariant computed == CandidatesFrom(hs, scores, posteriors)[..i]
    {
      computed := computed + [Candidate(hs[i], scores[i], posteriors[i])];
    }
  }

  method Compute(m: Maths, p: Proposal, scores: seq<real>) returns (computed: seq<Computed>)
    requires Lawful(m) && ValidProposal(p) && scores == LogScores(m, p)
    ensures computed == Candidates(m, p)
  {
    var weights := Weights(m, scores);
    WeightsArePositive(m, scores);
    computed := MakeCandidates(p.hypotheses, scores, Normalized(weights, Sum(weights)));
  }

  /** The scorer's loops compute `Score`. */
  method ScoreProposal(m: Maths, policy: Policy, p: Proposal, observed: set<Text>) returns (r: Result<Verdict, Refusal>)
    requires Lawful(m) && ValidProposal(p)
    ensures r == Score(m, policy, p, observed)
  {
    if !(Cited(p) <= observed) {
      return Err(Unobserved);
    }
    var scores := AccumulateScores(m, policy, p);
    if scores.None? {
      return Err(OutsideBounds);
    }
    var computed := Compute(m, p, scores.value);
    RankKeepsLength(m, p);
    var ranked := Rank(computed);
    LnGrows(m, |ranked| as real);
    var v := VerdictOn(policy, ranked, Entropy(m, ranked));
    if !v.concluded && p.unknowns == [] {
      return Err(NoUnknown);
    }
    if !v.concluded && p.nextSteps == [] {
      return Err(NoNextStep);
    }
    return Ok(v);
  }

  lemma WeightsArePositive(m: Maths, scores: seq<real>)
    requires Lawful(m) && scores != []
    ensures Sum(Weights(m, scores)) > 0.0
  {
    SumPositive(Weights(m, scores));
  }
}
