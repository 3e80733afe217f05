/** When a proposal is accepted, when it concludes, and what the verdict then says: over posteriors
    given by Bayes' rule, without the scorer's own steps. */
module ScoringDecisions {
  import opened Wrappers
  import opened Texts
  import opened Reals
  import opened Sums
  import opened Ranking
  import opened Scoring
  import opened ScoringTheorems

  // ---- the decision, as a definition --------------------------------------------------

  /** Each posterior is the share of its hypothesis in all of the mass. */
  ghost predicate Bayes(p: Proposal, qs: seq<real>) { Shares(qs, Masses(p), TotalMass(p)) }

  /** No other hypothesis is more probable, nor as probable with a smaller name. */
  ghost predicate Foremost(p: Proposal, qs: seq<real>, i: nat) {
    && i < |qs| == |p.hypotheses|
    && forall j | 0 <= j < |qs| && j != i ::
         qs[i] > qs[j] || (qs[i] == qs[j] && Less(p.hypotheses[i].id, p.hypotheses[j].id))
  }

  function NegativeSurprise(m: Maths, q: real): real { q * m.ln(q) }

  /** Shannon's entropy in units of that of the uniform distribution. */
  ghost function Uncertainty(m: Maths, qs: seq<real>): real
    requires Lawful(m) && |qs| > 1
  {
    LnGrows(m, |qs| as real);
    -Sum(Map(q => NegativeSurprise(m, q), qs)) / m.ln(|qs| as real)
  }

  function EvidenceOf(h: Hypothesis, support: bool): set<Text> {
    set k | 0 <= k < |h.evidence| && h.evidence[k].support == support :: h.evidence[k].evidence
  }

  /** The four conditions under which an investigation concludes. */
  ghost predicate Suffices(m: Maths, policy: Policy, p: Proposal, qs: seq<real>, i: nat)
    requires Lawful(m) && 1 < |qs| == |p.hypotheses| && i < |qs|
  {
    && qs[i] >= policy.minimumTop
    && Leads(qs, i, policy.minimumMargin)
    && |EvidenceOf(p.hypotheses[i], true) + EvidenceOf(p.hypotheses[i], false)| >= policy.minimumDistinct
    && Uncertainty(m, qs) <= policy.maximumEntropy
  }

  ghost predicate Convinces(m: Maths, policy: Policy, p: Proposal)
    requires Lawful(m) && ValidProposal(p)
  {
    exists qs: seq<real>, i: nat :: Bayes(p, qs) && Foremost(p, qs, i) && Suffices(m, policy, p, qs, i)
  }

  ghost predicate CitesObserved(p: Proposal, observed: set<Text>) {
    forall h, a | h in p.hypotheses && a in h.evidence :: a.evidence in observed
  }

  ghost predicate RatiosAllowed(policy: Policy, p: Proposal) {
    forall h, a | h in p.hypotheses && a in h.evidence :: policy.ratioMin <= a.ratio <= policy.ratioMax
  }

  /** Every citation was observed and every ratio is in bounds; and the proposal convinces, or it
      owns to an unknown and says what to do next. */
  ghost predicate Acceptable(m: Maths, policy: Policy, p: Proposal, observed: set<Text>)
    requires Lawful(m) && ValidProposal(p)
  {
    && CitesObserved(p, observed) && RatiosAllowed(policy, p)
    && (Convinces(m, policy, p) || (p.unknowns != [] && p.nextSteps != []))
  }

  // ---- the posteriors, and the first of them --------------------------------------------

  /** Bayes' rule leaves no choice, and the scorer obeys it. */
  lemma BayesIsUnique(m: Maths, p: Proposal, qs: seq<real>)
    requires Lawful(m) && ValidProposal(p) && Bayes(p, qs)
    ensures qs == Posteriors(m, p)
  {
    PosteriorsAreBayes(m, p);
    SumPositive(Masses(p));
    SharesAreUnique(qs, Posteriors(m, p), Masses(p), TotalMass(p));
  }

  lemma SharesAreUnique(qs: seq<real>, rs: seq<real>, masses: seq<real>, all: real)
    requires all > 0.0 && Shares(qs, masses, all) && Shares(rs, masses, all)
    ensures qs == rs
  {
    forall i | 0 <= i < |qs| ensures qs[i] == rs[i] {
      assert qs[i] * all == masses[i] && rs[i] * all == masses[i];
      Cancel(qs[i], rs[i], all);
    }
  }

  lemma ForemostIsUnique(p: Proposal, qs: seq<real>, i: nat, j: nat)
    requires Foremost(p, qs, i) && Foremost(p, qs, j)
    ensures i == j
  {
    if i != j {
      LessTransitive(p.hypotheses[i].id, p.hypotheses[j].id, p.hypotheses[i].id);
      LessIrreflexive(p.hypotheses[i].id);
    }
  }

  /** The first of a ranking comes before every other candidate. */
  lemma RankedFirst(cs: seq<Computed>, ranked: seq<Computed>) returns (i: nat)
    requires Permuted(cs, ranked) && Ranked(ranked) && |ranked| > 1
    ensures i < |cs| && cs[i] == ranked[0]
    ensures forall j | 0 <= j < |cs| && cs[j] != cs[i] :: Before(cs[i], cs[j])
  {
    assert ranked[0] in multiset(cs);
    i :| 0 <= i < |cs| && cs[i] == ranked[0];
    forall j | 0 <= j < |cs| && cs[j] != cs[i] ensures Before(cs[i], cs[j]) {
      assert cs[j] in multiset(ranked);
      var k :| 0 <= k < |ranked| && ranked[k] == cs[j];
    }
  }

  lemma RankedSecond(cs: seq<Computed>, ranked: seq<Computed>) returns (j: nat)
    requires Permuted(cs, ranked) && Ranked(ranked) && |ranked| > 1
    ensures j < |cs| && cs[j] == ranked[1] && ranked[1] != ranked[0]
  {
    assert ranked[1] in multiset(cs);
    j :| 0 <= j < |cs| && cs[j] == ranked[1];
    Antisymmetric(ranked[0], ranked[1]);
  }

  lemma FirstIsForemost(m: Maths, p: Proposal, ranked: seq<Computed>, i: nat)
    requires Lawful(m) && ValidProposal(p)
    requires Permuted(Candidates(m, p), ranked) && Ranked(ranked) && |ranked| > 1
    requires Foremost(p, Posteriors(m, p), i)
    ensures Candidates(m, p)[i] == ranked[0]
  {
    var cs := Candidates(m, p);
    CandidatesDistinct(m, p);
    var first := RankedFirst(cs, ranked);
    if first != i {
      assert cs[first].id != cs[i].id;
      LessTransitive(cs[i].id, cs[first].id, cs[i].id);
      LessIrreflexive(cs[i].id);
    }
  }

  lemma SomeForemost(m: Maths, p: Proposal) returns (i: nat)
    requires Lawful(m) && ValidProposal(p)
    ensures Foremost(p, Posteriors(m, p), i)
  {
    RankKeepsLength(m, p);
    CandidatesDistinct(m, p);
    var cs := Candidates(m, p);
    i := RankedFirst(cs, Rank(cs));
    forall j | 0 <= j < |cs| && j != i
      ensures cs[j] != cs[i] && cs[j].posterior == Posteriors(m, p)[j] && cs[j].id == p.hypotheses[j].id
    {
      assert cs[j].id != cs[i].id;
    }
  }

  // ---- margin, entropy and evidence -----------------------------------------------------

  /** The margin is the distance to the nearest other posterior. */
  ghost predicate IsMargin(qs: seq<real>, i: nat, margin: real) {
    Leads(qs, i, margin) && exists j :: 0 <= j < |qs| && j != i && qs[i] - qs[j] == margin
  }

  lemma MarginOfRanking(m: Maths, p: Proposal, ranked: seq<Computed>, i: nat)
    requires Lawful(m) && ValidProposal(p)
    requires Permuted(Candidates(m, p), ranked) && Ranked(ranked) && |ranked| > 1
    requires Foremost(p, Posteriors(m, p), i)
    ensures IsMargin(Posteriors(m, p), i, ranked[0].posterior - ranked[1].posterior)
    ensures Posteriors(m, p)[i] == ranked[0].posterior
  {
    var cs, qs := Candidates(m, p), Posteriors(m, p);
    var margin := ranked[0].posterior - ranked[1].posterior;
    CandidatesDistinct(m, p);
    CandidatePosteriors(m, p);
    FirstIsForemost(m, p, ranked, i);
    var first := FirstLeads(cs, ranked, margin, qs);
    assert first == i by {
      assert cs[first].id == cs[i].id;
    }
    var j := RankedSecond(cs, ranked);
    assert qs[j] == cs[j].posterior && qs[i] - qs[j] == margin;
  }

  lemma SurprisesAre(m: Maths, qs: seq<real>)
    requires InsideUnit(qs)
    ensures Map(q => Surprise(m, q), qs) == Map(q => NegativeSurprise(m, q), qs)
  {
    forall i | 0 <= i < |qs| ensures Surprise(m, qs[i]) == NegativeSurprise(m, qs[i]) {
      assert qs[i] > 0.0;
    }
  }

  lemma EntropyIsUncertainty(m: Maths, cs: seq<Computed>, ranked: seq<Computed>)
    requires Lawful(m) && Permuted(cs, ranked) && |ranked| > 1 && InsideUnit(PosteriorsOf(cs))
    ensures |cs| == |ranked| && m.ln(|ranked| as real) != 0.0
    ensures Entropy(m, ranked) == Uncertainty(m, PosteriorsOf(cs))
  {
    SameLength(cs, ranked);
    LnGrows(m, |ranked| as real);
    MapPermuted((c: Computed) => Surprise(m, c.posterior), cs, ranked);
    SumPermuted(Map((c: Computed) => Surprise(m, c.posterior), cs), Map((c: Computed) => Surprise(m, c.posterior), ranked));
    assert Map((c: Computed) => Surprise(m, c.posterior), cs) == Map(q => Surprise(m, q), PosteriorsOf(cs));
    SurprisesAre(m, PosteriorsOf(cs));
  }

  lemma EvidenceCited(h: Hypothesis, support: bool)
    ensures Citing(h, support) == EvidenceOf(h, support)
  {
    forall e | e in Citing(h, support) ensures e in EvidenceOf(h, support) {
      var a :| a in h.evidence && a.support == support && a.evidence == e;
      var k :| 0 <= k < |h.evidence| && h.evidence[k] == a;
    }
  }

  // ---- the verdict ------------------------------------------------------------------

  lemma ConcludesExactly(m: Maths, policy: Policy, p: Proposal, ranked: seq<Computed>, i: nat)
    requires Lawful(m) && ValidProposal(p) && m.ln(|ranked| as real) != 0.0
    requires Permuted(Candidates(m, p), ranked) && Ranked(ranked) && |ranked| > 1
    requires Foremost(p, Posteriors(m, p), i)
    ensures Entropy(m, ranked) == Uncertainty(m, Posteriors(m, p))
    ensures Concludes(policy, ranked, Entropy(m, ranked)) <==> Suffices(m, policy, p, Posteriors(m, p), i)
    ensures ranked[0].id == p.hypotheses[i].id
  {
    CandidatePosteriors(m, p);
    PosteriorsSumToOne(m, p);
    EntropyIsUncertainty(m, Candidates(m, p), ranked);
    MarginOfRanking(m, p, ranked, i);
    FirstIsForemost(m, p, ranked, i);
    EvidenceCited(p.hypotheses[i], true);
    EvidenceCited(p.hypotheses[i], false);
    Decided(policy, ranked, Entropy(m, ranked), Posteriors(m, p), i);
  }

  /** The margin is at least what is asked for exactly if every other posterior is as far away. */
  lemma Decided(policy: Policy, ranked: seq<Computed>, entropy: real, qs: seq<real>, i: nat)
    requires |ranked| > 1 && IsMargin(qs, i, ranked[0].posterior - ranked[1].posterior)
    ensures Leads(qs, i, policy.minimumMargin) <==> ranked[0].posterior - ranked[1].posterior >= policy.minimumMargin
  {
  }

  ghost predicate Says(m: Maths, policy: Policy, p: Proposal, qs: seq<real>, i: nat, v: Verdict)
    requires Lawful(m) && 1 < |qs| == |p.hypotheses| && i < |qs|
  {
    && (v.concluded <==> Suffices(m, policy, p, qs, i))
    && v.selected == (if v.concluded then Some(p.hypotheses[i].id) else None)
    && v.entropy == Uncertainty(m, qs)
    && IsMargin(qs, i, v.margin)
    && v.confidence == qs[i] * (1.0 - v.entropy)
  }

  lemma VerdictOnSays(m: Maths, policy: Policy, p: Proposal, qs: seq<real>, i: nat, ranked: seq<Computed>, entropy: real)
    requires Lawful(m) && 1 < |qs| == |p.hypotheses| && i < |qs| && |ranked| > 1
    requires entropy == Uncertainty(m, qs) && (Concludes(policy, ranked, entropy) <==> Suffices(m, policy, p, qs, i))
    requires ranked[0].id == p.hypotheses[i].id && qs[i] == ranked[0].posterior
    requires IsMargin(qs, i, ranked[0].posterior - ranked[1].posterior) && InUnit(VerdictOn(policy, ranked, entropy))
    ensures Says(m, policy, p, qs, i, VerdictOn(policy, ranked, entropy))
  {
  }

  /** An accepted proposal concludes exactly if its foremost hypothesis is probable enough, far
      enough ahead and well enough attested, and the posteriors are certain enough; the verdict
      names that hypothesis, and its numbers are those of the posteriors. */
  lemma VerdictSays(m: Maths, policy: Policy, p: Proposal, observed: set<Text>, qs: seq<real>, i: nat)
    requires Lawful(m) && ValidProposal(p) && Score(m, policy, p, observed).Ok?
    requires Bayes(p, qs) && Foremost(p, qs, i)
    ensures Says(m, policy, p, qs, i, Score(m, policy, p, observed).value)
  {
    BayesIsUnique(m, p, qs);
    NumbersInUnit(m, policy, p, observed);
    var ranked, entropy := ScoreIsVerdict(m, policy, p, observed);
    ConcludesExactly(m, policy, p, ranked, i);
    MarginOfRanking(m, p, ranked, i);
    VerdictOnSays(m, policy, p, qs, i, ranked, entropy);
  }

  /** Every hypothesis is listed with its prior, posterior and log score, and with the evidence for
      it and against it. */
  ghost predicate ListedAs(m: Maths, h: Hypothesis, posterior: real, c: Computed) {
    && c.id == h.id && c.prior == h.prior && c.posterior == posterior && m.exp(c.logScore) == Mass(h)
    && c.supporting == EvidenceOf(h, true) && c.contradicting == EvidenceOf(h, false)
  }

  lemma CandidateIsListed(m: Maths, p: Proposal, i: nat)
    requires Lawful(m) && ValidProposal(p) && i < |p.hypotheses|
    ensures ListedAs(m, p.hypotheses[i], Posteriors(m, p)[i], Candidates(m, p)[i])
  {
    ExpOfLogLikelihood(m, p.hypotheses[i].prior, p.hypotheses[i].evidence);
    EvidenceCited(p.hypotheses[i], true);
    EvidenceCited(p.hypotheses[i], false);
  }

  lemma HypothesesAreListed(m: Maths, policy: Policy, p: Proposal, observed: set<Text>, qs: seq<real>, i: nat)
    returns (k: nat)
    requires Lawful(m) && ValidProposal(p) && Score(m, policy, p, observed).Ok? && Bayes(p, qs) && i < |p.hypotheses|
    ensures var v := Score(m, policy, p, observed).value;
            && |v.hypotheses| == |p.hypotheses| && Ranked(v.hypotheses)
            && k < |v.hypotheses| && ListedAs(m, p.hypotheses[i], qs[i], v.hypotheses[k])
  {
    BayesIsUnique(m, p, qs);
    CandidateIsListed(m, p, i);
    var ranked, entropy := ScoreIsVerdict(m, policy, p, observed);
    assert Candidates(m, p)[i] in multiset(ranked);
    k :| 0 <= k < |ranked| && ranked[k] == Candidates(m, p)[i];
  }

  // ---- acceptance -------------------------------------------------------------------

  lemma ConvincesExactly(m: Maths, policy: Policy, p: Proposal, qs: seq<real>, i: nat)
    requires Lawful(m) && ValidProposal(p) && Bayes(p, qs) && Foremost(p, qs, i)
    ensures Convinces(m, policy, p) <==> Suffices(m, policy, p, qs, i)
  {
    BayesIsUnique(m, p, qs);
    if Convinces(m, policy, p) {
      var qs': seq<real>, i': nat :| Bayes(p, qs') && Foremost(p, qs', i') && Suffices(m, policy, p, qs', i');
      BayesIsUnique(m, p, qs');
      ForemostIsUnique(p, qs, i, i');
    }
  }

  lemma CitationsInOrder(policy: Policy, p: Proposal, observed: set<Text>)
    ensures Cited(p) <= observed <==> CitesObserved(p, observed)
    ensures RatiosInBounds(policy, p) <==> RatiosAllowed(policy, p)
  {
    if Cited(p) <= observed {
      forall h, a | h in p.hypotheses && a in h.evidence ensures a.evidence in observed {
        assert a.evidence in CitedBy(h);
        assert a.evidence in Cited(p);
      }
    }
  }

  /** A proposal is accepted exactly if it is acceptable; and a refusal names what it lacks. */
  lemma AcceptedExactly(m: Maths, policy: Policy, p: Proposal, observed: set<Text>)
    requires Lawful(m) && ValidProposal(p)
    ensures Score(m, policy, p, observed).Ok? <==> Acceptable(m, policy, p, observed)
    ensures Score(m, policy, p, observed) == Err(Unobserved) <==> !CitesObserved(p, observed)
    ensures Score(m, policy, p, observed) == Err(OutsideBounds) <==> CitesObserved(p, observed) && !RatiosAllowed(policy, p)
    ensures Score(m, policy, p, observed) == Err(NoUnknown)
            <==> CitesObserved(p, observed) && RatiosAllowed(policy, p) && !Convinces(m, policy, p) && p.unknowns == []
  {
    CitationsInOrder(policy, p, observed);
    PosteriorsAreBayes(m, p);
    var i := SomeForemost(m, p);
    ConvincesExactly(m, policy, p, Posteriors(m, p), i);
    RankKeepsLength(m, p);
    var ranked := Rank(Candidates(m, p));
    LnGrows(m, |ranked| as real);
    ConcludesExactly(m, policy, p, ranked, i);
  }
}
