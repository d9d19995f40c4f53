/**
  The credibility heuristic of backend/src/services/credibility.js: a weighted
  sum of the submitter's trust, attached media, social corroboration and nearby
  reports, capped above at 1. JavaScript numbers are modelled as reals; the
  decimal weights are exact here, so no rounding is modelled.
 */
module Credibility {
  import opened Wrappers

  /** `Math.min` */
  function Min(a: real, b: real): real { if a <= b then a else b }

  /** `Math.max` */
  function Max(a: real, b: real): real { if a >= b then a else b }

  /** The four inputs: the user's `trust_score` (absent when there is no user
      or no score), whether media is attached, and the two counts. */
  datatype Signals = Signals(trust: Option<real>, hasMedia: bool, socialMatches: real, distanceCluster: real)

  /** `user?.trust_score || 0`: a missing score reads as 0. */
  function TrustOf(trust: Option<real>): real { trust.GetOr(0.0) }

  function UserWeight(trust: Option<real>): real
  {
    Min(Max(TrustOf(trust) / 10.0, 0.0), 0.3)
  }

  function MediaWeight(hasMedia: bool): real { if hasMedia then 0.25 else 0.0 }

  function SocialWeight(socialMatches: real): real { Min(socialMatches / 5.0, 0.25) }

  function ClusterWeight(distanceCluster: real): real { Min(distanceCluster / 3.0, 0.2) }

  /** The weighted sum before the cap. */
  function RawScore(x: Signals): real
  {
    0.2 + UserWeight(x.trust) + MediaWeight(x.hasMedia) + SocialWeight(x.socialMatches)
      + ClusterWeight(x.distanceCluster)
  }

  /** `credibilityScore`: the raw sum, lowered to 1 when it exceeds 1. */
  function CredibilityScore(x: Signals): (score: real)
    ensures score <= 1.0
    ensures score <= RawScore(x)
    ensures x.socialMatches >= 0.0 && x.distanceCluster >= 0.0 ==> 0.2 <= score
  {
    var raw := RawScore(x);
    if raw > 1.0 then 1.0 else raw
  }

  /** The only clamp on the total is the upper cap: below 1 the raw sum is returned. */
  lemma OnlyUpperCap(x: Signals)
    ensures RawScore(x) <= 1.0 ==> CredibilityScore(x) == RawScore(x)
    ensures RawScore(x) > 1.0 ==> CredibilityScore(x) == 1.0
  {
  }

  /** Negative counts are not clamped, so the score can drop below 0. */
  lemma NegativeCountsGoBelowZero()
    ensures CredibilityScore(Signals(None, false, -10.0, 0.0)) < 0.0
  {
  }

  /** Trust contributes max(0, min(trust/10, 0.3)): missing or zero trust gives 0,
      any trust of 3 or more the full 0.3. */
  lemma TrustContribution(trust: Option<real>)
    ensures UserWeight(trust) == Max(0.0, Min(TrustOf(trust) / 10.0, 0.3))
    ensures 0.0 <= UserWeight(trust) <= 0.3
    ensures trust.None? || trust == Some(0.0) ==> UserWeight(trust) == 0.0
    ensures TrustOf(trust) >= 3.0 ==> UserWeight(trust) == 0.3
  {
  }

  /** Media adds exactly 0.25 before capping, nothing without media. */
  lemma MediaContribution(x: Signals)
    ensures RawScore(x.(hasMedia := true)) == RawScore(x.(hasMedia := false)) + 0.25
  {
  }

  /** Social and cluster weights are capped above only. */
  lemma CountContributions(s: real, c: real)
    ensures SocialWeight(s) <= 0.25 && ClusterWeight(c) <= 0.2
    ensures s <= 1.25 ==> SocialWeight(s) == s / 5.0
    ensures c <= 0.6 ==> ClusterWeight(c) == c / 3.0
    ensures s >= 1.25 ==> SocialWeight(s) == 0.25
    ensures c >= 0.6 ==> ClusterWeight(c) == 0.2
  {
  }

  /** `x` is at most `y` in every input: trust, media (false before true) and both counts. */
  predicate Dominated(x: Signals, y: Signals)
  {
    && TrustOf(x.trust) <= TrustOf(y.trust)
    && (x.hasMedia ==> y.hasMedia)
    && x.socialMatches <= y.socialMatches
    && x.distanceCluster <= y.distanceCluster
  }

  /** Increasing any input, or attaching media, never decreases the score. */
  lemma Monotone(x: Signals, y: Signals)
    requires Dominated(x, y)
    ensures CredibilityScore(x) <= CredibilityScore(y)
  {
    assert UserWeight(x.trust) <= UserWeight(y.trust);
    assert SocialWeight(x.socialMatches) <= SocialWeight(y.socialMatches);
    assert ClusterWeight(x.distanceCluster) <= ClusterWeight(y.distanceCluster);
  }

  /** The uncapped sum never exceeds 1.2. */
  lemma RawScoreAtMost(x: Signals)
    ensures RawScore(x) <= 1.2
  {
  }

  /** All inputs zero gives the 0.2 base; all inputs saturated gives the cap 1,
      from an uncapped 1.2. */
  lemma Extremes()
    ensures CredibilityScore(Signals(None, false, 0.0, 0.0)) == 0.2
    ensures CredibilityScore(Signals(Some(0.0), false, 0.0, 0.0)) == 0.2
    ensures RawScore(Signals(Some(3.0), true, 1.25, 0.6)) == 1.2
    ensures CredibilityScore(Signals(Some(10.0), true, 5.0, 3.0)) == 1.0
  {
  }

  /** A user with trust 5 submitting media and no corroboration scores 0.75. */
  lemma TrustedMediaExample()
    ensures CredibilityScore(Signals(Some(5.0), true, 0.0, 0.0)) == 0.75
  {
  }
}
