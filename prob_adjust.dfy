/** Blending the model probability with the market's implied one, then shrinking and capping it. */
module ProbAdjust {
  import opened Common

  const ModelWeight: real := 0.60
  const ImpliedWeight: real := 0.40
  const ShrinkWeight: real := 0.75
  const ShrinkTarget: real := 0.50
  const MaxProbability: real := 0.85

  /** The market argument is accepted and ignored. */
  function AdjustProbability(pModel: real, pImplied: real, market: Option<string>): (r: real)
    ensures r <= MaxProbability
    ensures r == Min(0.45 * pModel + 0.3 * pImplied + 0.125, MaxProbability)
  {
    var pBlend := ModelWeight * pModel + ImpliedWeight * pImplied;
    var pShrunk := ShrinkWeight * pBlend + (1.0 - ShrinkWeight) * ShrinkTarget;
    Min(pShrunk, MaxProbability)
  }

  /** For probabilities as inputs, the result lies in [0.125, 0.85]. */
  lemma AdjustedWithinBounds(pModel: real, pImplied: real, market: Option<string>)
    requires 0.0 <= pModel <= 1.0 && 0.0 <= pImplied <= 1.0
    ensures 0.125 <= AdjustProbability(pModel, pImplied, market) <= MaxProbability
  {
  }

  lemma AdjustMonotone(p1: real, q1: real, p2: real, q2: real, market: Option<string>)
    requires p1 <= p2 && q1 <= q2
    ensures AdjustProbability(p1, q1, market) <= AdjustProbability(p2, q2, market)
  {
  }

  lemma MarketIgnored(pModel: real, pImplied: real, m1: Option<string>, m2: Option<string>)
    ensures AdjustProbability(pModel, pImplied, m1) == AdjustProbability(pModel, pImplied, m2)
  {
  }

  /** An even model and an even market stay even. */
  lemma EvenStaysEven(market: Option<string>)
    ensures AdjustProbability(0.5, 0.5, market) == 0.5
  {
  }
}
