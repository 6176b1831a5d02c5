/**
 * The three-way risk level shown after an assessment: the probability produced
 * by the risk engine is cut at 0.2 and 0.5 into Low, Moderate and High.
 */
module RiskLevels {

  datatype RiskLevel = Low | Moderate | High

  /** The order of the levels, Low < Moderate < High. */
  function Rank(level: RiskLevel): nat
  {
    match level
    case Low => 0
    case Moderate => 1
    case High => 2
  }

  /** The level of a probability. Every real falls in exactly one of the three
      half-open bands [-, 0.2), [0.2, 0.5) and [0.5, -). */
  function Classify(probability: real): (level: RiskLevel)
    ensures level == Low <==> probability < 0.2
    ensures level == Moderate <==> 0.2 <= probability < 0.5
    ensures level == High <==> 0.5 <= probability
  {
    if probability < 0.2 then Low
    else if probability < 0.5 then Moderate
    else High
  }

  /** A higher probability never gives a lower level. */
  lemma ClassifyMonotone(p: real, q: real)
    requires p <= q
    ensures Rank(Classify(p)) <= Rank(Classify(q))
  {
  }
}
