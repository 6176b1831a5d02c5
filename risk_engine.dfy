/**
 * The rule-based risk engine of the PASSAGE Health assessment page.
 *
 * Seven patient attributes are scored by fixed point rules in three layers
 * (clinical, functional, social); the raw total is squashed by the logistic
 * function into a probability, and a score-based confidence is capped at 0.95.
 * The probability is then cut into a Low / Moderate / High level.
 */
module RiskEngine {
  import opened LogisticTransform
  import opened RiskLevels

  /** The attributes one assessment is computed from. Quality of life and gait
      speed are reals; comorbidity is the selected text ("None", "Single" or
      "Multiple"), and only the exact text "Multiple" scores. */
  datatype Observation = Observation(
    age: int,
    comorbidity: string,
    qol: real,
    gaitSpeed: real,
    frailtyScore: int,
    livingAlone: bool,
    fallHistory: bool)

  /** The points a rule contributes: its weight when it fires, else nothing. */
  function Points(fires: bool, weight: nat): nat
  {
    if fires then weight else 0
  }

  /** Clinical layer: age 75 or over (+2), multiple comorbidities (+3),
      quality of life below 60 (+2). The comorbidity rule is the only one with
      an odd weight, so the parity of the score tells whether it fired. */
  function ClinicalScore(o: Observation): (score: nat)
    ensures score <= 7
    ensures score % 2 == 1 <==> o.comorbidity == "Multiple"
    ensures score == 0 <==> o.age < 75 && o.comorbidity != "Multiple" && o.qol >= 60.0
    ensures score == 7 <==> o.age >= 75 && o.comorbidity == "Multiple" && o.qol < 60.0
  {
    Points(o.age >= 75, 2) + Points(o.comorbidity == "Multiple", 3) + Points(o.qol < 60.0, 2)
  }

  /** Functional layer: gait speed below 0.8 m/s (+2), three or more frailty
      phenotype criteria (+3). The score identifies exactly which rules fired. */
  function FunctionalScore(o: Observation): (score: nat)
    ensures score <= 5
    ensures o.gaitSpeed < 0.8 <==> score % 3 == 2
    ensures o.frailtyScore >= 3 <==> score >= 3
  {
    Points(o.gaitSpeed < 0.8, 2) + Points(o.frailtyScore >= 3, 3)
  }

  /** Social layer: living alone (+1), a fall in the past 12 months (+2). The
      score is the two flags written as a binary number. */
  function SocialScore(o: Observation): (score: nat)
    ensures score <= 3
    ensures o.livingAlone <==> score % 2 == 1
    ensures o.fallHistory <==> score >= 2
  {
    Points(o.livingAlone, 1) + Points(o.fallHistory, 2)
  }

  /** Every one of the seven rules fires. */
  predicate AllRulesFire(o: Observation)
  {
    && o.age >= 75 && o.comorbidity == "Multiple" && o.qol < 60.0
    && o.gaitSpeed < 0.8 && o.frailtyScore >= 3
    && o.livingAlone && o.fallHistory
  }

  /** None of the seven rules fires. */
  predicate NoRuleFires(o: Observation)
  {
    && o.age < 75 && o.comorbidity != "Multiple" && o.qol >= 60.0
    && o.gaitSpeed >= 0.8 && o.frailtyScore < 3
    && !o.livingAlone && !o.fallHistory
  }

  /** The raw total of the three layers. It reaches its maximum 15 exactly when
      every rule fires and is 0 exactly when none does. */
  function TotalScore(o: Observation): (total: nat)
    ensures total <= 15
    ensures total == 15 <==> AllRulesFire(o)
    ensures total == 0 <==> NoRuleFires(o)
  {
    ClinicalScore(o) + FunctionalScore(o) + SocialScore(o)
  }

  /** The probability attached to a raw total: the logistic of 0.9 * (total - 4). */
  function Probability(exp: real -> real, total: int): (p: real)
    requires IsExp(exp)
    ensures 0.0 < p < 1.0
  {
    Logistic(exp, (total - 4) as real * 0.9)
  }

  /** The score-based confidence min(0.95, 0.6 + 0.03 * total). For a raw total
      it lies in [0.6, 0.95] and hits the cap exactly from a total of 12 on. */
  function Confidence(total: nat): (c: real)
    ensures 0.6 <= c <= 0.95
    ensures c == 0.95 <==> total >= 12
  {
    var raw := 0.6 + total as real * 0.03;
    if raw < 0.95 then raw else 0.95
  }

  /** A larger total never lowers the confidence. */
  lemma ConfidenceMonotone(t1: nat, t2: nat)
    requires t1 <= t2
    ensures Confidence(t1) <= Confidence(t2)
  {
  }

  /** calculate_risk: the three layers are accumulated rule by rule, then the
      probability and the confidence are derived from their sum. */
  method CalculateRisk(o: Observation, exp: real -> real)
    returns (clinical: nat, functional: nat, social: nat, probability: real, confidence: real)
    requires IsExp(exp)
    ensures clinical == ClinicalScore(o)
    ensures functional == FunctionalScore(o)
    ensures social == SocialScore(o)
    ensures clinical + functional + social == TotalScore(o)
    ensures probability == Probability(exp, TotalScore(o))
    ensures confidence == Confidence(TotalScore(o))
  {
    // Clinical layer
    clinical := 0;
    if o.age >= 75 { clinical := clinical + 2; }
    if o.comorbidity == "Multiple" { clinical := clinical + 3; }
    if o.qol < 60.0 { clinical := clinical + 2; }

    // Functional layer
    functional := 0;
    if o.gaitSpeed < 0.8 { functional := functional + 2; }
    if o.frailtyScore >= 3 { functional := functional + 3; }

    // Social layer
    social := 0;
    if o.livingAlone { social := social + 1; }
    if o.fallHistory { social := social + 2; }

    var totalRaw := clinical + functional + social;
    probability := Logistic(exp, (totalRaw - 4) as real * 0.9);
    var raw := 0.6 + totalRaw as real * 0.03;
    confidence := if raw < 0.95 then raw else 0.95;
  }

  /** A raw total of 4 is the point where the probability is exactly one half. */
  lemma ProbabilityAtOffset(exp: real -> real)
    requires IsExp(exp)
    ensures Probability(exp, 4) == 0.5
  {
    LogisticAtZero(exp);
    assert (4 - 4) as real * 0.9 == 0.0;
  }

  /** The probability is strictly increasing in the raw total. */
  lemma ProbabilityIncreasing(exp: real -> real, t1: int, t2: int)
    requires IsExp(exp)
    requires t1 < t2
    ensures Probability(exp, t1) < Probability(exp, t2)
  {
    LogisticStrictlyIncreasing(exp, (t1 - 4) as real * 0.9, (t2 - 4) as real * 0.9);
  }

  /** The probability is below one half exactly when the raw total is below 4. */
  lemma ProbabilityBelowHalf(exp: real -> real, total: int)
    requires IsExp(exp)
    ensures Probability(exp, total) < 0.5 <==> total < 4
  {
    LogisticBelowHalf(exp, (total - 4) as real * 0.9);
  }

  /** The level each raw total receives: 0 to 2 points are Low, 3 points are
      Moderate, 4 points or more are High. */
  lemma LevelByTotal(exp: real -> real, total: int)
    requires IsExp(exp)
    ensures Classify(Probability(exp, total)) ==
      if total <= 2 then Low else if total == 3 then Moderate else High
  {
    var x := (total - 4) as real * 0.9;
    ProbabilityBelowHalf(exp, total);
    LogisticBelowFifth(exp, x);
    ExpBoundsAtCutPoints(exp);
    if total == 3 {
      assert -x == 0.9;
    } else if total <= 2 {
      assert -x >= 1.8;
      if -x > 1.8 {
        ExpStrictlyIncreasing(exp, 1.8, -x);
      }
    }
  }

  /** A larger raw total never gives a lower level. */
  lemma LevelMonotoneInTotal(exp: real -> real, t1: int, t2: int)
    requires IsExp(exp)
    requires t1 <= t2
    ensures Rank(Classify(Probability(exp, t1))) <= Rank(Classify(Probability(exp, t2)))
  {
    if t1 < t2 {
      ProbabilityIncreasing(exp, t1, t2);
      ClassifyMonotone(Probability(exp, t1), Probability(exp, t2));
    }
  }

  /** Observation b carries every risk factor of a, field by field: it is at
      least as old, at least as frail, has no better quality of life, no faster
      gait, and keeps every flag and the multiple-comorbidity status of a. */
  predicate AtLeastAsRisky(a: Observation, b: Observation)
  {
    && a.age <= b.age
    && (a.comorbidity == "Multiple" ==> b.comorbidity == "Multiple")
    && b.qol <= a.qol
    && b.gaitSpeed <= a.gaitSpeed
    && a.frailtyScore <= b.frailtyScore
    && (a.livingAlone ==> b.livingAlone)
    && (a.fallHistory ==> b.fallHistory)
  }

  /** Every sub-score, and so the total, is monotone in the risk factors. */
  lemma ScoresMonotone(a: Observation, b: Observation)
    requires AtLeastAsRisky(a, b)
    ensures ClinicalScore(a) <= ClinicalScore(b)
    ensures FunctionalScore(a) <= FunctionalScore(b)
    ensures SocialScore(a) <= SocialScore(b)
    ensures TotalScore(a) <= TotalScore(b)
  {
  }

  /** With all other inputs fixed, raising age or frailty, lowering quality of
      life or gait speed, or switching on a flag never lowers the total. */
  lemma TotalMonotoneInEachInput(o: Observation, age: int, frailty: int, qol: real, gait: real)
    ensures age >= o.age ==> TotalScore(o.(age := age)) >= TotalScore(o)
    ensures frailty >= o.frailtyScore ==> TotalScore(o.(frailtyScore := frailty)) >= TotalScore(o)
    ensures qol <= o.qol ==> TotalScore(o.(qol := qol)) >= TotalScore(o)
    ensures gait <= o.gaitSpeed ==> TotalScore(o.(gaitSpeed := gait)) >= TotalScore(o)
    ensures TotalScore(o.(comorbidity := "Multiple")) >= TotalScore(o)
    ensures TotalScore(o.(livingAlone := true)) >= TotalScore(o)
    ensures TotalScore(o.(fallHistory := true)) >= TotalScore(o)
  {
    if age >= o.age { ScoresMonotone(o, o.(age := age)); }
    if frailty >= o.frailtyScore { ScoresMonotone(o, o.(frailtyScore := frailty)); }
    if qol <= o.qol { ScoresMonotone(o, o.(qol := qol)); }
    if gait <= o.gaitSpeed { ScoresMonotone(o, o.(gaitSpeed := gait)); }
    ScoresMonotone(o, o.(comorbidity := "Multiple"));
    ScoresMonotone(o, o.(livingAlone := true));
    ScoresMonotone(o, o.(fallHistory := true));
  }

  /** Only the exact text "Multiple" scores: "None", "Single" and any other
      text give the same clinical score. */
  lemma OnlyMultipleComorbidityScores(o: Observation, c: string)
    requires c != "Multiple"
    ensures ClinicalScore(o.(comorbidity := c)) == ClinicalScore(o.(comorbidity := "None"))
    ensures ClinicalScore(o.(comorbidity := "Single")) == ClinicalScore(o.(comorbidity := "None"))
    ensures ClinicalScore(o.(comorbidity := "Multiple")) == ClinicalScore(o.(comorbidity := "None")) + 3
  {
  }

  /** A patient at least as risky as another never receives a lower level. */
  lemma LevelMonotoneInObservation(exp: real -> real, a: Observation, b: Observation)
    requires IsExp(exp)
    requires AtLeastAsRisky(a, b)
    ensures Rank(Classify(Probability(exp, TotalScore(a)))) <= Rank(Classify(Probability(exp, TotalScore(b))))
  {
    ScoresMonotone(a, b);
    LevelMonotoneInTotal(exp, TotalScore(a), TotalScore(b));
  }

  /** "Generate Risk Profile": score the observation, then classify the
      probability into a level, which is High exactly from 4 points on. */
  method GenerateRiskProfile(o: Observation, exp: real -> real)
    returns (clinical: nat, functional: nat, social: nat, risk: real, confidence: real, level: RiskLevel)
    requires IsExp(exp)
    ensures clinical == ClinicalScore(o)
    ensures functional == FunctionalScore(o)
    ensures social == SocialScore(o)
    ensures risk == Probability(exp, TotalScore(o))
    ensures confidence == Confidence(TotalScore(o))
    ensures level == Classify(risk)
    ensures level == Low <==> TotalScore(o) <= 2
    ensures level == Moderate <==> TotalScore(o) == 3
    ensures level == High <==> TotalScore(o) >= 4
  {
    clinical, functional, social, risk, confidence := CalculateRisk(o, exp);
    if risk < 0.2 {
      level := Low;
    } else if risk < 0.5 {
      level := Moderate;
    } else {
      level := High;
    }
    LevelByTotal(exp, TotalScore(o));
  }
}
