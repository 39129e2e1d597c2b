/**
  The classifier: seven onboarding answers are weighed into a green score and
  a sustainability-linked-loan (sll) score, and the first threshold reached
  decides the track, green before sll before other.
 */
module Classifier {
  import opened Intake

  const Green := "green"
  const Sll := "sll"
  const Other := "other"

  function Weight(answer: bool, w: int): int {
    if answer then w else 0
  }

  /** The green score: manufacturing 1, significant energy use 1, tracked metrics 2, measured emissions 2. */
  function GreenWeight(a: Answers): (w: int)
    ensures 0 <= w <= 6
  {
    Weight(a.isManufacturing, 1) + Weight(a.consumesSignificantEnergy, 1)
    + Weight(a.tracksEnvMetrics, 2) + Weight(a.measuresEmissions, 2)
  }

  /** The sll score: significant energy use 0.5, sustainability goals 2, ESG loan 1, employee policies 1. */
  function SllWeight(a: Answers): (w: real)
    ensures 0.0 <= w <= 4.5
  {
    (if a.consumesSignificantEnergy then 0.5 else 0.0)
    + (if a.hasSustainabilityGoals then 2.0 else 0.0)
    + (if a.appliedForEsgLoan then 1.0 else 0.0)
    + (if a.hasEmployeePolicies then 1.0 else 0.0)
  }

  /** The decision rule: the first threshold reached names the track. */
  function Classification(a: Answers): (track: string)
    ensures track == Green || track == Sll || track == Other
  {
    if GreenWeight(a) >= 3 then Green
    else if SllWeight(a) >= 2.0 then Sll
    else Other
  }

  /** `classify_user`: adds up the two scores answer by answer, then applies the thresholds. */
  method ClassifyUser(a: Answers) returns (track: string)
    ensures track == Classification(a)
    ensures track == Green <==> GreenWeight(a) >= 3
    ensures track == Sll <==> GreenWeight(a) < 3 && SllWeight(a) >= 2.0
    ensures track == Other <==> GreenWeight(a) < 3 && SllWeight(a) < 2.0
  {
    var scoreGreen := 0;
    var scoreSll := 0.0;
    if a.isManufacturing {
      scoreGreen := scoreGreen + 1;
    }
    if a.consumesSignificantEnergy {
      scoreGreen := scoreGreen + 1;
      scoreSll := scoreSll + 0.5;
    }
    if a.tracksEnvMetrics {
      scoreGreen := scoreGreen + 2;
    }
    if a.measuresEmissions {
      scoreGreen := scoreGreen + 2;
    }
    if a.hasSustainabilityGoals {
      scoreSll := scoreSll + 2.0;
    }
    if a.appliedForEsgLoan {
      scoreSll := scoreSll + 1.0;
    }
    if a.hasEmployeePolicies {
      scoreSll := scoreSll + 1.0;
    }
    assert scoreGreen == GreenWeight(a) && scoreSll == SllWeight(a);
    if scoreGreen >= 3 {
      track := Green;
    } else if scoreSll >= 2.0 {
      track := Sll;
    } else {
      track := Other;
    }
  }

  /**
    The weights in terms of the answers alone: the green threshold is reached
    exactly when both measurement answers are yes, or one of them together
    with manufacturing or significant energy use; the sll threshold exactly
    when there are sustainability goals, or both an ESG loan application and
    employee policies.
   */
  lemma ThresholdsByAnswers(a: Answers)
    ensures GreenWeight(a) >= 3 <==>
      (a.tracksEnvMetrics && a.measuresEmissions)
      || ((a.tracksEnvMetrics || a.measuresEmissions) && (a.isManufacturing || a.consumesSignificantEnergy))
    ensures SllWeight(a) >= 2.0 <==>
      a.hasSustainabilityGoals || (a.appliedForEsgLoan && a.hasEmployeePolicies)
  {
  }

  /** Tracking metrics and measuring emissions is enough for the green track. */
  lemma TracksAndMeasuresIsGreen(a: Answers)
    requires a.tracksEnvMetrics && a.measuresEmissions
    ensures Classification(a) == Green
  {
  }

  /** Below the green threshold, sustainability goals alone give the sll track. */
  lemma GoalsBelowGreenIsSll(a: Answers)
    requires GreenWeight(a) < 3 && a.hasSustainabilityGoals
    ensures Classification(a) == Sll
  {
  }

  /** The green track wins whenever its threshold is met, whatever the sll score. */
  lemma GreenTakesPrecedence(a: Answers)
    requires GreenWeight(a) >= 3 && SllWeight(a) >= 2.0
    ensures Classification(a) == Green
  {
  }

  /** Significant energy use adds only half a point to the sll score: with no other sll answer it stays below 2. */
  lemma EnergyAloneIsNotSll(a: Answers)
    requires !a.hasSustainabilityGoals && !(a.appliedForEsgLoan && a.hasEmployeePolicies)
    ensures Classification(a) != Sll
  {
  }

  /** All-false answers; manufacturing with both measurements; goals with an ESG loan. */
  lemma BoundaryAnswers()
    ensures Classification(Answers(false, false, false, false, false, false, false)) == Other
    ensures GreenWeight(Answers(true, false, true, true, false, false, false)) == 5
    ensures Classification(Answers(true, false, true, true, false, false, false)) == Green
    ensures SllWeight(Answers(false, false, false, false, true, true, false)) == 3.0
    ensures Classification(Answers(false, false, false, false, true, true, false)) == Sll
  {
  }
}
