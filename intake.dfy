/**
  The typed inputs of the engine: the seven onboarding answers and the three
  intake shapes (one per assessment track), with the numbers already parsed.

  The scoring and carbon functions receive the intake as a dictionary and
  read every field with `data.get(key, default)`. The tagged union `Intake`
  holds one of the three validated shapes; the `...Fields` views give the
  fields a rubric reads, and when the intake has another shape every field
  is missing and reads as its default.
 */
module Intake {
  import opened Wrappers

  /** The seven onboarding questions. */
  datatype Answers = Answers(
    isManufacturing: bool,
    consumesSignificantEnergy: bool,
    tracksEnvMetrics: bool,
    measuresEmissions: bool,
    hasSustainabilityGoals: bool,
    appliedForEsgLoan: bool,
    hasEmployeePolicies: bool)

  /** Intake of the green-loan track. */
  datatype GreenIntake = GreenIntake(
    annualElectricityKwh: real,
    annualFuelLitres: real,
    waterConsumptionLitres: real,
    wasteGeneratedKgMonth: real,
    renewableEnergyPct: real,
    efficiencyEquipment: Option<string>,
    industryCode: Option<string>)

  /** Intake of the sustainability-linked-loan track; the turnover is stored but never scored. */
  datatype SllIntake = SllIntake(
    turnoverLast3Years: string,
    targetImprovementGoals: string,
    numEmployees: int,
    workforceDiversityStats: Option<string>,
    safetyIncidentCount: int,
    trainingPrograms: Option<string>,
    governancePolicies: Option<string>)

  /** Intake of the fallback (ESG readiness) track. */
  datatype OtherIntake = OtherIntake(
    businessInfo: string,
    existingDocs: Option<string>,
    interestAreas: Option<string>)

  datatype Intake =
    | GreenForm(green: GreenIntake)
    | SllForm(sll: SllIntake)
    | OtherForm(other: OtherIntake)

  /** The green fields as `data.get` sees them: 0 for a missing number, "" for a missing text. */
  function GreenFields(data: Intake): GreenIntake {
    if data.GreenForm? then data.green
    else GreenIntake(0.0, 0.0, 0.0, 0.0, 0.0, Some(""), Some(""))
  }

  function SllFields(data: Intake): SllIntake {
    if data.SllForm? then data.sll
    else SllIntake("", "", 0, Some(""), 0, Some(""), Some(""))
  }

  function OtherFields(data: Intake): OtherIntake {
    if data.OtherForm? then data.other
    else OtherIntake("", Some(""), Some(""))
  }
}
