/**
  The carbon estimator: annual electricity, fuel and water use are multiplied
  by fixed emission factors; the three contributions and their total are each
  rounded to two decimals, and the unit is a fixed label.
 */
module Carbon {
  import opened Wrappers
  import opened Intake

  /** kgCO2 per kWh of grid electricity. */
  const FactorElec: real := 0.82
  /** kgCO2 per litre of fuel (diesel proxy). */
  const FactorFuel: real := 2.68
  /** kgCO2 per litre of water (0.376 per 1000 litres). */
  const FactorWater: real := 0.000376
  const Unit := "kgCO2e/year"

  datatype Contribution = Contribution(source: string, amount: real)

  datatype CarbonEstimate = CarbonEstimate(estimatedCarbon: real, breakdown: seq<Contribution>, unit: string)

  /** The nearest whole number of hundredths, ties to the even neighbour. */
  function Cents(x: real): (n: int)
    ensures (n as real) - 0.5 <= x * 100.0 <= (n as real) + 0.5
    ensures x >= 0.0 ==> n >= 0
  {
    var y := x * 100.0;
    var f := y.Floor;
    var d := y - f as real;
    if d < 0.5 then f
    else if d > 0.5 then f + 1
    else if f % 2 == 0 then f else f + 1
  }

  /** `round(x, 2)` on the exact value: a multiple of 0.01 at most half a hundredth away. */
  function Round2(x: real): (r: real)
    ensures -0.005 <= r - x <= 0.005
    ensures r * 100.0 == Cents(x) as real
    ensures x >= 0.0 ==> r >= 0.0
  {
    Cents(x) as real / 100.0
  }

  /** The fields read with `data.get(key, 0) or 0`: 0 unless the intake has the green shape. */
  function Electricity(data: Intake): real {
    GreenFields(data).annualElectricityKwh
  }

  function Fuel(data: Intake): real {
    GreenFields(data).annualFuelLitres
  }

  function Water(data: Intake): real {
    GreenFields(data).waterConsumptionLitres
  }

  /** The unrounded total. */
  function ExactEmissions(data: Intake): real {
    Electricity(data) * FactorElec + Fuel(data) * FactorFuel + Water(data) * FactorWater
  }

  /** `calculate_carbon_proxy` */
  function CalculateCarbonProxy(data: Intake): (e: CarbonEstimate)
    ensures e.unit == Unit
    ensures |e.breakdown| == 3
    ensures e.breakdown[0].source == "electricity" && e.breakdown[1].source == "fuel" && e.breakdown[2].source == "water"
    ensures e.estimatedCarbon == Round2(ExactEmissions(data))
    ensures e.breakdown[0].amount == Round2(Electricity(data) * FactorElec)
    ensures e.breakdown[1].amount == Round2(Fuel(data) * FactorFuel)
    ensures e.breakdown[2].amount == Round2(Water(data) * FactorWater)
    ensures -0.005 <= e.estimatedCarbon - ExactEmissions(data) <= 0.005
  {
    var elec := Electricity(data);
    var fuel := Fuel(data);
    var water := Water(data);
    var carbonElec := elec * FactorElec;
    var carbonFuel := fuel * FactorFuel;
    var carbonWater := water * FactorWater;
    var total := carbonElec + carbonFuel + carbonWater;
    CarbonEstimate(
      Round2(total),
      [Contribution("electricity", Round2(carbonElec)),
       Contribution("fuel", Round2(carbonFuel)),
       Contribution("water", Round2(carbonWater))],
      Unit)
  }

  function BreakdownSum(e: CarbonEstimate): real
    requires |e.breakdown| == 3
  {
    e.breakdown[0].amount + e.breakdown[1].amount + e.breakdown[2].amount
  }

  /** Missing (or zero) electricity, fuel and water give a zero total and zero contributions. */
  lemma MissingFieldsGiveZero(data: Intake)
    requires Electricity(data) == 0.0 && Fuel(data) == 0.0 && Water(data) == 0.0
    ensures CalculateCarbonProxy(data).estimatedCarbon == 0.0
    ensures forall i :: 0 <= i < 3 ==> CalculateCarbonProxy(data).breakdown[i].amount == 0.0
  {
    assert Cents(0.0) == 0;
  }

  /** An intake of another track has none of the three fields. */
  lemma NonGreenIntakeGivesZero(data: Intake)
    requires !data.GreenForm?
    ensures CalculateCarbonProxy(data).estimatedCarbon == 0.0
    ensures forall i :: 0 <= i < 3 ==> CalculateCarbonProxy(data).breakdown[i].amount == 0.0
  {
    MissingFieldsGiveZero(data);
  }

  /** Non-negative consumption gives a non-negative estimate and contributions. */
  lemma NonNegativeInputsGiveNonNegativeEstimate(data: Intake)
    requires Electricity(data) >= 0.0 && Fuel(data) >= 0.0 && Water(data) >= 0.0
    ensures CalculateCarbonProxy(data).estimatedCarbon >= 0.0
    ensures forall i :: 0 <= i < 3 ==> CalculateCarbonProxy(data).breakdown[i].amount >= 0.0
  {
  }

  /**
    Because each figure is rounded on its own, the displayed contributions need
    not add up to the displayed total; they are at most two hundredths apart.
   */
  lemma RoundingGap(data: Intake)
    ensures -0.02 <= CalculateCarbonProxy(data).estimatedCarbon - BreakdownSum(CalculateCarbonProxy(data)) <= 0.02
  {
  }

  /**
    The gap of two hundredths is reached when every contribution lies exactly
    on a half hundredth: three contributions of 0.125 display as 0.12 each,
    their total of 0.375 as 0.38.
   */
  lemma RoundingGapReached()
    ensures var e := CalculateCarbonProxy(GreenForm(GreenIntake(0.125 / FactorElec, 0.125 / FactorFuel, 0.125 / FactorWater, 0.0, 0.0, Some(""), Some(""))));
      && (forall i :: 0 <= i < 3 ==> e.breakdown[i].amount == 0.12)
      && e.estimatedCarbon == 0.38 && e.estimatedCarbon - BreakdownSum(e) == 0.02
  {
    var data := GreenForm(GreenIntake(0.125 / FactorElec, 0.125 / FactorFuel, 0.125 / FactorWater, 0.0, 0.0, Some(""), Some("")));
    assert Electricity(data) * FactorElec == 0.125;
    assert Fuel(data) * FactorFuel == 0.125;
    assert Water(data) * FactorWater == 0.125;
    assert (0.125 * 100.0).Floor == 12;
    assert Cents(0.125) == 12;
    assert ExactEmissions(data) == 0.375;
    assert (0.375 * 100.0).Floor == 37;
    assert Cents(0.375) == 38;
  }

  /** 1000 kWh, 100 litres of fuel and 10000 litres of water. */
  lemma WorkedExample()
    ensures var e := CalculateCarbonProxy(GreenForm(GreenIntake(1000.0, 100.0, 10000.0, 0.0, 0.0, None, None)));
      && e.breakdown[0].amount == 820.0 && e.breakdown[1].amount == 268.0
      && e.breakdown[2].amount == 3.76 && e.estimatedCarbon == 1091.76
  {
    assert (82000.0).Floor == 82000;
    assert (26800.0).Floor == 26800;
    assert (376.0).Floor == 376;
    assert (109176.0).Floor == 109176;
  }
}
