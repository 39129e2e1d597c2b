/**
  The scorecard engine: the category names one of three rubrics (green, sll,
  anything else the fallback), each a fixed ordered list of criteria. Every
  criterion writes one breakdown entry, adds its points to the score and may
  add a suggestion; the score is capped at 100 and mapped to a rating band.
 */
module Scoring {
  import opened Wrappers
  import opened Intake
  import opened Text
  import opened Criteria

  datatype Entry = Entry(name: string, points: int)

  datatype Scorecard = Scorecard(score: int, rating: string, breakdown: seq<Entry>, suggestions: seq<Suggestion>)

  const TrackBillsTip := Suggestion("Start tracking monthly electricity and fuel bills.", "\U{1F4CA}")
  const SchemesTip := Suggestion("Check if your industry is eligible for MSME green schemes.", "\U{1F3ED}")
  /** The two suggestions the fallback rubric adds when none of its criteria added one. */
  const DefaultTips: seq<Suggestion> := [TrackBillsTip, SchemesTip]

  const GreenKeys: seq<string> := ["Renewable Energy", "Energy Efficiency", "Fuel Efficiency",
    "Water Management", "Waste Reduction", "Green Technology", "Sector Bonus"]
  const SllKeys: seq<string> := ["Goal Clarity", "Safety Record", "Diversity Tracking",
    "Governance", "Employee Training", "Organization Scale"]
  const OtherKeys: seq<string> := ["Business Clarity", "Documentation", "Sustainability Interest"]

  // ===== The rubrics as tables =====

  function GreenRubric(g: GreenIntake): seq<Verdict> {
    [RenewableEnergy(g.renewableEnergyPct), EnergyEfficiency(g.annualElectricityKwh),
     FuelEfficiency(g.annualFuelLitres), WaterManagement(g.waterConsumptionLitres),
     WasteReduction(g.wasteGeneratedKgMonth), GreenTechnology(g.efficiencyEquipment),
     SectorBonus(g.industryCode)]
  }

  function SllRubric(s: SllIntake): seq<Verdict> {
    [GoalClarity(s.targetImprovementGoals), SafetyRecord(s.safetyIncidentCount),
     DiversityTracking(s.workforceDiversityStats), Governance(s.governancePolicies),
     EmployeeTraining(s.trainingPrograms), OrganizationScale(s.numEmployees)]
  }

  function OtherRubric(o: OtherIntake): seq<Verdict> {
    [BusinessClarity(o.businessInfo), Documentation(o.existingDocs), SustainabilityInterest(o.interestAreas)]
  }

  predicate IsFallback(category: string) {
    category != "green" && category != "sll"
  }

  /** The criteria the category selects, evaluated on the intake. */
  function Rubric(category: string, data: Intake): seq<Verdict> {
    if category == "green" then GreenRubric(GreenFields(data))
    else if category == "sll" then SllRubric(SllFields(data))
    else OtherRubric(OtherFields(data))
  }

  /** The breakdown the criteria write, one entry each, in order. */
  function Breakdown(vs: seq<Verdict>): seq<Entry> {
    if vs == [] then [] else [Entry(vs[0].name, vs[0].points)] + Breakdown(vs[1..])
  }

  /** The breakdown has one entry per criterion, holding that criterion's name and points. */
  lemma {:induction false} BreakdownEntries(vs: seq<Verdict>)
    ensures |Breakdown(vs)| == |vs|
    ensures forall i :: 0 <= i < |vs| ==> Breakdown(vs)[i] == Entry(vs[i].name, vs[i].points)
  {
    if vs != [] {
      BreakdownEntries(vs[1..]);
    }
  }

  /** The suggestion one criterion adds: none, or one. */
  function TipOf(v: Verdict): seq<Suggestion> {
    if v.tip.Some? then [v.tip.value] else []
  }

  /** The suggestions the criteria add, in order. */
  function Tips(vs: seq<Verdict>): seq<Suggestion> {
    if vs == [] then []
    else TipOf(vs[0]) + Tips(vs[1..])
  }

  function Total(vs: seq<Verdict>): int {
    if vs == [] then 0 else vs[0].points + Total(vs[1..])
  }

  /** The sum of the criteria's maxima. */
  function Capacity(vs: seq<Verdict>): int {
    if vs == [] then 0 else vs[0].max + Capacity(vs[1..])
  }

  function SumEntries(b: seq<Entry>): int {
    if b == [] then 0 else b[0].points + SumEntries(b[1..])
  }

  /** The breakdown's entries carry exactly the given keys, in order. */
  predicate KeyedBy(b: seq<Entry>, keys: seq<string>) {
    |b| == |keys| && forall i :: 0 <= i < |keys| ==> b[i].name == keys[i]
  }

  /** The suggestion list of the scorecard. */
  function Suggestions(category: string, data: Intake): seq<Suggestion> {
    var tips := Tips(Rubric(category, data));
    if IsFallback(category) && tips == [] then DefaultTips else tips
  }

  /** The rating bands: A from 80, B from 60, C from 40, D below. */
  function Rating(score: int): (r: string)
    ensures r == "A" <==> score >= 80
    ensures r == "B" <==> 60 <= score < 80
    ensures r == "C" <==> 40 <= score < 60
    ensures r == "D" <==> score < 40
  {
    if score >= 80 then "A" else if score >= 60 then "B" else if score >= 40 then "C" else "D"
  }

  // ===== Lemmas about the tables =====

  /** Adding one criterion at the end extends the breakdown, the suggestions and the total by that criterion alone. */
  lemma {:induction false} Extend(done: seq<Verdict>, v: Verdict)
    ensures Breakdown(done + [v]) == Breakdown(done) + [Entry(v.name, v.points)]
    ensures Tips(done + [v]) == Tips(done) + TipOf(v)
    ensures Total(done + [v]) == Total(done) + v.points
  {
    if done != [] {
      assert (done + [v])[1..] == done[1..] + [v];
      Extend(done[1..], v);
      assert [done[0]] + done[1..] == done;
    }
  }

  /** The score is the sum of the breakdown's values. */
  lemma {:induction false} BreakdownSumsToTotal(vs: seq<Verdict>)
    ensures SumEntries(Breakdown(vs)) == Total(vs)
  {
    if vs != [] {
      BreakdownSumsToTotal(vs[1..]);
    }
  }

  /** A list of criteria each within its maximum scores between 0 and the sum of the maxima. */
  lemma {:induction false} WithinCapacity(vs: seq<Verdict>)
    requires forall i :: 0 <= i < |vs| ==> Bounded(vs[i])
    ensures 0 <= Total(vs) <= Capacity(vs)
  {
    if vs != [] {
      assert Bounded(vs[0]);
      WithinCapacity(vs[1..]);
    }
  }

  // The fixed-arity lemmas below (Run, AllBounded, Sums, and CollectDefault
  // further down) are proof plumbing, not properties of the engine: they
  // restate the recursive tables for lists of three, six or seven criteria, in
  // the shape the methods' steps take, so that the larger proofs stay cheap.

  /** Running three, six or seven criteria one after the other from empty accumulators. */
  lemma Run3(a: Verdict, b: Verdict, c: Verdict)
    ensures Breakdown([a, b, c]) == [] + [Entry(a.name, a.points)] + [Entry(b.name, b.points)] + [Entry(c.name, c.points)]
    ensures Tips([a, b, c]) == [] + TipOf(a) + TipOf(b) + TipOf(c)
    ensures Total([a, b, c]) == 0 + a.points + b.points + c.points
  {
    Extend([], a);
    assert [] + [a] == [a];
    Extend([a], b);
    assert [a] + [b] == [a, b];
    Extend([a, b], c);
    assert [a, b] + [c] == [a, b, c];
  }

  lemma Run6(a: Verdict, b: Verdict, c: Verdict, d: Verdict, e: Verdict, f: Verdict)
    ensures Breakdown([a, b, c, d, e, f]) == [] + [Entry(a.name, a.points)] + [Entry(b.name, b.points)] + [Entry(c.name, c.points)] + [Entry(d.name, d.points)] + [Entry(e.name, e.points)] + [Entry(f.name, f.points)]
    ensures Tips([a, b, c, d, e, f]) == [] + TipOf(a) + TipOf(b) + TipOf(c) + TipOf(d) + TipOf(e) + TipOf(f)
    ensures Total([a, b, c, d, e, f]) == 0 + a.points + b.points + c.points + d.points + e.points + f.points
  {
    Run3(a, b, c);
    Extend([a, b, c], d);
    assert [a, b, c] + [d] == [a, b, c, d];
    Extend([a, b, c, d], e);
    assert [a, b, c, d] + [e] == [a, b, c, d, e];
    Extend([a, b, c, d, e], f);
    assert [a, b, c, d, e] + [f] == [a, b, c, d, e, f];
  }

  lemma Run7(a: Verdict, b: Verdict, c: Verdict, d: Verdict, e: Verdict, f: Verdict, g: Verdict)
    ensures Breakdown([a, b, c, d, e, f, g]) == [] + [Entry(a.name, a.points)] + [Entry(b.name, b.points)] + [Entry(c.name, c.points)] + [Entry(d.name, d.points)] + [Entry(e.name, e.points)] + [Entry(f.name, f.points)] + [Entry(g.name, g.points)]
    ensures Tips([a, b, c, d, e, f, g]) == [] + TipOf(a) + TipOf(b) + TipOf(c) + TipOf(d) + TipOf(e) + TipOf(f) + TipOf(g)
    ensures Total([a, b, c, d, e, f, g]) == 0 + a.points + b.points + c.points + d.points + e.points + f.points + g.points
  {
    Run6(a, b, c, d, e, f);
    Extend([a, b, c, d, e, f], g);
    assert [a, b, c, d, e, f] + [g] == [a, b, c, d, e, f, g];
  }

  /** Criteria each within its maximum, gathered into a rubric of three, six or seven. */
  lemma AllBounded3(a: Verdict, b: Verdict, c: Verdict)
    requires Bounded(a) && Bounded(b) && Bounded(c)
    ensures forall i :: 0 <= i < |[a, b, c]| ==> Bounded([a, b, c][i])
  {
  }

  lemma AllBounded6(a: Verdict, b: Verdict, c: Verdict, d: Verdict, e: Verdict, f: Verdict)
    requires Bounded(a) && Bounded(b) && Bounded(c) && Bounded(d) && Bounded(e) && Bounded(f)
    ensures forall i :: 0 <= i < |[a, b, c, d, e, f]| ==> Bounded([a, b, c, d, e, f][i])
  {
  }

  lemma AllBounded7(a: Verdict, b: Verdict, c: Verdict, d: Verdict, e: Verdict, f: Verdict, g: Verdict)
    requires Bounded(a) && Bounded(b) && Bounded(c) && Bounded(d) && Bounded(e) && Bounded(f) && Bounded(g)
    ensures forall i :: 0 <= i < |[a, b, c, d, e, f, g]| ==> Bounded([a, b, c, d, e, f, g][i])
  {
  }

  /** Putting one criterion in front adds that criterion alone to each sum. */
  lemma Cons(v: Verdict, vs: seq<Verdict>)
    ensures Capacity([v] + vs) == v.max + Capacity(vs)
    ensures Total([v] + vs) == v.points + Total(vs)
    ensures Tips([v] + vs) == TipOf(v) + Tips(vs)
  {
    assert ([v] + vs)[1..] == vs;
  }

  /** The sums over a rubric of three, six or seven criteria, criterion by criterion. */
  lemma Sums3(a: Verdict, b: Verdict, c: Verdict)
    ensures Capacity([a, b, c]) == a.max + b.max + c.max
    ensures Total([a, b, c]) == a.points + b.points + c.points
    ensures Tips([a, b, c]) == TipOf(a) + (TipOf(b) + (TipOf(c) + []))
  {
    var s1 := [c];
    Cons(c, []);
    assert [c] + [] == s1;
    var s2 := [b, c];
    Cons(b, s1);
    assert [b] + s1 == s2;
    var s3 := [a, b, c];
    Cons(a, s2);
    assert [a] + s2 == s3;
  }

  lemma Sums6(a: Verdict, b: Verdict, c: Verdict, d: Verdict, e: Verdict, f: Verdict)
    ensures Capacity([a, b, c, d, e, f]) == a.max + b.max + c.max + d.max + e.max + f.max
    ensures Total([a, b, c, d, e, f]) == a.points + b.points + c.points + d.points + e.points + f.points
    ensures Tips([a, b, c, d, e, f]) == TipOf(a) + (TipOf(b) + (TipOf(c) + (TipOf(d) + (TipOf(e) + (TipOf(f) + [])))))
  {
    var s3 := [d, e, f];
    Sums3(d, e, f);
    var s4 := [c, d, e, f];
    Cons(c, s3);
    assert [c] + s3 == s4;
    var s5 := [b, c, d, e, f];
    Cons(b, s4);
    assert [b] + s4 == s5;
    var s6 := [a, b, c, d, e, f];
    Cons(a, s5);
    assert [a] + s5 == s6;
  }

  lemma Sums7(a: Verdict, b: Verdict, c: Verdict, d: Verdict, e: Verdict, f: Verdict, g: Verdict)
    ensures Capacity([a, b, c, d, e, f, g]) == a.max + b.max + c.max + d.max + e.max + f.max + g.max
    ensures Total([a, b, c, d, e, f, g]) == a.points + b.points + c.points + d.points + e.points + f.points + g.points
    ensures Tips([a, b, c, d, e, f, g])
      == TipOf(a) + (TipOf(b) + (TipOf(c) + (TipOf(d) + (TipOf(e) + (TipOf(f) + (TipOf(g) + []))))))
  {
    var s6 := [b, c, d, e, f, g];
    Sums6(b, c, d, e, f, g);
    var s7 := [a, b, c, d, e, f, g];
    Cons(a, s6);
    assert [a] + s6 == s7;
  }

  /** Green: seven criteria, each within its maximum. */
  lemma GreenRubricBounded(g: GreenIntake)
    ensures forall i :: 0 <= i < |GreenRubric(g)| ==> Bounded(GreenRubric(g)[i])
  {
    var vs := GreenRubric(g);
    AllBounded7(vs[0], vs[1], vs[2], vs[3], vs[4], vs[5], vs[6]);
  }

  /** Green: seven criteria, whose maxima add up to exactly 100. */
  lemma GreenRubricCapacity(g: GreenIntake)
    ensures Capacity(GreenRubric(g)) == 25 + 15 + 15 + 10 + 15 + 15 + 5 == 100
  {
    var vs := GreenRubric(g);
    Sums7(vs[0], vs[1], vs[2], vs[3], vs[4], vs[5], vs[6]);
  }

  /** Green: seven criteria, written under the fixed keys in order. */
  lemma GreenRubricKeys(g: GreenIntake)
    ensures KeyedBy(Breakdown(GreenRubric(g)), GreenKeys)
  {
    BreakdownEntries(GreenRubric(g));
  }

  /** Sll: six criteria, each within its maximum. */
  lemma SllRubricBounded(s: SllIntake)
    ensures forall i :: 0 <= i < |SllRubric(s)| ==> Bounded(SllRubric(s)[i])
  {
    var vs := SllRubric(s);
    AllBounded6(vs[0], vs[1], vs[2], vs[3], vs[4], vs[5]);
  }

  /** Sll: six criteria, whose maxima add up to exactly 100. */
  lemma SllRubricCapacity(s: SllIntake)
    ensures Capacity(SllRubric(s)) == 20 + 25 + 15 + 20 + 10 + 10 == 100
  {
    var vs := SllRubric(s);
    Sums6(vs[0], vs[1], vs[2], vs[3], vs[4], vs[5]);
  }

  /** Sll: six criteria, written under the fixed keys in order. */
  lemma SllRubricKeys(s: SllIntake)
    ensures KeyedBy(Breakdown(SllRubric(s)), SllKeys)
  {
    BreakdownEntries(SllRubric(s));
  }

  /** Fallback: three criteria, each within its maximum. */
  lemma OtherRubricBounded(o: OtherIntake)
    ensures forall i :: 0 <= i < |OtherRubric(o)| ==> Bounded(OtherRubric(o)[i])
  {
    var vs := OtherRubric(o);
    AllBounded3(vs[0], vs[1], vs[2]);
  }

  /** Fallback: three criteria, whose maxima add up to exactly 100. */
  lemma OtherRubricCapacity(o: OtherIntake)
    ensures Capacity(OtherRubric(o)) == 20 + 40 + 40 == 100
  {
    var vs := OtherRubric(o);
    Sums3(vs[0], vs[1], vs[2]);
  }

  /** Fallback: three criteria, written under the fixed keys in order. */
  lemma OtherRubricKeys(o: OtherIntake)
    ensures KeyedBy(Breakdown(OtherRubric(o)), OtherKeys)
  {
    BreakdownEntries(OtherRubric(o));
  }

  /** Every rubric: criteria within their maxima, maxima adding up to 100, one fixed key per criterion. */
  lemma RubricShape(category: string, data: Intake)
    ensures forall i :: 0 <= i < |Rubric(category, data)| ==> Bounded(Rubric(category, data)[i])
    ensures Capacity(Rubric(category, data)) == 100
    ensures category == "green" ==> KeyedBy(Breakdown(Rubric(category, data)), GreenKeys)
    ensures category == "sll" ==> KeyedBy(Breakdown(Rubric(category, data)), SllKeys)
    ensures IsFallback(category) ==> KeyedBy(Breakdown(Rubric(category, data)), OtherKeys)
  {
    if category == "green" {
      GreenBranch(category, data);
      GreenRubricBounded(GreenFields(data));
      GreenRubricCapacity(GreenFields(data));
      GreenRubricKeys(GreenFields(data));
    } else if category == "sll" {
      SllBranch(category, data);
      SllRubricBounded(SllFields(data));
      SllRubricCapacity(SllFields(data));
      SllRubricKeys(SllFields(data));
    } else {
      OtherBranch(category, data);
      OtherRubricBounded(OtherFields(data));
      OtherRubricCapacity(OtherFields(data));
      OtherRubricKeys(OtherFields(data));
    }
  }

  /** So the score before the cap never exceeds 100: the cap is never needed. */
  lemma ScoreNeverCapped(category: string, data: Intake)
    ensures 0 <= Total(Rubric(category, data)) <= 100
  {
    RubricShape(category, data);
    WithinCapacity(Rubric(category, data));
  }

  /** The breakdown keys of each rubric are pairwise distinct, so no criterion overwrites another. */
  lemma KeysDistinct()
    ensures forall i, j :: 0 <= i < j < |GreenKeys| ==> GreenKeys[i] != GreenKeys[j]
    ensures forall i, j :: 0 <= i < j < |SllKeys| ==> SllKeys[i] != SllKeys[j]
    ensures forall i, j :: 0 <= i < j < |OtherKeys| ==> OtherKeys[i] != OtherKeys[j]
  {
  }

  /** `[t]` when the condition holds, else nothing. */
  function When(c: bool, t: Suggestion): seq<Suggestion> {
    if c then [t] else []
  }

  /** The green suggestions: in criterion order, one for each criterion in its lowest bucket; the sector bonus adds none. */
  lemma GreenSuggestions(g: GreenIntake)
    ensures Tips(GreenRubric(g))
      == When(g.renewableEnergyPct <= 0.0, SolarTip)
      + (When(g.annualElectricityKwh >= 100000.0, AuditTip)
      + (When(g.annualFuelLitres >= 10000.0, FleetTip)
      + (When(g.waterConsumptionLitres >= 500000.0, RainwaterTip)
      + (When(g.wasteGeneratedKgMonth >= 1000.0, SegregationTip)
      + When(!HasText(g.efficiencyEquipment, 5), EquipmentTip)))))
  {
    var vs := GreenRubric(g);
    Sums7(vs[0], vs[1], vs[2], vs[3], vs[4], vs[5], vs[6]);
    assert TipOf(vs[6]) + [] == [];
    assert TipOf(vs[5]) + (TipOf(vs[6]) + []) == TipOf(vs[5]);
  }

  /** The sll suggestions: in criterion order, one for each criterion in its lowest bucket; the scale factor adds none. */
  lemma SllSuggestions(s: SllIntake)
    ensures Tips(SllRubric(s))
      == When(|s.targetImprovementGoals| <= 20, TargetsTip)
      + (When(s.safetyIncidentCount > 5, SafetyTip)
      + (When(!HasText(s.workforceDiversityStats, 5), DiversityTip)
      + (When(CountMatches(GovernanceKeywords, Lower(PyStr(s.governancePolicies))) == 0
              && |PyStr(s.governancePolicies)| <= 20, PoliciesTip)
      + When(!HasText(s.trainingPrograms, 5), TrainingTip))))
  {
    var vs := SllRubric(s);
    Sums6(vs[0], vs[1], vs[2], vs[3], vs[4], vs[5]);
    assert TipOf(vs[5]) + [] == [];
    assert TipOf(vs[4]) + (TipOf(vs[5]) + []) == TipOf(vs[4]);
  }

  /** The fallback criteria's suggestions: documentation, then interests; business clarity adds none. */
  lemma OtherSuggestions(o: OtherIntake)
    ensures Tips(OtherRubric(o))
      == When(CountMatches(CertificationKeywords, Lower(PyStr(o.existingDocs))) == 0
              && |PyStr(o.existingDocs)| <= 30, DocumentingTip)
      + When(CountMatches(InterestKeywords, Lower(PyStr(o.interestAreas))) == 0, QuickWinsTip)
  {
    var vs := OtherRubric(o);
    Sums3(vs[0], vs[1], vs[2]);
    assert TipOf(vs[2]) + [] == TipOf(vs[2]);
  }

  /** The fallback suggestion list is never empty: the two defaults are added exactly when no criterion added one. */
  lemma FallbackSuggestions(category: string, data: Intake)
    requires IsFallback(category)
    ensures Suggestions(category, data) != []
    ensures Suggestions(category, data) == DefaultTips <==>
      && (CountMatches(CertificationKeywords, Lower(PyStr(OtherFields(data).existingDocs))) > 0
          || |PyStr(OtherFields(data).existingDocs)| > 30)
      && CountMatches(InterestKeywords, Lower(PyStr(OtherFields(data).interestAreas))) > 0
  {
    var o := OtherFields(data);
    OtherBranch(category, data);
    OtherSuggestions(o);
    var tips := Tips(OtherRubric(o));
    if tips != [] {
      assert tips[0] == DocumentingTip || tips[0] == QuickWinsTip;
      assert tips[0].icon[0] != TrackBillsTip.icon[0];
    }
  }

  // ===== An intake of another shape =====

  /**
    The green rubric run on an intake without the green fields: every field
    reads as its default, so the renewable share and the equipment score 0
    with their suggestions, the four consumption criteria score full, and
    the sector bonus nothing.
   */
  lemma MismatchedGreenIntake(data: Intake)
    requires !data.GreenForm?
    ensures KeyedBy(Breakdown(Rubric("green", data)), GreenKeys)
    ensures Total(Rubric("green", data)) == 0 + 15 + 15 + 10 + 15 + 0 + 0
    ensures Suggestions("green", data) == [SolarTip, EquipmentTip]
  {
    GreenBranch("green", data);
    GreenRubricKeys(GreenFields(data));
    DefaultGreenFields(GreenFields(data));
  }

  /** The green criteria on the default fields. */
  lemma DefaultGreenFields(g: GreenIntake)
    requires g == GreenIntake(0.0, 0.0, 0.0, 0.0, 0.0, Some(""), Some(""))
    ensures Total(GreenRubric(g)) == 55
    ensures Tips(GreenRubric(g)) == [SolarTip, EquipmentTip]
  {
    var vs := GreenRubric(g);
    DefaultGreenVerdicts(g);
    CollectDefaultGreen(vs[0], vs[1], vs[2], vs[3], vs[4], vs[5], vs[6]);
    assert [vs[0], vs[1], vs[2], vs[3], vs[4], vs[5], vs[6]] == vs;
  }

  /** Each green criterion on the default fields: its points and its suggestion. */
  lemma DefaultGreenVerdicts(g: GreenIntake)
    requires g == GreenIntake(0.0, 0.0, 0.0, 0.0, 0.0, Some(""), Some(""))
    ensures GreenRubric(g)[0].points == 0 && GreenRubric(g)[0].tip == Some(SolarTip)
    ensures GreenRubric(g)[1].points == 15 && GreenRubric(g)[1].tip == None
    ensures GreenRubric(g)[2].points == 15 && GreenRubric(g)[2].tip == None
    ensures GreenRubric(g)[3].points == 10 && GreenRubric(g)[3].tip == None
    ensures GreenRubric(g)[4].points == 15 && GreenRubric(g)[4].tip == None
    ensures GreenRubric(g)[5].points == 0 && GreenRubric(g)[5].tip == Some(EquipmentTip)
    ensures GreenRubric(g)[6].points == 0 && GreenRubric(g)[6].tip == None
  {
  }

  lemma CollectDefaultGreen(a: Verdict, b: Verdict, c: Verdict, d: Verdict, e: Verdict, f: Verdict, h: Verdict)
    requires a.points == 0 && a.tip == Some(SolarTip)
    requires b.points == 15 && b.tip == None
    requires c.points == 15 && c.tip == None
    requires d.points == 10 && d.tip == None
    requires e.points == 15 && e.tip == None
    requires f.points == 0 && f.tip == Some(EquipmentTip)
    requires h.points == 0 && h.tip == None
    ensures Total([a, b, c, d, e, f, h]) == 55
    ensures Tips([a, b, c, d, e, f, h]) == [SolarTip, EquipmentTip]
  {
    Sums7(a, b, c, d, e, f, h);
  }

  /**
    The sll rubric run on an intake without the sll fields: empty goals, no
    incidents, empty texts and no employees give 0, 25, 0, 0, 0 and 5, with
    the four suggestions of the text criteria.
   */
  lemma MismatchedSllIntake(data: Intake)
    requires !data.SllForm?
    ensures KeyedBy(Breakdown(Rubric("sll", data)), SllKeys)
    ensures Total(Rubric("sll", data)) == 0 + 25 + 0 + 0 + 0 + 5
    ensures Suggestions("sll", data) == [TargetsTip, DiversityTip, PoliciesTip, TrainingTip]
  {
    SllBranch("sll", data);
    SllRubricKeys(SllFields(data));
    DefaultSllFields(SllFields(data));
  }

  /** The sll criteria on the default fields. */
  lemma DefaultSllFields(s: SllIntake)
    requires s == SllIntake("", "", 0, Some(""), 0, Some(""), Some(""))
    ensures Total(SllRubric(s)) == 30
    ensures Tips(SllRubric(s)) == [TargetsTip, DiversityTip, PoliciesTip, TrainingTip]
  {
    var vs := SllRubric(s);
    DefaultSllVerdicts(s);
    CollectDefaultSll(vs[0], vs[1], vs[2], vs[3], vs[4], vs[5]);
    assert [vs[0], vs[1], vs[2], vs[3], vs[4], vs[5]] == vs;
  }

  /** Each sll criterion on the default fields: its points and its suggestion. */
  lemma DefaultSllVerdicts(s: SllIntake)
    requires s == SllIntake("", "", 0, Some(""), 0, Some(""), Some(""))
    ensures SllRubric(s)[0].points == 0 && SllRubric(s)[0].tip == Some(TargetsTip)
    ensures SllRubric(s)[1].points == 25 && SllRubric(s)[1].tip == None
    ensures SllRubric(s)[2].points == 0 && SllRubric(s)[2].tip == Some(DiversityTip)
    ensures SllRubric(s)[3].points == 0 && SllRubric(s)[3].tip == Some(PoliciesTip)
    ensures SllRubric(s)[4].points == 0 && SllRubric(s)[4].tip == Some(TrainingTip)
    ensures SllRubric(s)[5].points == 5 && SllRubric(s)[5].tip == None
  {
    assert Lower("") == "";
    EmptyTextMatchesNothing(GovernanceKeywords);
  }

  lemma CollectDefaultSll(a: Verdict, b: Verdict, c: Verdict, d: Verdict, e: Verdict, f: Verdict)
    requires a.points == 0 && a.tip == Some(TargetsTip)
    requires b.points == 25 && b.tip == None
    requires c.points == 0 && c.tip == Some(DiversityTip)
    requires d.points == 0 && d.tip == Some(PoliciesTip)
    requires e.points == 0 && e.tip == Some(TrainingTip)
    requires f.points == 5 && f.tip == None
    ensures Total([a, b, c, d, e, f]) == 30
    ensures Tips([a, b, c, d, e, f]) == [TargetsTip, DiversityTip, PoliciesTip, TrainingTip]
  {
    Sums6(a, b, c, d, e, f);
  }

  /**
    The fallback rubric run on an intake without the fallback fields: an
    empty description scores 5, empty documentation 0 and empty interests
    10, and both criteria add their suggestion, so no default is added.
   */
  lemma MismatchedOtherIntake(category: string, data: Intake)
    requires IsFallback(category) && !data.OtherForm?
    ensures KeyedBy(Breakdown(Rubric(category, data)), OtherKeys)
    ensures Total(Rubric(category, data)) == 5 + 0 + 10
    ensures Suggestions(category, data) == [DocumentingTip, QuickWinsTip]
  {
    OtherBranch(category, data);
    OtherRubricKeys(OtherFields(data));
    DefaultOtherFields(OtherFields(data));
  }

  /** The fallback criteria on the default fields. */
  lemma DefaultOtherFields(o: OtherIntake)
    requires o == OtherIntake("", Some(""), Some(""))
    ensures Total(OtherRubric(o)) == 15
    ensures Tips(OtherRubric(o)) == [DocumentingTip, QuickWinsTip]
  {
    var vs := OtherRubric(o);
    DefaultOtherVerdicts(o);
    CollectDefaultOther(vs[0], vs[1], vs[2]);
    assert [vs[0], vs[1], vs[2]] == vs;
  }

  /** Each fallback criterion on the default fields: its points and its suggestion. */
  lemma DefaultOtherVerdicts(o: OtherIntake)
    requires o == OtherIntake("", Some(""), Some(""))
    ensures OtherRubric(o)[0].points == 5 && OtherRubric(o)[0].tip == None
    ensures OtherRubric(o)[1].points == 0 && OtherRubric(o)[1].tip == Some(DocumentingTip)
    ensures OtherRubric(o)[2].points == 10 && OtherRubric(o)[2].tip == Some(QuickWinsTip)
  {
    assert Lower("") == "";
    EmptyTextMatchesNothing(CertificationKeywords);
    EmptyTextMatchesNothing(InterestKeywords);
  }

  lemma CollectDefaultOther(a: Verdict, b: Verdict, c: Verdict)
    requires a.points == 5 && a.tip == None
    requires b.points == 0 && b.tip == Some(DocumentingTip)
    requires c.points == 10 && c.tip == Some(QuickWinsTip)
    ensures Total([a, b, c]) == 15
    ensures Tips([a, b, c]) == [DocumentingTip, QuickWinsTip]
  {
    Sums3(a, b, c);
  }

  // ===== The engine itself =====

  /** The green rubric, criterion by criterion (`generate_scorecard`, green branch). */
  method ScoreGreen(g: GreenIntake) returns (score: int, breakdown: seq<Entry>, suggestions: seq<Suggestion>)
    ensures breakdown == Breakdown(GreenRubric(g))
    ensures suggestions == Tips(GreenRubric(g))
    ensures score == Total(GreenRubric(g))
  {
    score := 0;
    breakdown := [];
    suggestions := [];

    var v0 := RenewableEnergy(g.renewableEnergyPct);
    suggestions := suggestions + TipOf(v0);
    breakdown := breakdown + [Entry(v0.name, v0.points)];
    score := score + v0.points;

    var v1 := EnergyEfficiency(g.annualElectricityKwh);
    suggestions := suggestions + TipOf(v1);
    breakdown := breakdown + [Entry(v1.name, v1.points)];
    score := score + v1.points;

    var v2 := FuelEfficiency(g.annualFuelLitres);
    suggestions := suggestions + TipOf(v2);
    breakdown := breakdown + [Entry(v2.name, v2.points)];
    score := score + v2.points;

    var v3 := WaterManagement(g.waterConsumptionLitres);
    suggestions := suggestions + TipOf(v3);
    breakdown := breakdown + [Entry(v3.name, v3.points)];
    score := score + v3.points;

    var v4 := WasteReduction(g.wasteGeneratedKgMonth);
    suggestions := suggestions + TipOf(v4);
    breakdown := breakdown + [Entry(v4.name, v4.points)];
    score := score + v4.points;

    var v5 := GreenTechnology(g.efficiencyEquipment);
    suggestions := suggestions + TipOf(v5);
    breakdown := breakdown + [Entry(v5.name, v5.points)];
    score := score + v5.points;

    var v6 := SectorBonus(g.industryCode);
    breakdown := breakdown + [Entry(v6.name, v6.points)];
    score := score + v6.points;

    Run7(v0, v1, v2, v3, v4, v5, v6);
    assert [v0, v1, v2, v3, v4, v5, v6] == GreenRubric(g);
  }

  /** The sll rubric, criterion by criterion (`generate_scorecard`, sll branch). */
  method ScoreSll(s: SllIntake) returns (score: int, breakdown: seq<Entry>, suggestions: seq<Suggestion>)
    ensures breakdown == Breakdown(SllRubric(s))
    ensures suggestions == Tips(SllRubric(s))
    ensures score == Total(SllRubric(s))
  {
    score := 0;
    breakdown := [];
    suggestions := [];

    var v0 := GoalClarity(s.targetImprovementGoals);
    suggestions := suggestions + TipOf(v0);
    breakdown := breakdown + [Entry(v0.name, v0.points)];
    score := score + v0.points;

    var v1 := SafetyRecord(s.safetyIncidentCount);
    suggestions := suggestions + TipOf(v1);
    breakdown := breakdown + [Entry(v1.name, v1.points)];
    score := score + v1.points;

    var v2 := DiversityTracking(s.workforceDiversityStats);
    suggestions := suggestions + TipOf(v2);
    breakdown := breakdown + [Entry(v2.name, v2.points)];
    score := score + v2.points;

    var v3 := Governance(s.governancePolicies);
    suggestions := suggestions + TipOf(v3);
    breakdown := breakdown + [Entry(v3.name, v3.points)];
    score := score + v3.points;

    var v4 := EmployeeTraining(s.trainingPrograms);
    suggestions := suggestions + TipOf(v4);
    breakdown := breakdown + [Entry(v4.name, v4.points)];
    score := score + v4.points;

    var v5 := OrganizationScale(s.numEmployees);
    breakdown := breakdown + [Entry(v5.name, v5.points)];
    score := score + v5.points;

    Run6(v0, v1, v2, v3, v4, v5);
    assert [v0, v1, v2, v3, v4, v5] == SllRubric(s);
  }

  /** The fallback rubric, criterion by criterion (`generate_scorecard`, fallback branch, before the defaults). */
  method ScoreOther(o: OtherIntake) returns (score: int, breakdown: seq<Entry>, suggestions: seq<Suggestion>)
    ensures breakdown == Breakdown(OtherRubric(o))
    ensures suggestions == Tips(OtherRubric(o))
    ensures score == Total(OtherRubric(o))
  {
    score := 0;
    breakdown := [];
    suggestions := [];

    var v0 := BusinessClarity(o.businessInfo);
    breakdown := breakdown + [Entry(v0.name, v0.points)];
    score := score + v0.points;

    var v1 := Documentation(o.existingDocs);
    suggestions := suggestions + TipOf(v1);
    breakdown := breakdown + [Entry(v1.name, v1.points)];
    score := score + v1.points;

    var v2 := SustainabilityInterest(o.interestAreas);
    suggestions := suggestions + TipOf(v2);
    breakdown := breakdown + [Entry(v2.name, v2.points)];
    score := score + v2.points;

    Run3(v0, v1, v2);
    assert [v0, v1, v2] == OtherRubric(o);
  }

  /** The fallback defaults: the two suggestions when the list is empty, else the list unchanged. */
  method AddDefaults(tips: seq<Suggestion>) returns (suggestions: seq<Suggestion>)
    ensures tips == [] ==> suggestions == DefaultTips
    ensures tips != [] ==> suggestions == tips
  {
    suggestions := tips;
    if suggestions == [] {
      suggestions := suggestions + [TrackBillsTip];
      suggestions := suggestions + [SchemesTip];
    }
  }

  /** The green category selects the green rubric, and its suggestions are the criteria's own. */
  lemma GreenBranch(category: string, data: Intake)
    requires category == "green"
    ensures Rubric(category, data) == GreenRubric(GreenFields(data))
    ensures Suggestions(category, data) == Tips(GreenRubric(GreenFields(data)))
  {
  }

  lemma SllBranch(category: string, data: Intake)
    requires category == "sll"
    ensures Rubric(category, data) == SllRubric(SllFields(data))
    ensures Suggestions(category, data) == Tips(SllRubric(SllFields(data)))
  {
  }

  lemma OtherBranch(category: string, data: Intake)
    requires IsFallback(category)
    ensures Rubric(category, data) == OtherRubric(OtherFields(data))
    ensures Tips(OtherRubric(OtherFields(data))) == [] ==> Suggestions(category, data) == DefaultTips
    ensures Tips(OtherRubric(OtherFields(data))) != [] ==> Suggestions(category, data) == Tips(OtherRubric(OtherFields(data)))
  {
  }

  /** The branch on the category: green, sll, or the fallback (with its defaults) for any other name. */
  method RunRubric(category: string, data: Intake) returns (score: int, breakdown: seq<Entry>, suggestions: seq<Suggestion>)
    ensures breakdown == Breakdown(Rubric(category, data))
    ensures suggestions == Suggestions(category, data)
    ensures score == Total(Rubric(category, data))
  {
    if category == "green" {
      score, breakdown, suggestions := ScoreGreen(GreenFields(data));
      GreenBranch(category, data);
    } else if category == "sll" {
      score, breakdown, suggestions := ScoreSll(SllFields(data));
      SllBranch(category, data);
    } else {
      score, breakdown, suggestions := ScoreOther(OtherFields(data));
      suggestions := AddDefaults(suggestions);
      OtherBranch(category, data);
    }
  }


  /**
    `generate_scorecard`: runs the criteria of the selected rubric in order,
    then caps the score at 100 and rates it.
   */
  method GenerateScorecard(category: string, data: Intake) returns (card: Scorecard)
    ensures card.breakdown == Breakdown(Rubric(category, data))
    ensures card.suggestions == Suggestions(category, data)
    ensures card.score == Total(Rubric(category, data))
    ensures card.score == SumEntries(card.breakdown)
    ensures 0 <= card.score <= 100
    ensures card.rating == Rating(card.score)
  {
    var score, breakdown, suggestions := RunRubric(category, data);
    ScoreNeverCapped(category, data);
    BreakdownSumsToTotal(Rubric(category, data));
    if score > 100 {
      score := 100;
    }

    var rating: string;
    if score >= 80 {
      rating := "A";
    } else if score >= 60 {
      rating := "B";
    } else if score >= 40 {
      rating := "C";
    } else {
      rating := "D";
    }
    card := Scorecard(score, rating, breakdown, suggestions);
  }

  /** The green example: 60% renewable, 5000 kWh, 500 litres, 40000 litres, 50 kg, an LED retrofit, code 35. */
  lemma GreenExampleScoresFull()
    ensures var g := GreenIntake(5000.0, 500.0, 40000.0, 50.0, 60.0, Some("LED retrofit"), Some("35"));
      Total(GreenRubric(g)) == 100 && Tips(GreenRubric(g)) == [] && Rating(Total(GreenRubric(g))) == "A"
  {
    var g := GreenIntake(5000.0, 500.0, 40000.0, 50.0, 60.0, Some("LED retrofit"), Some("35"));
    var vs := GreenRubric(g);
    Sums7(vs[0], vs[1], vs[2], vs[3], vs[4], vs[5], vs[6]);
    assert StartsWith("35", GreenSectors[0]);
    assert vs[6].points == 5;
    GreenSuggestions(g);
  }


}
