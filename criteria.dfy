/**
  The criteria of the three scoring rubrics. Each criterion looks at one
  intake field, puts it in a bucket, and yields a `Verdict`: the breakdown key
  it writes, the points of its bucket, the most points it can give, and, for
  the criteria that have one, the suggestion added when the field lands in the
  lowest bucket.
 */
module Criteria {
  import opened Wrappers
  import opened Text

  datatype Suggestion = Suggestion(text: string, icon: string)

  datatype Verdict = Verdict(name: string, points: int, max: int, tip: Option<Suggestion>)

  predicate Bounded(v: Verdict) {
    0 <= v.points <= v.max
  }

  /** Python truthiness of an optional text field: present and not empty. */
  predicate Truthy(field: Option<string>) {
    field.Some? && field.value != ""
  }

  /** `field and len(str(field)) > n` */
  predicate HasText(field: Option<string>, n: nat) {
    Truthy(field) && |PyStr(field)| > n
  }

  // Suggestions of the green rubric.
  const SolarTip := Suggestion("Install rooftop solar to start your renewable energy journey.", "\U{2600}\U{FE0F}")
  const AuditTip := Suggestion("Consider an energy audit to identify reduction opportunities.", "\U{26A1}")
  const FleetTip := Suggestion("Explore EV fleet transition or fuel-efficient logistics.", "\U{1F697}")
  const RainwaterTip := Suggestion("Implement rainwater harvesting and water recycling.", "\U{1F4A7}")
  const SegregationTip := Suggestion("Implement waste segregation and partner with recyclers.", "\U{267B}\U{FE0F}")
  const EquipmentTip := Suggestion("Invest in BEE-rated equipment and LED lighting.", "\U{1F4A1}")

  // Suggestions of the sll rubric.
  const TargetsTip := Suggestion("Define quantifiable targets (e.g., 'Reduce energy by 15% in 3 years').", "\U{1F3AF}")
  const SafetyTip := Suggestion("Strengthen ISO 45001 safety protocols to reach zero incidents.", "\U{26D1}\U{FE0F}")
  const DiversityTip := Suggestion("Track and report workforce diversity metrics.", "\U{1F465}")
  const PoliciesTip := Suggestion("Formalize Anti-Corruption and Whistleblower policies.", "\U{1F4DC}")
  const TrainingTip := Suggestion("Implement regular skill development and safety training.", "\U{1F4DA}")

  // Suggestions of the fallback rubric.
  const DocumentingTip := Suggestion("Start documenting your processes - it's the foundation of ESG.", "\U{1F4CB}")
  const QuickWinsTip := Suggestion("Explore quick wins: LED lighting, waste segregation, water metering.", "\U{1F331}")

  const GreenSectors: seq<string> := ["35", "38", "39"]
  const GovernanceKeywords: seq<string> := ["anti-corruption", "whistleblower", "ethics", "compliance", "audit"]
  const CertificationKeywords: seq<string> := ["iso", "bis", "fssai", "gmp", "haccp", "ohsas", "sa8000"]
  const InterestKeywords: seq<string> := ["water", "energy", "waste", "solar", "recycle", "carbon", "green"]

  // ===== Green rubric =====

  /** Renewable energy share: >50 gives 25, >=25 gives 18, >=10 gives 10, >0 gives 5, else 0. */
  function RenewableEnergy(pct: real): (v: Verdict)
    ensures v.name == "Renewable Energy" && v.max == 25 && Bounded(v)
    ensures v.points == v.max <==> pct > 50.0
    ensures v.tip.Some? <==> pct <= 0.0
    ensures v.tip.Some? <==> v.points == 0
    ensures v.tip.Some? ==> v.tip.value == SolarTip
  {
    if pct > 50.0 then Verdict("Renewable Energy", 25, 25, None)
    else if pct >= 25.0 then Verdict("Renewable Energy", 18, 25, None)
    else if pct >= 10.0 then Verdict("Renewable Energy", 10, 25, None)
    else if pct > 0.0 then Verdict("Renewable Energy", 5, 25, None)
    else Verdict("Renewable Energy", 0, 25, Some(SolarTip))
  }

  /** Annual electricity, lower is better: <10000 kWh gives 15, <50000 gives 10, <100000 gives 5, else 0. */
  function EnergyEfficiency(kwh: real): (v: Verdict)
    ensures v.name == "Energy Efficiency" && v.max == 15 && Bounded(v)
    ensures v.points == v.max <==> kwh < 10000.0
    ensures v.tip.Some? <==> kwh >= 100000.0
    ensures v.tip.Some? <==> v.points == 0
    ensures v.tip.Some? ==> v.tip.value == AuditTip
  {
    if kwh < 10000.0 then Verdict("Energy Efficiency", 15, 15, None)
    else if kwh < 50000.0 then Verdict("Energy Efficiency", 10, 15, None)
    else if kwh < 100000.0 then Verdict("Energy Efficiency", 5, 15, None)
    else Verdict("Energy Efficiency", 0, 15, Some(AuditTip))
  }

  /** Annual fuel, lower is better: <1000 litres gives 15, <5000 gives 10, <10000 gives 5, else 0. */
  function FuelEfficiency(litres: real): (v: Verdict)
    ensures v.name == "Fuel Efficiency" && v.max == 15 && Bounded(v)
    ensures v.points == v.max <==> litres < 1000.0
    ensures v.tip.Some? <==> litres >= 10000.0
    ensures v.tip.Some? <==> v.points == 0
    ensures v.tip.Some? ==> v.tip.value == FleetTip
  {
    if litres < 1000.0 then Verdict("Fuel Efficiency", 15, 15, None)
    else if litres < 5000.0 then Verdict("Fuel Efficiency", 10, 15, None)
    else if litres < 10000.0 then Verdict("Fuel Efficiency", 5, 15, None)
    else Verdict("Fuel Efficiency", 0, 15, Some(FleetTip))
  }

  /** Water use, lower is better: <50000 litres gives 10, <100000 gives 7, <500000 gives 3, else 0. */
  function WaterManagement(litres: real): (v: Verdict)
    ensures v.name == "Water Management" && v.max == 10 && Bounded(v)
    ensures v.points == v.max <==> litres < 50000.0
    ensures v.tip.Some? <==> litres >= 500000.0
    ensures v.tip.Some? <==> v.points == 0
    ensures v.tip.Some? ==> v.tip.value == RainwaterTip
  {
    if litres < 50000.0 then Verdict("Water Management", 10, 10, None)
    else if litres < 100000.0 then Verdict("Water Management", 7, 10, None)
    else if litres < 500000.0 then Verdict("Water Management", 3, 10, None)
    else Verdict("Water Management", 0, 10, Some(RainwaterTip))
  }

  /** Monthly waste, lower is better: <100 kg gives 15, <500 gives 10, <1000 gives 5, else 0. */
  function WasteReduction(kg: real): (v: Verdict)
    ensures v.name == "Waste Reduction" && v.max == 15 && Bounded(v)
    ensures v.points == v.max <==> kg < 100.0
    ensures v.tip.Some? <==> kg >= 1000.0
    ensures v.tip.Some? <==> v.points == 0
    ensures v.tip.Some? ==> v.tip.value == SegregationTip
  {
    if kg < 100.0 then Verdict("Waste Reduction", 15, 15, None)
    else if kg < 500.0 then Verdict("Waste Reduction", 10, 15, None)
    else if kg < 1000.0 then Verdict("Waste Reduction", 5, 15, None)
    else Verdict("Waste Reduction", 0, 15, Some(SegregationTip))
  }

  /** Named efficiency equipment: more than five characters gives 15, else 0. */
  function GreenTechnology(equipment: Option<string>): (v: Verdict)
    ensures v.name == "Green Technology" && v.max == 15 && Bounded(v)
    ensures v.points == v.max <==> HasText(equipment, 5)
    ensures v.tip.Some? <==> !HasText(equipment, 5)
    ensures v.tip.Some? <==> v.points == 0
    ensures v.tip.Some? ==> v.tip.value == EquipmentTip
  {
    if HasText(equipment, 5) then Verdict("Green Technology", 15, 15, None)
    else Verdict("Green Technology", 0, 15, Some(EquipmentTip))
  }

  /** `any(code.startswith(s) for s in green_sectors)` */
  predicate InGreenSector(code: string) {
    exists k :: 0 <= k < |GreenSectors| && StartsWith(code, GreenSectors[k])
  }

  /** An industry code beginning with 35, 38 or 39 gives 5, else 0; never a suggestion. */
  function SectorBonus(industry: Option<string>): (v: Verdict)
    ensures v.name == "Sector Bonus" && v.max == 5 && Bounded(v)
    ensures v.points == v.max <==> industry.Some? && InGreenSector(industry.value)
    ensures v.points == 0 <==> !(industry.Some? && InGreenSector(industry.value))
    ensures v.tip == None
  {
    if Truthy(industry) && InGreenSector(industry.value) then Verdict("Sector Bonus", 5, 5, None)
    else Verdict("Sector Bonus", 0, 5, None)
  }

  // ===== Sll rubric =====

  /** Goals that quote a percentage and run past 30 characters give 20; past 20 characters 10; else 0. */
  function GoalClarity(goals: string): (v: Verdict)
    ensures v.name == "Goal Clarity" && v.max == 20 && Bounded(v)
    ensures v.points == v.max <==> HasPercentPattern(Lower(goals)) && |goals| > 30
    ensures v.tip.Some? <==> |goals| <= 20
    ensures v.tip.Some? <==> v.points == 0
    ensures v.tip.Some? ==> v.tip.value == TargetsTip
  {
    var hasNumbers := HasPercentPattern(Lower(goals));
    if hasNumbers && |goals| > 30 then Verdict("Goal Clarity", 20, 20, None)
    else if |goals| > 20 then Verdict("Goal Clarity", 10, 20, None)
    else Verdict("Goal Clarity", 0, 20, Some(TargetsTip))
  }

  /** Safety incidents, fewer is better: 0 gives 25, <=2 gives 15, <=5 gives 5, else 0. */
  function SafetyRecord(incidents: int): (v: Verdict)
    ensures v.name == "Safety Record" && v.max == 25 && Bounded(v)
    ensures v.points == v.max <==> incidents == 0
    ensures v.tip.Some? <==> incidents > 5
    ensures v.tip.Some? <==> v.points == 0
    ensures v.tip.Some? ==> v.tip.value == SafetyTip
  {
    if incidents == 0 then Verdict("Safety Record", 25, 25, None)
    else if incidents <= 2 then Verdict("Safety Record", 15, 25, None)
    else if incidents <= 5 then Verdict("Safety Record", 5, 25, None)
    else Verdict("Safety Record", 0, 25, Some(SafetyTip))
  }

  /** Diversity statistics of more than five characters give 15, else 0. */
  function DiversityTracking(stats: Option<string>): (v: Verdict)
    ensures v.name == "Diversity Tracking" && v.max == 15 && Bounded(v)
    ensures v.points == v.max <==> HasText(stats, 5)
    ensures v.tip.Some? <==> !HasText(stats, 5)
    ensures v.tip.Some? <==> v.points == 0
    ensures v.tip.Some? ==> v.tip.value == DiversityTip
  {
    if HasText(stats, 5) then Verdict("Diversity Tracking", 15, 15, None)
    else Verdict("Diversity Tracking", 0, 15, Some(DiversityTip))
  }

  /**
    Governance keywords in `str(policies).lower()`: two or more give 20; one,
    or a text longer than 20 characters, gives 10; else 0.
   */
  function Governance(policies: Option<string>): (v: Verdict)
    ensures v.name == "Governance" && v.max == 20 && Bounded(v)
    ensures v.points == v.max <==> CountMatches(GovernanceKeywords, Lower(PyStr(policies))) >= 2
    ensures v.tip.Some? <==> CountMatches(GovernanceKeywords, Lower(PyStr(policies))) == 0 && |PyStr(policies)| <= 20
    ensures v.tip.Some? <==> v.points == 0
    ensures v.tip.Some? ==> v.tip.value == PoliciesTip
  {
    var governance := Lower(PyStr(policies));
    var matches := CountMatches(GovernanceKeywords, governance);
    if matches >= 2 then Verdict("Governance", 20, 20, None)
    else if matches == 1 || |governance| > 20 then Verdict("Governance", 10, 20, None)
    else Verdict("Governance", 0, 20, Some(PoliciesTip))
  }

  /** Training programmes of more than five characters give 10, else 0. */
  function EmployeeTraining(programs: Option<string>): (v: Verdict)
    ensures v.name == "Employee Training" && v.max == 10 && Bounded(v)
    ensures v.points == v.max <==> HasText(programs, 5)
    ensures v.tip.Some? <==> !HasText(programs, 5)
    ensures v.tip.Some? <==> v.points == 0
    ensures v.tip.Some? ==> v.tip.value == TrainingTip
  {
    if HasText(programs, 5) then Verdict("Employee Training", 10, 10, None)
    else Verdict("Employee Training", 0, 10, Some(TrainingTip))
  }

  /** Head count: >50 gives 10, >=20 gives 7, else 5; never 0 and never a suggestion. */
  function OrganizationScale(employees: int): (v: Verdict)
    ensures v.name == "Organization Scale" && v.max == 10 && Bounded(v)
    ensures v.points >= 5
    ensures v.points == v.max <==> employees > 50
    ensures v.tip == None
  {
    if employees > 50 then Verdict("Organization Scale", 10, 10, None)
    else if employees >= 20 then Verdict("Organization Scale", 7, 10, None)
    else Verdict("Organization Scale", 5, 10, None)
  }

  // ===== Fallback rubric =====

  /** Business description: more than 100 characters gives 20, more than 30 gives 10, else 5; never a suggestion. */
  function BusinessClarity(info: string): (v: Verdict)
    ensures v.name == "Business Clarity" && v.max == 20 && Bounded(v)
    ensures v.points >= 5
    ensures v.points == v.max <==> |info| > 100
    ensures v.tip == None
  {
    if |info| > 100 then Verdict("Business Clarity", 20, 20, None)
    else if |info| > 30 then Verdict("Business Clarity", 10, 20, None)
    else Verdict("Business Clarity", 5, 20, None)
  }

  /**
    Certification keywords in `str(docs).lower()`: two or more give 40; one,
    or a text longer than 30 characters, gives 20; else 0.
   */
  function Documentation(docs: Option<string>): (v: Verdict)
    ensures v.name == "Documentation" && v.max == 40 && Bounded(v)
    ensures v.points == v.max <==> CountMatches(CertificationKeywords, Lower(PyStr(docs))) >= 2
    ensures v.tip.Some? <==> CountMatches(CertificationKeywords, Lower(PyStr(docs))) == 0 && |PyStr(docs)| <= 30
    ensures v.tip.Some? <==> v.points == 0
    ensures v.tip.Some? ==> v.tip.value == DocumentingTip
  {
    var text := Lower(PyStr(docs));
    var matches := CountMatches(CertificationKeywords, text);
    if matches >= 2 then Verdict("Documentation", 40, 40, None)
    else if matches == 1 || |text| > 30 then Verdict("Documentation", 20, 40, None)
    else Verdict("Documentation", 0, 40, Some(DocumentingTip))
  }

  /** Interest keywords in `str(interests).lower()`: three or more give 40, at least one 20, else 10. */
  function SustainabilityInterest(interests: Option<string>): (v: Verdict)
    ensures v.name == "Sustainability Interest" && v.max == 40 && Bounded(v)
    ensures v.points >= 10
    ensures v.points == v.max <==> CountMatches(InterestKeywords, Lower(PyStr(interests))) >= 3
    ensures v.tip.Some? <==> CountMatches(InterestKeywords, Lower(PyStr(interests))) == 0
    ensures v.tip.Some? <==> v.points == 10
    ensures v.tip.Some? ==> v.tip.value == QuickWinsTip
  {
    var text := Lower(PyStr(interests));
    var matches := CountMatches(InterestKeywords, text);
    if matches >= 3 then Verdict("Sustainability Interest", 40, 40, None)
    else if matches >= 1 then Verdict("Sustainability Interest", 20, 40, None)
    else Verdict("Sustainability Interest", 10, 40, Some(QuickWinsTip))
  }

  // ===== Properties of single criteria =====

  /** The inverse-scaled green criteria never give more points for more consumption or waste. */
  lemma InverseScaledNonIncreasing(x: real, y: real)
    requires x <= y
    ensures EnergyEfficiency(y).points <= EnergyEfficiency(x).points
    ensures FuelEfficiency(y).points <= FuelEfficiency(x).points
    ensures WaterManagement(y).points <= WaterManagement(x).points
    ensures WasteReduction(y).points <= WasteReduction(x).points
  {
  }

  /** A larger renewable share never gives fewer points. */
  lemma RenewableNonDecreasing(x: real, y: real)
    requires x <= y
    ensures RenewableEnergy(x).points <= RenewableEnergy(y).points
  {
  }

  /** Fewer safety incidents never give fewer points, among non-negative counts. */
  lemma SafetyNonIncreasing(m: int, n: int)
    requires 0 <= m <= n
    ensures SafetyRecord(n).points <= SafetyRecord(m).points
  {
  }

  /** No keyword list repeats a keyword, so each keyword criterion counts the distinct keywords found in its text. */
  lemma KeywordCountsAreDistinct(text: string)
    ensures CountMatches(GovernanceKeywords, text) == |MatchedKeywords(GovernanceKeywords, text)|
    ensures CountMatches(CertificationKeywords, text) == |MatchedKeywords(CertificationKeywords, text)|
    ensures CountMatches(InterestKeywords, text) == |MatchedKeywords(InterestKeywords, text)|
  {
    GovernanceKeywordsDistinct();
    CountIsDistinctKeywords(GovernanceKeywords, text);
    CertificationKeywordsDistinct();
    CountIsDistinctKeywords(CertificationKeywords, text);
    InterestKeywordsDistinct();
    CountIsDistinctKeywords(InterestKeywords, text);
  }

  lemma GovernanceKeywordsDistinct()
    ensures forall i, j :: 0 <= i < j < |GovernanceKeywords| ==> GovernanceKeywords[i] != GovernanceKeywords[j]
  {
  }

  lemma CertificationKeywordsDistinct()
    ensures forall i, j :: 0 <= i < j < |CertificationKeywords| ==> CertificationKeywords[i] != CertificationKeywords[j]
  {
  }

  lemma InterestKeywordsDistinct()
    ensures forall i, j :: 0 <= i < j < |InterestKeywords| ==> InterestKeywords[i] != InterestKeywords[j]
  {
  }

  /** `str(None).lower()` is "none", which holds none of the keywords of any list. */
  lemma NoneMatchesNoKeyword()
    ensures Lower(PyStr(None)) == "none"
    ensures CountMatches(GovernanceKeywords, "none") == 0
    ensures CountMatches(CertificationKeywords, "none") == 0
    ensures CountMatches(InterestKeywords, "none") == 0
  {
    assert Lower("None") == "none" by {
      assert Lower("None")[0] == 'n';
    }
    forall k | 0 <= k < |GovernanceKeywords| ensures !Contains("none", GovernanceKeywords[k]) {
      LongKeywordAbsent("none", GovernanceKeywords[k]);
    }
    forall k | 0 <= k < |InterestKeywords| ensures !Contains("none", InterestKeywords[k]) {
      LongKeywordAbsent("none", InterestKeywords[k]);
    }
    forall k | 0 <= k < |CertificationKeywords| ensures !Contains("none", CertificationKeywords[k]) {
      if |CertificationKeywords[k]| > 4 {
        LongKeywordAbsent("none", CertificationKeywords[k]);
      } else {
        ShortKeywordAbsentFromNone(CertificationKeywords[k]);
      }
    }
  }

  lemma ShortKeywordAbsentFromNone(kw: string)
    requires kw == "iso" || kw == "bis" || kw == "gmp"
    ensures !Contains("none", kw)
  {
    var t := "none";
    assert t[..3][0] == 'n' && kw[0] != 'n';
    assert !StartsWith(t, kw);
    assert t[1..] == "one" && t[1..][..3][0] == 'o' && kw[0] != 'o';
    assert !StartsWith(t[1..], kw);
    assert t[1..][1..] == "ne";
    LongKeywordAbsent("ne", kw);
  }

  /** A missing (`None`) governance, documentation or interest field is read as "none" and lands in the lowest bucket. */
  lemma NoneTextLandsInLowestBucket()
    ensures Governance(None).points == 0 && Governance(None).tip == Some(PoliciesTip)
    ensures Documentation(None).points == 0 && Documentation(None).tip == Some(DocumentingTip)
    ensures SustainabilityInterest(None).points == 10 && SustainabilityInterest(None).tip == Some(QuickWinsTip)
  {
    NoneMatchesNoKeyword();
  }
}
