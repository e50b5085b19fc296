/** The professional-services connector: a catalogue of service offerings, the
    inverted demonstration-to-service index, category lookup, and the rules that turn
    the results of a demonstration into service recommendations and a business
    context (maturity, regulatory pressure, business impact). */
module ProfessionalServices {
  import opened Wrappers
  import opened Text

  datatype ServiceCategory =
    | RiskAssessment
    | GovernanceConsulting
    | ComplianceSolutions
    | SpecializedTesting
    | TrainingEducation

  /** The catalogue's keys (`service_id`). */
  datatype ServiceId =
    | AiRiskAssessment
    | GovernanceConsultingService
    | ComplianceSolutionsService
    | RedTeamTesting
    | BiasAudit
    | ContentAiGovernance
    | SeoAiGovernance

  /** A `ServiceOffering`, without its free-text description, benefits, audience and
      engagement model. */
  datatype ServiceOffering = ServiceOffering(
    id: ServiceId,
    name: string,
    category: ServiceCategory,
    landingPage: string,
    demonstrationMapping: seq<string>)

  function ServiceName(id: ServiceId): string {
    match id
    case AiRiskAssessment => "Comprehensive AI Risk Assessment"
    case GovernanceConsultingService => "AI Governance Strategy & Implementation"
    case ComplianceSolutionsService => "AI Compliance Automation & Monitoring"
    case RedTeamTesting => "AI Security & Vulnerability Testing"
    case BiasAudit => "Independent AI Bias Assessment"
    case ContentAiGovernance => "AI Content Creation Governance"
    case SeoAiGovernance => "Ethical AI SEO Implementation"
  }

  function CategoryOf(id: ServiceId): ServiceCategory {
    match id
    case AiRiskAssessment => RiskAssessment
    case GovernanceConsultingService => GovernanceConsulting
    case ComplianceSolutionsService => ComplianceSolutions
    case RedTeamTesting => SpecializedTesting
    case BiasAudit => SpecializedTesting
    case ContentAiGovernance => GovernanceConsulting
    case SeoAiGovernance => SpecializedTesting
  }

  function LandingPage(id: ServiceId): string {
    match id
    case AiRiskAssessment => "https://verityai.co/services/ai-risk-assessment"
    case GovernanceConsultingService => "https://verityai.co/services/ai-governance"
    case ComplianceSolutionsService => "https://verityai.co/landing/ai-compliance-solutions"
    case RedTeamTesting => "https://verityai.co/landing/ai-red-teaming-services"
    case BiasAudit => "https://verityai.co/landing/independent-ai-bias-audit"
    case ContentAiGovernance => "https://verityai.co/landing/ai-content-creation-services"
    case SeoAiGovernance => "https://verityai.co/landing/ai-seo-services"
  }

  /** The demonstrations each service lists (`demonstration_mapping`). */
  function Demonstrations(id: ServiceId): seq<string> {
    match id
    case AiRiskAssessment =>
      ["eu_ai_act_classifier", "risk_scoring_engine", "compliance_checker"]
    case GovernanceConsultingService =>
      ["ai_ethics_committee_charter", "model_validation_checklist", "incident_response_playbook", "stakeholder_engagement_plan"]
    case ComplianceSolutionsService =>
      ["iso_42001_gap_analyzer", "gdpr_ai_compliance_checker", "model_documentation_generator", "regulatory_reporting_suite"]
    case RedTeamTesting =>
      ["security_testing_framework", "vulnerability_scanner", "attack_simulation"]
    case BiasAudit =>
      ["bias_detection_demo", "fairness_metrics_analyzer", "mitigation_strategy_generator"]
    case ContentAiGovernance =>
      ["content_governance_framework", "brand_consistency_checker", "legal_compliance_validator"]
    case SeoAiGovernance =>
      ["seo_compliance_checker", "content_authenticity_validator", "search_guideline_monitor"]
  }

  /** The catalogue entry stored under each id. */
  function Offering(id: ServiceId): ServiceOffering {
    ServiceOffering(id, ServiceName(id), CategoryOf(id), LandingPage(id), Demonstrations(id))
  }

  /** The keys of `_load_service_catalog`, in insertion order. */
  const CatalogIds: seq<ServiceId> := [
    AiRiskAssessment, GovernanceConsultingService, ComplianceSolutionsService, RedTeamTesting, BiasAudit,
    ContentAiGovernance, SeoAiGovernance
  ]

  /** `_load_service_catalog`. */
  const Catalog: seq<ServiceOffering> := seq(|CatalogIds|, i requires 0 <= i < |CatalogIds| => Offering(CatalogIds[i]))

  /** Every key names one offering. */
  ghost predicate DistinctIds(catalog: seq<ServiceOffering>) {
    forall i, j :: 0 <= i < j < |catalog| ==> catalog[i].id != catalog[j].id
  }

  /** `self.services`: the catalogue keyed by id, a later entry replacing an earlier
      one with the same id. */
  function ServiceMap(catalog: seq<ServiceOffering>): map<ServiceId, ServiceOffering> {
    if catalog == [] then map[]
    else
      var last := catalog[|catalog| - 1];
      ServiceMap(catalog[..|catalog| - 1])[last.id := last]
  }

  /** `_create_demo_mappings`: every demonstration listed by a service points at that
      service; a later service overrides an earlier one. */
  function DemoMappings(catalog: seq<ServiceOffering>): map<string, ServiceId> {
    if catalog == [] then map[]
    else
      var last := catalog[|catalog| - 1];
      DemoMappings(catalog[..|catalog| - 1]) + DemosOf(last)
  }

  /** The entries one service adds to the index. */
  function DemosOf(s: ServiceOffering): (m: map<string, ServiceId>)
    ensures forall d :: d in m <==> d in s.demonstrationMapping
    ensures forall d :: d in m ==> m[d] == s.id
  {
    map d | d in s.demonstrationMapping :: s.id
  }

  /** The index of the last service listing a demonstration. */
  ghost predicate LastListing(catalog: seq<ServiceOffering>, demo: string, i: int) {
    && 0 <= i < |catalog|
    && demo in catalog[i].demonstrationMapping
    && forall j :: i < j < |catalog| ==> demo !in catalog[j].demonstrationMapping
  }

  /** The demonstrations indexed are exactly those some service lists. */
  lemma {:induction false} DemoMappingsKeys(catalog: seq<ServiceOffering>)
    ensures forall d :: d in DemoMappings(catalog) <==> exists i :: 0 <= i < |catalog| && d in catalog[i].demonstrationMapping
  {
    if catalog != [] {
      var n := |catalog| - 1;
      var init := catalog[..n];
      DemoMappingsKeys(init);
      forall d ensures d in DemoMappings(catalog) <==> exists i :: 0 <= i < |catalog| && d in catalog[i].demonstrationMapping {
        assert DemoMappings(catalog) == DemoMappings(init) + DemosOf(catalog[n]);
        if d in DemoMappings(catalog) && d !in DemosOf(catalog[n]) {
          var i :| 0 <= i < n && d in init[i].demonstrationMapping;
          assert d in catalog[i].demonstrationMapping;
        }
        if exists i :: 0 <= i < |catalog| && d in catalog[i].demonstrationMapping {
          var i :| 0 <= i < |catalog| && d in catalog[i].demonstrationMapping;
          if i < n {
            assert d in init[i].demonstrationMapping;
          }
        }
      }
    }
  }

  /** A service that does not list a demonstration keeps the last earlier listing last. */
  lemma LastListingExtends(catalog: seq<ServiceOffering>, demo: string, i: int)
    requires catalog != [] && LastListing(catalog[..|catalog| - 1], demo, i)
    requires demo !in catalog[|catalog| - 1].demonstrationMapping
    ensures LastListing(catalog, demo, i)
  {
    var init := catalog[..|catalog| - 1];
    assert catalog[i] == init[i];
    forall j | i < j < |catalog| ensures demo !in catalog[j].demonstrationMapping {
      if j < |catalog| - 1 {
        assert catalog[j] == init[j];
      }
    }
  }

  /** Each indexed demonstration points at the last service that lists it. */
  lemma {:induction false} DemoMappingsLastWins(catalog: seq<ServiceOffering>)
    ensures forall d :: d in DemoMappings(catalog) ==>
      exists i :: LastListing(catalog, d, i) && catalog[i].id == DemoMappings(catalog)[d]
  {
    if catalog != [] {
      var n := |catalog| - 1;
      var init := catalog[..n];
      DemoMappingsLastWins(init);
      assert DemoMappings(catalog) == DemoMappings(init) + DemosOf(catalog[n]);
      forall d | d in DemoMappings(catalog)
        ensures exists i :: LastListing(catalog, d, i) && catalog[i].id == DemoMappings(catalog)[d]
      {
        if d in catalog[n].demonstrationMapping {
          assert LastListing(catalog, d, n);
        } else {
          assert d in DemoMappings(init) && DemoMappings(catalog)[d] == DemoMappings(init)[d];
          var i :| LastListing(init, d, i) && init[i].id == DemoMappings(init)[d];
          LastListingExtends(catalog, d, i);
          assert catalog[i] == init[i];
        }
      }
    }
  }

  /** Every id the map holds belongs to some offering. */
  lemma {:induction false} ServiceMapKeys(catalog: seq<ServiceOffering>)
    ensures forall id :: id in ServiceMap(catalog) ==> exists i :: 0 <= i < |catalog| && catalog[i].id == id
  {
    if catalog != [] {
      var n := |catalog| - 1;
      var init := catalog[..n];
      ServiceMapKeys(init);
      assert ServiceMap(catalog) == ServiceMap(init)[catalog[n].id := catalog[n]];
      forall id | id in ServiceMap(catalog) ensures exists i :: 0 <= i < |catalog| && catalog[i].id == id {
        if id == catalog[n].id {
          assert catalog[n].id == id;
        } else {
          assert id in ServiceMap(init);
          var i :| 0 <= i < n && init[i].id == id;
          assert catalog[i] == init[i];
        }
      }
    }
  }

  /** With distinct ids, the map holds every offering under its own id. */
  lemma {:induction false} ServiceMapHolds(catalog: seq<ServiceOffering>)
    requires DistinctIds(catalog)
    ensures forall i :: 0 <= i < |catalog| ==> catalog[i].id in ServiceMap(catalog) && ServiceMap(catalog)[catalog[i].id] == catalog[i]
  {
    if catalog != [] {
      var n := |catalog| - 1;
      var init := catalog[..n];
      assert DistinctIds(init) by {
        forall i, j | 0 <= i < j < |init| ensures init[i].id != init[j].id {
          assert init[i] == catalog[i] && init[j] == catalog[j];
        }
      }
      ServiceMapHolds(init);
      assert ServiceMap(catalog) == ServiceMap(init)[catalog[n].id := catalog[n]];
      forall i | 0 <= i < |catalog|
        ensures catalog[i].id in ServiceMap(catalog) && ServiceMap(catalog)[catalog[i].id] == catalog[i]
      {
        if i < n {
          assert init[i] == catalog[i];
          assert catalog[i].id != catalog[n].id;
        }
      }
    }
  }

  /** With distinct ids, the map holds every offering under its own id, and
      nothing else. */
  lemma ServiceMapFacts(catalog: seq<ServiceOffering>)
    requires DistinctIds(catalog)
    ensures forall i :: 0 <= i < |catalog| ==> catalog[i].id in ServiceMap(catalog) && ServiceMap(catalog)[catalog[i].id] == catalog[i]
    ensures forall id :: id in ServiceMap(catalog) ==> exists i :: 0 <= i < |catalog| && catalog[i].id == id
  {
    ServiceMapHolds(catalog);
    ServiceMapKeys(catalog);
  }

  /** `get_service_for_demo`. */
  function ServiceForDemo(catalog: seq<ServiceOffering>, demo: string): Option<ServiceOffering> {
    var mappings := DemoMappings(catalog);
    var services := ServiceMap(catalog);
    if demo in mappings && mappings[demo] in services then Some(services[mappings[demo]]) else None
  }

  /** On a catalogue with distinct ids, a demonstration has a service exactly when it
      is indexed, and that service is the last one listing it. */
  lemma ServiceForDemoFacts(catalog: seq<ServiceOffering>, demo: string)
    requires DistinctIds(catalog)
    ensures ServiceForDemo(catalog, demo).None? <==> demo !in DemoMappings(catalog)
    ensures ServiceForDemo(catalog, demo).Some? ==>
      exists i :: LastListing(catalog, demo, i) && ServiceForDemo(catalog, demo).value == catalog[i]
  {
    DemoMappingsLastWins(catalog);
    ServiceMapFacts(catalog);
  }

  /** The catalogue's ids are distinct, so every demonstration it lists resolves to
      the one service listing it. */
  lemma CatalogServiceForDemo(demo: string)
    ensures ServiceForDemo(Catalog, demo).None? <==> demo !in DemoMappings(Catalog)
    ensures ServiceForDemo(Catalog, demo).Some? ==> demo in ServiceForDemo(Catalog, demo).value.demonstrationMapping
  {
    CatalogIdsDistinct();
    ServiceForDemoFacts(Catalog, demo);
  }

  lemma CatalogIdsDistinct()
    ensures DistinctIds(Catalog)
  {
    forall i | 0 <= i < |Catalog|
      ensures CatalogPosition(Catalog[i].id) == i
    {
      CatalogEntry(i);
      IdPosition(i);
    }
  }

  lemma CatalogEntry(i: int)
    requires 0 <= i < |CatalogIds|
    ensures |Catalog| == |CatalogIds| && Catalog[i].id == CatalogIds[i]
  {
    OfferingId(CatalogIds[i]);
  }

  lemma IdPosition(i: int)
    requires 0 <= i < |CatalogIds|
    ensures CatalogPosition(CatalogIds[i]) == i
  {
  }

  /** Where each id sits in the catalogue. */
  function CatalogPosition(id: ServiceId): nat {
    match id
    case AiRiskAssessment => 0
    case GovernanceConsultingService => 1
    case ComplianceSolutionsService => 2
    case RedTeamTesting => 3
    case BiasAudit => 4
    case ContentAiGovernance => 5
    case SeoAiGovernance => 6
  }

  /** Each entry is stored under its own id. */
  lemma OfferingId(id: ServiceId)
    ensures Offering(id).id == id
  {
  }

  /** `a` can be obtained from `b` by deleting elements: it lists some of `b`'s
      elements in `b`'s order. */
  ghost predicate Subsequence(a: seq<ServiceOffering>, b: seq<ServiceOffering>)
    decreases |b|
  {
    if a == [] then true
    else if b == [] then false
    else (a[|a| - 1] == b[|b| - 1] && Subsequence(a[..|a| - 1], b[..|b| - 1])) || Subsequence(a, b[..|b| - 1])
  }

  /** `get_services_by_category`: the offerings of one category, in catalogue order. */
  function ServicesByCategory(catalog: seq<ServiceOffering>, category: ServiceCategory): (r: seq<ServiceOffering>)
    ensures |r| <= |catalog|
    ensures forall s :: s in r <==> s in catalog && s.category == category
    ensures Subsequence(r, catalog)
  {
    if catalog == [] then []
    else
      var n := |catalog| - 1;
      assert catalog == catalog[..n] + [catalog[n]];
      var rest := ServicesByCategory(catalog[..n], category);
      var r := rest + (if catalog[n].category == category then [catalog[n]] else []);
      assert catalog[..n] == catalog[..|catalog| - 1];
      if catalog[n].category == category then
        assert r[..|r| - 1] == rest;
        r
      else
        assert r == rest;
        r
  }

  /** The demonstration results the rules read. Keys that are only tested for presence
      or truthiness become booleans; `industries` and `business_impact` hold the text
      `str()` gives of their value. */
  datatype DemoResults = DemoResults(
    riskLevel: Option<string>,
    biasDetected: bool,
    securityVulnerabilities: bool,
    complianceRate: Option<string>,
    highRiskSystems: Option<int>,
    industries: Option<string>,
    totalAiSystems: Option<int>,
    businessImpact: Option<string>,
    complianceGaps: Option<int>)

  const HighRisk: string := "high"
  const UnacceptableRisk: string := "unacceptable"
  const LimitedRisk: string := "limited"

  datatype EngagementStrategy = NoStrategy | ComprehensiveGovernance | ComplianceFocused

  datatype ExpectedOutcome = BiasValidation | SecurityRemediation

  datatype Rationale = AddressAreas(count: nat) | AheadOfDeadlines | CompetitiveAdvantage | ReduceRisk

  /** The result of `generate_service_recommendation`; each offering is named by its id. */
  datatype Recommendation = Recommendation(
    primaryServices: seq<ServiceId>,
    supportingServices: seq<ServiceId>,
    engagementStrategy: EngagementStrategy,
    expectedOutcomes: seq<ExpectedOutcome>,
    investmentRationale: seq<Rationale>)

  predicate SevereRisk(d: DemoResults) {
    d.riskLevel.Some? && (d.riskLevel.value == HighRisk || d.riskLevel.value == UnacceptableRisk)
  }

  predicate LimitedRiskLevel(d: DemoResults) {
    d.riskLevel == Some(LimitedRisk)
  }

  function RecommendationOf(d: DemoResults): Recommendation {
    var primary :=
      (if SevereRisk(d) then [AiRiskAssessment, GovernanceConsultingService]
       else if LimitedRiskLevel(d) then [ComplianceSolutionsService] else [])
      + (if d.biasDetected then [BiasAudit] else []);
    var supporting :=
      (if !SevereRisk(d) && LimitedRiskLevel(d) then [AiRiskAssessment] else [])
      + (if d.securityVulnerabilities then [RedTeamTesting] else []);
    var strategy :=
      if SevereRisk(d) then ComprehensiveGovernance else if LimitedRiskLevel(d) then ComplianceFocused else NoStrategy;
    var outcomes :=
      (if d.biasDetected then [BiasValidation] else []) + (if d.securityVulnerabilities then [SecurityRemediation] else []);
    var total := |primary| + |supporting|;
    var rationale :=
      if total > 0 then [AddressAreas(total), AheadOfDeadlines, CompetitiveAdvantage, ReduceRisk] else [];
    Recommendation(primary, supporting, strategy, outcomes, rationale)
  }

  /** A `high` or `unacceptable` risk level brings the risk assessment and governance
      consulting as primary services; `limited` brings compliance solutions as primary
      and the risk assessment as supporting; detected bias brings the bias audit; the
      mere presence of security findings brings red teaming. The rationale is given
      exactly when some service was recommended, and counts them. */
  lemma RecommendationRules(d: DemoResults)
    ensures var r := RecommendationOf(d);
      && (GovernanceConsultingService in r.primaryServices <==> SevereRisk(d))
      && (AiRiskAssessment in r.primaryServices <==> SevereRisk(d))
      && (ComplianceSolutionsService in r.primaryServices <==> LimitedRiskLevel(d))
      && (AiRiskAssessment in r.supportingServices <==> LimitedRiskLevel(d))
      && (BiasAudit in r.primaryServices <==> d.biasDetected)
      && (RedTeamTesting in r.supportingServices <==> d.securityVulnerabilities)
      && (r.investmentRationale != [] <==> r.primaryServices + r.supportingServices != [])
      && (r.investmentRationale != [] ==> r.investmentRationale[0] == AddressAreas(|r.primaryServices| + |r.supportingServices|))
      && (r.engagementStrategy == NoStrategy <==> !SevereRisk(d) && !LimitedRiskLevel(d))
  {
    if LimitedRiskLevel(d) {
      assert d.riskLevel.value == LimitedRisk;
      assert !SevereRisk(d);
    }
  }

  /** `s.strip(c)`: `s` without its leading and trailing runs of `c`. */
  function Strip(s: string, c: char): (r: string)
    ensures |r| <= |s|
    ensures r != [] ==> r[0] != c && r[|r| - 1] != c
    ensures forall i :: 0 <= i < |s| && s[i] != c ==> r != []
    decreases |s|
  {
    if s == [] then []
    else if s[0] == c then Strip(s[1..], c)
    else if s[|s| - 1] == c then Strip(s[..|s| - 1], c)
    else s
  }

  predicate IsDigit(c: char) {
    '0' <= c <= '9'
  }

  function DigitsValue(s: string): (n: nat)
    requires forall i :: 0 <= i < |s| ==> IsDigit(s[i])
  {
    if s == [] then 0
    else
      assert IsDigit(s[|s| - 1]);
      10 * DigitsValue(s[..|s| - 1]) + (s[|s| - 1] as int - '0' as int)
  }

  function Pow10(k: nat): (p: nat)
    ensures p >= 1
  {
    if k == 0 then 1 else 10 * Pow10(k - 1)
  }

  function DotIndex(s: string): (r: Option<nat>)
    ensures r.Some? ==> r.value < |s| && s[r.value] == '.' && forall i :: 0 <= i < r.value ==> s[i] != '.'
    ensures r.None? ==> forall i :: 0 <= i < |s| ==> s[i] != '.'
  {
    if s == [] then None
    else if s[0] == '.' then Some(0)
    else match DotIndex(s[1..]) case None => None case Some(k) => Some(k + 1)
  }

  /** `float(s)` for unsigned decimal numerals (`"45"`, `"72.5"`, `".5"`, `"5."`);
      anything else is a `ValueError`. */
  function ParseDecimal(s: string): (r: Result<real>)
    ensures r.Success? ==> r.value >= 0.0
  {
    match DotIndex(s)
    case None =>
      if s != [] && forall i :: 0 <= i < |s| ==> IsDigit(s[i]) then Success(DigitsValue(s) as real)
      else Failure(ValueError(s))
    case Some(k) =>
      var whole, fraction := s[..k], s[k + 1..];
      if (forall i :: 0 <= i < |whole| ==> IsDigit(whole[i])) && (forall i :: 0 <= i < |fraction| ==> IsDigit(fraction[i]))
         && (whole != [] || fraction != [])
      then
        Success(DigitsValue(whole) as real + DigitsValue(fraction) as real / Pow10(|fraction|) as real)
      else Failure(ValueError(s))
  }

  /** `float(rate.strip('%'))`. */
  function ParsePercentage(rate: string): Result<real> {
    ParseDecimal(Strip(rate, '%'))
  }

  datatype Maturity = Advanced | Intermediate | Emerging | AssessmentNeeded

  function MaturityBand(rate: real): (m: Maturity)
    ensures m == Advanced <==> rate >= 80.0
    ensures m == Intermediate <==> 50.0 <= rate < 80.0
    ensures m == Emerging <==> rate < 50.0
  {
    if rate >= 80.0 then Advanced else if rate >= 50.0 then Intermediate else Emerging
  }

  /** `_assess_ai_maturity`: `assessment_needed` without a rate, otherwise the band of
      the parsed percentage; a rate that does not parse raises. */
  function AiMaturity(d: DemoResults): (r: Result<Maturity>)
    ensures r == Success(AssessmentNeeded) <==> d.complianceRate.None?
    ensures d.complianceRate.Some? ==> (r.Failure? <==> ParsePercentage(d.complianceRate.value).Failure?)
    ensures r.Success? && d.complianceRate.Some? ==> r.value == MaturityBand(ParsePercentage(d.complianceRate.value).value)
  {
    if d.complianceRate.None? then Success(AssessmentNeeded)
    else
      var rate :- ParsePercentage(d.complianceRate.value);
      Success(MaturityBand(rate))
  }

  /** A rate written with digits only reads as its numeric value, with or without
      a percent sign. */
  lemma IntegerPercentage(digits: string)
    requires digits != [] && forall i :: 0 <= i < |digits| ==> IsDigit(digits[i])
    ensures ParsePercentage(digits + "%") == Success(DigitsValue(digits) as real)
    ensures ParsePercentage(digits) == Success(DigitsValue(digits) as real)
  {
    var s := digits + "%";
    assert s[..|s| - 1] == digits;
    assert digits[0] != '%' && digits[|digits| - 1] != '%';
    assert Strip(digits, '%') == digits;
    assert Strip(s, '%') == digits;
    assert DotIndex(digits).None?;
  }

  datatype Level = LevelHigh | LevelMedium | LevelLow

  function CountTrue(bs: seq<bool>): (n: nat)
    ensures n <= |bs|
  {
    if bs == [] then 0 else CountTrue(bs[..|bs| - 1]) + (if bs[|bs| - 1] then 1 else 0)
  }

  /** `str([])`, the text tested when a list-valued key is absent. */
  const EmptyListText: string := "[]"

  function PressureIndicators(d: DemoResults): seq<bool> {
    var industries := d.industries.GetOr(EmptyListText);
    [d.highRiskSystems.GetOr(0) > 2, Contains(industries, "financial"), Contains(industries, "healthcare"), d.biasDetected]
  }

  function ImpactIndicators(d: DemoResults): seq<bool> {
    [d.totalAiSystems.GetOr(0) > 5, Contains(d.businessImpact.GetOr(EmptyListText), "critical"), d.complianceGaps.GetOr(0) > 3]
  }

  /** `_assess_regulatory_pressure`: high at three or more of the four indicators,
      medium at two, low otherwise. */
  function RegulatoryPressure(d: DemoResults): (r: Level)
    ensures r == LevelHigh <==> CountTrue(PressureIndicators(d)) >= 3
    ensures r == LevelMedium <==> CountTrue(PressureIndicators(d)) == 2
    ensures r == LevelLow <==> CountTrue(PressureIndicators(d)) <= 1
  {
    var n := CountTrue(PressureIndicators(d));
    if n >= 3 then LevelHigh else if n >= 2 then LevelMedium else LevelLow
  }

  /** `_assess_business_impact`: high at two or more of the three indicators, medium
      at one, low otherwise. */
  function BusinessImpact(d: DemoResults): (r: Level)
    ensures r == LevelHigh <==> CountTrue(ImpactIndicators(d)) >= 2
    ensures r == LevelMedium <==> CountTrue(ImpactIndicators(d)) == 1
    ensures r == LevelLow <==> CountTrue(ImpactIndicators(d)) == 0
  {
    var n := CountTrue(ImpactIndicators(d));
    if n >= 2 then LevelHigh else if n >= 1 then LevelMedium else LevelLow
  }

  lemma CountTrueStep(bs: seq<bool>, k: nat)
    requires k < |bs|
    ensures CountTrue(bs[..k + 1]) == CountTrue(bs[..k]) + (if bs[k] then 1 else 0)
  {
    assert bs[..k + 1][..k] == bs[..k];
  }

  /** Absent keys count as no indicator: without the list-valued keys, pressure needs
      both many high-risk systems and detected bias to reach medium, and can never be
      high. */
  lemma PressureWithoutIndustries(d: DemoResults)
    requires d.industries.None?
    ensures RegulatoryPressure(d) != LevelHigh
    ensures RegulatoryPressure(d) == LevelMedium <==> d.highRiskSystems.GetOr(0) > 2 && d.biasDetected
  {
    var bs := PressureIndicators(d);
    assert !Contains(EmptyListText, "financial") && !Contains(EmptyListText, "healthcare") by {
      ContainsAt(EmptyListText, "financial");
      ContainsAt(EmptyListText, "healthcare");
    }
    assert bs[..0] == [];
    CountTrueStep(bs, 0);
    CountTrueStep(bs, 1);
    CountTrueStep(bs, 2);
    CountTrueStep(bs, 3);
    assert bs[..4] == bs;
  }
}
