/** The EU AI Act classifier: prohibited-practice detection, a sector lookup, an
    ordered risk decision, and the requirements, timeline, mitigations and
    documentation that follow from the risk category. */
module EuAiActClassifier {
  import opened Wrappers
  import opened Text

  datatype RiskCategory = Unacceptable | HighRisk | LimitedRisk | MinimalRisk

  datatype Sector =
    | Biometric | CriticalInfrastructure | Education | Employment | EssentialServices
    | LawEnforcement | Migration | Justice | Democratic | General

  /** The prohibited practices the classifier lists, in its order. */
  datatype Practice =
    | SocialScoringCitizens | SubliminalManipulation | ExploitationVulnerabilities | RealTimeBiometricPublic
    | EmotionRecognitionWorkplaceEducation | BiometricCategorizationSensitiveAttributes | IndiscriminateSurveillance

  const ProhibitedPractices: seq<Practice> := [
    SocialScoringCitizens, SubliminalManipulation, ExploitationVulnerabilities, RealTimeBiometricPublic,
    EmotionRecognitionWorkplaceEducation, BiometricCategorizationSensitiveAttributes, IndiscriminateSurveillance]

  /** The keys of the system description the classifier reads; an absent string key
      is "", an absent list empty and an absent `real_time` false. `sector` is None
      when absent, since its default is "general" rather than "". */
  datatype AiSystem = AiSystem(
    purpose: string, name: string, useCases: seq<string>, dataTypes: seq<string>,
    deploymentContext: string, realTime: bool, context: string, sector: Option<string>,
    decisionImpact: string, userInteraction: string)

  // ---- Prohibited practices ----

  const SocialScoringTerm := "social_scoring"
  const CitizenScoringTerm := "citizen_scoring"
  const SubliminalTerm := "subliminal"
  const ManipulationTerm := "manipulation"
  const BiometricData := "biometric"
  const PublicSpace := "public_space"
  const EmotionRecognition := "emotion_recognition"
  const Workplace := "workplace"
  const EducationContext := "education"

  predicate SocialScoring(s: AiSystem) {
    Contains(Lower(s.purpose), SocialScoringTerm) || Contains(Lower(s.purpose), CitizenScoringTerm)
  }

  predicate Subliminal(s: AiSystem) {
    Contains(Lower(s.purpose), SubliminalTerm) || Contains(Lower(s.purpose), ManipulationTerm)
  }

  predicate RealTimePublicBiometric(s: AiSystem) {
    BiometricData in s.dataTypes && s.deploymentContext == PublicSpace && s.realTime
  }

  predicate EmotionAtWorkOrSchool(s: AiSystem) {
    EmotionRecognition in s.useCases && (s.context == Workplace || s.context == EducationContext)
  }

  /** The four detectable tags, in order, each present when its flag is. */
  function Tags(socialScoring: bool, subliminal: bool, biometric: bool, emotion: bool): seq<Practice> {
    (if socialScoring then [SocialScoringCitizens] else [])
    + (if subliminal then [SubliminalManipulation] else [])
    + (if biometric then [RealTimeBiometricPublic] else [])
    + (if emotion then [EmotionRecognitionWorkplaceEducation] else [])
  }

  /** `_check_prohibited_practices`: four checks, appended in order. */
  function Violations(s: AiSystem): seq<Practice> {
    Tags(SocialScoring(s), Subliminal(s), RealTimePublicBiometric(s), EmotionAtWorkOrSchool(s))
  }

  /** The position of a practice in the practice list. */
  function PracticeIndex(p: Practice): (i: nat)
    ensures i < |ProhibitedPractices| && ProhibitedPractices[i] == p
  {
    match p
    case SocialScoringCitizens => 0
    case SubliminalManipulation => 1
    case ExploitationVulnerabilities => 2
    case RealTimeBiometricPublic => 3
    case EmotionRecognitionWorkplaceEducation => 4
    case BiometricCategorizationSensitiveAttributes => 5
    case IndiscriminateSurveillance => 6
  }

  lemma TagsFacts(a: bool, b: bool, c: bool, d: bool)
    ensures var v := Tags(a, b, c, d);
      && (SocialScoringCitizens in v <==> a)
      && (SubliminalManipulation in v <==> b)
      && (RealTimeBiometricPublic in v <==> c)
      && (EmotionRecognitionWorkplaceEducation in v <==> d)
      && (v == [] <==> !a && !b && !c && !d)
      && ExploitationVulnerabilities !in v && BiometricCategorizationSensitiveAttributes !in v
      && IndiscriminateSurveillance !in v
      && (forall i, j :: 0 <= i < j < |v| ==> PracticeIndex(v[i]) < PracticeIndex(v[j]))
  {
  }

  /** Each of the four detectable tags is reported exactly when its check fires; the
      tags appear in the order of the practice list, each at most once; the other
      three listed practices are never reported. */
  lemma ViolationsFacts(s: AiSystem)
    ensures var v := Violations(s);
      && (SocialScoringCitizens in v <==> SocialScoring(s))
      && (SubliminalManipulation in v <==> Subliminal(s))
      && (RealTimeBiometricPublic in v <==> RealTimePublicBiometric(s))
      && (EmotionRecognitionWorkplaceEducation in v <==> EmotionAtWorkOrSchool(s))
      && ExploitationVulnerabilities !in v && BiometricCategorizationSensitiveAttributes !in v
      && IndiscriminateSurveillance !in v
      && (forall i, j :: 0 <= i < j < |v| ==> PracticeIndex(v[i]) < PracticeIndex(v[j]))
  {
    TagsFacts(SocialScoring(s), Subliminal(s), RealTimePublicBiometric(s), EmotionAtWorkOrSchool(s));
  }

  // ---- Sector and risk ----

  const GeneralHint := "general"

  /** `sector_mappings`: the sector a business-sector hint maps to, None for a hint
      that is not a key. */
  function MappedSector(hint: string): Option<Sector> {
    if hint == "financial_services" || hint == "healthcare" then Some(EssentialServices)
    else if hint == "education" then Some(Education)
    else if hint == "employment" then Some(Employment)
    else if hint == "law_enforcement" then Some(LawEnforcement)
    else if hint == "transportation" || hint == "energy" || hint == "telecommunications" then Some(CriticalInfrastructure)
    else if hint == "government" then Some(Democratic)
    else if hint == GeneralHint then Some(General)
    else None
  }

  /** `_determine_sector`: the hint defaults to "general", an unknown hint maps to
      GENERAL. */
  function SectorOf(s: AiSystem): Sector {
    var hint := match s.sector case Some(h) => h case None => GeneralHint;
    match MappedSector(hint) case Some(x) => x case None => General
  }

  /** The lookup is total and falls back to GENERAL; the biometric, migration and
      justice sectors are the target of no business sector, so no system is ever
      placed in them. */
  lemma SectorOfFacts(s: AiSystem)
    ensures s.sector.None? ==> SectorOf(s) == General
    ensures s.sector.Some? && MappedSector(s.sector.value).None? ==> SectorOf(s) == General
    ensures SectorOf(s) != Biometric && SectorOf(s) != Migration && SectorOf(s) != Justice
  {
  }

  const HighRiskSectors: seq<Sector> := [
    Biometric, CriticalInfrastructure, Education, Employment, EssentialServices, LawEnforcement, Migration, Justice]

  const HighImpacts: seq<string> := ["automated_decision", "significant_impact", "legal_consequences"]

  const DirectUserFacing := "direct_user_facing"
  const ChatbotTerm := "chatbot"
  const RecommendationTerm := "recommendation"

  predicate TransparencySignal(s: AiSystem) {
    s.userInteraction == DirectUserFacing || Contains(Lower(s.name), ChatbotTerm)
    || Contains(Lower(s.purpose), RecommendationTerm)
  }

  /** `_assess_risk_level`: the first matching rule wins. */
  function RiskLevel(s: AiSystem, sector: Sector): RiskCategory {
    if sector in HighRiskSectors then HighRisk
    else if s.decisionImpact in HighImpacts then HighRisk
    else if TransparencySignal(s) then LimitedRisk
    else MinimalRisk
  }

  /** The decision as a whole: HIGH_RISK exactly for a high-risk sector or a high
      decision impact, LIMITED_RISK exactly when neither holds but a transparency
      signal does, MINIMAL_RISK otherwise; never UNACCEPTABLE. Only the democratic
      and general sectors can be below high risk. */
  lemma RiskLevelFacts(s: AiSystem, sector: Sector)
    ensures RiskLevel(s, sector) != Unacceptable
    ensures RiskLevel(s, sector) == HighRisk <==> sector in HighRiskSectors || s.decisionImpact in HighImpacts
    ensures RiskLevel(s, sector) == LimitedRisk <==>
      sector !in HighRiskSectors && s.decisionImpact !in HighImpacts && TransparencySignal(s)
    ensures RiskLevel(s, sector) != HighRisk ==> sector == Democratic || sector == General
  {
    if sector != Democratic && sector != General {
      match sector
      case Biometric => assert HighRiskSectors[0] == sector;
      case CriticalInfrastructure => assert HighRiskSectors[1] == sector;
      case Education => assert HighRiskSectors[2] == sector;
      case Employment => assert HighRiskSectors[3] == sector;
      case EssentialServices => assert HighRiskSectors[4] == sector;
      case LawEnforcement => assert HighRiskSectors[5] == sector;
      case Migration => assert HighRiskSectors[6] == sector;
      case Justice => assert HighRiskSectors[7] == sector;
    }
  }

  // ---- What follows from the category ----

  /** The entries of the requirements table. */
  datatype Obligation =
    | ImmediateProhibition | SystemDecommission | LegalReviewRequired
    | RiskManagementSystem | DataGovernanceMeasures | TechnicalDocumentation | RecordKeepingSystem
    | TransparencyObligations | HumanOversightMeasures | AccuracyRobustnessCybersecurity | QualityManagementSystem
    | ConformityAssessment | CeMarking | RegistrationEuDatabase | PostMarketMonitoring
    | UserInformationRequirements | HumanInteractionDisclosure | VoluntaryCodesConduct | BestPracticesAdherence

  function ObligationKey(o: Obligation): string {
    match o
    case ImmediateProhibition => "immediate_prohibition"
    case SystemDecommission => "system_decommission"
    case LegalReviewRequired => "legal_review_required"
    case RiskManagementSystem => "risk_management_system"
    case DataGovernanceMeasures => "data_governance_measures"
    case TechnicalDocumentation => "technical_documentation"
    case RecordKeepingSystem => "record_keeping_system"
    case TransparencyObligations => "transparency_obligations"
    case HumanOversightMeasures => "human_oversight_measures"
    case AccuracyRobustnessCybersecurity => "accuracy_robustness_cybersecurity"
    case QualityManagementSystem => "quality_management_system"
    case ConformityAssessment => "conformity_assessment"
    case CeMarking => "ce_marking"
    case RegistrationEuDatabase => "registration_eu_database"
    case PostMarketMonitoring => "post_market_monitoring"
    case UserInformationRequirements => "user_information_requirements"
    case HumanInteractionDisclosure => "human_interaction_disclosure"
    case VoluntaryCodesConduct => "voluntary_codes_conduct"
    case BestPracticesAdherence => "best_practices_adherence"
  }

  /** `compliance_requirements`. */
  function Requirements(c: RiskCategory): (r: seq<Obligation>)
    ensures |r| == match c case Unacceptable => 3 case HighRisk => 12 case LimitedRisk => 3 case MinimalRisk => 2
  {
    match c
    case Unacceptable => [ImmediateProhibition, SystemDecommission, LegalReviewRequired]
    case HighRisk => [RiskManagementSystem, DataGovernanceMeasures, TechnicalDocumentation, RecordKeepingSystem,
                      TransparencyObligations, HumanOversightMeasures, AccuracyRobustnessCybersecurity,
                      QualityManagementSystem, ConformityAssessment, CeMarking, RegistrationEuDatabase,
                      PostMarketMonitoring]
    case LimitedRisk => [TransparencyObligations, UserInformationRequirements, HumanInteractionDisclosure]
    case MinimalRisk => [VoluntaryCodesConduct, BestPracticesAdherence]
  }

  function BaseTimeline(c: RiskCategory): nat {
    match c
    case Unacceptable => 0
    case HighRisk => 24
    case LimitedRisk => 12
    case MinimalRisk => 6
  }

  predicate SensitiveSector(sector: Sector) {
    sector == LawEnforcement || sector == Justice
  }

  /** `_calculate_compliance_timeline`: the category's base, six months more in a
      sensitive sector. */
  function TimelineMonths(c: RiskCategory, sector: Sector): nat {
    BaseTimeline(c) + if SensitiveSector(sector) then 6 else 0
  }

  function Severity(c: RiskCategory): nat {
    match c
    case MinimalRisk => 0
    case LimitedRisk => 1
    case HighRisk => 2
    case Unacceptable => 3
  }

  /** The timeline is at most 30 months; among the permitted categories a more severe
      category never gets less time in the same sector; in a sensitive sector it is
      six months longer than elsewhere. */
  lemma TimelineFacts(a: RiskCategory, b: RiskCategory, sector: Sector, other: Sector)
    ensures TimelineMonths(a, sector) <= 30
    ensures a != Unacceptable && b != Unacceptable && Severity(a) <= Severity(b) ==>
      TimelineMonths(a, sector) <= TimelineMonths(b, sector)
    ensures SensitiveSector(sector) && !SensitiveSector(other) ==> TimelineMonths(a, sector) == TimelineMonths(a, other) + 6
  {
  }

  /** The mitigation measures the classifier recommends. */
  datatype Mitigation =
    | ComprehensiveRiskManagement | HumanOversightProtocols | BiasMonitoring | IncidentResponseProcedures
    | DataGovernanceFramework | UserDisclosureMechanisms | TransparencyReporting | UserFeedbackChannels
    | ProhibitAndDecommission

  function MitigationText(m: Mitigation): string {
    match m
    case ComprehensiveRiskManagement => "Implement comprehensive risk management system"
    case HumanOversightProtocols => "Establish human oversight protocols"
    case BiasMonitoring => "Deploy bias monitoring and mitigation"
    case IncidentResponseProcedures => "Create incident response procedures"
    case DataGovernanceFramework => "Implement data governance framework"
    case UserDisclosureMechanisms => "Implement user disclosure mechanisms"
    case TransparencyReporting => "Create transparency reporting"
    case UserFeedbackChannels => "Establish user feedback channels"
    case ProhibitAndDecommission => "System must be prohibited and decommissioned"
  }

  /** `_generate_mitigation_measures`. */
  function MitigationMeasures(c: RiskCategory): seq<Mitigation> {
    match c
    case HighRisk => [ComprehensiveRiskManagement, HumanOversightProtocols, BiasMonitoring, IncidentResponseProcedures,
                      DataGovernanceFramework]
    case LimitedRisk => [UserDisclosureMechanisms, TransparencyReporting, UserFeedbackChannels]
    case _ => []
  }

  /** The documents the classifier asks for. */
  datatype Document =
    | SystemDescription | RiskAssessment | TechnicalDocs | QualityManagementDocs | RiskManagementDocs
    | DataGovernanceDocs | HumanOversightProcedures | PostMarketMonitoringPlan | IncidentResponsePlan
    | UserInformationDocs | TransparencyMeasuresDocs | LegalReviewDocs | DecommissionPlan

  function DocumentTitle(d: Document): string {
    match d
    case SystemDescription => "System description"
    case RiskAssessment => "Risk assessment"
    case TechnicalDocs => "Technical documentation"
    case QualityManagementDocs => "Quality management documentation"
    case RiskManagementDocs => "Risk management documentation"
    case DataGovernanceDocs => "Data governance documentation"
    case HumanOversightProcedures => "Human oversight procedures"
    case PostMarketMonitoringPlan => "Post-market monitoring plan"
    case IncidentResponsePlan => "Incident response plan"
    case UserInformationDocs => "User information documentation"
    case TransparencyMeasuresDocs => "Transparency measures documentation"
    case LegalReviewDocs => "Legal review documentation"
    case DecommissionPlan => "Decommission plan"
  }

  const BaseDocs: seq<Document> := [SystemDescription, RiskAssessment]

  /** `_determine_documentation_requirements`. */
  function Documentation(c: RiskCategory): seq<Document> {
    BaseDocs + match c
      case HighRisk => [TechnicalDocs, QualityManagementDocs, RiskManagementDocs, DataGovernanceDocs,
                        HumanOversightProcedures, PostMarketMonitoringPlan, IncidentResponsePlan]
      case LimitedRisk => [UserInformationDocs, TransparencyMeasuresDocs]
      case _ => []
  }

  /** Documentation starts with the two base documents, then seven extra items for
      high risk, two for limited risk, none otherwise; mitigations exist only for
      high (five) and limited (three) risk. */
  lemma DocumentationAndMitigationFacts(c: RiskCategory)
    ensures Documentation(c)[..2] == BaseDocs
    ensures |Documentation(c)| == 2 + match c case HighRisk => 7 case LimitedRisk => 2 case _ => 0
    ensures |MitigationMeasures(c)| == match c case HighRisk => 5 case LimitedRisk => 3 case _ => 0
  {
  }

  // ---- Classification ----

  /** `compliance_deadline`: "Immediate", or the date `30 · months` days from now,
      which the caller's clock turns into a date. */
  datatype Deadline = Immediate | DaysFromNow(days: nat)

  datatype Classification = Classification(
    category: RiskCategory, sector: Sector, requirements: seq<Obligation>, timelineMonths: nat, deadline: Deadline,
    prohibitedPractices: seq<Practice>, mitigationMeasures: seq<Mitigation>, documentationRequired: seq<Document>)

  const ProhibitedDocumentation: seq<Document> := [LegalReviewDocs, DecommissionPlan]

  /** `classify_ai_system`: prohibited practices first, then sector and risk. */
  function Classify(s: AiSystem): Classification {
    var prohibited := Violations(s);
    var sector := SectorOf(s);
    if prohibited != [] then
      Classification(Unacceptable, sector, Requirements(Unacceptable), 0, Immediate, prohibited,
                     [ProhibitAndDecommission], ProhibitedDocumentation)
    else
      var category := RiskLevel(s, sector);
      var timeline := TimelineMonths(category, sector);
      Classification(category, sector, Requirements(category), timeline, DaysFromNow(30 * timeline), prohibited,
                     MitigationMeasures(category), Documentation(category))
  }

  /** A system is UNACCEPTABLE exactly when some prohibited practice is detected, and
      then its timeline is 0, its deadline immediate and its practices the detected
      ones. Otherwise the requirements are the table entry of the computed category,
      the timeline is positive, and the deadline lies 30 days per month ahead. */
  lemma ClassifyFacts(s: AiSystem)
    ensures var r := Classify(s);
      && r.sector == SectorOf(s)
      && r.prohibitedPractices == Violations(s)
      && (r.category == Unacceptable <==> Violations(s) != [])
      && (r.category == Unacceptable ==> r.timelineMonths == 0 && r.deadline == Immediate)
      && (r.category != Unacceptable ==>
            && r.category == RiskLevel(s, SectorOf(s))
            && r.requirements == Requirements(r.category)
            && r.timelineMonths == TimelineMonths(r.category, r.sector) > 0
            && r.deadline == DaysFromNow(30 * r.timelineMonths)
            && r.documentationRequired[..2] == BaseDocs
            && (r.mitigationMeasures == [] <==> r.category == MinimalRisk))
  {
    TagsFacts(SocialScoring(s), Subliminal(s), RealTimePublicBiometric(s), EmotionAtWorkOrSchool(s));
    if Violations(s) == [] {
      RiskLevelFacts(s, SectorOf(s));
      DocumentationAndMitigationFacts(RiskLevel(s, SectorOf(s)));
    }
  }
}
