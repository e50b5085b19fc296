/** The multi-framework compliance checker: each framework's requirements are scored
    from configuration flags, framework scores are averaged and combined by the
    framework weights, scores are banded into statuses and risk levels, and the gaps
    feed a prioritised action list and a remediation plan. */
module ComplianceChecker {
  import opened Wrappers
  import opened Text
  import opened Means
  import opened Sorting

  datatype RegulatoryFramework =
    EuAiAct | Gdpr | Iso42001 | NistAiRmf | Ieee2859 | Iso23053 | Ccpa | Sox | Hipaa | PciDss

  function FrameworkValue(f: RegulatoryFramework): string {
    match f
    case EuAiAct => "eu_ai_act"
    case Gdpr => "gdpr"
    case Iso42001 => "iso_42001"
    case NistAiRmf => "nist_ai_rmf"
    case Ieee2859 => "ieee_2859"
    case Iso23053 => "iso_23053"
    case Ccpa => "ccpa"
    case Sox => "sarbanes_oxley"
    case Hipaa => "hipaa"
    case PciDss => "pci_dss"
  }

  datatype ComplianceStatus =
    FullyCompliant | SubstantiallyCompliant | PartiallyCompliant | NonCompliant | NotAssessed | NotApplicable

  datatype RiskLevel = Critical | High | Medium | Low | Negligible

  /** The `compliance_weight` column of the framework table; only five frameworks have
      an entry, and looking up any other one raises `KeyError`. */
  function ComplianceWeight(f: RegulatoryFramework): Option<real> {
    match f
    case EuAiAct => Some(0.25)
    case Gdpr => Some(0.20)
    case Iso42001 => Some(0.15)
    case NistAiRmf => Some(0.15)
    case Ieee2859 => Some(0.10)
    case _ => None
  }

  predicate InTable(f: RegulatoryFramework) {
    ComplianceWeight(f).Some?
  }

  /** Every framework of the list has a table entry. */
  predicate AllInTable(fs: seq<RegulatoryFramework>) {
    fs == [] || (AllInTable(fs[..|fs| - 1]) && InTable(fs[|fs| - 1]))
  }

  lemma {:induction false} AllInTableIff(fs: seq<RegulatoryFramework>)
    ensures AllInTable(fs) <==> forall i :: 0 <= i < |fs| ==> InTable(fs[i])
    ensures AllInTable(fs) ==> forall f :: f in fs ==> InTable(f)
  {
    if fs != [] {
      var p := fs[..|fs| - 1];
      AllInTableIff(p);
      assert forall i :: 0 <= i < |p| ==> p[i] == fs[i];
    }
  }

  lemma AllInTablePrefix(fs: seq<RegulatoryFramework>, n: nat)
    requires AllInTable(fs) && n <= |fs|
    ensures AllInTable(fs[..n])
  {
    AllInTableIff(fs);
    AllInTableIff(fs[..n]);
  }

  const DefaultFrameworks: seq<RegulatoryFramework> := [EuAiAct, Gdpr, Iso42001, NistAiRmf]

  /** `_score_to_status`. */
  function ScoreToStatus(score: real): (s: ComplianceStatus)
    ensures s == FullyCompliant <==> score >= 90.0
    ensures s == SubstantiallyCompliant <==> 75.0 <= score < 90.0
    ensures s == PartiallyCompliant <==> 50.0 <= score < 75.0
    ensures s == NonCompliant <==> score < 50.0
  {
    if score >= 90.0 then FullyCompliant
    else if score >= 75.0 then SubstantiallyCompliant
    else if score >= 50.0 then PartiallyCompliant
    else NonCompliant
  }

  /** `_score_to_risk`; the status is NON_COMPLIANT exactly when the risk is HIGH or CRITICAL. */
  function ScoreToRisk(score: real): (r: RiskLevel)
    ensures r == Negligible <==> score >= 90.0
    ensures r == Low <==> 75.0 <= score < 90.0
    ensures r == Medium <==> 50.0 <= score < 75.0
    ensures r == High <==> 25.0 <= score < 50.0
    ensures r == Critical <==> score < 25.0
    ensures (r == High || r == Critical) <==> ScoreToStatus(score) == NonCompliant
  {
    if score >= 90.0 then Negligible
    else if score >= 75.0 then Low
    else if score >= 50.0 then Medium
    else if score >= 25.0 then High
    else Critical
  }

  /** The configuration keys the assessors read, as Python truth values; `system_id`
      and `name` are `None` when absent. */
  datatype SystemConfig = SystemConfig(
    systemId: Option<string>,
    name: Option<string>,
    riskAssessmentComplete: bool,
    qualityManagementSystem: bool,
    humanOversight: bool,
    explainableAi: bool,
    legalBasisDocumented: bool,
    dataSubjectRightsImplemented: bool,
    privacyByDesign: bool,
    aiManagementSystem: bool,
    performanceMonitoring: bool,
    aiGovernanceFramework: bool,
    biasEvaluation: bool,
    ethicalDesign: bool,
    generalCompliance: bool)

  /** The requirements the assessors check; `General` is the single requirement of
      the generic assessor. */
  datatype Requirement =
    | EuRiskAssessment | EuQms | EuHumanOversight | EuTransparency
    | GdprLegalBasis | GdprDataSubjectRights | GdprPrivacyByDesign
    | IsoManagementSystem | IsoMonitoring
    | NistGovernance | NistBiasEvaluation
    | IeeeEthics
    | General(framework: RegulatoryFramework)

  function RequirementId(q: Requirement): string {
    match q
    case EuRiskAssessment => "eu_ai_act_risk_assessment"
    case EuQms => "eu_ai_act_qms"
    case EuHumanOversight => "eu_ai_act_human_oversight"
    case EuTransparency => "eu_ai_act_transparency"
    case GdprLegalBasis => "gdpr_legal_basis"
    case GdprDataSubjectRights => "gdpr_data_subject_rights"
    case GdprPrivacyByDesign => "gdpr_privacy_by_design"
    case IsoManagementSystem => "iso_42001_ams"
    case IsoMonitoring => "iso_42001_monitoring"
    case NistGovernance => "nist_ai_governance"
    case NistBiasEvaluation => "nist_bias_evaluation"
    case IeeeEthics => "ieee_2859_ethics"
    case General(f) => FrameworkValue(f) + "_general"
  }

  /** The evidence listed when the score is above 50. */
  function EvidenceText(q: Requirement): string {
    match q
    case EuRiskAssessment => "Risk assessment document"
    case EuQms => "QMS documentation"
    case EuHumanOversight => "Human oversight procedures"
    case EuTransparency => "Explainability documentation"
    case GdprLegalBasis => "Legal basis documentation"
    case GdprDataSubjectRights => "Rights implementation documentation"
    case GdprPrivacyByDesign => "Privacy by design documentation"
    case IsoManagementSystem => "AMS documentation"
    case IsoMonitoring => "Monitoring procedures"
    case NistGovernance => "Governance framework documentation"
    case NistBiasEvaluation => "Bias evaluation report"
    case IeeeEthics => "Ethical design documentation"
    case General(_) => "General compliance documentation"
  }

  /** The gap recorded when the score is below the assessor's cut-off. */
  function GapText(q: Requirement): string {
    match q
    case EuRiskAssessment => "Risk assessment incomplete"
    case EuQms => "QMS not established"
    case EuHumanOversight => "Human oversight insufficient"
    case EuTransparency => "Limited explainability"
    case GdprLegalBasis => "Legal basis not documented"
    case GdprDataSubjectRights => "Data subject rights not fully implemented"
    case GdprPrivacyByDesign => "Privacy by design not implemented"
    case IsoManagementSystem => "AI management system incomplete"
    case IsoMonitoring => "Performance monitoring insufficient"
    case NistGovernance => "AI governance framework incomplete"
    case NistBiasEvaluation => "Bias evaluation incomplete"
    case IeeeEthics => "Ethical design principles not implemented"
    case General(_) => "Framework-specific assessment needed"
  }

  /** The remediation action recorded together with the gap. */
  function RemediationText(q: Requirement): string {
    match q
    case EuRiskAssessment => "Complete comprehensive risk assessment"
    case EuQms => "Implement ISO-aligned QMS"
    case EuHumanOversight => "Enhance human oversight mechanisms"
    case EuTransparency => "Implement XAI capabilities"
    case GdprLegalBasis => "Document legal basis for processing"
    case GdprDataSubjectRights => "Implement all data subject rights"
    case GdprPrivacyByDesign => "Implement privacy by design principles"
    case IsoManagementSystem => "Establish comprehensive AI management system"
    case IsoMonitoring => "Implement comprehensive monitoring"
    case NistGovernance => "Establish AI governance framework"
    case NistBiasEvaluation => "Conduct comprehensive bias evaluation"
    case IeeeEthics => "Implement ethical design principles"
    case General(_) => "Conduct detailed framework assessment"
  }

  /** The configuration flags the assessors read. */
  datatype Flag =
    | RiskAssessmentComplete | QualityManagementSystem | HumanOversight | ExplainableAi
    | LegalBasisDocumented | DataSubjectRightsImplemented | PrivacyByDesign
    | AiManagementSystem | PerformanceMonitoring | AiGovernanceFramework | BiasEvaluation
    | EthicalDesign | GeneralCompliance

  /** `system_config.get(<flag>, False)`. */
  function FlagSet(c: SystemConfig, fl: Flag): bool {
    match fl
    case RiskAssessmentComplete => c.riskAssessmentComplete
    case QualityManagementSystem => c.qualityManagementSystem
    case HumanOversight => c.humanOversight
    case ExplainableAi => c.explainableAi
    case LegalBasisDocumented => c.legalBasisDocumented
    case DataSubjectRightsImplemented => c.dataSubjectRightsImplemented
    case PrivacyByDesign => c.privacyByDesign
    case AiManagementSystem => c.aiManagementSystem
    case PerformanceMonitoring => c.performanceMonitoring
    case AiGovernanceFramework => c.aiGovernanceFramework
    case BiasEvaluation => c.biasEvaluation
    case EthicalDesign => c.ethicalDesign
    case GeneralCompliance => c.generalCompliance
  }

  /** One requirement check: the flag it reads, and the score when the flag is set
      and when it is not. */
  datatype Check = Check(requirement: Requirement, flag: Flag, whenSet: real, whenUnset: real)

  /** A `ComplianceAssessment` without its dates and assessor: its evidence, gap and
      remediation lists hold the requirement's one text or nothing, as `hasEvidence`
      and `hasGap` say (see `EvidenceProvided`, `GapsIdentified`, `RemediationActions`). */
  datatype Assessment = Assessment(
    requirement: Requirement,
    status: ComplianceStatus,
    score: real,
    riskLevel: RiskLevel,
    hasEvidence: bool,
    hasGap: bool)

  function EvidenceProvided(a: Assessment): seq<string> {
    if a.hasEvidence then [EvidenceText(a.requirement)] else []
  }

  function GapsIdentified(a: Assessment): seq<string> {
    if a.hasGap then [GapText(a.requirement)] else []
  }

  function RemediationActions(a: Assessment): seq<string> {
    if a.hasGap then [RemediationText(a.requirement)] else []
  }

  /** The fields every assessor fills the same way; `gapBelow` is the score below
      which a gap and a remediation action are recorded. */
  function Evaluate(k: Check, c: SystemConfig, gapBelow: real): Assessment {
    var score := if FlagSet(c, k.flag) then k.whenSet else k.whenUnset;
    Assessment(k.requirement, ScoreToStatus(score), score, ScoreToRisk(score), score > 50.0, score < gapBelow)
  }

  function EvaluateAll(ks: seq<Check>, c: SystemConfig, gapBelow: real): (r: seq<Assessment>)
    ensures |r| == |ks|
    ensures forall i :: 0 <= i < |ks| ==> r[i] == Evaluate(ks[i], c, gapBelow)
  {
    if ks == [] then [] else [Evaluate(ks[0], c, gapBelow)] + EvaluateAll(ks[1..], c, gapBelow)
  }

  const EuAiActChecks: seq<Check> := [
    Check(EuRiskAssessment, RiskAssessmentComplete, 85.0, 25.0),
    Check(EuQms, QualityManagementSystem, 80.0, 30.0),
    Check(EuHumanOversight, HumanOversight, 90.0, 20.0),
    Check(EuTransparency, ExplainableAi, 70.0, 35.0)]

  const GdprChecks: seq<Check> := [
    Check(GdprLegalBasis, LegalBasisDocumented, 90.0, 15.0),
    Check(GdprDataSubjectRights, DataSubjectRightsImplemented, 85.0, 25.0),
    Check(GdprPrivacyByDesign, PrivacyByDesign, 75.0, 30.0)]

  const Iso42001Checks: seq<Check> := [
    Check(IsoManagementSystem, AiManagementSystem, 80.0, 40.0),
    Check(IsoMonitoring, PerformanceMonitoring, 85.0, 35.0)]

  const NistAiRmfChecks: seq<Check> := [
    Check(NistGovernance, AiGovernanceFramework, 75.0, 30.0),
    Check(NistBiasEvaluation, BiasEvaluation, 85.0, 25.0)]

  const Ieee2859Checks: seq<Check> := [
    Check(IeeeEthics, EthicalDesign, 80.0, 40.0)]

  /** `_assess_generic_compliance`: the one assessor whose gap cut-off is 75, so its
      single requirement (65 or 35) always records a gap. */
  function AssessGeneric(f: RegulatoryFramework, c: SystemConfig): (r: seq<Assessment>)
    ensures |r| == 1 && r[0].requirement == General(f)
    ensures r[0].hasGap <==> r[0].score < 75.0
    ensures r[0].hasGap
  {
    EvaluateAll([Check(General(f), GeneralCompliance, 65.0, 35.0)], c, 75.0)
  }

  /** The requirement checks of a framework that has its own assessor. */
  function ChecksOf(f: RegulatoryFramework): seq<Check>
    requires InTable(f)
  {
    match f
    case EuAiAct => EuAiActChecks
    case Gdpr => GdprChecks
    case Iso42001 => Iso42001Checks
    case NistAiRmf => NistAiRmfChecks
    case Ieee2859 => Ieee2859Checks
  }

  /** What every framework assessment satisfies: status and risk follow the score,
      the score lies in [0,100], evidence is listed above 50, and a gap (with its
      remediation) is recorded exactly below 50. */
  predicate Consistent(a: Assessment) {
    && a.status == ScoreToStatus(a.score)
    && a.riskLevel == ScoreToRisk(a.score)
    && 0.0 <= a.score <= 100.0
    && (a.hasEvidence <==> a.score > 50.0)
    && (a.hasGap <==> a.score < 50.0)
  }

  /** A check whose scores lie in [0,100] and whose set flag scores higher. */
  predicate ValidCheck(k: Check) {
    0.0 <= k.whenUnset < k.whenSet <= 100.0
  }

  lemma EvaluateConsistent(k: Check, c: SystemConfig)
    requires ValidCheck(k)
    ensures Consistent(Evaluate(k, c, 50.0))
  {
  }

  lemma ChecksValid(f: RegulatoryFramework)
    requires InTable(f)
    ensures forall k :: k in ChecksOf(f) ==> ValidCheck(k)
  {
  }

  /** `_assess_framework_compliance`: the table lookup comes first, so a framework
      without a table entry raises `KeyError`; every framework with an entry has its
      own assessor, so the generic assessor is never reached. */
  function AssessFrameworkCompliance(f: RegulatoryFramework, c: SystemConfig): (r: Result<seq<Assessment>>)
    ensures r.Success? <==> InTable(f)
    ensures r.Failure? ==> r.error == KeyError(FrameworkValue(f))
  {
    if !InTable(f) then Failure(KeyError(FrameworkValue(f)))
    else Success(EvaluateAll(ChecksOf(f), c, 50.0))
  }

  /** Every framework with a table entry yields at least one assessment, and each
      is consistent with its score. */
  lemma FrameworkAssessmentsConsistent(f: RegulatoryFramework, c: SystemConfig)
    requires InTable(f)
    ensures var r := AssessFrameworkCompliance(f, c).value;
      |r| > 0 && forall a :: a in r ==> Consistent(a)
  {
    var checks := ChecksOf(f);
    ChecksValid(f);
    var r := AssessFrameworkCompliance(f, c).value;
    assert r == EvaluateAll(checks, c, 50.0);
    forall a | a in r ensures Consistent(a) {
      var i :| 0 <= i < |r| && r[i] == a;
      assert checks[i] in checks;
      EvaluateConsistent(checks[i], c);
    }
  }

  /** `c2` sets every flag `c1` sets. */
  predicate FlagsIncluded(c1: SystemConfig, c2: SystemConfig) {
    forall fl :: FlagSet(c1, fl) ==> FlagSet(c2, fl)
  }

  /** Setting more configuration flags never lowers a requirement score. */
  lemma MoreFlagsNeverLowerScores(f: RegulatoryFramework, c1: SystemConfig, c2: SystemConfig)
    requires InTable(f) && FlagsIncluded(c1, c2)
    ensures |AssessFrameworkCompliance(f, c1).value| == |AssessFrameworkCompliance(f, c2).value|
    ensures forall i :: 0 <= i < |AssessFrameworkCompliance(f, c1).value| ==>
              AssessFrameworkCompliance(f, c1).value[i].score <= AssessFrameworkCompliance(f, c2).value[i].score
  {
    var ks := ChecksOf(f);
    ChecksValid(f);
    forall i | 0 <= i < |ks|
      ensures Evaluate(ks[i], c1, 50.0).score <= Evaluate(ks[i], c2, 50.0).score
    {
      assert ks[i] in ks;
    }
  }

  // Framework and overall scores.

  function ScoreSum(s: seq<Assessment>): real {
    if s == [] then 0.0 else ScoreSum(s[..|s| - 1]) + s[|s| - 1].score
  }

  lemma {:induction false} ScoreSumBetween(s: seq<Assessment>, lo: real, hi: real)
    requires forall a :: a in s ==> lo <= a.score <= hi
    ensures lo * |s| as real <= ScoreSum(s) <= hi * |s| as real
  {
    if s != [] {
      ScoreSumBetween(s[..|s| - 1], lo, hi);
      assert s[|s| - 1] in s;
    }
  }

  /** The plain mean of the requirement scores. */
  function MeanScore(s: seq<Assessment>): real
    requires |s| > 0
  {
    ScoreSum(s) / |s| as real
  }

  lemma MeanScoreBounds(s: seq<Assessment>)
    requires |s| > 0 && forall a :: a in s ==> 0.0 <= a.score <= 100.0
    ensures 0.0 <= MeanScore(s) <= 100.0
  {
    ScoreSumBetween(s, 0.0, 100.0);
    QuotientBounds(ScoreSum(s), |s| as real, 0.0, 100.0);
  }

  /** The framework score: the mean of its requirement scores. */
  function FrameworkScore(f: RegulatoryFramework, c: SystemConfig): real
    requires InTable(f)
  {
    FrameworkAssessmentsConsistent(f, c);
    MeanScore(AssessFrameworkCompliance(f, c).value)
  }

  /** A framework score lies in [0,100]. */
  lemma FrameworkScoreBounds(f: RegulatoryFramework, c: SystemConfig)
    requires InTable(f)
    ensures 0.0 <= FrameworkScore(f, c) <= 100.0
  {
    FrameworkAssessmentsConsistent(f, c);
    MeanScoreBounds(AssessFrameworkCompliance(f, c).value);
  }

  /** Every framework's assessments, in order; the first framework without a table
      entry raises `KeyError`. */
  function AssessAll(fs: seq<RegulatoryFramework>, c: SystemConfig): (r: Result<seq<Assessment>>)
    ensures r.Success? <==> AllInTable(fs)
    ensures r.Failure? ==> exists i :: 0 <= i < |fs| && !InTable(fs[i]) && r.error == KeyError(FrameworkValue(fs[i]))
  {
    if fs == [] then Success([])
    else
      var earlier :- AssessAll(fs[..|fs| - 1], c);
      var current :- AssessFrameworkCompliance(fs[|fs| - 1], c);
      Success(earlier + current)
  }

  /** Assessing one more framework after a successful prefix. */
  lemma AssessAllStep(fs: seq<RegulatoryFramework>, i: nat, c: SystemConfig)
    requires i < |fs| && AssessAll(fs[..i], c).Success?
    ensures AssessFrameworkCompliance(fs[i], c).Failure? ==>
              AssessAll(fs[..i + 1], c) == Failure(AssessFrameworkCompliance(fs[i], c).error)
    ensures AssessFrameworkCompliance(fs[i], c).Success? ==>
              AssessAll(fs[..i + 1], c) == Success(AssessAll(fs[..i], c).value + AssessFrameworkCompliance(fs[i], c).value)
  {
    assert fs[..i + 1][..i] == fs[..i];
  }

  lemma {:induction false} AssessAllConsistent(fs: seq<RegulatoryFramework>, c: SystemConfig)
    requires AssessAll(fs, c).Success?
    ensures forall a :: a in AssessAll(fs, c).value ==> Consistent(a)
  {
    if fs != [] {
      var p, f := fs[..|fs| - 1], fs[|fs| - 1];
      AssessAllConsistent(p, c);
      FrameworkAssessmentsConsistent(f, c);
      assert AssessAll(fs, c).value == AssessAll(p, c).value + AssessFrameworkCompliance(f, c).value;
    }
  }

  /** A `KeyError` in a prefix of the framework list is the error of the whole list. */
  lemma {:induction false} AssessAllPrefixFailure(fs: seq<RegulatoryFramework>, n: nat, c: SystemConfig)
    requires n <= |fs| && AssessAll(fs[..n], c).Failure?
    ensures AssessAll(fs, c) == AssessAll(fs[..n], c)
    decreases |fs| - n
  {
    if n < |fs| {
      assert fs[..n + 1][..n] == fs[..n];
      AssessAllFailureStep(fs[..n + 1], c);
      AssessAllPrefixFailure(fs, n + 1, c);
    } else {
      assert fs[..n] == fs;
    }
  }

  /** A failure before the last framework is the failure of the whole list. */
  lemma AssessAllFailureStep(fs: seq<RegulatoryFramework>, c: SystemConfig)
    requires fs != [] && AssessAll(fs[..|fs| - 1], c).Failure?
    ensures AssessAll(fs, c) == AssessAll(fs[..|fs| - 1], c)
  {
  }

  function WeightSum(fs: seq<RegulatoryFramework>): real
    requires AllInTable(fs)
  {
    if fs == [] then 0.0
    else
      var f := fs[|fs| - 1];
      WeightSum(fs[..|fs| - 1]) + ComplianceWeight(f).value
  }

  /** The framework scores in `scores`, each times its weight, summed over `fs`
      (a framework missing from `scores` adds nothing). */
  function WeightedScoreSum(fs: seq<RegulatoryFramework>, scores: map<RegulatoryFramework, real>): real
    requires AllInTable(fs)
  {
    if fs == [] then 0.0
    else
      var f := fs[|fs| - 1];
      WeightedScoreSum(fs[..|fs| - 1], scores) + ScoreIn(scores, f) * ComplianceWeight(f).value
  }

  function ScoreIn(scores: map<RegulatoryFramework, real>, f: RegulatoryFramework): real {
    if f in scores then scores[f] else 0.0
  }

  lemma {:induction false} WeightedSumBetween(fs: seq<RegulatoryFramework>, scores: map<RegulatoryFramework, real>)
    requires AllInTable(fs) && forall f :: f in scores ==> 0.0 <= scores[f] <= 100.0
    ensures 0.0 <= WeightedScoreSum(fs, scores) <= 100.0 * WeightSum(fs)
    ensures fs != [] ==> WeightSum(fs) > 0.0
  {
    if fs != [] {
      var f, p := fs[|fs| - 1], fs[..|fs| - 1];
      WeightedSumBetween(p, scores);
      var w, x := ComplianceWeight(f).value, ScoreIn(scores, f);
      ScaleMonotone(x, 100.0, w);
      ScaleMonotone(0.0, x, w);
      assert WeightSum(fs) == WeightSum(p) + w;
      assert WeightedScoreSum(fs, scores) == WeightedScoreSum(p, scores) + x * w;
    }
  }

  /** The weighted mean of the framework scores; 0 when the total weight is 0
      (only when no framework is assessed). */
  function WeightedMean(fs: seq<RegulatoryFramework>, scores: map<RegulatoryFramework, real>): real
    requires AllInTable(fs)
  {
    var total := WeightSum(fs);
    if total > 0.0 then WeightedScoreSum(fs, scores) / total else 0.0
  }

  lemma WeightedMeanBounds(fs: seq<RegulatoryFramework>, scores: map<RegulatoryFramework, real>)
    requires AllInTable(fs) && forall f :: f in scores ==> 0.0 <= scores[f] <= 100.0
    ensures 0.0 <= WeightedMean(fs, scores) <= 100.0
    ensures fs == [] ==> WeightedMean(fs, scores) == 0.0
  {
    WeightedSumBetween(fs, scores);
    var total := WeightSum(fs);
    if total > 0.0 {
      QuotientBounds(WeightedScoreSum(fs, scores), total, 0.0, 100.0);
    }
  }

  /** The overall score: the framework scores weighted by `compliance_weight`. */
  function OverallScore(fs: seq<RegulatoryFramework>, c: SystemConfig): real
    requires AllInTable(fs)
  {
    WeightedMean(fs, ScoresOf(fs, c))
  }

  /** The overall score lies in [0,100], and is 0 when no framework is assessed. */
  lemma OverallScoreBounds(fs: seq<RegulatoryFramework>, c: SystemConfig)
    requires AllInTable(fs)
    ensures 0.0 <= OverallScore(fs, c) <= 100.0
    ensures fs == [] ==> OverallScore(fs, c) == 0.0
  {
    ScoresOfBounds(fs, c);
    WeightedMeanBounds(fs, ScoresOf(fs, c));
  }

  /** The sums over a non-empty list are the sums over all but its last framework
      plus the last framework's share. */
  lemma WeightedStep(p: seq<RegulatoryFramework>, scores: map<RegulatoryFramework, real>)
    requires AllInTable(p) && p != []
    ensures AllInTable(p[..|p| - 1])
    ensures WeightSum(p) == WeightSum(p[..|p| - 1]) + ComplianceWeight(p[|p| - 1]).value
    ensures WeightedScoreSum(p, scores) == WeightedScoreSum(p[..|p| - 1], scores) + ScoreIn(scores, p[|p| - 1]) * ComplianceWeight(p[|p| - 1]).value
  {
  }

  // Priority actions.

  datatype Priority = PriorityCritical | PriorityHigh | PriorityMedium | PriorityLow

  function PriorityRank(p: Priority): nat {
    match p
    case PriorityCritical => 1
    case PriorityHigh => 2
    case PriorityMedium => 3
    case PriorityLow => 4
  }

  /** An entry of the priority list; its texts are functions of the priority and
      the requirement (see `ActionText`, `Timeline`, `RiskLabel`, `EstimatedEffort`). */
  datatype PriorityAction = PriorityAction(priority: Priority, requirement: Requirement)

  function ActionText(a: PriorityAction): string {
    match a.priority
    case PriorityCritical => "Address critical compliance gap: " + RequirementId(a.requirement)
    case PriorityHigh => "Improve compliance: " + RequirementId(a.requirement)
    case _ => "Enhance compliance: " + RequirementId(a.requirement)
  }

  function Timeline(p: Priority): string {
    match p
    case PriorityCritical => "14 days"
    case PriorityHigh => "30 days"
    case _ => "60 days"
  }

  function RiskLabel(p: Priority): string {
    match p
    case PriorityCritical => "Critical"
    case PriorityHigh => "High"
    case _ => "Medium"
  }

  function EstimatedEffort(p: Priority): string {
    if p == PriorityCritical then "High" else "Medium"
  }

  function ActionFor(a: Assessment, p: Priority): PriorityAction {
    PriorityAction(p, a.requirement)
  }

  /** `[a for a in assessments if a.risk_level == level]`. */
  function WithRisk(s: seq<Assessment>, level: RiskLevel): (r: seq<Assessment>)
    ensures forall a :: a in r <==> a in s && a.riskLevel == level
  {
    if s == [] then []
    else (if s[0].riskLevel == level then [s[0]] else []) + WithRisk(s[1..], level)
  }

  function ActionsFor(s: seq<Assessment>, p: Priority): (r: seq<PriorityAction>)
    ensures |r| == |s|
    ensures forall i :: 0 <= i < |s| ==> r[i] == ActionFor(s[i], p)
  {
    if s == [] then [] else [ActionFor(s[0], p)] + ActionsFor(s[1..], p)
  }

  function ActionRank(a: PriorityAction): nat {
    PriorityRank(a.priority)
  }

  /** The unsorted action list: critical, then high, then the first three medium. */
  function GroupedActions(s: seq<Assessment>): seq<PriorityAction> {
    var medium := WithRisk(s, Medium);
    ActionsFor(WithRisk(s, Critical), PriorityCritical)
      + ActionsFor(WithRisk(s, High), PriorityHigh)
      + ActionsFor(if |medium| <= 3 then medium else medium[..3], PriorityMedium)
  }

  /** `_generate_priority_actions`: the grouped actions, stably sorted by priority. */
  function GeneratePriorityActions(s: seq<Assessment>): seq<PriorityAction> {
    SortBy(GroupedActions(s), ActionRank, NatLe)
  }

  lemma GroupsInOrder(a: seq<PriorityAction>, b: seq<PriorityAction>, m: seq<PriorityAction>)
    requires forall i :: 0 <= i < |a| ==> a[i].priority == PriorityCritical
    requires forall i :: 0 <= i < |b| ==> b[i].priority == PriorityHigh
    requires forall i :: 0 <= i < |m| ==> m[i].priority == PriorityMedium
    ensures SortedBy(a + b + m, ActionRank, NatLe)
  {
    var g := a + b + m;
    forall i | 0 <= i < |g|
      ensures ActionRank(g[i]) == if i < |a| then 1 else if i < |a| + |b| then 2 else 3
    {
      if i < |a| {
        assert g[i] == a[i];
      } else if i < |a| + |b| {
        assert g[i] == b[i - |a|];
      } else {
        assert g[i] == m[i - |a| - |b|];
      }
    }
  }

  /** The sort changes nothing: the groups already come in priority order, so the
      result is all critical actions, then all high ones, then at most three medium
      ones, each group in assessment order. */
  lemma PriorityActionsGrouped(s: seq<Assessment>)
    ensures GeneratePriorityActions(s) == GroupedActions(s)
    ensures |GeneratePriorityActions(s)| ==
            |WithRisk(s, Critical)| + |WithRisk(s, High)| + (if |WithRisk(s, Medium)| <= 3 then |WithRisk(s, Medium)| else 3)
  {
    var medium := WithRisk(s, Medium);
    var a := ActionsFor(WithRisk(s, Critical), PriorityCritical);
    var b := ActionsFor(WithRisk(s, High), PriorityHigh);
    var m := ActionsFor(if |medium| <= 3 then medium else medium[..3], PriorityMedium);
    var g := a + b + m;
    assert g == GroupedActions(s);
    GroupsInOrder(a, b, m);
    SortBySortedIdentity(g, ActionRank, NatLe);
  }

  // The system report.

  datatype SystemComplianceReport = SystemComplianceReport(
    systemId: string,
    systemName: string,
    frameworksAssessed: seq<RegulatoryFramework>,
    overallComplianceScore: real,
    frameworkScores: map<RegulatoryFramework, real>,
    complianceStatus: ComplianceStatus,
    criticalGaps: nat,
    highPriorityActions: seq<PriorityAction>,
    certificationReady: bool,
    assessments: seq<Assessment>)

  function FrameworksOrDefault(frameworks: Option<seq<RegulatoryFramework>>): seq<RegulatoryFramework> {
    if frameworks.None? then DefaultFrameworks else frameworks.value
  }

  function ScoresOf(fs: seq<RegulatoryFramework>, c: SystemConfig): (m: map<RegulatoryFramework, real>)
    requires AllInTable(fs)
    ensures forall f :: f in m <==> f in fs
  {
    AllInTableIff(fs);
    map f | f in fs :: FrameworkScore(f, c)
  }

  /** One turn of the assessment loop: a failing framework fails the prefix, a
      known one extends the assessments and adds its mean score. */
  lemma AssessFrameworksStep(fs: seq<RegulatoryFramework>, i: nat, c: SystemConfig,
                             assessments: seq<Assessment>, scores: map<RegulatoryFramework, real>)
    requires i < |fs| && AssessAll(fs[..i], c) == Success(assessments)
    requires AllInTable(fs[..i]) && scores == ScoresOf(fs[..i], c)
    ensures var s := AssessFrameworkCompliance(fs[i], c);
            && (s.Failure? ==> AssessAll(fs[..i + 1], c) == Failure(s.error))
            && (s.Success? ==>
                  && |s.value| > 0
                  && AssessAll(fs[..i + 1], c) == Success(assessments + s.value)
                  && AllInTable(fs[..i + 1])
                  && ScoresOf(fs[..i + 1], c) == scores[fs[i] := ScoreSum(s.value) / |s.value| as real])
  {
    AssessAllStep(fs, i, c);
    var s := AssessFrameworkCompliance(fs[i], c);
    if s.Success? {
      FrameworkAssessmentsConsistent(fs[i], c);
      assert AllInTable(fs[..i + 1]) by {
        assert fs[..i + 1][..i] == fs[..i];
      }
      ScoresOfStep(fs, i, c);
    }
  }

  const UnknownId := "unknown"
  const DefaultName := "AI System"

  lemma ScoresOfBounds(fs: seq<RegulatoryFramework>, c: SystemConfig)
    requires AllInTable(fs)
    ensures forall f :: f in ScoresOf(fs, c) ==> 0.0 <= ScoresOf(fs, c)[f] <= 100.0
  {
    var scores := ScoresOf(fs, c);
    forall f | f in scores ensures 0.0 <= scores[f] <= 100.0 {
      AllInTableIff(fs);
      FrameworkScoreBounds(f, c);
    }
  }

  /** Assessing one more framework adds its score to the map. */
  lemma ScoresOfStep(fs: seq<RegulatoryFramework>, i: nat, c: SystemConfig)
    requires i < |fs| && AllInTable(fs[..i + 1])
    ensures AllInTable(fs[..i]) && InTable(fs[i])
    ensures ScoresOf(fs[..i + 1], c) == ScoresOf(fs[..i], c)[fs[i] := FrameworkScore(fs[i], c)]
  {
    var p := fs[..i + 1];
    assert p[..|p| - 1] == fs[..i] && p[|p| - 1] == fs[i];
    assert p == fs[..i] + [fs[i]];
    AllInTableIff(p);
    AllInTableIff(fs[..i]);
    var before := ScoresOf(fs[..i], c);
    var after := ScoresOf(p, c);
    var step := before[fs[i] := FrameworkScore(fs[i], c)];
    assert after.Keys == step.Keys;
    forall f | f in after
      ensures after[f] == step[f]
    {
      assert after[f] == FrameworkScore(f, c);
      if f != fs[i] {
        assert before[f] == FrameworkScore(f, c);
      }
    }
    assert after == step;
  }

  /** The report assembled from the assessments, the overall score and the
      per-framework scores. */
  function ReportFrom(c: SystemConfig, fs: seq<RegulatoryFramework>, assessments: seq<Assessment>,
                      overall: real, scores: map<RegulatoryFramework, real>): SystemComplianceReport
  {
    var critical := |WithRisk(assessments, Critical)|;
    SystemComplianceReport(
      c.systemId.GetOr(UnknownId), c.name.GetOr(DefaultName), fs, overall, scores,
      ScoreToStatus(overall), critical, GeneratePriorityActions(assessments),
      overall >= 85.0 && critical == 0, assessments)
  }

  /** The report `assess_system_compliance` returns. */
  function ComplianceReportOf(c: SystemConfig, fs: seq<RegulatoryFramework>): (r: Result<SystemComplianceReport>)
    ensures r.Success? <==> AllInTable(fs)
    ensures r.Failure? ==> exists i :: 0 <= i < |fs| && !InTable(fs[i]) && r.error == KeyError(FrameworkValue(fs[i]))
  {
    var assessments :- AssessAll(fs, c);
    Success(ReportFrom(c, fs, assessments, OverallScore(fs, c), ScoresOf(fs, c)))
  }

  /** What a completed report promises. */
  lemma ReportFacts(c: SystemConfig, fs: seq<RegulatoryFramework>)
    requires ComplianceReportOf(c, fs).Success?
    ensures var r := ComplianceReportOf(c, fs).value;
      && 0.0 <= r.overallComplianceScore <= 100.0
      && (r.certificationReady <==>
            r.overallComplianceScore >= 85.0 && forall a :: a in r.assessments ==> a.riskLevel != Critical)
      && (r.criticalGaps == 0 <==> forall a :: a in r.assessments ==> a.riskLevel != Critical)
      && (forall a :: a in r.assessments ==> Consistent(a))
      && (forall f :: f in r.frameworkScores <==> f in fs)
      && r.complianceStatus == ScoreToStatus(r.overallComplianceScore)
  {
    var r := ComplianceReportOf(c, fs).value;
    OverallScoreBounds(fs, c);
    AssessAllConsistent(fs, c);
    if r.criticalGaps != 0 {
      assert WithRisk(r.assessments, Critical)[0] in WithRisk(r.assessments, Critical);
    }
    if exists a :: a in r.assessments && a.riskLevel == Critical {
      var a :| a in r.assessments && a.riskLevel == Critical;
      assert a in WithRisk(r.assessments, Critical);
    }
  }

  // The remediation plan.

  datatype GapCategory = DataGovernance | BiasMonitoring | Explainability | Documentation | Training

  function CategoryKey(g: GapCategory): string {
    match g
    case DataGovernance => "data_governance"
    case BiasMonitoring => "bias_monitoring"
    case Explainability => "explainability"
    case Documentation => "documentation"
    case Training => "training"
  }

  /** `any(keyword in s for keyword in keywords)`. */
  predicate ContainsAny(s: string, keywords: seq<string>) {
    keywords != [] && (Contains(s, keywords[0]) || ContainsAny(s, keywords[1..]))
  }

  /** The keyword families `_categorize_gap` tries, in order. */
  const KeywordFamilies: seq<(GapCategory, seq<string>)> := [
    (BiasMonitoring, ["bias", "fairness", "discrimination"]),
    (Explainability, ["explainability", "transparency", "interpretability"]),
    (DataGovernance, ["data", "governance", "quality"]),
    (Documentation, ["documentation", "records", "document"]),
    (Training, ["training", "competence", "awareness"])]

  /** The category of the first family with a keyword in `lower`; documentation
      when none has one. */
  function FirstFamily(lower: string, families: seq<(GapCategory, seq<string>)>): GapCategory {
    if families == [] then Documentation
    else if ContainsAny(lower, families[0].1) then families[0].0
    else FirstFamily(lower, families[1..])
  }

  /** `_categorize_gap`. */
  function CategorizeGap(gap: string): GapCategory {
    FirstFamily(Lower(gap), KeywordFamilies)
  }

  /** The families are tried in order: the category is that of the first family with
      a keyword in the lowercased gap, and documentation when none has one. */
  lemma {:induction false} FirstFamilyFirstMatch(lower: string, families: seq<(GapCategory, seq<string>)>, i: nat)
    requires i <= |families|
    requires forall j :: 0 <= j < i ==> !ContainsAny(lower, families[j].1)
    ensures i < |families| && ContainsAny(lower, families[i].1) ==> FirstFamily(lower, families) == families[i].0
    ensures i == |families| ==> FirstFamily(lower, families) == Documentation
  {
    if i > 0 {
      assert !ContainsAny(lower, families[0].1);
      FirstFamilyFirstMatch(lower, families[1..], i - 1);
    }
  }

  /** `_categorize_gap` on its own keyword table: the category is that of the
      first family (bias, explainability, data governance, documentation,
      training) with a keyword in the lowercased gap, and documentation when no
      family has one. */
  lemma CategorizeGapRules(gap: string)
    ensures forall i :: 0 <= i < |KeywordFamilies| ==>
              ((ContainsAny(Lower(gap), KeywordFamilies[i].1)
                && forall j :: 0 <= j < i ==> !ContainsAny(Lower(gap), KeywordFamilies[j].1))
               ==> CategorizeGap(gap) == KeywordFamilies[i].0)
    ensures (forall j :: 0 <= j < |KeywordFamilies| ==> !ContainsAny(Lower(gap), KeywordFamilies[j].1))
            ==> CategorizeGap(gap) == Documentation
  {
    var g := Lower(gap);
    forall i | 0 <= i < |KeywordFamilies| && ContainsAny(g, KeywordFamilies[i].1)
                 && (forall j :: 0 <= j < i ==> !ContainsAny(g, KeywordFamilies[j].1))
      ensures CategorizeGap(gap) == KeywordFamilies[i].0
    {
      FirstFamilyFirstMatch(g, KeywordFamilies, i);
    }
    if forall j :: 0 <= j < |KeywordFamilies| ==> !ContainsAny(g, KeywordFamilies[j].1) {
      FirstFamilyFirstMatch(g, KeywordFamilies, |KeywordFamilies|);
    }
  }

  datatype Template = Template(
    title: string, description: string, actions: seq<string>, timeline: string,
    resources: string, costEstimate: string)

  /** The remediation library; it has a template for every category. */
  function RemediationTemplate(g: GapCategory): Template {
    match g
    case DataGovernance =>
      Template("Implement Data Governance Framework", "Establish comprehensive data governance for AI systems",
               ["Develop data classification scheme", "Implement data quality controls",
                "Establish data lineage tracking", "Create data retention policies"],
               "60-90 days", "Data governance specialist + technical team", CostEstimate(g))
    case BiasMonitoring =>
      Template("Deploy Bias Detection and Monitoring", "Implement comprehensive bias detection systems",
               ["Select bias detection algorithms", "Implement monitoring dashboard",
                "Establish alert thresholds", "Create bias remediation procedures"],
               "45-60 days", "ML engineer + ethics specialist", CostEstimate(g))
    case Explainability =>
      Template("Enhance AI System Explainability", "Implement explainable AI capabilities",
               ["Select appropriate XAI techniques", "Develop explanation interfaces",
                "Train staff on explanation use", "Validate explanation quality"],
               "90-120 days", "Senior ML engineer + UX designer", CostEstimate(g))
    case Documentation =>
      Template("Complete Regulatory Documentation", "Develop comprehensive compliance documentation",
               ["Create technical documentation", "Develop user guides",
                "Document risk assessments", "Maintain compliance records"],
               "30-45 days", "Technical writer + compliance officer", CostEstimate(g))
    case Training =>
      Template("Implement AI Ethics Training Program", "Establish comprehensive AI ethics training",
               ["Develop training curriculum", "Create training materials",
                "Deploy training program", "Track completion and effectiveness"],
               "60-90 days", "Training specialist + ethics expert", CostEstimate(g))
  }

  /** The cost column of the remediation library. */
  function CostEstimate(g: GapCategory): string {
    match g
    case DataGovernance => "Medium"
    case BiasMonitoring => "Medium"
    case Explainability => "High"
    case Documentation => "Low"
    case Training => "Medium"
  }

  /** Explainability is the one high-cost remediation and documentation the one
      low-cost remediation; the other three are medium. */
  lemma CostEstimateBands(g: GapCategory)
    ensures CostEstimate(g) == "High" <==> g == Explainability
    ensures CostEstimate(g) == "Low" <==> g == Documentation
    ensures CostEstimate(g) == "Medium" <==> g in {DataGovernance, BiasMonitoring, Training}
  {
  }

  /** An entry of the plan: a category, whose template fields are
      `RemediationTemplate(category)`, and the gaps it addresses. */
  datatype RemediationAction = RemediationAction(category: GapCategory, gapsAddressed: seq<string>)

  datatype RemediationPlan = RemediationPlan(
    systemId: string, systemName: string, currentScore: real, targetScore: real,
    criticalGaps: nat, estimatedInvestment: string, actions: seq<RemediationAction>)

  /** The gaps of the assessments scoring below 75, in order. */
  function NeedyGaps(s: seq<Assessment>): seq<string> {
    if s == [] then []
    else
      var a := s[|s| - 1];
      NeedyGaps(s[..|s| - 1]) + (if a.score < 75.0 then GapsIdentified(a) else [])
  }

  lemma NeedyGapsStep(s: seq<Assessment>, i: nat)
    requires i < |s|
    ensures NeedyGaps(s[..i + 1]) == NeedyGaps(s[..i]) + (if s[i].score < 75.0 then GapsIdentified(s[i]) else [])
    ensures s[i].score >= 75.0 ==> NeedyGaps(s[..i + 1]) == NeedyGaps(s[..i])
  {
    assert s[..i + 1][..i] == s[..i];
  }

  lemma {:induction false} NeedyGapsIff(s: seq<Assessment>, gap: string)
    ensures gap in NeedyGaps(s) <==> exists a :: a in s && a.score < 75.0 && gap in GapsIdentified(a)
  {
    if s != [] {
      var p, a := s[..|s| - 1], s[|s| - 1];
      NeedyGapsIff(p, gap);
      assert forall b :: b in s <==> b in p || b == a;
    }
  }

  /** The categories of `gaps` in order of first appearance (the key order of the
      `gap_categories` dictionary).  The grouping functions and their lemmas take
      the categoriser as a parameter; the plan uses `CategorizeGap`. */
  function FirstSeen(gaps: seq<string>, categorize: string -> GapCategory): seq<GapCategory> {
    if gaps == [] then []
    else
      var earlier := FirstSeen(gaps[..|gaps| - 1], categorize);
      var g := categorize(gaps[|gaps| - 1]);
      if g in earlier then earlier else earlier + [g]
  }

  /** A category is listed exactly when some gap has it, and it is listed once. */
  lemma {:induction false} FirstSeenFacts(gaps: seq<string>, categorize: string -> GapCategory)
    ensures forall g :: g in FirstSeen(gaps, categorize) <==> exists i :: 0 <= i < |gaps| && categorize(gaps[i]) == g
    ensures forall i, j :: 0 <= i < j < |FirstSeen(gaps, categorize)| ==>
              FirstSeen(gaps, categorize)[i] != FirstSeen(gaps, categorize)[j]
  {
    if gaps != [] {
      var p := gaps[..|gaps| - 1];
      FirstSeenFacts(p, categorize);
      assert forall i :: 0 <= i < |p| ==> p[i] == gaps[i];
    }
  }

  /** The gaps of one category, in order. */
  function GapsIn(gaps: seq<string>, categorize: string -> GapCategory, g: GapCategory): seq<string> {
    if gaps == [] then []
    else
      var x := gaps[|gaps| - 1];
      GapsIn(gaps[..|gaps| - 1], categorize, g) + (if categorize(x) == g then [x] else [])
  }

  lemma {:induction false} GapsInMembers(gaps: seq<string>, categorize: string -> GapCategory, g: GapCategory)
    ensures forall x :: x in GapsIn(gaps, categorize, g) <==> x in gaps && categorize(x) == g
  {
    if gaps != [] {
      var p := gaps[..|gaps| - 1];
      GapsInMembers(p, categorize, g);
      assert gaps == p + [gaps[|gaps| - 1]];
    }
  }

  /** A category not yet seen has no gaps filed under it. */
  lemma {:induction false} GapsInUnseen(gaps: seq<string>, categorize: string -> GapCategory, g: GapCategory)
    requires g !in FirstSeen(gaps, categorize)
    ensures GapsIn(gaps, categorize, g) == []
  {
    if gaps != [] {
      GapsInUnseen(gaps[..|gaps| - 1], categorize, g);
    }
  }

  /** Filing one more gap. */
  lemma GroupStep(prev: seq<string>, gap: string, categorize: string -> GapCategory)
    ensures var g := categorize(gap);
      FirstSeen(prev + [gap], categorize) ==
        if g in FirstSeen(prev, categorize) then FirstSeen(prev, categorize) else FirstSeen(prev, categorize) + [g]
    ensures forall h :: GapsIn(prev + [gap], categorize, h)
                          == GapsIn(prev, categorize, h) + (if categorize(gap) == h then [gap] else [])
    ensures categorize(gap) !in FirstSeen(prev, categorize) ==> GapsIn(prev, categorize, categorize(gap)) == []
  {
    var next := prev + [gap];
    assert next[..|next| - 1] == prev && next[|next| - 1] == gap;
    if categorize(gap) !in FirstSeen(prev, categorize) {
      GapsInUnseen(prev, categorize, categorize(gap));
    }
  }

  /** The grouping state after some gaps: the categories in order of first
      appearance, each mapped to its gaps. */
  ghost predicate Grouped(gaps: seq<string>, categorize: string -> GapCategory, categories: seq<GapCategory>,
                          byCategory: map<GapCategory, seq<string>>) {
    && categories == FirstSeen(gaps, categorize)
    && (forall g :: g in byCategory <==> g in categories)
    && (forall g :: g in byCategory ==> byCategory[g] == GapsIn(gaps, categorize, g))
  }

  /** Filing the next gap of an assessment under its category keeps the grouping
      state, whether the category is already listed or starts a new list. */
  lemma FileGap(seen: seq<string>, more: seq<string>, j: nat, categorize: string -> GapCategory, g: GapCategory,
                categories: seq<GapCategory>, byCategory: map<GapCategory, seq<string>>)
    requires j < |more| && Grouped(seen + more[..j], categorize, categories, byCategory) && g == categorize(more[j])
    ensures g in byCategory ==>
      Grouped(seen + more[..j + 1], categorize, categories, byCategory[g := byCategory[g] + [more[j]]])
    ensures var started := byCategory[g := []];
      g !in byCategory ==>
        Grouped(seen + more[..j + 1], categorize, categories + [g], started[g := started[g] + [more[j]]])
  {
    assert seen + more[..j + 1] == (seen + more[..j]) + [more[j]];
    if g in byCategory {
      FileListedGap(seen + more[..j], more[j], categorize, g, categories, byCategory);
    } else {
      FileNewGap(seen + more[..j], more[j], categorize, g, categories, byCategory);
    }
  }

  lemma FileListedGap(prev: seq<string>, gap: string, categorize: string -> GapCategory, g: GapCategory,
                      categories: seq<GapCategory>, byCategory: map<GapCategory, seq<string>>)
    requires Grouped(prev, categorize, categories, byCategory) && g == categorize(gap) && g in byCategory
    ensures Grouped(prev + [gap], categorize, categories, byCategory[g := byCategory[g] + [gap]])
  {
    GroupStep(prev, gap, categorize);
    var m := byCategory[g := byCategory[g] + [gap]];
    assert forall h :: h in m ==> m[h] == GapsIn(prev + [gap], categorize, h);
  }

  lemma FileNewGap(prev: seq<string>, gap: string, categorize: string -> GapCategory, g: GapCategory,
                   categories: seq<GapCategory>, byCategory: map<GapCategory, seq<string>>)
    requires Grouped(prev, categorize, categories, byCategory) && g == categorize(gap) && g !in byCategory
    ensures var started := byCategory[g := []];
      Grouped(prev + [gap], categorize, categories + [g], started[g := started[g] + [gap]])
  {
    GroupStep(prev, gap, categorize);
    var started := byCategory[g := []];
    var m := started[g := started[g] + [gap]];
    assert started[g] + [gap] == [gap];
    assert forall h :: h in m ==> m[h] == GapsIn(prev + [gap], categorize, h);
  }

  function PlanActions(order: seq<GapCategory>, gaps: seq<string>, categorize: string -> GapCategory)
    : (r: seq<RemediationAction>)
    ensures |r| == |order|
    ensures forall i :: 0 <= i < |order| ==>
              r[i] == RemediationAction(order[i], GapsIn(gaps, categorize, order[i]))
  {
    if order == [] then []
    else
      var g := order[|order| - 1];
      PlanActions(order[..|order| - 1], gaps, categorize) + [RemediationAction(g, GapsIn(gaps, categorize, g))]
  }

  function CostPoints(estimate: string): nat {
    if estimate == "Low" then 1 else if estimate == "Medium" then 2 else if estimate == "High" then 3 else 2
  }

  function CostTotal(actions: seq<RemediationAction>): nat {
    if actions == [] then 0
    else CostTotal(actions[..|actions| - 1]) + CostPoints(CostEstimate(actions[|actions| - 1].category))
  }

  lemma {:induction false} CostTotalBetween(actions: seq<RemediationAction>)
    ensures |actions| <= CostTotal(actions) <= 3 * |actions|
  {
    if actions != [] {
      CostTotalBetween(actions[..|actions| - 1]);
    }
  }

  /** `_estimate_remediation_cost`. */
  function EstimateRemediationCost(actions: seq<RemediationAction>): (estimate: string)
    ensures estimate == "Low (€50K-100K)" <==> CostTotal(actions) <= 3
    ensures estimate == "Medium (€100K-250K)" <==> 3 < CostTotal(actions) <= 6
    ensures estimate == "High (€250K+)" <==> CostTotal(actions) > 6
  {
    var total := CostTotal(actions);
    if total <= 3 then "Low (€50K-100K)" else if total <= 6 then "Medium (€100K-250K)" else "High (€250K+)"
  }

  /** One action is always cheap, and seven or more are always expensive. */
  lemma CostEstimateExtremes(actions: seq<RemediationAction>)
    ensures |actions| <= 1 ==> EstimateRemediationCost(actions) == "Low (€50K-100K)"
    ensures |actions| >= 7 ==> EstimateRemediationCost(actions) == "High (€250K+)"
  {
    CostTotalBetween(actions);
  }

  /** The plan `generate_remediation_plan` returns. */
  function RemediationPlanOf(report: SystemComplianceReport): RemediationPlan {
    var gaps := NeedyGaps(report.assessments);
    var actions := PlanActions(FirstSeen(gaps, CategorizeGap), gaps, CategorizeGap);
    RemediationPlan(report.systemId, report.systemName, report.overallComplianceScore, 90.0,
                    report.criticalGaps, EstimateRemediationCost(actions), actions)
  }

  /** Every gap of an assessment scoring below 75 is addressed by exactly one action,
      the one of its category, and no action addresses anything else. */
  lemma RemediationCoversNeedyGaps(report: SystemComplianceReport, gap: string)
    ensures var actions := RemediationPlanOf(report).actions;
      && (forall i, j :: 0 <= i < j < |actions| ==> actions[i].category != actions[j].category)
      && ((exists a :: a in report.assessments && a.score < 75.0 && gap in GapsIdentified(a)) <==>
            exists i :: 0 <= i < |actions| && gap in actions[i].gapsAddressed)
      && (forall i :: 0 <= i < |actions| && gap in actions[i].gapsAddressed ==>
            actions[i].category == CategorizeGap(gap))
  {
    var gaps := NeedyGaps(report.assessments);
    NeedyGapsIff(report.assessments, gap);
    PlanCovers(gaps, CategorizeGap, gap, RemediationPlanOf(report).actions);
  }

  /** The grouped actions list each category once, and a gap is in some action's
      list exactly when it is one of the gaps, and then in its own category's. */
  lemma PlanCovers(gaps: seq<string>, categorize: string -> GapCategory, gap: string, actions: seq<RemediationAction>)
    requires actions == PlanActions(FirstSeen(gaps, categorize), gaps, categorize)
    ensures forall i, j :: 0 <= i < j < |actions| ==> actions[i].category != actions[j].category
    ensures gap in gaps <==> exists i :: 0 <= i < |actions| && gap in actions[i].gapsAddressed
    ensures forall i :: 0 <= i < |actions| && gap in actions[i].gapsAddressed ==> actions[i].category == categorize(gap)
  {
    var order := FirstSeen(gaps, categorize);
    FirstSeenFacts(gaps, categorize);
    GapsInMembers(gaps, categorize, categorize(gap));
    forall i | 0 <= i < |actions| && gap in actions[i].gapsAddressed
      ensures actions[i].category == categorize(gap)
    {
      GapsInMembers(gaps, categorize, order[i]);
    }
    if gap in gaps {
      var k :| 0 <= k < |gaps| && gaps[k] == gap;
      var g := categorize(gap);
      assert g in order;
      var i :| 0 <= i < |order| && order[i] == g;
      assert gap in actions[i].gapsAddressed;
    }
  }

  class Checker {
    /** `assessment_history`: every completed report, oldest first. */
    var assessmentHistory: seq<SystemComplianceReport>

    constructor()
      ensures assessmentHistory == []
    {
      assessmentHistory := [];
    }

    /** `assess_system_compliance`: assess each framework, average its scores,
        combine them by weight and record the report. */
    method AssessSystemCompliance(c: SystemConfig, frameworks: Option<seq<RegulatoryFramework>>)
      returns (r: Result<SystemComplianceReport>)
      modifies this
      ensures r == ComplianceReportOf(c, FrameworksOrDefault(frameworks))
      ensures r.Success? ==> assessmentHistory == old(assessmentHistory) + [r.value]
      ensures r.Failure? ==> assessmentHistory == old(assessmentHistory)
    {
      var fs := FrameworksOrDefault(frameworks);
      var all, frameworkScores := AssessFrameworks(fs, c);
      if all.Failure? {
        return Failure(all.error);
      }
      var report := BuildReport(c, fs, all.value, frameworkScores);
      assessmentHistory := assessmentHistory + [report];
      r := Success(report);
    }

    /** The rest of `assess_system_compliance`: combine the framework scores by
        weight and fill in the report. */
    static method BuildReport(c: SystemConfig, fs: seq<RegulatoryFramework>, assessments: seq<Assessment>,
                              frameworkScores: map<RegulatoryFramework, real>)
      returns (report: SystemComplianceReport)
      requires AssessAll(fs, c) == Success(assessments)
      requires frameworkScores == ScoresOf(fs, c)
      ensures ComplianceReportOf(c, fs) == Success(report)
    {
      var weightedScore, totalWeight := CombineScores(fs, frameworkScores);
      var overall := if totalWeight > 0.0 then weightedScore / totalWeight else 0.0;
      report := ReportFrom(c, fs, assessments, overall, frameworkScores);
    }

    /** The first loop of `assess_system_compliance`: assess each framework in turn
        and record its mean requirement score; the first unknown framework raises. */
    static method AssessFrameworks(fs: seq<RegulatoryFramework>, c: SystemConfig)
      returns (r: Result<seq<Assessment>>, frameworkScores: map<RegulatoryFramework, real>)
      ensures r == AssessAll(fs, c)
      ensures r.Success? ==> frameworkScores == ScoresOf(fs, c)
    {
      var assessments: seq<Assessment> := [];
      frameworkScores := map[];
      var i := 0;
      assert fs[..0] == [];
      while i < |fs|
        invariant 0 <= i <= |fs|
        invariant AssessAll(fs[..i], c) == Success(assessments)
        invariant frameworkScores == ScoresOf(fs[..i], c)
      {
        var framework := fs[i];
        AssessFrameworksStep(fs, i, c, assessments, frameworkScores);
        var frameworkAssessments := AssessFrameworkCompliance(framework, c);
        if frameworkAssessments.Failure? {
          AssessAllPrefixFailure(fs, i + 1, c);
          return Failure(frameworkAssessments.error), frameworkScores;
        }
        var s := frameworkAssessments.value;
        assessments := assessments + s;
        frameworkScores := frameworkScores[framework := ScoreSum(s) / |s| as real];
        i := i + 1;
      }
      assert fs[..i] == fs;
      r := Success(assessments);
    }

    /** The second loop of `assess_system_compliance`: sum the weighted framework
        scores and the weights. */
    static method CombineScores(fs: seq<RegulatoryFramework>, frameworkScores: map<RegulatoryFramework, real>)
      returns (weightedScore: real, totalWeight: real)
      requires AllInTable(fs)
      ensures weightedScore == WeightedScoreSum(fs, frameworkScores)
      ensures totalWeight == WeightSum(fs)
    {
      weightedScore, totalWeight := 0.0, 0.0;
      var i := 0;
      assert fs[..0] == [];
      while i < |fs|
        invariant 0 <= i <= |fs|
        invariant AllInTable(fs[..i])
        invariant weightedScore == WeightedScoreSum(fs[..i], frameworkScores)
        invariant totalWeight == WeightSum(fs[..i])
      {
        AllInTablePrefix(fs, i + 1);
        var p := fs[..i + 1];
        WeightedStep(p, frameworkScores);
        assert p[..|p| - 1] == fs[..i];
        var weight := ComplianceWeight(fs[i]).value;
        var score := ScoreIn(frameworkScores, fs[i]);
        weightedScore := weightedScore + score * weight;
        totalWeight := totalWeight + weight;
        i := i + 1;
      }
      assert fs[..i] == fs;
    }

    /** `generate_remediation_plan`: group the gaps of assessments scoring below 75
        by category, in order of first appearance, and attach each category's template. */
    method GenerateRemediationPlan(report: SystemComplianceReport) returns (plan: RemediationPlan)
      ensures plan == RemediationPlanOf(report)
    {
      var categories, gapCategories := GroupAssessments(report.assessments);
      var gaps := NeedyGaps(report.assessments);
      var actions: seq<RemediationAction> := [];
      var k := 0;
      while k < |categories|
        invariant 0 <= k <= |categories|
        invariant actions == PlanActions(categories[..k], gaps, CategorizeGap)
      {
        var g := categories[k];
        assert categories[..k + 1][..k] == categories[..k];
        actions := actions + [RemediationAction(g, gapCategories[g])];
        k := k + 1;
      }
      assert categories[..k] == categories;
      plan := RemediationPlan(report.systemId, report.systemName, report.overallComplianceScore, 90.0,
                              report.criticalGaps, EstimateRemediationCost(actions), actions);
    }

    /** The outer loop of `generate_remediation_plan`: the categories in order of
        first appearance and the gaps filed under each. */
    static method GroupAssessments(s: seq<Assessment>)
      returns (categories: seq<GapCategory>, gapCategories: map<GapCategory, seq<string>>)
      ensures Grouped(NeedyGaps(s), CategorizeGap, categories, gapCategories)
    {
      categories, gapCategories := [], map[];
      var i := 0;
      while i < |s|
        invariant 0 <= i <= |s|
        invariant Grouped(NeedyGaps(s[..i]), CategorizeGap, categories, gapCategories)
      {
        NeedyGapsStep(s, i);
        if s[i].score < 75.0 {
          categories, gapCategories := GroupGaps(NeedyGaps(s[..i]), GapsIdentified(s[i]), categories, gapCategories);
        }
        i := i + 1;
      }
      assert s[..i] == s;
    }

    /** The inner loop of `generate_remediation_plan`: file each gap of one
        assessment under its category. */
    static method GroupGaps(seen: seq<string>, more: seq<string>, categories: seq<GapCategory>,
                            gapCategories: map<GapCategory, seq<string>>)
      returns (categories': seq<GapCategory>, gapCategories': map<GapCategory, seq<string>>)
      requires Grouped(seen, CategorizeGap, categories, gapCategories)
      ensures Grouped(seen + more, CategorizeGap, categories', gapCategories')
    {
      categories', gapCategories' := categories, gapCategories;
      var j := 0;
      assert seen + more[..0] == seen;
      while j < |more|
        invariant 0 <= j <= |more|
        invariant Grouped(seen + more[..j], CategorizeGap, categories', gapCategories')
      {
        var gap := more[j];
        var category := CategorizeGap(gap);
        FileGap(seen, more, j, CategorizeGap, category, categories', gapCategories');
        if category !in gapCategories' {
          categories' := categories' + [category];
          gapCategories' := gapCategories'[category := []];
        }
        gapCategories' := gapCategories'[category := gapCategories'[category] + [gap]];
        j := j + 1;
      }
      assert more[..j] == more;
    }
  }
}
