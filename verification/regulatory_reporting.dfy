/** The regulatory reporting suite: each framework of the table is scored from
    configuration flags (a weighted sum for the EU AI Act and GDPR, a fixed score for
    the others), banded into a status and a risk level, and turned into critical gaps,
    recommendations and a fine exposure; a report averages the framework scores,
    lists priority actions and a date-ordered regulatory timeline, and is kept in
    the suite's history. */
module RegulatoryReporting {
  import opened Wrappers
  import opened Text
  import opened Means
  import opened Sorting

  datatype Framework = EuAiAct | Gdpr | Iso42001 | NistAiRmf | Sox | Basel3 | FdaAiMl | Ccpa | PciDss

  function FrameworkValue(f: Framework): string {
    match f
    case EuAiAct => "eu_ai_act"
    case Gdpr => "gdpr"
    case Iso42001 => "iso_42001"
    case NistAiRmf => "nist_ai_rmf"
    case Sox => "sarbanes_oxley"
    case Basel3 => "basel_iii"
    case FdaAiMl => "fda_ai_ml"
    case Ccpa => "ccpa"
    case PciDss => "pci_dss"
  }

  /** The frameworks with an entry in `compliance_frameworks`. */
  predicate InTable(f: Framework) {
    f == EuAiAct || f == Gdpr || f == Iso42001 || f == NistAiRmf
  }

  /** An entry of a framework's `assessment_criteria`: the criterion and its weight. */
  datatype Criterion = Criterion(name: string, weight: real)

  const EuAiActCriteria: seq<Criterion> := [
    Criterion("risk_assessment", 25.0), Criterion("quality_management", 20.0), Criterion("human_oversight", 20.0),
    Criterion("transparency", 15.0), Criterion("documentation", 20.0)]
  const GdprCriteria: seq<Criterion> := [
    Criterion("lawful_basis", 30.0), Criterion("data_subject_rights", 25.0), Criterion("privacy_by_design", 20.0),
    Criterion("breach_procedures", 15.0), Criterion("impact_assessments", 10.0)]
  const Iso42001Criteria: seq<Criterion> := [
    Criterion("management_system", 25.0), Criterion("risk_management", 25.0), Criterion("performance_monitoring", 20.0),
    Criterion("improvement_processes", 15.0), Criterion("stakeholder_engagement", 15.0)]
  const NistAiRmfCriteria: seq<Criterion> := [
    Criterion("governance", 30.0), Criterion("risk_assessment", 25.0), Criterion("trustworthiness", 20.0),
    Criterion("bias_evaluation", 15.0), Criterion("human_ai_config", 10.0)]

  /** `compliance_frameworks[framework]["assessment_criteria"]`. */
  function Criteria(f: Framework): (r: Option<seq<Criterion>>)
    ensures r.Some? <==> InTable(f)
    ensures r.Some? ==> |r.value| == 5
  {
    match f
    case EuAiAct => Some(EuAiActCriteria)
    case Gdpr => Some(GdprCriteria)
    case Iso42001 => Some(Iso42001Criteria)
    case NistAiRmf => Some(NistAiRmfCriteria)
    case _ => None
  }

  function WeightTotal(cs: seq<Criterion>): real {
    if cs == [] then 0.0 else WeightTotal(cs[..|cs| - 1]) + cs[|cs| - 1].weight
  }

  lemma WeightTotalStep(cs: seq<Criterion>, k: nat)
    requires k < |cs|
    ensures WeightTotal(cs[..k + 1]) == WeightTotal(cs[..k]) + cs[k].weight
  {
    assert cs[..k + 1][..k] == cs[..k];
  }

  lemma WeightTotalOfFive(cs: seq<Criterion>)
    requires |cs| == 5
    ensures WeightTotal(cs) == cs[0].weight + cs[1].weight + cs[2].weight + cs[3].weight + cs[4].weight
  {
    assert cs[..0] == [] && cs[..5] == cs;
    WeightTotalStep(cs, 0);
    WeightTotalStep(cs, 1);
    WeightTotalStep(cs, 2);
    WeightTotalStep(cs, 3);
    WeightTotalStep(cs, 4);
  }

  /** The criteria weights of every framework in the table sum to 100, and none is
      negative. */
  lemma CriteriaWeightsSumTo100(f: Framework)
    requires InTable(f)
    ensures WeightTotal(Criteria(f).value) == 100.0
    ensures forall i :: 0 <= i < 5 ==> Criteria(f).value[i].weight >= 0.0
  {
    WeightTotalOfFive(Criteria(f).value);
  }

  /** The configuration keys the scorer reads; an absent key counts as false. */
  datatype SystemConfig = SystemConfig(
    riskAssessmentCompleted: bool, qualityManagementSystem: bool, humanOversight: bool,
    explainableAi: bool, documentationComplete: bool,
    legalBasisDocumented: bool, dataSubjectRightsImplemented: bool, privacyByDesign: bool,
    breachProcedures: bool, dpiaCompleted: bool, compliant: bool,
    systemId: Option<string>, name: Option<string>)

  datatype Flag =
    | RiskAssessmentCompleted | QualityManagementSystem | HumanOversight | ExplainableAi | DocumentationComplete
    | LegalBasisDocumented | DataSubjectRightsImplemented | PrivacyByDesign | BreachProcedures | DpiaCompleted

  function FlagSet(c: SystemConfig, fl: Flag): bool {
    match fl
    case RiskAssessmentCompleted => c.riskAssessmentCompleted
    case QualityManagementSystem => c.qualityManagementSystem
    case HumanOversight => c.humanOversight
    case ExplainableAi => c.explainableAi
    case DocumentationComplete => c.documentationComplete
    case LegalBasisDocumented => c.legalBasisDocumented
    case DataSubjectRightsImplemented => c.dataSubjectRightsImplemented
    case PrivacyByDesign => c.privacyByDesign
    case BreachProcedures => c.breachProcedures
    case DpiaCompleted => c.dpiaCompleted
  }

  /** A criterion's sub-score: one constant when its flag is set, another otherwise. */
  datatype SubScore = SubScore(flag: Flag, whenSet: real, whenUnset: real)

  /** The frameworks scored criterion by criterion. */
  predicate Itemised(f: Framework) {
    f == EuAiAct || f == Gdpr
  }

  const EuAiActSubScores: seq<SubScore> := [
    SubScore(RiskAssessmentCompleted, 85.0, 30.0), SubScore(QualityManagementSystem, 80.0, 25.0),
    SubScore(HumanOversight, 90.0, 20.0), SubScore(ExplainableAi, 75.0, 35.0),
    SubScore(DocumentationComplete, 88.0, 40.0)]
  const GdprSubScores: seq<SubScore> := [
    SubScore(LegalBasisDocumented, 90.0, 20.0), SubScore(DataSubjectRightsImplemented, 85.0, 30.0),
    SubScore(PrivacyByDesign, 80.0, 35.0), SubScore(BreachProcedures, 95.0, 50.0),
    SubScore(DpiaCompleted, 75.0, 25.0)]

  /** The sub-scores of an itemised framework, criterion by criterion in the order
      of its criteria table. */
  function SubScores(f: Framework): (r: seq<SubScore>)
    requires Itemised(f)
    ensures |r| == 5
  {
    if f == EuAiAct then EuAiActSubScores else GdprSubScores
  }

  function ScoreOf(s: SubScore, c: SystemConfig): real {
    if FlagSet(c, s.flag) then s.whenSet else s.whenUnset
  }

  /** Every sub-score of both tables is below 60 exactly when its flag is unset. */
  lemma SubScoreBelow60IffUnset(f: Framework, i: nat, c: SystemConfig)
    requires Itemised(f) && i < 5
    ensures ScoreOf(SubScores(f)[i], c) < 60.0 <==> !FlagSet(c, SubScores(f)[i].flag)
    ensures SubScores(f)[i].whenUnset <= SubScores(f)[i].whenSet
  {
  }

  /** One criterion's share of the total: `score * criteria[criterion] / 100`. */
  function Contribution(s: SubScore, cr: Criterion, c: SystemConfig): real {
    ScoreOf(s, c) * cr.weight / 100.0
  }

  /** The sum of the contributions over the criteria, in order. */
  function WeightedTotal(ss: seq<SubScore>, cs: seq<Criterion>, c: SystemConfig): real
    requires |ss| == |cs|
  {
    if ss == [] then 0.0
    else WeightedTotal(ss[..|ss| - 1], cs[..|cs| - 1], c) + Contribution(ss[|ss| - 1], cs[|cs| - 1], c)
  }

  ghost predicate SubScoresIn(ss: seq<SubScore>, lo: real, hi: real) {
    forall i :: 0 <= i < |ss| ==> lo <= ss[i].whenUnset <= ss[i].whenSet <= hi
  }

  ghost predicate WeightsNonNegative(cs: seq<Criterion>) {
    forall i :: 0 <= i < |cs| ==> cs[i].weight >= 0.0
  }

  /** With sub-scores in [0, 100] and non-negative weights, the weighted total lies
      between 0 and the total weight. */
  lemma {:induction false} WeightedTotalBetween(ss: seq<SubScore>, cs: seq<Criterion>, c: SystemConfig)
    requires |ss| == |cs| && SubScoresIn(ss, 0.0, 100.0) && WeightsNonNegative(cs)
    ensures 0.0 <= WeightedTotal(ss, cs, c) <= WeightTotal(cs)
  {
    if ss != [] {
      var n := |ss| - 1;
      assert SubScoresIn(ss[..n], 0.0, 100.0) && WeightsNonNegative(cs[..n]);
      WeightedTotalBetween(ss[..n], cs[..n], c);
      var v, w := ScoreOf(ss[n], c), cs[n].weight;
      ScaleMonotone(0.0, v, w);
      ScaleMonotone(v, 100.0, w);
      assert Contribution(ss[n], cs[n], c) == v * w / 100.0;
      assert 0.0 <= v * w / 100.0;
      assert v * w / 100.0 <= 100.0 * w / 100.0 == w;
      assert WeightTotal(cs) == WeightTotal(cs[..n]) + w;
    }
  }

  ghost predicate FlagsIncluded(c1: SystemConfig, c2: SystemConfig) {
    forall fl :: FlagSet(c1, fl) ==> FlagSet(c2, fl)
  }

  /** Setting more flags never lowers the weighted total. */
  lemma {:induction false} WeightedTotalMonotone(ss: seq<SubScore>, cs: seq<Criterion>, c1: SystemConfig, c2: SystemConfig)
    requires |ss| == |cs| && WeightsNonNegative(cs) && FlagsIncluded(c1, c2)
    requires forall i :: 0 <= i < |ss| ==> ss[i].whenUnset <= ss[i].whenSet
    ensures WeightedTotal(ss, cs, c1) <= WeightedTotal(ss, cs, c2)
  {
    if ss != [] {
      var n := |ss| - 1;
      assert WeightsNonNegative(cs[..n]);
      WeightedTotalMonotone(ss[..n], cs[..n], c1, c2);
      ScaleMonotone(ScoreOf(ss[n], c1), ScoreOf(ss[n], c2), cs[n].weight);
    }
  }

  lemma WeightedTotalStep(ss: seq<SubScore>, cs: seq<Criterion>, c: SystemConfig, k: nat)
    requires |ss| == |cs| && k < |ss|
    ensures WeightedTotal(ss[..k + 1], cs[..k + 1], c) == WeightedTotal(ss[..k], cs[..k], c) + Contribution(ss[k], cs[k], c)
  {
    assert ss[..k + 1][..k] == ss[..k] && cs[..k + 1][..k] == cs[..k];
  }

  lemma WeightedTotalOfFive(ss: seq<SubScore>, cs: seq<Criterion>, c: SystemConfig)
    requires |ss| == |cs| == 5
    ensures WeightedTotal(ss, cs, c) ==
      Contribution(ss[0], cs[0], c) + Contribution(ss[1], cs[1], c) + Contribution(ss[2], cs[2], c)
      + Contribution(ss[3], cs[3], c) + Contribution(ss[4], cs[4], c)
  {
    assert ss[..0] == [] && cs[..0] == [] && ss[..5] == ss && cs[..5] == cs;
    WeightedTotalStep(ss, cs, c, 0);
    WeightedTotalStep(ss, cs, c, 1);
    WeightedTotalStep(ss, cs, c, 2);
    WeightedTotalStep(ss, cs, c, 3);
    WeightedTotalStep(ss, cs, c, 4);
  }

  /** A critical gap: the framework and the criterion that scored below 60. */
  datatype Gap = Gap(framework: Framework, criterion: string)

  /** The gaps of the criteria scoring below 60, in criteria order. */
  function Gaps(ss: seq<SubScore>, cs: seq<Criterion>, f: Framework, c: SystemConfig): seq<Gap>
    requires |ss| == |cs|
  {
    if ss == [] then []
    else Gaps(ss[..|ss| - 1], cs[..|cs| - 1], f, c)
         + (if ScoreOf(ss[|ss| - 1], c) < 60.0 then [Gap(f, cs[|cs| - 1].name)] else [])
  }

  lemma GapsStep(ss: seq<SubScore>, cs: seq<Criterion>, f: Framework, c: SystemConfig, k: nat)
    requires |ss| == |cs| && k < |ss|
    ensures Gaps(ss[..k + 1], cs[..k + 1], f, c)
         == Gaps(ss[..k], cs[..k], f, c) + (if ScoreOf(ss[k], c) < 60.0 then [Gap(f, cs[k].name)] else [])
  {
    assert ss[..k + 1][..k] == ss[..k] && cs[..k + 1][..k] == cs[..k];
  }

  /** A gap is recorded for each criterion whose sub-score is below 60, and for no
      other. */
  lemma {:induction false} GapsIff(ss: seq<SubScore>, cs: seq<Criterion>, f: Framework, c: SystemConfig)
    requires |ss| == |cs|
    ensures forall g :: g in Gaps(ss, cs, f, c) <==>
      exists i :: 0 <= i < |cs| && ScoreOf(ss[i], c) < 60.0 && g == Gap(f, cs[i].name)
  {
    if ss != [] {
      var n := |ss| - 1;
      GapsIff(ss[..n], cs[..n], f, c);
      forall g | g in Gaps(ss, cs, f, c)
        ensures exists i :: 0 <= i < |cs| && ScoreOf(ss[i], c) < 60.0 && g == Gap(f, cs[i].name)
      {
        if g !in Gaps(ss[..n], cs[..n], f, c) {
          assert ScoreOf(ss[n], c) < 60.0 && g == Gap(f, cs[n].name);
        }
      }
      forall g, i | 0 <= i < |cs| && ScoreOf(ss[i], c) < 60.0 && g == Gap(f, cs[i].name)
        ensures g in Gaps(ss, cs, f, c)
      {
        if i < n {
          assert ss[..n][i] == ss[i] && cs[..n][i] == cs[i];
        }
      }
    }
  }

  /** `total_score`: the weighted sum for the EU AI Act and GDPR, otherwise 75 when
      the `compliant` flag is set and 45 when it is not. */
  function TotalScore(f: Framework, c: SystemConfig): real
    requires InTable(f)
  {
    if Itemised(f) then WeightedTotal(SubScores(f), Criteria(f).value, c)
    else if c.compliant then 75.0 else 45.0
  }

  function CriticalGaps(f: Framework, c: SystemConfig): seq<Gap>
    requires InTable(f)
  {
    if Itemised(f) then Gaps(SubScores(f), Criteria(f).value, f, c) else []
  }

  /** Every total lies in [0, 100]: the criteria weights sum to 100, so the weighted
      sum is a weighted mean of sub-scores in [0, 100]. */
  lemma TotalScoreBounds(f: Framework, c: SystemConfig)
    requires InTable(f)
    ensures 0.0 <= TotalScore(f, c) <= 100.0
  {
    if Itemised(f) {
      var ss, cs := SubScores(f), Criteria(f).value;
      CriteriaWeightsSumTo100(f);
      WeightedTotalBetween(ss, cs, c);
    }
  }

  /** The highest scores the two itemised frameworks can reach, with every flag set:
      84.1 for the EU AI Act and 86 for GDPR. Neither can become FULLY_COMPLIANT, and
      the EU AI Act never reaches MINIMAL risk. */
  lemma ItemisedScoreCeiling(f: Framework, c: SystemConfig)
    requires Itemised(f)
    ensures TotalScore(f, c) <= if f == EuAiAct then 84.1 else 86.0
    ensures StatusOf(TotalScore(f, c)) != FullyCompliant
    ensures f == EuAiAct ==> RiskOf(TotalScore(f, c)) != Minimal
  {
    var ss, cs := SubScores(f), Criteria(f).value;
    var all := c.(riskAssessmentCompleted := true, qualityManagementSystem := true, humanOversight := true,
                  explainableAi := true, documentationComplete := true, legalBasisDocumented := true,
                  dataSubjectRightsImplemented := true, privacyByDesign := true, breachProcedures := true,
                  dpiaCompleted := true);
    CriteriaWeightsSumTo100(f);
    assert WeightsNonNegative(cs);
    forall i | 0 <= i < |ss| ensures ss[i].whenUnset <= ss[i].whenSet {
      SubScoreBelow60IffUnset(f, i, c);
    }
    WeightedTotalMonotone(ss, cs, c, all);
    WeightedTotalOfFive(ss, cs, all);
  }

  /** More flags never lower a framework's score. */
  lemma MoreFlagsNeverLowerScore(f: Framework, c1: SystemConfig, c2: SystemConfig)
    requires InTable(f) && FlagsIncluded(c1, c2) && (c1.compliant ==> c2.compliant)
    ensures TotalScore(f, c1) <= TotalScore(f, c2)
  {
    if Itemised(f) {
      var ss, cs := SubScores(f), Criteria(f).value;
      CriteriaWeightsSumTo100(f);
      assert WeightsNonNegative(cs);
      forall i | 0 <= i < |ss| ensures ss[i].whenUnset <= ss[i].whenSet {
        SubScoreBelow60IffUnset(f, i, c1);
      }
      WeightedTotalMonotone(ss, cs, c1, c2);
    }
  }

  /** An itemised framework records one gap per unset flag, naming its criterion;
      the other frameworks record none. */
  lemma CriticalGapsIffUnset(f: Framework, c: SystemConfig)
    requires InTable(f)
    ensures !Itemised(f) ==> CriticalGaps(f, c) == []
    ensures Itemised(f) ==> forall g :: g in CriticalGaps(f, c) <==>
      exists i :: 0 <= i < 5 && !FlagSet(c, SubScores(f)[i].flag) && g == Gap(f, Criteria(f).value[i].name)
  {
    if Itemised(f) {
      GapsIff(SubScores(f), Criteria(f).value, f, c);
      forall i | 0 <= i < 5 ensures ScoreOf(SubScores(f)[i], c) < 60.0 <==> !FlagSet(c, SubScores(f)[i].flag) {
        SubScoreBelow60IffUnset(f, i, c);
      }
    }
  }

  // ---- Bands ----

  datatype ComplianceStatus = FullyCompliant | SubstantiallyCompliant | PartiallyCompliant | NonCompliant | NotApplicable

  datatype RiskLevel = Minimal | Limited | High | Unacceptable

  function StatusOf(score: real): (s: ComplianceStatus)
    ensures s == FullyCompliant <==> score >= 90.0
    ensures s == SubstantiallyCompliant <==> 75.0 <= score < 90.0
    ensures s == PartiallyCompliant <==> 50.0 <= score < 75.0
    ensures s == NonCompliant <==> score < 50.0
  {
    if score >= 90.0 then FullyCompliant
    else if score >= 75.0 then SubstantiallyCompliant
    else if score >= 50.0 then PartiallyCompliant
    else NonCompliant
  }

  function RiskOf(score: real): (r: RiskLevel)
    ensures r == Minimal <==> score >= 85.0
    ensures r == Limited <==> 70.0 <= score < 85.0
    ensures r == High <==> 50.0 <= score < 70.0
    ensures r == Unacceptable <==> score < 50.0
  {
    if score >= 85.0 then Minimal
    else if score >= 70.0 then Limited
    else if score >= 50.0 then High
    else Unacceptable
  }

  /** The bands agree at 50: a score is NON_COMPLIANT exactly when its risk is
      UNACCEPTABLE, and a FULLY_COMPLIANT score always has MINIMAL risk. */
  lemma StatusAndRiskAgree(score: real)
    ensures StatusOf(score) == NonCompliant <==> RiskOf(score) == Unacceptable
    ensures StatusOf(score) == FullyCompliant ==> RiskOf(score) == Minimal
  {
  }

  // ---- Recommendations and fine exposure ----

  /** The recommendations; `Prioritize(f)` names the framework in title case. */
  datatype Recommendation = Prioritize(framework: Framework) | AddressGapsWithin30Days | ConsiderSuspension

  function RecommendationsOf(f: Framework, score: real, gaps: seq<Gap>): seq<Recommendation> {
    (if score < 75.0 then [Prioritize(f)] else [])
    + (if gaps != [] then [AddressGapsWithin30Days] else [])
    + (if score < 50.0 then [ConsiderSuspension] else [])
  }

  /** Each recommendation is made under exactly its condition, so a score below 50
      always yields at least two of them and a score of 75 or more without gaps none. */
  lemma RecommendationsFacts(f: Framework, score: real, gaps: seq<Gap>)
    ensures var r := RecommendationsOf(f, score, gaps);
      && (Prioritize(f) in r <==> score < 75.0)
      && (AddressGapsWithin30Days in r <==> gaps != [])
      && (ConsiderSuspension in r <==> score < 50.0)
      && (score < 50.0 ==> |r| >= 2)
      && (r == [] <==> score >= 75.0 && gaps == [])
  {
  }

  datatype ExposureBand = HighExposure | MediumExposure | LowExposure

  function ExposureBandOf(score: real): (b: ExposureBand)
    ensures b == HighExposure <==> score < 50.0
    ensures b == MediumExposure <==> 50.0 <= score < 75.0
    ensures b == LowExposure <==> score >= 75.0
  {
    if score < 50.0 then HighExposure else if score < 75.0 then MediumExposure else LowExposure
  }

  /** The three penalty texts of a framework. */
  datatype Penalties = Penalties(high: string, medium: string, low: string)

  const DefaultPenalties := Penalties("Significant regulatory penalties", "Moderate penalties possible", "Minimal penalty risk")

  /** `framework_penalties.get(framework, default)`. */
  function PenaltiesFor(f: Framework): Penalties {
    match f
    case EuAiAct => Penalties("€7-35M or 1.5-7% of global turnover", "€15M or 3% of global turnover", "Administrative warnings")
    case Gdpr => Penalties("€20M or 4% of global turnover", "€10M or 2% of global turnover", "Corrective action orders")
    case _ => DefaultPenalties
  }

  /** `_calculate_fine_exposure`. */
  function FineExposure(f: Framework, score: real): string {
    var p := PenaltiesFor(f);
    match ExposureBandOf(score)
    case HighExposure => p.high
    case MediumExposure => p.medium
    case LowExposure => p.low
  }

  /** The fine exposure is the high penalty exactly when the risk is UNACCEPTABLE,
      and frameworks outside the penalty table use the default texts. */
  lemma FineExposureFacts(f: Framework, score: real)
    ensures ExposureBandOf(score) == HighExposure <==> RiskOf(score) == Unacceptable
    ensures f != EuAiAct && f != Gdpr ==>
      FineExposure(f, score) in {DefaultPenalties.high, DefaultPenalties.medium, DefaultPenalties.low}
  {
  }

  // ---- One framework ----

  datatype Assessment = Assessment(
    framework: Framework, status: ComplianceStatus, score: real, lastAssessment: string, nextDue: string,
    criticalGaps: seq<Gap>, recommendations: seq<Recommendation>, riskLevel: RiskLevel, fineExposure: string)

  /** `_assess_framework_compliance`; `today` and `nextDue` stand for the two dates it
      reads from the clock, and a framework outside the table raises `KeyError`. */
  function AssessmentOf(f: Framework, c: SystemConfig, today: string, nextDue: string): (r: Result<Assessment>)
    ensures r.Success? <==> InTable(f)
    ensures r.Failure? ==> r.error == KeyError(FrameworkValue(f))
  {
    if !InTable(f) then Failure(KeyError(FrameworkValue(f)))
    else
      var score := TotalScore(f, c);
      var gaps := CriticalGaps(f, c);
      Success(Assessment(f, StatusOf(score), score, today, nextDue, gaps,
                         RecommendationsOf(f, score, gaps), RiskOf(score), FineExposure(f, score)))
  }

  /** `assess_system_compliance`: the assessments in framework order; the first
      framework outside the table ends it with `KeyError`. */
  function AssessAll(fs: seq<Framework>, c: SystemConfig, today: string, nextDue: string): (r: Result<seq<Assessment>>)
    ensures r.Success? ==> |r.value| == |fs|
  {
    if fs == [] then Success([])
    else
      var done :- AssessAll(fs[..|fs| - 1], c, today, nextDue);
      var a :- AssessmentOf(fs[|fs| - 1], c, today, nextDue);
      Success(done + [a])
  }

  /** The assessment list succeeds exactly when every framework is in the table, and
      then its i-th entry is the i-th framework's assessment. */
  lemma AssessAllIff(fs: seq<Framework>, c: SystemConfig, today: string, nextDue: string)
    ensures AssessAll(fs, c, today, nextDue).Success? <==> forall i :: 0 <= i < |fs| ==> InTable(fs[i])
    ensures AssessAll(fs, c, today, nextDue).Success? ==>
      forall i :: 0 <= i < |fs| ==> Success(AssessAll(fs, c, today, nextDue).value[i]) == AssessmentOf(fs[i], c, today, nextDue)
  {
    AssessAllSucceeds(fs, c, today, nextDue);
    if AssessAll(fs, c, today, nextDue).Success? {
      forall i | 0 <= i < |fs|
        ensures Success(AssessAll(fs, c, today, nextDue).value[i]) == AssessmentOf(fs[i], c, today, nextDue)
      {
        AssessAllAt(fs, c, today, nextDue, i);
      }
    }
  }

  lemma {:induction false} AssessAllSucceeds(fs: seq<Framework>, c: SystemConfig, today: string, nextDue: string)
    ensures AssessAll(fs, c, today, nextDue).Success? <==> forall i :: 0 <= i < |fs| ==> InTable(fs[i])
  {
    if fs != [] {
      var p := fs[..|fs| - 1];
      AssessAllSucceeds(p, c, today, nextDue);
      AssessAllLastStep(fs, c, today, nextDue);
      assert forall i :: 0 <= i < |p| ==> p[i] == fs[i];
    }
  }

  /** One more framework: the list succeeds iff the shorter one does and the new
      framework is in the table. */
  lemma AssessAllLastStep(fs: seq<Framework>, c: SystemConfig, today: string, nextDue: string)
    requires fs != []
    ensures AssessAll(fs, c, today, nextDue).Success? <==>
      AssessAll(fs[..|fs| - 1], c, today, nextDue).Success? && InTable(fs[|fs| - 1])
  {
  }

  lemma {:induction false} AssessAllAt(fs: seq<Framework>, c: SystemConfig, today: string, nextDue: string, i: nat)
    requires AssessAll(fs, c, today, nextDue).Success? && i < |fs|
    ensures Success(AssessAll(fs, c, today, nextDue).value[i]) == AssessmentOf(fs[i], c, today, nextDue)
  {
    var p := fs[..|fs| - 1];
    var done, a := AssessAll(p, c, today, nextDue), AssessmentOf(fs[|fs| - 1], c, today, nextDue);
    assert done.Success? && a.Success?;
    assert AssessAll(fs, c, today, nextDue).value == done.value + [a.value];
    if i < |p| {
      AssessAllAt(p, c, today, nextDue, i);
      assert p[i] == fs[i];
    }
  }

  const DefaultFrameworks: seq<Framework> := [EuAiAct, Gdpr, Iso42001]

  function FrameworksOrDefault(frameworks: Option<seq<Framework>>): seq<Framework> {
    frameworks.GetOr(DefaultFrameworks)
  }

  function ScoreSum(s: seq<Assessment>): real {
    if s == [] then 0.0 else ScoreSum(s[..|s| - 1]) + s[|s| - 1].score
  }

  /** The overall report score: the plain mean of the assessment scores, 0 when there
      is none. */
  function OverallScore(s: seq<Assessment>): real {
    if s == [] then 0.0 else ScoreSum(s) / |s| as real
  }

  lemma {:induction false} ScoreSumBetween(s: seq<Assessment>)
    requires forall i :: 0 <= i < |s| ==> 0.0 <= s[i].score <= 100.0
    ensures 0.0 <= ScoreSum(s) <= 100.0 * |s| as real
  {
    if s != [] {
      ScoreSumBetween(s[..|s| - 1]);
    }
  }

  lemma OverallScoreBounds(s: seq<Assessment>)
    requires forall i :: 0 <= i < |s| ==> 0.0 <= s[i].score <= 100.0
    ensures 0.0 <= OverallScore(s) <= 100.0
  {
    if s != [] {
      ScoreSumBetween(s);
      QuotientBounds(ScoreSum(s), |s| as real, 0.0, 100.0);
    }
  }

  /** Every assessment the suite produces scores in [0, 100], so the report's mean
      does too. */
  lemma AssessedScoresBounded(fs: seq<Framework>, c: SystemConfig, today: string, nextDue: string)
    requires AssessAll(fs, c, today, nextDue).Success?
    ensures var s := AssessAll(fs, c, today, nextDue).value;
      (forall i :: 0 <= i < |s| ==> 0.0 <= s[i].score <= 100.0) && 0.0 <= OverallScore(s) <= 100.0
  {
    var s := AssessAll(fs, c, today, nextDue).value;
    AssessAllIff(fs, c, today, nextDue);
    forall i | 0 <= i < |s| ensures 0.0 <= s[i].score <= 100.0 {
      TotalScoreBounds(fs[i], c);
    }
    OverallScoreBounds(s);
  }

  // ---- Calendar, priority actions and timeline ----

  /** An entry of the regulatory calendar. */
  datatype Milestone = Milestone(framework: Framework, name: string, date: string, preparationRequired: bool)

  /** `_load_regulatory_calendar`; `in90` and `in180` are the dates 90 and 180 days
      after the suite was created, as `YYYY-MM-DD`. */
  function RegulatoryCalendar(in90: string, in180: string): seq<Milestone> {
    [Milestone(EuAiAct, "AI Act Full Application", "2026-08-02", true),
     Milestone(Iso42001, "Annual Certification Review", in90, true),
     Milestone(Gdpr, "DPIA Review Cycle", in180, true)]
  }

  datatype Priority = PriorityCritical | PriorityHigh | PriorityMedium | PriorityLow

  function PriorityRank(p: Priority): nat {
    match p
    case PriorityCritical => 1
    case PriorityHigh => 2
    case PriorityMedium => 3
    case PriorityLow => 4
  }

  /** What an action asks for; its owner and effort are functions of the priority. */
  datatype ActionKind = AddressCriticalGaps | ImproveScore | PrepareFor(milestone: string)

  datatype PriorityAction = PriorityAction(
    priority: Priority, framework: Framework, kind: ActionKind, timeline: string, potentialImpact: string)

  const DeadlineImpact := "Regulatory deadline compliance"

  function WithRisk(s: seq<Assessment>, level: RiskLevel): (r: seq<Assessment>)
    ensures forall a :: a in r <==> a in s && a.riskLevel == level
  {
    if s == [] then []
    else WithRisk(s[..|s| - 1], level) + (if s[|s| - 1].riskLevel == level then [s[|s| - 1]] else [])
  }

  function AssessmentActions(s: seq<Assessment>, p: Priority): (r: seq<PriorityAction>)
    requires p == PriorityCritical || p == PriorityHigh
    ensures |r| == |s|
    ensures forall i :: 0 <= i < |s| ==> r[i].priority == p && r[i].framework == s[i].framework
                                         && r[i].potentialImpact == s[i].fineExposure
  {
    if s == [] then []
    else
      var a := s[|s| - 1];
      AssessmentActions(s[..|s| - 1], p)
        + [if p == PriorityCritical then PriorityAction(p, a.framework, AddressCriticalGaps, "14 days", a.fineExposure)
           else PriorityAction(p, a.framework, ImproveScore, "30 days", a.fineExposure)]
  }

  /** The calendar entries dated no later than `horizon` (180 days from now); dates
      are `YYYY-MM-DD`, so the string order is the date order. */
  function Upcoming(calendar: seq<Milestone>, horizon: string): (r: seq<Milestone>)
    ensures forall m :: m in r <==> m in calendar && StrLe(m.date, horizon)
  {
    if calendar == [] then []
    else Upcoming(calendar[..|calendar| - 1], horizon)
         + (if StrLe(calendar[|calendar| - 1].date, horizon) then [calendar[|calendar| - 1]] else [])
  }

  function DeadlineActions(ms: seq<Milestone>): (r: seq<PriorityAction>)
    ensures |r| == |ms|
    ensures forall i :: 0 <= i < |ms| ==> r[i] == PriorityAction(PriorityMedium, ms[i].framework,
              PrepareFor(ms[i].name), ms[i].date, DeadlineImpact)
  {
    if ms == [] then []
    else
      var m := ms[|ms| - 1];
      DeadlineActions(ms[..|ms| - 1]) + [PriorityAction(PriorityMedium, m.framework, PrepareFor(m.name), m.date, DeadlineImpact)]
  }

  /** The actions before sorting: one per UNACCEPTABLE assessment, one per HIGH one,
      one per upcoming deadline. */
  function GroupedActions(s: seq<Assessment>, calendar: seq<Milestone>, horizon: string): seq<PriorityAction> {
    AssessmentActions(WithRisk(s, Unacceptable), PriorityCritical)
      + AssessmentActions(WithRisk(s, High), PriorityHigh)
      + DeadlineActions(Upcoming(calendar, horizon))
  }

  function ActionRank(a: PriorityAction): nat {
    PriorityRank(a.priority)
  }

  /** `_generate_priority_actions`: the actions stably sorted CRITICAL, HIGH, MEDIUM. */
  function PriorityActions(s: seq<Assessment>, calendar: seq<Milestone>, horizon: string): seq<PriorityAction> {
    SortBy(GroupedActions(s, calendar, horizon), ActionRank, NatLe)
  }

  lemma GroupsInOrder(a: seq<PriorityAction>, b: seq<PriorityAction>, m: seq<PriorityAction>)
    requires forall i :: 0 <= i < |a| ==> a[i].priority == PriorityCritical
    requires forall i :: 0 <= i < |b| ==> b[i].priority == PriorityHigh
    requires forall i :: 0 <= i < |m| ==> m[i].priority == PriorityMedium
    ensures SortedBy(a + b + m, ActionRank, NatLe)
  {
    var g := a + b + m;
    forall i | 0 <= i < |g|
      ensures ActionRank(g[i]) == if i < |a| then 1 else if i < |a| + |b| then 2 else 3
    {
      if i < |a| {
        assert g[i] == a[i];
      } else if i < |a| + |b| {
        assert g[i] == b[i - |a|];
      } else {
        assert g[i] == m[i - |a| - |b|];
      }
    }
  }

  /** The actions are built group by group, so the stable sort leaves them as built:
      every UNACCEPTABLE assessment's action, then every HIGH one's, then the upcoming
      deadlines, each group in its input order. */
  lemma PriorityActionsGrouped(s: seq<Assessment>, calendar: seq<Milestone>, horizon: string)
    ensures PriorityActions(s, calendar, horizon) == GroupedActions(s, calendar, horizon)
    ensures |PriorityActions(s, calendar, horizon)|
         == |WithRisk(s, Unacceptable)| + |WithRisk(s, High)| + |Upcoming(calendar, horizon)|
  {
    var a := AssessmentActions(WithRisk(s, Unacceptable), PriorityCritical);
    var b := AssessmentActions(WithRisk(s, High), PriorityHigh);
    var m := DeadlineActions(Upcoming(calendar, horizon));
    GroupsInOrder(a, b, m);
    SortBySortedIdentity(a + b + m, ActionRank, NatLe);
  }

  datatype Importance = CriticalImportance | HighImportance | MediumImportance

  datatype TimelineEvent = AssessmentDue | MilestoneReached(name: string)

  datatype TimelineEntry = TimelineEntry(date: string, framework: Framework, event: TimelineEvent, importance: Importance)

  function AssessmentEntries(s: seq<Assessment>): (r: seq<TimelineEntry>)
    ensures |r| == |s|
    ensures forall i :: 0 <= i < |s| ==>
      && r[i].date == s[i].nextDue && r[i].framework == s[i].framework
      && (r[i].importance == HighImportance <==> s[i].riskLevel in {High, Unacceptable})
  {
    if s == [] then []
    else
      var a := s[|s| - 1];
      AssessmentEntries(s[..|s| - 1])
        + [TimelineEntry(a.nextDue, a.framework, AssessmentDue,
                         if a.riskLevel == High || a.riskLevel == Unacceptable then HighImportance else MediumImportance)]
  }

  function MilestoneEntries(calendar: seq<Milestone>): (r: seq<TimelineEntry>)
    ensures |r| == |calendar|
    ensures forall i :: 0 <= i < |calendar| ==>
      && r[i].date == calendar[i].date && r[i].framework == calendar[i].framework
      && (r[i].importance == CriticalImportance <==> calendar[i].preparationRequired)
  {
    if calendar == [] then []
    else
      var m := calendar[|calendar| - 1];
      MilestoneEntries(calendar[..|calendar| - 1])
        + [TimelineEntry(m.date, m.framework, MilestoneReached(m.name),
                         if m.preparationRequired then CriticalImportance else MediumImportance)]
  }

  function EntryDate(e: TimelineEntry): string {
    e.date
  }

  /** `_create_regulatory_timeline`: assessment due dates, then milestones, sorted by
      date. */
  function RegulatoryTimeline(s: seq<Assessment>, calendar: seq<Milestone>): seq<TimelineEntry> {
    SortBy(AssessmentEntries(s) + MilestoneEntries(calendar), EntryDate, StrLe)
  }

  lemma StrLeTotalPreorder()
    ensures TotalPreorder(StrLe)
  {
    forall a, b ensures StrLe(a, b) || StrLe(b, a) {
      StrLeTotal(a, b);
    }
    forall a, b, c | StrLe(a, b) && StrLe(b, c) ensures StrLe(a, c) {
      StrLeTransitive(a, b, c);
    }
  }

  /** The timeline holds every due date and milestone exactly once, is ordered by
      date, and keeps entries with the same date in the order they were listed. */
  lemma RegulatoryTimelineFacts(s: seq<Assessment>, calendar: seq<Milestone>, date: string)
    ensures var t := RegulatoryTimeline(s, calendar);
      && multiset(t) == multiset(AssessmentEntries(s) + MilestoneEntries(calendar))
      && SortedBy(t, EntryDate, StrLe)
      && KeyClass(t, EntryDate, StrLe, date) == KeyClass(AssessmentEntries(s) + MilestoneEntries(calendar), EntryDate, StrLe, date)
  {
    StrLeTotalPreorder();
    SortBySorted(AssessmentEntries(s) + MilestoneEntries(calendar), EntryDate, StrLe);
    SortByStable(AssessmentEntries(s) + MilestoneEntries(calendar), EntryDate, StrLe, date);
  }

  // ---- The report ----

  datatype RegulatoryReport = RegulatoryReport(
    reportId: string, systemId: string, systemName: string, assessments: seq<Assessment>,
    overallScore: real, priorityActions: seq<PriorityAction>, timeline: seq<TimelineEntry>)

  const UnknownId := "unknown"
  const DefaultName := "AI System"

  /** `generate_regulatory_report` without its texts and reporting period. */
  function ReportOf(c: SystemConfig, fs: seq<Framework>, calendar: seq<Milestone>, today: string, nextDue: string,
                    horizon: string, reportId: string): Result<RegulatoryReport>
  {
    var s :- AssessAll(fs, c, today, nextDue);
    Success(RegulatoryReport(reportId, c.systemId.GetOr(UnknownId), c.name.GetOr(DefaultName), s,
                             OverallScore(s), PriorityActions(s, calendar, horizon), RegulatoryTimeline(s, calendar)))
  }

  /** The report succeeds exactly when every framework is in the table. It then
      holds one assessment per framework, in order, with a mean score in [0, 100];
      the priority actions are the grouped critical, high and upcoming-deadline
      actions; and the timeline is sorted by date. */
  lemma RegulatoryReportFacts(c: SystemConfig, fs: seq<Framework>, calendar: seq<Milestone>, today: string,
                              nextDue: string, horizon: string, reportId: string)
    ensures var r := ReportOf(c, fs, calendar, today, nextDue, horizon, reportId);
      && (r.Success? <==> forall i :: 0 <= i < |fs| ==> InTable(fs[i]))
      && (r.Success? ==>
            && |r.value.assessments| == |fs|
            && (forall i :: 0 <= i < |fs| ==> Success(r.value.assessments[i]) == AssessmentOf(fs[i], c, today, nextDue))
            && 0.0 <= r.value.overallScore <= 100.0
            && r.value.priorityActions == GroupedActions(r.value.assessments, calendar, horizon)
            && SortedBy(r.value.timeline, EntryDate, StrLe))
  {
    AssessAllIff(fs, c, today, nextDue);
    var a := AssessAll(fs, c, today, nextDue);
    if a.Success? {
      AssessedScoresBounded(fs, c, today, nextDue);
      PriorityActionsGrouped(a.value, calendar, horizon);
      RegulatoryTimelineFacts(a.value, calendar, "");
    }
  }

  class ReportingSuite {
    const calendar: seq<Milestone>
    /** `assessment_history`: every generated report, oldest first. */
    var assessmentHistory: seq<RegulatoryReport>

    constructor(in90: string, in180: string)
      ensures calendar == RegulatoryCalendar(in90, in180) && assessmentHistory == []
    {
      calendar := RegulatoryCalendar(in90, in180);
      assessmentHistory := [];
    }

    /** The criterion loop of `_assess_framework_compliance`: the weighted total and
        the gaps, accumulated criterion by criterion. */
    static method ScoreCriteria(f: Framework, ss: seq<SubScore>, cs: seq<Criterion>, c: SystemConfig)
      returns (totalScore: real, criticalGaps: seq<Gap>)
      requires |ss| == |cs|
      ensures totalScore == WeightedTotal(ss, cs, c)
      ensures criticalGaps == Gaps(ss, cs, f, c)
    {
      totalScore, criticalGaps := 0.0, [];
      var i := 0;
      while i < |ss|
        invariant 0 <= i <= |ss|
        invariant totalScore == WeightedTotal(ss[..i], cs[..i], c)
        invariant criticalGaps == Gaps(ss[..i], cs[..i], f, c)
      {
        var score := if FlagSet(c, ss[i].flag) then ss[i].whenSet else ss[i].whenUnset;
        totalScore := totalScore + score * cs[i].weight / 100.0;
        if score < 60.0 {
          criticalGaps := criticalGaps + [Gap(f, cs[i].name)];
        }
        WeightedTotalStep(ss, cs, c, i);
        GapsStep(ss, cs, f, c, i);
        i := i + 1;
      }
      assert ss[..i] == ss && cs[..i] == cs;
    }

    /** `_assess_framework_compliance`. */
    static method AssessFrameworkCompliance(f: Framework, c: SystemConfig, today: string, nextDue: string)
      returns (r: Result<Assessment>)
      ensures r == AssessmentOf(f, c, today, nextDue)
    {
      var criteria := Criteria(f);
      if criteria.None? {
        return Failure(KeyError(FrameworkValue(f)));
      }
      var totalScore, criticalGaps;
      if Itemised(f) {
        totalScore, criticalGaps := ScoreCriteria(f, SubScores(f), criteria.value, c);
      } else {
        totalScore, criticalGaps := if c.compliant then 75.0 else 45.0, [];
      }
      r := Success(Assessment(f, StatusOf(totalScore), totalScore, today, nextDue, criticalGaps,
                              RecommendationsOf(f, totalScore, criticalGaps), RiskOf(totalScore),
                              FineExposure(f, totalScore)));
    }

    /** `assess_system_compliance`. */
    static method AssessSystemCompliance(c: SystemConfig, frameworks: Option<seq<Framework>>, today: string, nextDue: string)
      returns (r: Result<seq<Assessment>>)
      ensures r == AssessAll(FrameworksOrDefault(frameworks), c, today, nextDue)
    {
      var fs := FrameworksOrDefault(frameworks);
      var assessments := [];
      var i := 0;
      while i < |fs|
        invariant 0 <= i <= |fs|
        invariant AssessAll(fs[..i], c, today, nextDue) == Success(assessments)
      {
        var a := AssessFrameworkCompliance(fs[i], c, today, nextDue);
        AssessAllStep(fs, i, c, today, nextDue, assessments);
        if a.Failure? {
          AssessAllPrefixFailure(fs, i + 1, c, today, nextDue);
          return Failure(a.error);
        }
        assessments := assessments + [a.value];
        i := i + 1;
      }
      WholePrefix(fs);
      r := Success(assessments);
    }

    /** `generate_regulatory_report`: `today`, `nextDue` and `horizon` (180 days from
        now) stand for the clock and `reportId` for the fresh identifier. */
    method GenerateRegulatoryReport(c: SystemConfig, frameworks: Option<seq<Framework>>, today: string, nextDue: string,
                                    horizon: string, reportId: string) returns (r: Result<RegulatoryReport>)
      modifies this
      ensures r == ReportOf(c, FrameworksOrDefault(frameworks), calendar, today, nextDue, horizon, reportId)
      ensures r.Success? ==> assessmentHistory == old(assessmentHistory) + [r.value]
      ensures r.Failure? ==> assessmentHistory == old(assessmentHistory)
    {
      var assessments := AssessSystemCompliance(c, frameworks, today, nextDue);
      if assessments.Failure? {
        return Failure(assessments.error);
      }
      var s := assessments.value;
      var overall := if s != [] then ScoreSum(s) / |s| as real else 0.0;
      var report := RegulatoryReport(reportId, c.systemId.GetOr(UnknownId), c.name.GetOr(DefaultName), s, overall,
                                     PriorityActions(s, calendar, horizon), RegulatoryTimeline(s, calendar));
      assessmentHistory := assessmentHistory + [report];
      r := Success(report);
    }
  }

  /** One framework more: its assessment is appended, or its error ends the list. */
  lemma AssessAllStep(fs: seq<Framework>, i: nat, c: SystemConfig, today: string, nextDue: string, done: seq<Assessment>)
    requires i < |fs| && AssessAll(fs[..i], c, today, nextDue) == Success(done)
    ensures AssessmentOf(fs[i], c, today, nextDue).Success? ==>
      AssessAll(fs[..i + 1], c, today, nextDue) == Success(done + [AssessmentOf(fs[i], c, today, nextDue).value])
    ensures AssessmentOf(fs[i], c, today, nextDue).Failure? ==>
      AssessAll(fs[..i + 1], c, today, nextDue) == Failure(AssessmentOf(fs[i], c, today, nextDue).error)
  {
    assert fs[..i + 1][..i] == fs[..i] && fs[..i + 1][i] == fs[i];
  }

  /** A failing prefix makes the whole assessment list fail with the same error. */
  lemma {:induction false} AssessAllPrefixFailure(fs: seq<Framework>, n: nat, c: SystemConfig, today: string, nextDue: string)
    requires n <= |fs| && AssessAll(fs[..n], c, today, nextDue).Failure?
    ensures AssessAll(fs, c, today, nextDue) == AssessAll(fs[..n], c, today, nextDue)
    decreases |fs| - n
  {
    if n < |fs| {
      assert fs[..n + 1][..n] == fs[..n];
      AssessAllPrefixFailure(fs, n + 1, c, today, nextDue);
    } else {
      assert fs[..n] == fs;
    }
  }
}
