/** Multi-dimensional AI risk scoring: per-factor decision tables, a weighted mean
    per risk dimension, a weighted mean across dimensions, a threshold classifier
    and a clamped confidence value.  Scores are exact reals. */
module RiskScoring {
  import opened Wrappers
  import opened Means
  import opened Sorting

  datatype Dimension = Technical | Operational | Regulatory | Ethical | Business | Security

  /** Dimensions in the order of the factor table (and of the weight table). */
  const Dimensions: seq<Dimension> := [Technical, Operational, Regulatory, Ethical, Business, Security]

  function DimensionValue(d: Dimension): string {
    match d
    case Technical => "technical_risk"
    case Operational => "operational_risk"
    case Regulatory => "regulatory_risk"
    case Ethical => "ethical_risk"
    case Business => "business_risk"
    case Security => "security_risk"
  }

  datatype Severity = Critical | High | Medium | Low | Minimal

  function SeverityValue(s: Severity): real {
    match s
    case Critical => 5.0
    case High => 4.0
    case Medium => 3.0
    case Low => 2.0
    case Minimal => 1.0
  }

  datatype RiskFactor = RiskFactor(factorId: string, name: string, dimension: Dimension, weight: real, severity: Severity)

  // The factor ids with a rule of their own, and the keys and levels those rules read.
  const ModelAccuracy := "model_accuracy"
  const HumanOversightId := "human_oversight"
  const ComplianceCoverage := "compliance_coverage"
  const BiasFairness := "bias_fairness"
  const AccuracyKey := "accuracy"
  const OverallBiasKey := "overall_bias_score"
  const NoOversight := "none"
  const MinimalOversight := "minimal"
  const ModerateOversight := "moderate"
  const NonCompliantStatus := "non_compliant"
  const PartialStatus := "partial"
  const CompliantStatus := "compliant"
  const UnknownStatus := "unknown"

  const TechnicalFactors: seq<RiskFactor> := [
    RiskFactor(ModelAccuracy, "Model Accuracy and Performance", Technical, 0.25, High),
    RiskFactor("data_quality", "Data Quality and Integrity", Technical, 0.20, High),
    RiskFactor("model_complexity", "Model Complexity and Interpretability", Technical, 0.15, Medium),
    RiskFactor("system_integration", "System Integration and Dependencies", Technical, 0.15, Medium)]

  const OperationalFactors: seq<RiskFactor> := [
    RiskFactor(HumanOversightId, "Human Oversight and Control", Operational, 0.30, Critical),
    RiskFactor("change_management", "Change Management and Updates", Operational, 0.20, Medium),
    RiskFactor("incident_response", "Incident Response Capabilities", Operational, 0.25, High)]

  const RegulatoryFactors: seq<RiskFactor> := [
    RiskFactor(ComplianceCoverage, "Regulatory Compliance Coverage", Regulatory, 0.35, Critical),
    RiskFactor("documentation_adequacy", "Documentation and Audit Trail", Regulatory, 0.25, High)]

  const EthicalFactors: seq<RiskFactor> := [
    RiskFactor(BiasFairness, "Bias and Fairness", Ethical, 0.40, Critical),
    RiskFactor("transparency", "Transparency and Explainability", Ethical, 0.30, High)]

  const BusinessFactors: seq<RiskFactor> := [
    RiskFactor("reputation_impact", "Reputation and Brand Risk", Business, 0.30, High),
    RiskFactor("financial_impact", "Financial and Business Impact", Business, 0.35, Critical)]

  const SecurityFactors: seq<RiskFactor> := [
    RiskFactor("adversarial_attacks", "Adversarial Attack Vulnerability", Security, 0.30, High),
    RiskFactor("data_privacy", "Data Privacy and Security", Security, 0.35, Critical)]

  /** The factor table, dimension by dimension. */
  function FactorsOf(d: Dimension): seq<RiskFactor> {
    match d
    case Technical => TechnicalFactors
    case Operational => OperationalFactors
    case Regulatory => RegulatoryFactors
    case Ethical => EthicalFactors
    case Business => BusinessFactors
    case Security => SecurityFactors
  }

  function DimensionWeight(d: Dimension): real {
    match d
    case Technical => 0.20
    case Operational => 0.15
    case Regulatory => 0.25
    case Ethical => 0.20
    case Business => 0.15
    case Security => 0.05
  }

  /** The keys of the system description the scorer reads; absent keys are `None`
      (a missing `data_types` list is the empty list). */
  datatype AiSystem = AiSystem(
    performanceMetrics: Option<map<string, real>>,
    humanOversight: Option<string>,
    complianceStatus: Option<string>,
    biasMetrics: Option<map<string, real>>,
    dataTypes: seq<string>)

  /** `d.get(k, default)` on an optional nested dictionary. */
  function Lookup(m: Option<map<string, real>>, k: string, default: real): real {
    if m.Some? && k in m.value then m.value[k] else default
  }

  function AccuracyScore(accuracy: real): real {
    if accuracy < 0.7 then 5.0 else if accuracy < 0.85 then 3.0 else 1.0
  }

  function OversightScore(level: string): real {
    if level == NoOversight then 5.0
    else if level == MinimalOversight then 4.0
    else if level == ModerateOversight then 2.0
    else 1.0
  }

  function ComplianceStatusScore(status: string): real {
    if status == NonCompliantStatus then 5.0
    else if status == PartialStatus then 3.0
    else if status == CompliantStatus then 1.0
    else 4.0
  }

  function BiasScore(bias: real): real {
    if bias > 0.8 then 5.0 else if bias > 0.5 then 3.0 else 1.0
  }

  predicate HasSpecialRule(f: RiskFactor) {
    f.factorId in {ModelAccuracy, HumanOversightId, ComplianceCoverage, BiasFairness}
  }

  /** `_evaluate_risk_factor`. */
  function EvaluateRiskFactor(sys: AiSystem, f: RiskFactor): (score: real)
    ensures 1.0 <= score <= 5.0
  {
    var base :=
      if f.factorId == ModelAccuracy then AccuracyScore(Lookup(sys.performanceMetrics, AccuracyKey, 0.8))
      else if f.factorId == HumanOversightId then OversightScore(sys.humanOversight.GetOr(MinimalOversight))
      else if f.factorId == ComplianceCoverage then ComplianceStatusScore(sys.complianceStatus.GetOr(UnknownStatus))
      else if f.factorId == BiasFairness then BiasScore(Lookup(sys.biasMetrics, OverallBiasKey, 0.5))
      else SeverityValue(f.severity);
    Clamp(base, 1.0, 5.0)
  }

  /** A factor without a rule of its own scores its severity. */
  lemma OtherFactorsScoreSeverity(sys: AiSystem, f: RiskFactor)
    requires !HasSpecialRule(f)
    ensures EvaluateRiskFactor(sys, f) == SeverityValue(f.severity)
  {
  }

  /** Lower accuracy never lowers the accuracy risk, higher bias never lowers the
      bias risk. */
  lemma DecisionTablesMonotone(a1: real, a2: real, b1: real, b2: real)
    requires a1 <= a2 && b1 <= b2
    ensures AccuracyScore(a1) >= AccuracyScore(a2)
    ensures BiasScore(b1) <= BiasScore(b2)
  {
  }

  /** What an empty system description scores: accuracy 0.8 (3), oversight
      "minimal" (4), status "unknown" (4), bias 0.5 (1). */
  lemma EmptySystemDefaults(f: RiskFactor)
    ensures var sys := AiSystem(None, None, None, None, []);
            && (f.factorId == ModelAccuracy ==> EvaluateRiskFactor(sys, f) == 3.0)
            && (f.factorId == HumanOversightId ==> EvaluateRiskFactor(sys, f) == 4.0)
            && (f.factorId == ComplianceCoverage ==> EvaluateRiskFactor(sys, f) == 4.0)
            && (f.factorId == BiasFairness ==> EvaluateRiskFactor(sys, f) == 1.0)
  {
  }

  // ---------------------------------------------------------------------------
  // Dimension score

  /** `custom_weights.get(factor_id, factor.weight) if custom_weights else factor.weight`. */
  function FactorWeight(f: RiskFactor, custom: Option<map<string, real>>): real {
    if custom.Some? && |custom.value| > 0 && f.factorId in custom.value then custom.value[f.factorId] else f.weight
  }

  function WeightTotal(factors: seq<RiskFactor>, custom: Option<map<string, real>>): real {
    if factors == [] then 0.0
    else WeightTotal(factors[..|factors| - 1], custom) + FactorWeight(factors[|factors| - 1], custom)
  }

  function WeightedScoreTotal(sys: AiSystem, factors: seq<RiskFactor>, custom: Option<map<string, real>>): real {
    if factors == [] then 0.0
    else
      var f := factors[|factors| - 1];
      WeightedScoreTotal(sys, factors[..|factors| - 1], custom) + EvaluateRiskFactor(sys, f) * FactorWeight(f, custom)
  }

  /** Σ w·s / Σ w over the factors, or 0.0 when the weights do not add up to a positive total. */
  function DimensionScore(sys: AiSystem, factors: seq<RiskFactor>, custom: Option<map<string, real>>): real {
    var w := WeightTotal(factors, custom);
    if w > 0.0 then WeightedScoreTotal(sys, factors, custom) / w else 0.0
  }

  /** `_calculate_dimension_score`. */
  method CalculateDimensionScore(sys: AiSystem, factors: seq<RiskFactor>, custom: Option<map<string, real>>)
    returns (score: real)
    ensures score == DimensionScore(sys, factors, custom)
  {
    var totalScore, totalWeight := 0.0, 0.0;
    var i := 0;
    while i < |factors|
      invariant 0 <= i <= |factors|
      invariant totalScore == WeightedScoreTotal(sys, factors[..i], custom)
      invariant totalWeight == WeightTotal(factors[..i], custom)
    {
      var weight := FactorWeight(factors[i], custom);
      var factorScore := EvaluateRiskFactor(sys, factors[i]);
      TotalsAfter(sys, factors, i, custom, totalScore, totalWeight, factorScore, weight);
      totalScore := totalScore + factorScore * weight;
      totalWeight := totalWeight + weight;
      i := i + 1;
    }
    assert factors[..i] == factors;
    score := if totalWeight > 0.0 then totalScore / totalWeight else 0.0;
    DimensionScoreOfTotals(sys, factors, custom, totalScore, totalWeight);
  }

  /** The running totals after one more factor. */
  lemma TotalsAfter(sys: AiSystem, factors: seq<RiskFactor>, i: nat, custom: Option<map<string, real>>,
                    totalScore: real, totalWeight: real, factorScore: real, weight: real)
    requires i < |factors|
    requires totalScore == WeightedScoreTotal(sys, factors[..i], custom) && totalWeight == WeightTotal(factors[..i], custom)
    requires factorScore == EvaluateRiskFactor(sys, factors[i]) && weight == FactorWeight(factors[i], custom)
    ensures WeightTotal(factors[..i + 1], custom) == totalWeight + weight
    ensures WeightedScoreTotal(sys, factors[..i + 1], custom) == totalScore + factorScore * weight
  {
    var p := factors[..i + 1];
    assert p[..|p| - 1] == factors[..i] && p[|p| - 1] == factors[i];
    WeightedTotalStep(sys, p, custom);
    var f := p[|p| - 1];
    EqualProducts(EvaluateRiskFactor(sys, f), FactorWeight(f, custom), factorScore, weight);
    assert WeightedScoreTotal(sys, p[..|p| - 1], custom) == totalScore;
  }

  lemma EqualProducts(a: real, b: real, c: real, d: real)
    requires a == c && b == d
    ensures a * b == c * d
  {
  }

  lemma DimensionScoreOfTotals(sys: AiSystem, factors: seq<RiskFactor>, custom: Option<map<string, real>>,
                               totalScore: real, totalWeight: real)
    requires totalScore == WeightedScoreTotal(sys, factors, custom) && totalWeight == WeightTotal(factors, custom)
    ensures DimensionScore(sys, factors, custom) == if totalWeight > 0.0 then totalScore / totalWeight else 0.0
  {
  }

  lemma {:induction false} WeightedTotalBetween(sys: AiSystem, factors: seq<RiskFactor>, custom: Option<map<string, real>>)
    requires forall i :: 0 <= i < |factors| ==> FactorWeight(factors[i], custom) >= 0.0
    ensures 1.0 * WeightTotal(factors, custom) <= WeightedScoreTotal(sys, factors, custom)
                                               <= 5.0 * WeightTotal(factors, custom)
  {
    if factors != [] {
      var f, p := factors[|factors| - 1], factors[..|factors| - 1];
      assert forall i :: 0 <= i < |p| ==> p[i] == factors[i];
      WeightedTotalBetween(sys, p, custom);
      var s, w := EvaluateRiskFactor(sys, f), FactorWeight(f, custom);
      WeightedTotalStep(sys, factors, custom);
      BoundedSumStep(1.0, 5.0, WeightTotal(p, custom), WeightedScoreTotal(sys, p, custom), w, s,
                     WeightTotal(factors, custom), WeightedScoreTotal(sys, factors, custom));
    }
  }

  /** One more factor adds its weight, and its score times its weight. */
  lemma WeightedTotalStep(sys: AiSystem, factors: seq<RiskFactor>, custom: Option<map<string, real>>)
    requires factors != []
    ensures var f, p := factors[|factors| - 1], factors[..|factors| - 1];
      && WeightTotal(factors, custom) == WeightTotal(p, custom) + FactorWeight(f, custom)
      && WeightedScoreTotal(sys, factors, custom) == WeightedScoreTotal(sys, p, custom) + EvaluateRiskFactor(sys, f) * FactorWeight(f, custom)
  {
  }

  /** With non-negative weights and a positive total the dimension score is a
      weighted mean of factor scores, so it lies in [1, 5]; otherwise it is 0. */
  lemma DimensionScoreBounds(sys: AiSystem, factors: seq<RiskFactor>, custom: Option<map<string, real>>)
    requires forall i :: 0 <= i < |factors| ==> FactorWeight(factors[i], custom) >= 0.0
    ensures WeightTotal(factors, custom) > 0.0 ==> 1.0 <= DimensionScore(sys, factors, custom) <= 5.0
    ensures WeightTotal(factors, custom) <= 0.0 ==> DimensionScore(sys, factors, custom) == 0.0
  {
    if WeightTotal(factors, custom) > 0.0 {
      WeightedTotalBetween(sys, factors, custom);
      QuotientBounds(WeightedScoreTotal(sys, factors, custom), WeightTotal(factors, custom), 1.0, 5.0);
    }
  }

  // ---------------------------------------------------------------------------
  // Overall score

  /** Σ weight over the dimensions of `dims` that have a score. */
  function PresentWeight(scores: map<Dimension, real>, dims: seq<Dimension>): real {
    if dims == [] then 0.0
    else
      var d := dims[|dims| - 1];
      PresentWeight(scores, dims[..|dims| - 1]) + (if d in scores then DimensionWeight(d) else 0.0)
  }

  function PresentWeightedSum(scores: map<Dimension, real>, dims: seq<Dimension>): real {
    if dims == [] then 0.0
    else
      var d := dims[|dims| - 1];
      PresentWeightedSum(scores, dims[..|dims| - 1]) + (if d in scores then scores[d] * DimensionWeight(d) else 0.0)
  }

  function OverallScore(scores: map<Dimension, real>): real {
    var w := PresentWeight(scores, Dimensions);
    if w > 0.0 then PresentWeightedSum(scores, Dimensions) / w else 0.0
  }

  /** `_calculate_overall_score`: only dimensions present in `scores` count, in
      the numerator and in the denominator. */
  method CalculateOverallScore(scores: map<Dimension, real>) returns (overall: real)
    ensures overall == OverallScore(scores)
  {
    var totalScore, totalWeight := 0.0, 0.0;
    var i := 0;
    while i < |Dimensions|
      invariant 0 <= i <= |Dimensions|
      invariant totalScore == PresentWeightedSum(scores, Dimensions[..i])
      invariant totalWeight == PresentWeight(scores, Dimensions[..i])
    {
      var d := Dimensions[i];
      assert Dimensions[..i + 1][..i] == Dimensions[..i];
      if d in scores {
        totalScore := totalScore + scores[d] * DimensionWeight(d);
        totalWeight := totalWeight + DimensionWeight(d);
      }
      i := i + 1;
    }
    assert Dimensions[..i] == Dimensions;
    overall := if totalWeight > 0.0 then totalScore / totalWeight else 0.0;
  }

  lemma {:induction false} PresentSumsBetween(scores: map<Dimension, real>, dims: seq<Dimension>)
    requires forall d :: d in scores ==> 0.0 <= scores[d] <= 5.0
    ensures 0.0 <= PresentWeightedSum(scores, dims) <= 5.0 * PresentWeight(scores, dims)
  {
    if dims != [] {
      var d, p := dims[|dims| - 1], dims[..|dims| - 1];
      PresentSumsBetween(scores, p);
      var W, S := PresentWeight(scores, p), PresentWeightedSum(scores, p);
      PresentStep(scores, dims);
      if d in scores {
        BoundedSumStep(0.0, 5.0, W, S, DimensionWeight(d), scores[d],
                       PresentWeight(scores, dims), PresentWeightedSum(scores, dims));
      }
    }
  }

  /** One more dimension adds its weight and weighted score when it is present. */
  lemma PresentStep(scores: map<Dimension, real>, dims: seq<Dimension>)
    requires dims != []
    ensures var d, p := dims[|dims| - 1], dims[..|dims| - 1];
      && (d in scores ==> PresentWeight(scores, dims) == PresentWeight(scores, p) + DimensionWeight(d))
      && (d in scores ==> PresentWeightedSum(scores, dims) == PresentWeightedSum(scores, p) + scores[d] * DimensionWeight(d))
      && (d in scores ==> DimensionWeight(d) >= 0.0)
      && (d !in scores ==> PresentWeight(scores, dims) == PresentWeight(scores, p))
      && (d !in scores ==> PresentWeightedSum(scores, dims) == PresentWeightedSum(scores, p))
  {
  }

  lemma {:induction false} PresentWeightPositive(scores: map<Dimension, real>, dims: seq<Dimension>, i: nat)
    requires i < |dims| && dims[i] in scores
    ensures PresentWeight(scores, dims) > 0.0
  {
    var p := dims[..|dims| - 1];
    if i < |dims| - 1 {
      PresentWeightPositive(scores, p, i);
    }
    PresentWeightNonNegative(scores, p);
  }

  lemma {:induction false} PresentWeightNonNegative(scores: map<Dimension, real>, dims: seq<Dimension>)
    ensures PresentWeight(scores, dims) >= 0.0
  {
    if dims != [] {
      PresentWeightNonNegative(scores, dims[..|dims| - 1]);
    }
  }

  /** The overall score is a weighted mean of the dimension scores present: it is
      0.0 with none present, and like every dimension score it lies in [0, 5]. */
  lemma OverallScoreBounds(scores: map<Dimension, real>)
    requires forall d :: d in scores ==> 0.0 <= scores[d] <= 5.0
    ensures scores == map[] ==> OverallScore(scores) == 0.0
    ensures 0.0 <= OverallScore(scores) <= 5.0
  {
    PresentSumsBetween(scores, Dimensions);
    if scores != map[] {
      var d :| d in scores;
      PresentWeightPositive(scores, Dimensions, DimensionIndex(d));
      QuotientBounds(PresentWeightedSum(scores, Dimensions), PresentWeight(scores, Dimensions), 0.0, 5.0);
    } else {
      assert PresentWeight(scores, Dimensions) == 0.0 by {
        NothingPresent(scores, Dimensions);
      }
    }
  }

  lemma {:induction false} NothingPresent(scores: map<Dimension, real>, dims: seq<Dimension>)
    requires scores == map[]
    ensures PresentWeight(scores, dims) == 0.0
  {
    if dims != [] {
      NothingPresent(scores, dims[..|dims| - 1]);
    }
  }

  function DimensionIndex(d: Dimension): (i: nat)
    ensures i < |Dimensions| && Dimensions[i] == d
  {
    match d
    case Technical => 0
    case Operational => 1
    case Regulatory => 2
    case Ethical => 3
    case Business => 4
    case Security => 5
  }

  // ---------------------------------------------------------------------------
  // Risk level and confidence

  datatype RiskLevel = LowLevel | MediumLevel | HighLevel | CriticalLevel

  function LevelRank(l: RiskLevel): nat {
    match l
    case LowLevel => 0
    case MediumLevel => 1
    case HighLevel => 2
    case CriticalLevel => 3
  }

  /** `_determine_risk_level`: Critical at 4, High at 3, Medium at 2, else Low. */
  function DetermineRiskLevel(score: real): (l: RiskLevel)
    ensures l == CriticalLevel <==> score >= 4.0
    ensures l == HighLevel <==> 3.0 <= score < 4.0
    ensures l == MediumLevel <==> 2.0 <= score < 3.0
    ensures l == LowLevel <==> score < 2.0
  {
    if score >= 4.0 then CriticalLevel
    else if score >= 3.0 then HighLevel
    else if score >= 2.0 then MediumLevel
    else LowLevel
  }

  /** A higher score never gets a lower label. */
  lemma RiskLevelMonotone(a: real, b: real)
    requires a <= b
    ensures LevelRank(DetermineRiskLevel(a)) <= LevelRank(DetermineRiskLevel(b))
  {
  }

  /** The number of the five data-quality indicators present. */
  function DataQualityCount(sys: AiSystem): (n: nat)
    ensures n <= 5
  {
    (if sys.performanceMetrics.Some? then 1 else 0)
    + (if sys.complianceStatus.Some? then 1 else 0)
    + (if sys.humanOversight.Some? then 1 else 0)
    + (if sys.biasMetrics.Some? then 1 else 0)
    + (if |sys.dataTypes| > 0 then 1 else 0)
  }

  function Sum(s: seq<real>): real {
    if s == [] then 0.0 else Sum(s[..|s| - 1]) + s[|s| - 1]
  }

  function SquaredDeviations(s: seq<real>, mean: real): real {
    if s == [] then 0.0 else SquaredDeviations(s[..|s| - 1], mean) + (s[|s| - 1] - mean) * (s[|s| - 1] - mean)
  }

  /** Population variance (`np.var`), computed exactly. */
  function Variance(s: seq<real>): real
    requires s != []
  {
    SquaredDeviations(s, Sum(s) / |s| as real) / |s| as real
  }

  lemma {:induction false} SquaredDeviationsNonNegative(s: seq<real>, mean: real)
    ensures SquaredDeviations(s, mean) >= 0.0
  {
    if s != [] {
      SquaredDeviationsNonNegative(s[..|s| - 1], mean);
      var d := s[|s| - 1] - mean;
      if d < 0.0 {
        assert d * d == (-d) * (-d);
      }
      assert d * d >= 0.0;
    }
  }

  /** The dimension scores in dimension order (the values of the score dictionary). */
  function ValuesIn(scores: map<Dimension, real>, dims: seq<Dimension>): seq<real> {
    if dims == [] then []
    else (if dims[0] in scores then [scores[dims[0]]] else []) + ValuesIn(scores, dims[1..])
  }

  /** `_calculate_confidence`: the share of indicators present, scaled down by
      dispersion of the dimension scores, clamped to [0.3, 1.0]. */
  function CalculateConfidence(sys: AiSystem, scores: map<Dimension, real>): (c: real)
    ensures 0.3 <= c <= 1.0
    ensures DataQualityCount(sys) <= 1 ==> c == 0.3
    ensures (DataQualityCount(sys) == 5 && |ValuesIn(scores, Dimensions)| > 1
             && Variance(ValuesIn(scores, Dimensions)) == 0.0) ==> c == 1.0
  {
    var base := DataQualityCount(sys) as real / 5.0;
    var values := ValuesIn(scores, Dimensions);
    var adjusted :=
      if |values| > 1 then
        var v := Variance(values);
        SquaredDeviationsNonNegative(values, Sum(values) / |values| as real);
        var consistency := if 0.5 < 1.0 - v / 5.0 then 1.0 - v / 5.0 else 0.5;
        assert 0.5 <= consistency <= 1.0;
        base * consistency
      else base;
    Clamp(adjusted, 0.3, 1.0)
  }

  // ---------------------------------------------------------------------------
  // The assessment

  /** The factors of the given dimensions, dimension after dimension. */
  function FactorsIn(dims: seq<Dimension>): seq<RiskFactor> {
    if dims == [] then [] else FactorsIn(dims[..|dims| - 1]) + FactorsOf(dims[|dims| - 1])
  }

  /** The names of the factors scoring at least 4.0, in order. */
  function CriticalIn(sys: AiSystem, factors: seq<RiskFactor>): seq<string> {
    if factors == [] then []
    else
      var f := factors[|factors| - 1];
      CriticalIn(sys, factors[..|factors| - 1]) + (if EvaluateRiskFactor(sys, f) >= 4.0 then [f.name] else [])
  }

  function CriticalNames(sys: AiSystem, dims: seq<Dimension>): seq<string> {
    if dims == [] then [] else CriticalNames(sys, dims[..|dims| - 1]) + CriticalIn(sys, FactorsOf(dims[|dims| - 1]))
  }

  datatype RiskScore = RiskScore(
    overallScore: real,
    riskLevel: RiskLevel,
    dimensionScores: map<Dimension, real>,
    criticalFactors: seq<string>,
    riskFactors: seq<RiskFactor>,
    confidenceLevel: real,
    assessmentDate: string)

  /** The inner loop of `assess_ai_system_risk`: append the names of the
      critical factors and every factor. */
  method ScanFactors(sys: AiSystem, factors: seq<RiskFactor>, critical: seq<string>, all: seq<RiskFactor>)
    returns (critical': seq<string>, all': seq<RiskFactor>)
    ensures critical' == critical + CriticalIn(sys, factors)
    ensures all' == all + factors
  {
    critical', all' := critical, all;
    var j := 0;
    while j < |factors|
      invariant 0 <= j <= |factors|
      invariant critical' == critical + CriticalIn(sys, factors[..j])
      invariant all' == all + factors[..j]
    {
      var factorScore := EvaluateRiskFactor(sys, factors[j]);
      assert factors[..j + 1][..j] == factors[..j];
      if factorScore >= 4.0 {
        critical' := critical' + [factors[j].name];
      }
      all' := all' + [factors[j]];
      j := j + 1;
    }
    assert factors[..j] == factors;
  }

  /** The dimension scores of the dimensions in `dims`. */
  function ScoresOver(sys: AiSystem, dims: seq<Dimension>, custom: Option<map<string, real>>): map<Dimension, real> {
    map d | d in dims :: DimensionScore(sys, FactorsOf(d), custom)
  }

  /** Every dimension is scored by its own factors. */
  lemma AllDimensionsScored(sys: AiSystem, custom: Option<map<string, real>>)
    ensures forall d :: d in ScoresOver(sys, Dimensions, custom)
              && ScoresOver(sys, Dimensions, custom)[d] == DimensionScore(sys, FactorsOf(d), custom)
  {
    forall d ensures d in Dimensions {
      assert Dimensions[DimensionIndex(d)] == d;
    }
  }

  /** `assess_ai_system_risk`; `assessmentDate` stands for `datetime.now()`. */
  method AssessAiSystemRisk(sys: AiSystem, custom: Option<map<string, real>>, assessmentDate: string)
    returns (r: RiskScore)
    ensures r.dimensionScores == ScoresOver(sys, Dimensions, custom)
    ensures r.criticalFactors == CriticalNames(sys, Dimensions)
    ensures r.riskFactors == FactorsIn(Dimensions)
    ensures r.overallScore == OverallScore(r.dimensionScores)
    ensures r.riskLevel == DetermineRiskLevel(r.overallScore)
    ensures r.confidenceLevel == CalculateConfidence(sys, r.dimensionScores)
    ensures r.assessmentDate == assessmentDate
  {
    var dimensionScores, criticalFactors, allRiskFactors := ScoreDimensions(sys, custom);
    var overallScore := CalculateOverallScore(dimensionScores);
    r := RiskScore(overallScore, DetermineRiskLevel(overallScore), dimensionScores, criticalFactors,
                   allRiskFactors, CalculateConfidence(sys, dimensionScores), assessmentDate);
  }

  /** The loop of `assess_ai_system_risk` over the dimensions: each dimension's
      score, the critical factor names and every factor, in dimension order. */
  method ScoreDimensions(sys: AiSystem, custom: Option<map<string, real>>)
    returns (dimensionScores: map<Dimension, real>, criticalFactors: seq<string>, allRiskFactors: seq<RiskFactor>)
    ensures dimensionScores == ScoresOver(sys, Dimensions, custom)
    ensures criticalFactors == CriticalNames(sys, Dimensions)
    ensures allRiskFactors == FactorsIn(Dimensions)
  {
    dimensionScores, criticalFactors, allRiskFactors := map[], [], [];
    var i := 0;
    assert Dimensions[..0] == [];
    while i < |Dimensions|
      invariant 0 <= i <= |Dimensions|
      invariant dimensionScores == ScoresOver(sys, Dimensions[..i], custom)
      invariant criticalFactors == CriticalNames(sys, Dimensions[..i])
      invariant allRiskFactors == FactorsIn(Dimensions[..i])
    {
      var dimension := Dimensions[i];
      var factors := FactorsOf(dimension);
      var dimensionScore := CalculateDimensionScore(sys, factors, custom);
      dimensionScores := dimensionScores[dimension := dimensionScore];
      DimensionsStep(sys, i, custom);
      criticalFactors, allRiskFactors := ScanFactors(sys, factors, criticalFactors, allRiskFactors);
      i := i + 1;
    }
    assert Dimensions[..i] == Dimensions;
  }

  lemma DimensionsStep(sys: AiSystem, i: nat, custom: Option<map<string, real>>)
    requires i < |Dimensions|
    ensures ScoresOver(sys, Dimensions[..i + 1], custom)
         == ScoresOver(sys, Dimensions[..i], custom)[Dimensions[i] := DimensionScore(sys, FactorsOf(Dimensions[i]), custom)]
    ensures CriticalNames(sys, Dimensions[..i + 1]) == CriticalNames(sys, Dimensions[..i]) + CriticalIn(sys, FactorsOf(Dimensions[i]))
    ensures FactorsIn(Dimensions[..i + 1]) == FactorsIn(Dimensions[..i]) + FactorsOf(Dimensions[i])
  {
    assert Dimensions[..i + 1][..i] == Dimensions[..i];
    assert Dimensions[..i + 1] == Dimensions[..i] + [Dimensions[i]];
  }

  lemma {:induction false} CriticalInIff(sys: AiSystem, factors: seq<RiskFactor>, name: string)
    ensures name in CriticalIn(sys, factors)
        <==> exists i :: 0 <= i < |factors| && factors[i].name == name && EvaluateRiskFactor(sys, factors[i]) >= 4.0
  {
    if factors != [] {
      var p, f := factors[..|factors| - 1], factors[|factors| - 1];
      CriticalInIff(sys, p, name);
      var critical := EvaluateRiskFactor(sys, f) >= 4.0;
      assert CriticalIn(sys, factors) == CriticalIn(sys, p) + (if critical then [f.name] else []);
      assert forall i :: 0 <= i < |p| ==> factors[i] == p[i];
    }
  }

  /** A name is listed as critical exactly when a factor of the assessment with
      that name scores at least 4.0. */
  lemma {:induction false} CriticalNamesIff(sys: AiSystem, dims: seq<Dimension>, name: string)
    ensures name in CriticalNames(sys, dims)
        <==> exists f :: f in FactorsIn(dims) && f.name == name && EvaluateRiskFactor(sys, f) >= 4.0
  {
    if dims != [] {
      var p, fs := dims[..|dims| - 1], FactorsOf(dims[|dims| - 1]);
      CriticalNamesIff(sys, p, name);
      CriticalInIff(sys, fs, name);
      assert FactorsIn(dims) == FactorsIn(p) + fs;
      if exists f :: f in FactorsIn(dims) && f.name == name && EvaluateRiskFactor(sys, f) >= 4.0 {
        var f :| f in FactorsIn(dims) && f.name == name && EvaluateRiskFactor(sys, f) >= 4.0;
        if f !in FactorsIn(p) {
          var i :| 0 <= i < |fs| && fs[i] == f;
        }
      }
    }
  }

  // ---------------------------------------------------------------------------
  // Mitigation priorities

  type Item = (Dimension, real)

  function ScoreOf(item: Item): real {
    item.1
  }

  function AtLeast(a: real, b: real): bool {
    a >= b
  }

  lemma AtLeastTotalPreorder()
    ensures TotalPreorder(AtLeast)
  {
  }

  /** `dimension_scores.items()` in insertion (dimension) order. */
  function ItemsIn(scores: map<Dimension, real>, dims: seq<Dimension>): (items: seq<Item>)
    ensures forall x :: x in items ==> x.0 in scores && scores[x.0] == x.1
  {
    if dims == [] then []
    else (if dims[0] in scores then [(dims[0], scores[dims[0]])] else []) + ItemsIn(scores, dims[1..])
  }

  function KeepAtLeastThree(items: seq<Item>): (r: seq<Item>)
    ensures |r| <= |items|
    ensures forall x :: x in r <==> x in items && x.1 >= 3.0
  {
    if items == [] then []
    else (if items[0].1 >= 3.0 then [items[0]] else []) + KeepAtLeastThree(items[1..])
  }

  lemma {:induction false} KeepAllAtLeastThree(items: seq<Item>)
    requires forall i :: 0 <= i < |items| ==> items[i].1 >= 3.0
    ensures KeepAtLeastThree(items) == items
  {
    if items != [] {
      KeepAllAtLeastThree(items[1..]);
    }
  }

  /** The first three items (all of them when there are fewer). */
  function TopThree(ranked: seq<Item>): (top: seq<Item>)
    ensures |top| == if |ranked| < 3 then |ranked| else 3
  {
    ranked[..if |ranked| < 3 then |ranked| else 3]
  }

  /** `_prioritize_mitigations`: the three highest-scoring dimensions (stable on
      ties), of which those scoring at least 3.0. */
  function PrioritizeMitigations(scores: map<Dimension, real>): seq<Item> {
    var ranked := SortBy(ItemsIn(scores, Dimensions), ScoreOf, AtLeast);
    KeepAtLeastThree(TopThree(ranked))
  }

  /** In a list ranked by score, an item scoring at least 3.0 that is not kept
      sits below three kept items that score at least as much. */
  lemma LeftOutIsOutranked(ranked: seq<Item>, x: Item)
    requires SortedBy(ranked, ScoreOf, AtLeast)
    requires x in ranked && x.1 >= 3.0 && x !in KeepAtLeastThree(TopThree(ranked))
    ensures var r := KeepAtLeastThree(TopThree(ranked));
            |r| == 3 && forall y :: y in r ==> y.1 >= x.1
  {
    var top := TopThree(ranked);
    var j :| 0 <= j < |ranked| && ranked[j] == x;
    assert j >= 3;
    forall k | 0 <= k < 3 ensures top[k].1 >= x.1 {
      assert AtLeast(ScoreOf(ranked[k]), ScoreOf(ranked[j]));
    }
    KeepAllAtLeastThree(top);
  }

  /** Filtering a list ranked by score keeps a prefix of it: once a score falls
      below 3.0, every later one does too. */
  lemma {:induction false} KeepSortedPrefix(s: seq<Item>)
    requires SortedBy(s, ScoreOf, AtLeast)
    ensures KeepAtLeastThree(s) == s[..|KeepAtLeastThree(s)|]
  {
    if s != [] {
      var rest := s[1..];
      SortedRest(s);
      KeepSortedPrefix(rest);
      if s[0].1 >= 3.0 {
        ConsPrefix(s, |KeepAtLeastThree(rest)|);
      } else {
        KeepNoneBelowThree(rest);
      }
    }
  }

  lemma ConsPrefix(s: seq<Item>, m: nat)
    requires m < |s|
    ensures [s[0]] + s[1..][..m] == s[..m + 1]
  {
  }

  /** The tail of a ranked list is ranked, and when the head scores below 3.0 so
      does every later item. */
  lemma SortedRest(s: seq<Item>)
    requires s != [] && SortedBy(s, ScoreOf, AtLeast)
    ensures SortedBy(s[1..], ScoreOf, AtLeast)
    ensures s[0].1 < 3.0 ==> forall j :: 0 <= j < |s[1..]| ==> s[1..][j].1 < 3.0
  {
    var rest := s[1..];
    forall i, j | 0 <= i < j < |rest| ensures AtLeast(ScoreOf(rest[i]), ScoreOf(rest[j])) {
      assert rest[i] == s[i + 1] && rest[j] == s[j + 1];
    }
    forall j | 0 <= j < |rest| ensures s[0].1 >= rest[j].1 {
      assert AtLeast(ScoreOf(s[0]), ScoreOf(s[j + 1]));
    }
  }

  /** Nothing is kept when every score is below 3.0. */
  lemma {:induction false} KeepNoneBelowThree(items: seq<Item>)
    requires forall j :: 0 <= j < |items| ==> items[j].1 < 3.0
    ensures KeepAtLeastThree(items) == []
  {
    if items != [] {
      KeepNoneBelowThree(items[1..]);
    }
  }

  /** Ranking then keeping the top three scoring at least 3.0 leaves a prefix of
      the ranking. */
  lemma PrioritiesPrefix(items: seq<Item>)
    ensures var ranked := SortBy(items, ScoreOf, AtLeast);
            var r := KeepAtLeastThree(TopThree(ranked));
            SortedBy(ranked, ScoreOf, AtLeast) && r == ranked[..|r|]
  {
    var ranked := SortBy(items, ScoreOf, AtLeast);
    var top := TopThree(ranked);
    AtLeastTotalPreorder();
    SortBySorted(items, ScoreOf, AtLeast);
    assert SortedBy(top, ScoreOf, AtLeast);
    KeepSortedPrefix(top);
  }

  /** The items of one score in a prefix of the ranking come in the order the
      unranked items had (ranking is stable). */
  lemma RankedPrefixKeyClass(items: seq<Item>, n: nat, v: real)
    requires n <= |SortBy(items, ScoreOf, AtLeast)|
    ensures var ranked := SortBy(items, ScoreOf, AtLeast);
            KeyClass(ranked[..n], ScoreOf, AtLeast, v) <= KeyClass(items, ScoreOf, AtLeast, v)
  {
    var ranked := SortBy(items, ScoreOf, AtLeast);
    assert ranked == ranked[..n] + ranked[n..];
    KeyClassAppend(ranked[..n], ranked[n..], ScoreOf, AtLeast, v);
    AtLeastTotalPreorder();
    SortByStable(items, ScoreOf, AtLeast, v);
  }

  /** The kept items of a ranked list, highest score first, with equal scores in
      the order the unranked items had. */
  lemma PrioritiesOrdered(items: seq<Item>)
    ensures var r := KeepAtLeastThree(TopThree(SortBy(items, ScoreOf, AtLeast)));
            && (forall i, j :: 0 <= i < j < |r| ==> r[i].1 >= r[j].1)
            && (forall v: real :: KeyClass(r, ScoreOf, AtLeast, v) <= KeyClass(items, ScoreOf, AtLeast, v))
  {
    var ranked := SortBy(items, ScoreOf, AtLeast);
    var r := KeepAtLeastThree(TopThree(ranked));
    PrioritiesPrefix(items);
    forall i, j | 0 <= i < j < |r| ensures r[i].1 >= r[j].1 {
      assert AtLeast(ScoreOf(ranked[i]), ScoreOf(ranked[j]));
    }
    forall v: real ensures KeyClass(r, ScoreOf, AtLeast, v) <= KeyClass(items, ScoreOf, AtLeast, v) {
      RankedPrefixKeyClass(items, |r|, v);
    }
  }

  /** The priorities, highest score first: at most three, each a dimension scoring
      at least 3.0 with its own score; equal scores keep dimension order (the
      items of one score are listed as a prefix of that score's dimensions); and a
      dimension scoring at least 3.0 that is left out is outranked by three listed
      ones. */
  lemma PrioritizeMitigationsFacts(scores: map<Dimension, real>)
    ensures var r := PrioritizeMitigations(scores);
            && |r| <= 3
            && (forall x :: x in r ==> x.1 >= 3.0 && x.0 in scores && scores[x.0] == x.1)
            && (forall i, j :: 0 <= i < j < |r| ==> r[i].1 >= r[j].1)
            && (forall v: real :: KeyClass(r, ScoreOf, AtLeast, v) <= KeyClass(ItemsIn(scores, Dimensions), ScoreOf, AtLeast, v))
            && (forall x :: x in ItemsIn(scores, Dimensions) && x !in r && x.1 >= 3.0
                  ==> |r| == 3 && forall y :: y in r ==> y.1 >= x.1)
  {
    var items := ItemsIn(scores, Dimensions);
    var ranked := SortBy(items, ScoreOf, AtLeast);
    var r := KeepAtLeastThree(TopThree(ranked));
    PrioritiesOrdered(items);
    assert multiset(ranked) == multiset(items);
    forall x | x in r ensures x.0 in scores && scores[x.0] == x.1 {
      assert x in multiset(items);
    }
    forall x | x in items && x !in r && x.1 >= 3.0
      ensures |r| == 3 && forall y :: y in r ==> y.1 >= x.1
    {
      AtLeastTotalPreorder();
      SortBySorted(items, ScoreOf, AtLeast);
      assert x in multiset(ranked);
      LeftOutIsOutranked(ranked, x);
    }
  }
}
