/** The GDPR compliance checker for AI systems: nine principles scored from
    configuration flags, a legal-basis check, the status of six data-subject rights,
    a status band, a point-based risk level, recommendations and action items. */
module GdprCompliance {
  import opened Wrappers
  import opened Means

  datatype Principle =
    | Lawfulness | Fairness | Transparency | PurposeLimitation | DataMinimisation | Accuracy
    | StorageLimitation | Security | Accountability

  /** The principles in declaration order, the order the assessment visits them. */
  const Principles: seq<Principle> := [Lawfulness, Fairness, Transparency, PurposeLimitation, DataMinimisation,
                                       Accuracy, StorageLimitation, Security, Accountability]

  function PrincipleValue(p: Principle): string {
    match p
    case Lawfulness => "lawfulness"
    case Fairness => "fairness"
    case Transparency => "transparency"
    case PurposeLimitation => "purpose_limitation"
    case DataMinimisation => "data_minimisation"
    case Accuracy => "accuracy"
    case StorageLimitation => "storage_limitation"
    case Security => "security"
    case Accountability => "accountability"
  }

  /** The six principles with an entry in the principles table. */
  predicate HasCriteria(p: Principle) {
    !(p == StorageLimitation || p == Security || p == Accountability)
  }

  /** The `assessment_criteria` weights of a principle, in table order. */
  function Weights(p: Principle): (w: seq<real>)
    requires HasCriteria(p)
    ensures |w| == (if p == PurposeLimitation || p == DataMinimisation then 3 else 4)
  {
    match p
    case Lawfulness => [30.0, 25.0, 25.0, 20.0]
    case Fairness => [35.0, 30.0, 25.0, 10.0]
    case Transparency => [30.0, 35.0, 25.0, 10.0]
    case PurposeLimitation => [40.0, 35.0, 25.0]
    case DataMinimisation => [40.0, 35.0, 25.0]
    case Accuracy => [35.0, 30.0, 25.0, 10.0]
  }

  function Sum(s: seq<real>): real {
    if s == [] then 0.0 else Sum(s[..|s| - 1]) + s[|s| - 1]
  }

  lemma SumStep(s: seq<real>, k: nat)
    requires k < |s|
    ensures Sum(s[..k + 1]) == Sum(s[..k]) + s[k]
  {
    assert s[..k + 1][..k] == s[..k];
  }

  /** Every table entry's weights sum to 100. */
  lemma WeightsSumTo100(p: Principle)
    requires HasCriteria(p)
    ensures Sum(Weights(p)) == 100.0
  {
    var w := Weights(p);
    assert w[..0] == [] && w[..|w|] == w;
    SumStep(w, 0);
    SumStep(w, 1);
    SumStep(w, 2);
    if |w| == 4 {
      SumStep(w, 3);
    }
  }

  /** A right's `implemented` and `planned` keys; an absent key counts as false. */
  datatype RightFeatures = RightFeatures(implemented: bool, planned: bool)

  /** The configuration keys the checker reads. `legalBasis` is "" when the key is
      absent; an absent boolean key is false. `consentFreelyGiven` is
      `consent_mechanism.freely_given`. */
  datatype GdprConfig = GdprConfig(
    legalBasis: string, legalDocumentation: bool, privacyNotice: bool,
    biasTesting: bool, fairnessMonitoring: bool, discriminationControls: bool,
    explainableAi: bool, decisionLogicDocs: bool, gdprCompliant: bool,
    dataTypes: seq<string>, consentFreelyGiven: bool, dataSubjectRights: map<string, RightFeatures>,
    automatedDecisionMaking: bool, specialCategoryData: bool, largeScaleProcessing: bool, publicAccess: bool)

  function Pick(flag: bool, whenSet: real, whenUnset: real): real {
    if flag then whenSet else whenUnset
  }

  /** The score `_assess_principle_compliance` computes before clamping: weighted sub-
      scores for the first three principles (the legal-basis sub-score enters
      lawfulness twice, under `legal_basis_identified` and `basis_appropriateness`),
      70 or 45 on `gdpr_compliant` for the others. */
  function RawScore(p: Principle, c: GdprConfig): real {
    match p
    case Lawfulness =>
      var w := Weights(p);
      var legalBasis := Pick(c.legalBasis != "", 85.0, 20.0);
      (legalBasis * w[0] + legalBasis * w[1] + Pick(c.legalDocumentation, 80.0, 30.0) * w[2]
       + Pick(c.privacyNotice, 75.0, 25.0) * w[3]) / 100.0
    case Fairness =>
      var w := Weights(p);
      (Pick(c.biasTesting, 90.0, 10.0) * w[0] + Pick(c.fairnessMonitoring, 85.0, 15.0) * w[1]
       + Pick(c.discriminationControls, 80.0, 20.0) * w[2] + 70.0 * w[3]) / 100.0
    case Transparency =>
      var w := Weights(p);
      (Pick(c.privacyNotice, 85.0, 25.0) * w[0] + Pick(c.explainableAi, 70.0, 30.0) * w[1]
       + Pick(c.decisionLogicDocs, 75.0, 35.0) * w[2] + 80.0 * w[3]) / 100.0
    case _ => Pick(c.gdprCompliant, 70.0, 45.0)
  }

  /** Lawfulness weighs the legal-basis sub-score 55 in all (30 + 25); every raw score
      already lies in [0, 100], so the final clamp never changes it. */
  lemma RawScoreInRange(p: Principle, c: GdprConfig)
    ensures 0.0 <= RawScore(p, c) <= 100.0
    ensures Clamp(RawScore(p, c), 0.0, 100.0) == RawScore(p, c)
    ensures p == Lawfulness ==>
      RawScore(p, c) == (55.0 * Pick(c.legalBasis != "", 85.0, 20.0) + 25.0 * Pick(c.legalDocumentation, 80.0, 30.0)
                         + 20.0 * Pick(c.privacyNotice, 75.0, 25.0)) / 100.0
  {
  }

  /** `_assess_principle_compliance`: the table lookup comes first, so a principle
      without an entry raises `KeyError`; otherwise the clamped raw score. */
  function PrincipleScoreOf(p: Principle, c: GdprConfig): (r: Result<real>)
    ensures r.Success? <==> HasCriteria(p)
    ensures r.Success? ==> 0.0 <= r.value <= 100.0
    ensures r.Failure? ==> r.error == KeyError(PrincipleValue(p))
  {
    if !HasCriteria(p) then Failure(KeyError(PrincipleValue(p))) else Success(Clamp(RawScore(p, c), 0.0, 100.0))
  }

  /** The evidently intended scoring: a principle without table entry takes the
      simplified score of the `else` branch instead of failing. */
  function CorrectedPrincipleScore(p: Principle, c: GdprConfig): (r: real)
    ensures 0.0 <= r <= 100.0
    ensures PrincipleScoreOf(p, c).Success? ==> r == PrincipleScoreOf(p, c).value
    ensures !HasCriteria(p) ==> r == Pick(c.gdprCompliant, 70.0, 45.0)
  {
    Clamp(RawScore(p, c), 0.0, 100.0)
  }

  datatype PrincipleScore = PrincipleScore(principle: Principle, score: real)

  /** The loop of `assess_ai_system_compliance` over the principles: their scores in
      order, or the first lookup error. */
  function ScoresOf(ps: seq<Principle>, c: GdprConfig): (r: Result<seq<PrincipleScore>>)
    ensures r.Success? ==> |r.value| == |ps|
  {
    if ps == [] then Success([])
    else
      var done :- ScoresOf(ps[..|ps| - 1], c);
      var s :- PrincipleScoreOf(ps[|ps| - 1], c);
      Success(done + [PrincipleScore(ps[|ps| - 1], s)])
  }

  lemma ScoresOfStep(ps: seq<Principle>, i: nat, c: GdprConfig)
    requires i < |ps| && ScoresOf(ps[..i], c).Success?
    ensures var s := PrincipleScoreOf(ps[i], c);
      ScoresOf(ps[..i + 1], c)
        == if s.Success? then Success(ScoresOf(ps[..i], c).value + [PrincipleScore(ps[i], s.value)]) else Failure(s.error)
  {
    assert ps[..i + 1][..i] == ps[..i] && ps[..i + 1][i] == ps[i];
  }

  /** A failing prefix makes the whole loop fail with the same error. */
  lemma {:induction false} ScoresOfPrefixFailure(ps: seq<Principle>, n: nat, c: GdprConfig)
    requires n <= |ps| && ScoresOf(ps[..n], c).Failure?
    ensures ScoresOf(ps, c) == ScoresOf(ps[..n], c)
    decreases |ps| - n
  {
    if n < |ps| {
      assert ps[..n + 1][..n] == ps[..n];
      ScoresOfPrefixFailure(ps, n + 1, c);
    } else {
      assert ps[..n] == ps;
    }
  }

  // ---- Legal basis ----

  const ConsentValue := "consent"
  const LegitimateInterestsValue := "legitimate_interests"

  /** The data types that count as special-category data. */
  const SpecialCategories: seq<string> := ["health", "biometric", "genetic", "racial", "political"]

  predicate HasSpecialData(dataTypes: seq<string>) {
    exists k :: 0 <= k < |SpecialCategories| && SpecialCategories[k] in dataTypes
  }

  /** The outcomes of `_assess_legal_basis`; `BasisIdentified` carries the basis the
      message names in title case. */
  datatype LegalBasisStatus = NoLegalBasis | LegitimateInterestsInsufficient | ConsentQuestionable | BasisIdentified(basis: string)

  /** `_assess_legal_basis`: no basis first, then legitimate interests over special
      data, then consent not freely given; otherwise the basis is accepted. */
  function LegalBasisStatusOf(c: GdprConfig): (r: LegalBasisStatus)
    ensures r == NoLegalBasis <==> c.legalBasis == ""
    ensures r == LegitimateInterestsInsufficient <==> c.legalBasis == LegitimateInterestsValue && HasSpecialData(c.dataTypes)
    ensures r == ConsentQuestionable <==> c.legalBasis == ConsentValue && !c.consentFreelyGiven
    ensures r.BasisIdentified? ==> r.basis == c.legalBasis
  {
    if c.legalBasis == "" then NoLegalBasis
    else if HasSpecialData(c.dataTypes) && c.legalBasis == LegitimateInterestsValue then LegitimateInterestsInsufficient
    else if c.legalBasis == ConsentValue && !c.consentFreelyGiven then ConsentQuestionable
    else BasisIdentified(c.legalBasis)
  }

  /** The statuses marked ❌ or ⚠️. */
  predicate Flagged(s: LegalBasisStatus) {
    !s.BasisIdentified?
  }

  // ---- Data-subject rights ----

  datatype Right = Access | Rectification | Erasure | Portability | Object | AutomatedDecision

  const Rights: seq<Right> := [Access, Rectification, Erasure, Portability, Object, AutomatedDecision]

  function RightKey(r: Right): string {
    match r
    case Access => "access"
    case Rectification => "rectification"
    case Erasure => "erasure"
    case Portability => "portability"
    case Object => "object"
    case AutomatedDecision => "automated_decision"
  }

  datatype RightStatus = Implemented | Planned | PartiallyImplemented | NotImplemented

  function RightStatusOf(r: Right, features: map<string, RightFeatures>): RightStatus {
    if RightKey(r) !in features then NotImplemented
    else if features[RightKey(r)].implemented then Implemented
    else if features[RightKey(r)].planned then Planned
    else PartiallyImplemented
  }

  datatype RightEntry = RightEntry(right: Right, status: RightStatus)

  /** The rights-status dictionary, in the order of the rights table. */
  function RightsStatus(c: GdprConfig): seq<RightEntry> {
    seq(|Rights|, i requires 0 <= i < |Rights| => RightEntry(Rights[i], RightStatusOf(Rights[i], c.dataSubjectRights)))
  }

  /** The rights table lists every right exactly once. */
  lemma RightsTableComplete()
    ensures forall r: Right :: r in Rights
    ensures forall i, j :: 0 <= i < j < |Rights| ==> Rights[i] != Rights[j]
  {
    forall r: Right ensures r in Rights {
      match r
      case Access => assert Rights[0] == r;
      case Rectification => assert Rights[1] == r;
      case Erasure => assert Rights[2] == r;
      case Portability => assert Rights[3] == r;
      case Object => assert Rights[4] == r;
      case AutomatedDecision => assert Rights[5] == r;
    }
  }

  /** The status keys are exactly the six configured rights, each once in table
      order; a right is not implemented exactly when the configuration does not
      mention it. */
  lemma RightsStatusFacts(c: GdprConfig)
    ensures |RightsStatus(c)| == |Rights|
    ensures forall i :: 0 <= i < |Rights| ==> RightsStatus(c)[i].right == Rights[i]
    ensures forall i :: 0 <= i < |Rights| ==>
      (RightsStatus(c)[i].status == NotImplemented <==> RightKey(Rights[i]) !in c.dataSubjectRights)
  {
  }

  /** `_assess_data_subject_rights`, one right after another. */
  method AssessDataSubjectRights(c: GdprConfig) returns (rightsStatus: seq<RightEntry>)
    ensures rightsStatus == RightsStatus(c)
  {
    rightsStatus := [];
    for i := 0 to |Rights|
      invariant rightsStatus == RightsStatus(c)[..i]
    {
      var key := RightKey(Rights[i]);
      var status;
      if key in c.dataSubjectRights {
        if c.dataSubjectRights[key].implemented {
          status := Implemented;
        } else if c.dataSubjectRights[key].planned {
          status := Planned;
        } else {
          status := PartiallyImplemented;
        }
      } else {
        status := NotImplemented;
      }
      rightsStatus := rightsStatus + [RightEntry(Rights[i], status)];
    }
  }

  /** The rights marked ❌, in order. */
  function MissingRights(rs: seq<RightEntry>): (m: seq<Right>)
    ensures |m| <= |rs|
    ensures forall r :: r in m <==> RightEntry(r, NotImplemented) in rs
  {
    if rs == [] then []
    else MissingRights(rs[..|rs| - 1]) + (if rs[|rs| - 1].status == NotImplemented then [rs[|rs| - 1].right] else [])
  }

  // ---- Status and risk ----

  datatype GdprStatus = Excellent | Good | Acceptable | NeedsImprovement | NonCompliant

  /** `_determine_compliance_status` with the thresholds 90, 75, 60 and 40. */
  function StatusOf(score: real): (s: GdprStatus)
    ensures s == Excellent <==> score >= 90.0
    ensures s == Good <==> 75.0 <= score < 90.0
    ensures s == Acceptable <==> 60.0 <= score < 75.0
    ensures s == NeedsImprovement <==> 40.0 <= score < 60.0
    ensures s == NonCompliant <==> score < 40.0
  {
    if score >= 90.0 then Excellent
    else if score >= 75.0 then Good
    else if score >= 60.0 then Acceptable
    else if score >= 40.0 then NeedsImprovement
    else NonCompliant
  }

  function StatusRank(s: GdprStatus): nat {
    match s
    case NonCompliant => 0
    case NeedsImprovement => 1
    case Acceptable => 2
    case Good => 3
    case Excellent => 4
  }

  /** A higher score never gets a worse status. */
  lemma StatusMonotone(a: real, b: real)
    requires a <= b
    ensures StatusRank(StatusOf(a)) <= StatusRank(StatusOf(b))
  {
  }

  datatype GdprRisk = LowRisk | MediumRisk | HighRisk | VeryHighRisk

  /** The risk points: automated decisions 2, special-category data 2, large scale 1,
      public access 1 and a score below 60 another 2. */
  function RiskPoints(c: GdprConfig, score: real): (n: nat)
    ensures n <= 8
    ensures score < 60.0 ==> n >= 2
  {
    (if c.automatedDecisionMaking then 2 else 0) + (if c.specialCategoryData then 2 else 0)
    + (if c.largeScaleProcessing then 1 else 0) + (if c.publicAccess then 1 else 0)
    + (if score < 60.0 then 2 else 0)
  }

  function RiskLevelOf(points: nat): (r: GdprRisk)
    ensures r == VeryHighRisk <==> points >= 5
    ensures r == HighRisk <==> 3 <= points < 5
    ensures r == MediumRisk <==> 1 <= points < 3
    ensures r == LowRisk <==> points == 0
  {
    if points >= 5 then VeryHighRisk else if points >= 3 then HighRisk else if points >= 1 then MediumRisk else LowRisk
  }

  function RiskRank(r: GdprRisk): nat {
    match r
    case LowRisk => 0
    case MediumRisk => 1
    case HighRisk => 2
    case VeryHighRisk => 3
  }

  /** A lower score never lowers the risk level; a system scoring below 60 is at least
      Medium Risk, and with automated decisions over special-category data it is Very
      High Risk. */
  lemma RiskLevelFacts(c: GdprConfig, a: real, b: real)
    requires a <= b
    ensures RiskRank(RiskLevelOf(RiskPoints(c, b))) <= RiskRank(RiskLevelOf(RiskPoints(c, a)))
    ensures a < 60.0 ==> RiskLevelOf(RiskPoints(c, a)) != LowRisk
    ensures a < 60.0 && c.automatedDecisionMaking && c.specialCategoryData ==> RiskLevelOf(RiskPoints(c, a)) == VeryHighRisk
  {
  }

  /** `_assess_gdpr_risk_level`: the points counted one factor at a time. */
  method AssessGdprRiskLevel(c: GdprConfig, complianceScore: real) returns (level: GdprRisk)
    ensures level == RiskLevelOf(RiskPoints(c, complianceScore))
  {
    var riskFactors := 0;
    if c.automatedDecisionMaking {
      riskFactors := riskFactors + 2;
    }
    if c.specialCategoryData {
      riskFactors := riskFactors + 2;
    }
    if c.largeScaleProcessing {
      riskFactors := riskFactors + 1;
    }
    if c.publicAccess {
      riskFactors := riskFactors + 1;
    }
    if complianceScore < 60.0 {
      riskFactors := riskFactors + 2;
    }
    if riskFactors >= 5 {
      level := VeryHighRisk;
    } else if riskFactors >= 3 {
      level := HighRisk;
    } else if riskFactors >= 1 {
      level := MediumRisk;
    } else {
      level := LowRisk;
    }
  }

  // ---- Recommendations ----

  datatype Recommendation =
    | ImplementBiasTesting | EnhanceTransparency | StrengthenLegalDocumentation | ReviewDataMinimisation
    | ReviewLegalBasis | ImplementMissingRights(rights: seq<Right>) | ContinueMonitoring

  /** The recommendation for a principle scoring below 60; four principles have one. */
  function PrincipleRecommendation(p: Principle): Option<Recommendation> {
    match p
    case Fairness => Some(ImplementBiasTesting)
    case Transparency => Some(EnhanceTransparency)
    case Lawfulness => Some(StrengthenLegalDocumentation)
    case DataMinimisation => Some(ReviewDataMinimisation)
    case _ => None
  }

  function PrincipleRecommendations(scores: seq<PrincipleScore>): (r: seq<Recommendation>)
    ensures forall x :: x in r <==> exists i :: 0 <= i < |scores| && scores[i].score < 60.0
                                                && PrincipleRecommendation(scores[i].principle) == Some(x)
  {
    if scores == [] then []
    else
      var last := scores[|scores| - 1];
      var p := scores[..|scores| - 1];
      assert forall i :: 0 <= i < |p| ==> p[i] == scores[i];
      PrincipleRecommendations(p)
        + (if last.score < 60.0 && PrincipleRecommendation(last.principle).Some?
           then [PrincipleRecommendation(last.principle).value] else [])
  }

  /** `_generate_recommendations` before its fallback. */
  function FoundRecommendations(scores: seq<PrincipleScore>, legal: LegalBasisStatus, rights: seq<RightEntry>): seq<Recommendation> {
    PrincipleRecommendations(scores)
      + (if Flagged(legal) then [ReviewLegalBasis] else [])
      + (var m := MissingRights(rights); if m != [] then [ImplementMissingRights(m)] else [])
  }

  /** `_generate_recommendations`. */
  function Recommendations(scores: seq<PrincipleScore>, legal: LegalBasisStatus, rights: seq<RightEntry>): seq<Recommendation> {
    var found := FoundRecommendations(scores, legal, rights);
    if found == [] then [ContinueMonitoring] else found
  }

  /** "Continue monitoring" appears exactly when nothing else was recommended: no
      principle with a recommendation scores below 60, the legal basis is accepted
      and every right is at least partially implemented. */
  lemma ContinueMonitoringIffNothingElse(scores: seq<PrincipleScore>, legal: LegalBasisStatus, rights: seq<RightEntry>)
    ensures var r := Recommendations(scores, legal, rights);
      && (ContinueMonitoring in r <==> r == [ContinueMonitoring])
      && (r == [ContinueMonitoring] <==>
            && (forall i :: 0 <= i < |scores| && scores[i].score < 60.0 ==> PrincipleRecommendation(scores[i].principle).None?)
            && !Flagged(legal)
            && (forall r :: RightEntry(r, NotImplemented) !in rights))
  {
    var found := FoundRecommendations(scores, legal, rights);
    var pr := PrincipleRecommendations(scores);
    assert ContinueMonitoring !in pr;
    if found == [] {
      assert pr == [];
      forall i | 0 <= i < |scores| && scores[i].score < 60.0
        ensures PrincipleRecommendation(scores[i].principle).None?
      {
        assert forall x :: PrincipleRecommendation(scores[i].principle) != Some(x);
      }
      assert MissingRights(rights) == [];
    } else {
      assert ContinueMonitoring !in found;
      if pr == [] && !Flagged(legal) {
        var m := MissingRights(rights);
        assert m != [];
        assert RightEntry(m[0], NotImplemented) in rights;
      } else if pr != [] {
        var x := pr[0];
        assert x in pr;
      }
    }
  }

  /** `_generate_recommendations`, appending as it goes. */
  method GenerateRecommendations(scores: seq<PrincipleScore>, legal: LegalBasisStatus, rights: seq<RightEntry>)
    returns (recommendations: seq<Recommendation>)
    ensures recommendations == Recommendations(scores, legal, rights)
  {
    recommendations := [];
    for i := 0 to |scores|
      invariant recommendations == PrincipleRecommendations(scores[..i])
    {
      var rec := PrincipleRecommendation(scores[i].principle);
      if scores[i].score < 60.0 && rec.Some? {
        recommendations := recommendations + [rec.value];
      }
      assert scores[..i + 1][..i] == scores[..i];
    }
    assert scores[..|scores|] == scores;
    if Flagged(legal) {
      recommendations := recommendations + [ReviewLegalBasis];
    }
    var unimplemented := MissingRights(rights);
    if unimplemented != [] {
      recommendations := recommendations + [ImplementMissingRights(unimplemented)];
    }
    if recommendations == [] {
      recommendations := [ContinueMonitoring];
    }
  }

  // ---- Action items ----

  datatype Priority = PriorityCritical | PriorityHigh | PriorityMedium

  /** The action items; the texts, owners and efforts are functions of these. */
  datatype ActionItem = AddressPrincipleGaps(principle: Principle) | ImplementRights(count: nat) | MitigateRisk

  function ActionPriority(a: ActionItem): Priority {
    match a
    case AddressPrincipleGaps(_) => PriorityHigh
    case ImplementRights(_) => PriorityMedium
    case MitigateRisk => PriorityCritical
  }

  function ActionTimeline(a: ActionItem): string {
    match a
    case AddressPrincipleGaps(_) => "30 days"
    case ImplementRights(_) => "60 days"
    case MitigateRisk => "14 days"
  }

  /** One item per principle scoring below 50, in order. */
  function PrincipleActions(scores: seq<PrincipleScore>): seq<ActionItem> {
    if scores == [] then []
    else
      PrincipleActions(scores[..|scores| - 1])
        + (if scores[|scores| - 1].score < 50.0 then [AddressPrincipleGaps(scores[|scores| - 1].principle)] else [])
  }

  /** Every item is a gap item, and a principle gets one exactly when some entry
      scores it below 50. */
  lemma {:induction false} PrincipleActionsFacts(scores: seq<PrincipleScore>)
    ensures forall a :: a in PrincipleActions(scores) ==> a.AddressPrincipleGaps?
    ensures forall p :: AddressPrincipleGaps(p) in PrincipleActions(scores) <==>
      exists i :: 0 <= i < |scores| && scores[i].principle == p && scores[i].score < 50.0
  {
    if scores != [] {
      var init := scores[..|scores| - 1];
      PrincipleActionsFacts(init);
      assert forall i :: 0 <= i < |init| ==> init[i] == scores[i];
      forall p | AddressPrincipleGaps(p) in PrincipleActions(scores)
        ensures exists i :: 0 <= i < |scores| && scores[i].principle == p && scores[i].score < 50.0
      {
        if AddressPrincipleGaps(p) !in PrincipleActions(init) {
          assert scores[|scores| - 1].principle == p;
        }
      }
    }
  }

  /** "High Risk" is a substring of both the High and the Very High label. */
  predicate HighRiskLabel(level: GdprRisk) {
    level == HighRisk || level == VeryHighRisk
  }

  /** `_generate_action_items`. */
  function ActionItems(scores: seq<PrincipleScore>, rights: seq<RightEntry>, level: GdprRisk): seq<ActionItem> {
    PrincipleActions(scores)
      + (var m := MissingRights(rights); if m != [] then [ImplementRights(|m|)] else [])
      + (if HighRiskLabel(level) then [MitigateRisk] else [])
  }

  /** The HIGH items are exactly the gap items of the principles scoring below 50;
      there is a MEDIUM item, counting the missing rights, exactly when some right is
      missing; there is a CRITICAL item exactly at High or Very High risk. */
  lemma ActionItemsFacts(scores: seq<PrincipleScore>, rights: seq<RightEntry>, level: GdprRisk)
    ensures var items := ActionItems(scores, rights, level);
      && (forall a :: a in items && ActionPriority(a) == PriorityHigh <==> a in PrincipleActions(scores))
      && (ImplementRights(|MissingRights(rights)|) in items <==> exists r :: RightEntry(r, NotImplemented) in rights)
      && (forall a :: a in items && ActionPriority(a) == PriorityMedium ==> a == ImplementRights(|MissingRights(rights)|))
      && (MitigateRisk in items <==> HighRiskLabel(level))
  {
    PrincipleActionsFacts(scores);
    var m := MissingRights(rights);
    if exists r :: RightEntry(r, NotImplemented) in rights {
      var r :| RightEntry(r, NotImplemented) in rights;
      assert r in m;
    }
  }

  /** `_generate_action_items`, appending as it goes. */
  method GenerateActionItems(scores: seq<PrincipleScore>, rights: seq<RightEntry>, level: GdprRisk)
    returns (actionItems: seq<ActionItem>)
    ensures actionItems == ActionItems(scores, rights, level)
  {
    actionItems := [];
    for i := 0 to |scores|
      invariant actionItems == PrincipleActions(scores[..i])
    {
      if scores[i].score < 50.0 {
        actionItems := actionItems + [AddressPrincipleGaps(scores[i].principle)];
      }
      assert scores[..i + 1][..i] == scores[..i];
    }
    assert scores[..|scores|] == scores;
    var missing := MissingRights(rights);
    if missing != [] {
      actionItems := actionItems + [ImplementRights(|missing|)];
    }
    if level == HighRisk || level == VeryHighRisk {
      actionItems := actionItems + [MitigateRisk];
    }
  }

  // ---- The assessment ----

  datatype GdprAssessment = GdprAssessment(
    overallScore: real, status: GdprStatus, principleScores: seq<PrincipleScore>, legalBasisStatus: LegalBasisStatus,
    rightsStatus: seq<RightEntry>, riskLevel: GdprRisk, recommendations: seq<Recommendation>, actionItems: seq<ActionItem>)

  function ScoreTotal(scores: seq<PrincipleScore>): real {
    if scores == [] then 0.0 else ScoreTotal(scores[..|scores| - 1]) + scores[|scores| - 1].score
  }

  /** Everything after the principle loop: the total is divided by the nine
      principles of the enumeration. */
  function AssessmentFrom(scores: seq<PrincipleScore>, c: GdprConfig): GdprAssessment {
    var overall := ScoreTotal(scores) / |Principles| as real;
    var legal := LegalBasisStatusOf(c);
    var rights := RightsStatus(c);
    var level := RiskLevelOf(RiskPoints(c, overall));
    GdprAssessment(overall, StatusOf(overall), scores, legal, rights, level,
                   Recommendations(scores, legal, rights), ActionItems(scores, rights, level))
  }

  /** `assess_ai_system_compliance` as written. */
  function AssessAsWritten(c: GdprConfig): Result<GdprAssessment> {
    var scores :- ScoresOf(Principles, c);
    Success(AssessmentFrom(scores, c))
  }

  lemma {:induction false} ScoresOfSucceeds(ps: seq<Principle>, c: GdprConfig)
    requires forall i :: 0 <= i < |ps| ==> HasCriteria(ps[i])
    ensures ScoresOf(ps, c).Success?
  {
    if ps != [] {
      var p := ps[..|ps| - 1];
      assert forall i :: 0 <= i < |p| ==> p[i] == ps[i];
      ScoresOfSucceeds(p, c);
    }
  }

  /** The loop fails with the first principle that has no table entry. */
  lemma ScoresOfFirstFailure(ps: seq<Principle>, n: nat, c: GdprConfig)
    requires n < |ps| && (forall i :: 0 <= i < n ==> HasCriteria(ps[i])) && !HasCriteria(ps[n])
    ensures ScoresOf(ps, c) == Failure(KeyError(PrincipleValue(ps[n])))
  {
    assert forall i :: 0 <= i < n ==> ps[..n][i] == ps[i];
    ScoresOfSucceeds(ps[..n], c);
    ScoresOfStep(ps, n, c);
    ScoresOfPrefixFailure(ps, n + 1, c);
  }

  /** As written, the assessment never completes: the seventh principle,
      STORAGE_LIMITATION, has no table entry and its lookup raises `KeyError`. */
  lemma AsWrittenAlwaysFails(c: GdprConfig)
    ensures AssessAsWritten(c) == Failure(KeyError(PrincipleValue(StorageLimitation)))
  {
    ScoresOfFirstFailure(Principles, 6, c);
  }

  /** `assess_ai_system_compliance`: the principle loop, then the rest. */
  method AssessAiSystemCompliance(c: GdprConfig) returns (r: Result<GdprAssessment>)
    ensures r == AssessAsWritten(c)
  {
    var principleScores := [];
    var totalPrincipleScore := 0.0;
    for i := 0 to |Principles|
      invariant ScoresOf(Principles[..i], c) == Success(principleScores)
      invariant totalPrincipleScore == ScoreTotal(principleScores)
    {
      var score := PrincipleScoreOf(Principles[i], c);
      ScoresOfStep(Principles, i, c);
      if score.Failure? {
        ScoresOfPrefixFailure(Principles, i + 1, c);
        return Failure(score.error);
      }
      assert (principleScores + [PrincipleScore(Principles[i], score.value)])[..|principleScores|] == principleScores;
      principleScores := principleScores + [PrincipleScore(Principles[i], score.value)];
      totalPrincipleScore := totalPrincipleScore + score.value;
    }
    WholePrefix(Principles);
    var overallScore := totalPrincipleScore / |Principles| as real;
    var legalBasisStatus := LegalBasisStatusOf(c);
    var rightsStatus := AssessDataSubjectRights(c);
    var riskLevel := AssessGdprRiskLevel(c, overallScore);
    var recommendations := GenerateRecommendations(principleScores, legalBasisStatus, rightsStatus);
    var actionItems := GenerateActionItems(principleScores, rightsStatus, riskLevel);
    r := Success(GdprAssessment(overallScore, StatusOf(overallScore), principleScores, legalBasisStatus, rightsStatus,
                                riskLevel, recommendations, actionItems));
  }

  /** The corrected principle scores, all nine in order. */
  function CorrectedScores(c: GdprConfig): (s: seq<PrincipleScore>)
    ensures |s| == 9
    ensures forall i :: 0 <= i < 9 ==> s[i] == PrincipleScore(Principles[i], CorrectedPrincipleScore(Principles[i], c))
  {
    seq(9, i requires 0 <= i < 9 => PrincipleScore(Principles[i], CorrectedPrincipleScore(Principles[i], c)))
  }

  /** The evidently intended assessment, with every principle scored. */
  function CorrectedAssessment(c: GdprConfig): GdprAssessment {
    AssessmentFrom(CorrectedScores(c), c)
  }

  lemma {:induction false} ScoreTotalBetween(scores: seq<PrincipleScore>)
    requires forall i :: 0 <= i < |scores| ==> 0.0 <= scores[i].score <= 100.0
    ensures 0.0 <= ScoreTotal(scores) <= 100.0 * |scores| as real
  {
    if scores != [] {
      ScoreTotalBetween(scores[..|scores| - 1]);
    }
  }

  /** The corrected assessment scores all nine principles in order, keeps the six
      table scores unchanged, and its overall score is their mean, in [0, 100]. */
  lemma CorrectedAssessmentFacts(c: GdprConfig)
    ensures var a := CorrectedAssessment(c);
      && |a.principleScores| == 9
      && (forall i :: 0 <= i < 9 && HasCriteria(Principles[i]) ==>
            Success(a.principleScores[i].score) == PrincipleScoreOf(Principles[i], c))
      && a.overallScore == ScoreTotal(a.principleScores) / 9.0
      && 0.0 <= a.overallScore <= 100.0
  {
    var s := CorrectedScores(c);
    ScoreTotalBetween(s);
    QuotientBounds(ScoreTotal(s), 9.0, 0.0, 100.0);
  }
}
