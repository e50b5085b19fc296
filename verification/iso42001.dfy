/** The ISO/IEC 42001:2023 gap analyzer: a table of thirteen requirements (clauses
    4.1 to 10.1) whose statuses an assessment updates in place, category scores on a
    0 to 5 scale, a weighted overall score, a readiness band, the critical gaps, a
    four-phase roadmap and a timeline estimate. */
module Iso42001 {
  import opened Wrappers
  import opened Means

  datatype ComplianceStatus =
    FullyCompliant | SubstantiallyCompliant | PartiallyCompliant | NonCompliant | NotAssessed

  const FullyValue := "fully_compliant"
  const SubstantiallyValue := "substantially_compliant"
  const PartiallyValue := "partially_compliant"
  const NonValue := "non_compliant"
  const NotAssessedValue := "not_assessed"

  function StatusValue(s: ComplianceStatus): string {
    match s
    case FullyCompliant => FullyValue
    case SubstantiallyCompliant => SubstantiallyValue
    case PartiallyCompliant => PartiallyValue
    case NonCompliant => NonValue
    case NotAssessed => NotAssessedValue
  }

  /** `ComplianceStatus(v)`: the member whose value is `v`, or `ValueError`. */
  function ParseStatus(v: string): (r: Result<ComplianceStatus>)
    ensures r.Success? ==> StatusValue(r.value) == v
    ensures r.Failure? ==> r.error == ValueError(v)
  {
    if v == FullyValue then Success(FullyCompliant)
    else if v == SubstantiallyValue then Success(SubstantiallyCompliant)
    else if v == PartiallyValue then Success(PartiallyCompliant)
    else if v == NonValue then Success(NonCompliant)
    else if v == NotAssessedValue then Success(NotAssessed)
    else Failure(ValueError(v))
  }

  /** Every status value parses back to its status. */
  lemma ParseStatusValue(s: ComplianceStatus)
    ensures ParseStatus(StatusValue(s)) == Success(s)
  {
  }

  datatype Category = Context | Leadership | Planning | Support | Operation | Evaluation | Improvement

  const Categories: seq<Category> := [Context, Leadership, Planning, Support, Operation, Evaluation, Improvement]

  datatype Effort = LowEffort | MediumEffort | HighEffort | CriticalEffort

  /** The clauses of the standard the table covers; a requirement's id is its clause. */
  datatype Clause = C4_1 | C4_2 | C4_3 | C5_1 | C5_2 | C6_1 | C6_2 | C7_1 | C7_2 | C8_1 | C9_1 | C9_2 | C10_1

  function ClauseText(c: Clause): string {
    match c
    case C4_1 => "4.1"
    case C4_2 => "4.2"
    case C4_3 => "4.3"
    case C5_1 => "5.1"
    case C5_2 => "5.2"
    case C6_1 => "6.1"
    case C6_2 => "6.2"
    case C7_1 => "7.1"
    case C7_2 => "7.2"
    case C8_1 => "8.1"
    case C9_1 => "9.1"
    case C9_2 => "9.2"
    case C10_1 => "10.1"
  }

  function Title(c: Clause): string {
    match c
    case C4_1 => "Understanding the Organization and its Context"
    case C4_2 => "Understanding the Needs and Expectations of Interested Parties"
    case C4_3 => "Determining the Scope of the AI Management System"
    case C5_1 => "Leadership and Commitment"
    case C5_2 => "AI Policy"
    case C6_1 => "Actions to Address Risks and Opportunities"
    case C6_2 => "AI Objectives and Planning to Achieve Them"
    case C7_1 => "Resources"
    case C7_2 => "Competence"
    case C8_1 => "Operational Planning and Control"
    case C9_1 => "Monitoring, Measurement, Analysis and Evaluation"
    case C9_2 => "Internal Audit"
    case C10_1 => "Continual Improvement"
  }

  /** A requirement of the standard; descriptions and artifact lists are left out. */
  datatype Requirement = Requirement(
    clause: Clause, category: Category, status: ComplianceStatus, gapDescription: string,
    effort: Effort, dependencies: seq<Clause>)
  {
    function Id(): string {
      ClauseText(clause)
    }
  }

  function Req(clause: Clause, category: Category, effort: Effort, dependencies: seq<Clause>): Requirement {
    Requirement(clause, category, NotAssessed, "", effort, dependencies)
  }

  /** `_load_iso_42001_requirements`: every requirement starts NOT_ASSESSED. */
  const DefaultRequirements: seq<Requirement> := [
    Req(C4_1, Context, MediumEffort, []),
    Req(C4_2, Context, MediumEffort, [C4_1]),
    Req(C4_3, Context, HighEffort, [C4_1, C4_2]),
    Req(C5_1, Leadership, CriticalEffort, []),
    Req(C5_2, Leadership, HighEffort, [C5_1]),
    Req(C6_1, Planning, HighEffort, [C4_1, C4_2, C4_3]),
    Req(C6_2, Planning, MediumEffort, [C5_2, C6_1]),
    Req(C7_1, Support, HighEffort, [C6_2]),
    Req(C7_2, Support, MediumEffort, [C7_1]),
    Req(C8_1, Operation, CriticalEffort, [C6_1, C6_2, C7_1]),
    Req(C9_1, Evaluation, HighEffort, [C8_1]),
    Req(C9_2, Evaluation, MediumEffort, [C9_1]),
    Req(C10_1, Improvement, MediumEffort, [C9_1, C9_2])
  ]

  // ---- Updating the statuses from an assessment ----

  /** One entry of the assessment dictionary: its optional `status` and
      `gap_description` keys. */
  datatype RequirementAssessment = RequirementAssessment(status: Option<string>, gapDescription: Option<string>)

  /** The update of one requirement: unchanged unless its id is assessed; a missing
      status means NOT_ASSESSED and an unknown one raises `ValueError`. */
  function UpdateOne(req: Requirement, assessment: map<string, RequirementAssessment>): Result<Requirement> {
    if req.Id() !in assessment then Success(req)
    else
      var entry := assessment[req.Id()];
      var status :- ParseStatus(entry.status.GetOr(NotAssessedValue));
      Success(req.(status := status, gapDescription := entry.gapDescription.GetOr("")))
  }

  /** The requirement list after the loop, and the error that stopped it if any:
      requirements before the failing one keep their updates, the rest are untouched. */
  datatype Outcome = Outcome(requirements: seq<Requirement>, error: Option<Error>)

  function UpdateAll(reqs: seq<Requirement>, assessment: map<string, RequirementAssessment>): (o: Outcome)
    ensures |o.requirements| == |reqs|
  {
    if reqs == [] then Outcome([], None)
    else
      var o := UpdateAll(reqs[..|reqs| - 1], assessment);
      var last := reqs[|reqs| - 1];
      if o.error.Some? then Outcome(o.requirements + [last], o.error)
      else match UpdateOne(last, assessment)
        case Success(r) => Outcome(o.requirements + [r], None)
        case Failure(e) => Outcome(o.requirements + [last], Some(e))
  }

  /** Once an update has failed, the requirements after it are left as they were. */
  lemma {:induction false} UpdateAllAfterFailure(reqs: seq<Requirement>, n: nat, assessment: map<string, RequirementAssessment>)
    requires n <= |reqs| && UpdateAll(reqs[..n], assessment).error.Some?
    ensures UpdateAll(reqs, assessment) == Outcome(UpdateAll(reqs[..n], assessment).requirements + reqs[n..],
                                                   UpdateAll(reqs[..n], assessment).error)
    decreases |reqs| - n
  {
    if n < |reqs| {
      var o := UpdateAll(reqs[..n], assessment);
      assert reqs[..n + 1][..n] == reqs[..n];
      UpdateAllAfterFailure(reqs, n + 1, assessment);
      assert o.requirements + [reqs[n]] + reqs[n + 1..] == o.requirements + reqs[n..];
    } else {
      assert reqs[..n] == reqs;
    }
  }

  /** One more requirement of a loop that has not failed yet, updated successfully. */
  lemma UpdateKept(reqs: seq<Requirement>, i: nat, assessment: map<string, RequirementAssessment>, r: Requirement)
    requires i < |reqs| && UpdateAll(reqs[..i], assessment).error.None?
    requires UpdateOne(reqs[i], assessment) == Success(r)
    ensures UpdateAll(reqs[..i + 1], assessment).error.None?
    ensures (UpdateAll(reqs[..i], assessment).requirements + reqs[i..])[i := r]
         == UpdateAll(reqs[..i + 1], assessment).requirements + reqs[i + 1..]
  {
    var p := reqs[..i + 1];
    assert p[..|p| - 1] == reqs[..i] && p[|p| - 1] == reqs[i];
  }

  /** The first failing requirement ends the loop with the state it found. */
  lemma UpdateStopped(reqs: seq<Requirement>, i: nat, assessment: map<string, RequirementAssessment>)
    requires i < |reqs| && UpdateAll(reqs[..i], assessment).error.None?
    requires UpdateOne(reqs[i], assessment).Failure?
    ensures UpdateAll(reqs, assessment)
         == Outcome(UpdateAll(reqs[..i], assessment).requirements + reqs[i..], Some(UpdateOne(reqs[i], assessment).error))
  {
    var p := reqs[..i + 1];
    assert p[..|p| - 1] == reqs[..i] && p[|p| - 1] == reqs[i];
    UpdateAllAfterFailure(reqs, i + 1, assessment);
    assert reqs[i..] == [reqs[i]] + reqs[i + 1..];
  }

  predicate SameIdentity(a: Requirement, b: Requirement) {
    a.clause == b.clause && a.category == b.category && a.effort == b.effort && a.dependencies == b.dependencies
  }

  /** The update changes no requirement's identity, leaves unassessed ids as they were,
      and gives every assessed requirement the status its entry names (NOT_ASSESSED
      when the entry has none) unless an error stopped the loop at or before it. */
  lemma {:induction false} UpdateAllFacts(reqs: seq<Requirement>, assessment: map<string, RequirementAssessment>)
    ensures var o := UpdateAll(reqs, assessment);
      forall i :: 0 <= i < |reqs| ==>
        && SameIdentity(o.requirements[i], reqs[i])
        && (reqs[i].Id() !in assessment ==> o.requirements[i] == reqs[i])
        && (o.error.None? && reqs[i].Id() in assessment ==>
              Success(o.requirements[i].status)
                == ParseStatus(assessment[reqs[i].Id()].status.GetOr(NotAssessedValue)))
  {
    if reqs != [] {
      var p := reqs[..|reqs| - 1];
      UpdateAllFacts(p, assessment);
      UpdateAllExtends(reqs, assessment);
      UpdateAllLast(reqs, assessment);
      var o, q := UpdateAll(reqs, assessment), UpdateAll(p, assessment);
      forall i | 0 <= i < |p|
        ensures && SameIdentity(o.requirements[i], reqs[i])
                && (reqs[i].Id() !in assessment ==> o.requirements[i] == reqs[i])
                && (o.error.None? && reqs[i].Id() in assessment ==>
                      Success(o.requirements[i].status)
                        == ParseStatus(assessment[reqs[i].Id()].status.GetOr(NotAssessedValue)))
      {
        assert reqs[i] == p[i];
      }
    }
  }

  /** The loop keeps the requirements it has already passed, and an error stays. */
  lemma UpdateAllExtends(reqs: seq<Requirement>, assessment: map<string, RequirementAssessment>)
    requires reqs != []
    ensures var o, q := UpdateAll(reqs, assessment), UpdateAll(reqs[..|reqs| - 1], assessment);
            && o.requirements[..|reqs| - 1] == q.requirements
            && (q.error.Some? ==> o.error == q.error)
  {
    var q := UpdateAll(reqs[..|reqs| - 1], assessment);
    assert (q.requirements + [reqs[|reqs| - 1]])[..|reqs| - 1] == q.requirements;
  }

  /** The last requirement is updated by `UpdateOne` unless an earlier error stopped the loop. */
  lemma UpdateAllLast(reqs: seq<Requirement>, assessment: map<string, RequirementAssessment>)
    requires reqs != []
    ensures var o, n := UpdateAll(reqs, assessment), |reqs| - 1;
            && SameIdentity(o.requirements[n], reqs[n])
            && (reqs[n].Id() !in assessment ==> o.requirements[n] == reqs[n])
            && (o.error.None? && reqs[n].Id() in assessment ==>
                  Success(o.requirements[n].status)
                    == ParseStatus(assessment[reqs[n].Id()].status.GetOr(NotAssessedValue)))
  {
  }

  /** An unknown status string makes the update fail with `ValueError`. */
  lemma {:induction false} UnknownStatusFails(reqs: seq<Requirement>, assessment: map<string, RequirementAssessment>, i: nat)
    requires i < |reqs| && reqs[i].Id() in assessment
    requires ParseStatus(assessment[reqs[i].Id()].status.GetOr(NotAssessedValue)).Failure?
    ensures UpdateAll(reqs, assessment).error.Some?
  {
    var p := reqs[..i + 1];
    assert p[..|p| - 1] == reqs[..i] && p[|p| - 1] == reqs[i];
    UpdateAllAfterFailure(reqs, i + 1, assessment);
  }

  // ---- Scoring ----

  /** The `scoring_criteria` table. */
  function Points(s: ComplianceStatus): (p: real)
    ensures 0.0 <= p <= 5.0
  {
    match s
    case FullyCompliant => 5.0
    case SubstantiallyCompliant => 4.0
    case PartiallyCompliant => 3.0
    case NonCompliant => 1.0
    case NotAssessed => 0.0
  }

  function InCategory(reqs: seq<Requirement>, c: Category): (r: seq<Requirement>)
    ensures |r| <= |reqs|
    ensures forall x :: x in r ==> x in reqs && x.category == c
  {
    if reqs == [] then []
    else InCategory(reqs[..|reqs| - 1], c) + (if reqs[|reqs| - 1].category == c then [reqs[|reqs| - 1]] else [])
  }

  function PointsSum(reqs: seq<Requirement>): real {
    if reqs == [] then 0.0 else PointsSum(reqs[..|reqs| - 1]) + Points(reqs[|reqs| - 1].status)
  }

  lemma {:induction false} PointsSumBetween(reqs: seq<Requirement>)
    ensures 0.0 <= PointsSum(reqs) <= 5.0 * |reqs| as real
  {
    if reqs != [] {
      PointsSumBetween(reqs[..|reqs| - 1]);
    }
  }

  /** One category's score: its points as a fraction of the maximum, times 5; 0.0 for
      a category with no requirement. */
  function CategoryScore(reqs: seq<Requirement>, c: Category): real {
    var members := InCategory(reqs, c);
    if members == [] then 0.0
    else (PointsSum(members) / (|members| as real * 5.0)) * 5.0
  }

  /** Points `t` out of a maximum of `5 n`, scaled to 5, are the mean `t / n`. */
  lemma FractionOfMaximum(t: real, n: real)
    requires n > 0.0 && 0.0 <= t <= 5.0 * n
    ensures (t / (n * 5.0)) * 5.0 == t / n
    ensures 0.0 <= t / n <= 5.0
  {
    var q := t / (n * 5.0);
    assert q * (n * 5.0) == t;
    assert (q * 5.0) * n == t;
    QuotientBounds(t, n, 0.0, 5.0);
  }

  /** A category score is the mean of its requirements' points, so it lies in [0, 5]. */
  lemma CategoryScoreIsMean(reqs: seq<Requirement>, c: Category)
    ensures var members := InCategory(reqs, c);
      && (members != [] ==> CategoryScore(reqs, c) == PointsSum(members) / |members| as real)
      && 0.0 <= CategoryScore(reqs, c) <= 5.0
  {
    var members := InCategory(reqs, c);
    if members != [] {
      var n := |members| as real;
      var t := PointsSum(members);
      PointsSumBetween(members);
      FractionOfMaximum(t, n);
    }
  }

  /** `_calculate_category_scores`: one score per category. */
  function CategoryScores(reqs: seq<Requirement>): map<Category, real> {
    map c: Category | c in Categories :: CategoryScore(reqs, c)
  }

  lemma CategoriesComplete(c: Category)
    ensures c in Categories
  {
    match c
    case Context => assert Categories[0] == c;
    case Leadership => assert Categories[1] == c;
    case Planning => assert Categories[2] == c;
    case Support => assert Categories[3] == c;
    case Operation => assert Categories[4] == c;
    case Evaluation => assert Categories[5] == c;
    case Improvement => assert Categories[6] == c;
  }

  /** Every category gets a score, and every score lies in [0, 5]. */
  lemma CategoryScoresBounds(reqs: seq<Requirement>)
    ensures forall c :: c in CategoryScores(reqs) && 0.0 <= CategoryScores(reqs)[c] <= 5.0
  {
    forall c: Category ensures c in CategoryScores(reqs) && 0.0 <= CategoryScores(reqs)[c] <= 5.0 {
      CategoriesComplete(c);
      CategoryScoreIsMean(reqs, c);
    }
  }

  /** The weights of `_calculate_overall_compliance_score`, in its order. */
  function Weight(c: Category): real {
    match c
    case Leadership => 0.20
    case Operation => 0.25
    case Planning => 0.15
    case Context => 0.10
    case Support => 0.15
    case Evaluation => 0.10
    case Improvement => 0.05
  }

  const WeightOrder: seq<Category> := [Leadership, Operation, Planning, Context, Support, Evaluation, Improvement]

  function WeightTotal(cs: seq<Category>): real {
    if cs == [] then 0.0 else WeightTotal(cs[..|cs| - 1]) + Weight(cs[|cs| - 1])
  }

  /** The category weights sum to 1.00 and each category is weighted exactly once. */
  lemma WeightsSumToOne()
    ensures WeightTotal(WeightOrder) == 1.0
    ensures forall c :: c in WeightOrder
    ensures forall i, j :: 0 <= i < j < |WeightOrder| ==> WeightOrder[i] != WeightOrder[j]
  {
    var w := WeightOrder;
    assert WeightTotal(w[..1]) == 0.20 by { assert w[..1][..0] == []; }
    assert WeightTotal(w[..2]) == 0.45 by { assert w[..2][..1] == w[..1]; }
    assert WeightTotal(w[..3]) == 0.60 by { assert w[..3][..2] == w[..2]; }
    assert WeightTotal(w[..4]) == 0.70 by { assert w[..4][..3] == w[..3]; }
    assert WeightTotal(w[..5]) == 0.85 by { assert w[..5][..4] == w[..4]; }
    assert WeightTotal(w[..6]) == 0.95 by { assert w[..6][..5] == w[..5]; }
    assert w[..7][..6] == w[..6] && w[..7] == w;
    forall c: Category ensures c in w {
      match c
      case Leadership => assert w[0] == c;
      case Operation => assert w[1] == c;
      case Planning => assert w[2] == c;
      case Context => assert w[3] == c;
      case Support => assert w[4] == c;
      case Evaluation => assert w[5] == c;
      case Improvement => assert w[6] == c;
    }
  }

  /** `scores.get(category, 0)`. */
  function ScoreOr0(scores: map<Category, real>, c: Category): real {
    if c in scores then scores[c] else 0.0
  }

  function WeightedSum(cs: seq<Category>, scores: map<Category, real>): real {
    if cs == [] then 0.0 else WeightedSum(cs[..|cs| - 1], scores) + ScoreOr0(scores, cs[|cs| - 1]) * Weight(cs[|cs| - 1])
  }

  lemma {:induction false} WeightedSumBetween(cs: seq<Category>, scores: map<Category, real>)
    requires forall c :: c in scores ==> 0.0 <= scores[c] <= 5.0
    ensures 0.0 <= WeightedSum(cs, scores) <= 5.0 * WeightTotal(cs)
  {
    if cs != [] {
      var c := cs[|cs| - 1];
      WeightedSumBetween(cs[..|cs| - 1], scores);
      ScaleMonotone(0.0, ScoreOr0(scores, c), Weight(c));
      ScaleMonotone(ScoreOr0(scores, c), 5.0, Weight(c));
    }
  }

  /** `_calculate_overall_compliance_score`. */
  function OverallScore(scores: map<Category, real>): real {
    WeightedSum(WeightOrder, scores)
  }

  /** Since the weights sum to 1.00, the overall score of in-range category scores is
      again in [0, 5]. */
  lemma OverallScoreBounds(scores: map<Category, real>)
    requires forall c :: c in scores ==> 0.0 <= scores[c] <= 5.0
    ensures 0.0 <= OverallScore(scores) <= 5.0
  {
    WeightedSumBetween(WeightOrder, scores);
    WeightsSumToOne();
  }

  datatype Readiness = CertificationReady | Advanced | Intermediate | Basic | Initial

  /** `_determine_readiness_level`. */
  function ReadinessLevel(score: real): (r: Readiness)
    ensures r == CertificationReady <==> score >= 4.5
    ensures r == Advanced <==> 3.5 <= score < 4.5
    ensures r == Intermediate <==> 2.5 <= score < 3.5
    ensures r == Basic <==> 1.5 <= score < 2.5
    ensures r == Initial <==> score < 1.5
  {
    if score >= 4.5 then CertificationReady
    else if score >= 3.5 then Advanced
    else if score >= 2.5 then Intermediate
    else if score >= 1.5 then Basic
    else Initial
  }

  function ReadinessRank(r: Readiness): nat {
    match r
    case Initial => 0
    case Basic => 1
    case Intermediate => 2
    case Advanced => 3
    case CertificationReady => 4
  }

  /** A higher score never gives a lower readiness level. */
  lemma ReadinessMonotone(a: real, b: real)
    requires a <= b
    ensures ReadinessRank(ReadinessLevel(a)) <= ReadinessRank(ReadinessLevel(b))
  {
  }

  // ---- Critical gaps ----

  predicate IsCriticalGap(r: Requirement) {
    (r.status == NonCompliant || r.status == NotAssessed) && r.effort == CriticalEffort
  }

  /** The requirements `_identify_critical_gaps` reports, in list order. */
  function CriticalRequirements(reqs: seq<Requirement>): seq<Requirement> {
    if reqs == [] then []
    else CriticalRequirements(reqs[..|reqs| - 1]) + (if IsCriticalGap(reqs[|reqs| - 1]) then [reqs[|reqs| - 1]] else [])
  }

  /** A requirement is reported exactly when it is in the list and is a critical gap. */
  lemma {:induction false} CriticalRequirementsIff(reqs: seq<Requirement>)
    ensures forall r :: r in CriticalRequirements(reqs) <==> r in reqs && IsCriticalGap(r)
  {
    if reqs != [] {
      var p := reqs[..|reqs| - 1];
      CriticalRequirementsIff(p);
      assert reqs == p + [reqs[|reqs| - 1]];
    }
  }

  /** The filter keeps list order: the report of a concatenation is the concatenation
      of the reports. */
  lemma {:induction false} CriticalRequirementsAppend(a: seq<Requirement>, b: seq<Requirement>)
    ensures CriticalRequirements(a + b) == CriticalRequirements(a) + CriticalRequirements(b)
  {
    if b == [] {
      assert a + b == a;
    } else {
      var init, x := b[..|b| - 1], b[|b| - 1];
      CriticalRequirementsAppend(a, init);
      assert (a + b)[..|a + b| - 1] == a + init && (a + b)[|a + b| - 1] == x;
      var kept := if IsCriticalGap(x) then [x] else [];
      assert CriticalRequirements(a + b) == CriticalRequirements(a + init) + kept;
      assert CriticalRequirements(b) == CriticalRequirements(init) + kept;
      assert CriticalRequirements(a) + CriticalRequirements(init) + kept
          == CriticalRequirements(a) + (CriticalRequirements(init) + kept);
    }
  }

  /** `f"{req.clause} - {req.title}"`. */
  function GapLabel(r: Requirement): string {
    ClauseText(r.clause) + " - " + Title(r.clause)
  }

  function CriticalGaps(reqs: seq<Requirement>): (r: seq<string>)
    ensures |r| == |CriticalRequirements(reqs)|
    ensures forall i :: 0 <= i < |r| ==> r[i] == GapLabel(CriticalRequirements(reqs)[i])
  {
    var critical := CriticalRequirements(reqs);
    seq(|critical|, i requires 0 <= i < |critical| => GapLabel(critical[i]))
  }

  lemma CriticalPrefixStep(reqs: seq<Requirement>, k: nat)
    requires k < |reqs|
    ensures CriticalRequirements(reqs[..k + 1])
         == CriticalRequirements(reqs[..k]) + (if IsCriticalGap(reqs[k]) then [reqs[k]] else [])
  {
    assert reqs[..k + 1][..k] == reqs[..k];
  }

  /** Positions without a critical gap add nothing to the report. */
  lemma {:induction false} NoCriticalBetween(reqs: seq<Requirement>, lo: nat, hi: nat)
    requires lo <= hi <= |reqs|
    requires forall i :: lo <= i < hi ==> !IsCriticalGap(reqs[i])
    ensures CriticalRequirements(reqs[..hi]) == CriticalRequirements(reqs[..lo])
    decreases hi
  {
    if lo < hi {
      NoCriticalBetween(reqs, lo, hi - 1);
      CriticalPrefixStep(reqs, hi - 1);
    }
  }

  /** A stretch of the list with one critical gap adds exactly that requirement. */
  lemma OneCriticalBetween(reqs: seq<Requirement>, lo: nat, k: nat, hi: nat)
    requires lo <= k < hi <= |reqs| && IsCriticalGap(reqs[k])
    requires forall i :: lo <= i < hi && i != k ==> !IsCriticalGap(reqs[i])
    ensures CriticalRequirements(reqs[..hi]) == CriticalRequirements(reqs[..lo]) + [reqs[k]]
  {
    NoCriticalBetween(reqs, lo, k);
    CriticalPrefixStep(reqs, k);
    NoCriticalBetween(reqs, k + 1, hi);
  }

  lemma CriticalAtTwo(reqs: seq<Requirement>, a: nat, b: nat)
    requires a < b < |reqs| && IsCriticalGap(reqs[a]) && IsCriticalGap(reqs[b])
    requires forall i :: 0 <= i < |reqs| && i != a && i != b ==> !IsCriticalGap(reqs[i])
    ensures CriticalRequirements(reqs) == [reqs[a], reqs[b]]
  {
    OneCriticalBetween(reqs, 0, a, b);
    OneCriticalBetween(reqs, b, b, |reqs|);
    assert reqs[..0] == [];
    assert CriticalRequirements(reqs[..b]) == [reqs[a]];
    assert reqs[..|reqs|] == reqs;
  }

  /** Without any assessment the critical gaps are exactly clauses 5.1 and 8.1. */
  lemma DefaultCriticalGaps()
    ensures CriticalRequirements(DefaultRequirements) == [DefaultRequirements[3], DefaultRequirements[9]]
    ensures DefaultRequirements[3].clause == C5_1 && DefaultRequirements[9].clause == C8_1
  {
    var d := DefaultRequirements;
    assert forall i :: 0 <= i < |d| && i != 3 && i != 9 ==> !IsCriticalGap(d[i]);
    CriticalAtTwo(d, 3, 9);
  }

  // ---- Roadmap ----

  /** A phase of the roadmap: its name, its duration and the categories it covers. */
  datatype Phase = Phase(name: string, durationMonths: nat, categories: seq<Category>, requirements: seq<Requirement>)

  const PhaseNames: seq<string> := ["Foundation", "Planning", "Implementation", "Validation"]

  const PhaseCategories: seq<seq<Category>> :=
    [[Context, Leadership], [Planning], [Support, Operation], [Evaluation, Improvement]]

  /** The requirements whose category is one of `cats`, in list order. */
  function FromCategories(reqs: seq<Requirement>, cats: seq<Category>): (r: seq<Requirement>)
    ensures |r| <= |reqs|
  {
    if reqs == [] then []
    else FromCategories(reqs[..|reqs| - 1], cats) + (if reqs[|reqs| - 1].category in cats then [reqs[|reqs| - 1]] else [])
  }

  /** Selecting two disjoint category lists separately selects the same requirements
      as selecting their union. */
  lemma {:induction false} FromDisjointCategories(reqs: seq<Requirement>, a: seq<Category>, b: seq<Category>)
    requires forall c :: c in a ==> c !in b
    ensures multiset(FromCategories(reqs, a)) + multiset(FromCategories(reqs, b)) == multiset(FromCategories(reqs, a + b))
  {
    if reqs != [] {
      FromDisjointCategories(reqs[..|reqs| - 1], a, b);
    }
  }

  lemma {:induction false} FromAllCategories(reqs: seq<Requirement>, cats: seq<Category>)
    requires forall c :: c in cats
    ensures FromCategories(reqs, cats) == reqs
  {
    if reqs != [] {
      FromAllCategories(reqs[..|reqs| - 1], cats);
    }
  }

  /** `_generate_implementation_roadmap`: four three-month phases. */
  function Roadmap(reqs: seq<Requirement>): (r: seq<Phase>)
    ensures |r| == 4
    ensures forall k :: 0 <= k < 4 ==>
      && r[k].name == PhaseNames[k] && r[k].durationMonths == 3 && r[k].categories == PhaseCategories[k]
      && r[k].requirements == FromCategories(reqs, PhaseCategories[k])
  {
    seq(4, k requires 0 <= k < 4 =>
      Phase(PhaseNames[k], 3, PhaseCategories[k], FromCategories(reqs, PhaseCategories[k])))
  }

  /** All the requirements of the roadmap, phase after phase. */
  function RoadmapRequirements(phases: seq<Phase>): seq<Requirement> {
    if phases == [] then [] else RoadmapRequirements(phases[..|phases| - 1]) + phases[|phases| - 1].requirements
  }

  lemma FourPhases(r: seq<Phase>)
    requires |r| == 4
    ensures RoadmapRequirements(r) == r[0].requirements + r[1].requirements + r[2].requirements + r[3].requirements
  {
    assert RoadmapRequirements(r[..1]) == r[0].requirements by { assert r[..1][..0] == []; }
    assert RoadmapRequirements(r[..2]) == r[0].requirements + r[1].requirements by { assert r[..2][..1] == r[..1]; }
    assert RoadmapRequirements(r[..3]) == r[0].requirements + r[1].requirements + r[2].requirements by {
      assert r[..3][..2] == r[..2];
    }
    assert r[..4][..3] == r[..3] && r[..4] == r;
  }

  /** The phases partition the requirements: together they hold every requirement,
      each exactly as often as the list does. */
  lemma RoadmapPartitions(reqs: seq<Requirement>)
    ensures multiset(RoadmapRequirements(Roadmap(reqs))) == multiset(reqs)
  {
    var r := Roadmap(reqs);
    var c0, c1, c2, c3 := PhaseCategories[0], PhaseCategories[1], PhaseCategories[2], PhaseCategories[3];
    FourPhases(r);
    assert r[0].requirements == FromCategories(reqs, c0) && r[1].requirements == FromCategories(reqs, c1);
    assert r[2].requirements == FromCategories(reqs, c2) && r[3].requirements == FromCategories(reqs, c3);
    FromDisjointCategories(reqs, c0, c1);
    FromDisjointCategories(reqs, c0 + c1, c2);
    FromDisjointCategories(reqs, c0 + c1 + c2, c3);
    PhasesCoverCategories();
    FromAllCategories(reqs, c0 + c1 + c2 + c3);
  }

  /** Every category belongs to some phase. */
  lemma PhasesCoverCategories()
    ensures forall c: Category :: c in PhaseCategories[0] + PhaseCategories[1] + PhaseCategories[2] + PhaseCategories[3]
  {
    var all := PhaseCategories[0] + PhaseCategories[1] + PhaseCategories[2] + PhaseCategories[3];
    forall c: Category ensures c in all {
      match c
      case Context => assert all[0] == c;
      case Leadership => assert all[1] == c;
      case Planning => assert all[2] == c;
      case Support => assert all[3] == c;
      case Operation => assert all[4] == c;
      case Evaluation => assert all[5] == c;
      case Improvement => assert all[6] == c;
    }
  }

  // ---- Timeline ----

  const SizeMultipliers: map<string, real> := map["small" := 0.75, "medium" := 1.0, "large" := 1.25, "enterprise" := 1.5]
  const MaturityMultipliers: map<string, real> :=
    map["initial" := 1.5, "developing" := 1.25, "intermediate" := 1.0, "advanced" := 0.75]

  function Multiplier(table: map<string, real>, key: string): real {
    if key in table then table[key] else 1.0
  }

  lemma MultiplierBounds(table: map<string, real>, key: string)
    requires table == SizeMultipliers || table == MaturityMultipliers
    ensures 0.75 <= Multiplier(table, key) <= 1.5
  {
  }

  /** `_estimate_implementation_timeline`: the organisation's `size` (default
      "medium") and `ai_maturity` (default "intermediate"), both optional. */
  function TimelineMonths(size: Option<string>, maturity: Option<string>): int {
    (12.0 * Multiplier(SizeMultipliers, size.GetOr("medium"))
          * Multiplier(MaturityMultipliers, maturity.GetOr("intermediate"))).Floor
  }

  /** The timeline is the floor of twelve months scaled by both multipliers (1.0 for
      an unknown key), so it lies between 6 and 27 months, and is 12 by default. */
  lemma TimelineFacts(size: Option<string>, maturity: Option<string>)
    ensures 6 <= TimelineMonths(size, maturity) <= 27
    ensures TimelineMonths(None, None) == 12
  {
    var s := Multiplier(SizeMultipliers, size.GetOr("medium"));
    var m := Multiplier(MaturityMultipliers, maturity.GetOr("intermediate"));
    MultiplierBounds(SizeMultipliers, size.GetOr("medium"));
    MultiplierBounds(MaturityMultipliers, maturity.GetOr("intermediate"));
    ScaleMonotone(0.75, s, 12.0);
    ScaleMonotone(s, 1.5, 12.0);
    ScaleMonotone(0.75, m, 12.0 * s);
    ScaleMonotone(m, 1.5, 12.0 * s);
    assert 12.0 * s * m == m * (12.0 * s);
  }

  // ---- Dependencies ----

  /** Every dependency names a requirement earlier in the list. */
  ghost predicate DependenciesEarlier(reqs: seq<Requirement>) {
    forall i, d :: 0 <= i < |reqs| && d in reqs[i].dependencies ==>
      exists j :: 0 <= j < i && reqs[j].clause == d
  }

  ghost predicate UniqueClauses(reqs: seq<Requirement>) {
    forall i, j :: 0 <= i < j < |reqs| ==> reqs[i].clause != reqs[j].clause
  }

  /** Each step of `path` goes from a requirement to one of its dependencies. */
  ghost predicate DependencyPath(reqs: seq<Requirement>, path: seq<nat>) {
    (forall k :: 0 <= k < |path| ==> path[k] < |reqs|) &&
    forall k :: 0 < k < |path| ==> reqs[path[k]].clause in reqs[path[k - 1]].dependencies
  }

  /** Along any dependency path the positions strictly decrease, so no requirement
      depends on itself, directly or through others. */
  lemma {:induction false} DependencyPathsDescend(reqs: seq<Requirement>, path: seq<nat>)
    requires DependenciesEarlier(reqs) && UniqueClauses(reqs) && DependencyPath(reqs, path)
    ensures forall k, l :: 0 <= k < l < |path| ==> path[l] < path[k]
  {
    if |path| > 1 {
      var p := path[..|path| - 1];
      assert DependencyPath(reqs, p);
      DependencyPathsDescend(reqs, p);
      var a, b := path[|path| - 2], path[|path| - 1];
      var j :| 0 <= j < a && reqs[j].clause == reqs[b].clause;
      assert j == b;
    }
  }

  /** The position of each clause in the table. */
  function ClauseIndex(c: Clause): nat {
    match c
    case C4_1 => 0 case C4_2 => 1 case C4_3 => 2 case C5_1 => 3 case C5_2 => 4 case C6_1 => 5
    case C6_2 => 6 case C7_1 => 7 case C7_2 => 8 case C8_1 => 9 case C9_1 => 10 case C9_2 => 11 case C10_1 => 12
  }

  lemma DefaultClauseIndices()
    ensures |DefaultRequirements| == 13
    ensures forall i :: 0 <= i < 13 ==> ClauseIndex(DefaultRequirements[i].clause) == i
    ensures forall i, x :: 0 <= i < 13 && x in DefaultRequirements[i].dependencies ==> ClauseIndex(x) < i
  {
  }

  /** The table's dependencies all point backwards and its clauses are distinct. */
  lemma DefaultDependenciesAcyclic()
    ensures DependenciesEarlier(DefaultRequirements) && UniqueClauses(DefaultRequirements)
  {
    var d := DefaultRequirements;
    DefaultClauseIndices();
    forall i, x | 0 <= i < |d| && x in d[i].dependencies ensures exists j :: 0 <= j < i && d[j].clause == x {
      var j := ClauseIndex(x);
      assert ClauseIndex(d[j].clause) == j;
      ClauseIndexInjective(d[j].clause, x);
    }
    forall i, j | 0 <= i < j < |d| ensures d[i].clause != d[j].clause {
      assert ClauseIndex(d[i].clause) != ClauseIndex(d[j].clause);
    }
  }

  lemma ClauseIndexInjective(a: Clause, b: Clause)
    requires ClauseIndex(a) == ClauseIndex(b)
    ensures a == b
  {
  }

  // ---- The analyzer ----

  datatype GapAnalysis = GapAnalysis(
    overallScore: real, readiness: Readiness, categoryScores: map<Category, real>,
    criticalGaps: seq<string>, roadmap: seq<Phase>, timelineMonths: int)

  /** The parts of `conduct_gap_analysis` computed from the requirement list and the
      organisation profile. */
  function AnalysisOf(reqs: seq<Requirement>, size: Option<string>, maturity: Option<string>): GapAnalysis {
    var scores := CategoryScores(reqs);
    var overall := OverallScore(scores);
    GapAnalysis(overall, ReadinessLevel(overall), scores, CriticalGaps(reqs), Roadmap(reqs),
                TimelineMonths(size, maturity))
  }

  /** The analysis always reports scores in range and a roadmap covering every
      requirement. */
  lemma AnalysisFacts(reqs: seq<Requirement>, size: Option<string>, maturity: Option<string>)
    ensures var a := AnalysisOf(reqs, size, maturity);
      && 0.0 <= a.overallScore <= 5.0
      && (forall c :: c in a.categoryScores && 0.0 <= a.categoryScores[c] <= 5.0)
      && multiset(RoadmapRequirements(a.roadmap)) == multiset(reqs)
      && 6 <= a.timelineMonths <= 27
  {
    CategoryScoresBounds(reqs);
    OverallScoreBounds(CategoryScores(reqs));
    RoadmapPartitions(reqs);
    TimelineFacts(size, maturity);
  }

  class GapAnalyzer {
    var requirements: seq<Requirement>

    constructor()
      ensures requirements == DefaultRequirements
    {
      requirements := DefaultRequirements;
    }

    /** `_update_requirements_status`: assessed requirements are updated in place, one
        by one; an unknown status raises `ValueError`, and the requirements updated
        before it keep their new status. */
    method UpdateRequirementsStatus(assessment: map<string, RequirementAssessment>) returns (error: Option<Error>)
      modifies this
      ensures var o := UpdateAll(old(requirements), assessment);
        requirements == o.requirements && error == o.error
    {
      ghost var original := requirements;
      var i := 0;
      while i < |requirements|
        invariant 0 <= i <= |requirements| == |original|
        invariant UpdateAll(original[..i], assessment).error.None?
        invariant requirements == UpdateAll(original[..i], assessment).requirements + original[i..]
      {
        var req := requirements[i];
        assert req == original[i];
        if req.Id() in assessment {
          var entry := assessment[req.Id()];
          var status := ParseStatus(entry.status.GetOr(NotAssessedValue));
          if status.Failure? {
            UpdateStopped(original, i, assessment);
            return Some(status.error);
          }
          req := req.(status := status.value, gapDescription := entry.gapDescription.GetOr(""));
        }
        UpdateKept(original, i, assessment, req);
        requirements := requirements[i := req];
        i := i + 1;
      }
      assert original[..i] == original;
      error := None;
    }

    /** `conduct_gap_analysis`: an empty assessment changes nothing; otherwise the
        statuses are updated first, and an error ends the analysis. */
    method ConductGapAnalysis(size: Option<string>, maturity: Option<string>,
                              assessment: map<string, RequirementAssessment>) returns (r: Result<GapAnalysis>)
      modifies this
      ensures var o := UpdateAll(old(requirements), assessment);
        && requirements == o.requirements
        && (o.error.Some? ==> r == Failure(o.error.value))
        && (o.error.None? ==> r == Success(AnalysisOf(requirements, size, maturity)))
    {
      if assessment != map[] {
        var error := UpdateRequirementsStatus(assessment);
        if error.Some? {
          return Failure(error.value);
        }
      } else {
        UpdateAllEmpty(requirements);
      }
      r := Success(AnalysisOf(requirements, size, maturity));
    }
  }

  /** With an empty assessment the update is the identity. */
  lemma {:induction false} UpdateAllEmpty(reqs: seq<Requirement>)
    ensures UpdateAll(reqs, map[]) == Outcome(reqs, None)
  {
    if reqs != [] {
      UpdateAllEmpty(reqs[..|reqs| - 1]);
      assert reqs == reqs[..|reqs| - 1] + [reqs[|reqs| - 1]];
    }
  }
}
