/** The append-only AI audit trail: events with an independent content hash and a
    keyed signature each, a registry of AI systems, framework compliance reports
    and summary statistics.  SHA-256 is the arbitrary function `H`, so every
    property below holds whatever the hash function is. */
module AuditTrail {
  import opened Wrappers
  import opened Text

  datatype EventType =
    | ModelTraining | ModelDeployment | DataProcessing | PredictionMade | BiasDetection
    | PerformanceMonitoring | IncidentLogged | AccessGranted | ConfigChanged | ComplianceReview

  /** The event types in declaration order (the order of `for event_type in EventType`). */
  const EventTypes: seq<EventType> := [
    ModelTraining, ModelDeployment, DataProcessing, PredictionMade, BiasDetection,
    PerformanceMonitoring, IncidentLogged, AccessGranted, ConfigChanged, ComplianceReview
  ]

  function EventTypeValue(t: EventType): string {
    match t
    case ModelTraining => "model_training"
    case ModelDeployment => "model_deployment"
    case DataProcessing => "data_processing"
    case PredictionMade => "prediction_made"
    case BiasDetection => "bias_detection"
    case PerformanceMonitoring => "performance_monitoring"
    case IncidentLogged => "incident_logged"
    case AccessGranted => "access_granted"
    case ConfigChanged => "configuration_changed"
    case ComplianceReview => "compliance_review"
  }

  datatype Framework = Gdpr | EuAiAct | Iso42001 | NistAiRmf | Sox | Basel3

  const Frameworks: seq<Framework> := [Gdpr, EuAiAct, Iso42001, NistAiRmf, Sox, Basel3]

  /** The risk levels counted by the statistics, in their order. */
  const RiskLevels: seq<string> := ["low", "medium", "high", "critical"]

  /** A metadata value: the source stores booleans and strings. */
  datatype MetaValue = Flag(b: bool) | Text(s: string)

  datatype AuditEvent = AuditEvent(
    eventId: string,
    timestamp: string,
    eventType: EventType,
    systemId: string,
    userId: string,
    actionDescription: string,
    dataHash: string,
    complianceFrameworks: seq<Framework>,
    riskLevel: string,
    businessImpact: string,
    metadata: map<string, MetaValue>,
    verificationSignature: string)

  datatype SystemEntry = SystemEntry(
    name: string,
    riskLevel: string,
    complianceFrameworks: seq<Framework>,
    registrationDate: string,
    auditEventsCount: nat)

  /** The audit requirements of a framework; absent keys read as empty or false. */
  datatype Rules = Rules(
    retentionDays: nat,
    requiredEvents: seq<EventType>,
    anonymizationRequired: bool,
    riskAssessmentRequired: bool)

  function ComplianceRules(f: Framework): Option<Rules> {
    match f
    case Gdpr => Some(Rules(2190, [DataProcessing, AccessGranted], true, false))
    case EuAiAct => Some(Rules(2555, [ModelTraining, BiasDetection, PerformanceMonitoring], false, true))
    case Iso42001 => Some(Rules(2190, [ComplianceReview, IncidentLogged], false, false))
    case _ => None
  }

  /** `rules.get("required_events", [])`. */
  function RequiredEvents(rules: Option<Rules>): seq<EventType> {
    if rules.Some? then rules.value.requiredEvents else []
  }

  // ---------------------------------------------------------------------------
  // Hashing and sealing

  /** The hashed text: five fields concatenated with no separator. */
  function DataString(eventId: string, timestamp: string, t: EventType, systemId: string, description: string): string {
    eventId + timestamp + EventTypeValue(t) + systemId + description
  }

  function ExpectedHash(H: string -> string, e: AuditEvent): string {
    H(DataString(e.eventId, e.timestamp, e.eventType, e.systemId, e.actionDescription))
  }

  function ExpectedSignature(H: string -> string, key: string, dataHash: string): string {
    H(dataHash + key)
  }

  /** An event whose stored hash and signature match what verification recomputes. */
  predicate Intact(H: string -> string, key: string, e: AuditEvent) {
    e.dataHash == ExpectedHash(H, e) && e.verificationSignature == ExpectedSignature(H, key, e.dataHash)
  }

  /** The event `log_event` builds. */
  function Seal(H: string -> string, key: string, eventId: string, timestamp: string, t: EventType,
                systemId: string, userId: string, description: string, frameworks: seq<Framework>,
                riskLevel: string, businessImpact: string, metadata: map<string, MetaValue>): (e: AuditEvent)
    ensures Intact(H, key, e)
    ensures e.eventId == eventId && e.timestamp == timestamp && e.eventType == t && e.systemId == systemId
    ensures e.userId == userId && e.actionDescription == description && e.complianceFrameworks == frameworks
    ensures e.riskLevel == riskLevel && e.businessImpact == businessImpact && e.metadata == metadata
  {
    var dataHash := H(DataString(eventId, timestamp, t, systemId, description));
    AuditEvent(eventId, timestamp, t, systemId, userId, description, dataHash, frameworks,
               riskLevel, businessImpact, metadata, ExpectedSignature(H, key, dataHash))
  }

  function RegistrationDescription(systemName: string): string {
    "AI system '" + systemName + "' registered for audit tracking"
  }

  // ---------------------------------------------------------------------------
  // Integrity verification

  /** `next((e for e in events if e.event_id == id), None)`. */
  function FindEvent(events: seq<AuditEvent>, id: string): (r: Option<AuditEvent>)
    ensures r.Some? ==> r.value in events && r.value.eventId == id
    ensures r.None? <==> forall i :: 0 <= i < |events| ==> events[i].eventId != id
    ensures r.Some? ==> exists i :: 0 <= i < |events| && events[i] == r.value
                                    && forall j :: 0 <= j < i ==> events[j].eventId != id
  {
    if events == [] then None
    else if events[0].eventId == id then Some(events[0])
    else
      var r := FindEvent(events[1..], id);
      if r.Some? then
        var k :| 0 <= k < |events[1..]| && events[1..][k] == r.value
                 && forall j :: 0 <= j < k ==> events[1..][j].eventId != id;
        assert events[k + 1] == r.value && forall j :: 0 <= j < k + 1 ==> events[j].eventId != id;
        r
      else r
  }

  datatype Verification =
    | NotFound
    | Checked(hashVerified: bool, signatureVerified: bool, eventTimestamp: string)
  {
    /** The `verified` field of the result. */
    predicate Verified() {
      Checked? && hashVerified && signatureVerified
    }
  }

  /** `verify_audit_integrity`: the first event with the id has its hash and its
      signature recomputed; it is verified exactly when both match. */
  function VerifyEvent(H: string -> string, key: string, events: seq<AuditEvent>, id: string): (v: Verification)
    ensures v.NotFound? <==> forall i :: 0 <= i < |events| ==> events[i].eventId != id
    ensures v.Checked? ==> var e := FindEvent(events, id).value;
              && v.hashVerified == (e.dataHash == ExpectedHash(H, e))
              && v.signatureVerified == (e.verificationSignature == ExpectedSignature(H, key, e.dataHash))
              && v.eventTimestamp == e.timestamp
    ensures v.Verified() <==> FindEvent(events, id).Some? && Intact(H, key, FindEvent(events, id).value)
    ensures (forall i :: 0 <= i < |events| ==> Intact(H, key, events[i])) ==> (v.NotFound? || v.Verified())
  {
    match FindEvent(events, id)
    case None => NotFound
    case Some(e) =>
      Checked(e.dataHash == ExpectedHash(H, e),
              e.verificationSignature == ExpectedSignature(H, key, e.dataHash),
              e.timestamp)
  }

  /** Two events that agree on every field verification reads. */
  predicate SameHashedFields(a: AuditEvent, b: AuditEvent) {
    && a.eventId == b.eventId && a.timestamp == b.timestamp && a.eventType == b.eventType
    && a.systemId == b.systemId && a.actionDescription == b.actionDescription
    && a.dataHash == b.dataHash && a.verificationSignature == b.verificationSignature
  }

  lemma {:induction false} FindEventSameHashedFields(events: seq<AuditEvent>, i: nat, e: AuditEvent, id: string)
    requires i < |events| && SameHashedFields(e, events[i])
    ensures FindEvent(events[i := e], id).None? == FindEvent(events, id).None?
    ensures FindEvent(events, id).Some? ==>
              SameHashedFields(FindEvent(events[i := e], id).value, FindEvent(events, id).value)
  {
    var t := events[i := e];
    if i > 0 && events[0].eventId != id {
      FindEventSameHashedFields(events[1..], i - 1, e, id);
      assert t[1..] == events[1..][i - 1 := e];
    }
  }

  /** Changing the fields that are not hashed (user, risk level, business impact,
      metadata, frameworks) of any one event changes no verification result. */
  lemma UnhashedFieldsNotVerified(H: string -> string, key: string, events: seq<AuditEvent>, i: nat,
                                  userId: string, riskLevel: string, businessImpact: string,
                                  metadata: map<string, MetaValue>, frameworks: seq<Framework>, id: string)
    requires i < |events|
    ensures VerifyEvent(H, key, events[i := events[i].(userId := userId, riskLevel := riskLevel,
              businessImpact := businessImpact, metadata := metadata, complianceFrameworks := frameworks)], id)
         == VerifyEvent(H, key, events, id)
  {
    var e := events[i].(userId := userId, riskLevel := riskLevel,
              businessImpact := businessImpact, metadata := metadata, complianceFrameworks := frameworks);
    FindEventSameHashedFields(events, i, e, id);
  }

  ghost predicate Injective(H: string -> string) {
    forall a, b :: H(a) == H(b) ==> a == b
  }

  /** With a collision-free hash, rewriting the description of an intact event
      makes its hash check fail. */
  lemma DescriptionTamperDetected(H: string -> string, key: string, e: AuditEvent, description: string)
    requires Injective(H) && Intact(H, key, e) && description != e.actionDescription
    ensures !Intact(H, key, e.(actionDescription := description))
  {
    var prefix := e.eventId + e.timestamp + EventTypeValue(e.eventType) + e.systemId;
    assert (prefix + description)[|prefix|..] == description;
    assert (prefix + e.actionDescription)[|prefix|..] == e.actionDescription;
  }

  /** No separator is hashed: moving the last character of the system id to the
      front of the description leaves the event intact. */
  lemma BoundaryShiftUndetected(H: string -> string, key: string, e: AuditEvent)
    requires Intact(H, key, e) && |e.systemId| > 0
    ensures Intact(H, key, e.(systemId := e.systemId[..|e.systemId| - 1],
                              actionDescription := [e.systemId[|e.systemId| - 1]] + e.actionDescription))
  {
    var s, d := e.systemId, e.actionDescription;
    var p := e.eventId + e.timestamp + EventTypeValue(e.eventType);
    var s', d' := s[..|s| - 1], [s[|s| - 1]] + d;
    assert s' + d' == s + d;
    assert p + s' + d' == p + (s' + d');
    assert p + s + d == p + (s + d);
    assert DataString(e.eventId, e.timestamp, e.eventType, s', d') == DataString(e.eventId, e.timestamp, e.eventType, s, d);
  }

  // ---------------------------------------------------------------------------
  // Compliance report

  predicate InPeriod(e: AuditEvent, f: Framework, startDate: string, endDate: string) {
    f in e.complianceFrameworks && StrLe(startDate, e.timestamp) && StrLe(e.timestamp, endDate)
  }

  /** The events that tag framework `f` and whose timestamp lies in [startDate, endDate]. */
  function FilterEvents(events: seq<AuditEvent>, f: Framework, startDate: string, endDate: string): (r: seq<AuditEvent>)
    ensures |r| <= |events|
    ensures forall e :: e in r <==> e in events && InPeriod(e, f, startDate, endDate)
  {
    if events == [] then []
    else
      var rest := FilterEvents(events[1..], f, startDate, endDate);
      assert forall e :: e in events <==> e == events[0] || e in events[1..];
      if InPeriod(events[0], f, startDate, endDate) then [events[0]] + rest else rest
  }

  function LoggedTypes(events: seq<AuditEvent>): set<EventType> {
    set e | e in events :: e.eventType
  }

  function SetOf(s: seq<EventType>): set<EventType> {
    set t | t in s
  }

  lemma {:induction false} SetOfSize(s: seq<EventType>)
    ensures |SetOf(s)| <= |s|
  {
    if s != [] {
      SetOfSize(s[1..]);
      assert SetOf(s) == {s[0]} + SetOf(s[1..]);
    }
  }

  function CountType(events: seq<AuditEvent>, t: EventType): (n: nat)
    ensures n <= |events|
  {
    if events == [] then 0 else (if events[0].eventType == t then 1 else 0) + CountType(events[1..], t)
  }

  function CountRisk(events: seq<AuditEvent>, level: string): (n: nat)
    ensures n <= |events|
  {
    if events == [] then 0 else (if events[0].riskLevel == level then 1 else 0) + CountRisk(events[1..], level)
  }

  function CountTagged(events: seq<AuditEvent>, f: Framework): (n: nat)
    ensures n <= |events|
  {
    if events == [] then 0
    else (if f in events[0].complianceFrameworks then 1 else 0) + CountTagged(events[1..], f)
  }

  /** The four risk-level counts, in the order of `RiskLevels`. */
  function RiskDistribution(events: seq<AuditEvent>): seq<nat> {
    seq(|RiskLevels|, i requires 0 <= i < |RiskLevels| => CountRisk(events, RiskLevels[i]))
  }

  /** The risk-level counts account for each event at most once, and for every
      event when each level is one of the four counted. */
  lemma {:induction false} RiskCountsSum(events: seq<AuditEvent>)
    ensures var n := CountRisk(events, "low") + CountRisk(events, "medium") + CountRisk(events, "high")
                     + CountRisk(events, "critical");
            && n <= |events|
            && ((forall i :: 0 <= i < |events| ==> events[i].riskLevel in RiskLevels) ==> n == |events|)
  {
    if events != [] {
      RiskCountsSum(events[1..]);
      assert forall i :: 0 <= i < |events[1..]| ==> events[1..][i] == events[i + 1];
    }
  }

  lemma RiskDistributionSum(events: seq<AuditEvent>)
    ensures SumNat(RiskDistribution(events)) <= |events|
    ensures (forall i :: 0 <= i < |events| ==> events[i].riskLevel in RiskLevels) ==>
              SumNat(RiskDistribution(events)) == |events|
  {
    var d := RiskDistribution(events);
    assert d == [CountRisk(events, "low"), CountRisk(events, "medium"), CountRisk(events, "high"),
                 CountRisk(events, "critical")];
    assert SumNat(d) == d[0] + SumNat(d[1..]) == d[0] + d[1] + SumNat(d[2..]);
    assert SumNat(d[2..]) == d[2] + d[3] + SumNat(d[4..]);
    RiskCountsSum(events);
  }

  function SystemsCovered(events: seq<AuditEvent>): nat {
    |set e | e in events :: e.systemId|
  }

  /** `min(n / 100, 1.0)`. */
  function Frequency(n: nat): real {
    if n as real / 100.0 < 1.0 then n as real / 100.0 else 1.0
  }

  lemma ScoreArithmetic(covered: nat, required: nat, n: nat)
    requires 0 < required && covered <= required
    ensures var score := (covered as real / required as real * 0.7 + Frequency(n) * 0.3) * 100.0;
            && 0.0 <= score <= 100.0
            && (covered == 0 ==> score <= 30.0)
            && (covered == required && n >= 100 ==> score == 100.0)
  {
    var coverage := covered as real / required as real;
    assert coverage * required as real == covered as real;
    assert 0.0 <= coverage <= 1.0;
  }

  /** `_calculate_compliance_score`: 70% weight on the share of required event
      types that were logged, 30% on the volume of events (saturating at 100). */
  function ComplianceScore(events: seq<AuditEvent>, rules: Option<Rules>): (score: real)
    ensures RequiredEvents(rules) == [] ==> score == 100.0
    ensures 0.0 <= score <= 100.0
    ensures RequiredEvents(rules) != [] && LoggedTypes(events) !! SetOf(RequiredEvents(rules)) ==> score <= 30.0
    ensures (SetOf(RequiredEvents(rules)) <= LoggedTypes(events) && |events| >= 100
             && |SetOf(RequiredEvents(rules))| == |RequiredEvents(rules)|) ==> score == 100.0
  {
    var required := RequiredEvents(rules);
    if required == [] then 100.0
    else
      var covered := |SetOf(required) * LoggedTypes(events)|;
      SetOfSize(required);
      CoveredPlusMissing(SetOf(required), LoggedTypes(events));
      assert SetOf(required) <= LoggedTypes(events) ==> SetOf(required) * LoggedTypes(events) == SetOf(required);
      assert LoggedTypes(events) !! SetOf(required) ==> SetOf(required) * LoggedTypes(events) == {};
      ScoreArithmetic(covered, |required|, |events|);
      (covered as real / |required| as real * 0.7 + Frequency(|events|) * 0.3) * 100.0
  }

  datatype Recommendation =
    | ImplementMissingLogging(missing: set<EventType>)
    | EnhancedMonitoring
    | AnonymizePersonalData
    | ConductRiskAssessments

  function Recommendations(f: Framework, events: seq<AuditEvent>, rules: Option<Rules>): (r: seq<Recommendation>)
    ensures ImplementMissingLogging(SetOf(RequiredEvents(rules)) - LoggedTypes(events)) in r
            <==> SetOf(RequiredEvents(rules)) - LoggedTypes(events) != {}
    ensures EnhancedMonitoring in r <==> CountRisk(events, "high") as real > |events| as real * 0.1
    ensures AnonymizePersonalData in r <==> f == Gdpr && rules.Some? && rules.value.anonymizationRequired
    ensures ConductRiskAssessments in r <==> f == EuAiAct && rules.Some? && rules.value.riskAssessmentRequired
  {
    var missing := SetOf(RequiredEvents(rules)) - LoggedTypes(events);
    (if missing != {} then [ImplementMissingLogging(missing)] else [])
    + (if CountRisk(events, "high") as real > |events| as real * 0.1 then [EnhancedMonitoring] else [])
    + (if f == Gdpr && rules.Some? && rules.value.anonymizationRequired then [AnonymizePersonalData] else [])
    + (if f == EuAiAct && rules.Some? && rules.value.riskAssessmentRequired then [ConductRiskAssessments] else [])
  }

  datatype Posture = Excellent | Strong | Moderate | SignificantGaps

  function PostureOf(score: real): (p: Posture)
    ensures p == Excellent <==> score >= 90.0
    ensures p == Strong <==> 75.0 <= score < 90.0
    ensures p == Moderate <==> 60.0 <= score < 75.0
    ensures p == SignificantGaps <==> score < 60.0
  {
    if score >= 90.0 then Excellent
    else if score >= 75.0 then Strong
    else if score >= 60.0 then Moderate
    else SignificantGaps
  }

  datatype ExecutiveSummary = ExecutiveSummary(score: real, posture: Posture, events: nat, systems: nat)

  datatype ComplianceReport = ComplianceReport(
    framework: Framework,
    startDate: string,
    endDate: string,
    totalAuditEvents: nat,
    highRiskEvents: nat,
    systemsAudited: nat,
    requiredEventsCovered: int,
    complianceScore: real,
    eventBreakdown: seq<nat>,
    missingRequirements: set<EventType>,
    recommendations: seq<Recommendation>,
    executiveSummary: ExecutiveSummary)

  /** The per-type counts, one per type of `types`, in that order. */
  function Distribution(events: seq<AuditEvent>, types: seq<EventType>): (d: seq<nat>)
    ensures |d| == |types|
    ensures forall i :: 0 <= i < |types| ==> d[i] == CountType(events, types[i])
  {
    if types == [] then [] else [CountType(events, types[0])] + Distribution(events, types[1..])
  }

  function ReportOf(events: seq<AuditEvent>, f: Framework, startDate: string, endDate: string): ComplianceReport {
    var filtered := FilterEvents(events, f, startDate, endDate);
    var rules := ComplianceRules(f);
    var required := RequiredEvents(rules);
    var missing := SetOf(required) - LoggedTypes(filtered);
    var score := ComplianceScore(filtered, rules);
    ComplianceReport(
      f, startDate, endDate,
      |filtered|,
      CountRisk(filtered, "high"),
      SystemsCovered(filtered),
      |required| - |missing|,
      score,
      Distribution(filtered, EventTypes),
      missing,
      Recommendations(f, filtered, rules),
      ExecutiveSummary(score, PostureOf(score), |filtered|, SystemsCovered(filtered)))
  }

  /** The required-event lists of the rule table have no repeated entry. */
  lemma RequiredEventsDistinct(f: Framework)
    ensures |SetOf(RequiredEvents(ComplianceRules(f)))| == |RequiredEvents(ComplianceRules(f))|
  {
    match f {
      case Gdpr =>
        assert SetOf([DataProcessing, AccessGranted]) == {DataProcessing, AccessGranted};
      case EuAiAct =>
        assert SetOf([ModelTraining, BiasDetection, PerformanceMonitoring])
            == {ModelTraining, BiasDetection, PerformanceMonitoring};
      case Iso42001 =>
        assert SetOf([ComplianceReview, IncidentLogged]) == {ComplianceReview, IncidentLogged};
      case _ =>
    }
  }

  lemma CoveredPlusMissing(a: set<EventType>, b: set<EventType>)
    ensures |a * b| + |a - b| == |a|
  {
    assert a == (a - b) + (a * b);
    assert (a - b) !! (a * b);
  }

  /** The report's counts: the missing set is required minus logged, and the
      covered count is the number of required types that were logged. */
  lemma ReportCoverage(events: seq<AuditEvent>, f: Framework, startDate: string, endDate: string)
    ensures var r := ReportOf(events, f, startDate, endDate);
            var filtered := FilterEvents(events, f, startDate, endDate);
            var required := SetOf(RequiredEvents(ComplianceRules(f)));
            && r.missingRequirements == required - LoggedTypes(filtered)
            && r.requiredEventsCovered == |required * LoggedTypes(filtered)|
            && 0 <= r.requiredEventsCovered <= |RequiredEvents(ComplianceRules(f))|
            && 0.0 <= r.complianceScore <= 100.0
            && r.totalAuditEvents == |filtered| <= CountTagged(events, f)
            && r.highRiskEvents <= r.totalAuditEvents
            && SumNat(r.eventBreakdown) == r.totalAuditEvents
            && r.executiveSummary.posture == PostureOf(r.complianceScore)
  {
    var filtered := FilterEvents(events, f, startDate, endDate);
    var required := SetOf(RequiredEvents(ComplianceRules(f)));
    var logged := LoggedTypes(filtered);
    RequiredEventsDistinct(f);
    CoveredPlusMissing(required, logged);
    FilteredAtMostTagged(events, f, startDate, endDate);
    TypeCountsSumToTotal(filtered);
  }

  /** A report period keeps no more events than tag the framework at all. */
  lemma {:induction false} FilteredAtMostTagged(events: seq<AuditEvent>, f: Framework, startDate: string, endDate: string)
    ensures |FilterEvents(events, f, startDate, endDate)| <= CountTagged(events, f)
  {
    if events != [] {
      FilteredAtMostTagged(events[1..], f, startDate, endDate);
    }
  }

  // Sum of the per-type counts

  function SumNat(s: seq<nat>): nat {
    if s == [] then 0 else s[0] + SumNat(s[1..])
  }

  /** How many times `t` occurs in `types`. */
  function Occurrences(types: seq<EventType>, t: EventType): nat {
    if types == [] then 0 else (if types[0] == t then 1 else 0) + Occurrences(types[1..], t)
  }

  function OccurrenceSum(events: seq<AuditEvent>, types: seq<EventType>): nat {
    if events == [] then 0 else Occurrences(types, events[0].eventType) + OccurrenceSum(events[1..], types)
  }

  lemma {:induction false} OccurrenceSumCons(events: seq<AuditEvent>, types: seq<EventType>)
    requires types != []
    ensures OccurrenceSum(events, types) == CountType(events, types[0]) + OccurrenceSum(events, types[1..])
  {
    if events != [] {
      OccurrenceSumCons(events[1..], types);
    }
  }

  lemma {:induction false} DistributionSum(events: seq<AuditEvent>, types: seq<EventType>)
    ensures SumNat(Distribution(events, types)) == OccurrenceSum(events, types)
  {
    if types == [] {
      if events != [] {
        DistributionSum(events[1..], types);
      }
    } else {
      DistributionSum(events, types[1..]);
      OccurrenceSumCons(events, types);
      assert Distribution(events, types)[1..] == Distribution(events, types[1..]);
    }
  }

  lemma {:induction false} OccurrencesMultiplicity(types: seq<EventType>, t: EventType)
    ensures Occurrences(types, t) == multiset(types)[t]
  {
    if types != [] {
      OccurrencesMultiplicity(types[1..], t);
      assert types == [types[0]] + types[1..];
    }
  }

  function TypeIndex(t: EventType): nat {
    match t
    case ModelTraining => 0
    case ModelDeployment => 1
    case DataProcessing => 2
    case PredictionMade => 3
    case BiasDetection => 4
    case PerformanceMonitoring => 5
    case IncidentLogged => 6
    case AccessGranted => 7
    case ConfigChanged => 8
    case ComplianceReview => 9
  }

  lemma EventTypesIndexed()
    ensures forall i :: 0 <= i < |EventTypes| ==> TypeIndex(EventTypes[i]) == i
    ensures forall t :: TypeIndex(t) < |EventTypes| && EventTypes[TypeIndex(t)] == t
  {
  }

  lemma {:induction false} OccurrencesOfDistinct(types: seq<EventType>, t: EventType)
    requires forall i, j :: 0 <= i < j < |types| ==> types[i] != types[j]
    ensures Occurrences(types, t) == if t in types then 1 else 0
  {
    if types != [] {
      OccurrencesOfDistinct(types[1..], t);
      if types[0] == t {
        assert t !in types[1..];
      }
    }
  }

  lemma OccursOnce(t: EventType)
    ensures Occurrences(EventTypes, t) == 1
  {
    EventTypesIndexed();
    OccurrencesOfDistinct(EventTypes, t);
  }

  lemma {:induction false} EveryTypeOnce(events: seq<AuditEvent>)
    ensures OccurrenceSum(events, EventTypes) == |events|
  {
    if events != [] {
      EveryTypeOnce(events[1..]);
      OccursOnce(events[0].eventType);
    }
  }

  /** The event breakdown (and the statistics' type distribution) accounts for every event once. */
  lemma TypeCountsSumToTotal(events: seq<AuditEvent>)
    ensures SumNat(Distribution(events, EventTypes)) == |events|
  {
    DistributionSum(events, EventTypes);
    EveryTypeOnce(events);
  }

  // ---------------------------------------------------------------------------
  // Statistics

  function EarliestTimestamp(events: seq<AuditEvent>): (t: string)
    requires events != []
    ensures exists i :: 0 <= i < |events| && events[i].timestamp == t
  {
    if |events| == 1 then events[0].timestamp
    else
      var rest := EarliestTimestamp(events[1..]);
      if StrLe(rest, events[0].timestamp) then rest else events[0].timestamp
  }

  function LatestTimestamp(events: seq<AuditEvent>): (t: string)
    requires events != []
    ensures exists i :: 0 <= i < |events| && events[i].timestamp == t
  {
    if |events| == 1 then events[0].timestamp
    else
      var rest := LatestTimestamp(events[1..]);
      if StrLe(events[0].timestamp, rest) then rest else events[0].timestamp
  }

  lemma {:induction false} EarliestIsMinimum(events: seq<AuditEvent>)
    requires events != []
    ensures forall i :: 0 <= i < |events| ==> StrLe(EarliestTimestamp(events), events[i].timestamp)
  {
    if |events| == 1 {
      StrLeReflexive(events[0].timestamp);
    } else {
      EarliestIsMinimum(events[1..]);
      var rest := EarliestTimestamp(events[1..]);
      var first := events[0].timestamp;
      StrLeTotal(rest, first);
      StrLeReflexive(first);
      forall i | 0 <= i < |events| ensures StrLe(EarliestTimestamp(events), events[i].timestamp) {
        if i > 0 {
          assert StrLe(rest, events[1..][i - 1].timestamp);
          if !StrLe(rest, first) {
            StrLeTransitive(first, rest, events[i].timestamp);
          }
        }
      }
    }
  }

  lemma {:induction false} LatestIsMaximum(events: seq<AuditEvent>)
    requires events != []
    ensures forall i :: 0 <= i < |events| ==> StrLe(events[i].timestamp, LatestTimestamp(events))
  {
    if |events| == 1 {
      StrLeReflexive(events[0].timestamp);
    } else {
      LatestIsMaximum(events[1..]);
      var rest := LatestTimestamp(events[1..]);
      var first := events[0].timestamp;
      StrLeTotal(first, rest);
      StrLeReflexive(first);
      forall i | 0 <= i < |events| ensures StrLe(events[i].timestamp, LatestTimestamp(events)) {
        if i > 0 {
          assert StrLe(events[1..][i - 1].timestamp, rest);
          if !StrLe(first, rest) {
            StrLeTransitive(events[i].timestamp, rest, first);
          }
        }
      }
    }
  }

  datatype Statistics =
    | NoEvents
    | Stats(
        totalEvents: nat,
        earliest: string,
        latest: string,
        eventTypeDistribution: seq<nat>,
        riskLevelDistribution: seq<nat>,
        frameworkCoverage: seq<nat>,
        systemsTracked: nat,
        integrityVerified: bool)

  /** `audit_events[-10:]`. */
  function LastTen(events: seq<AuditEvent>): (r: seq<AuditEvent>)
    ensures |r| == if |events| < 10 then |events| else 10
    ensures r == events[|events| - |r|..]
    ensures forall e :: e in r ==> e in events
  {
    if |events| <= 10 then events else events[|events| - 10..]
  }

  function AuditStatistics(H: string -> string, key: string, events: seq<AuditEvent>, systemsTracked: nat): (st: Statistics)
    ensures st.NoEvents? <==> events == []
    ensures st.Stats? ==> st.totalEvents == |events| && st.systemsTracked == systemsTracked
    ensures st.Stats? ==> |st.eventTypeDistribution| == |EventTypes| && |st.riskLevelDistribution| == |RiskLevels|
                          && |st.frameworkCoverage| == |Frameworks|
  {
    if events == [] then NoEvents
    else
      var sample := LastTen(events);
      Stats(
        |events|,
        EarliestTimestamp(events),
        LatestTimestamp(events),
        Distribution(events, EventTypes),
        RiskDistribution(events),
        seq(|Frameworks|, i requires 0 <= i < |Frameworks| => CountTagged(events, Frameworks[i])),
        systemsTracked,
        forall i | 0 <= i < |sample| :: VerifyEvent(H, key, events, sample[i].eventId).Verified())
  }

  /** Statistics of a non-empty log: type counts sum to the total, the date range
      brackets every timestamp, and an intact log reports integrity verified. */
  lemma StatisticsFacts(H: string -> string, key: string, events: seq<AuditEvent>, systemsTracked: nat)
    requires events != []
    ensures var st := AuditStatistics(H, key, events, systemsTracked);
            && SumNat(st.eventTypeDistribution) == st.totalEvents
            && SumNat(st.riskLevelDistribution) <= st.totalEvents
            && ((forall i :: 0 <= i < |events| ==> events[i].riskLevel in RiskLevels) ==>
                  SumNat(st.riskLevelDistribution) == st.totalEvents)
            && (forall i :: 0 <= i < |events| ==>
                  StrLe(st.earliest, events[i].timestamp) && StrLe(events[i].timestamp, st.latest))
            && ((forall i :: 0 <= i < |events| ==> Intact(H, key, events[i])) ==> st.integrityVerified)
  {
    TypeCountsSumToTotal(events);
    RiskDistributionSum(events);
    EarliestIsMinimum(events);
    LatestIsMaximum(events);
  }

  // ---------------------------------------------------------------------------
  // The builder: the log and the registry are updated in place.

  class AuditTrailBuilder {
    var auditEvents: seq<AuditEvent>
    var systemRegistry: map<string, SystemEntry>
    const encryptionKey: string
    const H: string -> string

    /** Every stored event carries the hash and signature computed when it was logged. */
    ghost predicate Valid()
      reads this
    {
      forall i :: 0 <= i < |auditEvents| ==> Intact(H, encryptionKey, auditEvents[i])
    }

    constructor (encryptionKey: string, H: string -> string)
      ensures Valid()
      ensures auditEvents == [] && systemRegistry == map[]
      ensures this.encryptionKey == encryptionKey && this.H == H
    {
      auditEvents := [];
      systemRegistry := map[];
      this.encryptionKey := encryptionKey;
      this.H := H;
    }

    /** `log_event`; `eventId` and `timestamp` stand for `uuid4()` and `datetime.now()`. */
    method LogEvent(eventId: string, timestamp: string, eventType: EventType, systemId: string, userId: string,
                    actionDescription: string, complianceFrameworks: seq<Framework>, riskLevel: string,
                    businessImpact: string, metadata: Option<map<string, MetaValue>>) returns (id: string)
      requires Valid()
      modifies this
      ensures Valid()
      ensures id == eventId
      ensures auditEvents == old(auditEvents) + [Seal(H, encryptionKey, eventId, timestamp, eventType, systemId, userId,
                actionDescription, complianceFrameworks, riskLevel, businessImpact, metadata.GetOr(map[]))]
      ensures systemId in old(systemRegistry) ==>
                systemRegistry == old(systemRegistry)[systemId := old(systemRegistry)[systemId].(
                  auditEventsCount := old(systemRegistry)[systemId].auditEventsCount + 1)]
      ensures systemId !in old(systemRegistry) ==> systemRegistry == old(systemRegistry)
    {
      var event := Seal(H, encryptionKey, eventId, timestamp, eventType, systemId, userId,
                        actionDescription, complianceFrameworks, riskLevel, businessImpact, metadata.GetOr(map[]));
      auditEvents := auditEvents + [event];
      if systemId in systemRegistry {
        var entry := systemRegistry[systemId];
        systemRegistry := systemRegistry[systemId := entry.(auditEventsCount := entry.auditEventsCount + 1)];
      }
      id := eventId;
    }

    /** `register_ai_system`: (re)writes the entry with count 0, then logs the
        registration, which raises the count to 1.  Earlier events stay. */
    method RegisterAiSystem(systemId: string, systemName: string, riskLevel: string,
                            complianceFrameworks: seq<Framework>, registrationDate: string,
                            eventId: string, timestamp: string)
      requires Valid()
      modifies this
      ensures Valid()
      ensures systemRegistry == old(systemRegistry)[systemId :=
                SystemEntry(systemName, riskLevel, complianceFrameworks, registrationDate, 1)]
      ensures auditEvents == old(auditEvents) + [Seal(H, encryptionKey, eventId, timestamp, ConfigChanged, systemId,
                "system_admin", RegistrationDescription(systemName), complianceFrameworks, riskLevel, "high",
                map["registration" := Flag(true), "system_name" := Text(systemName)])]
    {
      systemRegistry := systemRegistry[systemId :=
        SystemEntry(systemName, riskLevel, complianceFrameworks, registrationDate, 0)];
      var _ := LogEvent(eventId, timestamp, ConfigChanged, systemId, "system_admin",
                        RegistrationDescription(systemName), complianceFrameworks, riskLevel, "high",
                        Some(map["registration" := Flag(true), "system_name" := Text(systemName)]));
    }

    /** `verify_audit_integrity`: the first logged event with the id is verified
        exactly when its stored hash and signature match the recomputed ones, so in
        a valid trail every logged event verifies. */
    function VerifyAuditIntegrity(eventId: string): (v: Verification)
      reads this
      ensures v.NotFound? <==> forall i :: 0 <= i < |auditEvents| ==> auditEvents[i].eventId != eventId
      ensures v.Verified() <==> FindEvent(auditEvents, eventId).Some?
                                && Intact(H, encryptionKey, FindEvent(auditEvents, eventId).value)
      ensures Valid() && v.Checked? ==> v.Verified()
    {
      VerifyEvent(H, encryptionKey, auditEvents, eventId)
    }

    /** `generate_compliance_report`; an absent or empty date falls back to the
        given default (90 days ago, resp. now). */
    function GenerateComplianceReport(framework: Framework, startDate: Option<string>, endDate: Option<string>,
                                      defaultStart: string, now: string): (r: ComplianceReport)
      reads this
      ensures r.startDate == (if startDate.None? || startDate.value == "" then defaultStart else startDate.value)
      ensures r.endDate == (if endDate.None? || endDate.value == "" then now else endDate.value)
      ensures r == ReportOf(auditEvents, framework, r.startDate, r.endDate)
      ensures r.totalAuditEvents <= |auditEvents|
      ensures 0.0 <= r.complianceScore <= 100.0
    {
      var s := if startDate.None? || startDate.value == "" then defaultStart else startDate.value;
      var e := if endDate.None? || endDate.value == "" then now else endDate.value;
      ReportOf(auditEvents, framework, s, e)
    }

    /** `get_audit_statistics`. */
    function GetAuditStatistics(): (st: Statistics)
      reads this
      ensures st.NoEvents? <==> auditEvents == []
      ensures Valid() && st.Stats? ==> st.integrityVerified && SumNat(st.eventTypeDistribution) == |auditEvents|
    {
      if auditEvents == [] then AuditStatistics(H, encryptionKey, auditEvents, |systemRegistry|)
      else
        StatisticsFacts(H, encryptionKey, auditEvents, |systemRegistry|);
        AuditStatistics(H, encryptionKey, auditEvents, |systemRegistry|)
    }
  }
}
