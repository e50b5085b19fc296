/** The executive governance dashboard: a monitored AI portfolio, its headline
    ratios, the threshold breaches they cause, the resulting portfolio risk label,
    the priority actions and the detailed metrics breakdown. */
module ExecutiveDashboard {
  import opened Wrappers
  import opened Text
  import opened Means
  import opened Sorting

  datatype RiskLevel = Minimal | Limited | High | Unacceptable

  datatype ComplianceStatus = Compliant | InProgress | GapIdentified | NonCompliant

  function RiskLevelValue(l: RiskLevel): string {
    match l
    case Minimal => "minimal"
    case Limited => "limited"
    case High => "high"
    case Unacceptable => "unacceptable"
  }

  function ComplianceStatusValue(s: ComplianceStatus): string {
    match s
    case Compliant => "compliant"
    case InProgress => "in_progress"
    case GapIdentified => "gap_identified"
    case NonCompliant => "non_compliant"
  }

  /** `RiskLevel(v)`: the member whose value is `v`, or a `ValueError`. */
  function ParseRiskLevel(v: string): (r: Result<RiskLevel>)
    ensures r.Success? ==> RiskLevelValue(r.value) == v
    ensures r.Failure? ==> r.error == ValueError(v) && forall l :: RiskLevelValue(l) != v
  {
    if v == RiskLevelValue(Minimal) then Success(Minimal)
    else if v == RiskLevelValue(Limited) then Success(Limited)
    else if v == RiskLevelValue(High) then Success(High)
    else if v == RiskLevelValue(Unacceptable) then Success(Unacceptable)
    else Failure(ValueError(v))
  }

  /** `ComplianceStatus(v)`: the member whose value is `v`, or a `ValueError`. */
  function ParseComplianceStatus(v: string): (r: Result<ComplianceStatus>)
    ensures r.Success? ==> ComplianceStatusValue(r.value) == v
    ensures r.Failure? ==> r.error == ValueError(v) && forall s :: ComplianceStatusValue(s) != v
  {
    if v == ComplianceStatusValue(Compliant) then Success(Compliant)
    else if v == ComplianceStatusValue(InProgress) then Success(InProgress)
    else if v == ComplianceStatusValue(GapIdentified) then Success(GapIdentified)
    else if v == ComplianceStatusValue(NonCompliant) then Success(NonCompliant)
    else Failure(ValueError(v))
  }

  /** Parsing a member's own value gives that member back. */
  lemma ParseValueRoundTrip(l: RiskLevel, s: ComplianceStatus)
    ensures ParseRiskLevel(RiskLevelValue(l)) == Success(l)
    ensures ParseComplianceStatus(ComplianceStatusValue(s)) == Success(s)
  {
    assert RiskLevelValue(l) == RiskLevelValue(ParseRiskLevel(RiskLevelValue(l)).value);
    assert ComplianceStatusValue(s) == ComplianceStatusValue(ParseComplianceStatus(ComplianceStatusValue(s)).value);
  }

  /** One entry of the configuration list: every key of the source's dict is optional. */
  datatype SystemConfig = SystemConfig(
    systemId: Option<string>,
    name: Option<string>,
    riskLevel: Option<string>,
    complianceStatus: Option<string>,
    businessImpact: Option<string>,
    deploymentStatus: Option<string>,
    lastAssessment: Option<string>,
    performanceScore: Option<real>,
    incidentsCount: Option<int>)

  /** `AISystemStatus`. */
  datatype AiSystemStatus = AiSystemStatus(
    systemId: string,
    name: string,
    riskLevel: RiskLevel,
    complianceStatus: ComplianceStatus,
    businessImpact: string,
    deploymentStatus: string,
    lastAssessment: string,
    performanceScore: real,
    incidentsCount: int)

  const SystemIdKey: string := "system_id"
  const RiskLevelKey: string := "risk_level"
  const ComplianceStatusKey: string := "compliance_status"
  const DefaultImpact: string := "medium"
  const DefaultDeployment: string := "production"
  const DefaultPerformance: real := 0.85

  /** The display name used when the config has none: underscores become spaces,
      then the id is title-cased. */
  function DefaultName(id: string): (name: string)
    ensures |name| == |id|
    ensures forall i :: 0 <= i < |id| && id[i] == '_' ==> name[i] == ' '
    ensures id != [] && 'a' <= id[0] <= 'z' ==> name[0] == UpperChar(id[0])
  {
    var spaced := ReplaceChar(id, '_', ' ');
    TitlePointwise(spaced);
    assert forall i :: 0 <= i < |id| && id[i] == '_' ==> Title(spaced)[i] == ' ' by {
      forall i | 0 <= i < |id| && id[i] == '_' ensures Title(spaced)[i] == ' ' {
        assert spaced[i] == ' ';
        assert UpperChar(' ') == ' ' && LowerChar(' ') == ' ';
        assert Title(spaced)[i] == if i > 0 && IsCased(spaced[i - 1]) then LowerChar(spaced[i]) else UpperChar(spaced[i]);
      }
    }
    Title(spaced)
  }

  /** One iteration of `configure_monitoring`; `today` stands for the clock read
      that supplies the default `last_assessment`. */
  function StatusOf(c: SystemConfig, today: string): (r: Result<AiSystemStatus>)
    ensures r.Success? <==>
      && c.systemId.Some? && c.riskLevel.Some? && c.complianceStatus.Some?
      && ParseRiskLevel(c.riskLevel.value).Success?
      && ParseComplianceStatus(c.complianceStatus.value).Success?
    ensures c.systemId.None? ==> r == Failure(KeyError(SystemIdKey))
    ensures c.systemId.Some? && c.riskLevel.None? ==> r == Failure(KeyError(RiskLevelKey))
    ensures c.systemId.Some? && c.riskLevel.Some? && ParseRiskLevel(c.riskLevel.value).Failure? ==>
      r == Failure(ValueError(c.riskLevel.value))
    ensures r.Success? ==>
      && r.value.systemId == c.systemId.value
      && RiskLevelValue(r.value.riskLevel) == c.riskLevel.value
      && ComplianceStatusValue(r.value.complianceStatus) == c.complianceStatus.value
    ensures r.Success? && c.name.None? ==> r.value.name == DefaultName(c.systemId.value)
    ensures r.Success? && c.businessImpact.None? ==> r.value.businessImpact == DefaultImpact
    ensures r.Success? && c.lastAssessment.None? ==> r.value.lastAssessment == today
    ensures r.Success? && c.performanceScore.None? ==> r.value.performanceScore == DefaultPerformance
    ensures r.Success? && c.incidentsCount.None? ==> r.value.incidentsCount == 0
  {
    if c.systemId.None? then Failure(KeyError(SystemIdKey))
    else
      var id := c.systemId.value;
      var name := c.name.GetOr(DefaultName(id));
      if c.riskLevel.None? then Failure(KeyError(RiskLevelKey))
      else
        var level :- ParseRiskLevel(c.riskLevel.value);
        if c.complianceStatus.None? then Failure(KeyError(ComplianceStatusKey))
        else
          var status :- ParseComplianceStatus(c.complianceStatus.value);
          Success(AiSystemStatus(id, name, level, status, c.businessImpact.GetOr(DefaultImpact),
                                 c.deploymentStatus.GetOr(DefaultDeployment), c.lastAssessment.GetOr(today),
                                 c.performanceScore.GetOr(DefaultPerformance), c.incidentsCount.GetOr(0)))
  }

  /** The portfolio `configure_monitoring` builds: one status per config, in order,
      or the exception of the first config that raises. */
  function ConfigureAll(cs: seq<SystemConfig>, today: string): (r: Result<seq<AiSystemStatus>>)
    ensures r.Success? <==> forall i :: 0 <= i < |cs| ==> StatusOf(cs[i], today).Success?
    ensures r.Success? ==> |r.value| == |cs| && forall i :: 0 <= i < |cs| ==> r.value[i] == StatusOf(cs[i], today).value
    ensures r.Failure? ==>
      exists i :: 0 <= i < |cs| && StatusOf(cs[i], today) == Failure(r.error)
                  && forall j :: 0 <= j < i ==> StatusOf(cs[j], today).Success?
  {
    if cs == [] then Success([])
    else
      var init := ConfigureAll(cs[..|cs| - 1], today);
      var last := StatusOf(cs[|cs| - 1], today);
      assert forall i :: 0 <= i < |cs| - 1 ==> cs[..|cs| - 1][i] == cs[i];
      if init.Failure? then Failure(init.error)
      else if last.Failure? then Failure(last.error)
      else Success(init.value + [last.value])
  }

  lemma ConfigureAllStep(cs: seq<SystemConfig>, k: nat, today: string)
    requires k < |cs|
    ensures ConfigureAll(cs[..k + 1], today) ==
      match ConfigureAll(cs[..k], today)
      case Failure(e) => Failure(e)
      case Success(init) =>
        match StatusOf(cs[k], today)
        case Failure(e) => Failure(e)
        case Success(s) => Success(init + [s])
  {
    assert cs[..k + 1][..k] == cs[..k];
  }

  lemma {:induction false} ConfigureAllPrefixFailure(cs: seq<SystemConfig>, n: nat, today: string)
    requires n <= |cs| && ConfigureAll(cs[..n], today).Failure?
    ensures ConfigureAll(cs, today) == ConfigureAll(cs[..n], today)
    decreases |cs| - n
  {
    if n < |cs| {
      assert cs[..n + 1][..n] == cs[..n];
      ConfigureAllPrefixFailure(cs, n + 1, today);
    } else {
      assert cs[..n] == cs;
    }
  }

  /** Which systems a list comprehension of the source keeps. */
  datatype Filter =
    | NotCompliant
    | RiskIs(level: RiskLevel)
    | StatusIs(status: ComplianceStatus)
    | PerformanceBelow(bound: real)
    | HasIncidents
    | ImpactIs(impact: string)

  predicate Selects(f: Filter, s: AiSystemStatus) {
    match f
    case NotCompliant => s.complianceStatus != Compliant
    case RiskIs(l) => s.riskLevel == l
    case StatusIs(st) => s.complianceStatus == st
    case PerformanceBelow(b) => s.performanceScore < b
    case HasIncidents => s.incidentsCount > 0
    case ImpactIs(i) => s.businessImpact == i
  }

  /** `[s for s in p if ...]`: the selected systems in portfolio order. */
  function Where(p: seq<AiSystemStatus>, f: Filter): (r: seq<AiSystemStatus>)
    ensures |r| <= |p|
  {
    if p == [] then []
    else Where(p[..|p| - 1], f) + (if Selects(f, p[|p| - 1]) then [p[|p| - 1]] else [])
  }

  /** A filter keeps exactly the selected systems. */
  lemma {:induction false} WhereMembers(p: seq<AiSystemStatus>, f: Filter)
    ensures forall x :: x in Where(p, f) <==> x in p && Selects(f, x)
  {
    if p != [] {
      var n := |p| - 1;
      assert p == p[..n] + [p[n]];
      WhereMembers(p[..n], f);
    }
  }

  /** A filter keeps nothing exactly when no system is selected, and everything
      exactly when every system is. */
  lemma {:induction false} WhereCount(p: seq<AiSystemStatus>, f: Filter)
    ensures Where(p, f) == [] <==> forall i :: 0 <= i < |p| ==> !Selects(f, p[i])
    ensures |Where(p, f)| == |p| <==> forall i :: 0 <= i < |p| ==> Selects(f, p[i])
  {
    if p != [] {
      var n := |p| - 1;
      var init := p[..n];
      assert forall i :: 0 <= i < n ==> init[i] == p[i];
      WhereCount(init, f);
      if |Where(p, f)| == |p| {
        assert |Where(init, f)| == n && Selects(f, p[n]);
      }
    }
  }

  lemma WhereStep(p: seq<AiSystemStatus>, k: nat, f: Filter)
    requires k < |p|
    ensures Where(p[..k + 1], f) == Where(p[..k], f) + (if Selects(f, p[k]) then [p[k]] else [])
  {
    assert p[..k + 1][..k] == p[..k];
  }

  function Ids(p: seq<AiSystemStatus>): (ids: seq<string>)
    ensures |ids| == |p| && forall i :: 0 <= i < |p| ==> ids[i] == p[i].systemId
  {
    seq(|p|, i requires 0 <= i < |p| => p[i].systemId)
  }

  function Ratio(part: nat, whole: nat): (r: real)
    requires part <= whole && whole > 0
    ensures 0.0 <= r <= 1.0
    ensures r == 0.0 <==> part == 0
    ensures r == 1.0 <==> part == whole
  {
    QuotientBounds(part as real, whole as real, 0.0, 1.0);
    part as real / whole as real
  }

  function PerformanceSum(p: seq<AiSystemStatus>): real {
    if p == [] then 0.0 else PerformanceSum(p[..|p| - 1]) + p[|p| - 1].performanceScore
  }

  /** The four ratios the portfolio is judged on. */
  datatype Rates = Rates(compliance: real, highRisk: real, incident: real, performance: real)

  /** `portfolio_overview` of the executive report. */
  datatype PortfolioOverview = PortfolioOverview(
    totalSystems: nat,
    compliancePercentage: real,
    highRiskCount: nat,
    systemsWithIncidents: nat,
    averagePerformance: real)

  /** The key metrics of `generate_executive_report`. Only `High` systems count as
      high-risk: an `Unacceptable` system does not. */
  function OverviewOf(p: seq<AiSystemStatus>): (o: PortfolioOverview)
    requires p != []
    ensures o.totalSystems == |p|
    ensures 0.0 <= o.compliancePercentage <= 1.0
    ensures o.compliancePercentage == 1.0 <==> forall i :: 0 <= i < |p| ==> p[i].complianceStatus == Compliant
    ensures o.highRiskCount <= |p| && o.systemsWithIncidents <= |p|
    ensures o.highRiskCount == 0 <==> forall i :: 0 <= i < |p| ==> p[i].riskLevel != High
    ensures o.systemsWithIncidents == 0 <==> forall i :: 0 <= i < |p| ==> p[i].incidentsCount <= 0
  {
    WhereCount(p, StatusIs(Compliant));
    WhereCount(p, RiskIs(High));
    WhereCount(p, HasIncidents);
    PortfolioOverview(|p|, Ratio(|Where(p, StatusIs(Compliant))|, |p|), |Where(p, RiskIs(High))|,
                      |Where(p, HasIncidents)|, PerformanceSum(p) / |p| as real)
  }

  function RatesOf(o: PortfolioOverview): (r: Rates)
    requires o.totalSystems > 0 && o.highRiskCount <= o.totalSystems && o.systemsWithIncidents <= o.totalSystems
    ensures 0.0 <= r.highRisk <= 1.0 && 0.0 <= r.incident <= 1.0
    ensures r.highRisk == 0.0 <==> o.highRiskCount == 0
    ensures r.incident == 0.0 <==> o.systemsWithIncidents == 0
  {
    Rates(o.compliancePercentage, Ratio(o.highRiskCount, o.totalSystems),
          Ratio(o.systemsWithIncidents, o.totalSystems), o.averagePerformance)
  }

  const HighRiskSystemsMax: real := 0.20
  const ComplianceRateMin: real := 0.85
  const IncidentRateMax: real := 0.05
  const PerformanceScoreMin: real := 0.80

  /** The keys of `threshold_compliance`, in the order they are checked. */
  datatype Threshold = ComplianceThreshold | HighRiskThreshold | IncidentThreshold | PerformanceThreshold

  const Thresholds: seq<Threshold> := [ComplianceThreshold, HighRiskThreshold, IncidentThreshold, PerformanceThreshold]

  datatype ThresholdStatus = Ok | Breach

  function RateFor(t: Threshold, rates: Rates): real {
    match t
    case ComplianceThreshold => rates.compliance
    case HighRiskThreshold => rates.highRisk
    case IncidentThreshold => rates.incident
    case PerformanceThreshold => rates.performance
  }

  /** Whether a rate is on the wrong side of its threshold: the minimums are strict
      lower bounds, the maximums strict upper bounds. */
  predicate Breached(t: Threshold, rates: Rates) {
    match t
    case ComplianceThreshold => rates.compliance < ComplianceRateMin
    case HighRiskThreshold => rates.highRisk > HighRiskSystemsMax
    case IncidentThreshold => rates.incident > IncidentRateMax
    case PerformanceThreshold => rates.performance < PerformanceScoreMin
  }

  function CountBreaches(ts: seq<Threshold>, rates: Rates): (n: nat)
    ensures n <= |ts|
  {
    if ts == [] then 0
    else CountBreaches(ts[..|ts| - 1], rates) + (if Breached(ts[|ts| - 1], rates) then 1 else 0)
  }

  lemma CountBreachesStep(ts: seq<Threshold>, k: nat, rates: Rates)
    requires k < |ts|
    ensures CountBreaches(ts[..k + 1], rates) == CountBreaches(ts[..k], rates) + (if Breached(ts[k], rates) then 1 else 0)
  {
    assert ts[..k + 1][..k] == ts[..k];
  }

  /** The number of breached thresholds, spelled out over the four of them. */
  lemma BreachCountOfFour(rates: Rates)
    ensures CountBreaches(Thresholds, rates) ==
      (if Breached(ComplianceThreshold, rates) then 1 else 0) + (if Breached(HighRiskThreshold, rates) then 1 else 0)
      + (if Breached(IncidentThreshold, rates) then 1 else 0) + (if Breached(PerformanceThreshold, rates) then 1 else 0)
  {
    var ts := Thresholds;
    assert ts[..0] == [];
    CountBreachesStep(ts, 0, rates);
    CountBreachesStep(ts, 1, rates);
    CountBreachesStep(ts, 2, rates);
    CountBreachesStep(ts, 3, rates);
    assert ts[..4] == ts;
  }

  datatype OverallRisk = RiskCritical | RiskHigh | RiskMedium | RiskLow

  function OverallRiskOf(breaches: nat): (r: OverallRisk)
    ensures r == RiskCritical <==> breaches >= 3
    ensures r == RiskHigh <==> breaches == 2
    ensures r == RiskMedium <==> breaches == 1
    ensures r == RiskLow <==> breaches == 0
  {
    if breaches >= 3 then RiskCritical
    else if breaches >= 2 then RiskHigh
    else if breaches >= 1 then RiskMedium
    else RiskLow
  }

  /** One entry of `risk_factors`: the threshold broken and the rate that broke it. */
  datatype RiskFactor = RiskFactor(threshold: Threshold, rate: real)

  datatype PortfolioRisk = PortfolioRisk(
    overall: OverallRisk,
    riskFactors: seq<RiskFactor>,
    thresholdStatus: map<Threshold, ThresholdStatus>)

  function FactorIf(t: Threshold, rates: Rates): seq<RiskFactor> {
    if Breached(t, rates) then [RiskFactor(t, RateFor(t, rates))] else []
  }

  const AllThresholds: set<Threshold> := {ComplianceThreshold, HighRiskThreshold, IncidentThreshold, PerformanceThreshold}

  function StatusMap(rates: Rates): map<Threshold, ThresholdStatus> {
    map t | t in AllThresholds :: if Breached(t, rates) then Breach else Ok
  }

  /** What `_assess_portfolio_risk` returns. */
  function PortfolioRiskOf(rates: Rates): PortfolioRisk {
    PortfolioRisk(
      OverallRiskOf(CountBreaches(Thresholds, rates)),
      FactorIf(ComplianceThreshold, rates) + FactorIf(HighRiskThreshold, rates)
        + FactorIf(IncidentThreshold, rates) + FactorIf(PerformanceThreshold, rates),
      StatusMap(rates))
  }

  /** The status map holds exactly the four thresholds, each marked as breached
      exactly when its rate is on the wrong side; there is one risk factor per
      breach, carrying the offending rate. */
  lemma PortfolioRiskFacts(rates: Rates)
    ensures PortfolioRiskOf(rates).thresholdStatus.Keys == AllThresholds
    ensures forall t :: t in PortfolioRiskOf(rates).thresholdStatus ==>
      (PortfolioRiskOf(rates).thresholdStatus[t] == Breach <==> Breached(t, rates))
    ensures |PortfolioRiskOf(rates).riskFactors| == CountBreaches(Thresholds, rates) <= 4
    ensures forall f :: f in PortfolioRiskOf(rates).riskFactors ==> Breached(f.threshold, rates) && f.rate == RateFor(f.threshold, rates)
  {
    BreachCountOfFour(rates);
  }

  /** `_assess_portfolio_risk`, filling the status map check by check and then
      counting the breaches among its values. */
  method AssessPortfolioRisk(rates: Rates) returns (r: PortfolioRisk)
    ensures r == PortfolioRiskOf(rates)
  {
    var factors: seq<RiskFactor> := [];
    var status: map<Threshold, ThresholdStatus> := map[];
    if rates.compliance < ComplianceRateMin {
      factors := factors + [RiskFactor(ComplianceThreshold, rates.compliance)];
      status := status[ComplianceThreshold := Breach];
    } else {
      status := status[ComplianceThreshold := Ok];
    }
    assert factors == FactorIf(ComplianceThreshold, rates);
    if rates.highRisk > HighRiskSystemsMax {
      factors := factors + [RiskFactor(HighRiskThreshold, rates.highRisk)];
      status := status[HighRiskThreshold := Breach];
    } else {
      status := status[HighRiskThreshold := Ok];
    }
    assert factors == FactorIf(ComplianceThreshold, rates) + FactorIf(HighRiskThreshold, rates);
    if rates.incident > IncidentRateMax {
      factors := factors + [RiskFactor(IncidentThreshold, rates.incident)];
      status := status[IncidentThreshold := Breach];
    } else {
      status := status[IncidentThreshold := Ok];
    }
    assert factors == FactorIf(ComplianceThreshold, rates) + FactorIf(HighRiskThreshold, rates)
                      + FactorIf(IncidentThreshold, rates);
    if rates.performance < PerformanceScoreMin {
      factors := factors + [RiskFactor(PerformanceThreshold, rates.performance)];
      status := status[PerformanceThreshold := Breach];
    } else {
      status := status[PerformanceThreshold := Ok];
    }
    assert status.Keys == AllThresholds;
    assert status == StatusMap(rates);
    var breachCount := CountBreachStatuses(status, rates);
    r := PortfolioRisk(OverallRiskOf(breachCount), factors, status);
  }

  /** `sum(1 for status in threshold_compliance.values() if status == "BREACH")`. */
  method CountBreachStatuses(status: map<Threshold, ThresholdStatus>, ghost rates: Rates) returns (n: nat)
    requires forall t :: t in AllThresholds ==> t in status && (status[t] == Breach <==> Breached(t, rates))
    ensures n == CountBreaches(Thresholds, rates)
  {
    n := 0;
    for i := 0 to |Thresholds|
      invariant n == CountBreaches(Thresholds[..i], rates)
    {
      CountBreachesStep(Thresholds, i, rates);
      if status[Thresholds[i]] == Breach {
        n := n + 1;
      }
    }
    WholePrefix(Thresholds);
  }

  /** Overall risk is `CRITICAL` at three or more breaches, `HIGH` at two, `MEDIUM`
      at one and `LOW` at none; a perfect portfolio is `LOW`. */
  lemma OverallRiskBands(rates: Rates)
    ensures PortfolioRiskOf(rates).overall == RiskLow <==> forall t :: !Breached(t, rates)
    ensures (rates.compliance < ComplianceRateMin && rates.highRisk > HighRiskSystemsMax
             && rates.incident > IncidentRateMax) ==> PortfolioRiskOf(rates).overall == RiskCritical
  {
    BreachCountOfFour(rates);
    if PortfolioRiskOf(rates).overall == RiskLow {
      forall t ensures !Breached(t, rates) {
        match t
        case ComplianceThreshold =>
        case HighRiskThreshold =>
        case IncidentThreshold =>
        case PerformanceThreshold =>
      }
    } else {
      assert Breached(ComplianceThreshold, rates) || Breached(HighRiskThreshold, rates)
        || Breached(IncidentThreshold, rates) || Breached(PerformanceThreshold, rates);
    }
  }

  datatype ActionPriority = PriorityCritical | PriorityHigh | PriorityMedium | PriorityLow

  /** The sort key of `_generate_action_items`. */
  function PriorityRank(p: ActionPriority): nat {
    match p
    case PriorityCritical => 1
    case PriorityHigh => 2
    case PriorityMedium => 3
    case PriorityLow => 4
  }

  datatype ActionCategory = ComplianceEffort | RiskManagement | PerformanceOptimisation | GovernanceReview

  /** The owner named for each category of action. */
  function Owner(c: ActionCategory): string {
    match c
    case ComplianceEffort => "Chief Compliance Officer"
    case RiskManagement => "Chief Risk Officer"
    case PerformanceOptimisation => "Chief Technology Officer"
    case GovernanceReview => "AI Ethics Committee"
  }

  datatype Affected = Systems(ids: seq<string>) | AllSystems

  datatype ExecutiveAction = ExecutiveAction(
    priority: ActionPriority,
    category: ActionCategory,
    timelineDays: nat,
    affected: Affected)

  function ActionRank(a: ExecutiveAction): nat {
    PriorityRank(a.priority)
  }

  /** The action raised for a non-empty list of systems of one category. */
  function SystemsAction(c: ActionCategory, s: seq<AiSystemStatus>): ExecutiveAction {
    match c
    case ComplianceEffort => ExecutiveAction(PriorityHigh, c, 30, Systems(Ids(s)))
    case RiskManagement => ExecutiveAction(PriorityHigh, c, 14, Systems(Ids(s)))
    case PerformanceOptimisation => ExecutiveAction(PriorityMedium, c, 60, Systems(Ids(s)))
    case GovernanceReview => ExecutiveAction(PriorityCritical, c, 7, AllSystems)
  }

  const GovernanceAction: ExecutiveAction := ExecutiveAction(PriorityCritical, GovernanceReview, 7, AllSystems)

  const PoorPerformanceBound: real := 0.75

  function ActionIf(c: ActionCategory, s: seq<AiSystemStatus>): seq<ExecutiveAction> {
    if s == [] then [] else [SystemsAction(c, s)]
  }

  /** The per-system actions, in the order they are raised. */
  function SystemActions(p: seq<AiSystemStatus>): seq<ExecutiveAction> {
    ActionIf(ComplianceEffort, Where(p, NotCompliant))
    + ActionIf(RiskManagement, Where(p, RiskIs(High)))
    + ActionIf(PerformanceOptimisation, Where(p, PerformanceBelow(PoorPerformanceBound)))
  }

  predicate NeedsGovernanceReview(overall: OverallRisk) {
    overall == RiskCritical || overall == RiskHigh
  }

  /** `_generate_action_items`: the actions as raised, stably sorted by priority. */
  function ExecutiveActions(p: seq<AiSystemStatus>, overall: OverallRisk): seq<ExecutiveAction> {
    SortBy(SystemActions(p) + (if NeedsGovernanceReview(overall) then [GovernanceAction] else []), ActionRank, NatLe)
  }

  lemma SystemActionsRanked(p: seq<AiSystemStatus>)
    ensures SortedBy(SystemActions(p), ActionRank, NatLe)
    ensures forall i :: 0 <= i < |SystemActions(p)| ==> ActionRank(SystemActions(p)[i]) >= 2
  {
  }

  /** An action of a category is raised exactly when some system falls in that
      category, and it names those systems; no per-system action is the governance
      review. */
  /** The action raised for a category lists the systems this filter keeps. */
  function CategoryFilter(c: ActionCategory): Filter {
    match c
    case ComplianceEffort => NotCompliant
    case RiskManagement => RiskIs(High)
    case PerformanceOptimisation => PerformanceBelow(PoorPerformanceBound)
    case GovernanceReview => NotCompliant
  }

  function CategoryAction(p: seq<AiSystemStatus>, c: ActionCategory): ExecutiveAction {
    SystemsAction(c, Where(p, CategoryFilter(c)))
  }

  /** An action of a per-system category is raised exactly when some system falls
      in that category, and it names those systems; the governance review is never
      one of them. */
  lemma SystemActionsContents(p: seq<AiSystemStatus>, c: ActionCategory)
    requires c != GovernanceReview
    ensures CategoryAction(p, c) in SystemActions(p) <==> exists i :: 0 <= i < |p| && Selects(CategoryFilter(c), p[i])
    ensures GovernanceAction !in SystemActions(p)
  {
    var a := ActionIf(ComplianceEffort, Where(p, NotCompliant));
    var b := ActionIf(RiskManagement, Where(p, RiskIs(High)));
    var d := ActionIf(PerformanceOptimisation, Where(p, PerformanceBelow(PoorPerformanceBound)));
    assert SystemActions(p) == a + b + d;
    forall x ensures x in SystemActions(p) <==> x in a || x in b || x in d {
    }
    assert forall x :: x in a ==> x.category == ComplianceEffort;
    assert forall x :: x in b ==> x.category == RiskManagement;
    assert forall x :: x in d ==> x.category == PerformanceOptimisation;
    assert CategoryAction(p, c).category == c;
    WhereCount(p, CategoryFilter(c));
  }

  /** The governance review, when raised, heads the list; otherwise the actions
      keep the order in which they were raised. */
  lemma ExecutiveActionsShape(p: seq<AiSystemStatus>, overall: OverallRisk)
    ensures ExecutiveActions(p, overall) ==
      if NeedsGovernanceReview(overall) then [GovernanceAction] + SystemActions(p) else SystemActions(p)
  {
    var s := SystemActions(p);
    SystemActionsRanked(p);
    if NeedsGovernanceReview(overall) {
      SortByMovesSmallestFirst(s, GovernanceAction, ActionRank, NatLe);
    } else {
      assert s + [] == s;
      SortBySortedIdentity(s, ActionRank, NatLe);
    }
  }

  /** The governance review is raised exactly when the overall risk is `CRITICAL` or
      `HIGH`, and the list is ordered by priority. */
  lemma ExecutiveActionsFacts(p: seq<AiSystemStatus>, overall: OverallRisk)
    ensures GovernanceAction in ExecutiveActions(p, overall) <==> NeedsGovernanceReview(overall)
    ensures SortedBy(ExecutiveActions(p, overall), ActionRank, NatLe)
  {
    var s := SystemActions(p);
    ExecutiveActionsShape(p, overall);
    SystemActionsRanked(p);
    assert GovernanceAction !in s by {
      forall i | 0 <= i < |s| ensures s[i] != GovernanceAction {
        assert ActionRank(s[i]) >= 2;
      }
    }
    if NeedsGovernanceReview(overall) {
      GovernanceFirstSorted(s);
    }
  }

  /** The governance review, of critical priority, can head any list of per-system
      actions ranked by priority. */
  lemma GovernanceFirstSorted(s: seq<ExecutiveAction>)
    requires SortedBy(s, ActionRank, NatLe)
    requires forall i :: 0 <= i < |s| ==> ActionRank(s[i]) >= 2
    ensures SortedBy([GovernanceAction] + s, ActionRank, NatLe)
  {
    var r := [GovernanceAction] + s;
    forall i, j | 0 <= i < j < |r| ensures NatLe(ActionRank(r[i]), ActionRank(r[j])) {
      if i > 0 {
        assert r[i] == s[i - 1] && r[j] == s[j - 1];
      } else {
        assert r[j] == s[j - 1];
      }
    }
  }

  /** `risk_distribution`, keyed by level. */
  function RiskDistribution(p: seq<AiSystemStatus>): map<RiskLevel, nat> {
    map l | l in {Minimal, Limited, High, Unacceptable} :: |Where(p, RiskIs(l))|
  }

  /** `compliance_distribution`, keyed by status. */
  function ComplianceDistribution(p: seq<AiSystemStatus>): map<ComplianceStatus, nat> {
    map s | s in {Compliant, InProgress, GapIdentified, NonCompliant} :: |Where(p, StatusIs(s))|
  }

  /** Every system has exactly one level and one status, so each distribution adds
      up to the portfolio size. */
  lemma {:induction false} DistributionsSumToSize(p: seq<AiSystemStatus>)
    ensures |Where(p, RiskIs(Minimal))| + |Where(p, RiskIs(Limited))| + |Where(p, RiskIs(High))|
            + |Where(p, RiskIs(Unacceptable))| == |p|
    ensures |Where(p, StatusIs(Compliant))| + |Where(p, StatusIs(InProgress))| + |Where(p, StatusIs(GapIdentified))|
            + |Where(p, StatusIs(NonCompliant))| == |p|
  {
    if p != [] {
      var n := |p| - 1;
      assert p[..n + 1] == p;
      WhereStep(p, n, RiskIs(Minimal));
      WhereStep(p, n, RiskIs(Limited));
      WhereStep(p, n, RiskIs(High));
      WhereStep(p, n, RiskIs(Unacceptable));
      WhereStep(p, n, StatusIs(Compliant));
      WhereStep(p, n, StatusIs(InProgress));
      WhereStep(p, n, StatusIs(GapIdentified));
      WhereStep(p, n, StatusIs(NonCompliant));
      DistributionsSumToSize(p[..n]);
    }
  }

  /** `business_impact_distribution`: how many systems carry each impact label. */
  function ImpactDistribution(p: seq<AiSystemStatus>): map<string, nat> {
    if p == [] then map[]
    else
      var m := ImpactDistribution(p[..|p| - 1]);
      var k := p[|p| - 1].businessImpact;
      m[k := (if k in m then m[k] else 0) + 1]
  }

  /** The labels counted are exactly those in the portfolio, and each count is the
      number of systems carrying that label. */
  lemma {:induction false} ImpactDistributionCounts(p: seq<AiSystemStatus>)
    ensures forall k :: k in ImpactDistribution(p) <==> exists i :: 0 <= i < |p| && p[i].businessImpact == k
    ensures forall k :: k in ImpactDistribution(p) ==> ImpactDistribution(p)[k] == |Where(p, ImpactIs(k))|
  {
    if p != [] {
      var n := |p| - 1;
      var init := p[..n];
      ImpactDistributionCounts(init);
      var m := ImpactDistribution(init);
      var k := p[n].businessImpact;
      assert forall i :: 0 <= i < n ==> init[i] == p[i];
      assert p[..n + 1] == p;
      forall j | j in ImpactDistribution(p)
        ensures ImpactDistribution(p)[j] == |Where(p, ImpactIs(j))|
      {
        WhereStep(p, n, ImpactIs(j));
        if j == k && k !in m {
          WhereCount(init, ImpactIs(j));
        }
      }
      forall j ensures j in ImpactDistribution(p) <==> exists i :: 0 <= i < |p| && p[i].businessImpact == j {
        if j in ImpactDistribution(p) && j != k {
          var i :| 0 <= i < n && init[i].businessImpact == j;
          assert p[i].businessImpact == j;
        }
      }
    }
  }

  /** The loop of `_generate_detailed_metrics` that counts impact labels. */
  method BusinessImpactDistribution(p: seq<AiSystemStatus>) returns (m: map<string, nat>)
    ensures m == ImpactDistribution(p)
  {
    m := map[];
    for i := 0 to |p|
      invariant m == ImpactDistribution(p[..i])
    {
      assert p[..i + 1][..i] == p[..i];
      var impact := p[i].businessImpact;
      m := m[impact := (if impact in m then m[impact] else 0) + 1];
    }
    assert p[..|p|] == p;
  }

  function MaxPerformance(p: seq<AiSystemStatus>): (r: real)
    requires p != []
    ensures forall i :: 0 <= i < |p| ==> p[i].performanceScore <= r
    ensures exists i :: 0 <= i < |p| && p[i].performanceScore == r
  {
    if |p| == 1 then p[0].performanceScore
    else
      var m := MaxPerformance(p[..|p| - 1]);
      assert forall i :: 0 <= i < |p| - 1 ==> p[..|p| - 1][i] == p[i];
      if p[|p| - 1].performanceScore > m then p[|p| - 1].performanceScore else m
  }

  function MinPerformance(p: seq<AiSystemStatus>): (r: real)
    requires p != []
    ensures forall i :: 0 <= i < |p| ==> r <= p[i].performanceScore
    ensures exists i :: 0 <= i < |p| && p[i].performanceScore == r
  {
    if |p| == 1 then p[0].performanceScore
    else
      var m := MinPerformance(p[..|p| - 1]);
      assert forall i :: 0 <= i < |p| - 1 ==> p[..|p| - 1][i] == p[i];
      if p[|p| - 1].performanceScore < m then p[|p| - 1].performanceScore else m
  }

  lemma {:induction false} PerformanceSumBounds(p: seq<AiSystemStatus>, lo: real, hi: real)
    requires forall i :: 0 <= i < |p| ==> lo <= p[i].performanceScore <= hi
    ensures lo * |p| as real <= PerformanceSum(p) <= hi * |p| as real
  {
    if p != [] {
      var n := |p| - 1;
      assert forall i :: 0 <= i < n ==> p[..n][i] == p[i];
      PerformanceSumBounds(p[..n], lo, hi);
      assert lo * (n + 1) as real == lo * n as real + lo;
      assert hi * (n + 1) as real == hi * n as real + hi;
    }
  }

  lemma AverageWithin(p: seq<AiSystemStatus>, lo: real, hi: real)
    requires p != []
    requires forall i :: 0 <= i < |p| ==> lo <= p[i].performanceScore <= hi
    ensures lo <= PerformanceSum(p) / |p| as real <= hi
  {
    PerformanceSumBounds(p, lo, hi);
    QuotientBounds(PerformanceSum(p), |p| as real, lo, hi);
  }

  /** The average score lies between the lowest and the highest. */
  lemma AveragePerformanceBetween(p: seq<AiSystemStatus>)
    requires p != []
    ensures MinPerformance(p) <= PerformanceSum(p) / |p| as real <= MaxPerformance(p)
  {
    AverageWithin(p, MinPerformance(p), MaxPerformance(p));
  }

  function IncidentTotal(p: seq<AiSystemStatus>): int {
    if p == [] then 0 else IncidentTotal(p[..|p| - 1]) + p[|p| - 1].incidentsCount
  }

  /** With no negative counts, the total is zero exactly when no system has an
      incident. */
  lemma {:induction false} IncidentTotalAgrees(p: seq<AiSystemStatus>)
    requires forall i :: 0 <= i < |p| ==> p[i].incidentsCount >= 0
    ensures IncidentTotal(p) >= 0
    ensures IncidentTotal(p) == 0 <==> Where(p, HasIncidents) == []
  {
    if p != [] {
      var n := |p| - 1;
      assert forall i :: 0 <= i < n ==> p[..n][i] == p[i];
      IncidentTotalAgrees(p[..n]);
      assert p[..n + 1] == p;
      WhereStep(p, n, HasIncidents);
    }
  }

  datatype DetailedMetrics = DetailedMetrics(
    riskDistribution: map<RiskLevel, nat>,
    complianceDistribution: map<ComplianceStatus, nat>,
    businessImpactDistribution: map<string, nat>,
    averageScore: real,
    highestScore: real,
    lowestScore: real,
    totalIncidents: int,
    systemsWithIncidents: nat,
    incidentRate: real)

  /** `_generate_detailed_metrics`, which is only reached with a non-empty portfolio. */
  function DetailedMetricsOf(p: seq<AiSystemStatus>): (d: DetailedMetrics)
    requires p != []
    ensures d.systemsWithIncidents <= |p| && 0.0 <= d.incidentRate <= 1.0
  {
    var withIncidents := |Where(p, HasIncidents)|;
    DetailedMetrics(RiskDistribution(p), ComplianceDistribution(p), ImpactDistribution(p),
                    PerformanceSum(p) / |p| as real, MaxPerformance(p), MinPerformance(p),
                    IncidentTotal(p), withIncidents, Ratio(withIncidents, |p|))
  }

  /** Both distributions cover every level and status and add up to the portfolio
      size; the average score lies between the lowest and the highest. */
  lemma DetailedMetricsFacts(p: seq<AiSystemStatus>)
    requires p != []
    ensures var d := DetailedMetricsOf(p);
      && d.riskDistribution.Keys == {Minimal, Limited, High, Unacceptable}
      && d.riskDistribution[Minimal] + d.riskDistribution[Limited] + d.riskDistribution[High]
         + d.riskDistribution[Unacceptable] == |p|
      && d.complianceDistribution.Keys == {Compliant, InProgress, GapIdentified, NonCompliant}
      && d.complianceDistribution[Compliant] + d.complianceDistribution[InProgress]
         + d.complianceDistribution[GapIdentified] + d.complianceDistribution[NonCompliant] == |p|
      && d.lowestScore <= d.averageScore <= d.highestScore
  {
    DistributionsSumToSize(p);
    AveragePerformanceBetween(p);
  }

  datatype ExecutiveReport =
    | NoSystemsConfigured
    | Report(
        reportingPeriod: string,
        generationDate: string,
        stakeholderLevel: string,
        overview: PortfolioOverview,
        risk: PortfolioRisk,
        priorityActions: seq<ExecutiveAction>,
        metrics: DetailedMetrics)

  /** `generate_executive_report`; `now` stands for the generation timestamp. */
  function ExecutiveReportOf(p: seq<AiSystemStatus>, period: string, stakeholder: string, now: string): (r: ExecutiveReport)
    ensures r.NoSystemsConfigured? <==> p == []
  {
    if p == [] then NoSystemsConfigured
    else
      var overview := OverviewOf(p);
      var risk := PortfolioRiskOf(RatesOf(overview));
      Report(period, now, stakeholder, overview, risk, ExecutiveActions(p, risk.overall), DetailedMetricsOf(p))
  }

  /** A report covers the whole portfolio, and it calls for the emergency governance
      review exactly when at least two of the four thresholds are breached. */
  lemma ExecutiveReportFacts(p: seq<AiSystemStatus>, period: string, stakeholder: string, now: string)
    requires p != []
    ensures var r := ExecutiveReportOf(p, period, stakeholder, now);
      && r.overview.totalSystems == |p|
      && (GovernanceAction in r.priorityActions <==> |r.risk.riskFactors| >= 2)
  {
    var overview := OverviewOf(p);
    var rates := RatesOf(overview);
    PortfolioRiskFacts(rates);
    ExecutiveActionsFacts(p, PortfolioRiskOf(rates).overall);
  }

  /** `GovernanceDashboard`: the monitored portfolio. */
  class GovernanceDashboard {
    var portfolioData: seq<AiSystemStatus>

    constructor()
      ensures portfolioData == []
    {
      portfolioData := [];
    }

    /** `configure_monitoring`: replaces the portfolio with one status per config;
        a config that raises leaves the portfolio as it was. */
    method ConfigureMonitoring(cs: seq<SystemConfig>, today: string) returns (r: Result<seq<AiSystemStatus>>)
      modifies this
      ensures r == ConfigureAll(cs, today)
      ensures r.Success? ==> portfolioData == r.value
      ensures r.Failure? ==> portfolioData == old(portfolioData)
    {
      var portfolio: seq<AiSystemStatus> := [];
      var i := 0;
      while i < |cs|
        invariant 0 <= i <= |cs|
        invariant ConfigureAll(cs[..i], today) == Success(portfolio)
        invariant portfolioData == old(portfolioData)
      {
        ConfigureAllStep(cs, i, today);
        var status := StatusOf(cs[i], today);
        if status.Failure? {
          ConfigureAllPrefixFailure(cs, i + 1, today);
          return Failure(status.error);
        }
        portfolio := portfolio + [status.value];
        i := i + 1;
      }
      assert cs[..i] == cs;
      portfolioData := portfolio;
      r := Success(portfolio);
    }
  }
}
