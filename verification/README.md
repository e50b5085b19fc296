# Verity AI governance showcase — a Dafny model of its decision core

This project models, in Dafny, the deterministic decision and aggregation
procedures of the AI-governance showcase. It covers ten source files:

- **Audit trail** (`AuditTrail`, `audit_trail.dfy`): an append-only event log.
  Each event gets its own content hash and a keyed signature, with no chaining.
  On top of it sit integrity verification, the per-framework compliance report
  with its coverage score, and the audit statistics. The builder is a class:
  its event list is a `seq` field and its system registry a `map` field.
  SHA-256 is the uninterpreted function `H` given to the constructor, so every
  property holds for any hash function. The signing key, the clock reading
  and the event identifier are parameters.
- **Risk scoring engine** (`RiskScoring`, `risk_scoring.dfy`): per-factor
  decision tables clamped to [1, 5], weighted means per dimension and over
  the dimensions present, the four-band risk classifier, the confidence clamp
  to [0.3, 1.0], the critical-factor list and the three mitigation priorities.
- **Compliance checker** (`ComplianceChecker`, `compliance_checker.dfy`):
  flag-driven requirement scores, framework means, the weighted overall score,
  status and risk bands, certification readiness, the grouped priority
  actions, and the remediation plan with gap categories and cost bands.
- **ISO/IEC 42001:2023 gap analyser** (`Iso42001`, `iso42001.dfy`): the
  requirement table for clauses 4.1 to 10.1, the in-place status update,
  category and overall scores, readiness levels, critical gaps, the four-phase
  roadmap and the implementation timeline.
- **Regulatory reporting suite** (`RegulatoryReporting`, `regulatory_reporting.dfy`):
  the criteria tables whose weights sum to 100, per-framework scoring with its
  critical gaps, status, risk and fine-exposure bands, recommendations,
  the overall report score, the grouped priority actions and the date-sorted
  regulatory timeline.
- **GDPR checker** (`GdprCompliance`, `gdpr.dfy`): principle scores, which
  loosely follow Article 5(1) of Regulation (EU) 2016/679. Also the legal-basis
  check, the data-subject rights table of Articles 15 to 22, the compliance
  and risk bands, the recommendations and the action items.
- **EU AI Act classifier** (`EuAiActClassifier`, `eu_ai_act.dfy`): the ordered
  decision procedure for Regulation (EU) 2024/1689. Detected prohibited
  practices (Article 5) come first, then Annex III high-risk sectors, decision
  impact and user-facing systems. Then come the category's requirements, the
  compliance timeline, the documentation list and the mitigation measures.
- **Executive dashboard** (`ExecutiveDashboard`, `dashboard.dfy`): building
  the portfolio from monitoring configurations, portfolio rates, threshold
  breaches, the count-based overall risk, the governance actions and the
  detailed metrics.
- **Professional services connector** (`ProfessionalServices`, `services.dfy`):
  the demo-to-service map, which the later service wins. Also category
  lookup, the service recommendation rules, and the maturity, regulatory
  pressure and business impact bands.
- **Educational framework** (`Education`, `education.dfy`): role matching
  for learning paths, module search, and the rates and bands of the learning
  report.

The support modules hold generic pieces. `Wrappers` holds `Option` and
`Result`, whose error cases name Python's `KeyError`, `ValueError` and
`AttributeError`. `Text` holds ASCII case mapping, substring search and
lexicographic order. `Means` holds clamping and mean bounds. `Sorting` holds
a stable insertion sort by key, which models Python's `sorted` with a key.

Several entry points fail as written, and the model keeps these failures as
`Failure` results rather than smoothing them over:

- The GDPR assessment always raises `KeyError` at the seventh principle (see
  "Findings").
- The compliance checker and the reporting suite raise `KeyError` for a
  framework missing from their tables.
- Constructing `EducationalFramework` always raises `AttributeError`: its
  red-team module names `ContentType.SPECIALIST`, which is not a content type.
  The educational queries are therefore modelled over a module catalogue
  given as a parameter.

Scores and weights are Dafny `real`s, and Python's `int(...)` on a
non-negative value is `Floor`. Where the source mutates state, the model is a
class with `modifies` clauses. Each such method is proved against a function
of the old state, and the properties are proved about that function as lemmas.

## Model

| member | source | states |
|---|---|---|
| AuditTrail.Seal | compliance_automation/audit_trail_builder.py:150-172 | the logged event is intact: its hash is H of event id, timestamp, type value, system id and description concatenated, its signature is H of that hash followed by the key; every other field is what was passed in |
| AuditTrail.FindEvent | compliance_automation/audit_trail_builder.py:186 | the first event with the id, as `next` over the log returns it: no earlier event has the id; nothing is found exactly when no event has the id |
| AuditTrail.VerifyEvent | compliance_automation/audit_trail_builder.py:184-209 | "event not found" exactly when no event has the id; otherwise the hash flag says whether the stored hash equals the recomputed hash of the first such event, the signature flag whether its stored signature equals H of its stored hash and the key, and the event is verified exactly when it is intact, so a tampered hash or signature is reported unverified; when every logged event is intact, a found event is verified |
| AuditTrail.FindEventSameHashedFields | compliance_automation/audit_trail_builder.py:186 | replacing one event by another that agrees on the hashed fields, the id and the signature does not change whether an id is found, nor those fields of the event found |
| AuditTrail.UnhashedFieldsNotVerified | compliance_automation/audit_trail_builder.py:192-201 | rewriting the user, risk level, business impact, metadata or frameworks of any logged event leaves every verification result unchanged: those fields are not protected |
| AuditTrail.DescriptionTamperDetected | compliance_automation/audit_trail_builder.py:192-196 | with a collision-free hash, rewriting the description of an intact event makes its hash check fail |
| AuditTrail.BoundaryShiftUndetected | compliance_automation/audit_trail_builder.py:151-192 | the hashed fields are joined without separators, so moving the last character of the system id to the front of the description leaves the event intact |
| AuditTrail.FilterEvents | compliance_automation/audit_trail_builder.py:221-225 | the report's events are exactly the logged events tagged with the framework whose timestamp lies between the two dates (string order), and no more than the log holds |
| AuditTrail.CountType | compliance_automation/audit_trail_builder.py:351-354 | a per-type count never exceeds the number of events |
| AuditTrail.CountRisk | compliance_automation/audit_trail_builder.py:359 | a per-risk-level count never exceeds the number of events (RiskCountsSum relates the four counts) |
| AuditTrail.CountTagged | compliance_automation/audit_trail_builder.py:365 | a per-framework count never exceeds the number of events (FilteredAtMostTagged relates it to the report) |
| AuditTrail.RiskCountsSum | compliance_automation/audit_trail_builder.py:356-360 | the low, medium, high and critical counts together never exceed the number of events, and equal it when every event carries one of those four levels |
| AuditTrail.RiskDistributionSum | compliance_automation/audit_trail_builder.py:356-360 | the risk-level distribution of the statistics sums to at most the number of events, and to exactly that number when every level is one of the four counted |
| AuditTrail.ScoreArithmetic | compliance_automation/audit_trail_builder.py:269-274 | 70% coverage share plus 30% saturating volume lies in [0, 100], is at most 30 without coverage and is 100 with full coverage and at least 100 events |
| AuditTrail.ComplianceScore | compliance_automation/audit_trail_builder.py:262-274 | 100 when the framework requires no events; always in [0, 100]; at most 30 when none of the required types was logged; 100 when every required type was logged and there are at least 100 events |
| AuditTrail.Recommendations | compliance_automation/audit_trail_builder.py:276-298 | each of the four recommendations is given exactly when its condition holds: missing required types, more than 10% high-risk events, GDPR with anonymisation required, EU AI Act with risk assessment required |
| AuditTrail.PostureOf | compliance_automation/audit_trail_builder.py:303-312 | "excellent" exactly from 90, "strong" exactly in [75, 90), "moderate" exactly in [60, 75), "significant gaps" exactly below 60 |
| AuditTrail.Distribution | compliance_automation/audit_trail_builder.py:251-254 | one count per event type, in declaration order, each the number of events of that type |
| AuditTrail.RequiredEventsDistinct | compliance_automation/audit_trail_builder.py:87-109 | no required-event list of the rule table repeats a type |
| AuditTrail.ReportCoverage | compliance_automation/audit_trail_builder.py:227-249 | the report `ReportOf` builds: the missing requirements are the required types minus the logged ones, the covered count is the number of required types logged and lies between 0 and the list length, the score lies in [0, 100]; the total is the number of filtered events and no more than the events tagging the framework; high-risk events are among them; the event breakdown sums to the total; the summary posture is the band of the score |
| AuditTrail.FilteredAtMostTagged | compliance_automation/audit_trail_builder.py:221-225 | a report period keeps no more events than the statistics count as tagging the framework |
| AuditTrail.TypeCountsSumToTotal | compliance_automation/audit_trail_builder.py:351-354 | the per-type counts add up to the number of events: every event is counted once |
| AuditTrail.EarliestTimestamp | compliance_automation/audit_trail_builder.py:371 | the earliest date is the timestamp of some event |
| AuditTrail.LatestTimestamp | compliance_automation/audit_trail_builder.py:372 | the latest date is the timestamp of some event |
| AuditTrail.EarliestIsMinimum | compliance_automation/audit_trail_builder.py:371 | the earliest date is at most every timestamp |
| AuditTrail.LatestIsMaximum | compliance_automation/audit_trail_builder.py:372 | the latest date is at least every timestamp |
| AuditTrail.LastTen | compliance_automation/audit_trail_builder.py:380 | the sample is the last min(10, n) events of the log, in log order (`[-10:]`) |
| AuditTrail.AuditStatistics | compliance_automation/audit_trail_builder.py:345-382 | "no events" exactly for an empty log; otherwise the totals and one count per type, risk level and framework |
| AuditTrail.StatisticsFacts | compliance_automation/audit_trail_builder.py:350-381 | the type counts sum to the total, the risk-level counts to at most the total (exactly when every level is one of the four), the date range brackets every timestamp, and a log of intact events reports integrity verified |
| AuditTrail.AuditTrailBuilder.constructor | compliance_automation/audit_trail_builder.py:78-82 | an empty log and registry with the given key |
| AuditTrail.AuditTrailBuilder.LogEvent | compliance_automation/audit_trail_builder.py:138-182 | appends exactly the sealed event, returns its id, bumps the registry count of a registered system and leaves the registry alone otherwise; every stored event stays intact |
| AuditTrail.AuditTrailBuilder.RegisterAiSystem | compliance_automation/audit_trail_builder.py:115-136 | the registry entry is rewritten with count 1 (0, then one logged registration event) and the registration event is appended |
| AuditTrail.AuditTrailBuilder.VerifyAuditIntegrity | compliance_automation/audit_trail_builder.py:184-209 | not found exactly when no event has the id; verified exactly when the first logged event with the id has the hash and signature that verification recomputes; in a trail built by the builder every found event verifies |
| AuditTrail.AuditTrailBuilder.GenerateComplianceReport | compliance_automation/audit_trail_builder.py:211-260 | absent or empty dates fall back to the defaults; the report is `ReportOf` over the whole log for that framework and period, so ReportCoverage gives its events, missing set, covered count and score; at most the whole log is reported; the score lies in [0, 100] |
| AuditTrail.AuditTrailBuilder.GetAuditStatistics | compliance_automation/audit_trail_builder.py:345-382 | "no events" exactly for an empty log; in a builder-made trail the integrity sample verifies and the type counts sum to the log size |
| ComplianceChecker.AllInTableIff | risk_assessment_demo/compliance_checker.py:377 | a framework list passes the table lookups exactly when every framework in it has a table entry |
| ComplianceChecker.AllInTablePrefix | risk_assessment_demo/compliance_checker.py:319-320 | every prefix of a list whose frameworks all have entries passes too |
| ComplianceChecker.ScoreToStatus | risk_assessment_demo/compliance_checker.py:623-632 | fully compliant exactly from 90, substantially in [75, 90), partially in [50, 75), non-compliant below 50 |
| ComplianceChecker.ScoreToRisk | risk_assessment_demo/compliance_checker.py:634-645 | negligible from 90, low in [75, 90), medium in [50, 75), high in [25, 50), critical below 25; the risk is high or critical exactly when the status is non-compliant |
| ComplianceChecker.EvaluateAll | risk_assessment_demo/compliance_checker.py:395-603 | one assessment per requirement check, in the assessor's order |
| ComplianceChecker.AssessGeneric | risk_assessment_demo/compliance_checker.py:605-621 | one "<framework>_general" assessment whose gap is recorded below 75, so (scoring 65 or 35) it always records a gap |
| ComplianceChecker.EvaluateConsistent | risk_assessment_demo/compliance_checker.py:400-413 | a requirement check with scores in [0, 100] yields an assessment whose status and risk follow its score, with evidence above 50 and a gap below 50 |
| ComplianceChecker.ChecksValid | risk_assessment_demo/compliance_checker.py:395-603 | every requirement check of the five assessors scores within [0, 100] and scores higher with its flag set |
| ComplianceChecker.AssessFrameworkCompliance | risk_assessment_demo/compliance_checker.py:372-393 | succeeds exactly for a framework with a table entry; otherwise raises KeyError naming it, before any assessor runs |
| ComplianceChecker.FrameworkAssessmentsConsistent | risk_assessment_demo/compliance_checker.py:395-603 | a framework with an entry yields at least one assessment, each consistent with its score |
| ComplianceChecker.MoreFlagsNeverLowerScores | risk_assessment_demo/compliance_checker.py:395-603 | a configuration that sets every flag another sets scores each requirement at least as high |
| ComplianceChecker.ScoreSumBetween | risk_assessment_demo/compliance_checker.py:324 | scores in [lo, hi] sum to between lo·n and hi·n |
| ComplianceChecker.MeanScoreBounds | risk_assessment_demo/compliance_checker.py:324 | the mean of scores in [0, 100] lies in [0, 100] |
| ComplianceChecker.FrameworkScoreBounds | risk_assessment_demo/compliance_checker.py:320-325 | a framework score lies in [0, 100] |
| ComplianceChecker.AssessAll | risk_assessment_demo/compliance_checker.py:319-321 | the assessments of every framework succeed exactly when all have table entries; a failure is the KeyError of some framework without one |
| ComplianceChecker.AssessAllStep | risk_assessment_demo/compliance_checker.py:319-321 | after a successful prefix, the next framework either fails with its own error or appends its assessments |
| ComplianceChecker.AssessAllConsistent | risk_assessment_demo/compliance_checker.py:319-321 | every assessment of a successful run is consistent with its score |
| ComplianceChecker.AssessAllPrefixFailure | risk_assessment_demo/compliance_checker.py:319-321 | the first KeyError stops the loop: a failing prefix decides the result of the whole list |
| ComplianceChecker.WeightedSumBetween | risk_assessment_demo/compliance_checker.py:329-335 | with scores in [0, 100] the weighted sum lies between 0 and 100 times the total weight, and the total weight of a non-empty list is positive |
| ComplianceChecker.WeightedMeanBounds | risk_assessment_demo/compliance_checker.py:337 | the weighted mean lies in [0, 100] and is 0 for no frameworks |
| ComplianceChecker.OverallScoreBounds | risk_assessment_demo/compliance_checker.py:329-337 | the overall score lies in [0, 100] and is 0 when no framework is assessed |
| ComplianceChecker.WeightedStep | risk_assessment_demo/compliance_checker.py:331-335 | the loop over frameworks adds each framework's weight and weighted score in turn |
| ComplianceChecker.WithRisk | risk_assessment_demo/compliance_checker.py:656-680 | the filtered assessments are exactly those with the given risk level |
| ComplianceChecker.ActionsFor | risk_assessment_demo/compliance_checker.py:657-690 | one action per assessment, in order, at the group's priority |
| ComplianceChecker.GroupsInOrder | risk_assessment_demo/compliance_checker.py:692-693 | critical, then high, then medium actions are already sorted by priority rank |
| ComplianceChecker.PriorityActionsGrouped | risk_assessment_demo/compliance_checker.py:651-693 | `GeneratePriorityActions`: the stable sort leaves the list unchanged: all critical, then all high, then the first three medium actions, each in assessment order |
| ComplianceChecker.ScoresOf | risk_assessment_demo/compliance_checker.py:317-325 | the framework score map has exactly the assessed frameworks as keys |
| ComplianceChecker.ScoresOfBounds | risk_assessment_demo/compliance_checker.py:317-325 | every framework score in the map lies in [0, 100] |
| ComplianceChecker.ScoresOfStep | risk_assessment_demo/compliance_checker.py:325 | assessing one more framework stores its score under its key |
| ComplianceChecker.ComplianceReportOf | risk_assessment_demo/compliance_checker.py:301-370 | a report is produced exactly when every framework has a table entry; otherwise the KeyError of one that has none |
| ComplianceChecker.ReportFacts | risk_assessment_demo/compliance_checker.py:329-363 | the overall score lies in [0, 100]; certification-ready exactly when it is at least 85 and no assessment is critical; no critical gaps exactly when no assessment is critical; every assessment is consistent; the score map covers exactly the frameworks; the status follows the overall score |
| ComplianceChecker.FirstFamilyFirstMatch | risk_assessment_demo/compliance_checker.py:742-757 | the keyword families are tried in order: the category is that of the first family with a keyword in the lower-cased gap, and documentation when none has one |
| ComplianceChecker.CategorizeGapRules | risk_assessment_demo/compliance_checker.py:742-757 | `CategorizeGap`: a gap goes to the first family, in the order bias, explainability, data governance, documentation, training, with a keyword in its lowercased text, and to documentation when no family has one |
| ComplianceChecker.NeedyGapsStep | risk_assessment_demo/compliance_checker.py:700-701 | only assessments scoring below 75 contribute their gaps |
| ComplianceChecker.NeedyGapsIff | risk_assessment_demo/compliance_checker.py:700-702 | a gap is collected exactly when some assessment scoring below 75 lists it |
| ComplianceChecker.FirstSeenFacts | risk_assessment_demo/compliance_checker.py:699-706 | the plan's categories are exactly those of the collected gaps, each listed once |
| ComplianceChecker.GapsInMembers | risk_assessment_demo/compliance_checker.py:703-706 | a category's list holds exactly the collected gaps of that category |
| ComplianceChecker.GapsInUnseen | risk_assessment_demo/compliance_checker.py:704-705 | a category not yet seen has an empty list |
| ComplianceChecker.GroupStep | risk_assessment_demo/compliance_checker.py:703-706 | filing one more gap appends its category if new and appends the gap to that category's list only |
| ComplianceChecker.FileGap | risk_assessment_demo/compliance_checker.py:702-706 | one pass of the inner loop keeps the category order and every category's list equal to the gaps filed so far |
| ComplianceChecker.FileListedGap | risk_assessment_demo/compliance_checker.py:706 | filing under a listed category keeps the grouping state |
| ComplianceChecker.FileNewGap | risk_assessment_demo/compliance_checker.py:704-706 | a new category is appended with an empty list, then gets the gap, and the grouping state holds |
| ComplianceChecker.PlanActions | risk_assessment_demo/compliance_checker.py:709-722 | one action per category in first-seen order, carrying exactly that category's gaps |
| ComplianceChecker.CostTotalBetween | risk_assessment_demo/compliance_checker.py:759-761 | the cost points lie between one and three per action |
| ComplianceChecker.EstimateRemediationCost | risk_assessment_demo/compliance_checker.py:759-769 | low exactly up to 3 points, medium exactly in (3, 6], high exactly above 6 |
| ComplianceChecker.CostEstimateBands | risk_assessment_demo/compliance_checker.py:236-300 | `CostEstimate`, the cost column of the remediation library: explainability is the only high-cost category, documentation the only low-cost one, the other three are medium |
| ComplianceChecker.CostEstimateExtremes | risk_assessment_demo/compliance_checker.py:759-769 | at most one action is always low cost, seven or more are always high |
| ComplianceChecker.RemediationCoversNeedyGaps | risk_assessment_demo/compliance_checker.py:695-722 | `RemediationPlanOf`: the plan lists each category once; a gap is addressed exactly when an assessment scoring below 75 lists it, and only by the action of its own category |
| ComplianceChecker.PlanCovers | risk_assessment_demo/compliance_checker.py:709-722 | the same coverage for any categoriser: distinct categories, a gap addressed exactly when it was collected, and under its own category |
| ComplianceChecker.Checker.constructor | risk_assessment_demo/compliance_checker.py:128-131 | the assessment history starts empty |
| ComplianceChecker.Checker.AssessSystemCompliance | risk_assessment_demo/compliance_checker.py:301-370 | returns the report of the frameworks given (the four defaults when none) or the KeyError; a report is appended to the history, a failure leaves it unchanged |
| ComplianceChecker.Checker.BuildReport | risk_assessment_demo/compliance_checker.py:328-365 | from the assessments and the score map it builds exactly the report of the specification function |
| ComplianceChecker.Checker.AssessFrameworks | risk_assessment_demo/compliance_checker.py:316-326 | the loop returns the assessments of every framework or the first KeyError, and on success the map of framework scores |
| ComplianceChecker.Checker.CombineScores | risk_assessment_demo/compliance_checker.py:329-335 | the loop returns the weighted score sum and the total weight |
| ComplianceChecker.Checker.GenerateRemediationPlan | risk_assessment_demo/compliance_checker.py:695-740 | returns the plan of the specification function: categories in first-seen order, each with its gaps and template, and the cost estimate |
| ComplianceChecker.Checker.GroupAssessments | risk_assessment_demo/compliance_checker.py:699-706 | the outer loop leaves the category order and the category lists of all gaps of assessments scoring below 75 |
| ComplianceChecker.Checker.GroupGaps | risk_assessment_demo/compliance_checker.py:702-706 | the inner loop files every gap of one assessment and keeps the grouping state |
| ExecutiveDashboard.ParseRiskLevel | risk_assessment_demo/executive_dashboard.py:15-67 | a parsed level has exactly the given value; a ValueError exactly when no level has it |
| ExecutiveDashboard.ParseComplianceStatus | risk_assessment_demo/executive_dashboard.py:22-68 | a parsed status has exactly the given value; a ValueError exactly when no status has it |
| ExecutiveDashboard.ParseValueRoundTrip | risk_assessment_demo/executive_dashboard.py:15-26 | parsing a member's own value gives that member back |
| ExecutiveDashboard.DefaultName | risk_assessment_demo/executive_dashboard.py:66 | the default name has the id's length, a space wherever the id has an underscore, and an upper-case first letter where the id starts with a lower-case one |
| ExecutiveDashboard.StatusOf | risk_assessment_demo/executive_dashboard.py:64-74 | one status succeeds exactly when the id, level and status keys are present and parse; a missing id or level raises KeyError, an unknown level ValueError; the stored id, level and status are those given, and every absent optional key takes its default |
| ExecutiveDashboard.ConfigureAll | risk_assessment_demo/executive_dashboard.py:59-78 | the portfolio holds one status per config in order when every config succeeds; otherwise the error of the first config that fails |
| ExecutiveDashboard.ConfigureAllStep | risk_assessment_demo/executive_dashboard.py:63-75 | one more config either appends its status or stops with its error |
| ExecutiveDashboard.ConfigureAllPrefixFailure | risk_assessment_demo/executive_dashboard.py:63-75 | the first exception ends the loop: a failing prefix decides the result |
| ExecutiveDashboard.Where | risk_assessment_demo/executive_dashboard.py:90-92 | a list comprehension keeps no more systems than the portfolio has |
| ExecutiveDashboard.WhereMembers | risk_assessment_demo/executive_dashboard.py:90-92 | a filter keeps exactly the selected systems |
| ExecutiveDashboard.WhereCount | risk_assessment_demo/executive_dashboard.py:90-92 | a filter keeps nothing exactly when no system is selected, and everything exactly when all are |
| ExecutiveDashboard.WhereStep | risk_assessment_demo/executive_dashboard.py:90-92 | the filter of one more system appends it exactly when selected |
| ExecutiveDashboard.Ids | risk_assessment_demo/executive_dashboard.py:233-257 | the affected ids are the systems' ids, in order |
| ExecutiveDashboard.Ratio | risk_assessment_demo/executive_dashboard.py:94-96 | a share of the portfolio lies in [0, 1], is 0 exactly when nothing is counted and 1 exactly when everything is |
| ExecutiveDashboard.OverviewOf | risk_assessment_demo/executive_dashboard.py:85-120 | the total is the portfolio size; the compliance share is in [0, 1] and is 1 exactly when every system is compliant; no high-risk count exactly when no system is HIGH (UNACCEPTABLE does not count); no incident count exactly when no system has incidents |
| ExecutiveDashboard.RatesOf | risk_assessment_demo/executive_dashboard.py:94-96 | the high-risk and incident rates lie in [0, 1] and are 0 exactly when their counts are |
| ExecutiveDashboard.CountBreaches | risk_assessment_demo/executive_dashboard.py:165 | no more breaches than thresholds checked |
| ExecutiveDashboard.CountBreachesStep | risk_assessment_demo/executive_dashboard.py:165 | counting one more threshold adds one exactly when it is breached |
| ExecutiveDashboard.BreachCountOfFour | risk_assessment_demo/executive_dashboard.py:140-165 | the breach count is the sum of the four threshold indicators |
| ExecutiveDashboard.OverallRiskOf | risk_assessment_demo/executive_dashboard.py:167-174 | critical exactly from three breaches, high exactly at two, medium exactly at one, low exactly at none |
| ExecutiveDashboard.PortfolioRiskFacts | risk_assessment_demo/executive_dashboard.py:132-180 | the status map has exactly the four thresholds, each marked BREACH exactly when its rate is on the wrong side; there is one risk factor per breach, carrying the offending rate, so at most four |
| ExecutiveDashboard.AssessPortfolioRisk | risk_assessment_demo/executive_dashboard.py:132-180 | checking the thresholds one by one and counting the BREACH values gives the specified risk factors, status map and overall level |
| ExecutiveDashboard.CountBreachStatuses | risk_assessment_demo/executive_dashboard.py:165 | counting BREACH values in the status map gives the number of breached thresholds |
| ExecutiveDashboard.OverallRiskBands | risk_assessment_demo/executive_dashboard.py:140-174 | the overall risk is low exactly when no threshold is breached; low compliance together with too many high-risk systems and too many incidents is critical |
| ExecutiveDashboard.SystemActionsRanked | risk_assessment_demo/executive_dashboard.py:224-258 | the per-system actions come out already in priority order, none of them critical |
| ExecutiveDashboard.SystemActionsContents | risk_assessment_demo/executive_dashboard.py:224-258 | a category's action is raised exactly when some system falls in that category, naming those systems; the governance review is not among them |
| ExecutiveDashboard.ExecutiveActionsShape | risk_assessment_demo/executive_dashboard.py:260-271 | the governance review, when raised, comes first; the other actions keep the order in which they were raised |
| ExecutiveDashboard.ExecutiveActionsFacts | risk_assessment_demo/executive_dashboard.py:219-271 | the governance review is raised exactly when the overall risk is CRITICAL or HIGH, and the list is sorted by priority |
| ExecutiveDashboard.DistributionsSumToSize | risk_assessment_demo/executive_dashboard.py:276-286 | the risk and compliance distributions each add up to the portfolio size |
| ExecutiveDashboard.ImpactDistributionCounts | risk_assessment_demo/executive_dashboard.py:289-292 | the impact labels counted are exactly those present, each with the number of systems carrying it |
| ExecutiveDashboard.BusinessImpactDistribution | risk_assessment_demo/executive_dashboard.py:289-292 | the counting loop builds exactly the impact distribution |
| ExecutiveDashboard.MaxPerformance | risk_assessment_demo/executive_dashboard.py:300 | the highest score is some system's score and no score exceeds it |
| ExecutiveDashboard.MinPerformance | risk_assessment_demo/executive_dashboard.py:301 | the lowest score is some system's score and no score is below it |
| ExecutiveDashboard.PerformanceSumBounds | risk_assessment_demo/executive_dashboard.py:97 | scores in [lo, hi] sum to between lo·n and hi·n |
| ExecutiveDashboard.AverageWithin | risk_assessment_demo/executive_dashboard.py:97 | the average of scores in [lo, hi] lies in [lo, hi] |
| ExecutiveDashboard.AveragePerformanceBetween | risk_assessment_demo/executive_dashboard.py:299-301 | the average score lies between the lowest and the highest |
| ExecutiveDashboard.IncidentTotalAgrees | risk_assessment_demo/executive_dashboard.py:304-305 | with no negative counts, the incident total is non-negative and zero exactly when no system has incidents |
| ExecutiveDashboard.DetailedMetricsOf | risk_assessment_demo/executive_dashboard.py:273-308 | the systems with incidents are at most the portfolio and the incident rate lies in [0, 1] |
| ExecutiveDashboard.DetailedMetricsFacts | risk_assessment_demo/executive_dashboard.py:276-301 | both distributions cover every level and status and add up to the portfolio size; the average lies between the lowest and the highest score |
| ExecutiveDashboard.ExecutiveReportOf | risk_assessment_demo/executive_dashboard.py:85-87 | the "no systems configured" error exactly for an empty portfolio |
| ExecutiveDashboard.ExecutiveReportFacts | risk_assessment_demo/executive_dashboard.py:80-130 | a report covers the whole portfolio and calls for the emergency governance review exactly when at least two thresholds are breached |
| ExecutiveDashboard.GovernanceDashboard.constructor | risk_assessment_demo/executive_dashboard.py:45-48 | the portfolio starts empty |
| ExecutiveDashboard.GovernanceDashboard.ConfigureMonitoring | risk_assessment_demo/executive_dashboard.py:59-78 | returns the configured portfolio or the first error; on success the portfolio is replaced by it, on failure it is left as it was |
| Education.ContentTypeNamed | educational_framework.py:20-72 | an attribute lookup on the content-type enumeration that fails raises AttributeError naming the attribute |
| Education.ContentTypeNamedRoundTrip | educational_framework.py:20-26 | a name that resolves is that member's own name, and a lookup raises exactly when no member has the name |
| Education.ResolveContentTypesFacts | educational_framework.py:63-225 | building the catalogue succeeds exactly when every content-type name resolves, and then yields those members in order; otherwise it raises AttributeError for the first name that does not |
| Education.CatalogConstructionFails | educational_framework.py:203-207 | building the catalogue, and so constructing the framework, always raises AttributeError for SPECIALIST, which is a learning level and not a content type |
| Education.PathModulesSize | educational_framework.py:238-296 | every learning path lists four or five modules |
| Education.PathNamesDistinct | educational_framework.py:232-296 | the three paths have distinct names, so the readiness report keyed by name loses no path |
| Education.RecommendLearningPath | educational_framework.py:342-396 | the loop over the learning goals builds exactly the specified recommendation |
| Education.PrimaryPathRules | educational_framework.py:357-367 | `PrimaryPath`: executive terms in the role choose the executive path whatever else it names; practitioner terms are consulted only without executive terms and technical terms only without either; no term, no path; no role leads to a specialist-level path |
| Education.RecommendationPathFacts | educational_framework.py:357-392 | `RecommendationFor`: the estimated time is the chosen path's total duration and 0 without a path; next steps are offered exactly when a path was chosen, starting with its first module |
| Education.GoalRecommendationsMembers | educational_framework.py:370-379 | a module is recommended exactly when some goal, lowercased, is a key of the goal mapping whose modules include it |
| Education.GoalRecommendationsSize | educational_framework.py:370-379 | each recognised goal adds exactly two modules, repetitions included |
| Education.SearchModules | educational_framework.py:466-486 | the loop over the catalogue returns exactly the specified search results |
| Education.SearchResultsMembers | educational_framework.py:466-486 | a module is found exactly when it is in the catalogue, passes the level filter and contains the lowercased query in its lowercased title, summary or joined objectives; the results are no longer than the catalogue |
| Education.SearchEverything | educational_framework.py:471-484 | with no level and the empty query every module is returned, in catalogue order |
| Education.SearchFindsObjective | educational_framework.py:476-484 | a query found, ignoring case, in one learning objective finds the module at its own level |
| Education.PercentAtLeast | educational_framework.py:405-435 | a percentage reaches a bound exactly when 100 times the part reaches the bound times the whole |
| Education.PercentIsWhole | educational_framework.py:426-435 | a percentage is 100 exactly when the part equals the whole |
| Education.CompetencyAnalysis | educational_framework.py:421-431 | the loop over learning levels builds exactly the specified competency map |
| Education.CompetencyOverFacts | educational_framework.py:421-431 | the analysis has an entry exactly for each level that has modules, holding that level's completion rate and remaining count |
| Education.CompetencyCompleteIff | educational_framework.py:422-431 | a level's completion rate is 100% exactly when none of its modules remains |
| Education.CertificationReadiness | educational_framework.py:433-448 | the loop over learning paths builds exactly the specified readiness map |
| Education.ReadinessOverFacts | educational_framework.py:433-448 | every path has an entry under its own name, holding its readiness, and no other name has one |
| Education.ReadinessBands | educational_framework.py:437-442 | a path is ready for certification exactly when at least four fifths of its modules were completed, and nearly ready exactly between three and four fifths |
| Education.FourModulesMakeReady | educational_framework.py:433-442 | with four or five modules per path, a path is ready exactly when four of its modules were completed |
| Education.GenerateLearningReport | educational_framework.py:398-460 | the report the method builds is exactly the specified report, including the ZeroDivisionError of an empty catalogue |
| Education.LearningReportOverview | educational_framework.py:402-418 | `LearningReportOf`: the report fails exactly for an empty catalogue; otherwise it counts the catalogue's modules and the completed entries |
| Education.LearningReportCoverage | educational_framework.py:421-448 | a report has readiness for every path by name and competency for exactly the levels that have modules |
| Education.DevelopmentBands | educational_framework.py:450-458 | the advanced advice is given exactly from three quarters of the catalogue completed, the foundational advice exactly below one half |
| EuAiActClassifier.PracticeIndex | risk_assessment_demo/eu_ai_act_classifier.py:55-65 | each prohibited practice has a position in the listed practices, where that practice stands |
| EuAiActClassifier.TagsFacts | risk_assessment_demo/eu_ai_act_classifier.py:181-208 | each of the four detectable practices is tagged exactly when its test holds; nothing is tagged exactly when no test holds; the other three listed practices are never tagged; the tags keep the listed order |
| EuAiActClassifier.ViolationsFacts | risk_assessment_demo/eu_ai_act_classifier.py:181-208 | `Violations`: social scoring, subliminal manipulation, real-time public biometrics and emotion recognition at work or in education are each reported exactly when the system shows them; exploitation of vulnerabilities, sensitive biometric categorisation and indiscriminate surveillance never are; violations come in the listed order |
| EuAiActClassifier.SectorOfFacts | risk_assessment_demo/eu_ai_act_classifier.py:210-213 | `SectorOf`: the sector lookup is total: an absent or unmapped sector gives GENERAL, and no hint reaches the biometric, migration or justice sectors |
| EuAiActClassifier.RiskLevelFacts | risk_assessment_demo/eu_ai_act_classifier.py:215-246 | `RiskLevel`: the assessed level is never UNACCEPTABLE; it is HIGH_RISK exactly for a high-risk sector or a high decision impact, LIMITED_RISK exactly when neither holds but the system faces users, is a chatbot or makes recommendations; below HIGH_RISK the sector is democratic or general |
| EuAiActClassifier.Requirements | risk_assessment_demo/eu_ai_act_classifier.py:111-142 | the requirements table lists 3, 12, 3 and 2 obligations for the four categories |
| EuAiActClassifier.TimelineFacts | risk_assessment_demo/eu_ai_act_classifier.py:248-263 | `TimelineMonths`: the timeline never exceeds 30 months; outside UNACCEPTABLE a more severe category never gets less time in the same sector; law enforcement and justice add six months |
| EuAiActClassifier.DocumentationAndMitigationFacts | risk_assessment_demo/eu_ai_act_classifier.py:284-328 | documentation always starts with the system description and the risk assessment, followed by seven more items for high risk and two for limited risk; there are five mitigations for high risk, three for limited risk and none otherwise |
| EuAiActClassifier.ClassifyFacts | risk_assessment_demo/eu_ai_act_classifier.py:144-179 | `Classify`: a system is UNACCEPTABLE exactly when it shows a prohibited practice, and then its timeline is 0 and its deadline immediate; otherwise its category is the assessed level, its requirements are that category's table entry, its positive timeline gives a deadline thirty days per month ahead, its documentation starts with the two base documents and it has mitigations exactly when it is not minimal risk; the violations and the sector are always reported |
| GdprCompliance.Weights | compliance_automation/gdpr_ai_compliance_checker.py:99-170 | a principle with a criteria table has three criteria (purpose limitation, data minimisation) or four (the rest) |
| GdprCompliance.WeightsSumTo100 | compliance_automation/gdpr_ai_compliance_checker.py:99-170 | every criteria table's weights add up to 100 |
| GdprCompliance.RawScoreInRange | compliance_automation/gdpr_ai_compliance_checker.py:304-345 | every raw principle score already lies in [0, 100], so the clamp changes nothing; the lawfulness score weighs the legal basis by 55 (its two criteria), documentation by 25 and the privacy notice by 20 |
| GdprCompliance.PrincipleScoreOf | compliance_automation/gdpr_ai_compliance_checker.py:291-345 | a principle is scored exactly when it has a criteria table, and the score lies in [0, 100]; otherwise the lookup raises KeyError naming the principle |
| GdprCompliance.CorrectedPrincipleScore | compliance_automation/gdpr_ai_compliance_checker.py:291-345 | the corrected score lies in [0, 100], agrees with the table score wherever there is one, and gives the other principles the simplified 70 or 45 |
| GdprCompliance.ScoresOf | compliance_automation/gdpr_ai_compliance_checker.py:254-257 | a successful principle loop scores each principle once |
| GdprCompliance.ScoresOfStep | compliance_automation/gdpr_ai_compliance_checker.py:254-257 | one more principle either appends its score or stops with its KeyError |
| GdprCompliance.ScoresOfPrefixFailure | compliance_automation/gdpr_ai_compliance_checker.py:254-257 | the first KeyError ends the loop: a failing prefix decides the result |
| GdprCompliance.ScoresOfSucceeds | compliance_automation/gdpr_ai_compliance_checker.py:254-257 | the loop succeeds over principles that all have tables |
| GdprCompliance.ScoresOfFirstFailure | compliance_automation/gdpr_ai_compliance_checker.py:254-295 | the loop fails with the KeyError of the first principle without a table |
| GdprCompliance.LegalBasisStatusOf | compliance_automation/gdpr_ai_compliance_checker.py:347-368 | no legal basis exactly for an empty one; legitimate interests are insufficient exactly with special-category data; consent is questionable exactly when not freely given; otherwise the stated basis is accepted |
| GdprCompliance.RightsTableComplete | compliance_automation/gdpr_ai_compliance_checker.py:176-233 | the rights table lists every right once |
| GdprCompliance.RightsStatusFacts | compliance_automation/gdpr_ai_compliance_checker.py:370-388 | one entry per right, in table order, marked not implemented exactly when the configuration does not mention the right |
| GdprCompliance.AssessDataSubjectRights | compliance_automation/gdpr_ai_compliance_checker.py:370-388 | the loop over the rights builds exactly the specified rights status |
| GdprCompliance.MissingRights | compliance_automation/gdpr_ai_compliance_checker.py:450-479 | the missing rights are exactly those marked not implemented |
| GdprCompliance.StatusOf | compliance_automation/gdpr_ai_compliance_checker.py:390-401 | excellent exactly from 90, good exactly in [75, 90), acceptable in [60, 75), needs improvement in [40, 60), non-compliant below 40 |
| GdprCompliance.StatusMonotone | compliance_automation/gdpr_ai_compliance_checker.py:390-401 | a higher score never gets a worse status |
| GdprCompliance.RiskPoints | compliance_automation/gdpr_ai_compliance_checker.py:403-417 | the risk counter is at most 8, and at least 2 for a score below 60 |
| GdprCompliance.RiskLevelOf | compliance_automation/gdpr_ai_compliance_checker.py:419-426 | very high risk exactly from 5 points, high exactly from 3 to 4, medium from 1 to 2, low at 0 |
| GdprCompliance.RiskLevelFacts | compliance_automation/gdpr_ai_compliance_checker.py:403-426 | a higher compliance score never raises the risk level; a score below 60 is never low risk; automated decisions on special-category data with a score below 60 are very high risk |
| GdprCompliance.AssessGdprRiskLevel | compliance_automation/gdpr_ai_compliance_checker.py:403-426 | incrementing the risk counter factor by factor gives the specified risk level |
| GdprCompliance.PrincipleRecommendations | compliance_automation/gdpr_ai_compliance_checker.py:434-443 | a principle recommendation is made exactly when some principle scoring below 60 has one (fairness, transparency, lawfulness, data minimisation) |
| GdprCompliance.ContinueMonitoringIffNothingElse | compliance_automation/gdpr_ai_compliance_checker.py:428-458 | `Recommendations`: "continue monitoring" appears only alone, and exactly when no recommending principle scores below 60, the legal basis is not flagged and no right is missing |
| GdprCompliance.GenerateRecommendations | compliance_automation/gdpr_ai_compliance_checker.py:428-458 | the appending steps build exactly the specified recommendations |
| GdprCompliance.PrincipleActionsFacts | compliance_automation/gdpr_ai_compliance_checker.py:465-476 | the HIGH gap actions address exactly the principles scoring below 50 |
| GdprCompliance.ActionItemsFacts | compliance_automation/gdpr_ai_compliance_checker.py:460-501 | `ActionItems`: the HIGH items are exactly the principle gap items; the MEDIUM item, counting the missing rights, appears exactly when a right is missing and is the only MEDIUM item; the CRITICAL risk item appears exactly at high or very high risk |
| GdprCompliance.GenerateActionItems | compliance_automation/gdpr_ai_compliance_checker.py:460-501 | the appending steps build exactly the specified action items |
| GdprCompliance.AsWrittenAlwaysFails | compliance_automation/gdpr_ai_compliance_checker.py:254-295 | `AssessAsWritten`: as written, every assessment raises KeyError for storage limitation, the seventh principle, which has no criteria table |
| GdprCompliance.AssessAiSystemCompliance | compliance_automation/gdpr_ai_compliance_checker.py:245-289 | the method, with its principle loop and running total, returns exactly the as-written result |
| GdprCompliance.CorrectedScores | compliance_automation/gdpr_ai_compliance_checker.py:254-257 | the corrected loop scores all nine principles in order with the corrected score |
| GdprCompliance.ScoreTotalBetween | compliance_automation/gdpr_ai_compliance_checker.py:257-260 | scores in [0, 100] add up to between 0 and 100 per score |
| GdprCompliance.CorrectedAssessmentFacts | compliance_automation/gdpr_ai_compliance_checker.py:245-289 | `CorrectedAssessment`: the corrected assessment scores all nine principles, keeps every table score unchanged, and its overall score is their mean, in [0, 100] |
| Iso42001.ParseStatus | compliance_automation/iso_42001_gap_analyzer.py:392 | a parsed status has exactly the given value; an unknown value raises ValueError |
| Iso42001.ParseStatusValue | compliance_automation/iso_42001_gap_analyzer.py:14-19 | parsing a status's own value gives that status back |
| Iso42001.UpdateAll | compliance_automation/iso_42001_gap_analyzer.py:387-393 | the update keeps one requirement per requirement |
| Iso42001.UpdateAllAfterFailure | compliance_automation/iso_42001_gap_analyzer.py:387-393 | after the first ValueError the remaining requirements are left as they were |
| Iso42001.UpdateKept | compliance_automation/iso_42001_gap_analyzer.py:389-393 | a successful update of one requirement changes exactly that position |
| Iso42001.UpdateStopped | compliance_automation/iso_42001_gap_analyzer.py:389-392 | a failing update of one requirement stops the loop with its error, keeping the earlier updates and leaving that one and the rest unchanged |
| Iso42001.UpdateAllFacts | compliance_automation/iso_42001_gap_analyzer.py:387-393 | every requirement keeps its clause, category, effort and dependencies; one not in the assessment is unchanged; after a complete update an assessed one has the assessed status, not_assessed when none is given |
| Iso42001.UnknownStatusFails | compliance_automation/iso_42001_gap_analyzer.py:390-392 | an assessed requirement with an unknown status makes the update raise |
| Iso42001.UpdateAllEmpty | compliance_automation/iso_42001_gap_analyzer.py:353-354 | an empty assessment changes nothing |
| Iso42001.Points | compliance_automation/iso_42001_gap_analyzer.py:297-303 | a status is worth between 0 and 5 points |
| Iso42001.InCategory | compliance_automation/iso_42001_gap_analyzer.py:401 | a category's requirements are requirements of that category |
| Iso42001.PointsSumBetween | compliance_automation/iso_42001_gap_analyzer.py:402 | the points of n requirements add up to between 0 and 5n |
| Iso42001.FractionOfMaximum | compliance_automation/iso_42001_gap_analyzer.py:402-404 | the fraction of the maximum, times 5, is the mean points |
| Iso42001.CategoryScoreIsMean | compliance_automation/iso_42001_gap_analyzer.py:395-409 | a category's score is its requirements' mean points, 0 without requirements, always in [0, 5] |
| Iso42001.CategoriesComplete | compliance_automation/iso_42001_gap_analyzer.py:22-29 | every category is scored |
| Iso42001.CategoryScoresBounds | compliance_automation/iso_42001_gap_analyzer.py:395-409 | every category score lies in [0, 5] |
| Iso42001.WeightsSumToOne | compliance_automation/iso_42001_gap_analyzer.py:414-422 | the seven category weights are listed once each, cover every category and add up to 1 |
| Iso42001.WeightedSumBetween | compliance_automation/iso_42001_gap_analyzer.py:424-427 | a weighted sum of scores in [0, 5] lies between 0 and 5 times the total weight |
| Iso42001.OverallScoreBounds | compliance_automation/iso_42001_gap_analyzer.py:411-429 | the overall score of category scores in [0, 5] lies in [0, 5] |
| Iso42001.ReadinessLevel | compliance_automation/iso_42001_gap_analyzer.py:431-444 | certification ready exactly from 4.5, advanced exactly in [3.5, 4.5), intermediate in [2.5, 3.5), basic in [1.5, 2.5), initial below 1.5 |
| Iso42001.ReadinessMonotone | compliance_automation/iso_42001_gap_analyzer.py:431-444 | a higher score never gets a lower readiness level |
| Iso42001.CriticalRequirementsIff | compliance_automation/iso_42001_gap_analyzer.py:446-455 | a requirement is a critical gap exactly when it is non-compliant or not assessed and its effort is critical |
| Iso42001.CriticalRequirementsAppend | compliance_automation/iso_42001_gap_analyzer.py:449-453 | the critical gaps of two lists are those of the first followed by those of the second |
| Iso42001.CriticalGaps | compliance_automation/iso_42001_gap_analyzer.py:446-455 | one clause-and-title label per critical requirement, in order |
| Iso42001.CriticalPrefixStep | compliance_automation/iso_42001_gap_analyzer.py:449-453 | visiting one more requirement appends it exactly when it is a critical gap |
| Iso42001.NoCriticalBetween | compliance_automation/iso_42001_gap_analyzer.py:449-453 | requirements that are not critical gaps add nothing |
| Iso42001.OneCriticalBetween | compliance_automation/iso_42001_gap_analyzer.py:449-453 | one critical requirement among others adds exactly it |
| Iso42001.CriticalAtTwo | compliance_automation/iso_42001_gap_analyzer.py:449-453 | with exactly two critical requirements, the gaps are those two in order |
| Iso42001.DefaultCriticalGaps | compliance_automation/iso_42001_gap_analyzer.py:446-455 | before any assessment the critical gaps are exactly clauses 5.1 and 8.1, the two requirements of critical effort |
| Iso42001.FromCategories | compliance_automation/iso_42001_gap_analyzer.py:470-473 | a phase takes no more requirements than there are |
| Iso42001.FromDisjointCategories | compliance_automation/iso_42001_gap_analyzer.py:470-545 | phases over disjoint categories share no requirement and together take those of all their categories |
| Iso42001.FromAllCategories | compliance_automation/iso_42001_gap_analyzer.py:470-545 | a phase over every category takes every requirement, in order |
| Iso42001.Roadmap | compliance_automation/iso_42001_gap_analyzer.py:457-549 | the roadmap has four three-month phases, each with its name and categories and exactly the requirements of those categories |
| Iso42001.FourPhases | compliance_automation/iso_42001_gap_analyzer.py:457-549 | the roadmap's requirements are those of its four phases in turn |
| Iso42001.RoadmapPartitions | compliance_automation/iso_42001_gap_analyzer.py:457-549 | every requirement appears in exactly one roadmap phase |
| Iso42001.MultiplierBounds | compliance_automation/iso_42001_gap_analyzer.py:558-575 | every size and maturity multiplier, 1.0 for an unknown key, lies in [0.75, 1.5] |
| Iso42001.TimelineFacts | compliance_automation/iso_42001_gap_analyzer.py:551-577 | the timeline is the floor of 12 months scaled by both multipliers, between 6 and 27, and 12 by default |
| Iso42001.DependencyPathsDescend | compliance_automation/iso_42001_gap_analyzer.py:66-292 | when every dependency is an earlier clause and clauses are unique, following dependencies always goes to earlier requirements, so no requirement depends on itself |
| Iso42001.DefaultClauseIndices | compliance_automation/iso_42001_gap_analyzer.py:66-292 | the table holds thirteen requirements in clause order, each depending only on earlier clauses |
| Iso42001.DefaultDependenciesAcyclic | compliance_automation/iso_42001_gap_analyzer.py:66-292 | the requirement table's dependencies all point to earlier, unique clauses |
| Iso42001.ClauseIndexInjective | compliance_automation/iso_42001_gap_analyzer.py:66-292 | distinct clauses have distinct positions |
| Iso42001.AnalysisFacts | compliance_automation/iso_42001_gap_analyzer.py:348-385 | `AnalysisOf`: a gap analysis has an overall score and category scores in [0, 5], a roadmap covering every requirement once, and a timeline of 6 to 27 months |
| Iso42001.GapAnalyzer.constructor | compliance_automation/iso_42001_gap_analyzer.py:61-64 | the analyzer starts from the default requirement table |
| Iso42001.GapAnalyzer.UpdateRequirementsStatus | compliance_automation/iso_42001_gap_analyzer.py:387-393 | the requirements become the specified update, the earlier updates persisting when a status raises |
| Iso42001.GapAnalyzer.ConductGapAnalysis | compliance_automation/iso_42001_gap_analyzer.py:348-385 | the requirements are updated first and stay updated; a raised status is the result; otherwise the analysis of the updated requirements |
| RegulatoryReporting.Criteria | compliance_automation/regulatory_reporting_suite.py:104-191 | a framework has a criteria table exactly when it is the EU AI Act, GDPR, ISO 42001 or the NIST AI RMF, and each table has five criteria |
| RegulatoryReporting.WeightTotalStep | compliance_automation/regulatory_reporting_suite.py:249 | the weight total of one more criterion adds its weight |
| RegulatoryReporting.WeightTotalOfFive | compliance_automation/regulatory_reporting_suite.py:249 | the weight total of five criteria is their sum |
| RegulatoryReporting.CriteriaWeightsSumTo100 | compliance_automation/regulatory_reporting_suite.py:104-191 | every criteria table's weights are non-negative and add up to 100 |
| RegulatoryReporting.SubScores | compliance_automation/regulatory_reporting_suite.py:254-289 | the EU AI Act and GDPR each score five criteria |
| RegulatoryReporting.SubScoreBelow60IffUnset | compliance_automation/regulatory_reporting_suite.py:254-289 | a criterion scores below 60 exactly when its configuration flag is unset, and its unset score never exceeds its set score |
| RegulatoryReporting.WeightedTotalBetween | compliance_automation/regulatory_reporting_suite.py:268-287 | with criterion scores in [0, 100] and non-negative weights, the weighted total lies between 0 and the total weight |
| RegulatoryReporting.WeightedTotalMonotone | compliance_automation/regulatory_reporting_suite.py:254-289 | setting more flags never lowers the weighted total |
| RegulatoryReporting.WeightedTotalStep | compliance_automation/regulatory_reporting_suite.py:268-287 | one more criterion adds its weighted contribution |
| RegulatoryReporting.WeightedTotalOfFive | compliance_automation/regulatory_reporting_suite.py:268-287 | the weighted total of five criteria is the sum of their contributions |
| RegulatoryReporting.GapsStep | compliance_automation/regulatory_reporting_suite.py:268-289 | one more criterion adds a gap exactly when it scores below 60 |
| RegulatoryReporting.GapsIff | compliance_automation/regulatory_reporting_suite.py:268-289 | a gap is reported exactly for each criterion scoring below 60, under its own name |
| RegulatoryReporting.TotalScoreBounds | compliance_automation/regulatory_reporting_suite.py:239-296 | `TotalScore`: every framework score lies in [0, 100] |
| RegulatoryReporting.ItemisedScoreCeiling | compliance_automation/regulatory_reporting_suite.py:254-315 | the EU AI Act scores at most 84.1 and GDPR at most 86, so neither is ever fully compliant and the EU AI Act never reaches minimal risk |
| RegulatoryReporting.MoreFlagsNeverLowerScore | compliance_automation/regulatory_reporting_suite.py:239-296 | a configuration with more flags set never gets a lower score |
| RegulatoryReporting.CriticalGapsIffUnset | compliance_automation/regulatory_reporting_suite.py:254-296 | frameworks scored by the simplified rule report no gaps; for the EU AI Act and GDPR a gap is reported exactly for each criterion whose flag is unset |
| RegulatoryReporting.StatusOf | compliance_automation/regulatory_reporting_suite.py:298-306 | fully compliant exactly from 90, substantially compliant in [75, 90), partially in [50, 75), non-compliant below 50 |
| RegulatoryReporting.RiskOf | compliance_automation/regulatory_reporting_suite.py:308-316 | minimal risk exactly from 85, limited in [70, 85), high in [50, 70), unacceptable below 50 |
| RegulatoryReporting.StatusAndRiskAgree | compliance_automation/regulatory_reporting_suite.py:298-316 | a score is non-compliant exactly when its risk is unacceptable, and fully compliant only at minimal risk |
| RegulatoryReporting.RecommendationsFacts | compliance_automation/regulatory_reporting_suite.py:318-324 | improvement is recommended exactly below 75, the 30-day gap fix exactly when there are gaps, suspension exactly below 50; below 50 at least two recommendations; none exactly from 75 without gaps |
| RegulatoryReporting.ExposureBandOf | compliance_automation/regulatory_reporting_suite.py:360-365 | high exposure exactly below 50, medium in [50, 75), low from 75 |
| RegulatoryReporting.FineExposureFacts | compliance_automation/regulatory_reporting_suite.py:339-365 | `FineExposure`: the high fine exposure applies exactly at unacceptable risk; frameworks other than the EU AI Act and GDPR get the default penalty texts |
| RegulatoryReporting.AssessmentOf | compliance_automation/regulatory_reporting_suite.py:239-337 | an assessment succeeds exactly for a framework in the table; otherwise it raises KeyError naming the framework |
| RegulatoryReporting.AssessAll | compliance_automation/regulatory_reporting_suite.py:232-235 | a successful loop assesses each framework once |
| RegulatoryReporting.AssessAllIff | compliance_automation/regulatory_reporting_suite.py:220-237 | assessing a list succeeds exactly when every framework is in the table, and then yields each framework's assessment in order |
| RegulatoryReporting.AssessAllStep | compliance_automation/regulatory_reporting_suite.py:232-235 | one more framework appends its assessment or stops with its KeyError |
| RegulatoryReporting.AssessAllPrefixFailure | compliance_automation/regulatory_reporting_suite.py:232-235 | the first KeyError ends the loop: a failing prefix decides the result |
| RegulatoryReporting.ScoreSumBetween | compliance_automation/regulatory_reporting_suite.py:376 | scores in [0, 100] add up to between 0 and 100 per score |
| RegulatoryReporting.OverallScoreBounds | compliance_automation/regulatory_reporting_suite.py:376 | the overall score, the mean of scores in [0, 100] and 0 without assessments, lies in [0, 100] |
| RegulatoryReporting.AssessedScoresBounded | compliance_automation/regulatory_reporting_suite.py:373-376 | every assessed score and the report's overall score lie in [0, 100] |
| RegulatoryReporting.WithRisk | compliance_automation/regulatory_reporting_suite.py:440-453 | the selection keeps exactly the assessments at the given risk level |
| RegulatoryReporting.AssessmentActions | compliance_automation/regulatory_reporting_suite.py:441-463 | one action per selected assessment, with the group's priority, the assessment's framework and its fine exposure as potential impact |
| RegulatoryReporting.Upcoming | compliance_automation/regulatory_reporting_suite.py:466-467 | a milestone is upcoming exactly when its date is not after the horizon |
| RegulatoryReporting.DeadlineActions | compliance_automation/regulatory_reporting_suite.py:468-477 | one MEDIUM preparation action per upcoming milestone, due on its date |
| RegulatoryReporting.GroupsInOrder | compliance_automation/regulatory_reporting_suite.py:479 | critical, then high, then medium actions are already in priority order |
| RegulatoryReporting.PriorityActionsGrouped | compliance_automation/regulatory_reporting_suite.py:435-479 | `PriorityActions`: the stable sort leaves the actions as raised: unacceptable-risk actions, then high-risk actions, then deadline actions, one per item |
| RegulatoryReporting.AssessmentEntries | compliance_automation/regulatory_reporting_suite.py:485-493 | one entry per assessment, on its due date, of high importance exactly at high or unacceptable risk |
| RegulatoryReporting.MilestoneEntries | compliance_automation/regulatory_reporting_suite.py:495-503 | one entry per milestone, on its date, of critical importance exactly when preparation is required |
| RegulatoryReporting.StrLeTotalPreorder | compliance_automation/regulatory_reporting_suite.py:506 | date strings are totally preordered, so sorting by date is well defined |
| RegulatoryReporting.RegulatoryTimelineFacts | compliance_automation/regulatory_reporting_suite.py:481-506 | `RegulatoryTimeline`: the timeline is a permutation of the assessment and milestone entries, sorted by date, and entries with the same date keep their order |
| RegulatoryReporting.RegulatoryReportFacts | compliance_automation/regulatory_reporting_suite.py:368-407 | `ReportOf`: the report is produced exactly when every framework has a table entry; it then holds one assessment per framework in order, a mean score in [0, 100], the grouped priority actions and a date-sorted timeline |
| RegulatoryReporting.ReportingSuite.constructor | compliance_automation/regulatory_reporting_suite.py:96-99 | the suite starts with its calendar and an empty history |
| RegulatoryReporting.ReportingSuite.ScoreCriteria | compliance_automation/regulatory_reporting_suite.py:268-289 | the criterion loop accumulates exactly the weighted total and the gaps |
| RegulatoryReporting.ReportingSuite.AssessFrameworkCompliance | compliance_automation/regulatory_reporting_suite.py:239-337 | returns exactly the specified assessment or KeyError |
| RegulatoryReporting.ReportingSuite.AssessSystemCompliance | compliance_automation/regulatory_reporting_suite.py:220-237 | the loop assesses the given frameworks, or the default three when none are given, stopping at the first KeyError |
| RegulatoryReporting.ReportingSuite.GenerateRegulatoryReport | compliance_automation/regulatory_reporting_suite.py:368-407 | returns the specified report and appends it to the history; on a KeyError the history is unchanged |
| RiskScoring.EvaluateRiskFactor | risk_assessment_demo/risk_scoring_engine.py:352-399 | every factor score lies in [1, 5] |
| RiskScoring.OtherFactorsScoreSeverity | risk_assessment_demo/risk_scoring_engine.py:355-399 | a factor without a special rule scores its severity value |
| RiskScoring.DecisionTablesMonotone | risk_assessment_demo/risk_scoring_engine.py:359-397 | higher accuracy never raises the accuracy score; a higher bias score never lowers the bias score |
| RiskScoring.EmptySystemDefaults | risk_assessment_demo/risk_scoring_engine.py:359-397 | with nothing configured, accuracy defaults to 0.8 and scores 3, oversight defaults to minimal and scores 4, compliance status is unknown and scores 4, bias defaults to 0.5 and scores 1 |
| RiskScoring.CalculateDimensionScore | risk_assessment_demo/risk_scoring_engine.py:336-350 | the accumulating loop returns exactly the specified dimension score |
| RiskScoring.TotalsAfter | risk_assessment_demo/risk_scoring_engine.py:344-348 | one more factor adds its weight, a custom one when given, to the weight total and its weighted score to the score total |
| RiskScoring.DimensionScoreOfTotals | risk_assessment_demo/risk_scoring_engine.py:350 | the dimension score is the score total over the weight total, 0 when the weight total is not positive |
| RiskScoring.WeightedTotalBetween | risk_assessment_demo/risk_scoring_engine.py:344-348 | with non-negative weights the weighted score total lies between 1 and 5 times the weight total |
| RiskScoring.WeightedTotalStep | risk_assessment_demo/risk_scoring_engine.py:344-348 | the totals of a list are those of its prefix plus the last factor's |
| RiskScoring.DimensionScoreBounds | risk_assessment_demo/risk_scoring_engine.py:336-350 | with non-negative weights the dimension score lies in [1, 5] when the weight total is positive, and is 0 otherwise |
| RiskScoring.CalculateOverallScore | risk_assessment_demo/risk_scoring_engine.py:401-411 | the loop over the dimension weights returns exactly the specified overall score |
| RiskScoring.PresentSumsBetween | risk_assessment_demo/risk_scoring_engine.py:406-409 | the weighted sum of present dimension scores in [0, 5] lies between 0 and 5 times their weight |
| RiskScoring.PresentStep | risk_assessment_demo/risk_scoring_engine.py:406-409 | a present dimension adds its weight and weighted score; an absent one adds nothing |
| RiskScoring.PresentWeightPositive | risk_assessment_demo/risk_scoring_engine.py:406-409 | a present dimension makes the present weight positive |
| RiskScoring.PresentWeightNonNegative | risk_assessment_demo/risk_scoring_engine.py:278-285 | the present weight is never negative |
| RiskScoring.OverallScoreBounds | risk_assessment_demo/risk_scoring_engine.py:401-411 | only present dimensions count; with none present the overall score is 0; with scores in [0, 5] it lies in [0, 5] |
| RiskScoring.NothingPresent | risk_assessment_demo/risk_scoring_engine.py:406-411 | with no dimension scored, no weight is counted |
| RiskScoring.DimensionIndex | risk_assessment_demo/risk_scoring_engine.py:16-22 | every dimension has its position in the dimension order |
| RiskScoring.DetermineRiskLevel | risk_assessment_demo/risk_scoring_engine.py:413-422 | Critical exactly from 4, High exactly in [3, 4), Medium in [2, 3), Low below 2 |
| RiskScoring.RiskLevelMonotone | risk_assessment_demo/risk_scoring_engine.py:413-422 | a higher score never gets a lower risk level |
| RiskScoring.DataQualityCount | risk_assessment_demo/risk_scoring_engine.py:429-435 | at most five data-quality indicators hold |
| RiskScoring.SquaredDeviationsNonNegative | risk_assessment_demo/risk_scoring_engine.py:442 | the variance is never negative |
| RiskScoring.CalculateConfidence | risk_assessment_demo/risk_scoring_engine.py:424-447 | the confidence lies in [0.3, 1]; at most one data-quality indicator gives 0.3; all five with equal dimension scores give 1 |
| RiskScoring.ScanFactors | risk_assessment_demo/risk_scoring_engine.py:311-315 | the factor loop appends the names of the factors scoring at least 4 and every factor |
| RiskScoring.AllDimensionsScored | risk_assessment_demo/risk_scoring_engine.py:306-308 | every dimension gets its own dimension score |
| RiskScoring.AssessAiSystemRisk | risk_assessment_demo/risk_scoring_engine.py:297-334 | the assessment holds every dimension's score, the names of the critical factors, all factors, the weighted overall score, its level, the confidence and the given date |
| RiskScoring.ScoreDimensions | risk_assessment_demo/risk_scoring_engine.py:306-315 | the loop over the dimensions builds exactly the dimension scores, critical factor names and factor list |
| RiskScoring.DimensionsStep | risk_assessment_demo/risk_scoring_engine.py:306-315 | one more dimension adds its score, its critical factors and its factors |
| RiskScoring.CriticalInIff | risk_assessment_demo/risk_scoring_engine.py:311-314 | a name is critical exactly when some factor with that name scores at least 4 |
| RiskScoring.CriticalNamesIff | risk_assessment_demo/risk_scoring_engine.py:306-315 | across the dimensions, a name is critical exactly when some factor with that name scores at least 4 |
| RiskScoring.AtLeastTotalPreorder | risk_assessment_demo/risk_scoring_engine.py:510-514 | the descending score order is a total preorder, so the sort is well defined |
| RiskScoring.ItemsIn | risk_assessment_demo/risk_scoring_engine.py:511 | every item is a scored dimension with its score |
| RiskScoring.KeepAtLeastThree | risk_assessment_demo/risk_scoring_engine.py:517-519 | the filter keeps exactly the items scoring at least 3 |
| RiskScoring.KeepAllAtLeastThree | risk_assessment_demo/risk_scoring_engine.py:517-519 | items all scoring at least 3 are all kept |
| RiskScoring.TopThree | risk_assessment_demo/risk_scoring_engine.py:517 | the top slice has three items, or all when there are fewer |
| RiskScoring.LeftOutIsOutranked | risk_assessment_demo/risk_scoring_engine.py:509-519 | in a descending ranking, an item scoring at least 3 that is not listed is outranked by three listed items |
| RiskScoring.PrioritizeMitigationsFacts | risk_assessment_demo/risk_scoring_engine.py:505-521 | `PrioritizeMitigations`: at most three priorities, highest score first, each a dimension scoring at least 3 with its score; dimensions with equal scores keep dimension order, as the stable `sorted(..., reverse=True)` leaves them; a dimension scoring at least 3 that is left out is outranked by three listed ones |
| RiskScoring.KeepSortedPrefix | risk_assessment_demo/risk_scoring_engine.py:516-518 | filtering a list ranked highest first by "score at least 3.0" keeps a prefix of it |
| ProfessionalServices.DemosOf | professional_services_connector.py:206-208 | one service maps exactly its own demonstrations, each to its id |
| ProfessionalServices.DemoMappingsKeys | professional_services_connector.py:203-211 | `DemoMappings`: a demonstration is mapped exactly when some service in the catalogue lists it |
| ProfessionalServices.DemoMappingsLastWins | professional_services_connector.py:203-211 | a demonstration listed by several services maps to the last of them in catalogue order |
| ProfessionalServices.ServiceMapFacts | professional_services_connector.py:41-200 | with distinct ids, every service is found under its own id and every id found belongs to a service |
| ProfessionalServices.ServiceForDemoFacts | professional_services_connector.py:213-218 | `ServiceForDemo`: a demonstration finds no service exactly when it is not mapped; otherwise it finds the last service listing it |
| ProfessionalServices.CatalogServiceForDemo | professional_services_connector.py:41-218 | in the shipped catalogue a demonstration finds a service exactly when it is mapped, and that service lists it |
| ProfessionalServices.CatalogIdsDistinct | professional_services_connector.py:41-200 | the shipped catalogue's service ids are distinct |
| ProfessionalServices.CatalogEntry | professional_services_connector.py:41-200 | each catalogue entry carries the id of its position |
| ProfessionalServices.IdPosition | professional_services_connector.py:41-200 | each id's position is where it is listed |
| ProfessionalServices.OfferingId | professional_services_connector.py:41-200 | each offering carries its own id |
| ProfessionalServices.ServicesByCategory | professional_services_connector.py:220-222 | the services of a category are exactly the catalogue's services in that category, and they form a subsequence of the catalogue, so catalogue order is kept |
| ProfessionalServices.RecommendationRules | professional_services_connector.py:224-266 | `RecommendationOf`: high or unacceptable risk brings the risk assessment and governance consulting as primary services; limited risk brings compliance solutions as primary and the risk assessment as supporting; detected bias brings the bias audit; the presence of security findings brings red teaming; the rationale appears exactly when some service was recommended and counts them; there is a strategy exactly at high, unacceptable or limited risk |
| ProfessionalServices.Strip | professional_services_connector.py:349 | stripping never lengthens the text and leaves no stripped character at either end, and only a text of stripped characters becomes empty |
| ProfessionalServices.Pow10 | professional_services_connector.py:349 | powers of ten are positive |
| ProfessionalServices.DotIndex | professional_services_connector.py:349 | the dot found is the first dot of the text; none is found exactly when there is no dot |
| ProfessionalServices.ParseDecimal | professional_services_connector.py:349 | a parsed decimal is never negative |
| ProfessionalServices.MaturityBand | professional_services_connector.py:350-355 | advanced exactly from 80, intermediate exactly in [50, 80), emerging below 50 |
| ProfessionalServices.AiMaturity | professional_services_connector.py:346-356 | with `ParsePercentage` reading the rate: assessment needed exactly when no compliance rate is given; ValueError exactly when the rate does not parse; otherwise the band of the parsed rate |
| ProfessionalServices.IntegerPercentage | professional_services_connector.py:349 | a string of digits, with or without a trailing percent sign, parses to its integer value |
| ProfessionalServices.CountTrue | professional_services_connector.py:368-384 | no more indicators hold than there are |
| ProfessionalServices.RegulatoryPressure | professional_services_connector.py:358-372 | high pressure exactly from three indicators, medium exactly at two, low otherwise |
| ProfessionalServices.BusinessImpact | professional_services_connector.py:374-388 | high impact exactly from two indicators, medium exactly at one, low at none |
| ProfessionalServices.CountTrueStep | professional_services_connector.py:368-384 | one more indicator adds one exactly when it holds |
| ProfessionalServices.PressureWithoutIndustries | professional_services_connector.py:358-372 | without industries the pressure is never high, and is medium exactly with more than two high-risk systems and detected bias |
| Sorting.SortBy | compliance_automation/regulatory_reporting_suite.py:479-506 | sorting by a key permutes its input |
| Sorting.InsertPermutes | compliance_automation/regulatory_reporting_suite.py:506 | inserting an element adds exactly that element |
| Sorting.SortBySorted | compliance_automation/regulatory_reporting_suite.py:506 | under a total preorder the result is sorted by the key |
| Sorting.SortByStable | compliance_automation/regulatory_reporting_suite.py:479-506 | elements with the same key keep their relative order, as Python's sorted does |
| Sorting.SortBySortedIdentity | risk_assessment_demo/executive_dashboard.py:271 | sorting a list already in key order leaves it unchanged |
| Text.LowerPointwise | risk_assessment_demo/compliance_checker.py:744 | lower-casing maps each character separately and keeps the length |
| Text.LowerIdempotent | educational_framework.py:378-379 | lower-casing twice is lower-casing once |
| Text.TitlePointwise | risk_assessment_demo/executive_dashboard.py:66 | title case upper-cases a character exactly at the start of a word and lower-cases the rest |
| Text.ReplaceChar | risk_assessment_demo/executive_dashboard.py:66 | replacing a character changes exactly its occurrences |
| Text.ContainsAt | educational_framework.py:482 | the substring test holds exactly when the text occurs at some position |
| Text.LowerContains | educational_framework.py:482 | a text found in another is still found once both are lower-cased |
| Text.JoinContainsParts | educational_framework.py:479 | text joined from parts contains every part |
| Text.StrLeTotal | compliance_automation/regulatory_reporting_suite.py:506 | any two strings are ordered one way or the other |
| Text.StrLeTransitive | compliance_automation/regulatory_reporting_suite.py:506 | the string order is transitive |
| Text.StrLeAntisymmetric | compliance_automation/regulatory_reporting_suite.py:506 | strings ordered both ways are equal |
| Means.Clamp | compliance_automation/gdpr_ai_compliance_checker.py:345 | min(hi, max(lo, x)) lies in [lo, hi], is x inside the range and the nearer bound outside it |

## Left out

- Console output (`print`), emoji and f-string report text. Texts that
  decisions depend on are enumerations; the wording of the rest is not modelled.
- JSON export and serialisation: `export_audit_trail`, `export_compliance_data`
  and the other `export_*` functions. They only reformat data that is modelled.
- SHA-256 itself. `H` is an arbitrary function. Every property except one
  holds for any `H`. The exception is AuditTrail.DescriptionTamperDetected: it
  assumes `H` is injective (`Injective(H)`), the idealisation of SHA-256's
  collision resistance.
- The clock, `uuid4()` and the signing key from `_generate_encryption_key`.
  Each is a parameter of the operation that reads it.
- IEEE floating-point rounding. Reals are exact, so percentage formatting
  and `round(...)` are not modelled.
- RiskScoring.CalculateConfidence: the population variance (`np.var`) is
  modelled exactly over reals (`Variance`), so the contract is about exact
  arithmetic, not IEEE doubles; its ensures state the [0.3, 1.0] clamp and the
  two extreme cases, not every intermediate value.
- Case mapping and title case are ASCII only. The source's identifiers and
  keywords are ASCII, so this does not change any decision.
- ProfessionalServices.ParseDecimal accepts only ASCII digits with an optional
  decimal part. Python's `float` also accepts a sign, surrounding whitespace,
  exponents, `nan`, `inf`/`infinity` in any case, underscores between digits
  and non-ASCII decimal digits; the model rejects all of these as unparseable.
- ProfessionalServices.AiMaturity therefore differs on such inputs: for "nan%" the
  source compares NaN, every comparison is false and the result is "emerging",
  while the model reports the rate as unparseable.
- Dynamic configuration dictionaries become configuration datatypes, and
  Python truthiness becomes `bool` fields. Where the source tests only that a
  key is present, the field records presence. For instance, the services
  connector tests `security_vulnerabilities` only for presence.
- Dashboard executive insights (`_generate_executive_insights`) and trend
  analysis. Their output is prose whose wording does not feed any decision.
- Dashboard distribution keys are enumerations, not the `.value` strings.
- ExecutiveDashboard.DetailedMetricsOf requires a non-empty portfolio. The
  source reaches it only after the empty-portfolio check returns an error.
- Educational framework: `get_module_content` and `_create_assessments` are
  lookups of static data. The readiness report is keyed by path name.
- EU AI Act: `generate_compliance_report` and `_generate_next_steps` are
  report assembly and prose. The deadline is a number of days from the
  (unmodelled) current date.
- ISO 42001: the resource requirements, the quick wins and the comprehensive
  report text are fixed prose.
- Regulatory reporting: the executive summary and the board presentation are
  prose. The regulatory-calendar dates are a parameter, with the comparison
  against today given as `YYYY-MM-DD` strings in lexicographic order.
- GDPR: `generate_dpo_report`, `_generate_key_finding`,
  `_calculate_potential_fines` and `_assess_notification_requirements` build
  report text.
- Professional services: `create_consultation_request` (clock and uuid) and
  `generate_roi_analysis` (string arithmetic on currency text) are not
  modelled. Recommendations return service identifiers rather than service
  records.

## Findings

| source | as written | input that shows it | evidently intended | confidence | as-written member | corrected member |
|---|---|---|---|---|---|---|
| compliance_automation/gdpr_ai_compliance_checker.py:254-295 | the principle loop looks up every principle in a table with only six entries; storage limitation, security and accountability are missing, so the lookup raises `KeyError` at storage limitation | any system configuration | the principles without a table entry get the simplified 70/45 score of lines 340-343, and the assessment completes | not executed | GdprCompliance.AsWrittenAlwaysFails | GdprCompliance.CorrectedAssessmentFacts |
