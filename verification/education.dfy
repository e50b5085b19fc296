/** `EducationalFramework`: the learning catalogue's content types, learning-path
    recommendation from a user's role and goals, module search, and the learning
    progress report. */
module Education {
  import opened Wrappers
  import opened Text

  datatype LearningLevel = Executive | Practitioner | Technical | Specialist

  /** The members of `LearningLevel`, in declaration order. */
  const Levels: seq<LearningLevel> := [Executive, Practitioner, Technical, Specialist]

  datatype ContentType = Tutorial | CaseStudy | BestPractice | RegulationUpdate | Assessment | Demonstration

  /** The attribute name of each `ContentType` member. */
  function ContentTypeName(t: ContentType): string {
    match t
    case Tutorial => "TUTORIAL"
    case CaseStudy => "CASE_STUDY"
    case BestPractice => "BEST_PRACTICE"
    case RegulationUpdate => "REGULATION_UPDATE"
    case Assessment => "ASSESSMENT"
    case Demonstration => "DEMONSTRATION"
  }

  /** `ContentType.<name>`: attribute lookup on the enumeration, which raises
      `AttributeError` for a name that is not a member. */
  function ContentTypeNamed(name: string): (r: Result<ContentType>)
    ensures r.Failure? ==> r.error == AttributeError(name)
  {
    if name == "TUTORIAL" then Success(Tutorial)
    else if name == "CASE_STUDY" then Success(CaseStudy)
    else if name == "BEST_PRACTICE" then Success(BestPractice)
    else if name == "REGULATION_UPDATE" then Success(RegulationUpdate)
    else if name == "ASSESSMENT" then Success(Assessment)
    else if name == "DEMONSTRATION" then Success(Demonstration)
    else Failure(AttributeError(name))
  }

  /** Looking up a member's name yields that member, and a name no member has
      raises. */
  lemma ContentTypeNamedRoundTrip(name: string)
    ensures ContentTypeNamed(name).Success? ==> ContentTypeName(ContentTypeNamed(name).value) == name
    ensures ContentTypeNamed(name).Failure? <==> forall t :: ContentTypeName(t) != name
  {
    if ContentTypeNamed(name).Failure? {
      forall t ensures ContentTypeName(t) != name {
        match t
        case Tutorial =>
        case CaseStudy =>
        case BestPractice =>
        case RegulationUpdate =>
        case Assessment =>
        case Demonstration =>
      }
    }
  }

  /** Resolving the content types of the catalogue's modules, in the order
      `_create_learning_modules` builds them; the first unknown name raises. */
  function ResolveContentTypes(names: seq<string>): Result<seq<ContentType>> {
    if names == [] then Success([])
    else
      var init :- ResolveContentTypes(names[..|names| - 1]);
      var last :- ContentTypeNamed(names[|names| - 1]);
      Success(init + [last])
  }

  /** Resolution succeeds exactly when every name is a member, and then yields
      those members; otherwise it reports the first name that is not. */
  lemma {:induction false} ResolveContentTypesFacts(names: seq<string>)
    ensures ResolveContentTypes(names).Success? <==> forall i :: 0 <= i < |names| ==> ContentTypeNamed(names[i]).Success?
    ensures ResolveContentTypes(names).Success? ==>
      |ResolveContentTypes(names).value| == |names| &&
      forall i :: 0 <= i < |names| ==> ContentTypeNamed(names[i]) == Success(ResolveContentTypes(names).value[i])
    ensures ResolveContentTypes(names).Failure? ==>
      exists k :: 0 <= k < |names| && ContentTypeNamed(names[k]).Failure? &&
        ResolveContentTypes(names).error == AttributeError(names[k]) &&
        forall i :: 0 <= i < k ==> ContentTypeNamed(names[i]).Success?
  {
    if names != [] {
      var init := names[..|names| - 1];
      ResolveContentTypesFacts(init);
      assert forall i :: 0 <= i < |init| ==> init[i] == names[i];
      if ResolveContentTypes(init).Failure? {
        var k :| 0 <= k < |init| && ContentTypeNamed(init[k]).Failure? &&
          ResolveContentTypes(init).error == AttributeError(init[k]) &&
          forall i :: 0 <= i < k ==> ContentTypeNamed(init[i]).Success?;
        assert ContentTypeNamed(names[k]).Failure?;
      }
    }
  }

  /** The content types named by the seven modules of `_create_learning_modules`,
      in insertion order; the last, the red-team module, names `SPECIALIST`. */
  const CatalogContentTypeNames: seq<string> :=
    ["TUTORIAL", "REGULATION_UPDATE", "BEST_PRACTICE", "TUTORIAL", "TUTORIAL", "BEST_PRACTICE", "SPECIALIST"]

  /** Building the module catalogue, and so constructing `EducationalFramework`,
      always raises `AttributeError`: `SPECIALIST` is a learning level, not a
      content type. */
  lemma CatalogConstructionFails()
    ensures ResolveContentTypes(CatalogContentTypeNames) == Failure(AttributeError("SPECIALIST"))
  {
    var names := CatalogContentTypeNames;
    ResolveContentTypesFacts(names);
    assert ContentTypeNamed(names[6]).Failure?;
    assert forall i :: 0 <= i < 6 ==> ContentTypeNamed(names[i]).Success?;
  }

  /** `LearningModule`. */
  datatype LearningModule = LearningModule(
    moduleId: string,
    title: string,
    level: LearningLevel,
    contentType: ContentType,
    durationMinutes: int,
    prerequisites: seq<string>,
    learningObjectives: seq<string>,
    contentSummary: string,
    practicalExercises: seq<string>,
    relatedServices: seq<string>)

  /** The three learning paths of `_create_learning_paths`, in insertion order. */
  datatype PathId = ExecutiveGovernance | PractitionerImplementation | TechnicalSpecialist

  const PathIds: seq<PathId> := [ExecutiveGovernance, PractitionerImplementation, TechnicalSpecialist]

  function PathName(p: PathId): string {
    match p
    case ExecutiveGovernance => "AI Governance for Executive Leadership"
    case PractitionerImplementation => "AI Governance Implementation for Practitioners"
    case TechnicalSpecialist => "Advanced AI Governance Technical Implementation"
  }

  function PathLevel(p: PathId): LearningLevel {
    match p
    case ExecutiveGovernance => Executive
    case PractitionerImplementation => Practitioner
    case TechnicalSpecialist => Technical
  }

  /** `total_duration`, in minutes. */
  function PathDuration(p: PathId): nat {
    match p
    case ExecutiveGovernance => 120
    case PractitionerImplementation => 360
    case TechnicalSpecialist => 480
  }

  /** The module ids each path lists, in order. */
  function PathModules(p: PathId): (m: seq<string>)
    ensures |m| > 0
  {
    match p
    case ExecutiveGovernance =>
      ["exec_ai_governance_overview", "exec_eu_ai_act_impact", "exec_risk_communication", "exec_strategic_planning"]
    case PractitionerImplementation =>
      ["prac_risk_assessment_methods", "prac_bias_detection", "prac_compliance_frameworks",
       "prac_governance_implementation", "prac_stakeholder_engagement"]
    case TechnicalSpecialist =>
      ["tech_compliance_automation", "tech_model_governance", "tech_monitoring_systems",
       "tech_security_integration", "tech_advanced_implementation"]
  }

  /** Every path lists four or five modules. */
  lemma PathModulesSize(p: PathId)
    ensures 4 <= |PathModules(p)| <= 5
  {
  }

  /** The paths have distinct names, so keying a report by name loses none. */
  lemma PathNamesDistinct(p: PathId, q: PathId)
    ensures PathName(p) == PathName(q) <==> p == q
  {
    assert |PathName(ExecutiveGovernance)| == 38;
    assert |PathName(PractitionerImplementation)| == 46;
    assert |PathName(TechnicalSpecialist)| == 47;
  }

  // ---------------------------------------------------------------------------
  // recommend_learning_path
  // ---------------------------------------------------------------------------

  /** The fields of `user_profile` the recommendation reads; an absent key is `None`. */
  datatype UserProfile = UserProfile(role: Option<string>, aiExperience: Option<string>, learningGoals: seq<string>)

  const ExecutiveTerms: seq<string> := ["ceo", "cto", "ciso", "chief", "director", "vp"]
  const PractitionerTerms: seq<string> := ["manager", "officer", "analyst", "consultant"]
  const TechnicalTerms: seq<string> := ["engineer", "developer", "architect", "scientist"]

  /** `any(term in role for term in terms)`. */
  predicate MentionsAny(role: string, terms: seq<string>) {
    exists t :: t in terms && Contains(role, t)
  }

  /** The path chosen from the lowercased role: executive terms are tried first,
      then practitioner terms, then technical terms. */
  function PrimaryPath(role: string): Option<PathId> {
    if MentionsAny(role, ExecutiveTerms) then Some(ExecutiveGovernance)
    else if MentionsAny(role, PractitionerTerms) then Some(PractitionerImplementation)
    else if MentionsAny(role, TechnicalTerms) then Some(TechnicalSpecialist)
    else None
  }

  /** The minutes estimated for the chosen path. */
  function EstimatedTime(path: Option<PathId>): nat {
    match path
    case Some(ExecutiveGovernance) => 120
    case Some(PractitionerImplementation) => 360
    case Some(TechnicalSpecialist) => 480
    case None => 0
  }

  /** `goal_module_mapping`. */
  function GoalModules(goal: string): Option<seq<string>> {
    if goal == "compliance" then Some(["prac_compliance_frameworks", "tech_compliance_automation"])
    else if goal == "bias" then Some(["prac_bias_detection", "spec_bias_mitigation"])
    else if goal == "security" then Some(["spec_red_team_methodologies", "tech_security_integration"])
    else if goal == "governance" then Some(["exec_ai_governance_overview", "prac_governance_implementation"])
    else None
  }

  /** The modules the goals add, in goal order; a goal that is not a key, once
      lowercased, adds nothing. */
  function GoalRecommendations(goals: seq<string>): seq<string> {
    if goals == [] then []
    else
      var last := goals[|goals| - 1];
      GoalRecommendations(goals[..|goals| - 1]) + GoalModules(Lower(last)).GetOr([])
  }

  /** The prerequisites for a stated AI experience (absent means `beginner`). */
  function ExperiencePrerequisites(experience: string): seq<string> {
    if experience == "beginner" then ["AI Fundamentals", "Basic Risk Management"]
    else if experience == "intermediate" then ["Advanced AI Concepts"]
    else []
  }

  /** The next steps, offered only when a path was chosen. */
  function NextSteps(path: Option<PathId>): seq<string> {
    match path
    case Some(p) =>
      ["Begin with " + PathModules(p)[0], "Complete readiness assessment", "Schedule learning plan review",
       "Join practitioner community"]
    case None => []
  }

  /** The dictionary `recommend_learning_path` returns; the path is named by its id. */
  datatype Recommendation = Recommendation(
    primaryPath: Option<PathId>,
    recommendedModules: seq<string>,
    estimatedTime: nat,
    prerequisites: seq<string>,
    nextSteps: seq<string>)

  /** What `recommend_learning_path` returns for a profile. */
  function RecommendationFor(profile: UserProfile): Recommendation {
    var path := PrimaryPath(Lower(profile.role.GetOr("")));
    Recommendation(
      path,
      GoalRecommendations(profile.learningGoals),
      EstimatedTime(path),
      ExperiencePrerequisites(profile.aiExperience.GetOr("beginner")),
      NextSteps(path))
  }

  /** `recommend_learning_path`, with its loop over the learning goals. */
  method RecommendLearningPath(profile: UserProfile) returns (r: Recommendation)
    ensures r == RecommendationFor(profile)
  {
    var role := Lower(profile.role.GetOr(""));
    var experience := profile.aiExperience.GetOr("beginner");
    var goals := profile.learningGoals;
    var path := PrimaryPath(role);
    var modules: seq<string> := [];
    for i := 0 to |goals|
      invariant modules == GoalRecommendations(goals[..i])
    {
      assert goals[..i + 1][..i] == goals[..i];
      var key := Lower(goals[i]);
      var mapped := GoalModules(key);
      if mapped.Some? {
        modules := modules + mapped.value;
      }
    }
    assert goals[..|goals|] == goals;
    r := Recommendation(path, modules, EstimatedTime(path), ExperiencePrerequisites(experience), NextSteps(path));
  }

  /** The role rules in order: a role naming an executive term gets the executive
      path whatever else it names; practitioner terms are consulted only without
      executive terms, technical terms only without either; no term, no path. */
  lemma PrimaryPathRules(role: string)
    ensures PrimaryPath(role) == Some(ExecutiveGovernance) <==> MentionsAny(role, ExecutiveTerms)
    ensures PrimaryPath(role) == Some(PractitionerImplementation) <==>
      !MentionsAny(role, ExecutiveTerms) && MentionsAny(role, PractitionerTerms)
    ensures PrimaryPath(role) == Some(TechnicalSpecialist) <==>
      !MentionsAny(role, ExecutiveTerms) && !MentionsAny(role, PractitionerTerms) && MentionsAny(role, TechnicalTerms)
    ensures PrimaryPath(role).Some? ==> PathLevel(PrimaryPath(role).value) != Specialist
  {
  }

  /** The estimated time is the chosen path's total duration, and 0 without a path;
      the next steps are offered exactly when a path was chosen, starting from
      its first module. */
  lemma RecommendationPathFacts(profile: UserProfile)
    ensures var r := RecommendationFor(profile);
      && (r.primaryPath.Some? ==> r.estimatedTime == PathDuration(r.primaryPath.value))
      && (r.primaryPath.None? ==> r.estimatedTime == 0)
      && (r.nextSteps != [] <==> r.primaryPath.Some?)
      && (r.primaryPath.Some? ==> r.nextSteps[0] == "Begin with " + PathModules(r.primaryPath.value)[0])
  {
  }

  /** A recommended module comes from a goal whose lowercase form is a key, and
      every such goal contributes all its modules. */
  lemma {:induction false} GoalRecommendationsMembers(goals: seq<string>, m: string)
    ensures m in GoalRecommendations(goals) <==>
      exists g :: g in goals && GoalModules(Lower(g)).Some? && m in GoalModules(Lower(g)).value
  {
    if goals != [] {
      var init := goals[..|goals| - 1];
      var last := goals[|goals| - 1];
      GoalRecommendationsMembers(init, m);
      assert goals == init + [last];
      if m in GoalRecommendations(goals) {
        if m !in GoalRecommendations(init) {
          assert m in GoalModules(Lower(last)).GetOr([]);
          assert last in goals;
        } else {
          var g :| g in init && GoalModules(Lower(g)).Some? && m in GoalModules(Lower(g)).value;
          assert g in goals;
        }
      }
      if exists g :: g in goals && GoalModules(Lower(g)).Some? && m in GoalModules(Lower(g)).value {
        var g :| g in goals && GoalModules(Lower(g)).Some? && m in GoalModules(Lower(g)).value;
        if g != last {
          assert g in init;
        }
      }
    }
  }

  /** How many goals, repetitions included, are keys of the goal table once lowercased. */
  function KnownGoals(goals: seq<string>): nat {
    if goals == [] then 0
    else KnownGoals(goals[..|goals| - 1]) + (if GoalModules(Lower(goals[|goals| - 1])).Some? then 1 else 0)
  }

  /** Each goal that is a key adds exactly two modules. */
  lemma {:induction false} GoalRecommendationsSize(goals: seq<string>)
    ensures |GoalRecommendations(goals)| == 2 * KnownGoals(goals)
  {
    if goals != [] {
      GoalRecommendationsSize(goals[..|goals| - 1]);
    }
  }

  // ---------------------------------------------------------------------------
  // search_modules
  // ---------------------------------------------------------------------------

  /** The level filter: with no level every module passes. */
  predicate LevelAdmits(level: Option<LearningLevel>, m: LearningModule) {
    level.None? || m.level == level.value
  }

  /** The query, lowercased, occurs in the lowercased title, summary, or the
      objectives joined by single spaces. */
  predicate QueryMatches(query: string, m: LearningModule) {
    var q := Lower(query);
    Contains(Lower(m.title), q) || Contains(Lower(m.contentSummary), q) ||
    Contains(Lower(Join(m.learningObjectives, " ")), q)
  }

  /** The search results, in catalogue order. */
  function SearchResults(modules: seq<LearningModule>, query: string, level: Option<LearningLevel>): seq<LearningModule> {
    if modules == [] then []
    else
      var last := modules[|modules| - 1];
      SearchResults(modules[..|modules| - 1], query, level) +
        (if LevelAdmits(level, last) && QueryMatches(query, last) then [last] else [])
  }

  /** `search_modules` over the catalogue `modules`, in insertion order. */
  method SearchModules(modules: seq<LearningModule>, query: string, level: Option<LearningLevel>)
    returns (results: seq<LearningModule>)
    ensures results == SearchResults(modules, query, level)
  {
    results := [];
    for i := 0 to |modules|
      invariant results == SearchResults(modules[..i], query, level)
    {
      assert modules[..i + 1][..i] == modules[..i];
      var m := modules[i];
      if level.Some? && m.level != level.value {
        continue;
      }
      var q := Lower(query);
      var fields := [Lower(m.title), Lower(m.contentSummary), Lower(Join(m.learningObjectives, " "))];
      if Contains(fields[0], q) || Contains(fields[1], q) || Contains(fields[2], q) {
        results := results + [m];
      }
    }
    assert modules[..|modules|] == modules;
  }

  /** A module is found exactly when it is in the catalogue, passes the level
      filter and matches the query; nothing is added. */
  lemma {:induction false} SearchResultsMembers(modules: seq<LearningModule>, query: string, level: Option<LearningLevel>)
    ensures |SearchResults(modules, query, level)| <= |modules|
    ensures forall m :: m in SearchResults(modules, query, level) <==>
      m in modules && LevelAdmits(level, m) && QueryMatches(query, m)
  {
    if modules != [] {
      var init := modules[..|modules| - 1];
      SearchResultsMembers(init, query, level);
      assert modules == init + [modules[|modules| - 1]];
    }
  }

  /** With no level and the empty query, the search returns the whole catalogue. */
  lemma {:induction false} SearchEverything(modules: seq<LearningModule>)
    ensures SearchResults(modules, "", None) == modules
  {
    if modules != [] {
      SearchEverything(modules[..|modules| - 1]);
      ContainsEmpty(Lower(modules[|modules| - 1].title));
      assert Lower("") == "";
      assert modules[..|modules| - 1] + [modules[|modules| - 1]] == modules;
    }
  }

  /** A query found, ignoring case, in any one learning objective finds the module
      (the objectives are searched as one space-joined text). */
  lemma SearchFindsObjective(modules: seq<LearningModule>, query: string, m: LearningModule, objective: string)
    requires m in modules && objective in m.learningObjectives
    requires Contains(Lower(objective), Lower(query))
    ensures m in SearchResults(modules, query, Some(m.level))
  {
    JoinContainsParts(m.learningObjectives, " ");
    var k :| 0 <= k < |m.learningObjectives| && m.learningObjectives[k] == objective;
    LowerContains(Join(m.learningObjectives, " "), objective);
    ContainsTransitive(Lower(Join(m.learningObjectives, " ")), Lower(objective), Lower(query));
    SearchResultsMembers(modules, query, Some(m.level));
  }

  // ---------------------------------------------------------------------------
  // generate_learning_report
  // ---------------------------------------------------------------------------

  /** The fields of `user_progress` the report reads. */
  datatype UserProgress = UserProgress(completedModules: seq<string>, currentPath: Option<string>)

  /** `part / whole * 100`. */
  function Percent(part: int, whole: nat): real
    requires whole > 0
  {
    part as real / whole as real * 100.0
  }

  /** A percentage reaches `bound` exactly when `100 * part` reaches `bound * whole`. */
  lemma PercentAtLeast(part: int, whole: nat, bound: real)
    requires whole > 0
    ensures Percent(part, whole) >= bound <==> part as real * 100.0 >= bound * whole as real
  {
    var w := whole as real;
    var x := part as real / w;
    assert x * w == part as real;
    assert Percent(part, whole) * w == part as real * 100.0;
  }

  /** A percentage is 100 exactly when the part is the whole. */
  lemma PercentIsWhole(part: int, whole: nat)
    requires whole > 0
    ensures Percent(part, whole) == 100.0 <==> part == whole
  {
    var w := whole as real;
    var x := part as real / w;
    assert x * w == part as real;
    if part == whole {
      assert x == 1.0;
    }
  }

  /** How many modules of the catalogue are at `level`. */
  function LevelSize(modules: seq<LearningModule>, level: LearningLevel): nat {
    if modules == [] then 0
    else LevelSize(modules[..|modules| - 1], level) + (if modules[|modules| - 1].level == level then 1 else 0)
  }

  /** `any(lm.module_id == id for lm in level_modules)`. */
  predicate IsLevelModule(modules: seq<LearningModule>, level: LearningLevel, id: string) {
    exists m :: m in modules && m.level == level && m.moduleId == id
  }

  /** How many completed entries name a module at `level` (repetitions counted). */
  function CompletedAtLevel(completed: seq<string>, modules: seq<LearningModule>, level: LearningLevel): nat {
    if completed == [] then 0
    else
      CompletedAtLevel(completed[..|completed| - 1], modules, level) +
        (if IsLevelModule(modules, level, completed[|completed| - 1]) then 1 else 0)
  }

  datatype LevelCompetency = LevelCompetency(completionRate: real, modulesRemaining: int)

  /** The competency entry of a level that has modules. */
  function CompetencyOf(modules: seq<LearningModule>, completed: seq<string>, level: LearningLevel): LevelCompetency
    requires LevelSize(modules, level) > 0
  {
    var size := LevelSize(modules, level);
    var done := CompletedAtLevel(completed, modules, level);
    LevelCompetency(Percent(done, size), size as int - done)
  }

  /** `competency_analysis` after visiting `levels`: levels without modules get no entry. */
  function CompetencyOver(modules: seq<LearningModule>, completed: seq<string>, levels: seq<LearningLevel>)
    : map<LearningLevel, LevelCompetency>
  {
    if levels == [] then map[]
    else
      var rest := CompetencyOver(modules, completed, levels[..|levels| - 1]);
      var level := levels[|levels| - 1];
      if LevelSize(modules, level) > 0 then rest[level := CompetencyOf(modules, completed, level)] else rest
  }

  /** The competency loop over every learning level. */
  method CompetencyAnalysis(modules: seq<LearningModule>, completed: seq<string>)
    returns (r: map<LearningLevel, LevelCompetency>)
    ensures r == CompetencyOver(modules, completed, Levels)
  {
    r := map[];
    for k := 0 to |Levels|
      invariant r == CompetencyOver(modules, completed, Levels[..k])
    {
      assert Levels[..k + 1][..k] == Levels[..k];
      var level := Levels[k];
      var size := LevelSize(modules, level);
      if size > 0 {
        var done := CompletedAtLevel(completed, modules, level);
        r := r[level := LevelCompetency(Percent(done, size), size as int - done)];
      }
    }
    WholePrefix(Levels);
  }

  /** The analysis covers exactly the levels that have modules, with each level's
      completion rate and remaining count. */
  lemma {:induction false} CompetencyOverFacts(modules: seq<LearningModule>, completed: seq<string>, levels: seq<LearningLevel>)
    ensures forall l :: l in CompetencyOver(modules, completed, levels) <==> l in levels && LevelSize(modules, l) > 0
    ensures forall l :: l in CompetencyOver(modules, completed, levels) ==>
      CompetencyOver(modules, completed, levels)[l] == CompetencyOf(modules, completed, l)
  {
    if levels != [] {
      CompetencyOverFacts(modules, completed, levels[..|levels| - 1]);
      assert levels == levels[..|levels| - 1] + [levels[|levels| - 1]];
    }
  }

  /** A level is complete (100%) exactly when no module of it remains. */
  lemma CompetencyCompleteIff(modules: seq<LearningModule>, completed: seq<string>, level: LearningLevel)
    requires LevelSize(modules, level) > 0
    ensures CompetencyOf(modules, completed, level).completionRate == 100.0 <==>
      CompetencyOf(modules, completed, level).modulesRemaining == 0
  {
    PercentIsWhole(CompletedAtLevel(completed, modules, level), LevelSize(modules, level));
  }

  datatype Readiness = ReadyForCertification | NearlyReady | ContinueLearning

  function ReadinessText(r: Readiness): string {
    match r
    case ReadyForCertification => "Ready for certification"
    case NearlyReady => "Nearly ready - complete remaining modules"
    case ContinueLearning => "Continue learning pathway"
  }

  /** How many completed entries are modules of path `p` (repetitions counted). */
  function CompletedOnPath(completed: seq<string>, p: PathId): nat {
    if completed == [] then 0
    else CompletedOnPath(completed[..|completed| - 1], p) + (if completed[|completed| - 1] in PathModules(p) then 1 else 0)
  }

  datatype PathReadiness = PathReadiness(completionRate: real, readinessStatus: Readiness)

  /** The readiness bands: 80% and more is ready, 60% and more nearly ready. */
  function ReadinessBand(rate: real): Readiness {
    if rate >= 80.0 then ReadyForCertification
    else if rate >= 60.0 then NearlyReady
    else ContinueLearning
  }

  function PathReadinessOf(completed: seq<string>, p: PathId): PathReadiness {
    var rate := Percent(CompletedOnPath(completed, p), |PathModules(p)|);
    PathReadiness(rate, ReadinessBand(rate))
  }

  /** `certification_readiness` after visiting `paths`, keyed by path name. */
  function ReadinessOver(completed: seq<string>, paths: seq<PathId>): map<string, PathReadiness> {
    if paths == [] then map[]
    else
      var p := paths[|paths| - 1];
      ReadinessOver(completed, paths[..|paths| - 1])[PathName(p) := PathReadinessOf(completed, p)]
  }

  /** Visiting one more path adds its readiness under its name. */
  lemma ReadinessOverStep(completed: seq<string>, paths: seq<PathId>, k: nat)
    requires k < |paths|
    ensures ReadinessOver(completed, paths[..k + 1])
         == ReadinessOver(completed, paths[..k])[PathName(paths[k]) := PathReadinessOf(completed, paths[k])]
  {
    assert paths[..k + 1][..k] == paths[..k];
  }

  /** The certification readiness loop over the learning paths. */
  method CertificationReadiness(completed: seq<string>) returns (r: map<string, PathReadiness>)
    ensures r == ReadinessOver(completed, PathIds)
  {
    r := map[];
    for k := 0 to |PathIds|
      invariant r == ReadinessOver(completed, PathIds[..k])
    {
      ReadinessOverStep(completed, PathIds, k);
      var p := PathIds[k];
      var done := CompletedOnPath(completed, p);
      var rate := Percent(done, |PathModules(p)|);
      r := r[PathName(p) := PathReadiness(rate, ReadinessBand(rate))];
    }
    WholePrefix(PathIds);
  }

  /** Every path has an entry under its own name, and nothing else has one. */
  lemma ReadinessOverFacts(completed: seq<string>, paths: seq<PathId>)
    ensures forall name :: name in ReadinessOver(completed, paths) <==> exists p :: p in paths && PathName(p) == name
    ensures forall p :: p in paths ==> ReadinessOver(completed, paths)[PathName(p)] == PathReadinessOf(completed, p)
  {
    ReadinessOverKeys(completed, paths);
    ReadinessOverValues(completed, paths);
  }

  lemma {:induction false} ReadinessOverKeys(completed: seq<string>, paths: seq<PathId>)
    ensures forall name :: name in ReadinessOver(completed, paths) <==> exists p :: p in paths && PathName(p) == name
  {
    if paths != [] {
      var init, last := paths[..|paths| - 1], paths[|paths| - 1];
      ReadinessOverKeys(completed, init);
      assert paths == init + [last];
      assert ReadinessOver(completed, paths).Keys == ReadinessOver(completed, init).Keys + {PathName(last)};
      forall name | name in ReadinessOver(completed, paths)
        ensures exists p :: p in paths && PathName(p) == name
      {
        if name != PathName(last) {
          var p :| p in init && PathName(p) == name;
          assert p in paths;
        } else {
          assert last in paths;
        }
      }
      forall name | exists p :: p in paths && PathName(p) == name
        ensures name in ReadinessOver(completed, paths)
      {
        var p :| p in paths && PathName(p) == name;
        if p != last {
          assert p in init;
        }
      }
    }
  }

  lemma {:induction false} ReadinessOverValues(completed: seq<string>, paths: seq<PathId>)
    ensures forall p :: p in paths ==>
      PathName(p) in ReadinessOver(completed, paths) && ReadinessOver(completed, paths)[PathName(p)] == PathReadinessOf(completed, p)
  {
    if paths != [] {
      var init, last := paths[..|paths| - 1], paths[|paths| - 1];
      ReadinessOverValues(completed, init);
      assert paths == init + [last];
      var before := ReadinessOver(completed, init);
      assert ReadinessOver(completed, paths) == before[PathName(last) := PathReadinessOf(completed, last)];
      forall p | p in paths
        ensures PathName(p) in ReadinessOver(completed, paths)
             && ReadinessOver(completed, paths)[PathName(p)] == PathReadinessOf(completed, p)
      {
        if p != last {
          PathNamesDistinct(p, last);
          assert p in init;
          assert ReadinessOver(completed, paths)[PathName(p)] == before[PathName(p)];
        }
      }
    }
  }

  /** A path is ready for certification exactly when at least four fifths of its
      modules were completed, and nearly ready from three fifths. */
  lemma ReadinessBands(n: nat, size: nat)
    requires size > 0
    ensures ReadinessBand(Percent(n, size)) == ReadyForCertification <==> 5 * n >= 4 * size
    ensures ReadinessBand(Percent(n, size)) == NearlyReady <==> 5 * n < 4 * size && 5 * n >= 3 * size
  {
    PercentAtLeast(n, size, 80.0);
    PercentAtLeast(n, size, 60.0);
  }

  /** Every path needs four completed modules to be ready. */
  lemma FourModulesMakeReady(completed: seq<string>, p: PathId)
    ensures PathReadinessOf(completed, p).readinessStatus == ReadyForCertification <==> CompletedOnPath(completed, p) >= 4
  {
    var size := |PathModules(p)|;
    PathModulesSize(p);
    ReadinessBands(CompletedOnPath(completed, p), size);
  }

  /** The three kinds of professional development advice. */
  datatype Development = AdvancedDevelopment | PracticalDevelopment | FoundationalDevelopment

  /** The advice band for an overall completion rate: 75% and 50% are the bounds. */
  function DevelopmentBand(rate: real): Development {
    if rate >= 75.0 then AdvancedDevelopment
    else if rate >= 50.0 then PracticalDevelopment
    else FoundationalDevelopment
  }

  /** The two recommendations appended for each band. */
  function DevelopmentAdvice(d: Development): seq<string> {
    match d
    case AdvancedDevelopment =>
      ["Consider VerityAI advanced practitioner certification", "Explore specialized consulting opportunities"]
    case PracticalDevelopment =>
      ["Focus on practical implementation exercises", "Join AI governance professional community"]
    case FoundationalDevelopment =>
      ["Complete foundational modules", "Take organizational readiness assessment"]
  }

  datatype Overview = Overview(
    totalModulesAvailable: nat,
    modulesCompleted: nat,
    completionRate: real,
    currentLearningPath: Option<string>)

  /** The dictionary `generate_learning_report` returns; rates are kept as numbers. */
  datatype LearningReport = LearningReport(
    overview: Overview,
    competencyAnalysis: map<LearningLevel, LevelCompetency>,
    recommendedNextSteps: seq<string>,
    certificationReadiness: map<string, PathReadiness>,
    professionalDevelopment: seq<string>)

  /** What `generate_learning_report` returns; an empty catalogue divides by zero. */
  function LearningReportOf(modules: seq<LearningModule>, progress: UserProgress): Result<LearningReport> {
    if |modules| == 0 then Failure(ZeroDivisionError)
    else
      var completed := progress.completedModules;
      var rate := Percent(|completed|, |modules|);
      Success(LearningReport(
        Overview(|modules|, |completed|, rate, progress.currentPath),
        CompetencyOver(modules, completed, Levels),
        [],
        ReadinessOver(completed, PathIds),
        DevelopmentAdvice(DevelopmentBand(rate))))
  }

  /** `generate_learning_report` over the catalogue `modules`. */
  method GenerateLearningReport(modules: seq<LearningModule>, progress: UserProgress)
    returns (r: Result<LearningReport>)
    ensures r == LearningReportOf(modules, progress)
  {
    var completed := progress.completedModules;
    var total := |modules|;
    if total == 0 {
      return Failure(ZeroDivisionError);
    }
    var rate := Percent(|completed|, total);
    var competency := CompetencyAnalysis(modules, completed);
    var readiness := CertificationReadiness(completed);
    r := Success(LearningReport(
      Overview(total, |completed|, rate, progress.currentPath),
      competency, [], readiness, DevelopmentAdvice(DevelopmentBand(rate))));
  }

  /** The report fails only on an empty catalogue; otherwise it counts the catalogue
      and the completed entries. */
  lemma LearningReportOverview(modules: seq<LearningModule>, progress: UserProgress)
    ensures LearningReportOf(modules, progress).Failure? <==> modules == []
    ensures LearningReportOf(modules, progress).Success? ==>
      && LearningReportOf(modules, progress).value.overview.totalModulesAvailable == |modules|
      && LearningReportOf(modules, progress).value.overview.modulesCompleted == |progress.completedModules|
  {
  }

  /** The report covers every path by name and exactly the levels that have
      modules. */
  lemma LearningReportCoverage(modules: seq<LearningModule>, progress: UserProgress)
    requires modules != []
    ensures forall p :: PathName(p) in LearningReportOf(modules, progress).value.certificationReadiness
    ensures forall l :: l in LearningReportOf(modules, progress).value.competencyAnalysis <==> LevelSize(modules, l) > 0
  {
    var completed := progress.completedModules;
    ReadinessOverFacts(completed, PathIds);
    forall p ensures p in PathIds {
      AllPaths(p);
    }
    CompetencyOverFacts(modules, completed, Levels);
    forall l ensures l in Levels {
      AllLevels(l);
    }
  }

  lemma AllPaths(p: PathId)
    ensures p in PathIds
  {
    match p
    case ExecutiveGovernance => assert PathIds[0] == p;
    case PractitionerImplementation => assert PathIds[1] == p;
    case TechnicalSpecialist => assert PathIds[2] == p;
  }

  lemma AllLevels(l: LearningLevel)
    ensures l in Levels
  {
    match l
    case Executive => assert Levels[0] == l;
    case Practitioner => assert Levels[1] == l;
    case Technical => assert Levels[2] == l;
    case Specialist => assert Levels[3] == l;
  }

  /** The development advice follows the 75% and 50% bands of the overall
      completion rate. */
  lemma DevelopmentBands(n: nat, total: nat)
    requires total > 0
    ensures DevelopmentBand(Percent(n, total)) == AdvancedDevelopment <==> 4 * n >= 3 * total
    ensures DevelopmentBand(Percent(n, total)) == FoundationalDevelopment <==> 2 * n < total
  {
    PercentAtLeast(n, total, 75.0);
    PercentAtLeast(n, total, 50.0);
  }
}
