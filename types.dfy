/**
 * The data shapes of the requirements-gathering engine: project types,
 * conversation turns, the accumulated context, sessions, intent and
 * readiness results, expert role cards and the PRD document.
 *
 * A session is an object that the session store hands out by reference and
 * that every later step updates in place, so it is a class; everything else
 * is a value.
 */
module Types {
  import opened Text

  datatype Option<+T> = None | Some(value: T)

  /**
   * The tags a project type can carry. The six named ones are the declared
   * union; `Unlisted` carries any other tag, because the classifier's answer
   * is cast to the type without being checked, so a session can hold a tag
   * that is not one of the six.
   */
  datatype ProjectKind = Blog | Ecommerce | Saas | Portfolio | LandingPage | Generic | Unlisted(tag: string)

  const KnownTypeTags: seq<string> := ["blog", "ecommerce", "saas", "portfolio", "landing_page", "generic"]

  /** An unlisted tag is never empty and never one of the six, so comparing kinds is comparing tags. */
  predicate WellFormedType(t: ProjectKind) {
    t.Unlisted? ==> t.tag != "" && t.tag !in KnownTypeTags
  }

  /** `ProjectType`: one value per non-empty tag string. */
  type ProjectType = t: ProjectKind | WellFormedType(t) witness Generic

  /** The string the source holds for a project type. */
  function TypeTag(t: ProjectType): (s: string)
    ensures s != ""
  {
    match t
    case Blog => "blog"
    case Ecommerce => "ecommerce"
    case Saas => "saas"
    case Portfolio => "portfolio"
    case LandingPage => "landing_page"
    case Generic => "generic"
    case Unlisted(tag) => tag
  }

  /** Reading a non-empty tag string as a project type (the unchecked `as ProjectType` cast). */
  function TypeFromTag(s: string): (t: ProjectType)
    requires s != ""
    ensures t.Unlisted? <==> s !in KnownTypeTags
  {
    if s == "blog" then Blog
    else if s == "ecommerce" then Ecommerce
    else if s == "saas" then Saas
    else if s == "portfolio" then Portfolio
    else if s == "landing_page" then LandingPage
    else if s == "generic" then Generic
    else Unlisted(s)
  }

  /** Tags and project types are in one-to-one correspondence, in both directions. */
  lemma TypeTagRoundTrip(t: ProjectType, s: string)
    requires s != ""
    ensures TypeFromTag(TypeTag(t)) == t
    ensures TypeTag(TypeFromTag(s)) == s
  {
  }

  datatype Role = User | Assistant | System

  /** What a turn records beside its text. */
  datatype TurnMetadata =
    | NoMetadata
    | ExpertReply(expertUsed: string, confidence: int, replyType: string)
    | PrdGenerated(confidence: int)

  /** `ConversationTurn`; the timestamp is in milliseconds. */
  datatype Turn = Turn(id: string, timestamp: int, role: Role, content: string, metadata: TurnMetadata)

  datatype Budget = BudgetLow | BudgetMedium | BudgetHigh
  datatype Timeline = Urgent | Normal | Flexible
  datatype ComplexityPreference = PreferSimple | PreferStandard | PreferAdvanced

  /** The constraint record; a field that is `None` is a key the object does not have. */
  datatype Constraints = Constraints(
    budget: Option<Budget>,
    timeline: Option<Timeline>,
    teamSize: Option<int>,
    complexityPreference: Option<ComplexityPreference>)

  const NoConstraints := Constraints(None, None, None, None)

  /** `Object.keys(constraints).length` */
  function ConstraintKeyCount(c: Constraints): (n: nat)
    ensures n <= 4
  {
    (if c.budget.Some? then 1 else 0) + (if c.timeline.Some? then 1 else 0)
    + (if c.teamSize.Some? then 1 else 0) + (if c.complexityPreference.Some? then 1 else 0)
  }

  /** `AccumulatedContext`; `userPreferences` is the free-form preference record. */
  datatype AccumulatedContext = AccumulatedContext(
    projectType: Option<ProjectType>,
    detectedFeatures: seq<string>,
    userPreferences: map<string, string>,
    clarificationsResolved: seq<string>,
    techPreferences: seq<string>,
    constraints: Constraints)

  const EmptyContext := AccumulatedContext(None, [], map[], [], [], NoConstraints)

  /** A preference is truthy when the key is present with a non-empty value. */
  predicate HasPreference(prefs: map<string, string>, key: string) {
    key in prefs && prefs[key] != ""
  }

  /** `!!context.project_type && context.project_type !== 'generic'` */
  predicate TypeKnown(ctx: AccumulatedContext) {
    ctx.projectType.Some? && ctx.projectType.value != Generic
  }

  /** `context.project_type || 'generic'` */
  function TypeOrGeneric(ctx: AccumulatedContext): ProjectType {
    if ctx.projectType.Some? then ctx.projectType.value else Generic
  }

  datatype Status = Active | Completed | Abandoned

  function StatusLabel(s: Status): (r: string)
    ensures |r| > 0 && !IsSpace(r[|r| - 1])
  {
    match s
    case Active => "active"
    case Completed => "completed"
    case Abandoned => "abandoned"
  }

  /** A snapshot of every field of a session, used by the functions that only read one. */
  datatype SessionView = SessionView(
    id: string,
    startedAt: int,
    lastActivity: int,
    history: seq<Turn>,
    context: AccumulatedContext,
    currentExpert: Option<string>,
    status: Status,
    readinessScore: int)

  /** `SpecSpriteSession`: the object the store keeps and every step updates in place. */
  class Session {
    const id: string
    const startedAt: int
    var lastActivity: int
    var history: seq<Turn>
    var context: AccumulatedContext
    var currentExpert: Option<string>
    var status: Status
    var readinessScore: int

    /** A brand-new session: no turns, empty context, active, score 0. */
    constructor (id: string, now: int)
      ensures View() == SessionView(id, now, now, [], EmptyContext, None, Active, 0)
    {
      this.id := id;
      this.startedAt := now;
      this.lastActivity := now;
      this.history := [];
      this.context := EmptyContext;
      this.currentExpert := None;
      this.status := Active;
      this.readinessScore := 0;
    }

    function View(): SessionView
      reads this
    {
      SessionView(id, startedAt, lastActivity, history, context, currentExpert, status, readinessScore)
    }
  }

  datatype Complexity = Simple | Medium | Complex

  /** `IntentAnalysisResult` */
  datatype IntentAnalysisResult = IntentAnalysisResult(
    projectType: ProjectType,
    confidence: int,
    detectedFeatures: seq<string>,
    complexityEstimate: Complexity,
    clarificationsNeeded: seq<string>,
    suggestions: seq<string>,
    reasoning: string)

  /** `ReadinessAnalysis` */
  datatype ReadinessAnalysis = ReadinessAnalysis(
    readyForPrd: bool,
    confidence: int,
    missingInformation: seq<string>,
    clarificationQuestions: seq<string>,
    currentCompleteness: int)

  datatype ConversationFlow = ConversationFlow(
    openingQuestions: seq<string>,
    coreTopics: seq<string>,
    clarificationTemplates: seq<string>,
    completionCriteria: seq<string>)

  datatype KnowledgeBase = KnowledgeBase(
    recommendedTechStack: seq<string>,
    commonFeatures: seq<string>,
    bestPractices: seq<string>,
    pitfallsToAvoid: seq<string>)

  /** `ExpertRoleCard`; `projectTag` is the expert type string the card was made for. */
  datatype ExpertRoleCard = ExpertRoleCard(
    id: string,
    name: string,
    projectTag: string,
    description: string,
    flow: ConversationFlow,
    knowledge: KnowledgeBase)

  datatype PrdMetadata = PrdMetadata(
    name: string,
    version: string,
    generatedAt: string,
    confidenceScore: int,
    sessionId: string)

  datatype Scale = Small | MediumScale | Large

  datatype ProjectInfo = ProjectInfo(
    projectType: ProjectType,
    description: string,
    targetAudience: string,
    keyFeatures: seq<string>,
    businessModel: Option<string>,
    scaleExpectations: Scale)

  datatype TechStackConfig = TechStackConfig(
    framework: string,
    database: Option<string>,
    uiLibrary: string,
    deploymentPlatform: Option<string>,
    additionalTools: seq<string>)

  datatype FeatureFlags = FeatureFlags(
    auth: bool, payment: bool, admin: bool, search: bool,
    upload: bool, realtime: bool, analytics: bool, email: bool)

  datatype FeatureSpecification = FeatureSpecification(
    name: string,
    description: string,
    requirements: seq<string>,
    dependencies: seq<string>,
    implementationNotes: seq<string>)

  /** The environment block: variable placeholders and secret names. */
  datatype EnvironmentBlock = EnvironmentBlock(variables: map<string, string>, secrets: seq<string>)

  /** `PRDSchema`, with the environment block the builder also attaches. */
  datatype Prd = Prd(
    metadata: PrdMetadata,
    project: ProjectInfo,
    techStack: TechStackConfig,
    features: FeatureFlags,
    specifications: seq<FeatureSpecification>,
    constraints: Constraints,
    environment: EnvironmentBlock,
    nextSteps: seq<string>)

  /** `ValidationResult` */
  datatype ValidationResult = ValidationResult(valid: bool, errors: seq<string>, warnings: seq<string>)
}
