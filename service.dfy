/**
 * The orchestrator (`SpecSpriteService`): the keyword classifiers it runs on
 * every input, and the decisions of one request — when the intent is
 * classified (and the readiness score therefore recomputed), whether the PRD
 * is generated or the conversation continues, which expert card speaks, and
 * when a session becomes completed.
 *
 * The LLM is reached through `LlmClient`'s abstract host outcomes; expert
 * card files arrive as text (or `None`) through a function from type tag to
 * file contents.
 */
module Service {
  import opened Text
  import opened Types
  import Conversation
  import PrdBuilder
  import LlmClient
  import PromptLoader

  // ---------------------------------------------------------------------------
  // Keyword classifiers
  // ---------------------------------------------------------------------------

  /** The feature tags, in the order the table lists them. */
  const FeatureTags: seq<string> := ["auth", "payment", "admin", "search", "upload", "realtime", "analytics", "email"]

  /** The keywords that reveal a feature tag; `通知` reveals both `realtime` and `email`. */
  function FeatureKeywords(tag: string): seq<string> {
    match tag
    case "auth" => ["登录", "注册", "用户", "认证", "权限"]
    case "payment" => ["支付", "付费", "购买", "订阅", "收费"]
    case "admin" => ["管理", "后台", "控制台", "管理员"]
    case "search" => ["搜索", "查找", "检索"]
    case "upload" => ["上传", "文件", "图片", "附件"]
    case "realtime" => ["实时", "聊天", "消息", "通知"]
    case "analytics" => ["统计", "分析", "数据", "报表"]
    case "email" => ["邮件", "邮箱", "通知"]
    case _ => []
  }

  predicate Fires(tag: string, text: string) {
    ContainsAny(text, FeatureKeywords(tag))
  }

  /** The tags of `tags` that fire on `text`, in their order. */
  function FiringTags(tags: seq<string>, text: string): (r: seq<string>)
    ensures forall t :: t in r <==> t in tags && Fires(t, text)
    ensures NoDup(tags) ==> NoDup(r) && IsSubsequence(r, tags)
  {
    if tags == [] then []
    else
      var rest := FiringTags(tags[1..], text);
      assert NoDup(tags) ==> NoDup(tags[1..]) && tags[0] !in tags[1..];
      if Fires(tags[0], text) then [tags[0]] + rest else rest
  }

  /**
   * `extractFeatures`: a tag is reported exactly when one of its keywords
   * occurs in the lower-cased input; each tag at most once, in table order.
   */
  function ExtractFeatures(userInput: string): (r: seq<string>)
    ensures forall t :: t in r <==> t in FeatureTags && Fires(t, Lower(userInput))
    ensures NoDup(r) && IsSubsequence(r, FeatureTags)
  {
    FeatureTagsDistinct();
    FiringTags(FeatureTags, Lower(userInput))
  }

  /** No tag is listed twice. */
  lemma FeatureTagsDistinct()
    ensures NoDup(FeatureTags)
  {
    forall i, j | 0 <= i < j < |FeatureTags| ensures FeatureTags[i] != FeatureTags[j] {
      assert FeatureTags[i][0] != FeatureTags[j][0] || FeatureTags[i][1] != FeatureTags[j][1];
    }
  }

  /** A notification request is both a real-time and an e-mail feature. */
  lemma NotificationMeansRealtimeAndEmail(userInput: string)
    requires Contains(Lower(userInput), "通知")
    ensures "realtime" in ExtractFeatures(userInput) && "email" in ExtractFeatures(userInput)
  {
    var text := Lower(userInput);
    assert FeatureKeywords("realtime")[3] == "通知";
    assert Fires("realtime", text);
    assert FeatureKeywords("email")[2] == "通知";
    assert Fires("email", text);
    assert FeatureTags[5] == "realtime" && FeatureTags[7] == "email";
  }

  const ComplexWords: seq<string> := ["复杂", "企业级", "大型", "高级", "多租户", "微服务"]
  const SimpleWords: seq<string> := ["简单", "基础", "入门", "快速"]

  /** `estimateComplexity`: complex words are checked first, then simple ones, else medium. */
  function EstimateComplexity(userInput: string): (r: Complexity)
    ensures r == Complex <==> ContainsAny(Lower(userInput), ComplexWords)
    ensures r == Simple <==> !ContainsAny(Lower(userInput), ComplexWords) && ContainsAny(Lower(userInput), SimpleWords)
  {
    var text := Lower(userInput);
    if ContainsAny(text, ComplexWords) then Complex
    else if ContainsAny(text, SimpleWords) then Simple
    else Medium
  }

  /** An input naming both a simple and a complex trait is complex: the complex words win. */
  lemma ComplexWinsOverSimple(userInput: string, simple: string, complex: string)
    requires simple in SimpleWords && complex in ComplexWords
    requires Contains(Lower(userInput), simple) && Contains(Lower(userInput), complex)
    ensures EstimateComplexity(userInput) == Complex
  {
  }

  /** `createDefaultExpert`: the built-in card used when no card is loaded for `generic`. */
  function DefaultExpert(expertType: string): (r: ExpertRoleCard)
    ensures r.id == PromptLoader.ExpertId(expertType) && r.projectTag == expertType
    ensures r.name == Upper(expertType) + " 项目专家"
    ensures r.flow.openingQuestions != [] && r.knowledge.recommendedTechStack != []
  {
    ExpertRoleCard(
      PromptLoader.ExpertId(expertType),
      Upper(expertType) + " 项目专家",
      expertType,
      "您好！我是专门负责 " + expertType + " 类型项目的专家。我会帮助您明确项目需求，推荐最适合的技术方案，并生成详细的产品需求文档。",
      ConversationFlow(
        ["请详细描述一下您的项目想法", "这个项目的主要目标用户是谁？", "您希望实现哪些核心功能？"],
        ["功能需求", "技术选型", "用户体验", "部署方案"],
        ["关于{}功能，您希望如何实现？", "在{}方面，您有什么特殊要求吗？"],
        ["项目类型明确", "核心功能清晰", "技术栈确定", "约束条件了解"]),
      KnowledgeBase(
        ["React", "Next.js", "TypeScript", "Tailwind CSS"],
        ["用户认证", "响应式设计", "数据管理"],
        ["SEO优化", "性能优化", "安全考虑"],
        ["过度设计", "技术选型不当", "忽略用户体验"]))
  }

  // ---------------------------------------------------------------------------
  // Intent analysis
  // ---------------------------------------------------------------------------

  /** The result used when the classification request fails. */
  const FailedIntent := IntentAnalysisResult(
    Generic, 30, [], Medium, ["无法分析用户意图"], ["请提供更详细的项目描述"], "意图分析失败，使用默认值")

  /** The classifier's answer extended by the local keyword classifiers; the tag is cast without a check. */
  function ExtendIntent(c: LlmClient.IntentClassification, userInput: string): IntentAnalysisResult
    requires c.projectTag != ""
  {
    IntentAnalysisResult(
      TypeFromTag(c.projectTag), c.confidence, ExtractFeatures(userInput), EstimateComplexity(userInput), [], [], c.reasoning)
  }

  /** A failed analysis changes nothing in the context it is merged into. */
  lemma FailedIntentChangesNothing(ctx: AccumulatedContext)
    ensures Conversation.ApplyIntent(ctx, FailedIntent) == ctx
  {
    assert Conversation.Merge(ctx.detectedFeatures, FailedIntent.detectedFeatures) == ctx.detectedFeatures;
  }

  // ---------------------------------------------------------------------------
  // Decisions
  // ---------------------------------------------------------------------------

  const MinConfidenceForPrd := 75

  /** The PRD branch is taken when the session is ready and the readiness confidence reaches 75. */
  predicate GoesToPrd(r: ReadinessAnalysis) {
    r.readyForPrd && r.confidence >= MinConfidenceForPrd
  }

  /** The extra confidence test never overrides readiness: the PRD branch is taken exactly when the session is ready. */
  lemma PrdBranchIffReady(v: SessionView)
    ensures GoesToPrd(Conversation.AnalyzeReadiness(v)) <==> Conversation.AnalyzeReadiness(v).readyForPrd
  {
    if Conversation.AnalyzeReadiness(v).readyForPrd {
      Conversation.ReadyMeansFourRequirements(v);
    }
  }

  /** The intent is classified when the session has no project type yet or holds at most one turn. */
  predicate NeedsClassification(v: SessionView) {
    v.context.projectType.None? || |v.history| <= 1
  }

  /** The expert types whose cards are loaded at start-up. */
  const ExpertTypes: seq<string> := ["saas", "ecommerce", "blog", "portfolio", "landing_page", "generic"]

  /** The card loaded for a type: the parsed file, or the fallback card when there is no file. */
  function LoadedCard(expertType: string, file: Option<string>): (r: ExpertRoleCard)
    ensures r.id == PromptLoader.ExpertId(expertType)
  {
    if file.None? then PromptLoader.FallbackExpert(expertType) else PromptLoader.ParsedCard(file.value, expertType)
  }

  /** The entries a pass over `keys` writes, each key to `f` of it; a repeated key is written again with the same value. */
  function WriteAll<V>(keys: seq<string>, f: string -> V): map<string, V> {
    if keys == [] then map[]
    else
      var k := keys[|keys| - 1];
      WriteAll(keys[..|keys| - 1], f)[k := f(k)]
  }

  /** A pass writes exactly the listed keys, each with its value. */
  lemma {:induction false} WriteAllHolds<V>(keys: seq<string>, f: string -> V)
    ensures forall k :: k in WriteAll(keys, f) <==> k in keys
    ensures forall k :: k in keys ==> WriteAll(keys, f)[k] == f(k)
  {
    if keys != [] {
      var init := keys[..|keys| - 1];
      WriteAllHolds(init, f);
      assert keys == init + [keys[|keys| - 1]];
    }
  }

  /** One more key written: the pass over a longer prefix is the shorter pass updated at that key. */
  lemma WriteAllSnoc<V>(keys: seq<string>, i: nat, f: string -> V, v: V)
    requires i < |keys| && v == f(keys[i])
    ensures WriteAll(keys[..i + 1], f) == WriteAll(keys[..i], f)[keys[i] := v]
  {
    assert keys[..i + 1][..i] == keys[..i];
  }

  /** Writing a pass over a map: the listed keys hold their values, every other entry is untouched. */
  lemma WriteAllOver<V>(m: map<string, V>, keys: seq<string>, f: string -> V)
    ensures forall k :: k in keys ==> k in m + WriteAll(keys, f) && (m + WriteAll(keys, f))[k] == f(k)
    ensures forall k :: k in m + WriteAll(keys, f) <==> k in m || k in keys
    ensures forall k :: k in m && k !in keys ==> (m + WriteAll(keys, f))[k] == m[k]
  {
    WriteAllHolds(keys, f);
  }

  /** The card of each expert type as loading computes it from the files. */
  function LoadFrom(files: string -> Option<string>): string -> ExpertRoleCard {
    t => LoadedCard(t, files(t))
  }

  /** The loading loop: each type's card, from its file or, when there is none, from the default tables, in order. */
  method LoadAll(types: seq<string>, files: string -> Option<string>) returns (loaded: map<string, ExpertRoleCard>)
    ensures loaded == WriteAll(types, LoadFrom(files))
  {
    loaded := map[];
    var i := 0;
    while i < |types|
      invariant 0 <= i <= |types|
      invariant loaded == WriteAll(types[..i], LoadFrom(files))
    {
      var card := LoadOne(types[i], files);
      WriteAllSnoc(types, i, LoadFrom(files), card);
      loaded := loaded[types[i] := card];
      i := i + 1;
    }
    assert types[..i] == types;
  }

  /** One iteration's card: `loadExpertCard` on the type's file. */
  method LoadOne(expertType: string, files: string -> Option<string>) returns (card: ExpertRoleCard)
    ensures card == LoadFrom(files)(expertType)
  {
    card := PromptLoader.LoadExpertCard(expertType, files(expertType));
  }

  /** `cards` holds, for each of the six expert types, the card loaded for it. */
  predicate HoldsLoadedCards(cards: map<string, ExpertRoleCard>, files: string -> Option<string>) {
    forall t :: t in ExpertTypes ==> t in cards && cards[t] == LoadedCard(t, files(t))
  }

  /** `selectExpertCard`'s choice: the card of the session's type if loaded, else the generic card, else the built-in one. */
  function ChooseCard(cards: map<string, ExpertRoleCard>, projectType: Option<ProjectType>): ExpertRoleCard {
    if projectType.Some? && TypeTag(projectType.value) in cards then cards[TypeTag(projectType.value)]
    else if "generic" in cards then cards["generic"]
    else DefaultExpert("generic")
  }

  /**
   * Once the six cards are loaded, the chosen card is the one for the
   * session's type when that is one of the six, and the generic card
   * otherwise (no type, or a tag outside the six); the built-in card is never
   * used.
   */
  lemma ChosenCardAfterLoading(cards: map<string, ExpertRoleCard>, files: string -> Option<string>, projectType: Option<ProjectType>)
    requires HoldsLoadedCards(cards, files) && forall k :: k in cards ==> k in ExpertTypes
    ensures var tag := if projectType.Some? && TypeTag(projectType.value) in ExpertTypes then TypeTag(projectType.value) else "generic";
      ChooseCard(cards, projectType) == cards[tag] == LoadedCard(tag, files(tag))
      && ChooseCard(cards, projectType).id == PromptLoader.ExpertId(tag)
  {
    assert "generic" in ExpertTypes;
  }

  /** The kind of reply a continued conversation gives. */
  datatype ReplyKind = ConversationReply | ClarificationReply

  /** `conversation` exactly when the model called its reply a completion. */
  function KindOf(replyType: string): (r: ReplyKind)
    ensures r == ConversationReply <==> replyType == "completion"
  {
    if replyType == "completion" then ConversationReply else ClarificationReply
  }

  /** The questions of a continued conversation: the readiness questions, or the rule-based ones when there are none. */
  function QuestionsFor(readiness: ReadinessAnalysis, ctx: AccumulatedContext): (r: seq<string>)
    ensures readiness.clarificationQuestions != [] ==> r == readiness.clarificationQuestions
    ensures readiness.clarificationQuestions == [] ==> r == Conversation.GenerateClarificationQuestions(ctx) && |r| <= 2
  {
    if readiness.clarificationQuestions != [] then readiness.clarificationQuestions
    else Conversation.GenerateClarificationQuestions(ctx)
  }

  /** `GeneratePRDOutput` */
  datatype ProcessOutput =
    | PrdOutput(sessionId: string, prd: Prd, expertUsed: string, confidence: int, reasoning: string)
    | ConversationOutput(
        kind: ReplyKind, sessionId: string, message: string, questions: seq<string>, suggestions: seq<string>,
        expertUsed: string, confidence: int, reasoning: string)

  /** A call's result, or the message and, for a `SpecSpriteError`, the code of the error it throws. */
  datatype Outcome<T> = Done(value: T) | Thrown(message: string, code: Option<string>)

  /** The message of a failed validation. */
  function ValidationFailure(v: ValidationResult): string {
    "PRD 验证失败: " + Join(v.errors, ", ")
  }

  /** The LLM side of one request: the two hosts the requests meet and the JSON read from their replies. */
  datatype Oracles = Oracles(
    classifyHost: LlmClient.Host,
    intentJson: string -> Option<LlmClient.IntentJson>,
    conversationHost: LlmClient.Host,
    conversationJson: string -> Option<LlmClient.ConversationJson>)

  /** The ids and the time of one request. */
  datatype RequestIds = RequestIds(freshSessionId: string, userTurnId: string, replyTurnId: string, now: int, generatedAt: string)

  // ---------------------------------------------------------------------------
  // One request, on session values
  // ---------------------------------------------------------------------------

  /** The intent `analyzeUserIntent` yields: the extended classification, or the fallback when the request throws. */
  function IntentOf(userInput: string, oracles: Oracles): IntentAnalysisResult {
    if LlmClient.RequestFails(oracles.classifyHost) then FailedIntent
    else
      var content := LlmClient.ReplyContent(oracles.classifyHost);
      ExtendIntent(LlmClient.ParseIntentResponse(content, oracles.intentJson(content)), userInput)
  }

  /**
   * Steps 2 to 4 of `processUserInput`: record the input, extract the
   * preferences, then merge the intent when the session, as it now stands,
   * has no type or at most one turn.
   */
  function Prepared(v: SessionView, userInput: string, oracles: Oracles, ids: RequestIds): SessionView {
    var e := Conversation.Extracted(Conversation.Recorded(v, userInput, ids.userTurnId, ids.now), userInput);
    if NeedsClassification(e) then Conversation.Classified(e, IntentOf(userInput, oracles)) else e
  }

  /** The expert reply the conversation host yields when the request does not throw. */
  function ExpertReplyOf(oracles: Oracles): LlmClient.ConversationReply
    requires !LlmClient.RequestFails(oracles.conversationHost)
  {
    var content := LlmClient.ReplyContent(oracles.conversationHost);
    LlmClient.ParseConversationResponse(content, oracles.conversationJson(content))
  }

  /** The assistant turn recording a generated PRD. */
  function PrdTurn(prd: Prd, ids: RequestIds): Turn {
    Turn(ids.replyTurnId, ids.now, Assistant, "PRD 生成完成: " + prd.metadata.name, PrdGenerated(prd.metadata.confidenceScore))
  }

  /** The assistant turn recording an expert's reply. */
  function ReplyTurn(card: ExpertRoleCard, reply: LlmClient.ConversationReply, ids: RequestIds): Turn {
    Turn(ids.replyTurnId, ids.now, Assistant, reply.response, ExpertReply(card.name, reply.confidence, reply.replyType))
  }

  /** `generatePRD` on a session value: completed with one more turn if the document validates, unchanged if not. */
  function PrdAnswered(v: SessionView, ids: RequestIds): SessionView {
    var prd := PrdBuilder.BuildPrd(v, ids.generatedAt);
    if PrdBuilder.ValidatePrd(prd).valid then
      v.(status := Completed, lastActivity := ids.now, history := v.history + [PrdTurn(prd, ids)])
    else v
  }

  /** `continueConversation` on a session value: the expert is selected and, unless the request throws, its reply recorded. */
  function ExpertAnswered(v: SessionView, cards: map<string, ExpertRoleCard>, oracles: Oracles, ids: RequestIds): SessionView {
    var card := ChooseCard(cards, v.context.projectType);
    if LlmClient.RequestFails(oracles.conversationHost) then v.(currentExpert := Some(card.id))
    else
      v.(currentExpert := Some(card.id), lastActivity := ids.now,
         history := v.history + [ReplyTurn(card, ExpertReplyOf(oracles), ids)])
  }

  /** Steps 5 and 6 of `processUserInput`: the PRD when the readiness analysis allows it, the expert's reply otherwise. */
  function Answered(v: SessionView, cards: map<string, ExpertRoleCard>, oracles: Oracles, ids: RequestIds): SessionView {
    if GoesToPrd(Conversation.AnalyzeReadiness(v)) then PrdAnswered(v, ids) else ExpertAnswered(v, cards, oracles, ids)
  }

  /**
   * When steps 5 and 6 throw: a PRD that fails validation on the PRD branch,
   * a failed model request on the conversation branch.
   */
  predicate AnswerThrows(v: SessionView, oracles: Oracles, ids: RequestIds) {
    if GoesToPrd(Conversation.AnalyzeReadiness(v)) then !PrdBuilder.ValidatePrd(PrdBuilder.BuildPrd(v, ids.generatedAt)).valid
    else LlmClient.RequestFails(oracles.conversationHost)
  }

  /** A session that gains at most one turn, with its context and score untouched, keeps the invariant. */
  lemma OneTurnMoreKeepsInvariant(v: SessionView, w: SessionView)
    requires Conversation.SessionInvariant(v) && |v.history| <= Conversation.MaxConversationTurns
    requires w.context == v.context && w.readinessScore == v.readinessScore && |w.history| <= |v.history| + 1
    ensures Conversation.SessionInvariant(w)
  {
  }

  /** Generating the PRD adds the PRD turn when the document validates and nothing otherwise; the context and score stay. */
  lemma PrdAnsweredAddsOneTurn(v: SessionView, ids: RequestIds)
    ensures PrdAnswered(v, ids).context == v.context && PrdAnswered(v, ids).readinessScore == v.readinessScore
    ensures PrdAnswered(v, ids).history == v.history
      || PrdAnswered(v, ids).history == v.history + [PrdTurn(PrdBuilder.BuildPrd(v, ids.generatedAt), ids)]
  {
  }

  /** Continuing adds the expert's turn when the request does not throw and nothing otherwise; the context and score stay. */
  lemma ExpertAnsweredAddsOneTurn(v: SessionView, cards: map<string, ExpertRoleCard>, oracles: Oracles, ids: RequestIds)
    ensures ExpertAnswered(v, cards, oracles, ids).context == v.context
    ensures ExpertAnswered(v, cards, oracles, ids).readinessScore == v.readinessScore
    ensures LlmClient.RequestFails(oracles.conversationHost) <==> ExpertAnswered(v, cards, oracles, ids).history == v.history
  {
  }

  /** Answering adds at most one turn and touches neither the context nor the score, so it keeps the invariant. */
  lemma AnsweredKeepsInvariant(v: SessionView, cards: map<string, ExpertRoleCard>, oracles: Oracles, ids: RequestIds)
    requires Conversation.SessionInvariant(v) && |v.history| <= Conversation.MaxConversationTurns
    ensures Conversation.SessionInvariant(Answered(v, cards, oracles, ids))
  {
    if GoesToPrd(Conversation.AnalyzeReadiness(v)) {
      PrdAnsweredAddsOneTurn(v, ids);
      OneTurnMoreKeepsInvariant(v, PrdAnswered(v, ids));
    } else {
      ExpertAnsweredAddsOneTurn(v, cards, oracles, ids);
      OneTurnMoreKeepsInvariant(v, ExpertAnswered(v, cards, oracles, ids));
    }
  }

  /** Preparing leaves between 1 and 50 turns, the last being the user's input. */
  lemma PreparedEndsWithInput(v: SessionView, userInput: string, oracles: Oracles, ids: RequestIds)
    ensures var p := Prepared(v, userInput, oracles, ids);
      && 1 <= |p.history| <= Conversation.MaxConversationTurns
      && p.history[|p.history| - 1] == Turn(ids.userTurnId, ids.now, User, userInput, NoMetadata)
  {
    var e := Conversation.Extracted(Conversation.Recorded(v, userInput, ids.userTurnId, ids.now), userInput);
    assert Prepared(v, userInput, oracles, ids).history == e.history;
  }

  /**
   * One request keeps the session invariant: the prepared session holds
   * between 1 and 50 turns, the last being the input, and answering adds at
   * most one more.
   */
  lemma RequestKeepsInvariant(
    v: SessionView, userInput: string, cards: map<string, ExpertRoleCard>, oracles: Oracles, ids: RequestIds)
    requires Conversation.SessionInvariant(v)
    ensures var p := Prepared(v, userInput, oracles, ids);
      && Conversation.SessionInvariant(p)
      && 1 <= |p.history| <= Conversation.MaxConversationTurns
      && p.history[|p.history| - 1] == Turn(ids.userTurnId, ids.now, User, userInput, NoMetadata)
    ensures Conversation.SessionInvariant(Answered(Prepared(v, userInput, oracles, ids), cards, oracles, ids))
  {
    var recorded := Conversation.Recorded(v, userInput, ids.userTurnId, ids.now);
    Conversation.RecordedKeepsInvariant(v, userInput, ids.userTurnId, ids.now);
    var e := Conversation.Extracted(recorded, userInput);
    Conversation.ExtractedKeepsInvariant(recorded, userInput);
    if NeedsClassification(e) {
      Conversation.ClassifiedKeepsInvariant(e, IntentOf(userInput, oracles));
    }
    AnsweredKeepsInvariant(Prepared(v, userInput, oracles, ids), cards, oracles, ids);
  }

  class SpecSpriteService {
    const manager: Conversation.ConversationManager
    var expertCards: map<string, ExpertRoleCard>

    constructor ()
      ensures fresh(manager) && manager.sessions == map[] && expertCards == map[]
    {
      manager := new Conversation.ConversationManager();
      expertCards := map[];
    }

    /** `loadExpertRoleCards`: loads the cards of the six expert types; other entries stay as they are. */
    method LoadExpertRoleCards(files: string -> Option<string>)
      modifies this
      ensures HoldsLoadedCards(expertCards, files)
      ensures forall k :: k in expertCards <==> k in old(expertCards) || k in ExpertTypes
      ensures forall k :: k in old(expertCards) && k !in ExpertTypes ==> expertCards[k] == old(expertCards)[k]
    {
      LoadCards(ExpertTypes, files);
      WriteAllOver(old(expertCards), ExpertTypes, LoadFrom(files));
    }

    /** Stores the cards one pass of loading computes over `types`, leaving every other entry as it was. */
    method LoadCards(types: seq<string>, files: string -> Option<string>)
      modifies this
      ensures expertCards == old(expertCards) + WriteAll(types, LoadFrom(files))
    {
      var loaded := LoadAll(types, files);
      expertCards := expertCards + loaded;
    }

    /** `selectExpertCard`: picks the card and records its id as the session's current expert. */
    method SelectExpertCard(s: Session) returns (card: ExpertRoleCard)
      modifies s
      ensures card == ChooseCard(expertCards, old(s.context.projectType))
      ensures s.View() == old(s.View()).(currentExpert := Some(card.id))
    {
      card := ChooseCard(expertCards, s.context.projectType);
      s.currentExpert := Some(card.id);
    }

    /** `analyzeUserIntent`: the classifier's answer extended locally, or the fixed fallback when the request fails. */
    method AnalyzeUserIntent(userInput: string, oracles: Oracles) returns (intent: IntentAnalysisResult)
      ensures intent == FailedIntent <== oracles.classifyHost.openAi.OpenAiFailed?
        && LlmClient.FirstSuccess(oracles.classifyHost).None?
      ensures LlmClient.FirstSuccess(oracles.classifyHost).None? && !oracles.classifyHost.openAi.OpenAiSucceeded? ==>
        intent == FailedIntent
      ensures LlmClient.FirstSuccess(oracles.classifyHost).Some? || oracles.classifyHost.openAi.OpenAiSucceeded? ==>
        var content := LlmClient.ReplyContent(oracles.classifyHost);
        intent == ExtendIntent(LlmClient.ParseIntentResponse(content, oracles.intentJson(content)), userInput)
      ensures intent == IntentOf(userInput, oracles)
    {
      var result := LlmClient.ClassifyIntent(oracles.classifyHost, oracles.intentJson);
      match result
      case Err(_) => intent := FailedIntent;
      case Ok(c) => intent := ExtendIntent(c, userInput);
    }

    /**
     * Step 4 of `processUserInput`: classify and merge the intent only when
     * the session has no type yet or holds at most one turn; otherwise the
     * session, and so its cached readiness score, is left as it is.
     */
    method ClassifyIfNeeded(s: Session, userInput: string, oracles: Oracles) returns (intent: Option<IntentAnalysisResult>)
      modifies s
      ensures intent.Some? <==> NeedsClassification(old(s.View()))
      ensures intent.None? ==> s.View() == old(s.View())
      ensures intent.Some? ==>
        && s.context == Conversation.ApplyIntent(old(s.context), intent.value)
        && s.readinessScore == Conversation.CalculateReadinessScore(s.context, |s.history|)
        && s.View() == old(s.View()).(context := s.context, readinessScore := s.readinessScore)
      ensures intent.Some? ==> intent.value == IntentOf(userInput, oracles)
      ensures s.View() == if NeedsClassification(old(s.View())) then Conversation.Classified(old(s.View()), IntentOf(userInput, oracles))
                          else old(s.View())
    {
      if s.context.projectType.None? || |s.history| <= 1 {
        var result := AnalyzeUserIntent(userInput, oracles);
        manager.UpdateAccumulatedContext(s, result);
        intent := Some(result);
      } else {
        intent := None;
      }
    }

    /**
     * `generatePRD`: builds and validates the document; a valid one marks the
     * session completed and records an assistant turn, an invalid one throws
     * and leaves the session as it was.
     */
    method GeneratePrd(s: Session, ids: RequestIds) returns (r: Outcome<ProcessOutput>)
      modifies s
      ensures var prd := PrdBuilder.BuildPrd(old(s.View()), ids.generatedAt);
        r.Thrown? <==> !PrdBuilder.ValidatePrd(prd).valid
      ensures r.Thrown? ==> s.View() == old(s.View())
      ensures r.Thrown? ==> r.message == ValidationFailure(PrdBuilder.ValidatePrd(PrdBuilder.BuildPrd(old(s.View()), ids.generatedAt)))
      ensures r.Thrown? ==> r.code.None?
      ensures r.Done? ==>
        var prd := PrdBuilder.BuildPrd(old(s.View()), ids.generatedAt);
        && r.value.PrdOutput? && r.value.prd == prd && r.value.sessionId == s.id
        && s.View() == old(s.View()).(
             status := Completed, lastActivity := ids.now,
             history := old(s.history) + [Turn(ids.replyTurnId, ids.now, Assistant, "PRD 生成完成: " + prd.metadata.name,
                                               PrdGenerated(prd.metadata.confidenceScore))])
    {
      var prd := PrdBuilder.BuildPrd(s.View(), ids.generatedAt);
      var validation := PrdBuilder.ValidatePrd(prd);
      if !validation.valid {
        return Thrown(ValidationFailure(validation), None);
      }
      r := CompletePrd(s, prd, ids);
    }

    /** The valid-PRD tail of `generatePRD`: mark the session completed, record the turn, report the document. */
    method CompletePrd(s: Session, prd: Prd, ids: RequestIds) returns (r: Outcome<ProcessOutput>)
      modifies s
      ensures r.Done? && r.value.PrdOutput? && r.value.prd == prd && r.value.sessionId == s.id
      ensures s.View() == old(s.View()).(
        status := Completed, lastActivity := ids.now,
        history := old(s.history) + [Turn(ids.replyTurnId, ids.now, Assistant, "PRD 生成完成: " + prd.metadata.name,
                                          PrdGenerated(prd.metadata.confidenceScore))])
    {
      s.status := Completed;
      var _ := manager.RecordAssistantResponse(
        s, "PRD 生成完成: " + prd.metadata.name, PrdGenerated(prd.metadata.confidenceScore), ids.replyTurnId, ids.now);
      var expertUsed := if s.currentExpert.Some? && s.currentExpert.value != "" then s.currentExpert.value else "generic";
      r := Done(PrdOutput(
        s.id, prd, expertUsed, prd.metadata.confidenceScore, "基于 " + IntToString(|s.history|) + " 轮对话生成"));
    }

    /**
     * `continueConversation`: selects the expert, asks the model for a reply
     * and records it; the questions are the readiness questions, or the
     * rule-based ones when there are none. A failed request throws after the
     * expert has been selected and before any turn is recorded.
     */
    method ContinueConversation(
      s: Session, readiness: ReadinessAnalysis, intent: Option<IntentAnalysisResult>, oracles: Oracles, ids: RequestIds)
      returns (r: Outcome<ProcessOutput>)
      modifies s
      ensures var card := ChooseCard(expertCards, old(s.context.projectType));
        s.currentExpert == Some(card.id)
      ensures r.Thrown? <==>
        LlmClient.FirstSuccess(oracles.conversationHost).None? && !oracles.conversationHost.openAi.OpenAiSucceeded?
      ensures r.Thrown? ==> r.message == LlmClient.RequestFailedMessage && r.code == Some(LlmClient.RequestFailedCode)
      ensures r.Thrown? ==> s.history == old(s.history)
      ensures var card := ChooseCard(expertCards, old(s.context.projectType));
        r.Thrown? ==> s.View() == old(s.View()).(currentExpert := Some(card.id))
      ensures var card := ChooseCard(expertCards, old(s.context.projectType));
        r.Done? ==> s.View() == old(s.View()).(
          currentExpert := Some(card.id), lastActivity := ids.now,
          history := old(s.history) + [ReplyTurn(card, ExpertReplyOf(oracles), ids)])
      ensures r.Done? ==>
        var card := ChooseCard(expertCards, old(s.context.projectType));
        var content := LlmClient.ReplyContent(oracles.conversationHost);
        var reply := LlmClient.ParseConversationResponse(content, oracles.conversationJson(content));
        && r.value.ConversationOutput?
        && r.value.kind == KindOf(reply.replyType)
        && r.value.message == reply.response
        && r.value.questions == QuestionsFor(readiness, old(s.context))
        && r.value.suggestions == (if intent.Some? then intent.value.suggestions else [])
        && r.value.expertUsed == card.name
        && s.history == old(s.history)
             + [Turn(ids.replyTurnId, ids.now, Assistant, reply.response,
                     ExpertReply(card.name, reply.confidence, reply.replyType))]
      ensures s.context == old(s.context) && s.status == old(s.status)
    {
      var card := SelectExpertCard(s);
      r := ReplyAsExpert(s, card, readiness, intent, oracles, ids);
    }

    /** The tail of `continueConversation` once the expert is chosen: ask the model, record and report its reply. */
    method ReplyAsExpert(
      s: Session, card: ExpertRoleCard, readiness: ReadinessAnalysis, intent: Option<IntentAnalysisResult>,
      oracles: Oracles, ids: RequestIds)
      returns (r: Outcome<ProcessOutput>)
      modifies s
      ensures r.Thrown? <==>
        LlmClient.FirstSuccess(oracles.conversationHost).None? && !oracles.conversationHost.openAi.OpenAiSucceeded?
      ensures r.Thrown? ==> r.message == LlmClient.RequestFailedMessage && r.code == Some(LlmClient.RequestFailedCode)
      ensures r.Thrown? ==> s.View() == old(s.View())
      ensures r.Done? ==>
        var content := LlmClient.ReplyContent(oracles.conversationHost);
        var reply := LlmClient.ParseConversationResponse(content, oracles.conversationJson(content));
        && r.value.ConversationOutput?
        && r.value.kind == KindOf(reply.replyType)
        && r.value.message == reply.response
        && r.value.questions == QuestionsFor(readiness, old(s.context))
        && r.value.suggestions == (if intent.Some? then intent.value.suggestions else [])
        && r.value.expertUsed == card.name
        && s.View() == old(s.View()).(
             lastActivity := ids.now,
             history := old(s.history)
               + [Turn(ids.replyTurnId, ids.now, Assistant, reply.response,
                       ExpertReply(card.name, reply.confidence, reply.replyType))])
    {
      var response := LlmClient.GenerateConversationResponse(oracles.conversationHost, oracles.conversationJson);
      if response.Err? {
        return Thrown(LlmClient.RequestFailedMessage, Some(response.code));
      }
      var reply := response.value;
      var _ := manager.RecordAssistantResponse(
        s, reply.response, ExpertReply(card.name, reply.confidence, reply.replyType), ids.replyTurnId, ids.now);
      var questions := QuestionsFor(readiness, s.context);
      r := Done(ConversationOutput(
        KindOf(reply.replyType), s.id, reply.response, questions,
        if intent.Some? then intent.value.suggestions else [],
        card.name, reply.confidence,
        "完整度: " + IntToString(readiness.currentCompleteness) + "%, 类型: " + reply.replyType));
    }

    /**
     * `processUserInput`: find or create the session, record the input,
     * extract preferences, classify when needed, then generate the PRD when
     * the readiness analysis says so and continue the conversation otherwise.
     */
    method ProcessUserInput(sessionId: Option<string>, userInput: string, oracles: Oracles, ids: RequestIds)
      returns (r: Outcome<ProcessOutput>, session: Session, ghost decided: SessionView)
      modifies manager, manager.Target(sessionId)
      ensures manager.sessions == old(manager.sessions) || manager.sessions == old(manager.sessions)[ids.freshSessionId := session]
      ensures r.Done? ==> (r.value.PrdOutput? <==> Conversation.AnalyzeReadiness(decided).readyForPrd)
      ensures r.Done? && r.value.PrdOutput? ==> session.status == Completed && PrdBuilder.ValidatePrd(r.value.prd).valid
      ensures r.Done? && r.value.PrdOutput? ==> r.value.prd == PrdBuilder.BuildPrd(decided, ids.generatedAt)
      ensures decided == Prepared(old(manager.Start(sessionId, ids.now, ids.freshSessionId)), userInput, oracles, ids)
      ensures r.Thrown? <==> AnswerThrows(decided, oracles, ids)
      ensures session.View() == Answered(decided, expertCards, oracles, ids)
    {
      var intent;
      session, intent, decided := Prepare(sessionId, userInput, oracles, ids);
      ghost var sessions := manager.sessions;
      assert manager as object != session;
      r := Respond(session, decided, intent, oracles, ids);
      assert manager.sessions == sessions;
    }

    /** Steps 1 to 4 of `processUserInput`: find or create the session, record the input, extract preferences, classify when needed. */
    method Prepare(sessionId: Option<string>, userInput: string, oracles: Oracles, ids: RequestIds)
      returns (session: Session, intent: Option<IntentAnalysisResult>, ghost prepared: SessionView)
      modifies manager, manager.Target(sessionId)
      ensures fresh(session) || session in old(manager.Target(sessionId))
      ensures manager.sessions == old(manager.sessions) || manager.sessions == old(manager.sessions)[ids.freshSessionId := session]
      ensures old(manager.Resumes(sessionId, ids.now)) ==>
        session == old(manager.sessions)[sessionId.value] && manager.sessions == old(manager.sessions)
      ensures !old(manager.Resumes(sessionId, ids.now)) ==>
        fresh(session) && manager.sessions == old(manager.sessions)[ids.freshSessionId := session]
      ensures session.View() == Prepared(old(manager.Start(sessionId, ids.now, ids.freshSessionId)), userInput, oracles, ids)
      ensures intent.Some? ==> intent.value == IntentOf(userInput, oracles)
      ensures prepared == session.View()
    {
      session := manager.GetOrCreateSession(sessionId, ids.now, ids.freshSessionId);
      ghost var sessions := manager.sessions;
      assert manager as object != session;
      intent := RecordAndClassify(session, userInput, oracles, ids);
      assert manager.sessions == sessions;
      prepared := session.View();
    }

    /** Steps 2 to 4 of `processUserInput` on the session found: record the input, extract preferences, classify when needed. */
    method RecordAndClassify(s: Session, userInput: string, oracles: Oracles, ids: RequestIds)
      returns (intent: Option<IntentAnalysisResult>)
      modifies s
      ensures 1 <= |s.history| <= Conversation.MaxConversationTurns
      ensures s.history == LastN(old(s.history) + [Turn(ids.userTurnId, ids.now, User, userInput, NoMetadata)],
                                 Conversation.MaxConversationTurns)
      ensures s.history[|s.history| - 1] == Turn(ids.userTurnId, ids.now, User, userInput, NoMetadata)
      ensures s.View() == Prepared(old(s.View()), userInput, oracles, ids)
      ensures intent.Some? ==> intent.value == IntentOf(userInput, oracles)
    {
      var turn := manager.RecordUserInput(s, userInput, ids.userTurnId, ids.now);
      ghost var recorded := s.history;
      manager.ExtractUserPreferences(s, userInput);
      assert s.history == recorded;
      intent := ClassifyIfNeeded(s, userInput, oracles);
      assert s.history == recorded;
    }

    /** Steps 5 and 6 of `processUserInput`: analyse readiness, then generate the PRD or continue the conversation. */
    method Respond(s: Session, ghost v: SessionView, intent: Option<IntentAnalysisResult>, oracles: Oracles, ids: RequestIds)
      returns (r: Outcome<ProcessOutput>)
      requires v == s.View()
      modifies s
      ensures r.Done? ==> (r.value.PrdOutput? <==> Conversation.AnalyzeReadiness(v).readyForPrd)
      ensures r.Done? && r.value.PrdOutput? ==> s.status == Completed && PrdBuilder.ValidatePrd(r.value.prd).valid
      ensures r.Done? && r.value.PrdOutput? ==> r.value.prd == PrdBuilder.BuildPrd(v, ids.generatedAt)
      ensures r.Thrown? <==> AnswerThrows(v, oracles, ids)
      ensures s.View() == Answered(v, expertCards, oracles, ids)
    {
      var readiness := Conversation.AnalyzeReadiness(s.View());
      PrdBranchIffReady(s.View());
      if GoesToPrd(readiness) {
        r := GeneratePrd(s, ids);
      } else {
        r := ContinueConversation(s, readiness, intent, oracles, ids);
      }
    }
  }
}
