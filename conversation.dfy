/**
 * The session store and context accumulator (`ConversationManager`).
 *
 * The store is a map from session id to session object. It creates or resumes
 * sessions under a 30-minute idle timeout, appends turns (keeping the last 50
 * after a user turn), merges intent results and keyword-extracted preferences
 * into the accumulated context without duplicates, scores readiness, and
 * sweeps expired sessions. Time is an explicit `now` in milliseconds and new
 * ids are passed in by the caller.
 */
module Conversation {
  import opened Text
  import opened Types

  const SessionTimeoutMs: int := 30 * 60 * 1000
  const MaxConversationTurns: nat := 50

  /** A session whose last activity lies more than the timeout before `now`. */
  predicate Expired(lastActivity: int, now: int) {
    now - lastActivity > SessionTimeoutMs
  }

  // ---------------------------------------------------------------------------
  // Duplicate-free merging (`if (!list.includes(x)) list.push(x)` over a list)
  // ---------------------------------------------------------------------------

  /** Appending each element of `xs`, in order, unless the list already holds it. */
  function Merge(acc: seq<string>, xs: seq<string>): seq<string>
    decreases |xs|
  {
    if xs == [] then acc
    else
      var m := Merge(acc, xs[..|xs| - 1]);
      if xs[|xs| - 1] in m then m else m + [xs[|xs| - 1]]
  }

  lemma MergeSnoc(acc: seq<string>, xs: seq<string>, y: string)
    ensures Merge(acc, xs + [y]) == if y in Merge(acc, xs) then Merge(acc, xs) else Merge(acc, xs) + [y]
  {
    assert (xs + [y])[..|xs|] == xs;
  }

  /** Position of the first occurrence of `x` in `xs`. */
  function FirstIndex(xs: seq<string>, x: string): (k: nat)
    requires x in xs
    ensures k < |xs| && xs[k] == x && x !in xs[..k]
  {
    if xs[0] == x then 0 else 1 + FirstIndex(xs[1..], x)
  }

  lemma FirstIndexOfPrefix(xs: seq<string>, y: string, x: string)
    requires x in xs
    ensures x in xs + [y] && FirstIndex(xs + [y], x) == FirstIndex(xs, x)
  {
    var k := FirstIndex(xs, x);
    assert (xs + [y])[k] == x;
    assert (xs + [y])[..k] == xs[..k];
    FirstIndexUnique(xs + [y], x, k);
  }

  lemma {:induction false} FirstIndexUnique(xs: seq<string>, x: string, k: nat)
    requires k < |xs| && xs[k] == x && x !in xs[..k]
    ensures FirstIndex(xs, x) == k
  {
    if k > 0 {
      assert xs[..k][0] == xs[0];
      assert xs[1..][..k - 1] == xs[..k][1..];
      FirstIndexUnique(xs[1..], x, k - 1);
    }
  }

  /**
   * Merging keeps the old list as a prefix, holds exactly the old elements and
   * the new ones, never duplicates, and adds the new elements in the order of
   * their first occurrence in `xs`.
   */
  lemma {:induction false} MergeSpec(acc: seq<string>, xs: seq<string>)
    ensures |Merge(acc, xs)| >= |acc| && Merge(acc, xs)[..|acc|] == acc
    ensures forall x :: x in Merge(acc, xs) <==> x in acc || x in xs
    ensures NoDup(acc) ==> NoDup(Merge(acc, xs))
    ensures forall i :: |acc| <= i < |Merge(acc, xs)| ==> Merge(acc, xs)[i] !in acc && Merge(acc, xs)[i] in xs
    ensures forall i, j :: |acc| <= i < j < |Merge(acc, xs)| ==>
      FirstIndex(xs, Merge(acc, xs)[i]) < FirstIndex(xs, Merge(acc, xs)[j])
    decreases |xs|
  {
    if xs != [] {
      var init, y := xs[..|xs| - 1], xs[|xs| - 1];
      assert xs == init + [y];
      MergeSpec(acc, init);
      var m := Merge(acc, init);
      forall i | |acc| <= i < |m| ensures m[i] in xs && FirstIndex(xs, m[i]) == FirstIndex(init, m[i]) {
        FirstIndexOfPrefix(init, y, m[i]);
      }
      if y !in m {
        var r := m + [y];
        assert y !in init;
        assert FirstIndex(xs, y) == |init| by { FirstIndexUnique(xs, y, |init|); }
        forall i | |acc| <= i < |m| ensures FirstIndex(xs, r[i]) < FirstIndex(xs, y) {
          assert r[i] == m[i] && m[i] in init;
        }
        assert r[..|acc|] == m[..|acc|];
      }
    }
  }

  // ---------------------------------------------------------------------------
  // Readiness score
  // ---------------------------------------------------------------------------

  function Min(a: int, b: int): int { if a <= b then a else b }

  /**
   * `calculateReadinessScore`: 20 for a known, non-generic type; 6 per feature
   * up to 30; 3 per turn up to 20; 5 per tech preference up to 15; 3 per
   * constraint key up to 10; 2 per preference key up to 5; at most 100.
   */
  function CalculateReadinessScore(ctx: AccumulatedContext, turns: nat): (r: int)
    ensures 0 <= r <= 100
  {
    var score :=
      (if TypeKnown(ctx) then 20 else 0)
      + Min(30, |ctx.detectedFeatures| * 6)
      + Min(20, turns * 3)
      + Min(15, |ctx.techPreferences| * 5)
      + Min(10, ConstraintKeyCount(ctx.constraints) * 3)
      + Min(5, |ctx.userPreferences| * 2);
    Min(100, score)
  }

  /** Adding context (more features, turns, tech, constraint or preference keys; a type becoming known) never lowers the score. */
  lemma ScoreMonotone(a: AccumulatedContext, n: nat, b: AccumulatedContext, m: nat)
    requires TypeKnown(a) ==> TypeKnown(b)
    requires |a.detectedFeatures| <= |b.detectedFeatures| && n <= m
    requires |a.techPreferences| <= |b.techPreferences|
    requires ConstraintKeyCount(a.constraints) <= ConstraintKeyCount(b.constraints)
    requires |a.userPreferences| <= |b.userPreferences|
    ensures CalculateReadinessScore(a, n) <= CalculateReadinessScore(b, m)
  {
    assert Min(30, |a.detectedFeatures| * 6) <= Min(30, |b.detectedFeatures| * 6);
    assert Min(20, n * 3) <= Min(20, m * 3);
    assert Min(15, |a.techPreferences| * 5) <= Min(15, |b.techPreferences| * 5);
    assert Min(10, ConstraintKeyCount(a.constraints) * 3) <= Min(10, ConstraintKeyCount(b.constraints) * 3);
    assert Min(5, |a.userPreferences| * 2) <= Min(5, |b.userPreferences| * 2);
  }

  /** Each capped term is reached: with enough context the score is exactly 100, and the final cap at 100 never bites. */
  lemma ScoreFull(ctx: AccumulatedContext, turns: nat)
    requires TypeKnown(ctx) && |ctx.detectedFeatures| >= 5 && turns >= 7 && |ctx.techPreferences| >= 3
    requires ConstraintKeyCount(ctx.constraints) >= 4 && |ctx.userPreferences| >= 3
    ensures CalculateReadinessScore(ctx, turns) == 100
  {
  }

  /**
   * The only preference key the engine ever writes is `target_audience`, so
   * with at most one preference key the score tops out at 97.
   */
  lemma ScoreWithOnePreference(ctx: AccumulatedContext, turns: nat)
    requires |ctx.userPreferences| <= 1
    ensures CalculateReadinessScore(ctx, turns) <= 97
  {
  }

  // ---------------------------------------------------------------------------
  // Readiness analysis
  // ---------------------------------------------------------------------------

  /** The user turns of a history, in order. */
  function UserTurns(history: seq<Turn>): (r: seq<Turn>)
    ensures |r| <= |history|
    ensures forall t :: t in r <==> t in history && t.role == User
  {
    if history == [] then []
    else (if history[0].role == User then [history[0]] else []) + UserTurns(history[1..])
  }

  function TotalLength(turns: seq<Turn>): nat {
    if turns == [] then 0 else |turns[0].content| + TotalLength(turns[1..])
  }

  /**
   * `assessInputQuality`: there are user turns, their average length exceeds 20
   * (the sum exceeds 20 per turn) and some user turn is longer than 50.
   */
  function AssessInputQuality(history: seq<Turn>): (r: bool)
    ensures r <==> |UserTurns(history)| > 0
                   && TotalLength(UserTurns(history)) > 20 * |UserTurns(history)|
                   && exists t :: t in history && t.role == User && |t.content| > 50
  {
    var users := UserTurns(history);
    |users| > 0 && TotalLength(users) > 20 * |users| && exists t | t in users :: |t.content| > 50
  }

  /** A user turn longer than 50 characters by itself lifts the average: every history made of such turns has good input. */
  lemma {:induction false} LongUserTurnsAreQuality(history: seq<Turn>)
    requires forall t :: t in history ==> t.role == User && |t.content| > 50
    requires history != []
    ensures AssessInputQuality(history)
  {
    assert UserTurns(history) == history by { AllUserTurns(history); }
    TotalLengthLowerBound(history);
    assert history[0] in history;
  }

  lemma {:induction false} AllUserTurns(history: seq<Turn>)
    requires forall t :: t in history ==> t.role == User
    ensures UserTurns(history) == history
  {
    if history != [] {
      assert history[0] in history;
      AllUserTurns(history[1..]);
    }
  }

  lemma {:induction false} TotalLengthLowerBound(turns: seq<Turn>)
    requires forall t :: t in turns ==> |t.content| > 50
    ensures TotalLength(turns) >= 51 * |turns|
  {
    if turns != [] {
      assert turns[0] in turns;
      TotalLengthLowerBound(turns[1..]);
    }
  }

  /** The gaps the readiness analysis reports, in their fixed order. */
  datatype Gap = TypeGap | FeatureGap | TechGap | AudienceGap

  const GapOrder: seq<Gap> := [TypeGap, FeatureGap, TechGap, AudienceGap]

  function GapRank(g: Gap): nat {
    match g
    case TypeGap => 0
    case FeatureGap => 1
    case TechGap => 2
    case AudienceGap => 3
  }

  function GapLabel(g: Gap): string {
    match g
    case TypeGap => "明确的项目类型"
    case FeatureGap => "核心功能需求"
    case TechGap => "技术栈偏好"
    case AudienceGap => "目标用户群体"
  }

  function GapQuestion(g: Gap): string {
    match g
    case TypeGap => "您的项目主要是什么类型？（网站、电商、SaaS平台等）"
    case FeatureGap => "这个项目需要哪些核心功能？"
    case TechGap => "您对技术选型有什么偏好吗？（如React、Vue等）"
    case AudienceGap => "这个项目的主要用户是谁？"
  }

  /** Whether the analysis reports gap `g` for context `ctx`. */
  predicate GapOpen(ctx: AccumulatedContext, g: Gap) {
    match g
    case TypeGap => !TypeKnown(ctx)
    case FeatureGap => |ctx.detectedFeatures| < 3
    case TechGap => |ctx.techPreferences| < 2
    case AudienceGap => |ctx.detectedFeatures| > 0 && !HasPreference(ctx.userPreferences, "target_audience")
  }

  /** The open gaps, each once, in the order type, features, tech, audience. */
  function OpenGaps(ctx: AccumulatedContext): (r: seq<Gap>)
    ensures forall g :: g in r <==> GapOpen(ctx, g)
    ensures forall i, j :: 0 <= i < j < |r| ==> GapRank(r[i]) < GapRank(r[j])
  {
    (if GapOpen(ctx, TypeGap) then [TypeGap] else [])
    + (if GapOpen(ctx, FeatureGap) then [FeatureGap] else [])
    + (if GapOpen(ctx, TechGap) then [TechGap] else [])
    + (if GapOpen(ctx, AudienceGap) then [AudienceGap] else [])
  }

  /** The five readiness requirements, in the order the source lists them. */
  function Requirements(v: SessionView): seq<bool> {
    [ TypeKnown(v.context),
      |v.context.detectedFeatures| >= 3,
      |v.history| >= 4,
      |v.context.techPreferences| >= 2,
      AssessInputQuality(v.history) ]
  }

  function CountTrue(bs: seq<bool>): (n: nat)
    ensures n <= |bs|
  {
    if bs == [] then 0 else (if bs[0] then 1 else 0) + CountTrue(bs[1..])
  }

  /**
   * `analyzeReadiness`: completeness is 20 per satisfied requirement, the
   * confidence equals it, readiness needs both completeness at least 70 and the
   * cached score at least 75, and each open gap contributes one label and its
   * matching question, in the fixed gap order.
   */
  function AnalyzeReadiness(v: SessionView): (r: ReadinessAnalysis)
    ensures r.currentCompleteness == 20 * CountTrue(Requirements(v))
    ensures 0 <= r.currentCompleteness <= 100
    ensures r.confidence == r.currentCompleteness
    ensures r.readyForPrd <==> r.currentCompleteness >= 70 && v.readinessScore >= 75
    ensures |r.missingInformation| == |r.clarificationQuestions| == |OpenGaps(v.context)|
    ensures forall i :: 0 <= i < |r.missingInformation| ==>
      r.missingInformation[i] == GapLabel(OpenGaps(v.context)[i])
      && r.clarificationQuestions[i] == GapQuestion(OpenGaps(v.context)[i])
  {
    var met := CountTrue(Requirements(v));
    assert met <= 5;
    var completeness := 20 * met;
    var gaps := OpenGaps(v.context);
    ReadinessAnalysis(
      completeness >= 70 && v.readinessScore >= 75,
      completeness,
      seq(|gaps|, i requires 0 <= i < |gaps| => GapLabel(gaps[i])),
      seq(|gaps|, i requires 0 <= i < |gaps| => GapQuestion(gaps[i])),
      completeness)
  }

  /** The audience question is asked exactly when features exist and no audience is known. */
  lemma AudienceQuestionIff(v: SessionView)
    ensures GapQuestion(AudienceGap) in AnalyzeReadiness(v).clarificationQuestions
      <==> |v.context.detectedFeatures| > 0 && !HasPreference(v.context.userPreferences, "target_audience")
  {
    var r := AnalyzeReadiness(v);
    var gaps := OpenGaps(v.context);
    if GapQuestion(AudienceGap) in r.clarificationQuestions {
      var i :| 0 <= i < |r.clarificationQuestions| && r.clarificationQuestions[i] == GapQuestion(AudienceGap);
      assert gaps[i] in gaps;
      GapQuestionInjective(gaps[i], AudienceGap);
    }
    if GapOpen(v.context, AudienceGap) {
      var i :| 0 <= i < |gaps| && gaps[i] == AudienceGap;
      assert r.clarificationQuestions[i] == GapQuestion(AudienceGap);
    }
  }

  /** Distinct gaps ask distinct questions. */
  lemma GapQuestionInjective(g: Gap, h: Gap)
    ensures GapQuestion(g) == GapQuestion(h) ==> g == h
  {
  }

  lemma {:induction false} CountAllTrue(bs: seq<bool>)
    requires forall i :: 0 <= i < |bs| ==> bs[i]
    ensures CountTrue(bs) == |bs|
  {
    if bs != [] {
      CountAllTrue(bs[1..]);
    }
  }

  /** When all five requirements hold, completeness is 100 and readiness is decided by the cached score alone. */
  lemma FullyCompleteSession(v: SessionView)
    requires TypeKnown(v.context) && |v.context.detectedFeatures| >= 3 && |v.history| >= 4
    requires |v.context.techPreferences| >= 2 && AssessInputQuality(v.history)
    ensures AnalyzeReadiness(v).currentCompleteness == 100
    ensures AnalyzeReadiness(v).readyForPrd <==> v.readinessScore >= 75
  {
    CountAllTrue(Requirements(v));
  }

  /**
   * Readiness implies completeness of at least 80 (four of five
   * requirements), so the orchestrator's extra `confidence >= 75` test never
   * rejects a ready session.
   */
  lemma ReadyMeansFourRequirements(v: SessionView)
    requires AnalyzeReadiness(v).readyForPrd
    ensures AnalyzeReadiness(v).confidence >= 80
    ensures CountTrue(Requirements(v)) >= 4
  {
  }

  // ---------------------------------------------------------------------------
  // Clarification questions
  // ---------------------------------------------------------------------------

  const PaymentMethodsQuestion := "需要支持哪些支付方式？"
  const ProductKindQuestion := "主要销售什么类型的商品？"
  const CollaborationQuestion := "需要支持团队协作功能吗？"
  const BillingModelQuestion := "计划采用什么样的订阅模式？"
  const ContentManagementQuestion := "希望通过什么方式管理内容？"
  const TechChoiceQuestion := "您对技术选型有特殊要求吗？"
  const TimelineQuestion := "项目的时间要求如何？"

  /** The questions specific to the project type, in priority order. */
  function TypeSpecificQuestions(ctx: AccumulatedContext): (r: seq<string>)
    ensures |r| <= 2
  {
    if ctx.projectType == Some(Ecommerce) then
      (if "payment" !in ctx.detectedFeatures then [PaymentMethodsQuestion] else [])
      + (if !HasPreference(ctx.userPreferences, "product_type") then [ProductKindQuestion] else [])
    else if ctx.projectType == Some(Saas) then
      (if "auth" !in ctx.detectedFeatures then [CollaborationQuestion] else [])
      + (if !HasPreference(ctx.userPreferences, "billing_model") then [BillingModelQuestion] else [])
    else if ctx.projectType == Some(Blog) then
      (if "cms" !in ctx.detectedFeatures then [ContentManagementQuestion] else [])
    else []
  }

  /** The generic questions: no tech preference yet, no timeline constraint yet. */
  function GenericQuestions(ctx: AccumulatedContext): (r: seq<string>)
    ensures |r| <= 2
  {
    (if |ctx.techPreferences| == 0 then [TechChoiceQuestion] else [])
    + (if ctx.constraints.timeline.None? then [TimelineQuestion] else [])
  }

  /**
   * `generateClarificationQuestions`: at most two questions, the first two of
   * the type-specific questions followed by the generic ones.
   */
  function GenerateClarificationQuestions(ctx: AccumulatedContext): (r: seq<string>)
    ensures |r| <= 2
    ensures |r| == Min(2, |TypeSpecificQuestions(ctx)| + |GenericQuestions(ctx)|)
    ensures forall i :: 0 <= i < |r| && i < |TypeSpecificQuestions(ctx)| ==> r[i] == TypeSpecificQuestions(ctx)[i]
    ensures forall i :: |TypeSpecificQuestions(ctx)| <= i < |r| ==>
      r[i] == GenericQuestions(ctx)[i - |TypeSpecificQuestions(ctx)|]
  {
    var all := TypeSpecificQuestions(ctx) + GenericQuestions(ctx);
    if |all| <= 2 then all else all[..2]
  }

  /** A generic question is asked only when the type-specific ones leave room for it. */
  lemma GenericQuestionsOnlyAfterTypeSpecific(ctx: AccumulatedContext)
    ensures |TypeSpecificQuestions(ctx)| == 2 ==> GenerateClarificationQuestions(ctx) == TypeSpecificQuestions(ctx)
    ensures TypeSpecificQuestions(ctx) == [] ==> GenerateClarificationQuestions(ctx) == GenericQuestions(ctx)
  {
    var r := GenerateClarificationQuestions(ctx);
    var ts := TypeSpecificQuestions(ctx);
    if |ts| == 2 { assert |r| == 2; assert r == ts; }
    if ts == [] { assert r == GenericQuestions(ctx); }
  }

  /**
   * The blog question about content management looks for a `cms` feature,
   * which the feature extractor never produces; so for a blog whose features
   * all come from the extractor the question always comes first.
   */
  lemma BlogAlwaysAsksContentManagement(ctx: AccumulatedContext)
    requires ctx.projectType == Some(Blog)
    requires "cms" !in ctx.detectedFeatures
    ensures |GenerateClarificationQuestions(ctx)| >= 1
    ensures GenerateClarificationQuestions(ctx)[0] == ContentManagementQuestion
  {
    assert TypeSpecificQuestions(ctx) == [ContentManagementQuestion];
  }

  // ---------------------------------------------------------------------------
  // Context updates (specification functions for the imperative methods below)
  // ---------------------------------------------------------------------------

  /** The project type after an intent result: replaced only by a confident (> 70), non-generic classification. */
  function NextProjectType(current: Option<ProjectType>, intent: IntentAnalysisResult): (r: Option<ProjectType>)
    ensures r != current ==> intent.confidence > 70 && intent.projectType != Generic && r == Some(intent.projectType)
    ensures intent.confidence > 70 && intent.projectType != Generic ==> r == Some(intent.projectType)
  {
    if intent.confidence > 70 && intent.projectType != Generic then Some(intent.projectType) else current
  }

  /**
   * The context after merging an intent result: the type rule above, and the
   * detected features extended by the unseen ones; nothing else changes.
   */
  function ApplyIntent(ctx: AccumulatedContext, intent: IntentAnalysisResult): (r: AccumulatedContext)
    ensures |r.detectedFeatures| >= |ctx.detectedFeatures|
    ensures r.detectedFeatures[..|ctx.detectedFeatures|] == ctx.detectedFeatures
    ensures forall f :: f in r.detectedFeatures <==> f in ctx.detectedFeatures || f in intent.detectedFeatures
    ensures NoDup(ctx.detectedFeatures) ==> NoDup(r.detectedFeatures)
    ensures r.projectType == NextProjectType(ctx.projectType, intent)
    ensures r.techPreferences == ctx.techPreferences && r.userPreferences == ctx.userPreferences
    ensures r.constraints == ctx.constraints && r.clarificationsResolved == ctx.clarificationsResolved
  {
    MergeSpec(ctx.detectedFeatures, intent.detectedFeatures);
    ctx.(projectType := NextProjectType(ctx.projectType, intent),
         detectedFeatures := Merge(ctx.detectedFeatures, intent.detectedFeatures))
  }

  /** The technology keyword table: a lower-case keyword and the canonical label it stands for. */
  const TechKeywords: seq<(string, string)> := [
    ("react", "React"), ("vue", "Vue.js"), ("angular", "Angular"), ("next", "Next.js"),
    ("nuxt", "Nuxt.js"), ("gatsby", "Gatsby"), ("astro", "Astro"), ("svelte", "Svelte"),
    ("typescript", "TypeScript"), ("javascript", "JavaScript"), ("tailwind", "Tailwind CSS"),
    ("bootstrap", "Bootstrap"), ("material", "Material UI"), ("chakra", "Chakra UI"),
    ("postgresql", "PostgreSQL"), ("mysql", "MySQL"), ("mongodb", "MongoDB"), ("sqlite", "SQLite"),
    ("prisma", "Prisma"), ("supabase", "Supabase"), ("firebase", "Firebase")
  ]

  /** The target-audience keyword table, in declaration order. */
  const AudienceKeywords: seq<(string, string)> := [
    ("个人", "individual"), ("企业", "enterprise"), ("小公司", "small_business"), ("创业", "startup"),
    ("学生", "students"), ("开发者", "developers"), ("设计师", "designers")
  ]

  /** The labels of the table entries whose keyword occurs in `text`, in table order. */
  function MatchedLabels(table: seq<(string, string)>, text: string): (r: seq<string>)
    ensures forall l :: l in r <==> exists i :: 0 <= i < |table| && Contains(text, table[i].0) && table[i].1 == l
    decreases |table|
  {
    if table == [] then []
    else
      var init := table[..|table| - 1];
      var last := table[|table| - 1];
      var r := MatchedLabels(init, text) + (if Contains(text, last.0) then [last.1] else []);
      assert forall i :: 0 <= i < |init| ==> init[i] == table[i];
      r
  }

  /** The label of the last table entry whose keyword occurs in `text`, if any. */
  function LastMatch(table: seq<(string, string)>, text: string): (r: Option<string>)
    ensures r.None? <==> forall i :: 0 <= i < |table| ==> !Contains(text, table[i].0)
    ensures r.Some? ==> exists i :: (0 <= i < |table| && Contains(text, table[i].0) && table[i].1 == r.value
                                     && forall j :: i < j < |table| ==> !Contains(text, table[j].0))
    decreases |table|
  {
    if table == [] then None
    else
      var init := table[..|table| - 1];
      var last := table[|table| - 1];
      assert forall i :: 0 <= i < |init| ==> init[i] == table[i];
      if Contains(text, last.0) then
        Some(last.1)
      else
        var r := LastMatch(init, text);
        if r.Some? then
          var i :| 0 <= i < |init| && Contains(text, init[i].0) && init[i].1 == r.value
                   && forall j :: i < j < |init| ==> !Contains(text, init[j].0);
          assert forall j :: i < j < |table| ==> !Contains(text, table[j].0);
          r
        else
          r
  }

  /** The preference record after an audience match: `target_audience` set to the match, or untouched. */
  function WithAudience(prefs: map<string, string>, audience: Option<string>): map<string, string> {
    if audience.Some? then prefs["target_audience" := audience.value] else prefs
  }

  /** The constraint record after the constraint phrases of one input. */
  function ApplyConstraintPhrases(c: Constraints, text: string): (r: Constraints)
    ensures r.budget == (if Contains(text, "预算有限") || Contains(text, "成本") then Some(BudgetLow) else c.budget)
    ensures r.timeline == (if Contains(text, "急需") || Contains(text, "赶时间") then Some(Urgent) else c.timeline)
    ensures r.teamSize == (if Contains(text, "一个人") || Contains(text, "独立开发") then Some(1) else c.teamSize)
    ensures r.complexityPreference == (if Contains(text, "简单") || Contains(text, "入门") then Some(PreferSimple) else c.complexityPreference)
    ensures ConstraintKeyCount(r) >= ConstraintKeyCount(c)
  {
    Constraints(
      if Contains(text, "预算有限") || Contains(text, "成本") then Some(BudgetLow) else c.budget,
      if Contains(text, "急需") || Contains(text, "赶时间") then Some(Urgent) else c.timeline,
      if Contains(text, "一个人") || Contains(text, "独立开发") then Some(1) else c.teamSize,
      if Contains(text, "简单") || Contains(text, "入门") then Some(PreferSimple) else c.complexityPreference)
  }

  /**
   * `extractUserPreferences` as a value: tech labels whose keyword occurs in
   * the lower-cased input are appended in table order without duplicates,
   * constraint phrases set their field, and the last matching audience keyword
   * sets `target_audience`. Existing entries are never removed.
   */
  function ExtractPreferences(ctx: AccumulatedContext, input: string): (r: AccumulatedContext)
    ensures |r.techPreferences| >= |ctx.techPreferences| && r.techPreferences[..|ctx.techPreferences|] == ctx.techPreferences
    ensures NoDup(ctx.techPreferences) ==> NoDup(r.techPreferences)
    ensures forall l :: l in r.techPreferences <==> (l in ctx.techPreferences
      || exists i :: 0 <= i < |TechKeywords| && Contains(Lower(input), TechKeywords[i].0) && TechKeywords[i].1 == l)
    ensures r.constraints == ApplyConstraintPhrases(ctx.constraints, Lower(input))
    ensures r.userPreferences == WithAudience(ctx.userPreferences, LastMatch(AudienceKeywords, Lower(input)))
    ensures ctx.userPreferences.Keys <= r.userPreferences.Keys
    ensures r.projectType == ctx.projectType && r.detectedFeatures == ctx.detectedFeatures
    ensures r.clarificationsResolved == ctx.clarificationsResolved
  {
    var text := Lower(input);
    MergeSpec(ctx.techPreferences, MatchedLabels(TechKeywords, text));
    ctx.(techPreferences := Merge(ctx.techPreferences, MatchedLabels(TechKeywords, text)),
         constraints := ApplyConstraintPhrases(ctx.constraints, text),
         userPreferences := WithAudience(ctx.userPreferences, LastMatch(AudienceKeywords, text)))
  }

  /** Extracting preferences never lowers the readiness score computed from the context. */
  lemma ExtractionNeverLowersScore(ctx: AccumulatedContext, input: string, turns: nat)
    ensures CalculateReadinessScore(ctx, turns) <= CalculateReadinessScore(ExtractPreferences(ctx, input), turns)
  {
    var r := ExtractPreferences(ctx, input);
    assert |r.userPreferences.Keys| >= |ctx.userPreferences.Keys| by {
      assert ctx.userPreferences.Keys <= r.userPreferences.Keys;
      SubsetCard(ctx.userPreferences.Keys, r.userPreferences.Keys);
    }
    assert |ctx.userPreferences| == |ctx.userPreferences.Keys| && |r.userPreferences| == |r.userPreferences.Keys|;
    ScoreMonotone(ctx, turns, r, turns);
  }

  lemma SubsetCard(a: set<string>, b: set<string>)
    requires a <= b
    ensures |a| <= |b|
  {
    assert b == a + (b - a);
  }

  /** The invariant every session handed out by the engine keeps. */
  predicate SessionInvariant(v: SessionView) {
    && NoDup(v.context.detectedFeatures)
    && NoDup(v.context.techPreferences)
    && 0 <= v.readinessScore <= 100
    && |v.history| <= MaxConversationTurns + 1
  }

  /** The session `createNewSession` makes: empty, active, score 0. */
  function FreshView(id: string, now: int): SessionView {
    SessionView(id, now, now, [], EmptyContext, None, Active, 0)
  }

  /** The session after `recordUserInput`: the user turn appended, the last 50 turns kept, the activity time refreshed. */
  function Recorded(v: SessionView, userInput: string, turnId: string, now: int): SessionView {
    v.(lastActivity := now, history := LastN(v.history + [Turn(turnId, now, User, userInput, NoMetadata)], MaxConversationTurns))
  }

  /** The session after `extractUserPreferences`. */
  function Extracted(v: SessionView, userInput: string): SessionView {
    v.(context := ExtractPreferences(v.context, userInput))
  }

  /** The session after `updateAccumulatedContext`: the intent merged and the readiness score recomputed. */
  function Classified(v: SessionView, intent: IntentAnalysisResult): SessionView {
    var ctx := ApplyIntent(v.context, intent);
    v.(context := ctx, readinessScore := CalculateReadinessScore(ctx, |v.history|))
  }

  /** A new session satisfies the invariant. */
  lemma FreshViewKeepsInvariant(id: string, now: int)
    ensures SessionInvariant(FreshView(id, now))
  {
  }

  /** Recording a user turn keeps the invariant and leaves at most 50 turns. */
  lemma RecordedKeepsInvariant(v: SessionView, userInput: string, turnId: string, now: int)
    requires SessionInvariant(v)
    ensures SessionInvariant(Recorded(v, userInput, turnId, now))
    ensures |Recorded(v, userInput, turnId, now).history| <= MaxConversationTurns
  {
  }

  /** Extracting preferences keeps the invariant and the history. */
  lemma ExtractedKeepsInvariant(v: SessionView, userInput: string)
    requires SessionInvariant(v)
    ensures SessionInvariant(Extracted(v, userInput)) && Extracted(v, userInput).history == v.history
  {
  }

  /** Merging an intent keeps the invariant and the history. */
  lemma ClassifiedKeepsInvariant(v: SessionView, intent: IntentAnalysisResult)
    requires SessionInvariant(v)
    ensures SessionInvariant(Classified(v, intent)) && Classified(v, intent).history == v.history
  {
  }

  /** The first line of a session summary. */
  function SummaryHeader(v: SessionView): string {
    "会话摘要 (" + v.id + "):"
  }

  /** The summary lines between the header and the status value. */
  function SummaryFields(v: SessionView): string {
    var features := Join(v.context.detectedFeatures, ", ");
    var tech := Join(v.context.techPreferences, ", ");
    "\n- 项目类型: " + (if v.context.projectType.Some? then TypeTag(v.context.projectType.value) else "未确定")
    + "\n- 检测功能: " + (if features == "" then "无" else features)
    + "\n- 技术偏好: " + (if tech == "" then "无" else tech)
    + "\n- 对话轮次: " + NatToString(|v.history|)
    + "\n- 准备度: " + IntToString(v.readinessScore)
    + "%\n- 状态: "
  }

  /**
   * `getSessionSummary`'s text: the template is wrapped in a line break and
   * indentation that `trim` removes, so the summary is exactly the header,
   * the field lines and the status, in that order.
   */
  function SessionSummary(v: SessionView): (r: string)
    ensures r == SummaryHeader(v) + SummaryFields(v) + StatusLabel(v.status)
  {
    var inner := SummaryHeader(v) + SummaryFields(v) + StatusLabel(v.status);
    var status := StatusLabel(v.status);
    assert inner[0] == SummaryHeader(v)[0] == '会';
    assert inner[|inner| - 1] == status[|status| - 1];
    TrimAround("\n", inner, "\n    ");
    Trim("\n" + inner + "\n    ")
  }

  // ---------------------------------------------------------------------------
  // The store
  // ---------------------------------------------------------------------------

  /** The last-activity time of every stored session, by id. */
  function Activity(m: map<string, Session>): map<string, int>
    reads m.Values
  {
    map k | k in m :: m[k].lastActivity
  }

  /** The ids a sweep at `now` removes. */
  function ExpiredKeys(act: map<string, int>, now: int): set<string> {
    set k | k in act && Expired(act[k], now)
  }

  /** What a sweep at `now` keeps. */
  function Sweep(act: map<string, int>, now: int): (r: map<string, int>)
    ensures r.Keys == act.Keys - ExpiredKeys(act, now)
    ensures forall k :: k in r ==> r[k] == act[k] && !Expired(r[k], now)
  {
    map k | k in act && !Expired(act[k], now) :: act[k]
  }

  /** A second sweep at the same instant finds nothing to remove. */
  lemma SweepIdempotent(act: map<string, int>, now: int)
    ensures ExpiredKeys(Sweep(act, now), now) == {}
    ensures Sweep(Sweep(act, now), now) == Sweep(act, now)
  {
  }

  /** The sweep removes exactly the expired ids: as many as there are, and no fresh one. */
  lemma SweepCount(act: map<string, int>, now: int)
    ensures |Sweep(act, now).Keys| + |ExpiredKeys(act, now)| == |act.Keys|
    ensures forall k :: k in act && !Expired(act[k], now) ==> k in Sweep(act, now)
  {
    var kept := Sweep(act, now).Keys;
    var gone := ExpiredKeys(act, now);
    assert act.Keys == kept + gone;
    assert kept !! gone;
  }

  /** The store part-way through a sweep: every id still pending, and every visited id that has not expired. */
  function SweepPending(before: map<string, Session>, act: map<string, int>, pending: set<string>, now: int): map<string, Session>
    requires act.Keys == before.Keys
  {
    map k | k in before && (k in pending || !Expired(act[k], now)) :: before[k]
  }

  /** The expired ids among those a sweep has visited. */
  function SweptAmong(act: map<string, int>, visited: set<string>, now: int): set<string> {
    set k | k in visited && k in act && Expired(act[k], now)
  }

  /** Visiting one pending id removes it exactly when it has expired, and counts it once. */
  lemma SweepOne(before: map<string, Session>, act: map<string, int>, pending: set<string>, k: string, now: int)
    requires act == Activity(before)
    requires pending <= before.Keys && k in pending
    ensures Expired(act[k], now) ==>
      SweepPending(before, act, pending - {k}, now)
        == map j | j in SweepPending(before, act, pending, now) && j != k :: SweepPending(before, act, pending, now)[j]
    ensures !Expired(act[k], now) ==> SweepPending(before, act, pending - {k}, now) == SweepPending(before, act, pending, now)
    ensures SweepPending(before, act, pending, now)[k] == before[k] && before[k].lastActivity == act[k]
    ensures |SweptAmong(act, before.Keys - (pending - {k}), now)|
      == |SweptAmong(act, before.Keys - pending, now)| + (if Expired(act[k], now) then 1 else 0)
  {
    var visited := before.Keys - pending;
    if Expired(act[k], now) {
      assert SweptAmong(act, visited + {k}, now) == SweptAmong(act, visited, now) + {k};
    } else {
      assert SweptAmong(act, visited + {k}, now) == SweptAmong(act, visited, now);
    }
    assert before.Keys - (pending - {k}) == visited + {k};
  }

  /** Once nothing is pending, the store is the sweep of the activity map and the count is the expired ids. */
  lemma SweepPendingDone(before: map<string, Session>, act: map<string, int>, now: int)
    requires act == Activity(before)
    ensures Activity(SweepPending(before, act, {}, now)) == Sweep(act, now)
    ensures SweptAmong(act, before.Keys - {}, now) == ExpiredKeys(act, now)
  {
  }

  class ConversationManager {
    var sessions: map<string, Session>

    constructor ()
      ensures sessions == map[]
    {
      sessions := map[];
    }

    /** The lookup of `getOrCreateSession` succeeds: a non-empty id that the map holds. */
    predicate Known(sessionId: Option<string>)
      reads this
    {
      sessionId.Some? && sessionId.value != "" && sessionId.value in sessions
    }

    /** The lookup succeeds and the stored session has not expired. */
    predicate Resumes(sessionId: Option<string>, now: int)
      reads this, sessions.Values
    {
      Known(sessionId) && !Expired(sessions[sessionId.value].lastActivity, now)
    }

    /** The session `getOrCreateSession` hands out: the resumed one with its activity time refreshed, or a new one. */
    function Start(sessionId: Option<string>, now: int, freshId: string): SessionView
      reads this, sessions.Values
    {
      if Resumes(sessionId, now) then sessions[sessionId.value].View().(lastActivity := now) else FreshView(freshId, now)
    }

    /** The session `getOrCreateSession` may touch: the one it finds, if any. */
    function Target(sessionId: Option<string>): set<object>
      reads this
    {
      if Known(sessionId) then {sessions[sessionId.value]} else {}
    }

    /**
     * `getOrCreateSession`: a known, unexpired session is returned with its
     * activity time refreshed; otherwise (no id, empty id, unknown id or
     * expired session) a new session is stored under `freshId`. An expired
     * session stays in the map.
     */
    method GetOrCreateSession(sessionId: Option<string>, now: int, freshId: string) returns (s: Session)
      modifies this, Target(sessionId)
      ensures old(Resumes(sessionId, now)) ==>
        && s == old(sessions)[sessionId.value]
        && sessions == old(sessions)
        && s.View() == old(s.View()).(lastActivity := now)
      ensures !old(Resumes(sessionId, now)) ==>
        && fresh(s)
        && s.View() == FreshView(freshId, now)
        && sessions == old(sessions)[freshId := s]
      ensures old(Known(sessionId)) && !old(Resumes(sessionId, now)) && freshId != sessionId.value ==>
        sessionId.value in sessions && sessions[sessionId.value] == old(sessions)[sessionId.value]
        && sessions[sessionId.value].View() == old(sessions[sessionId.value].View())
      ensures s.View() == old(Start(sessionId, now, freshId))
    {
      if Known(sessionId) {
        var session := sessions[sessionId.value];
        if Expired(session.lastActivity, now) {
          s := CreateNewSession(freshId, now);
          return;
        }
        session.lastActivity := now;
        s := session;
        return;
      }
      s := CreateNewSession(freshId, now);
    }

    /** `createNewSession`: an empty, active session with score 0, stored under its id. */
    method CreateNewSession(freshId: string, now: int) returns (s: Session)
      modifies this
      ensures fresh(s)
      ensures s.View() == FreshView(freshId, now)
      ensures sessions == old(sessions)[freshId := s]
    {
      s := new Session(freshId, now);
      sessions := sessions[freshId := s];
    }

    /**
     * `recordUserInput`: appends a user turn, refreshes the activity time and
     * keeps only the last 50 turns, in their original order.
     */
    method RecordUserInput(s: Session, userInput: string, turnId: string, now: int) returns (turn: Turn)
      modifies s
      ensures turn == Turn(turnId, now, User, userInput, NoMetadata)
      ensures s.history == LastN(old(s.history) + [turn], MaxConversationTurns)
      ensures |s.history| <= MaxConversationTurns && s.history[|s.history| - 1] == turn
      ensures s.View() == old(s.View()).(lastActivity := now, history := s.history)
      ensures s.View() == Recorded(old(s.View()), userInput, turnId, now)
    {
      turn := Turn(turnId, now, User, userInput, NoMetadata);
      s.history := s.history + [turn];
      s.lastActivity := now;
      if |s.history| > MaxConversationTurns {
        s.history := s.history[|s.history| - MaxConversationTurns..];
      }
    }

    /** `recordAssistantResponse`: appends an assistant turn without truncating the history. */
    method RecordAssistantResponse(s: Session, response: string, metadata: TurnMetadata, turnId: string, now: int)
      returns (turn: Turn)
      modifies s
      ensures turn == Turn(turnId, now, Assistant, response, metadata)
      ensures s.View() == old(s.View()).(lastActivity := now, history := old(s.history) + [turn])
    {
      turn := Turn(turnId, now, Assistant, response, metadata);
      s.history := s.history + [turn];
      s.lastActivity := now;
    }

    /**
     * `updateAccumulatedContext`: takes the classified type when confident
     * and not generic, appends the unseen features in order, then recomputes
     * and caches the readiness score.
     */
    method UpdateAccumulatedContext(s: Session, intent: IntentAnalysisResult)
      modifies s
      ensures s.context == ApplyIntent(old(s.context), intent)
      ensures s.readinessScore == CalculateReadinessScore(s.context, |s.history|)
      ensures s.View() == old(s.View()).(context := s.context, readinessScore := s.readinessScore)
      ensures s.View() == Classified(old(s.View()), intent)
    {
      if intent.confidence > 70 && intent.projectType != Generic {
        s.context := s.context.(projectType := Some(intent.projectType));
      }
      var features := intent.detectedFeatures;
      var i := 0;
      while i < |features|
        invariant 0 <= i <= |features|
        invariant s.context == old(s.context).(projectType := NextProjectType(old(s.context).projectType, intent),
                                               detectedFeatures := Merge(old(s.context).detectedFeatures, features[..i]))
        invariant s.View() == old(s.View()).(context := s.context)
      {
        assert features[..i + 1][..i] == features[..i];
        if features[i] !in s.context.detectedFeatures {
          s.context := s.context.(detectedFeatures := s.context.detectedFeatures + [features[i]]);
        }
        i := i + 1;
      }
      assert features[..i] == features;
      s.readinessScore := CalculateReadinessScore(s.context, |s.history|);
    }

    /**
     * `extractUserPreferences`: scans the tech table, then sets the constraint
     * fields, then scans the audience table, all against the lower-cased input.
     */
    method ExtractUserPreferences(s: Session, userInput: string)
      modifies s
      ensures s.context == ExtractPreferences(old(s.context), userInput)
      ensures s.View() == old(s.View()).(context := s.context)
      ensures s.View() == Extracted(old(s.View()), userInput)
    {
      var text := Lower(userInput);
      MatchTechKeywords(s, TechKeywords, text);
      s.context := s.context.(constraints := ApplyConstraintPhrases(s.context.constraints, text));
      MatchAudienceKeywords(s, AudienceKeywords, text);
    }

    /** The tech-table loop: each matching label not yet listed is appended, in table order. */
    method MatchTechKeywords(s: Session, table: seq<(string, string)>, text: string)
      modifies s
      ensures s.context == old(s.context).(techPreferences :=
        Merge(old(s.context).techPreferences, MatchedLabels(table, text)))
      ensures s.View() == old(s.View()).(context := s.context)
    {
      var i := 0;
      while i < |table|
        invariant 0 <= i <= |table|
        invariant s.context == old(s.context).(techPreferences :=
          Merge(old(s.context).techPreferences, MatchedLabels(table[..i], text)))
        invariant s.View() == old(s.View()).(context := s.context)
      {
        var (keyword, tech) := table[i];
        ghost var prev := MatchedLabels(table[..i], text);
        assert table[..i + 1][..i] == table[..i];
        assert MatchedLabels(table[..i + 1], text) == prev + (if Contains(text, keyword) then [tech] else []);
        if Contains(text, keyword) {
          MergeSnoc(old(s.context).techPreferences, prev, tech);
        } else {
          assert prev + [] == prev;
        }
        if Contains(text, keyword) && tech !in s.context.techPreferences {
          s.context := s.context.(techPreferences := s.context.techPreferences + [tech]);
        }
        i := i + 1;
      }
      assert table[..i] == table;
    }

    /** The audience-table loop: every matching keyword overwrites `target_audience`, so the last match wins. */
    method MatchAudienceKeywords(s: Session, table: seq<(string, string)>, text: string)
      modifies s
      ensures s.context == old(s.context).(userPreferences :=
        WithAudience(old(s.context).userPreferences, LastMatch(table, text)))
      ensures s.View() == old(s.View()).(context := s.context)
    {
      var j := 0;
      while j < |table|
        invariant 0 <= j <= |table|
        invariant s.context == old(s.context).(userPreferences :=
          WithAudience(old(s.context).userPreferences, LastMatch(table[..j], text)))
        invariant s.View() == old(s.View()).(context := s.context)
      {
        var (keyword, audience) := table[j];
        assert table[..j + 1][..j] == table[..j];
        if Contains(text, keyword) {
          s.context := s.context.(userPreferences := s.context.userPreferences["target_audience" := audience]);
        }
        j := j + 1;
      }
      assert table[..j] == table;
    }

    /** `getSessionSummary`: the snapshot text of a stored session, or nothing for an unknown id. */
    method GetSessionSummary(sessionId: string) returns (r: Option<string>)
      ensures r.None? <==> sessionId !in sessions
      ensures r.Some? ==> r.value == SessionSummary(sessions[sessionId].View())
    {
      if sessionId in sessions {
        r := Some(SessionSummary(sessions[sessionId].View()));
      } else {
        r := None;
      }
    }

    /**
     * `cleanupExpiredSessions`: deletes exactly the sessions idle for longer
     * than the timeout at `now`, leaves every other entry as it was, and
     * returns how many it deleted.
     */
    method CleanupExpiredSessions(now: int) returns (cleaned: nat)
      modifies this
      ensures Activity(sessions) == Sweep(Activity(old(sessions)), now)
      ensures forall k :: k in sessions ==> k in old(sessions) && sessions[k] == old(sessions)[k]
      ensures cleaned == |ExpiredKeys(Activity(old(sessions)), now)|
    {
      ghost var before := sessions;
      ghost var act := Activity(before);
      var pending := sessions.Keys;
      cleaned := 0;
      while pending != {}
        invariant pending <= before.Keys
        invariant cleaned == |SweptAmong(act, before.Keys - pending, now)|
        invariant sessions == SweepPending(before, act, pending, now)
        decreases |pending|
      {
        var k :| k in pending;
        var session := sessions[k];
        SweepOne(before, act, pending, k, now);
        if Expired(session.lastActivity, now) {
          sessions := map j | j in sessions && j != k :: sessions[j];
          cleaned := cleaned + 1;
        }
        pending := pending - {k};
      }
      SweepPendingDone(before, act, now);
    }
  }
}
