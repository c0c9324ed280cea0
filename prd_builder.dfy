/**
 * The PRD assembler and validator (`PRDBuilder`): a pure function from a
 * session snapshot (and the generation timestamp, passed in) to the PRD
 * document, and a validator that lists errors and warnings.
 *
 * The name extractor is the three regular expressions of the source written
 * out as leftmost-match searches; every other helper is a table lookup or a
 * short list construction.
 */
module PrdBuilder {
  import opened Text
  import opened Types

  function Min(a: int, b: int): int { if a <= b then a else b }
  function Max(a: int, b: int): int { if a >= b then a else b }

  // ---------------------------------------------------------------------------
  // Project name: the three patterns of `extractProjectName`
  // ---------------------------------------------------------------------------

  /** `[a-zA-Z0-9一-鿿]` */
  predicate IsWordChar(c: char) {
    ('a' <= c <= 'z') || ('A' <= c <= 'Z') || ('0' <= c <= '9') || ('一' <= c <= '鿿')
  }

  /** `[\s"'《「]` */
  predicate IsSeparator(c: char) {
    IsSpace(c) || c == '"' || c == '\'' || c == '《' || c == '「'
  }

  predicate IsAsciiLetter(c: char) {
    ('a' <= c <= 'z') || ('A' <= c <= 'Z')
  }

  /** `[a-zA-Z0-9\-_]` */
  predicate IsIdentChar(c: char) {
    IsAsciiLetter(c) || ('0' <= c <= '9') || c == '-' || c == '_'
  }

  /** The end of the longest run of characters satisfying `p` that starts at `i` (a greedy `p*`). */
  function RunEnd(s: string, i: nat, p: char -> bool): (e: nat)
    requires i <= |s|
    ensures i <= e <= |s|
    ensures forall k :: i <= k < e ==> p(s[k])
    ensures e < |s| ==> !p(s[e])
    decreases |s| - i
  {
    if i < |s| && p(s[i]) then RunEnd(s, i + 1, p) else i
  }

  const ProjectKeywords: seq<string> := ["项目", "网站", "系统", "平台", "应用"]
  const NamingKeywords: seq<string> := ["叫做", "命名为", "名为"]

  /**
   * The capture group of `(?:k1|k2|...)[\s"'《「]*([a-zA-Z0-9一-鿿]+)`
   * for a match starting exactly at `i`: the alternatives are tried in order;
   * after the keyword the separator run is skipped and the maximal word run
   * is captured. (The separator and word classes are disjoint, so
   * backtracking into the separator run never helps.)
   */
  function CaptureAt(s: string, i: nat, keywords: seq<string>): (r: Option<string>)
    requires i <= |s|
    ensures r.Some? ==> |r.value| > 0 && Contains(s, r.value) && forall k :: 0 <= k < |r.value| ==> IsWordChar(r.value[k])
    decreases |keywords|
  {
    if keywords == [] then None
    else
      var k := keywords[0];
      if OccursAt(s, k, i) && RunEnd(s, i + |k|, IsSeparator) < |s| && IsWordChar(s[RunEnd(s, i + |k|, IsSeparator)]) then
        var j := RunEnd(s, i + |k|, IsSeparator);
        var e := RunEnd(s, j, IsWordChar);
        ContainsAt(s, s[j..e], j);
        Some(s[j..e])
      else CaptureAt(s, i, keywords[1..])
  }

  /** The leftmost position at or after `i` where a keyword pattern matches. */
  function LeftmostMatch(s: string, i: nat, keywords: seq<string>): (r: Option<nat>)
    requires i <= |s|
    ensures r.Some? ==> i <= r.value <= |s| && CaptureAt(s, r.value, keywords).Some?
    ensures r.Some? ==> forall q :: i <= q < r.value ==> CaptureAt(s, q, keywords).None?
    ensures r.None? ==> forall p :: i <= p <= |s| ==> CaptureAt(s, p, keywords).None?
    decreases |s| - i
  {
    var here := CaptureAt(s, i, keywords);
    if here.Some? then Some(i)
    else if i == |s| then None
    else
      LeftmostMatch(s, i + 1, keywords)
  }

  /** `s.match(re)` for a keyword pattern: the capture of the leftmost match at or after `i`. */
  function SearchFrom(s: string, i: nat, keywords: seq<string>): (r: Option<string>)
    requires i <= |s|
    ensures r.Some? ==> |r.value| > 0 && Contains(s, r.value) && forall k :: 0 <= k < |r.value| ==> IsWordChar(r.value[k])
    ensures r.None? <==> LeftmostMatch(s, i, keywords).None?
  {
    match LeftmostMatch(s, i, keywords)
    case Some(p) => CaptureAt(s, p, keywords)
    case None => None
  }

  /** The capture of `^([a-zA-Z][a-zA-Z0-9\-_]*)`: a leading identifier. */
  function LeadingIdentifier(s: string): (r: Option<string>)
    ensures r.Some? ==> |r.value| > 0 && StartsWith(s, r.value) && IsAsciiLetter(r.value[0])
    ensures r.Some? ==> forall k :: 0 <= k < |r.value| ==> IsIdentChar(r.value[k])
    ensures r.None? <==> |s| == 0 || !IsAsciiLetter(s[0])
  {
    if |s| > 0 && IsAsciiLetter(s[0]) then Some(s[..RunEnd(s, 1, IsIdentChar)]) else None
  }

  /** A capture accepted by the name extractor: present and longer than one character. */
  predicate Accepted(c: Option<string>) {
    c.Some? && |c.value| > 1
  }

  /** A capture of word or identifier characters holds no white space, so `trim` leaves it as it is. */
  lemma CaptureTrimmed(c: string)
    requires forall k :: 0 <= k < |c| ==> IsWordChar(c[k]) || IsIdentChar(c[k])
    ensures NoSpace(c) && Trim(c) == c
  {
    TrimNoSpace(c);
  }

  /**
   * The name one user input yields: the capture of the first of the three
   * patterns whose capture is longer than one character (the `trim` applied
   * to it is the identity, see `CaptureTrimmed`).
   */
  function NameFromInput(s: string): (r: Option<string>)
    ensures r.Some? ==> |r.value| > 1
  {
    var c1 := SearchFrom(s, 0, ProjectKeywords);
    if Accepted(c1) then c1
    else
      var c2 := SearchFrom(s, 0, NamingKeywords);
      if Accepted(c2) then c2
      else
        var c3 := LeadingIdentifier(s);
        if Accepted(c3) then c3 else None
  }

  /**
   * A name is found exactly when one of the three patterns captures more than
   * one character; it is a factor of the input made of word or identifier
   * characters, so `trim` does not change it.
   */
  lemma NameFromInputSpec(s: string)
    ensures NameFromInput(s).Some? <==>
      Accepted(SearchFrom(s, 0, ProjectKeywords)) || Accepted(SearchFrom(s, 0, NamingKeywords)) || Accepted(LeadingIdentifier(s))
    ensures NameFromInput(s).Some? ==> Contains(s, NameFromInput(s).value) && Trim(NameFromInput(s).value) == NameFromInput(s).value
    ensures Accepted(SearchFrom(s, 0, ProjectKeywords)) ==> NameFromInput(s) == SearchFrom(s, 0, ProjectKeywords)
    ensures !Accepted(SearchFrom(s, 0, ProjectKeywords)) && Accepted(SearchFrom(s, 0, NamingKeywords)) ==>
      NameFromInput(s) == SearchFrom(s, 0, NamingKeywords)
    ensures !Accepted(SearchFrom(s, 0, ProjectKeywords)) && !Accepted(SearchFrom(s, 0, NamingKeywords)) && Accepted(LeadingIdentifier(s)) ==>
      NameFromInput(s) == LeadingIdentifier(s)
  {
    var r := NameFromInput(s);
    if r.Some? {
      if r == LeadingIdentifier(s) {
        ContainsAt(s, r.value, 0);
      }
      CaptureTrimmed(r.value);
    }
  }

  /**
   * `extractProjectName`: the name from the first user turn that yields one,
   * in history order; nothing when no user turn does.
   */
  function ExtractProjectName(history: seq<Turn>): (r: Option<string>)
    ensures r.None? <==> forall t :: t in history && t.role == User ==> NameFromInput(t.content).None?
    ensures r.Some? ==> |r.value| > 1
  {
    if history == [] then None
    else if history[0].role == User && NameFromInput(history[0].content).Some? then NameFromInput(history[0].content)
    else
      assert forall t :: t in history <==> t == history[0] || t in history[1..];
      ExtractProjectName(history[1..])
  }

  /** The extracted name is the one of the first user turn that yields a name: later turns cannot override it. */
  lemma {:induction false} ExtractProjectNameIsFirst(history: seq<Turn>, i: nat)
    requires i < |history| && history[i].role == User && NameFromInput(history[i].content).Some?
    requires forall j :: 0 <= j < i && history[j].role == User ==> NameFromInput(history[j].content).None?
    ensures ExtractProjectName(history) == NameFromInput(history[i].content)
  {
    if i > 0 {
      assert history[0].role == User ==> NameFromInput(history[0].content).None?;
      assert forall j :: 0 <= j < i - 1 ==> history[1..][j] == history[j + 1];
      ExtractProjectNameIsFirst(history[1..], i - 1);
    }
  }

  /** `extractProjectName(session) || 'MyProject'` */
  function ProjectName(history: seq<Turn>): (r: string)
    ensures |r| > 1
    ensures ExtractProjectName(history).None? ==> r == "MyProject"
    ensures ExtractProjectName(history).Some? ==> r == ExtractProjectName(history).value
  {
    var n := ExtractProjectName(history);
    if n.Some? && n.value != "" then n.value else "MyProject"
  }

  // ---------------------------------------------------------------------------
  // Project description
  // ---------------------------------------------------------------------------

  const DefaultDescription := "一个现代化的Web应用项目"

  /** The contents of the user turns, in order. */
  function UserInputs(history: seq<Turn>): (r: seq<string>)
    ensures r == [] <==> forall t :: t in history ==> t.role != User
  {
    if history == [] then []
    else (if history[0].role == User then [history[0].content] else []) + UserInputs(history[1..])
  }

  /** The first input longer than 20 characters. */
  function FirstLong(inputs: seq<string>): (r: Option<string>)
    ensures r.None? <==> forall x :: x in inputs ==> |x| <= 20
    ensures r.Some? ==> |r.value| > 20 && exists i :: (0 <= i < |inputs| && inputs[i] == r.value
                                                       && forall j :: 0 <= j < i ==> |inputs[j]| <= 20)
  {
    if inputs == [] then None
    else if |inputs[0]| > 20 then Some(inputs[0])
    else
      var r := FirstLong(inputs[1..]);
      if r.Some? then
        var i :| 0 <= i < |inputs[1..]| && inputs[1..][i] == r.value && forall j :: 0 <= j < i ==> |inputs[1..][j]| <= 20;
        assert inputs[i + 1] == inputs[1..][i];
        r
      else
        assert forall x :: x in inputs ==> x == inputs[0] || x in inputs[1..];
        r
  }

  /**
   * `extractProjectDescription`: the first user input longer than 20
   * characters, cut to 200 characters plus `...`; else the first user input;
   * else the fixed default.
   */
  function ExtractProjectDescription(history: seq<Turn>): (r: string)
    ensures |r| <= 203
    ensures UserInputs(history) == [] ==> r == DefaultDescription
    ensures FirstLong(UserInputs(history)).Some? ==>
      |r| > 20 && StartsWith(FirstLong(UserInputs(history)).value, r[..Min(|r|, 200)])
    ensures FirstLong(UserInputs(history)).Some? ==>
      var long := FirstLong(UserInputs(history)).value;
      r == if |long| > 200 then long[..200] + "..." else long
    ensures FirstLong(UserInputs(history)).None? && UserInputs(history) != [] ==> r == UserInputs(history)[0] && |r| <= 20
  {
    var inputs := UserInputs(history);
    if inputs == [] then DefaultDescription
    else
      var long := FirstLong(inputs);
      if long.Some? then
        if |long.value| > 200 then long.value[..200] + "..." else long.value
      else
        assert inputs[0] in inputs;
        inputs[0]
  }

  /**
   * The description is shorter than 10 characters exactly when the session
   * has user input, none of it longer than 20 characters, and the first input
   * is shorter than 10.
   */
  lemma ShortDescription(history: seq<Turn>)
    ensures |ExtractProjectDescription(history)| < 10 <==>
      UserInputs(history) != [] && FirstLong(UserInputs(history)).None? && |UserInputs(history)[0]| < 10
  {
  }

  // ---------------------------------------------------------------------------
  // Key features
  // ---------------------------------------------------------------------------

  /** The fixed description of each known feature tag. */
  function FeatureDescription(tag: string): Option<string> {
    if tag == "auth" then Some("用户注册与登录")
    else if tag == "payment" then Some("在线支付功能")
    else if tag == "admin" then Some("管理后台")
    else if tag == "search" then Some("搜索功能")
    else if tag == "upload" then Some("文件上传")
    else if tag == "realtime" then Some("实时通信")
    else if tag == "analytics" then Some("数据分析")
    else if tag == "email" then Some("邮件通知")
    else None
  }

  const FeatureDescriptions: seq<string> := ["用户注册与登录", "在线支付功能", "管理后台", "搜索功能", "文件上传", "实时通信", "数据分析", "邮件通知"]

  /** The descriptions of the known tags among `features`, in detection order. */
  function KnownDescriptions(features: seq<string>): (r: seq<string>)
    ensures |r| <= |features|
    ensures forall d :: d in r ==> d in FeatureDescriptions
    ensures forall t :: t in features && FeatureDescription(t).Some? ==> FeatureDescription(t).value in r
    ensures forall d :: d in r ==> exists t :: t in features && FeatureDescription(t) == Some(d)
  {
    if features == [] then []
    else
      var d := FeatureDescription(features[0]);
      var rest := KnownDescriptions(features[1..]);
      assert forall t :: t in features <==> t == features[0] || t in features[1..];
      (if d.Some? then [d.value] else []) + rest
  }

  /**
   * Detection order: the descriptions of a concatenation are those of each
   * part in turn, and a single tag contributes its own description or
   * nothing, so every description sits where its tag was detected.
   */
  lemma {:induction false} KnownDescriptionsInOrder(a: seq<string>, b: seq<string>)
    ensures KnownDescriptions(a + b) == KnownDescriptions(a) + KnownDescriptions(b)
  {
    if a == [] {
      assert a + b == b;
    } else {
      var head := if FeatureDescription(a[0]).Some? then [FeatureDescription(a[0]).value] else [];
      calc {
        KnownDescriptions(a + b);
        { assert (a + b)[0] == a[0] && (a + b)[1..] == a[1..] + b; }
        head + KnownDescriptions(a[1..] + b);
        { KnownDescriptionsInOrder(a[1..], b); }
        head + (KnownDescriptions(a[1..]) + KnownDescriptions(b));
        (head + KnownDescriptions(a[1..])) + KnownDescriptions(b);
        KnownDescriptions(a) + KnownDescriptions(b);
      }
    }
  }

  /** A single tag contributes its own entry or nothing. */
  lemma KnownDescriptionsOfOne(t: string)
    ensures KnownDescriptions([t]) == (if FeatureDescription(t).Some? then [FeatureDescription(t).value] else [])
  {
    assert [t][1..] == [];
  }

  /** The type-specific default feature, with the word whose presence in a description suppresses it. */
  function TypeDefaultFeature(t: Option<ProjectType>): Option<(string, string)> {
    if t == Some(Ecommerce) then Some(("购物", "商品展示与购物车"))
    else if t == Some(Blog) then Some(("文章", "文章发布与管理"))
    else if t == Some(Saas) then Some(("仪表板", "用户仪表板"))
    else None
  }

  /** The feature list with the type default appended unless a description already mentions its word. */
  function WithTypeDefault(descs: seq<string>, t: Option<ProjectType>): (r: seq<string>)
    ensures |descs| <= |r| <= |descs| + 1 && r[..|descs|] == descs
  {
    match TypeDefaultFeature(t)
    case None => descs
    case Some((word, phrase)) =>
      if exists d :: d in descs && Contains(d, word) then descs else descs + [phrase]
  }

  const Filler: seq<string> := ["响应式用户界面", "数据管理功能", "用户友好的交互体验"]

  /** `while (features.length < 3)` pushing the three filler phrases at a time. */
  function PadToThree(xs: seq<string>): (r: seq<string>)
    ensures |r| >= 3 && |r| >= |xs| && r[..|xs|] == xs
    ensures |xs| >= 3 ==> r == xs
    ensures |xs| < 3 ==> r == xs + Filler
    decreases 3 - |xs|
  {
    if |xs| < 3 then PadToThree(xs + Filler) else xs
  }

  /**
   * `buildKeyFeaturesList`: between 3 and 8 entries, opening with the
   * descriptions of the known detected tags in detection order.
   */
  function BuildKeyFeaturesList(ctx: AccumulatedContext): (r: seq<string>)
    ensures 3 <= |r| <= 8
    ensures |r| >= Min(|KnownDescriptions(ctx.detectedFeatures)|, 8)
    ensures var d := KnownDescriptions(ctx.detectedFeatures);
      r[..Min(|d|, 8)] == d[..Min(|d|, 8)]
  {
    var d := KnownDescriptions(ctx.detectedFeatures);
    var padded := PadToThree(WithTypeDefault(d, ctx.projectType));
    assert padded[..|d|] == d;
    if |padded| <= 8 then padded else padded[..8]
  }

  /** No fixed description mentions a type default's word, so an ecommerce, blog or SaaS project always gets its default. */
  lemma TypeDefaultAlwaysAppended(ctx: AccumulatedContext)
    requires TypeDefaultFeature(ctx.projectType).Some?
    ensures var d := KnownDescriptions(ctx.detectedFeatures);
      WithTypeDefault(d, ctx.projectType) == d + [TypeDefaultFeature(ctx.projectType).value.1]
  {
    var d := KnownDescriptions(ctx.detectedFeatures);
    var word := TypeDefaultFeature(ctx.projectType).value.0;
    var k := if word == "文章" then 1 else 0;
    forall x | x in FeatureDescriptions ensures word[k] !in x {
      assert x == "用户注册与登录" || x == "在线支付功能" || x == "管理后台" || x == "搜索功能"
          || x == "文件上传" || x == "实时通信" || x == "数据分析" || x == "邮件通知";
    }
    NoDescriptionMentions(word, k);
    assert !exists x :: x in d && Contains(x, word);
  }

  /** A word is mentioned by no fixed description when one of its characters occurs in none of them. */
  lemma NoDescriptionMentions(word: string, k: nat)
    requires k < |word| && forall x :: x in FeatureDescriptions ==> word[k] !in x
    ensures forall x :: x in FeatureDescriptions ==> !Contains(x, word)
  {
    forall x | x in FeatureDescriptions ensures !Contains(x, word) {
      NotContainsByChar(x, word, k);
    }
  }

  /** Without known tags, an ecommerce, blog or SaaS project lists its default and the three fillers; any other lists only the fillers. */
  lemma KeyFeaturesWithoutKnownTags(ctx: AccumulatedContext)
    requires KnownDescriptions(ctx.detectedFeatures) == []
    ensures TypeDefaultFeature(ctx.projectType).Some? ==>
      BuildKeyFeaturesList(ctx) == [TypeDefaultFeature(ctx.projectType).value.1] + Filler
    ensures TypeDefaultFeature(ctx.projectType).None? ==> BuildKeyFeaturesList(ctx) == Filler
  {
    if TypeDefaultFeature(ctx.projectType).Some? {
      TypeDefaultAlwaysAppended(ctx);
    }
  }

  // ---------------------------------------------------------------------------
  // Tech stack
  // ---------------------------------------------------------------------------

  const FrameworkChoices: seq<string> := ["Next.js", "React", "Vue.js", "Angular", "Nuxt.js", "Svelte"]
  const DatabaseChoices: seq<string> := ["PostgreSQL", "MySQL", "MongoDB", "SQLite"]
  const UiLibraryChoices: seq<string> := ["Tailwind CSS", "Bootstrap", "Material UI", "Chakra UI"]

  /** The first preference, in preference order, that is on the allow-list. */
  function FirstAllowed(prefs: seq<string>, allowed: seq<string>): (r: Option<string>)
    ensures r.None? <==> forall p :: p in prefs ==> p !in allowed
    ensures r.Some? ==> r.value in allowed && exists i :: (0 <= i < |prefs| && prefs[i] == r.value
                                                          && forall j :: 0 <= j < i ==> prefs[j] !in allowed)
  {
    if prefs == [] then None
    else if prefs[0] in allowed then Some(prefs[0])
    else
      var r := FirstAllowed(prefs[1..], allowed);
      if r.Some? then
        var i :| 0 <= i < |prefs[1..]| && prefs[1..][i] == r.value && forall j :: 0 <= j < i ==> prefs[1..][j] !in allowed;
        assert prefs[i + 1] == prefs[1..][i];
        r
      else
        assert forall p :: p in prefs ==> p == prefs[0] || p in prefs[1..];
        r
  }

  /** The framework recommended for a project type when no preference applies. */
  function DefaultFramework(t: Option<ProjectType>): string {
    if t == Some(Ecommerce) || t == Some(Saas) || t == Some(Portfolio) then "Next.js"
    else if t == Some(Blog) then "Astro"
    else "React"
  }

  /** `selectFramework`: the first preferred framework on the allow-list, else the type's default; never empty. */
  function SelectFramework(ctx: AccumulatedContext): (r: string)
    ensures r in FrameworkChoices || r == "Astro"
    ensures r != ""
    ensures FirstAllowed(ctx.techPreferences, FrameworkChoices).None? ==> r == DefaultFramework(ctx.projectType)
    ensures r == "Astro" ==> ctx.projectType == Some(Blog)
    ensures FirstAllowed(ctx.techPreferences, FrameworkChoices).Some? ==> r == FirstAllowed(ctx.techPreferences, FrameworkChoices).value
  {
    match FirstAllowed(ctx.techPreferences, FrameworkChoices)
    case Some(f) => f
    case None => DefaultFramework(ctx.projectType)
  }

  /**
   * `selectDatabase`: the first preferred database on the allow-list; else
   * PostgreSQL for ecommerce and SaaS projects or when auth or payment is
   * detected; else none.
   */
  function SelectDatabase(ctx: AccumulatedContext): (r: Option<string>)
    ensures r.Some? ==> r.value in DatabaseChoices
    ensures r.None? <==>
      && (forall p :: p in ctx.techPreferences ==> p !in DatabaseChoices)
      && ctx.projectType != Some(Ecommerce) && ctx.projectType != Some(Saas)
      && "auth" !in ctx.detectedFeatures && "payment" !in ctx.detectedFeatures
    ensures FirstAllowed(ctx.techPreferences, DatabaseChoices).Some? ==> r == FirstAllowed(ctx.techPreferences, DatabaseChoices)
    ensures FirstAllowed(ctx.techPreferences, DatabaseChoices).None? && r.Some? ==> r.value == "PostgreSQL"
  {
    match FirstAllowed(ctx.techPreferences, DatabaseChoices)
    case Some(d) => Some(d)
    case None =>
      if ctx.projectType == Some(Ecommerce) || ctx.projectType == Some(Saas) then Some("PostgreSQL")
      else if "auth" in ctx.detectedFeatures || "payment" in ctx.detectedFeatures then Some("PostgreSQL")
      else None
  }

  /** `selectUILibrary`: the first preferred UI library on the allow-list, else Tailwind CSS. */
  function SelectUiLibrary(ctx: AccumulatedContext): (r: string)
    ensures r in UiLibraryChoices
    ensures FirstAllowed(ctx.techPreferences, UiLibraryChoices).None? ==> r == "Tailwind CSS"
    ensures FirstAllowed(ctx.techPreferences, UiLibraryChoices).Some? ==> r == FirstAllowed(ctx.techPreferences, UiLibraryChoices).value
  {
    match FirstAllowed(ctx.techPreferences, UiLibraryChoices)
    case Some(u) => u
    case None => "Tailwind CSS"
  }

  /** `selectDeploymentPlatform`: AWS exactly for a SaaS or ecommerce project without a low budget, Vercel otherwise. */
  function SelectDeploymentPlatform(ctx: AccumulatedContext): (r: string)
    ensures r == "Vercel" || r == "AWS"
    ensures r == "AWS" <==> ctx.constraints.budget != Some(BudgetLow)
                            && (ctx.projectType == Some(Saas) || ctx.projectType == Some(Ecommerce))
  {
    if ctx.constraints.budget == Some(BudgetLow) then "Vercel"
    else if ctx.projectType == Some(Saas) || ctx.projectType == Some(Ecommerce) then "AWS"
    else "Vercel"
  }

  /** Every tool `selectAdditionalTools` can list. */
  const ToolNames: seq<string> := ["NextAuth.js", "Stripe", "Resend", "TypeScript", "Prisma ORM"]

  /** The tools the detected features call for: NextAuth.js, Stripe and Resend, in that order. */
  function FeatureTools(features: seq<string>): (r: seq<string>)
    ensures "NextAuth.js" in r <==> "auth" in features
    ensures "Stripe" in r <==> "payment" in features
    ensures "Resend" in r <==> "email" in features
    ensures "TypeScript" !in r && "Prisma ORM" !in r
    ensures NoDup(r) && |r| <= 3
    ensures "NextAuth.js" in r ==> r[0] == "NextAuth.js"
    ensures "Resend" in r ==> r[|r| - 1] == "Resend"
  {
    (if "auth" in features then ["NextAuth.js"] else [])
    + (if "payment" in features then ["Stripe"] else [])
    + (if "email" in features then ["Resend"] else [])
  }

  /**
   * `selectAdditionalTools`: the feature tools, then TypeScript and Prisma
   * ORM when preferred, then TypeScript if still missing. TypeScript is
   * always listed, and no tool twice, so TypeScript appears exactly once.
   */
  function SelectAdditionalTools(ctx: AccumulatedContext): (r: seq<string>)
    ensures "TypeScript" in r && NoDup(r)
    ensures "NextAuth.js" in r <==> "auth" in ctx.detectedFeatures
    ensures "Stripe" in r <==> "payment" in ctx.detectedFeatures
    ensures "Resend" in r <==> "email" in ctx.detectedFeatures
    ensures "Prisma ORM" in r <==> "Prisma" in ctx.techPreferences
    ensures |r| <= 5
    ensures forall x :: x in r ==> x in ToolNames
  {
    var byFeature := FeatureTools(ctx.detectedFeatures);
    var withTypeScript := AppendIf(byFeature, "TypeScript" in ctx.techPreferences, "TypeScript");
    var withPrisma := AppendIf(withTypeScript, "Prisma" in ctx.techPreferences, "Prisma ORM");
    var r := AppendIf(withPrisma, "TypeScript" !in withPrisma, "TypeScript");
    r
  }

  /**
   * The push order of `selectAdditionalTools`: the feature tools come first,
   * a preferred TypeScript right after them, and otherwise TypeScript last.
   */
  lemma AdditionalToolsOrder(ctx: AccumulatedContext)
    ensures var byFeature := FeatureTools(ctx.detectedFeatures);
      var r := SelectAdditionalTools(ctx);
      && |byFeature| < |r| && r[..|byFeature|] == byFeature
      && ("TypeScript" in ctx.techPreferences ==> r[|byFeature|] == "TypeScript")
      && ("TypeScript" !in ctx.techPreferences ==> r[|r| - 1] == "TypeScript")
  {
    var byFeature := FeatureTools(ctx.detectedFeatures);
    var preferred := "TypeScript" in ctx.techPreferences;
    var withTypeScript := AppendIf(byFeature, preferred, "TypeScript");
    var withPrisma := AppendIf(withTypeScript, "Prisma" in ctx.techPreferences, "Prisma ORM");
    var r := AppendIf(withPrisma, "TypeScript" !in withPrisma, "TypeScript");
    assert SelectAdditionalTools(ctx) == r;
    var prisma := if "Prisma" in ctx.techPreferences then ["Prisma ORM"] else [];
    if preferred {
      assert r == byFeature + ["TypeScript"] + prisma;
    } else {
      assert "TypeScript" !in withPrisma;
      assert r == byFeature + prisma + ["TypeScript"];
    }
  }

  /** `xs` with `x` pushed when `c` holds; pushing a new element keeps the list free of duplicates. */
  function AppendIf(xs: seq<string>, c: bool, x: string): (r: seq<string>)
    requires NoDup(xs) && (c ==> x !in xs)
    ensures NoDup(r) && |r| == |xs| + (if c then 1 else 0)
    ensures forall y :: y in r <==> y in xs || (c && y == x)
  {
    if c then
      assert forall i :: 0 <= i < |xs| ==> (xs + [x])[i] == xs[i];
      xs + [x]
    else xs
  }

  /** TypeScript occurs exactly once among the additional tools. */
  lemma TypeScriptOnce(ctx: AccumulatedContext)
    ensures multiset(SelectAdditionalTools(ctx))["TypeScript"] == 1
  {
    NoDupOnce(SelectAdditionalTools(ctx), "TypeScript");
  }

  /** `buildTechStack` */
  function BuildTechStack(ctx: AccumulatedContext): (r: TechStackConfig)
    ensures r.framework != "" && r.deploymentPlatform.Some?
    ensures r.uiLibrary in UiLibraryChoices && "TypeScript" in r.additionalTools
  {
    TechStackConfig(SelectFramework(ctx), SelectDatabase(ctx), SelectUiLibrary(ctx),
                    Some(SelectDeploymentPlatform(ctx)), SelectAdditionalTools(ctx))
  }

  // ---------------------------------------------------------------------------
  // Feature flags, specifications, next steps
  // ---------------------------------------------------------------------------

  /** `requiresAuth`: SaaS and ecommerce projects need sign-in. */
  predicate RequiresAuth(t: Option<ProjectType>): (r: bool)
    ensures r <==> t.Some? && TypeTag(t.value) in ["saas", "ecommerce"]
    ensures r ==> RequiresAdmin(t)
  {
    t == Some(Saas) || t == Some(Ecommerce)
  }

  /** `requiresAdmin`: ecommerce, SaaS and blog projects need an admin area. */
  predicate RequiresAdmin(t: Option<ProjectType>): (r: bool)
    ensures r <==> t.Some? && TypeTag(t.value) in ["ecommerce", "saas", "blog"]
  {
    t == Some(Ecommerce) || t == Some(Saas) || t == Some(Blog)
  }

  /** `buildFeatureFlags`: each flag is its tag's detection; auth and admin are also implied by the project type. */
  function BuildFeatureFlags(ctx: AccumulatedContext): (r: FeatureFlags)
    ensures r.auth <==> "auth" in ctx.detectedFeatures || RequiresAuth(ctx.projectType)
    ensures r.admin <==> "admin" in ctx.detectedFeatures || RequiresAdmin(ctx.projectType)
    ensures r.payment <==> "payment" in ctx.detectedFeatures
    ensures r.search <==> "search" in ctx.detectedFeatures
    ensures r.upload <==> "upload" in ctx.detectedFeatures
    ensures r.realtime <==> "realtime" in ctx.detectedFeatures
    ensures r.analytics <==> "analytics" in ctx.detectedFeatures
    ensures r.email <==> "email" in ctx.detectedFeatures
  {
    var f := ctx.detectedFeatures;
    FeatureFlags(
      "auth" in f || RequiresAuth(ctx.projectType), "payment" in f,
      "admin" in f || RequiresAdmin(ctx.projectType), "search" in f,
      "upload" in f, "realtime" in f, "analytics" in f, "email" in f)
  }

  /** The curated specification of a feature tag; only auth and payment have one. */
  function CuratedSpecification(feature: string): (r: Option<FeatureSpecification>)
    ensures r.Some? <==> feature == "auth" || feature == "payment"
  {
    if feature == "auth" then Some(FeatureSpecification(
      "用户认证系统",
      "提供用户注册、登录、密码重置等功能",
      ["支持邮箱/用户名登录", "密码强度验证", "邮箱验证功能", "记住登录状态", "安全的密码重置流程"],
      ["数据库", "邮件服务"],
      ["使用 NextAuth.js 或类似认证库", "实现 JWT 或 Session 管理", "确保密码加密存储", "添加 CSRF 保护"]))
    else if feature == "payment" then Some(FeatureSpecification(
      "支付系统",
      "集成在线支付功能，支持多种支付方式",
      ["支持信用卡支付", "支付状态跟踪", "退款处理", "支付历史记录", "安全的支付流程"],
      ["支付网关API", "数据库", "邮件通知"],
      ["集成 Stripe 或其他支付服务", "实现 Webhook 处理", "遵循 PCI DSS 标准", "添加支付失败重试机制"]))
    else None
  }

  /**
   * `createBasicSpecification` for a type tag: a generic module named after
   * the type, never mistaken for a curated specification.
   */
  function BasicSpecification(typeTag: string): (r: FeatureSpecification)
    ensures StartsWith(r.description, typeTag)
    ensures |r.requirements| == 3 && |r.dependencies| == 2 && |r.implementationNotes| == 3
    ensures forall feature :: CuratedSpecification(feature) != Some(r)
  {
    FeatureSpecification(
      "基础功能模块",
      typeTag + " 项目的核心功能实现",
      ["响应式用户界面", "基础数据管理", "用户友好的交互"],
      ["前端框架", "UI组件库"],
      ["遵循现代Web开发最佳实践", "确保跨浏览器兼容性", "优化页面加载性能"])
  }

  /** The curated specifications of `features`, in detection order. */
  function CuratedSpecs(features: seq<string>): (r: seq<FeatureSpecification>)
    ensures |r| == CountCurated(features)
    ensures forall t :: t in features && CuratedSpecification(t).Some? ==> CuratedSpecification(t).value in r
    ensures forall c :: c in r ==> exists t :: t in features && CuratedSpecification(t) == Some(c)
  {
    if features == [] then []
    else
      var c := CuratedSpecification(features[0]);
      var rest := CuratedSpecs(features[1..]);
      assert forall t :: t in features <==> t == features[0] || t in features[1..];
      (if c.Some? then [c.value] else []) + rest
  }

  /** Detection order for the curated specifications, as for the key-feature descriptions. */
  lemma {:induction false} CuratedSpecsInOrder(a: seq<string>, b: seq<string>)
    ensures CuratedSpecs(a + b) == CuratedSpecs(a) + CuratedSpecs(b)
  {
    if a == [] {
      assert a + b == b;
    } else {
      var head := if CuratedSpecification(a[0]).Some? then [CuratedSpecification(a[0]).value] else [];
      calc {
        CuratedSpecs(a + b);
        { assert (a + b)[0] == a[0] && (a + b)[1..] == a[1..] + b; }
        head + CuratedSpecs(a[1..] + b);
        { CuratedSpecsInOrder(a[1..], b); }
        head + (CuratedSpecs(a[1..]) + CuratedSpecs(b));
        (head + CuratedSpecs(a[1..])) + CuratedSpecs(b);
        CuratedSpecs(a) + CuratedSpecs(b);
      }
    }
  }

  /** A single tag contributes its own entry or nothing. */
  lemma CuratedSpecsOfOne(t: string)
    ensures CuratedSpecs([t]) == (if CuratedSpecification(t).Some? then [CuratedSpecification(t).value] else [])
  {
    assert [t][1..] == [];
  }

  /** How many entries of `features` are auth or payment. */
  function CountCurated(features: seq<string>): nat {
    if features == [] then 0
    else (if features[0] == "auth" || features[0] == "payment" then 1 else 0) + CountCurated(features[1..])
  }

  lemma {:induction false} CountCuratedZero(features: seq<string>)
    ensures CountCurated(features) == 0 <==> "auth" !in features && "payment" !in features
  {
    if features != [] {
      CountCuratedZero(features[1..]);
      assert forall x :: x in features <==> x == features[0] || x in features[1..];
    }
  }

  /**
   * `buildSpecifications`: one curated entry per detected auth or payment
   * tag, in detection order; when there is none, exactly one basic entry for
   * the project type.
   */
  function BuildSpecifications(ctx: AccumulatedContext): (r: seq<FeatureSpecification>)
    ensures |r| == Max(1, CountCurated(ctx.detectedFeatures))
    ensures "auth" !in ctx.detectedFeatures && "payment" !in ctx.detectedFeatures ==>
      r == [BasicSpecification(TypeTag(TypeOrGeneric(ctx)))]
    ensures "auth" in ctx.detectedFeatures || "payment" in ctx.detectedFeatures ==>
      r == CuratedSpecs(ctx.detectedFeatures)
  {
    CountCuratedZero(ctx.detectedFeatures);
    var specs := CuratedSpecs(ctx.detectedFeatures);
    if specs == [] then [BasicSpecification(TypeTag(TypeOrGeneric(ctx)))] else specs
  }

  const ScaffoldStep := "搭建项目基础架构"
  const AuthStep := "实现用户认证系统"
  const PaymentStep := "集成支付功能"
  const FixedSteps: seq<string> := ["开发核心功能模块", "设计用户界面", "编写测试用例", "部署到生产环境"]

  /** `buildNextSteps`: the scaffold step, the auth and payment steps when detected, then the four fixed steps. */
  function BuildNextSteps(ctx: AccumulatedContext): (r: seq<string>)
    ensures 5 <= |r| <= 7
    ensures r[0] == ScaffoldStep && r[|r| - 4..] == FixedSteps
    ensures AuthStep in r <==> "auth" in ctx.detectedFeatures
    ensures PaymentStep in r <==> "payment" in ctx.detectedFeatures
    ensures |r| == 5 + (if "auth" in ctx.detectedFeatures then 1 else 0) + (if "payment" in ctx.detectedFeatures then 1 else 0)
  {
    [ScaffoldStep]
    + (if "auth" in ctx.detectedFeatures then [AuthStep] else [])
    + (if "payment" in ctx.detectedFeatures then [PaymentStep] else [])
    + FixedSteps
  }

  /** Payment is planned consistently: the flag, the Stripe tool and the payment step all follow its detection. */
  lemma PaymentPlannedConsistently(ctx: AccumulatedContext)
    ensures BuildFeatureFlags(ctx).payment <==> "Stripe" in SelectAdditionalTools(ctx)
    ensures BuildFeatureFlags(ctx).payment <==> PaymentStep in BuildNextSteps(ctx)
    ensures "NextAuth.js" in SelectAdditionalTools(ctx) ==> BuildFeatureFlags(ctx).auth && AuthStep in BuildNextSteps(ctx)
  {
  }

  // ---------------------------------------------------------------------------
  // Project information and metadata
  // ---------------------------------------------------------------------------

  /** `inferTargetAudience`: the default audience of a type; an unlisted type gets the generic one. */
  function InferTargetAudience(t: ProjectType): (r: string)
    ensures r != ""
    ensures t.Unlisted? ==> r == "终端用户"
  {
    match t
    case Blog => "内容阅读者和订阅用户"
    case Ecommerce => "在线购物用户"
    case Saas => "企业用户和团队"
    case Portfolio => "潜在客户和雇主"
    case LandingPage => "目标客户群体"
    case Generic => "终端用户"
    case Unlisted(_) => "终端用户"
  }

  /** The stated audience when there is one, else the type's default. */
  function TargetAudience(ctx: AccumulatedContext): (r: string)
    ensures r != ""
    ensures HasPreference(ctx.userPreferences, "target_audience") ==> r == ctx.userPreferences["target_audience"]
    ensures !HasPreference(ctx.userPreferences, "target_audience") ==> r == InferTargetAudience(TypeOrGeneric(ctx))
  {
    if HasPreference(ctx.userPreferences, "target_audience") then ctx.userPreferences["target_audience"]
    else InferTargetAudience(TypeOrGeneric(ctx))
  }

  /** `inferScale`: large for a team of at least five, else medium for SaaS or more than five features, else small. */
  function InferScale(ctx: AccumulatedContext): (r: Scale)
    ensures r == Large <==> ctx.constraints.teamSize.Some? && ctx.constraints.teamSize.value >= 5
    ensures r == MediumScale <==> !(ctx.constraints.teamSize.Some? && ctx.constraints.teamSize.value >= 5)
                                  && (ctx.projectType == Some(Saas) || |ctx.detectedFeatures| > 5)
    ensures r == Small <==> !(ctx.constraints.teamSize.Some? && ctx.constraints.teamSize.value >= 5)
                            && ctx.projectType != Some(Saas) && |ctx.detectedFeatures| <= 5
  {
    if ctx.constraints.teamSize.Some? && ctx.constraints.teamSize.value != 0 && ctx.constraints.teamSize.value >= 5 then Large
    else if ctx.projectType == Some(Saas) || |ctx.detectedFeatures| > 5 then MediumScale
    else Small
  }

  /** `buildProjectInfo` */
  function BuildProjectInfo(v: SessionView): (r: ProjectInfo)
    ensures r.projectType == TypeOrGeneric(v.context)
    ensures 3 <= |r.keyFeatures| <= 8 && r.targetAudience != ""
    ensures r.businessModel.Some? <==> "business_model" in v.context.userPreferences
  {
    var ctx := v.context;
    ProjectInfo(
      TypeOrGeneric(ctx),
      ExtractProjectDescription(v.history),
      TargetAudience(ctx),
      BuildKeyFeaturesList(ctx),
      if "business_model" in ctx.userPreferences then Some(ctx.userPreferences["business_model"]) else None,
      InferScale(ctx))
  }

  /** The PRD confidence: the readiness score plus 10, clamped to [60, 95]. */
  function PrdConfidence(readinessScore: int): (r: int)
    ensures 60 <= r <= 95
    ensures 50 <= readinessScore <= 85 ==> r == readinessScore + 10
    ensures r < 70 <==> readinessScore < 60
  {
    Min(95, Max(60, readinessScore + 10))
  }

  /** `buildMetadata`; the generation time is passed in. */
  function BuildMetadata(name: string, v: SessionView, generatedAt: string): (r: PrdMetadata)
    ensures r.name == name && r.version == "1.0.0" && r.sessionId == v.id
    ensures 60 <= r.confidenceScore <= 95
  {
    PrdMetadata(name, "1.0.0", generatedAt, PrdConfidence(v.readinessScore), v.id)
  }

  /** `buildEnvironment`: no environment information is collected, so the block is empty. */
  function BuildEnvironment(): (r: EnvironmentBlock)
    ensures |r.variables| == 0 && |r.secrets| == 0
  {
    EnvironmentBlock(map[], [])
  }

  /** `buildPRD` */
  function BuildPrd(v: SessionView, generatedAt: string): (r: Prd)
    ensures r.metadata.name == ProjectName(v.history) && r.metadata.sessionId == v.id
    ensures r.project.projectType == TypeOrGeneric(v.context)
    ensures r.constraints == v.context.constraints
    ensures r.environment == BuildEnvironment()
    ensures r.project.description == ExtractProjectDescription(v.history)
    ensures r.metadata.confidenceScore == PrdConfidence(v.readinessScore)
    ensures |r.metadata.name| > 1 && r.techStack.framework != ""
    ensures 3 <= |r.project.keyFeatures| <= 8 && |r.specifications| >= 1 && 5 <= |r.nextSteps| <= 7
  {
    var ctx := v.context;
    Prd(
      BuildMetadata(ProjectName(v.history), v, generatedAt),
      BuildProjectInfo(v),
      BuildTechStack(ctx),
      BuildFeatureFlags(ctx),
      BuildSpecifications(ctx),
      ctx.constraints,
      BuildEnvironment(),
      BuildNextSteps(ctx))
  }

  // ---------------------------------------------------------------------------
  // Validation
  // ---------------------------------------------------------------------------

  /** The checks of `validatePRD` that produce errors, in order. */
  datatype PrdError = MissingName | MissingType | ShortDescriptionError | MissingFeatures | MissingFramework | MissingNextSteps

  /** The checks that produce warnings, in order. */
  datatype PrdWarning = LowConfidence | FewFeatures | NoSpecifications

  function ErrorMessage(e: PrdError): string {
    match e
    case MissingName => "缺少项目名称"
    case MissingType => "缺少项目类型"
    case ShortDescriptionError => "项目描述过短或缺失"
    case MissingFeatures => "缺少核心功能"
    case MissingFramework => "缺少技术框架"
    case MissingNextSteps => "缺少下一步行动计划"
  }

  function WarningMessage(w: PrdWarning): string {
    match w
    case LowConfidence => "PRD 置信度较低，建议进一步澄清需求"
    case FewFeatures => "核心功能较少，可能需要补充"
    case NoSpecifications => "缺少详细功能规格说明"
  }

  /** Whether error check `e` fires for `p`. */
  predicate ErrorFires(p: Prd, e: PrdError) {
    match e
    case MissingName => p.metadata.name == ""
    case MissingType => TypeTag(p.project.projectType) == ""
    case ShortDescriptionError => |p.project.description| < 10
    case MissingFeatures => |p.project.keyFeatures| == 0
    case MissingFramework => p.techStack.framework == ""
    case MissingNextSteps => |p.nextSteps| == 0
  }

  /** Whether warning check `w` fires for `p`. */
  predicate WarningFires(p: Prd, w: PrdWarning) {
    match w
    case LowConfidence => p.metadata.confidenceScore < 70
    case FewFeatures => |p.project.keyFeatures| < 3
    case NoSpecifications => |p.specifications| == 0
  }

  const ErrorChecks: seq<PrdError> := [MissingName, MissingType, ShortDescriptionError, MissingFeatures, MissingFramework, MissingNextSteps]
  const WarningChecks: seq<PrdWarning> := [LowConfidence, FewFeatures, NoSpecifications]

  /** The checks among `checks` that fire, in order. */
  function FiredErrors(p: Prd, checks: seq<PrdError>): (r: seq<PrdError>)
    ensures forall e :: e in r <==> e in checks && ErrorFires(p, e)
    ensures (forall e :: e in checks ==> !ErrorFires(p, e)) ==> r == []
  {
    if checks == [] then []
    else (if ErrorFires(p, checks[0]) then [checks[0]] else []) + FiredErrors(p, checks[1..])
  }

  function FiredWarnings(p: Prd, checks: seq<PrdWarning>): (r: seq<PrdWarning>)
    ensures forall w :: w in r <==> w in checks && WarningFires(p, w)
    ensures (forall w :: w in checks ==> !WarningFires(p, w)) ==> r == []
  {
    if checks == [] then []
    else (if WarningFires(p, checks[0]) then [checks[0]] else []) + FiredWarnings(p, checks[1..])
  }

  /** The error checks that fire for `p`, in check order. */
  function PrdErrors(p: Prd): (r: seq<PrdError>)
    ensures forall e :: e in r <==> ErrorFires(p, e)
  {
    FiredErrors(p, ErrorChecks)
  }

  /** The warning checks that fire for `p`, in check order. */
  function PrdWarnings(p: Prd): (r: seq<PrdWarning>)
    ensures forall w :: w in r <==> WarningFires(p, w)
  {
    FiredWarnings(p, WarningChecks)
  }

  /** `validatePRD`: the messages of the fired checks; valid exactly when no error check fires. */
  function ValidatePrd(p: Prd): (r: ValidationResult)
    ensures r.valid <==> PrdErrors(p) == []
    ensures r.valid <==> r.errors == []
    ensures |r.errors| == |PrdErrors(p)| && forall i :: 0 <= i < |r.errors| ==> r.errors[i] == ErrorMessage(PrdErrors(p)[i])
    ensures |r.warnings| == |PrdWarnings(p)| && forall i :: 0 <= i < |r.warnings| ==> r.warnings[i] == WarningMessage(PrdWarnings(p)[i])
  {
    var errors := PrdErrors(p);
    var warnings := PrdWarnings(p);
    ValidationResult(
      errors == [],
      seq(|errors|, i requires 0 <= i < |errors| => ErrorMessage(errors[i])),
      seq(|warnings|, i requires 0 <= i < |warnings| => WarningMessage(warnings[i])))
  }

  /**
   * For every PRD the builder produces, the only error that can fire is the
   * short description and the only warning is the low confidence (a
   * readiness score below 60).
   */
  lemma BuiltPrdIssues(v: SessionView, generatedAt: string)
    ensures var p := BuildPrd(v, generatedAt);
      && PrdErrors(p) == (if |p.project.description| < 10 then [ShortDescriptionError] else [])
      && PrdWarnings(p) == (if v.readinessScore < 60 then [LowConfidence] else [])
  {
    var p := BuildPrd(v, generatedAt);
    BuiltShapeErrors(p);
    BuiltShapeWarnings(p);
  }

  /** The error list of any PRD with a name, a framework, at least three features and next steps. */
  lemma BuiltShapeErrors(p: Prd)
    requires |p.metadata.name| > 1 && p.techStack.framework != ""
    requires |p.project.keyFeatures| >= 3 && |p.nextSteps| >= 5
    ensures PrdErrors(p) == (if |p.project.description| < 10 then [ShortDescriptionError] else [])
  {
    assert TypeTag(p.project.projectType) != "";
    assert forall e :: ErrorFires(p, e) ==> e == ShortDescriptionError;
    assert ErrorChecks == [MissingName, MissingType] + [ShortDescriptionError] + [MissingFeatures, MissingFramework, MissingNextSteps];
    FiredOnly(p, [MissingName, MissingType], [MissingFeatures, MissingFramework, MissingNextSteps]);
  }

  /** The warning list of any PRD with at least three features and a specification. */
  lemma BuiltShapeWarnings(p: Prd)
    requires |p.project.keyFeatures| >= 3 && |p.specifications| >= 1
    ensures PrdWarnings(p) == (if p.metadata.confidenceScore < 70 then [LowConfidence] else [])
  {
    assert WarningChecks == [LowConfidence] + [FewFeatures, NoSpecifications];
    assert FiredWarnings(p, [FewFeatures, NoSpecifications]) == [];
  }

  /** When only the short-description check can fire, the fired list is that check or nothing. */
  lemma FiredOnly(p: Prd, before: seq<PrdError>, after: seq<PrdError>)
    requires ShortDescriptionError !in before && ShortDescriptionError !in after
    requires forall e :: ErrorFires(p, e) ==> e == ShortDescriptionError
    ensures FiredErrors(p, before + [ShortDescriptionError] + after)
      == if ErrorFires(p, ShortDescriptionError) then [ShortDescriptionError] else []
  {
    if before == [] {
      assert (before + [ShortDescriptionError] + after)[1..] == after;
      assert FiredErrors(p, after) == [];
    } else {
      assert (before + [ShortDescriptionError] + after)[1..] == before[1..] + [ShortDescriptionError] + after;
      FiredOnly(p, before[1..], after);
    }
  }

  /** A built PRD is valid exactly when its description has at least 10 characters. */
  lemma BuiltPrdValid(v: SessionView, generatedAt: string)
    ensures ValidatePrd(BuildPrd(v, generatedAt)).valid <==>
      !(UserInputs(v.history) != [] && FirstLong(UserInputs(v.history)).None? && |UserInputs(v.history)[0]| < 10)
  {
    BuiltPrdIssues(v, generatedAt);
    ShortDescription(v.history);
  }
}
