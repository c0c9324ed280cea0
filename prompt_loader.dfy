/**
 * The expert role card loader (`PromptLoader`): the line-by-line Markdown
 * section parser and the per-type default tables it falls back on.
 *
 * Reading the card file is an input: `LoadExpertCard` receives the file's
 * text, or `None` when the file is missing or unreadable.
 */
module PromptLoader {
  import opened Text
  import opened Types

  // ---------------------------------------------------------------------------
  // Default tables
  // ---------------------------------------------------------------------------

  /** `getExpertName`: the display name of a known expert type, else the plain adviser. */
  function ExpertName(expertType: string): (r: string)
    ensures r != ""
    ensures r == "项目顾问" <==> expertType !in KnownTypeTags
  {
    match expertType
    case "saas" => "SaaS产品顾问"
    case "ecommerce" => "电商平台专家"
    case "blog" => "博客平台顾问"
    case "portfolio" => "作品集网站专家"
    case "landing_page" => "营销页面专家"
    case "generic" => "通用项目顾问"
    case _ => "项目顾问"
  }

  /** `getDefaultDescription`: an unknown type gets the generic description. */
  function DefaultDescription(expertType: string): (r: string)
    ensures r != ""
  {
    match expertType
    case "saas" => "您好！我是专门负责 SaaS 产品的顾问。我擅长多租户架构、订阅制计费和用户权限管理，会帮助您设计可扩展的SaaS解决方案。"
    case "ecommerce" => "您好！我是电商平台专家。我专注于在线零售、支付网关集成、库存和订单管理，会为您打造完整的电商解决方案。"
    case "blog" => "您好！我是博客平台顾问。我专长于内容管理、SEO优化和社区互动，会帮您构建优秀的内容发布平台。"
    case "portfolio" => "您好！我是作品集网站专家。我专注于视觉表现力、加载性能和用户转化率，会为您打造令人印象深刻的个人品牌网站。"
    case "landing_page" => "您好！我是营销页面专家。我专注于用户转化、A/B测试和营销效果优化，会帮您创建高转化率的营销页面。"
    case _ => GenericDescription
  }

  const GenericDescription := "您好！我是您的项目顾问。我会根据您的具体需求，为您推荐最适合的技术方案和实现路径。"

  /** `getDefaultOpeningQuestions`: five typed tables; `generic` and unknown types share the fallback list. */
  function DefaultOpeningQuestions(expertType: string): (r: seq<string>)
    ensures |r| == 3
  {
    match expertType
    case "saas" => ["您的SaaS产品主要解决什么核心问题？", "目标用户是个人用户还是企业客户？", "计划采用什么样的订阅模式？"]
    case "ecommerce" => ["您计划销售什么类型的商品？", "需要支持哪些支付方式？", "是否需要库存管理功能？"]
    case "blog" => ["这个博客的主要内容方向是什么？", "希望支持多作者协作吗？", "需要什么样的评论和互动功能？"]
    case "portfolio" => ["这个作品集主要展示什么类型的作品？", "希望实现什么样的视觉效果？", "需要哪些联系和互动功能？"]
    case "landing_page" => ["这个页面要推广什么产品或服务？", "主要的转化目标是什么？", "目标用户群体有什么特征？"]
    case _ => ["请详细描述一下您的项目想法", "这个项目的主要目标用户是谁？", "您希望实现哪些核心功能？"]
  }

  /** `getDefaultCoreTopics` */
  function DefaultCoreTopics(expertType: string): (r: seq<string>)
    ensures |r| == 4 || |r| == 5
  {
    match expertType
    case "saas" => ["订阅模式", "用户权限", "多租户架构", "计费系统", "用户仪表板"]
    case "ecommerce" => ["商品管理", "购物车", "支付流程", "订单管理", "库存系统"]
    case "blog" => ["内容管理", "文章编辑器", "评论系统", "分类标签", "SEO优化"]
    case "portfolio" => ["作品展示", "联系表单", "响应式设计", "加载优化", "视觉效果"]
    case "landing_page" => ["转化优化", "表单设计", "行为追踪", "A/B测试", "营销集成"]
    case _ => ["功能需求", "技术选型", "用户体验", "性能优化"]
  }

  /** `getDefaultClarificationTemplates`: the same four templates for every type. */
  const DefaultClarificationTemplates: seq<string> := [
    "关于{}功能，您希望如何实现？",
    "在{}方面，您有什么特殊要求吗？",
    "对于{}，您更倾向于哪种方案？",
    "{}的优先级如何？是核心功能还是可选功能？"
  ]

  /** `getDefaultCompletionCriteria` */
  const DefaultCompletionCriteria: seq<string> := [
    "项目类型和目标明确", "核心功能需求清晰", "技术栈选择确定", "约束条件了解清楚", "用户群体定义明确"
  ]

  /** `getDefaultTechStack` */
  function DefaultTechStack(expertType: string): (r: seq<string>)
    ensures "TypeScript" in r
  {
    match expertType
    case "saas" => ["Next.js", "TypeScript", "PostgreSQL", "Prisma", "Stripe", "NextAuth.js"]
    case "ecommerce" => ["Next.js", "TypeScript", "PostgreSQL", "Stripe", "Tailwind CSS"]
    case "blog" => ["Astro", "Markdown", "TypeScript", "Tailwind CSS"]
    case "portfolio" => ["Next.js", "TypeScript", "Tailwind CSS", "Framer Motion"]
    case "landing_page" => ["Next.js", "TypeScript", "Tailwind CSS", "Analytics"]
    case _ => ["React", "TypeScript", "Tailwind CSS", "Next.js"]
  }

  /** `getDefaultFeatures` */
  function DefaultFeatures(expertType: string): (r: seq<string>)
    ensures |r| == 3 || |r| == 5
  {
    match expertType
    case "saas" => ["用户认证", "订阅管理", "用户仪表板", "团队协作", "数据分析"]
    case "ecommerce" => ["商品展示", "购物车", "支付处理", "订单管理", "用户账户"]
    case "blog" => ["文章发布", "分类管理", "评论系统", "搜索功能", "RSS订阅"]
    case "portfolio" => ["作品展示", "项目详情", "联系表单", "响应式设计", "性能优化"]
    case "landing_page" => ["产品介绍", "特性展示", "客户证言", "行为追踪", "转化优化"]
    case _ => ["用户界面", "数据管理", "基础功能"]
  }

  /** `getDefaultBestPractices` */
  const DefaultBestPractices: seq<string> := [
    "SEO友好的URL结构", "响应式设计确保移动端体验", "性能优化和快速加载",
    "安全性考虑和数据保护", "用户体验和可访问性", "代码可维护性和测试覆盖"
  ]

  /** `getDefaultPitfalls` */
  const DefaultPitfalls: seq<string> := [
    "过度设计导致复杂性增加", "忽略性能优化影响用户体验", "技术选型不当增加开发成本",
    "缺乏测试导致质量问题", "忽略安全性留下漏洞", "不考虑扩展性限制未来发展"
  ]

  function ExpertId(expertType: string): string {
    "expert_" + expertType
  }

  /** `createFallbackExpert`: a card made of the default tables only. */
  function FallbackExpert(expertType: string): (r: ExpertRoleCard)
    ensures r.id == ExpertId(expertType) && r.projectTag == expertType
  {
    ExpertRoleCard(
      ExpertId(expertType),
      ExpertName(expertType),
      expertType,
      DefaultDescription(expertType),
      ConversationFlow(
        DefaultOpeningQuestions(expertType), DefaultCoreTopics(expertType),
        DefaultClarificationTemplates, DefaultCompletionCriteria),
      KnowledgeBase(DefaultTechStack(expertType), DefaultFeatures(expertType), DefaultBestPractices, DefaultPitfalls))
  }

  // ---------------------------------------------------------------------------
  // The section parser, as a specification
  // ---------------------------------------------------------------------------

  /** The eight lists a card file can fill. */
  datatype CardList = Opening | CoreTopics | Clarification | Completion | TechStack | Features | Practices | Pitfalls

  datatype CardLists = CardLists(
    opening: seq<string>, coreTopics: seq<string>, clarification: seq<string>, completion: seq<string>,
    techStack: seq<string>, features: seq<string>, practices: seq<string>, pitfalls: seq<string>)

  const NoLists := CardLists([], [], [], [], [], [], [], [])

  function ListOf(c: CardLists, l: CardList): seq<string> {
    match l
    case Opening => c.opening
    case CoreTopics => c.coreTopics
    case Clarification => c.clarification
    case Completion => c.completion
    case TechStack => c.techStack
    case Features => c.features
    case Practices => c.practices
    case Pitfalls => c.pitfalls
  }

  /** Appends `item` to list `l` and leaves the seven others as they are. */
  function Push(c: CardLists, l: CardList, item: string): (r: CardLists)
    ensures ListOf(r, l) == ListOf(c, l) + [item]
    ensures forall m :: m != l ==> ListOf(r, m) == ListOf(c, m)
  {
    match l
    case Opening => c.(opening := c.opening + [item])
    case CoreTopics => c.(coreTopics := c.coreTopics + [item])
    case Clarification => c.(clarification := c.clarification + [item])
    case Completion => c.(completion := c.completion + [item])
    case TechStack => c.(techStack := c.techStack + [item])
    case Features => c.(features := c.features + [item])
    case Practices => c.(practices := c.practices + [item])
    case Pitfalls => c.(pitfalls := c.pitfalls + [item])
  }

  function TotalItems(c: CardLists): nat {
    |c.opening| + |c.coreTopics| + |c.clarification| + |c.completion|
    + |c.techStack| + |c.features| + |c.practices| + |c.pitfalls|
  }

  /** A section whose items form the description rather than a list. */
  predicate IsDescriptionSection(section: string) {
    Contains(section, "专长") || Contains(section, "描述")
  }

  /** The list a section's items go to: the first keyword test that holds, in the fixed order. */
  function Route(section: string): Option<CardList> {
    if Contains(section, "开场") || Contains(section, "问题") then Some(Opening)
    else if Contains(section, "核心") || Contains(section, "主题") then Some(CoreTopics)
    else if Contains(section, "澄清") then Some(Clarification)
    else if Contains(section, "完成") || Contains(section, "标准") then Some(Completion)
    else if Contains(section, "技术") || Contains(section, "栈") then Some(TechStack)
    else if Contains(section, "功能") then Some(Features)
    else if Contains(section, "实践") then Some(Practices)
    else if Contains(section, "避免") || Contains(section, "陷阱") then Some(Pitfalls)
    else None
  }

  /** The parser's variables between two lines. */
  datatype ParseState = ParseState(name: string, description: string, section: string, lists: CardLists)

  /** The name a card starts with: the upper-cased type followed by ` 专家`. */
  function InitialName(expertType: string): string {
    Upper(expertType) + " 专家"
  }

  function InitialState(expertType: string): ParseState {
    ParseState(InitialName(expertType), "", "", NoLists)
  }

  predicate IsItemLine(t: string) {
    StartsWith(t, "- ") || StartsWith(t, "* ")
  }

  /** What one line does to the parser's variables. */
  function Step(st: ParseState, line: string): ParseState {
    StepTrimmed(st, Trim(line))
  }

  /** What one line does, given the line with its surrounding white space removed. */
  function StepTrimmed(st: ParseState, t: string): ParseState {
    if StartsWith(t, "# ") && !Contains(st.name, "专家") then
      st.(name := Trim(t[2..]))
    else if StartsWith(t, "## ") then
      st.(section := Lower(t[3..]))
    else StepBody(st, t)
  }

  /** A line that is neither a title nor a section header: description text, a list item, or nothing. */
  function StepBody(st: ParseState, t: string): ParseState {
    if IsDescriptionSection(st.section) then
      if t != "" && !StartsWith(t, "#") then st.(description := st.description + t + "\n") else st
    else if IsItemLine(t) then
      var route := Route(st.section);
      if route.Some? then st.(lists := Push(st.lists, route.value, Trim(t[2..]))) else st
    else st
  }

  /** The parser's variables after the given lines, in order. */
  function Fold(lines: seq<string>, st: ParseState): ParseState {
    if lines == [] then st else Step(Fold(lines[..|lines| - 1], st), lines[|lines| - 1])
  }

  /** The card built from the variables at the end: every empty field takes its default. */
  function CardOf(st: ParseState, expertType: string): (r: ExpertRoleCard)
    ensures r.id == ExpertId(expertType) && r.projectTag == expertType
    ensures r.description != ""
    ensures r.flow.openingQuestions != [] && r.flow.coreTopics != []
    ensures r.flow.clarificationTemplates != [] && r.flow.completionCriteria != []
    ensures r.knowledge.recommendedTechStack != [] && r.knowledge.commonFeatures != []
    ensures r.knowledge.bestPractices != [] && r.knowledge.pitfallsToAvoid != []
  {
    var c := st.lists;
    var description := Trim(st.description);
    ExpertRoleCard(
      ExpertId(expertType),
      Trim(st.name),
      expertType,
      if description != "" then description else DefaultDescription(expertType),
      ConversationFlow(
        OrDefault(c.opening, DefaultOpeningQuestions(expertType)),
        OrDefault(c.coreTopics, DefaultCoreTopics(expertType)),
        OrDefault(c.clarification, DefaultClarificationTemplates),
        OrDefault(c.completion, DefaultCompletionCriteria)),
      KnowledgeBase(
        OrDefault(c.techStack, DefaultTechStack(expertType)),
        OrDefault(c.features, DefaultFeatures(expertType)),
        OrDefault(c.practices, DefaultBestPractices),
        OrDefault(c.pitfalls, DefaultPitfalls)))
  }

  /** A parsed list, or its default when the file gave it no items. */
  function OrDefault(items: seq<string>, default: seq<string>): (r: seq<string>)
    requires default != []
    ensures r != [] && (items != [] ==> r == items)
  {
    if items != [] then items else default
  }

  /** The card a file's text describes. */
  function ParsedCard(content: string, expertType: string): ExpertRoleCard {
    CardOf(Fold(Split(content, '\n'), InitialState(expertType)), expertType)
  }

  // ---------------------------------------------------------------------------
  // The parser as the source writes it
  // ---------------------------------------------------------------------------

  /** `parseExpertCard`: one pass over the lines, then the card with every empty field defaulted. */
  method ParseExpertCard(content: string, expertType: string) returns (card: ExpertRoleCard)
    ensures card == ParsedCard(content, expertType)
    ensures card.id == ExpertId(expertType)
  {
    var name, description, currentSection, lists := ParseLines(Split(content, '\n'), expertType);
    card := CardOf(ParseState(name, description, currentSection, lists), expertType);
  }

  /** The parser's loop: the lines in order, updating the name, the description, the section and the eight lists. */
  method ParseLines(lines: seq<string>, expertType: string)
    returns (name: string, description: string, currentSection: string, lists: CardLists)
    ensures ParseState(name, description, currentSection, lists) == Fold(lines, InitialState(expertType))
  {
    name := InitialName(expertType);
    description := "";
    currentSection := "";
    lists := NoLists;
    var i := 0;
    while i < |lines|
      invariant 0 <= i <= |lines|
      invariant ParseState(name, description, currentSection, lists) == Fold(lines[..i], InitialState(expertType))
    {
      assert lines[..i + 1][..i] == lines[..i];
      name, description, currentSection, lists := ParseLine(name, description, currentSection, lists, lines[i]);
      i := i + 1;
    }
    assert lines[..|lines|] == lines;
  }

  /** The body of the parser's loop: what one line does to the name, the description, the section and the lists. */
  method ParseLine(name: string, description: string, currentSection: string, lists: CardLists, line: string)
    returns (name': string, description': string, currentSection': string, lists': CardLists)
    ensures ParseState(name', description', currentSection', lists')
      == Step(ParseState(name, description, currentSection, lists), line)
  {
    name', description', currentSection', lists' := name, description, currentSection, lists;
    var trimmedLine := Trim(line);
    if StartsWith(trimmedLine, "# ") && !Contains(name, "专家") {
      name' := Trim(trimmedLine[2..]);
    } else if StartsWith(trimmedLine, "## ") {
      currentSection' := Lower(trimmedLine[3..]);
    } else {
      description', lists' := ParseBodyLine(description, currentSection, lists, trimmedLine);
    }
  }

  /** The body of the parser's loop for a line that is neither a title nor a section header. */
  method ParseBodyLine(description: string, currentSection: string, lists: CardLists, trimmedLine: string)
    returns (description': string, lists': CardLists)
    ensures forall name ::
      (ParseState(name, description', currentSection, lists')
         == StepBody(ParseState(name, description, currentSection, lists), trimmedLine))
  {
    description', lists' := description, lists;
    if IsDescriptionSection(currentSection) {
      if trimmedLine != "" && !StartsWith(trimmedLine, "#") {
        description' := description + trimmedLine + "\n";
      }
    } else if IsItemLine(trimmedLine) {
      var item := Trim(trimmedLine[2..]);
      var route := Route(currentSection);
      if route.Some? {
        lists' := Push(lists, route.value, item);
      }
    }
  }

  /** `loadExpertCard`: the parsed card when the file could be read, else the fallback card. */
  method LoadExpertCard(expertType: string, file: Option<string>) returns (card: ExpertRoleCard)
    ensures file.None? ==> card == FallbackExpert(expertType)
    ensures file.Some? ==> card == ParsedCard(file.value, expertType)
    ensures card.id == ExpertId(expertType) && card.projectTag == expertType
  {
    if file.None? {
      return FallbackExpert(expertType);
    }
    card := ParseExpertCard(file.value, expertType);
  }

  // ---------------------------------------------------------------------------
  // What the parser promises
  // ---------------------------------------------------------------------------

  lemma InitialNameHasExpert(expertType: string)
    ensures Contains(InitialName(expertType), "专家")
  {
    var u := Upper(expertType);
    var s := InitialName(expertType);
    assert s == (u + " ") + "专家";
    assert s[|u + " "|..] == "专家";
    ContainsAt(s, "专家", |u| + 1);
  }

  /** Once the name holds `专家`, no line changes it: the `# ` title branch can never fire. */
  lemma {:induction false} FoldKeepsName(lines: seq<string>, st: ParseState)
    requires Contains(st.name, "专家")
    ensures Fold(lines, st).name == st.name
    decreases |lines|
  {
    if lines != [] {
      FoldKeepsName(lines[..|lines| - 1], st);
    }
  }

  /** The parsed name is the trimmed initial name, whatever the file says. */
  lemma ParsedName(content: string, expertType: string)
    ensures ParsedCard(content, expertType).name == Trim(InitialName(expertType))
  {
    InitialNameHasExpert(expertType);
    FoldKeepsName(Split(content, '\n'), InitialState(expertType));
  }

  /** The trimmed initial name ends with `专家`. */
  lemma TrimmedInitialName(expertType: string)
    ensures var name := Trim(InitialName(expertType));
      |name| >= 2 && name[|name| - 2..] == "专家"
  {
    var s := InitialName(expertType);
    assert s == (Upper(expertType) + " ") + "专家";
    assert s[|s| - 2] == '专' && s[|s| - 1] == '家';
    var u := TrimStart(s);
    assert |u| >= 2 by {
      assert !IsSpace(s[|s| - 2]);
    }
    assert u[|u| - 2..] == s[|s| - 2..];
    assert TrimEnd(u) == u by {
      assert !IsSpace(u[|u| - 1]);
    }
  }

  /** For a type tag without white space, trimming leaves the initial name as it is. */
  lemma UntrimmedInitialName(expertType: string)
    requires expertType != "" && NoSpace(expertType)
    ensures Trim(InitialName(expertType)) == InitialName(expertType)
  {
    var s := InitialName(expertType);
    assert s == (Upper(expertType) + " ") + "专家";
    assert s[|s| - 1] == '家';
    assert !IsSpace(s[|s| - 1]);
    assert !IsSpace(expertType[0]);
    assert !IsSpace(s[0]) by {
      assert s[0] == Upper(expertType)[0];
    }
    TrimKeepsInner(s);
  }

  /**
   * The parsed name is always the trimmed initial name, whatever the file
   * says, and it ends with `专家`; for a type tag without white space it is
   * exactly the upper-cased tag followed by ` 专家`.
   */
  lemma CardName(content: string, expertType: string)
    ensures var name := ParsedCard(content, expertType).name;
      |name| >= 2 && name[|name| - 2..] == "专家"
    ensures expertType != "" && NoSpace(expertType) ==>
      ParsedCard(content, expertType).name == Upper(expertType) + " 专家"
  {
    ParsedName(content, expertType);
    TrimmedInitialName(expertType);
    if expertType != "" && NoSpace(expertType) {
      UntrimmedInitialName(expertType);
    }
  }

  /** A `## ` line only switches the section, to the lower-cased rest of the line. */
  lemma HeadingOnlySwitchesSection(st: ParseState, t: string)
    requires StartsWith(t, "## ")
    ensures StepTrimmed(st, t) == st.(section := Lower(t[3..]))
  {
    assert t[..3][1] == '#';
    assert !StartsWith(t, "# ") by { assert t[..2][1] == t[1]; }
  }

  /** Inside a description section a line touches no list: a non-empty line not starting with `#` is appended to the description. */
  lemma DescriptionSectionTouchesNoList(st: ParseState, t: string)
    requires Contains(st.name, "专家") && IsDescriptionSection(st.section) && !StartsWith(t, "## ")
    ensures StepTrimmed(st, t).lists == st.lists && StepTrimmed(st, t).section == st.section
    ensures StepTrimmed(st, t).description ==
      if t != "" && !StartsWith(t, "#") then st.description + t + "\n" else st.description
  {
  }

  /**
   * Outside description sections an item line goes to exactly the list its
   * section routes to, and to no other; in a section that routes nowhere it
   * is dropped.
   */
  lemma ItemGoesToOneList(st: ParseState, t: string)
    requires Contains(st.name, "专家") && !IsDescriptionSection(st.section)
    requires IsItemLine(t) && !StartsWith(t, "## ")
    ensures var r := Route(st.section);
      r.Some? ==> StepTrimmed(st, t).lists == Push(st.lists, r.value, Trim(t[2..]))
    ensures Route(st.section).None? ==> StepTrimmed(st, t) == st
    ensures StepTrimmed(st, t).description == st.description
  {
  }

  /** Whether a section heading contains one of the keywords of list `l`. */
  predicate Names(section: string, l: CardList) {
    match l
    case Opening => Contains(section, "开场") || Contains(section, "问题")
    case CoreTopics => Contains(section, "核心") || Contains(section, "主题")
    case Clarification => Contains(section, "澄清")
    case Completion => Contains(section, "完成") || Contains(section, "标准")
    case TechStack => Contains(section, "技术") || Contains(section, "栈")
    case Features => Contains(section, "功能")
    case Practices => Contains(section, "实践")
    case Pitfalls => Contains(section, "避免") || Contains(section, "陷阱")
  }

  /**
   * The lists are tried in a fixed order: a section goes to the first list
   * whose keywords it names, and a section naming none routes nowhere.
   */
  lemma RouteOrder(section: string)
    ensures Route(section) == Some(Opening) <==> Names(section, Opening)
    ensures Route(section) == Some(CoreTopics) <==> !Names(section, Opening) && Names(section, CoreTopics)
    ensures Route(section) == Some(Clarification) <==>
      !Names(section, Opening) && !Names(section, CoreTopics) && Names(section, Clarification)
    ensures Route(section) == Some(Completion) <==>
      !Names(section, Opening) && !Names(section, CoreTopics) && !Names(section, Clarification) && Names(section, Completion)
    ensures Route(section) == Some(TechStack) <==>
      !Names(section, Opening) && !Names(section, CoreTopics) && !Names(section, Clarification) && !Names(section, Completion)
      && Names(section, TechStack)
    ensures Route(section) == Some(Features) <==>
      !Names(section, Opening) && !Names(section, CoreTopics) && !Names(section, Clarification) && !Names(section, Completion)
      && !Names(section, TechStack) && Names(section, Features)
    ensures Route(section) == Some(Practices) <==>
      !Names(section, Opening) && !Names(section, CoreTopics) && !Names(section, Clarification) && !Names(section, Completion)
      && !Names(section, TechStack) && !Names(section, Features) && Names(section, Practices)
    ensures Route(section) == Some(Pitfalls) <==>
      !Names(section, Opening) && !Names(section, CoreTopics) && !Names(section, Clarification) && !Names(section, Completion)
      && !Names(section, TechStack) && !Names(section, Features) && !Names(section, Practices) && Names(section, Pitfalls)
    ensures Route(section).None? <==>
      !Names(section, Opening) && !Names(section, CoreTopics) && !Names(section, Clarification) && !Names(section, Completion)
      && !Names(section, TechStack) && !Names(section, Features) && !Names(section, Practices) && !Names(section, Pitfalls)
  {
  }

  /** Each line adds at most one list item. */
  lemma {:induction false} ItemsBoundedByLines(lines: seq<string>, st: ParseState)
    ensures TotalItems(Fold(lines, st).lists) <= TotalItems(st.lists) + |lines|
    decreases |lines|
  {
    if lines != [] {
      ItemsBoundedByLines(lines[..|lines| - 1], st);
      StepAddsAtMostOne(Fold(lines[..|lines| - 1], st), Trim(lines[|lines| - 1]));
    }
  }

  /** One trimmed line adds no list item or exactly one. */
  lemma StepAddsAtMostOne(st: ParseState, t: string)
    ensures TotalItems(st.lists) <= TotalItems(StepTrimmed(st, t).lists) <= TotalItems(st.lists) + 1
  {
    if !StartsWith(t, "## ") && !IsDescriptionSection(st.section) && IsItemLine(t) && Route(st.section).Some? {
      PushAddsOne(st.lists, Route(st.section).value, Trim(t[2..]));
    }
  }

  /** Pushing an item grows the total by one. */
  lemma PushAddsOne(c: CardLists, l: CardList, item: string)
    ensures TotalItems(Push(c, l, item)) == TotalItems(c) + 1
  {
    match l
    case Opening =>
    case CoreTopics =>
    case Clarification =>
    case Completion =>
    case TechStack =>
    case Features =>
    case Practices =>
    case Pitfalls =>
  }

  /** A card file with no usable line gives the fallback card, except for the name. */
  lemma EmptyFileIsFallback(expertType: string)
    ensures ParsedCard("", expertType) == FallbackExpert(expertType).(name := Trim(InitialName(expertType)))
  {
    EmptyFileParsesToNothing(expertType);
    InitialCard(expertType);
  }

  /** The empty text is one empty line, which leaves the parser's variables as they started. */
  lemma EmptyFileParsesToNothing(expertType: string)
    ensures Fold(Split("", '\n'), InitialState(expertType)) == InitialState(expertType)
  {
    var init := InitialState(expertType);
    assert Split("", '\n') == [""];
    assert Fold([""], init) == Step(init, "");
    assert Trim("") == "";
    assert !IsDescriptionSection("") by {
      NotContainsByChar("", "专长", 0);
      NotContainsByChar("", "描述", 0);
    }
    assert StepTrimmed(init, "") == init;
  }

  /** With nothing parsed, every field but the name takes its default. */
  lemma InitialCard(expertType: string)
    ensures CardOf(InitialState(expertType), expertType) == FallbackExpert(expertType).(name := Trim(InitialName(expertType)))
  {
    assert Trim("") == "";
  }
}
