# SpecSprite requirements engine in Dafny

SpecSprite is an MCP server. It interviews a user about a software project
and produces a Product Requirements Document (PRD). This project models its
deterministic core and proves properties of it:

- **The conversation manager** (`Conversation`, `conversation.dfy`). It is a
  class holding the session store as a `map<string, Session>`. It finds or
  creates sessions with a 30-minute idle timeout. It records turns, keeping
  the last 50. It merges intent analyses, extracts preferences from keyword
  tables, computes the readiness score and the readiness analysis, generates
  clarification questions, renders the session summary and sweeps expired
  sessions.
- **The PRD builder** (`PrdBuilder`, `prd_builder.dfy`). These are pure
  functions from a session snapshot to the PRD, plus the validator. The
  functions cover the project-name patterns, the description, the key-feature
  list, the tech-stack choices, the feature flags, the specifications, the
  next steps, and the metadata and its confidence.
- **The expert card loader** (`PromptLoader`, `prompt_loader.dfy`). It holds
  the per-type default tables, the fallback card, and the line-by-line
  Markdown parser of `parseExpertCard`. The parser is an imperative loop
  proved against a fold of a one-line step function.
- **The LLM client's decision logic** (`LlmClient`, `llm_client.dfy`). It
  tries three host transports in a fixed order and then the OpenAI leg,
  keeping an attempt log. It also holds the three reply parsers with their
  defaults and keyword fallbacks, and the confidence estimate.
- **The orchestrator** (`Service`, `service.dfy`). It loads expert cards,
  selects the expert, classifies intent and extends it with local keyword
  classifiers, and decides between generating the PRD and continuing the
  conversation. It also holds `processUserInput` end to end.

The data shapes live in `Types` (`types.dfy`). A session is a class because
the store hands it out by reference and every step updates it in place.
`Text` (`text.dfy`) holds the string helpers the source takes from
JavaScript: `includes`, `trim`, `toLowerCase`, `split`, `join` and
`slice(-n)`.

Everything outside the process enters as a parameter:

- The current time is `now`, in milliseconds.
- Session and turn ids are given to each request (`RequestIds`).
- The content of each expert card file is `Option<string>`, and it is `None`
  when the file is missing.
- Each host's behaviour on one request is a `Host` value: for every
  transport, whether the function is missing, fails or succeeds with a reply.
- "The reply contains a JSON object that parses" is a function from the reply
  text to an optional record of the fields read.

A project type is one of the six declared tags, or `Unlisted(tag)`. The
classifier's answer is cast to the type without a check, so a session can
carry any non-empty tag. `Types.TypeTagRoundTrip` shows that tags and values
correspond one to one.

Where the documented behaviour and the code disagree, the model
follows the code:

- The PRD's environment block is empty (no variables, no secrets).
- An expired session found by id is replaced by a new session under a fresh
  id. The expired entry stays in the store until a sweep removes it.
- The word `个人` ("personal") sets the target audience to `individual`.
- A blog project is always asked how its content is managed, because the
  question waits for a feature tag `cms` that no extractor produces
  (`Conversation.BlogAlwaysAsksContentManagement`).
- A completed session is not closed. Later input continues it like any other
  session.
- The card parser's `# ` title branch never fires. Its guard asks that the
  current name does not contain `专家`, and the initial name always contains
  it. A card's name is therefore always the type in upper case followed by
  ` 专家`, whatever the file says (`PromptLoader.CardName`).
- The `catch` in `loadExpertRoleCards` that installs the built-in card cannot
  be reached, because `loadExpertCard` never throws. The built-in card
  matters only if no `generic` card is loaded.

## Model

| member | source | states |
|---|---|---|
| Types.TypeFromTag | src/core/types.ts:8 | reading a tag gives `Unlisted` exactly when the tag is not one of the six declared project types |
| Types.TypeTagRoundTrip | src/core/types.ts:8 | tag to type and type to tag are inverse in both directions, so a session's type and its tag carry the same information |
| Types.ConstraintKeyCount | src/core/types.ts:119-126 | the constraint record has at most four keys (budget, timeline, team size, complexity preference) |
| Types.Session.constructor | src/core/conversation-manager.ts:328-350 | a new session has no turns, an empty context, no expert, status active, score 0, and starts and was last active at `now` |
| Conversation.MergeSpec | src/core/conversation-manager.ts:107-111 | the push-unless-present merge keeps the old list as a prefix; an element is in the result iff it was in the list or in the input; no duplicates are introduced; new elements come from the input and appear in the order of their first occurrence there |
| Conversation.CalculateReadinessScore | src/core/conversation-manager.ts:360-387 | the readiness score always lies in 0..100 |
| Conversation.ScoreMonotone | src/core/conversation-manager.ts:360-387 | the score never drops when the type becomes known, or when features, turns, tech preferences, constraint keys or preference keys grow |
| Conversation.ScoreFull | src/core/conversation-manager.ts:360-387 | with a known type, 5 features, 7 turns, 3 tech preferences, 4 constraint keys and 3 preference keys, the score is exactly 100 |
| Conversation.ScoreWithOnePreference | src/core/conversation-manager.ts:381-384 | with at most one preference key the score cannot exceed 97, because that term contributes at most 2 of its 5 points |
| Conversation.UserTurns | src/core/conversation-manager.ts:390 | the filtered turns are exactly the user turns of the history |
| Conversation.AssessInputQuality | src/core/conversation-manager.ts:389-397 | the input is of quality iff there are user turns, their average length exceeds 20, and some user turn is longer than 50 |
| Conversation.LongUserTurnsAreQuality | src/core/conversation-manager.ts:389-397 | a non-empty history of user turns that are all longer than 50 is always of quality |
| Conversation.OpenGaps | src/core/conversation-manager.ts:215-233 | a gap is reported iff its condition holds; gaps come in the order type, features, tech, audience |
| Conversation.AnalyzeReadiness | src/core/conversation-manager.ts:192-242 | completeness is 20 per met requirement and lies in 0..100; confidence equals completeness; ready iff completeness ≥ 70 and score ≥ 75; the missing-information labels and the questions correspond one to one with the open gaps, in order |
| Conversation.AudienceQuestionIff | src/core/conversation-manager.ts:228-231 | the audience question is asked iff features were detected and no non-empty target audience is recorded |
| Conversation.FullyCompleteSession | src/core/conversation-manager.ts:197-209 | when all five requirements hold, completeness is 100 and readiness depends on the score alone |
| Conversation.ReadyMeansFourRequirements | src/core/conversation-manager.ts:205-209 | a ready session meets at least four of the five requirements, so its confidence is at least 80 |
| Conversation.GenerateClarificationQuestions | src/core/conversation-manager.ts:247-282 | at most two questions: the type-specific ones first, then the generic ones, cut at two |
| Conversation.GenericQuestionsOnlyAfterTypeSpecific | src/core/conversation-manager.ts:247-282 | two type-specific questions leave no room for generic ones; with no type-specific question the generic ones are returned as they are |
| Conversation.BlogAlwaysAsksContentManagement | src/core/conversation-manager.ts:266-270 | for a blog without a `cms` feature, the first question is always the content-management one |
| Conversation.NextProjectType | src/core/conversation-manager.ts:102-104 | the type changes only to a non-generic type reported with confidence above 70, and such a report always sets it |
| Conversation.ApplyIntent | src/core/conversation-manager.ts:95-112 | merging an intent extends the features without duplicates or loss, sets the type by the confidence rule, and leaves the other context fields unchanged |
| Conversation.MatchedLabels | src/core/conversation-manager.ts:127-155 | a label is matched iff some keyword of the table with that label occurs in the text |
| Conversation.LastMatch | src/core/conversation-manager.ts:182-186 | the audience is none iff no keyword occurs; otherwise it is the label of the last keyword that occurs, because later entries overwrite earlier ones |
| Conversation.ApplyConstraintPhrases | src/core/conversation-manager.ts:158-169 | each constraint is set by its two trigger phrases and otherwise kept; constraint keys are never lost |
| Conversation.ExtractPreferences | src/core/conversation-manager.ts:122-187 | tech preferences are extended, without duplicates, exactly by the labels of the keywords found in the lower-cased input; constraints and audience follow their tables; no preference key is lost; type and features are untouched |
| Conversation.ExtractionNeverLowersScore | src/core/conversation-manager.ts:122-187 | extracting preferences never lowers the readiness score |
| Conversation.SessionSummary | src/core/conversation-manager.ts:287-301 | the trimmed summary is exactly the header, the field lines and the status label, so `trim` removes only the template's surrounding layout |
| Conversation.Sweep | src/core/conversation-manager.ts:306-324 | a sweep keeps exactly the entries that are not expired, with their values |
| Conversation.SweepIdempotent | src/core/conversation-manager.ts:306-324 | after a sweep nothing is expired, and a second sweep at the same time changes nothing |
| Conversation.SweepCount | src/core/conversation-manager.ts:306-324 | kept plus expired entries add up to all entries, and every live entry is kept |
| Conversation.ConversationManager.constructor | src/core/conversation-manager.ts:18 | a new manager has an empty store |
| Conversation.ConversationManager.GetOrCreateSession | src/core/conversation-manager.ts:25-43 | a known, unexpired id returns that session with only its last activity refreshed; otherwise a fresh session is stored under the fresh id, and an expired entry stays in the store unchanged; either way the session handed out is `Start`, the resumed view with its activity refreshed or the fresh view |
| Conversation.ConversationManager.CreateNewSession | src/core/conversation-manager.ts:328-350 | a fresh, empty, active session is stored under the new id and nothing else in the store changes |
| Conversation.ConversationManager.RecordUserInput | src/core/conversation-manager.ts:48-68 | the user turn is appended, the history is cut to its last 50 turns, the new turn is last, and only the history and last activity change: the new session is `Recorded` of the old one |
| Conversation.ConversationManager.RecordAssistantResponse | src/core/conversation-manager.ts:73-90 | the assistant turn with its metadata is appended and only the history and last activity change |
| Conversation.ConversationManager.UpdateAccumulatedContext | src/core/conversation-manager.ts:95-117 | the context becomes the merged intent, the score is recomputed from the new context and history, and nothing else changes: the new session is `Classified` of the old one |
| Conversation.ConversationManager.ExtractUserPreferences | src/core/conversation-manager.ts:122-187 | the context becomes the extracted preferences and nothing else changes: the new session is `Extracted` of the old one |
| Conversation.FreshViewKeepsInvariant | src/core/conversation-manager.ts:328-350 | a new session satisfies the session invariant |
| Conversation.RecordedKeepsInvariant | src/core/conversation-manager.ts:48-68 | recording a user turn keeps the invariant and leaves at most 50 turns |
| Conversation.ExtractedKeepsInvariant | src/core/conversation-manager.ts:122-187 | extracting preferences keeps the invariant and the history |
| Conversation.ClassifiedKeepsInvariant | src/core/conversation-manager.ts:95-117 | merging an intent keeps the invariant and the history |
| Conversation.ConversationManager.MatchTechKeywords | src/core/conversation-manager.ts:149-155 | the table loop appends, each once, the labels of the matching keywords to the tech preferences |
| Conversation.ConversationManager.MatchAudienceKeywords | src/core/conversation-manager.ts:182-186 | the table loop records the label of the last matching audience keyword, if any |
| Conversation.ConversationManager.GetSessionSummary | src/core/conversation-manager.ts:287-301 | the summary is null iff the id is unknown, and is otherwise the session's summary |
| Conversation.ConversationManager.CleanupExpiredSessions | src/core/conversation-manager.ts:306-324 | exactly the expired sessions are deleted, the others keep their entries, and the count returned is the number deleted |
| PrdBuilder.CaptureAt | src/utils/prd-builder.ts:284-288 | a capture after a keyword and separators is a non-empty run of word characters that occurs in the input |
| PrdBuilder.LeftmostMatch | src/utils/prd-builder.ts:284-288 | the regular expression's match starts at the leftmost position where a keyword is followed by a capture, and no earlier position matches |
| PrdBuilder.SearchFrom | src/utils/prd-builder.ts:284-288 | a pattern yields a capture iff it has a leftmost match |
| PrdBuilder.LeadingIdentifier | src/utils/prd-builder.ts:287 | the third pattern captures an identifier prefix starting with a letter, and captures nothing iff the input is empty or does not start with a letter |
| PrdBuilder.NameFromInputSpec | src/utils/prd-builder.ts:282-296 | an input yields a name iff one of the three patterns captures more than one character; the patterns are tried in order, so the name is the first accepted capture (the first pattern beats the second, the second beats the third); the name occurs in the input and is already trimmed |
| PrdBuilder.ExtractProjectName | src/utils/prd-builder.ts:278-300 | there is no name iff no user turn yields one; a name has more than one character |
| PrdBuilder.ExtractProjectNameIsFirst | src/utils/prd-builder.ts:278-300 | the name is the one from the first user turn that yields a name |
| PrdBuilder.ProjectName | src/utils/prd-builder.ts:35 | the PRD name is the extracted name when a turn yields one and `MyProject` otherwise; it has more than one character |
| PrdBuilder.FirstLong | src/utils/prd-builder.ts:306 | the chosen input is the first one longer than 20 characters, and there is none iff all inputs are short |
| PrdBuilder.ExtractProjectDescription | src/utils/prd-builder.ts:302-319 | at most 203 characters; the default text without user input; otherwise exactly the first input longer than 20 characters, cut to its first 200 characters plus `...` when longer than 200, or the first input when all are short |
| PrdBuilder.ShortDescription | src/utils/prd-builder.ts:302-319 | the description is shorter than 10 characters iff all inputs are short and the first is shorter than 10 |
| PrdBuilder.KnownDescriptions | src/utils/prd-builder.ts:326-342 | every detected feature with a description contributes it, and every entry is the description of a detected feature; only the eight known descriptions appear, at most one per detected feature |
| PrdBuilder.KnownDescriptionsInOrder | src/utils/prd-builder.ts:326-342 | the descriptions of a concatenation of tag lists are those of each part in turn, so the descriptions keep the detection order of their tags |
| PrdBuilder.KnownDescriptionsOfOne | src/utils/prd-builder.ts:326-342 | a single tag contributes its own description, or nothing when it has none |
| PrdBuilder.PadToThree | src/utils/prd-builder.ts:361-365 | the list is extended to at least three entries by appending the fillers, and a list of three or more is unchanged |
| PrdBuilder.BuildKeyFeaturesList | src/utils/prd-builder.ts:321-368 | between 3 and 8 features, beginning with the known descriptions in detection order |
| PrdBuilder.TypeDefaultAlwaysAppended | src/utils/prd-builder.ts:345-358 | the type's default feature is always appended, because no known description contains its keyword |
| PrdBuilder.KeyFeaturesWithoutKnownTags | src/utils/prd-builder.ts:321-368 | without known tags, the list is the type default, if any, followed by the fillers |
| PrdBuilder.FirstAllowed | src/utils/prd-builder.ts:373-378 | the choice is the first preference on the allow-list, and there is none iff no preference is on it |
| PrdBuilder.SelectFramework | src/utils/prd-builder.ts:370-391 | the first preference on the framework allow-list when there is one, else the type's default; Astro only for blogs; never empty |
| PrdBuilder.SelectDatabase | src/utils/prd-builder.ts:393-412 | the first preference on the database allow-list when there is one; else PostgreSQL or nothing, and nothing iff the type is neither ecommerce nor SaaS and neither auth nor payment was detected |
| PrdBuilder.SelectUiLibrary | src/utils/prd-builder.ts:414-422 | the first preference on the UI allow-list when there is one, Tailwind CSS otherwise |
| PrdBuilder.SelectDeploymentPlatform | src/utils/prd-builder.ts:424-437 | AWS iff the budget is not low and the type is SaaS or ecommerce; Vercel otherwise |
| PrdBuilder.SelectAdditionalTools | src/utils/prd-builder.ts:439-470 | TypeScript always, without duplicates; each further tool iff its feature or preference is present; no tool outside NextAuth.js, Stripe, Resend, TypeScript and Prisma ORM |
| PrdBuilder.AdditionalToolsOrder | src/utils/prd-builder.ts:439-470 | the push order: the feature tools first, a preferred TypeScript right after them, otherwise TypeScript last |
| PrdBuilder.TypeScriptOnce | src/utils/prd-builder.ts:439-470 | TypeScript occurs exactly once in the tool list |
| PrdBuilder.BuildTechStack | src/utils/prd-builder.ts:173-198 | the stack always has a framework, a deployment platform, an allowed UI library and TypeScript |
| PrdBuilder.BuildFeatureFlags | src/utils/prd-builder.ts:200-214 | each flag iff its tag was detected; auth and admin are also implied by the project type |
| PrdBuilder.RequiresAuth | src/utils/prd-builder.ts:472-474 | true exactly for the tags `saas` and `ecommerce`, and such a type also requires an admin area |
| PrdBuilder.RequiresAdmin | src/utils/prd-builder.ts:476-478 | true exactly for the tags `ecommerce`, `saas` and `blog` |
| PrdBuilder.CuratedSpecs | src/utils/prd-builder.ts:219-225 | one curated specification per detected auth or payment tag: each detected tag with a curated specification contributes it, and every entry is the specification of a detected tag |
| PrdBuilder.CuratedSpecsInOrder | src/utils/prd-builder.ts:219-225 | the curated specifications of a concatenation are those of each part in turn, so they keep the detection order of their tags |
| PrdBuilder.CuratedSpecsOfOne | src/utils/prd-builder.ts:219-225 | a single tag contributes its curated specification, or nothing |
| PrdBuilder.BasicSpecification | src/utils/prd-builder.ts:551-567 | the description starts with the type tag; three requirements, two dependencies and three implementation notes; never equal to a curated specification |
| PrdBuilder.CuratedSpecification | src/utils/prd-builder.ts:507-549 | a curated specification exists exactly for auth and payment |
| PrdBuilder.CountCuratedZero | src/utils/prd-builder.ts:216-234 | no curated specification iff neither auth nor payment was detected |
| PrdBuilder.BuildSpecifications | src/utils/prd-builder.ts:216-234 | one curated specification per auth or payment feature, or the single basic specification of the type when there are none |
| PrdBuilder.BuildNextSteps | src/utils/prd-builder.ts:255-276 | the scaffold step first and the four fixed steps last; the auth and payment steps iff those features were detected |
| PrdBuilder.PaymentPlannedConsistently | src/utils/prd-builder.ts:200-276 | the payment flag, the Stripe tool and the payment step always agree; the auth tool implies the auth flag and step |
| PrdBuilder.InferTargetAudience | src/utils/prd-builder.ts:480-491 | never empty; a type outside the table (an unlisted tag the classifier returned) gets the end-user default |
| PrdBuilder.TargetAudience | src/utils/prd-builder.ts:149-171 | a recorded non-empty target audience wins; without one, the audience inferred from the type (generic when none is set) |
| PrdBuilder.InferScale | src/utils/prd-builder.ts:493-505 | large iff the team has at least 5 people; medium iff not large and the type is SaaS or there are more than 5 features; small iff neither |
| PrdBuilder.BuildProjectInfo | src/utils/prd-builder.ts:149-171 | the type defaults to generic; 3 to 8 key features; an audience; a business model iff one was stated |
| PrdBuilder.PrdConfidence | src/utils/prd-builder.ts:144 | the confidence is the score plus 10, clamped to 60..95, and below 70 iff the score is below 60 |
| PrdBuilder.BuildMetadata | src/utils/prd-builder.ts:139-147 | version 1.0.0, the session id, the name given, a confidence in 60..95 |
| PrdBuilder.BuildEnvironment | src/utils/prd-builder.ts:247-253 | the environment block has no variables and no secrets |
| PrdBuilder.BuildPrd | src/utils/prd-builder.ts:30-69 | the PRD's name, type, description, constraints, environment and confidence come from the session as above, with the shape bounds of each part |
| PrdBuilder.FiredErrors | src/utils/prd-builder.ts:80-102 | an error check is reported iff it fires |
| PrdBuilder.FiredWarnings | src/utils/prd-builder.ts:105-115 | a warning check is reported iff it fires |
| PrdBuilder.PrdErrors | src/utils/prd-builder.ts:80-102 | the errors are exactly the six error checks that fire |
| PrdBuilder.PrdWarnings | src/utils/prd-builder.ts:105-115 | the warnings are exactly the three warning checks that fire |
| PrdBuilder.ValidatePrd | src/utils/prd-builder.ts:74-135 | valid iff no error fires; the messages correspond one to one, in order, with the fired checks |
| PrdBuilder.BuiltPrdIssues | src/utils/prd-builder.ts:30-135 | a built PRD can fail only on a short description and warn only on low confidence (score below 60) |
| PrdBuilder.BuiltPrdValid | src/utils/prd-builder.ts:30-135 | a built PRD is valid iff it is not the case that all user inputs are short and the first is shorter than 10 characters |
| PromptLoader.ExpertName | src/utils/prompt-loader.ts:197-208 | never empty; the plain adviser name exactly for types outside the six |
| PromptLoader.DefaultDescription | src/utils/prompt-loader.ts:210-221 | every type has a non-empty default description |
| PromptLoader.DefaultOpeningQuestions | src/utils/prompt-loader.ts:223-257 | every type has three opening questions |
| PromptLoader.DefaultCoreTopics | src/utils/prompt-loader.ts:259-271 | every type has four or five core topics |
| PromptLoader.DefaultTechStack | src/utils/prompt-loader.ts:292-304 | every type's default stack includes TypeScript |
| PromptLoader.DefaultFeatures | src/utils/prompt-loader.ts:306-318 | every type has three or five default features |
| PromptLoader.FallbackExpert | src/utils/prompt-loader.ts:176-195 | the fallback card carries the id `expert_<type>` and the type |
| PromptLoader.Push | src/utils/prompt-loader.ts:133-153 | an item goes to the end of one list and the seven other lists are untouched |
| PromptLoader.CardOf | src/utils/prompt-loader.ts:156-173 | the finished card has its id and type, and no empty description or list, because every empty field takes its default |
| PromptLoader.OrDefault | src/utils/prompt-loader.ts:156-173 | a parsed list is kept when non-empty and replaced by its default otherwise |
| PromptLoader.ParseExpertCard | src/utils/prompt-loader.ts:92-174 | the parser's result is the card of the fold of the line step over the file's lines |
| PromptLoader.ParseLines | src/utils/prompt-loader.ts:109-154 | after the loop, the parser's variables are the fold of the line step over the lines |
| PromptLoader.ParseLine | src/utils/prompt-loader.ts:110-153 | one iteration of the loop is one line step |
| PromptLoader.ParseBodyLine | src/utils/prompt-loader.ts:124-153 | a body line adds description text in a description section, an item to the section's list, or nothing |
| PromptLoader.LoadExpertCard | src/utils/prompt-loader.ts:25-46 | a missing file gives the fallback card, an existing one the parsed card; either carries the id and type |
| PromptLoader.FoldKeepsName | src/utils/prompt-loader.ts:113-116 | once the name contains `专家`, no line changes it |
| PromptLoader.ParsedName | src/utils/prompt-loader.ts:96-116 | the parsed name is always the trimmed initial name |
| PromptLoader.CardName | src/utils/prompt-loader.ts:96-116 | every parsed name ends in `专家`, and for a plain type tag it is the upper-cased type followed by ` 专家` |
| PromptLoader.HeadingOnlySwitchesSection | src/utils/prompt-loader.ts:119-122 | a `## ` line only switches the section, to its lower-cased title |
| PromptLoader.DescriptionSectionTouchesNoList | src/utils/prompt-loader.ts:125-130 | in a description section, non-empty non-heading text is appended with a newline and no list changes |
| PromptLoader.ItemGoesToOneList | src/utils/prompt-loader.ts:133-153 | an item line goes to the one list its section routes to, or nowhere, and leaves the description alone |
| PromptLoader.RouteOrder | src/utils/prompt-loader.ts:133-153 | a section goes to a list iff it names one of that list's keywords and none of an earlier list's, for each of the eight lists in order; it goes nowhere iff it names none |
| PromptLoader.ItemsBoundedByLines | src/utils/prompt-loader.ts:109-154 | parsing adds at most one item per line |
| PromptLoader.StepAddsAtMostOne | src/utils/prompt-loader.ts:110-153 | one line adds no item or one item |
| PromptLoader.EmptyFileIsFallback | src/utils/prompt-loader.ts:92-195 | an empty file parses to the fallback card, except that the name is the initial name |
| LlmClient.FirstSuccess | src/core/llm-client.ts:43-126 | the position of the first host transport that succeeds, with all earlier ones unsuccessful; none iff none succeeds |
| LlmClient.EstimateConfidence | src/core/llm-client.ts:456-463 | 20 iff under 10 characters; 50 iff 10 to 49; from 50 characters on, 60 iff a hedging word occurs, 80 iff none does and a recommending word does, 75 iff neither |
| LlmClient.Finish | src/core/llm-client.ts:152-159 | the response keeps the reply text, defaults the model to `cursor-default` and estimates its confidence from the text |
| LlmClient.RequestCompletionCall | src/core/llm-client.ts:25-168 | one log entry per transport tried, in order, with its status; the first success answers; the OpenAI leg answers after three failures; the request fails iff all four fail, with the code and the three-entry log |
| LlmClient.KeywordIntent | src/core/llm-client.ts:380-395 | ecommerce iff a shop word occurs; blog iff no shop word and a blog word; portfolio iff neither and a showcase word; saas iff none of those and a SaaS word; generic with confidence 30 iff no keyword occurs, and confidence 60 otherwise |
| LlmClient.ParseIntentResponse | src/core/llm-client.ts:360-396 | the tag is never empty and the confidence never 0; without JSON, the keyword fallback; with JSON, each parsed field when set and non-empty (non-zero), else `generic`, 50 and `分析完成` |
| LlmClient.ParseConversationResponse | src/core/llm-client.ts:398-425 | without JSON, the raw text with confidence 70, typed question iff it contains `?` or `？`; with JSON, the parsed response, type and confidence when set and non-empty (non-zero), else the raw text, `suggestion` and 70 |
| LlmClient.ParseReadinessResponse | src/core/llm-client.ts:427-454 | without JSON, not ready with confidence 30 and the fixed entries; ready iff the JSON says `ready: true`; with JSON, the parsed confidence when non-zero, else 50, and the parsed lists, else empty |
| LlmClient.ConversationWindow | src/core/llm-client.ts:280-283 | the prompt shows the last five turns, or all of them when there are fewer |
| LlmClient.ClassifyIntent | src/core/llm-client.ts:173-187 | fails with the request error iff the request fails; otherwise the intent parser applied to the reply |
| LlmClient.GenerateConversationResponse | src/core/llm-client.ts:192-221 | fails iff the request fails; otherwise the conversation parser applied to the reply |
| LlmClient.AnalyzeReadinessCall | src/core/llm-client.ts:226-244 | fails iff the request fails; otherwise the readiness parser applied to the reply |
| LlmClient.FirstTransportShortCircuits | src/core/llm-client.ts:47-72 | when sampling succeeds, it answers and the other transports are not consulted |
| Service.ExtractFeatures | src/core/spec-sprite-service.ts:366-388 | a feature tag is reported iff one of its keywords occurs in the lower-cased input, without duplicates and in table order |
| Service.NotificationMeansRealtimeAndEmail | src/core/spec-sprite-service.ts:376-378 | the shared keyword `通知` fires both realtime and email |
| Service.EstimateComplexity | src/core/spec-sprite-service.ts:393-410 | complex iff a complex word occurs; simple iff none does and a simple word does; medium otherwise |
| Service.ComplexWinsOverSimple | src/core/spec-sprite-service.ts:401-407 | an input with both kinds of word is complex |
| Service.DefaultExpert | src/core/spec-sprite-service.ts:325-351 | the built-in card has the id `expert_<type>`, the type, the upper-cased type as its name, and non-empty questions and stack |
| Service.FailedIntentChangesNothing | src/core/spec-sprite-service.ts:145-158 | merging the fallback analysis of a failed classification leaves the context unchanged |
| Service.PrdBranchIffReady | src/core/spec-sprite-service.ts:85-89 | the extra confidence test of 75 never overrides readiness: the PRD branch is taken iff the session is ready |
| Service.LoadedCard | src/utils/prompt-loader.ts:25-46 | a loaded card always carries its type's id |
| Service.LoadAll | src/core/spec-sprite-service.ts:302-312 | the loop stores, for each type in order, the card from its file or the defaults |
| Service.ChosenCardAfterLoading | src/core/spec-sprite-service.ts:278-291 | once the six cards are loaded, the chosen card is the one of the session's type if that is one of the six, else the generic one; the built-in card is never used |
| Service.KindOf | src/core/spec-sprite-service.ts:201 | the output is a conversation iff the model called its reply a completion, and a clarification otherwise |
| Service.QuestionsFor | src/core/spec-sprite-service.ts:197-199 | the readiness questions when there are any, otherwise at most two rule-based ones |
| Service.SpecSpriteService.constructor | src/core/spec-sprite-service.ts:31-36 | a new service has a fresh manager with an empty store and no cards |
| Service.SpecSpriteService.LoadExpertRoleCards | src/core/spec-sprite-service.ts:296-320 | afterwards each of the six types holds its loaded card; other entries are unchanged and nothing else is added |
| Service.SpecSpriteService.LoadCards | src/core/spec-sprite-service.ts:302-312 | the store is overwritten, type by type, with the loaded cards |
| Service.SpecSpriteService.SelectExpertCard | src/core/spec-sprite-service.ts:278-291 | returns the chosen card and records its id as the session's expert, changing nothing else |
| Service.SpecSpriteService.AnalyzeUserIntent | src/core/spec-sprite-service.ts:125-159 | the result is `IntentOf` the input: a failed request gives the fixed fallback analysis; otherwise the parsed classification extended with the local features and complexity |
| Service.SpecSpriteService.ClassifyIfNeeded | src/core/spec-sprite-service.ts:74-79 | classification happens iff the session has no type or at most one turn; the intent merged is `IntentOf` the input and the new session is `Classified` of the old one; otherwise the session is untouched |
| Service.SpecSpriteService.GeneratePrd | src/core/spec-sprite-service.ts:227-273 | throws iff the built PRD is invalid, leaving the session unchanged; otherwise marks it completed, records the assistant turn and returns the PRD |
| Service.SpecSpriteService.CompletePrd | src/core/spec-sprite-service.ts:241-267 | marks the session completed, appends the PRD turn and reports the document |
| Service.SpecSpriteService.ContinueConversation | src/core/spec-sprite-service.ts:164-222 | the chosen expert is recorded; the call throws iff the model request fails, with the wrapped message and code `LLM_REQUEST_FAILED`, and then only the expert changes; otherwise the reply turn is appended, the last activity refreshed and nothing else changes, and the reply is returned with the questions and suggestions |
| Service.SpecSpriteService.ReplyAsExpert | src/core/spec-sprite-service.ts:176-216 | a failed request changes nothing and throws the wrapped message with code `LLM_REQUEST_FAILED`; otherwise the reply turn is appended, the last activity refreshed, and the reply reported |
| Service.SpecSpriteService.ProcessUserInput | src/core/spec-sprite-service.ts:61-95 | the session decided on is `Prepared` of the resumed or fresh session (`Start`); the final session is `Answered` of it; the request throws iff `AnswerThrows` (an invalid PRD on the PRD branch, a failed model request on the conversation branch); a PRD is returned iff that session was ready, and it is then valid, built from it, and the session is completed; the store gains at most the fresh session |
| Service.SpecSpriteService.Prepare | src/core/spec-sprite-service.ts:65-79 | a resumable session is the stored one and the store is unchanged; otherwise the session is fresh and stored under the fresh id; either way the session becomes `Prepared` of `Start`, and a merged intent is `IntentOf` the input |
| Service.SpecSpriteService.RecordAndClassify | src/core/spec-sprite-service.ts:68-79 | the history is the old one plus the input, cut to the last 50, and the whole new session is `Prepared` of the old one (recorded, preferences extracted, classified when needed) |
| Service.SpecSpriteService.Respond | src/core/spec-sprite-service.ts:81-89 | the new session is `Answered` of the old one in both branches; it throws iff `AnswerThrows` (the PRD fails validation on the PRD branch, the model request fails on the conversation branch); a PRD is produced iff the session is ready, and it is then valid and built from the session, which is completed |
| Service.PreparedEndsWithInput | src/core/spec-sprite-service.ts:65-79 | after steps 2 to 4 the history holds between 1 and 50 turns and its last turn is the user input |
| Service.PrdAnsweredAddsOneTurn | src/core/spec-sprite-service.ts:227-267 | generating the PRD adds the PRD turn or nothing, and leaves the context and score alone |
| Service.ExpertAnsweredAddsOneTurn | src/core/spec-sprite-service.ts:164-216 | continuing leaves the context and score alone, and the history is unchanged iff the model request fails |
| Service.OneTurnMoreKeepsInvariant | src/core/conversation-manager.ts:48-68 | a session that gains at most one turn over at most 50, with its context and score unchanged, keeps the session invariant |
| Service.AnsweredKeepsInvariant | src/core/spec-sprite-service.ts:81-89 | answering a session of at most 50 turns keeps the session invariant |
| Service.RequestKeepsInvariant | src/core/spec-sprite-service.ts:61-95 | one request keeps the session invariant (distinct features, distinct tech preferences, score in 0..100, at most 51 turns) |

## Left out

- File reading (`existsSync`, `readFileSync`) and the prompt cache in `loadPromptFile`: the card file's content is a parameter (`Option<string>`), so the cache, which only avoids rereads, has nothing to do.
- `loadSystemPrompt`, `getIntentClassifierPrompt`, `getMetaPrompt` and `getFallbackSystemPrompt`: they only read or return prompt text.
- The prompt builders of the LLM client (`buildIntentClassificationPrompt`, `buildConversationPrompt`, `buildReadinessAnalysisPrompt`) and `requestViaOpenAI`: they build text for the model or talk to the network. Only the five-turn history window is modelled.
- The regular-expression JSON extraction and `JSON.parse` in the reply parsers: they are an oracle function from the reply text to the fields read.
- `Date.now()`, `new Date()` and the random ids of sessions and turns: they are parameters.
- Console logging, the cleanup interval timer (`startCleanupTasks`, `cleanup`, `initialize`), `getSessionInfo` (a call to `getSessionSummary`) and the MCP server wiring in `server.ts`.
- `async`/`await`: each call is modelled as running to completion, with no interleaving between requests.
- The exception paths for rethrown errors: a thrown error is the `Thrown` outcome carrying its message and, for a `SpecSpriteError`, its code. A failed completion request surfaces as the message `requestCompletion`'s outer handler builds around the inner one (src/core/llm-client.ts:141-166). The `catch` in `loadExpertRoleCards` is omitted because it cannot be reached.
- `buildConstraints` is not a separate member: it copies the context's constraint record, and `PrdBuilder.BuildPrd` states that equality.
- The JSON-schema loading of `PRDBuilder` (`loadSchema`): it is never used in validation.
- String lengths count Unicode code points, while JavaScript counts UTF-16 code units; the two differ on characters outside the Basic Multilingual Plane (emoji, rare ideographs), which count one here and two in JavaScript. The captured project name holds only such characters as ASCII letters, digits and CJK ideographs of the Basic Multilingual Plane, so its length test agrees; the other length thresholds differ on such input:
  - the description uses the first input longer than 20, cuts inputs longer than 200, and the 200-unit cut, which in JavaScript can split a surrogate pair (src/utils/prd-builder.ts:313-315);
  - the validator's description must have at least 10 (src/utils/prd-builder.ts:88);
  - input quality needs an average above 20 and one input above 50 (src/core/conversation-manager.ts:389-397);
  - the confidence estimate tests under 10 and under 50 (src/core/llm-client.ts:458-459).
  For text inside the Basic Multilingual Plane, which includes every keyword and all common CJK text, the model and the source agree.
- `Text.Lower` maps the ASCII letters plus the two non-ASCII letters whose lower case is ASCII (U+212A, U+0130). Every keyword is lower-case ASCII or CJK, so the keyword tests agree with JavaScript's `toLowerCase`.
- `Text.Upper` maps only `a` to `z`, while JavaScript's `toUpperCase` maps every cased letter. It is used only on the six expert type tags to build the expert names, and those tags are lower-case ASCII, so it is exact there.
- Non-integer numbers: confidences and scores are integers, because every value the source computes is rounded or is an integer constant. A confidence the model returns as a fraction is not represented.
- Keys inherited from `Object.prototype` in `user_preferences` and `constraints` are not modelled: the preference record is a map of its own keys.
- PrdBuilder.InferTargetAudience: a type tag from the classifier that names an `Object.prototype` member (`constructor`, `toString`, …) makes `audiences[projectType]` a function, which is truthy, so the source puts that function in `target_audience` (src/utils/prd-builder.ts:490). The model gives such a tag the end-user default, because a function is not a string.
- LlmClient.RequestCompletionCall: the model and token count of a raw reply are taken as already extracted; the `?.`/`??` chains that pick them from each transport's reply shape are not modelled.
- PromptLoader.FallbackExpert: the contract states only the id and the type; the content of the default tables is stated per table by the `Default…` functions.
- Service.SpecSpriteService.ProcessUserInput: the contract states the final session in both branches, exactly when the request throws, and the PRD branch's output; the conversation branch's output is stated by `Service.SpecSpriteService.ContinueConversation`. That the decided session holds 1 to 50 turns ending with the input follows from its `Prepared` equation and `Service.PreparedEndsWithInput`, rather than being a separate postcondition.
