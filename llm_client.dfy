/**
 * The deterministic part of the LLM client (`CursorLLMClient`).
 *
 * Each of the three host transports is an abstract outcome: the function is
 * missing, the call fails, or it succeeds with a raw reply. The OpenAI leg is
 * the same kind of outcome, with a missing API key in place of a missing
 * function. "The reply holds a JSON object that parses" is an oracle: a
 * function from the reply text to an optional record of the fields read.
 */
module LlmClient {
  import opened Text
  import opened Types

  datatype Transport = SamplingCreateMessage | CreateMessage | RequestCompletion

  /** The order in which the host transports are tried. */
  const TransportOrder: seq<Transport> := [SamplingCreateMessage, CreateMessage, RequestCompletion]

  function TransportName(t: Transport): string {
    match t
    case SamplingCreateMessage => "sampling.createMessage"
    case CreateMessage => "createMessage"
    case RequestCompletion => "requestCompletion"
  }

  /** What a transport hands back: the reply text, the model name if any, the token count (0 when absent). */
  datatype RawReply = RawReply(content: string, model: Option<string>, tokensUsed: int)

  datatype Outcome = NoFn | Failed(detail: string) | Succeeded(reply: RawReply)

  datatype OpenAiOutcome = NoKey | OpenAiFailed | OpenAiSucceeded(reply: RawReply)

  /** The host as seen by one request: what each transport and the OpenAI leg would do. */
  datatype Host = Host(sampling: Outcome, createMessage: Outcome, requestCompletion: Outcome, openAi: OpenAiOutcome)

  datatype AttemptStatus = AttemptSuccess | AttemptNoFn | AttemptError

  /** One entry of the attempt log. */
  datatype Attempt = Attempt(transport: Transport, status: AttemptStatus)

  /** `LLMResponse` */
  datatype LlmResponse = LlmResponse(content: string, model: string, tokensUsed: int, confidence: int)

  datatype Completion = Responded(response: LlmResponse) | RequestFailed(code: string, attempts: seq<Attempt>)

  datatype Result<T> = Ok(value: T) | Err(code: string)

  const RequestFailedCode := "LLM_REQUEST_FAILED"

  /** The message of the error a failed completion request ends with, once the outer handler has wrapped it. */
  const RequestFailedMessage := "LLM 补全请求失败: 无法完成 LLM 补全；各接口尝试结果已记录在 error.data.attempts"

  function OutcomeOf(host: Host, t: Transport): Outcome {
    match t
    case SamplingCreateMessage => host.sampling
    case CreateMessage => host.createMessage
    case RequestCompletion => host.requestCompletion
  }

  function StatusOf(o: Outcome): AttemptStatus {
    match o
    case NoFn => AttemptNoFn
    case Failed(_) => AttemptError
    case Succeeded(_) => AttemptSuccess
  }

  /** The position, in the fixed order, of the first host transport that succeeds. */
  function FirstSuccess(host: Host): (r: Option<nat>)
    ensures r.Some? ==> r.value < 3 && OutcomeOf(host, TransportOrder[r.value]).Succeeded?
    ensures r.Some? ==> forall k :: 0 <= k < r.value ==> !OutcomeOf(host, TransportOrder[k]).Succeeded?
    ensures r.None? <==> forall k :: 0 <= k < 3 ==> !OutcomeOf(host, TransportOrder[k]).Succeeded?
  {
    if host.sampling.Succeeded? then Some(0)
    else if host.createMessage.Succeeded? then Some(1)
    else if host.requestCompletion.Succeeded? then Some(2)
    else None
  }

  /** `estimateConfidence`: a score for a reply from its length and its hedging or recommending words. */
  function EstimateConfidence(content: string): (r: int)
    ensures r == 20 || r == 50 || r == 60 || r == 75 || r == 80
    ensures r == 20 <==> |content| < 10
    ensures r == 50 <==> 10 <= |content| < 50
    ensures r >= 60 <==> |content| >= 50
    ensures r == 60 <==> |content| >= 50 && (Contains(content, "不确定") || Contains(content, "可能"))
    ensures r == 80 <==> |content| >= 50 && !(Contains(content, "不确定") || Contains(content, "可能"))
                         && (Contains(content, "建议") || Contains(content, "推荐"))
    ensures r == 75 <==> |content| >= 50 && !(Contains(content, "不确定") || Contains(content, "可能"))
                         && !(Contains(content, "建议") || Contains(content, "推荐"))
  {
    if |content| < 10 then 20
    else if |content| < 50 then 50
    else if Contains(content, "不确定") || Contains(content, "可能") then 60
    else if Contains(content, "建议") || Contains(content, "推荐") then 80
    else 75
  }

  /** The response built from a raw reply: the model defaults to `cursor-default`, the confidence is estimated from the text. */
  function Finish(reply: RawReply): (r: LlmResponse)
    ensures r.content == reply.content && r.model != ""
    ensures reply.model.Some? && reply.model.value != "" ==> r.model == reply.model.value
    ensures r.confidence == EstimateConfidence(reply.content)
  {
    LlmResponse(
      reply.content,
      if reply.model.Some? && reply.model.value != "" then reply.model.value else "cursor-default",
      reply.tokensUsed,
      EstimateConfidence(reply.content))
  }

  /**
   * `requestCompletion`: tries the three host transports in order, logging
   * one attempt per transport reached and stopping at the first success; if
   * none succeeds, falls back to the OpenAI leg, which logs nothing; if that
   * is absent or fails too, the request fails with `LLM_REQUEST_FAILED` and
   * the log of three unsuccessful attempts.
   */
  method RequestCompletionCall(host: Host) returns (result: Completion, attempts: seq<Attempt>)
    ensures |attempts| == if FirstSuccess(host).Some? then FirstSuccess(host).value + 1 else 3
    ensures forall k :: 0 <= k < |attempts| ==>
      attempts[k] == Attempt(TransportOrder[k], StatusOf(OutcomeOf(host, TransportOrder[k])))
    ensures forall k :: 0 <= k < |attempts| - 1 ==> attempts[k].status != AttemptSuccess
    ensures result.RequestFailed? <==> FirstSuccess(host).None? && !host.openAi.OpenAiSucceeded?
    ensures result.RequestFailed? ==>
      result.code == RequestFailedCode && result.attempts == attempts
      && |attempts| == 3 && forall k :: 0 <= k < 3 ==> attempts[k].status != AttemptSuccess
    ensures FirstSuccess(host).Some? ==>
      result == Responded(Finish(OutcomeOf(host, TransportOrder[FirstSuccess(host).value]).reply))
    ensures FirstSuccess(host).None? && host.openAi.OpenAiSucceeded? ==> result == Responded(Finish(host.openAi.reply))
  {
    var response: Option<RawReply> := None;
    attempts := [];

    match host.sampling {
    case Succeeded(raw) =>
      response := Some(raw);
      attempts := attempts + [Attempt(SamplingCreateMessage, AttemptSuccess)];
    case Failed(_) =>
      attempts := attempts + [Attempt(SamplingCreateMessage, AttemptError)];
    case NoFn =>
      attempts := attempts + [Attempt(SamplingCreateMessage, AttemptNoFn)];
    }

    if response.None? {
      match host.createMessage {
      case Succeeded(raw) =>
        response := Some(raw);
        attempts := attempts + [Attempt(CreateMessage, AttemptSuccess)];
      case Failed(_) =>
        attempts := attempts + [Attempt(CreateMessage, AttemptError)];
      case NoFn =>
        attempts := attempts + [Attempt(CreateMessage, AttemptNoFn)];
      }
    }

    if response.None? {
      match host.requestCompletion {
      case Succeeded(raw) =>
        response := Some(raw);
        attempts := attempts + [Attempt(RequestCompletion, AttemptSuccess)];
      case Failed(_) =>
        attempts := attempts + [Attempt(RequestCompletion, AttemptError)];
      case NoFn =>
        attempts := attempts + [Attempt(RequestCompletion, AttemptNoFn)];
      }
    }

    if response.None? {
      if host.openAi.OpenAiSucceeded? {
        response := Some(host.openAi.reply);
      }
    }

    if response.None? {
      result := RequestFailed(RequestFailedCode, attempts);
      return;
    }
    result := Responded(Finish(response.value));
  }

  /** No host transport succeeds and the OpenAI leg is absent or fails: the request throws. */
  predicate RequestFails(host: Host) {
    FirstSuccess(host).None? && !host.openAi.OpenAiSucceeded?
  }

  /** The reply text of a successful request. */
  function ReplyContent(host: Host): string
    requires FirstSuccess(host).Some? || host.openAi.OpenAiSucceeded?
  {
    if FirstSuccess(host).Some? then OutcomeOf(host, TransportOrder[FirstSuccess(host).value]).reply.content
    else host.openAi.reply.content
  }

  // ---------------------------------------------------------------------------
  // Reply parsing
  // ---------------------------------------------------------------------------

  /** The fields the intent parser reads from a parsed JSON object; a missing field is `None`. */
  datatype IntentJson = IntentJson(projectType: Option<string>, confidence: Option<int>, reasoning: Option<string>)

  /** The intent classification the client returns. */
  datatype IntentClassification = IntentClassification(projectTag: string, confidence: int, reasoning: string)

  /** `value || fallback` for a string field: a missing or empty string takes the fallback. */
  function StringOr(v: Option<string>, fallback: string): string {
    if v.Some? && v.value != "" then v.value else fallback
  }

  /** `value || fallback` for a number field: a missing field or 0 takes the fallback. */
  function IntOr(v: Option<int>, fallback: int): int {
    if v.Some? && v.value != 0 then v.value else fallback
  }

  /** The keyword fallback of the intent parser: ecommerce, blog, portfolio, SaaS in that order, else generic. */
  function KeywordIntent(content: string): (r: IntentClassification)
    ensures r.confidence == 60 || r.confidence == 30
    ensures r.confidence == 30 <==> r.projectTag == "generic"
    ensures var text := Lower(content);
      r.projectTag == "generic" <==>
        !(Contains(text, "电商") || Contains(text, "商店") || Contains(text, "博客") || Contains(text, "文章")
          || Contains(text, "作品") || Contains(text, "展示") || Contains(text, "saas") || Contains(text, "订阅"))
    ensures var text := Lower(content);
      var shop := Contains(text, "电商") || Contains(text, "商店");
      var blog := Contains(text, "博客") || Contains(text, "文章");
      var showcase := Contains(text, "作品") || Contains(text, "展示");
      var saas := Contains(text, "saas") || Contains(text, "订阅");
      && (r.projectTag == "ecommerce" <==> shop)
      && (r.projectTag == "blog" <==> !shop && blog)
      && (r.projectTag == "portfolio" <==> !shop && !blog && showcase)
      && (r.projectTag == "saas" <==> !shop && !blog && !showcase && saas)
  {
    var text := Lower(content);
    if Contains(text, "电商") || Contains(text, "商店") then IntentClassification("ecommerce", 60, "关键词匹配")
    else if Contains(text, "博客") || Contains(text, "文章") then IntentClassification("blog", 60, "关键词匹配")
    else if Contains(text, "作品") || Contains(text, "展示") then IntentClassification("portfolio", 60, "关键词匹配")
    else if Contains(text, "saas") || Contains(text, "订阅") then IntentClassification("saas", 60, "关键词匹配")
    else IntentClassification("generic", 30, "无法明确分类")
  }

  /**
   * `parseIntentResponse`: the parsed fields with their defaults (`generic`,
   * 50, `分析完成`), or the keyword fallback when no JSON object parses. The
   * tag is never empty.
   */
  function ParseIntentResponse(content: string, json: Option<IntentJson>): (r: IntentClassification)
    ensures r.projectTag != ""
    ensures r.confidence != 0
    ensures json.None? ==> r == KeywordIntent(content)
    ensures json.Some? && json.value.projectType.Some? && json.value.projectType.value != "" ==>
      r.projectTag == json.value.projectType.value
    ensures json.Some? && (json.value.projectType.None? || json.value.projectType == Some("")) ==>
      r.projectTag == "generic"
    ensures json.Some? && json.value.confidence.Some? && json.value.confidence.value != 0 ==>
      r.confidence == json.value.confidence.value
    ensures json.Some? && (json.value.confidence.None? || json.value.confidence == Some(0)) ==> r.confidence == 50
    ensures json.Some? && json.value.reasoning.Some? && json.value.reasoning.value != "" ==>
      r.reasoning == json.value.reasoning.value
    ensures json.Some? && (json.value.reasoning.None? || json.value.reasoning == Some("")) ==> r.reasoning == "分析完成"
  {
    match json
    case Some(parsed) =>
      IntentClassification(
        StringOr(parsed.projectType, "generic"),
        IntOr(parsed.confidence, 50),
        StringOr(parsed.reasoning, "分析完成"))
    case None => KeywordIntent(content)
  }

  /** The fields the conversation parser reads. */
  datatype ConversationJson = ConversationJson(response: Option<string>, replyType: Option<string>, confidence: Option<int>)

  /** The conversational reply the client returns; `replyType` is `question`, `suggestion` or whatever the model said. */
  datatype ConversationReply = ConversationReply(response: string, replyType: string, confidence: int)

  /**
   * `parseConversationResponse`: the parsed fields with their defaults (the
   * raw text, `suggestion`, 70); without JSON, the raw text with confidence
   * 70, typed `question` exactly when it contains a question mark.
   */
  function ParseConversationResponse(content: string, json: Option<ConversationJson>): (r: ConversationReply)
    ensures json.None? ==> r.response == content && r.confidence == 70
    ensures json.None? ==> (r.replyType == "question" <==> '?' in content || '？' in content)
    ensures json.None? ==> r.replyType == "question" || r.replyType == "suggestion"
    ensures json.Some? && json.value.response.Some? && json.value.response.value != "" ==>
      r.response == json.value.response.value
    ensures json.Some? && (json.value.response.None? || json.value.response == Some("")) ==> r.response == content
    ensures json.Some? && json.value.replyType.Some? && json.value.replyType.value != "" ==>
      r.replyType == json.value.replyType.value
    ensures json.Some? && (json.value.replyType.None? || json.value.replyType == Some("")) ==> r.replyType == "suggestion"
    ensures json.Some? && json.value.confidence.Some? && json.value.confidence.value != 0 ==>
      r.confidence == json.value.confidence.value
    ensures json.Some? && (json.value.confidence.None? || json.value.confidence == Some(0)) ==> r.confidence == 70
    ensures r.replyType != "" && r.confidence != 0
  {
    match json
    case Some(parsed) =>
      ConversationReply(
        StringOr(parsed.response, content),
        StringOr(parsed.replyType, "suggestion"),
        IntOr(parsed.confidence, 70))
    case None =>
      ContainsChar(content, '?');
      ContainsChar(content, '？');
      ConversationReply(
        content,
        if Contains(content, "?") || Contains(content, "？") then "question" else "suggestion",
        70)
  }

  /** The fields the readiness parser reads. */
  datatype ReadinessJson = ReadinessJson(
    ready: Option<bool>, confidence: Option<int>, missingInfo: Option<seq<string>>, nextQuestions: Option<seq<string>>)

  datatype LlmReadiness = LlmReadiness(ready: bool, confidence: int, missingInfo: seq<string>, nextQuestions: seq<string>)

  /**
   * `parseReadinessResponse`: the parsed fields with their defaults (not
   * ready, 50, no entries); without JSON, not ready with confidence 30 and
   * one missing-information entry and one question.
   */
  function ParseReadinessResponse(content: string, json: Option<ReadinessJson>): (r: LlmReadiness)
    ensures json.None? ==>
      !r.ready && r.confidence == 30 && r.missingInfo == ["无法解析响应"] && r.nextQuestions == ["请提供更多项目信息"]
    ensures r.ready <==> json.Some? && json.value.ready == Some(true)
    ensures json.Some? && json.value.confidence.Some? && json.value.confidence.value != 0 ==>
      r.confidence == json.value.confidence.value
    ensures json.Some? && (json.value.confidence.None? || json.value.confidence == Some(0)) ==> r.confidence == 50
    ensures json.Some? ==> r.missingInfo == (if json.value.missingInfo.Some? then json.value.missingInfo.value else [])
    ensures json.Some? ==> r.nextQuestions == (if json.value.nextQuestions.Some? then json.value.nextQuestions.value else [])
    ensures r.confidence != 0
  {
    match json
    case Some(parsed) =>
      LlmReadiness(
        parsed.ready == Some(true),
        IntOr(parsed.confidence, 50),
        if parsed.missingInfo.Some? then parsed.missingInfo.value else [],
        if parsed.nextQuestions.Some? then parsed.nextQuestions.value else [])
    case None =>
      LlmReadiness(false, 30, ["无法解析响应"], ["请提供更多项目信息"])
  }

  /** A one-character `includes` is membership. */
  lemma ContainsChar(s: string, c: char)
    ensures Contains(s, [c]) <==> c in s
  {
    if c in s {
      var i :| 0 <= i < |s| && s[i] == c;
      assert s[i..i + 1] == [c];
      ContainsAt(s, [c], i);
    }
    if Contains(s, [c]) {
      var i :| 0 <= i <= |s| && OccursAt(s, [c], i);
      assert s[i..i + 1][0] == s[i];
    }
  }

  // ---------------------------------------------------------------------------
  // The three client calls
  // ---------------------------------------------------------------------------

  /** The turns the conversation prompt shows: the last five. */
  function ConversationWindow(history: seq<Turn>): (r: seq<Turn>)
    ensures |r| <= 5 && |r| == Min(5, |history|)
    ensures r == history[|history| - |r|..]
  {
    LastN(history, 5)
  }

  function Min(a: int, b: int): int { if a <= b then a else b }

  /** `classifyIntent`: one completion request, then the intent parser on its text. */
  method ClassifyIntent(host: Host, jsonOf: string -> Option<IntentJson>) returns (r: Result<IntentClassification>)
    ensures r.Err? <==> FirstSuccess(host).None? && !host.openAi.OpenAiSucceeded?
    ensures r.Err? ==> r.code == RequestFailedCode
    ensures r.Ok? ==> r.value == ParseIntentResponse(ReplyContent(host), jsonOf(ReplyContent(host)))
  {
    var completion, _ := RequestCompletionCall(host);
    match completion
    case RequestFailed(code, _) => r := Err(code);
    case Responded(response) => r := Ok(ParseIntentResponse(response.content, jsonOf(response.content)));
  }

  /** `generateConversationResponse`: one completion request, then the conversation parser on its text. */
  method GenerateConversationResponse(host: Host, jsonOf: string -> Option<ConversationJson>) returns (r: Result<ConversationReply>)
    ensures r.Err? <==> FirstSuccess(host).None? && !host.openAi.OpenAiSucceeded?
    ensures r.Err? ==> r.code == RequestFailedCode
    ensures r.Ok? ==> r.value == ParseConversationResponse(ReplyContent(host), jsonOf(ReplyContent(host)))
  {
    var completion, _ := RequestCompletionCall(host);
    match completion
    case RequestFailed(code, _) => r := Err(code);
    case Responded(response) => r := Ok(ParseConversationResponse(response.content, jsonOf(response.content)));
  }

  /** `analyzeReadiness` of the client: one completion request, then the readiness parser on its text. */
  method AnalyzeReadinessCall(host: Host, jsonOf: string -> Option<ReadinessJson>) returns (r: Result<LlmReadiness>)
    ensures r.Err? <==> FirstSuccess(host).None? && !host.openAi.OpenAiSucceeded?
    ensures r.Err? ==> r.code == RequestFailedCode
    ensures r.Ok? ==> r.value == ParseReadinessResponse(ReplyContent(host), jsonOf(ReplyContent(host)))
  {
    var completion, _ := RequestCompletionCall(host);
    match completion
    case RequestFailed(code, _) => r := Err(code);
    case Responded(response) => r := Ok(ParseReadinessResponse(response.content, jsonOf(response.content)));
  }

  /** A host whose first transport works never reaches the others: one logged attempt, and its reply. */
  lemma FirstTransportShortCircuits(host: Host)
    requires host.sampling.Succeeded?
    ensures FirstSuccess(host) == Some(0)
    ensures ReplyContent(host) == host.sampling.reply.content
  {
  }
}
