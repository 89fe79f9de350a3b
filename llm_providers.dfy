/**
 * The LLM request pipeline of lib/llmProviders.js: five provider adapters (endpoint
 * URL, request headers, request body, response-text extractor), the factory that
 * selects one from a provider id, and the classification `sendRequest` performs on
 * the HTTP result before it calls back.
 *
 * The HTTP exchange itself is not modelled: its result is an `HttpResult` record,
 * and `JSON.stringify` is the `serialize` parameter.
 */
module LlmProviders {
  import opened Wrappers
  import opened Json
  import opened JsStrings
  import opened Messages
  import C = Constants

  datatype ProviderKind = Anthropic | OpenAI | Gemini | OpenRouter | Ollama

  function ProviderId(k: ProviderKind): string {
    match k
    case Anthropic => C.AnthropicId
    case OpenAI => C.OpenAIId
    case Gemini => C.GeminiId
    case OpenRouter => C.OpenRouterId
    case Ollama => C.OllamaId
  }

  /** The switch of `LLMProviderFactory.createProvider`: the adapter an id names, Anthropic for any other id. */
  function SelectKind(id: string): (k: ProviderKind)
    ensures id == ProviderId(k) || (k == Anthropic && forall k' :: id != ProviderId(k'))
  {
    if id == C.AnthropicId then Anthropic
    else if id == C.OpenAIId then OpenAI
    else if id == C.GeminiId then Gemini
    else if id == C.OpenRouterId then OpenRouter
    else if id == C.OllamaId then Ollama
    else Anthropic
  }

  /** Every provider id selects its own adapter. */
  lemma SelectKindOfId(k: ProviderKind)
    ensures SelectKind(ProviderId(k)) == k
  {
  }

  /** The configuration an adapter is constructed with (`this._apiKey`, `this._model`). */
  datatype Config = Config(kind: ProviderKind, apiKey: string, model: string)

  /** The session timeout, in seconds, every provider starts with. */
  const DefaultTimeout := 300

  // ---------------------------------------------------------------- endpoints

  const AnthropicUrl := "https://api.anthropic.com/v1/messages"
  const OpenAIUrl := "https://api.openai.com/v1/chat/completions"
  const GeminiUrlPrefix := "https://generativelanguage.googleapis.com/v1beta/models/"
  const GeminiUrlMethod := ":generateContent?key="
  const OpenRouterUrl := "https://openrouter.ai/api/v1/chat/completions"
  const OllamaUrl := "http://127.0.0.1:11434/api/chat"

  /** `_getEndpointUrl`. */
  function EndpointUrl(c: Config): string {
    match c.kind
    case Anthropic => AnthropicUrl
    case OpenAI => OpenAIUrl
    case Gemini => GeminiUrlPrefix + c.model + GeminiUrlMethod + c.apiKey
    case OpenRouter => OpenRouterUrl
    case Ollama => OllamaUrl
  }

  /** Gemini's endpoint names both the model and the API key; every other endpoint is a fixed URL. */
  lemma EndpointCarriesModelAndKey(c: Config)
    ensures c.kind == Gemini ==> Contains(EndpointUrl(c), c.model) && Contains(EndpointUrl(c), c.apiKey)
    ensures c.kind != Gemini ==> EndpointUrl(c) == EndpointUrl(Config(c.kind, "", ""))
  {
    if c.kind == Gemini {
      ContainsMiddle(GeminiUrlPrefix, c.model, GeminiUrlMethod + c.apiKey);
      assert GeminiUrlPrefix + c.model + (GeminiUrlMethod + c.apiKey) == EndpointUrl(c);
      ContainsMiddle(GeminiUrlPrefix + c.model + GeminiUrlMethod, c.apiKey, "");
      assert GeminiUrlPrefix + c.model + GeminiUrlMethod + c.apiKey + "" == EndpointUrl(c);
    }
  }

  // ------------------------------------------------------------------ headers

  datatype Header = Header(name: string, value: string)

  const ContentType := Header("content-type", "application/json")
  const AnthropicVersion := "2023-06-01"
  const BearerPrefix := "Bearer "

  /**
   * `_addRequestHeaders`: the headers each adapter appends after the content type.
   * Gemini and Ollama append none, and no adapter sets a second content type.
   */
  function AuthHeaders(c: Config): (r: seq<Header>)
    ensures r == [] <==> c.kind == Gemini || c.kind == Ollama
    ensures forall i :: 0 <= i < |r| ==> r[i].name != ContentType.name
  {
    match c.kind
    case Anthropic => [Header("x-api-key", c.apiKey), Header("anthropic-version", AnthropicVersion)]
    case OpenAI => [Header("Authorization", BearerPrefix + c.apiKey)]
    case Gemini => []
    case OpenRouter => [Header("Authorization", BearerPrefix + c.apiKey)]
    case Ollama => []
  }

  /** The header list of `_prepareRequest`, in the order the headers are appended. */
  function RequestHeaders(c: Config): seq<Header> {
    [ContentType] + AuthHeaders(c)
  }

  /** The value of the first header with the given name. */
  function HeaderValue(hs: seq<Header>, name: string): Option<string> {
    if hs == [] then None
    else if hs[0].name == name then Some(hs[0].value)
    else HeaderValue(hs[1..], name)
  }

  /**
   * The credential of an `Authorization` value in the Bearer scheme of section 2.1
   * of RFC 6750 ("Bearer" followed by one space and the token).
   */
  function BearerCredential(value: string): Option<string> {
    if |value| >= |BearerPrefix| && value[..|BearerPrefix|] == BearerPrefix
    then Some(value[|BearerPrefix|..]) else None
  }

  /**
   * Every request declares a JSON body; Anthropic sends its key and API version in
   * headers of their own, OpenAI and OpenRouter send the key as a Bearer credential,
   * and Gemini and Ollama send no other header.
   */
  lemma RequestHeadersByProvider(c: Config)
    ensures RequestHeaders(c)[0] == ContentType
    ensures HeaderValue(RequestHeaders(c), "content-type") == Some("application/json")
    ensures HeaderValue(RequestHeaders(c), "x-api-key") == (if c.kind == Anthropic then Some(c.apiKey) else None)
    ensures HeaderValue(RequestHeaders(c), "anthropic-version")
      == (if c.kind == Anthropic then Some(AnthropicVersion) else None)
    ensures var auth := HeaderValue(RequestHeaders(c), "Authorization");
      if c.kind in {OpenAI, OpenRouter} then auth.Some? && BearerCredential(auth.value) == Some(c.apiKey)
      else auth.None?
    ensures c.kind in {Gemini, Ollama} <==> |RequestHeaders(c)| == 1
  {
    var hs := RequestHeaders(c);
    match c.kind
    case Anthropic =>
      assert hs[1..] == [Header("x-api-key", c.apiKey), Header("anthropic-version", AnthropicVersion)];
      assert hs[1..][1..] == [Header("anthropic-version", AnthropicVersion)];
      assert hs[1..][1..][1..] == [];
      assert HeaderValue(hs[1..][1..], "Authorization") == None;
      assert HeaderValue(hs[1..][1..], "anthropic-version") == Some(AnthropicVersion);
      assert HeaderValue(hs[1..], "Authorization") == None;
    case OpenAI =>
      BearerOf(c.apiKey);
      assert hs[1..] == [Header("Authorization", BearerPrefix + c.apiKey)];
      assert hs[1..][1..] == [];
      assert HeaderValue(hs[1..], "x-api-key") == None;
      assert HeaderValue(hs[1..], "anthropic-version") == None;
    case OpenRouter =>
      BearerOf(c.apiKey);
      assert hs[1..] == [Header("Authorization", BearerPrefix + c.apiKey)];
      assert hs[1..][1..] == [];
      assert HeaderValue(hs[1..], "x-api-key") == None;
      assert HeaderValue(hs[1..], "anthropic-version") == None;
    case Gemini =>
      assert hs[1..] == [];
    case Ollama =>
      assert hs[1..] == [];
  }

  /** A Bearer value built from a token yields that token back. */
  lemma BearerOf(token: string)
    ensures BearerCredential(BearerPrefix + token) == Some(token)
  {
    var v := BearerPrefix + token;
    assert v[..|BearerPrefix|] == BearerPrefix;
    assert v[|BearerPrefix|..] == token;
  }

  // ---------------------------------------------------------------- bodies

  /** Anthropic and OpenAI keep `user` and send every other role as `assistant`. */
  function ChatRole(role: string): string {
    if role == C.UserRole then C.UserRole else C.AssistantRole
  }

  /** Gemini keeps `user` and sends every other role as `model`. */
  function GeminiRole(role: string): string {
    if role == C.UserRole then C.UserRole else C.ModelRole
  }

  /** The messages of an Anthropic or OpenAI body, as history entries. */
  function ChatHistory(h: History): (r: History)
    ensures |r| == |h|
    ensures forall i :: 0 <= i < |h| ==> r[i].role == ChatRole(h[i].role) && r[i].content == h[i].content
  {
    seq(|h|, i requires 0 <= i < |h| => Message(ChatRole(h[i].role), h[i].content))
  }

  /** The `{text}` part of a Gemini turn; `text` is omitted when the entry has no content. */
  function TextMembers(content: Option<string>): seq<Member> {
    if content.Some? then [Member("text", JStr(content.value))] else []
  }

  function GeminiTurn(m: Message): Json {
    JObj([Member("role", JStr(GeminiRole(m.role))), Member("parts", JArr([JObj(TextMembers(m.content))]))])
  }

  /** `history.map(...)` of the Gemini body. */
  function GeminiContents(h: History): Json {
    JArr(seq(|h|, i requires 0 <= i < |h| => GeminiTurn(h[i])))
  }

  /** Ollama forwards only these roles. */
  predicate IsChatRole(role: string) {
    role == C.UserRole || role == C.AssistantRole
  }

  /** The filter-and-map step of Ollama's body: chat roles only, absent or empty content sent as `''`. */
  function OllamaFiltered(h: History): (r: History)
    ensures |r| <= |h|
    ensures forall i :: 0 <= i < |r| ==> IsChatRole(r[i].role) && r[i].content.Some?
    decreases |h|
  {
    if h == [] then []
    else
      var rest := OllamaFiltered(h[1..]);
      if IsChatRole(h[0].role) then [Message(h[0].role, Some(h[0].content.GetOr("")))] + rest
      else rest
  }

  /** Filtering works entry by entry, so it distributes over concatenation and keeps the order. */
  lemma {:induction false} OllamaFilteredAppend(a: History, b: History)
    ensures OllamaFiltered(a + b) == OllamaFiltered(a) + OllamaFiltered(b)
    decreases |a|
  {
    if a == [] {
      assert a + b == b;
    } else {
      assert (a + b)[1..] == a[1..] + b;
      OllamaFilteredAppend(a[1..], b);
    }
  }

  /** A single entry is forwarded, with its content defaulted, exactly when its role is a chat role. */
  lemma OllamaFilteredSingle(m: Message)
    ensures OllamaFiltered([m]) == if IsChatRole(m.role) then [Message(m.role, Some(m.content.GetOr("")))] else []
  {
    assert [m][1..] == [];
  }

  const EmptyUserTurn := Message(C.UserRole, Some(""))

  /**
   * The `messages` of Ollama's body: the filtered history, with an empty user turn
   * put in front when it would otherwise be empty or open with an assistant turn.
   */
  function OllamaMessages(h: History): (r: History)
    ensures r != [] && r[0].role == C.UserRole
    ensures var f := OllamaFiltered(h);
      (r == [EmptyUserTurn] + f <==> f == [] || f[0].role == C.AssistantRole)
      && (r == f <==> f != [] && f[0].role == C.UserRole)
  {
    var messages := OllamaFiltered(h);
    if messages == [] || messages[0].role != C.UserRole then [EmptyUserTurn] + messages
    else messages
  }

  const AnthropicMaxTokens := 1024
  const OpenAIMaxCompletionTokens := 4096
  const GeminiTopK := 40
  const GeminiTopP := JNum(95, -2)
  const GeminiMaxOutputTokens := 8192

  function GenerationConfig(): Json {
    JObj([
      Member("temperature", Int(1)),
      Member("topK", Int(GeminiTopK)),
      Member("topP", GeminiTopP),
      Member("maxOutputTokens", Int(GeminiMaxOutputTokens)),
      Member("responseMimeType", JStr("text/plain"))
    ])
  }

  /** `_generateRequestBody(history)`. */
  function RequestBody(c: Config, h: History): Json {
    match c.kind
    case Anthropic =>
      JObj([
        Member("model", JStr(c.model)),
        Member("messages", HistoryToJson(ChatHistory(h))),
        Member("max_tokens", Int(AnthropicMaxTokens))
      ])
    case OpenAI =>
      JObj([
        Member("model", JStr(c.model)),
        Member("messages", HistoryToJson(ChatHistory(h))),
        Member("response_format", JObj([Member("type", JStr("text"))])),
        Member("temperature", Int(1)),
        Member("max_completion_tokens", Int(OpenAIMaxCompletionTokens)),
        Member("top_p", Int(1)),
        Member("frequency_penalty", Int(0)),
        Member("presence_penalty", Int(0))
      ])
    case Gemini =>
      JObj([
        Member("contents", GeminiContents(h)),
        Member("generationConfig", GenerationConfig())
      ])
    case OpenRouter =>
      JObj([
        Member("messages", HistoryToJson(h)),
        Member("model", JStr(c.model))
      ])
    case Ollama =>
      JObj([
        Member("model", JStr(c.model)),
        Member("messages", HistoryToJson(OllamaMessages(h))),
        Member("stream", JBool(false))
      ])
  }

  /** A top-level property of a body. */
  function BodyField(body: Json, key: string): Option<Json> {
    if body.JObj? then Field(body.members, key) else None
  }

  /** The history a body's message array reads back as. */
  function MessagesOf(body: Json, key: string): Option<History> {
    match BodyField(body, key)
    case None => None
    case Some(j) => HistoryFromJson(j)
  }

  /**
   * Anthropic: one message per history entry, in order, roles mapped to user or
   * assistant, content kept; the model and a 1024-token limit travel with them.
   */
  lemma AnthropicBodyReadsBack(c: Config, h: History)
    requires c.kind == Anthropic
    ensures MessagesOf(RequestBody(c, h), "messages") == Some(ChatHistory(h))
    ensures BodyField(RequestBody(c, h), "model") == Some(JStr(c.model))
    ensures BodyField(RequestBody(c, h), "max_tokens") == Some(Int(1024))
  {
    var ms := RequestBody(c, h).members;
    FieldOfUniqueKey(ms, 0, "model");
    FieldOfUniqueKey(ms, 1, "messages");
    FieldOfUniqueKey(ms, 2, "max_tokens");
    HistoryRoundTrip(ChatHistory(h));
  }

  /** OpenAI: the same messages as Anthropic, with the model and its fixed sampling parameters. */
  lemma OpenAIBodyReadsBack(c: Config, h: History)
    requires c.kind == OpenAI
    ensures MessagesOf(RequestBody(c, h), "messages") == Some(ChatHistory(h))
    ensures BodyField(RequestBody(c, h), "model") == Some(JStr(c.model))
    ensures BodyField(RequestBody(c, h), "max_completion_tokens") == Some(Int(4096))
    ensures BodyField(RequestBody(c, h), "temperature") == Some(Int(1))
  {
    OpenAIMessagesAndModel(c, h);
    OpenAISampling(c, h);
  }

  lemma OpenAIMessagesAndModel(c: Config, h: History)
    requires c.kind == OpenAI
    ensures MessagesOf(RequestBody(c, h), "messages") == Some(ChatHistory(h))
    ensures BodyField(RequestBody(c, h), "model") == Some(JStr(c.model))
  {
    var ms := RequestBody(c, h).members;
    FieldOfUniqueKey(ms, 0, "model");
    FieldOfUniqueKey(ms, 1, "messages");
    HistoryRoundTrip(ChatHistory(h));
  }

  lemma OpenAISampling(c: Config, h: History)
    requires c.kind == OpenAI
    ensures BodyField(RequestBody(c, h), "max_completion_tokens") == Some(Int(4096))
    ensures BodyField(RequestBody(c, h), "temperature") == Some(Int(1))
  {
    var ms := RequestBody(c, h).members;
    FieldOfUniqueKey(ms, 3, "temperature");
    FieldOfUniqueKey(ms, 4, "max_completion_tokens");
  }

  /** OpenRouter: the history is sent as it is, with the model. */
  lemma OpenRouterBodyReadsBack(c: Config, h: History)
    requires c.kind == OpenRouter
    ensures MessagesOf(RequestBody(c, h), "messages") == Some(h)
    ensures BodyField(RequestBody(c, h), "model") == Some(JStr(c.model))
  {
    var ms := RequestBody(c, h).members;
    FieldOfUniqueKey(ms, 0, "messages");
    FieldOfUniqueKey(ms, 1, "model");
    HistoryRoundTrip(h);
  }

  /** Ollama: the prepared messages, the model, and streaming switched off. */
  lemma OllamaBodyReadsBack(c: Config, h: History)
    requires c.kind == Ollama
    ensures MessagesOf(RequestBody(c, h), "messages") == Some(OllamaMessages(h))
    ensures BodyField(RequestBody(c, h), "model") == Some(JStr(c.model))
    ensures BodyField(RequestBody(c, h), "stream") == Some(JBool(false))
  {
    var ms := RequestBody(c, h).members;
    FieldOfUniqueKey(ms, 0, "model");
    FieldOfUniqueKey(ms, 1, "messages");
    FieldOfUniqueKey(ms, 2, "stream");
    HistoryRoundTrip(OllamaMessages(h));
  }

  /** Reads a Gemini turn back: its role and the text of its only part. */
  function GeminiTurnFromJson(j: Json): Option<Message> {
    if !j.JObj? then None
    else match (Field(j.members, "role"), Field(j.members, "parts"))
      case (Some(JStr(r)), Some(JArr(parts))) =>
        if |parts| == 1 && parts[0].JObj? then
          match Field(parts[0].members, "text")
          case None => Some(Message(r, None))
          case Some(JStr(t)) => Some(Message(r, Some(t)))
          case _ => None
        else None
      case _ => None
  }

  /**
   * Gemini: one turn per history entry, in order, with `user` kept and every other
   * role sent as `model`, and exactly one part holding the content.
   */
  lemma GeminiBodyReadsBack(c: Config, h: History)
    requires c.kind == Gemini
    ensures var contents := BodyField(RequestBody(c, h), "contents");
      && contents.Some? && contents.value.JArr? && |contents.value.items| == |h|
      && forall i :: 0 <= i < |h| ==>
           GeminiTurnFromJson(contents.value.items[i]) == Some(Message(GeminiRole(h[i].role), h[i].content))
    ensures BodyField(RequestBody(c, h), "generationConfig") == Some(GenerationConfig())
  {
    var ms := RequestBody(c, h).members;
    FieldOfUniqueKey(ms, 0, "contents");
    FieldOfUniqueKey(ms, 1, "generationConfig");
    forall i | 0 <= i < |h|
      ensures GeminiTurnFromJson(GeminiTurn(h[i])) == Some(Message(GeminiRole(h[i].role), h[i].content))
    {
      GeminiTurnReadsBack(h[i]);
    }
  }

  /** One Gemini turn reads back as its role and content. */
  lemma GeminiTurnReadsBack(m: Message)
    ensures GeminiTurnFromJson(GeminiTurn(m)) == Some(Message(GeminiRole(m.role), m.content))
  {
    var t := GeminiTurn(m).members;
    FieldOfUniqueKey(t, 0, "role");
    FieldOfUniqueKey(t, 1, "parts");
    if m.content.Some? {
      FieldOfUniqueKey(TextMembers(m.content), 0, "text");
    }
  }

  // --------------------------------------------------------------- extraction

  /** The reasoning delimiter Ollama's reasoning models close their trace with. */
  const ThinkEnd := "</think>"

  /**
   * Ollama's handling of a reply: the trimmed text after the first `</think>`,
   * unless there is none or it is blank, in which case the reply is kept whole.
   */
  function StripThinking(content: string): (r: string)
    ensures !Contains(content, ThinkEnd) ==> r == content
    ensures r != content ==> r != "" && !IsSpace(r[0]) && !IsSpace(r[|r| - 1]) && Contains(content, r)
  {
    match IndexOf(content, ThinkEnd)
    case None => content
    case Some(i) =>
      var rest := content[i + |ThinkEnd|..];
      var after := Trim(rest);
      if after != "" then
        ContainsSuffix(content, i + |ThinkEnd|);
        ContainsTransitive(content, rest, after);
        after
      else content
  }

  /** The delimiter cannot start inside a text without it and end inside the delimiter that follows. */
  lemma NoEarlierThinkEnd(reasoning: string, answer: string, j: nat)
    requires !Contains(reasoning, ThinkEnd)
    requires j < |reasoning|
    ensures !OccursAt(reasoning + ThinkEnd + answer, ThinkEnd, j)
  {
    var s := reasoning + ThinkEnd + answer;
    var n := |reasoning|;
    if OccursAt(s, ThinkEnd, j) {
      if j + |ThinkEnd| <= n {
        assert s[j..j + |ThinkEnd|] == reasoning[j..j + |ThinkEnd|];
        assert OccursAt(reasoning, ThinkEnd, j);
        assert false;
      } else {
        ThinkEndTail(n - j);
      }
    }
  }

  /** The delimiter's opening `<` occurs only at its start. */
  lemma ThinkEndTail(k: int)
    requires 1 <= k < |ThinkEnd|
    ensures ThinkEnd[k] != '<'
  {
  }

  /**
   * A reply made of a reasoning trace without the delimiter, the delimiter, and an
   * answer that is not blank comes back as the trimmed answer.
   */
  lemma ThinkingStripped(reasoning: string, answer: string)
    requires !Contains(reasoning, ThinkEnd)
    requires Trim(answer) != ""
    ensures StripThinking(reasoning + ThinkEnd + answer) == Trim(answer)
  {
    var s := reasoning + ThinkEnd + answer;
    var n := |reasoning|;
    assert OccursAt(s, ThinkEnd, n) by { assert s[n..n + |ThinkEnd|] == ThinkEnd; }
    forall j: nat | j < n ensures !OccursAt(s, ThinkEnd, j) {
      NoEarlierThinkEnd(reasoning, answer, j);
    }
    FirstOccurrence(s, ThinkEnd, n);
    assert s[n + |ThinkEnd|..] == answer;
  }

  /**
   * A reply whose text after the first `</think>` is blank comes back whole,
   * reasoning trace and delimiter included.
   */
  lemma ThinkingKeptWhenBlank(reasoning: string, answer: string)
    requires !Contains(reasoning, ThinkEnd)
    requires Trim(answer) == ""
    ensures StripThinking(reasoning + ThinkEnd + answer) == reasoning + ThinkEnd + answer
  {
    var s := reasoning + ThinkEnd + answer;
    var n := |reasoning|;
    assert OccursAt(s, ThinkEnd, n) by { assert s[n..n + |ThinkEnd|] == ThinkEnd; }
    forall j: nat | j < n ensures !OccursAt(s, ThinkEnd, j) {
      NoEarlierThinkEnd(reasoning, answer, j);
    }
    FirstOccurrence(s, ThinkEnd, n);
    assert s[n + |ThinkEnd|..] == answer;
  }

  /**
   * Ollama's fallback chain for a parsed reply. Only a `null` reply makes it throw,
   * and it never yields `undefined`: its value is a string or a truthy value.
   */
  function OllamaExtract(response: Json): (r: Access)
    ensures r.Threw? <==> response == JNull
    ensures r.Val? ==> IsString(r.v) || Truthy(r.v)
  {
    var message := Prop(Some(response), "message");
    if message.Threw? then Threw
    else if Truthy(message.v) && IsString(OptProp(message.v, "content")) then
      Val(Some(JStr(StripThinking(OptProp(message.v, "content").value.s))))
    else
      var generated := OptProp(Some(response), "response");
      if IsString(generated) then Val(generated)
      else
        var choice := OptProp(OptProp(OptIndex0(OptProp(Some(response), "choices")), "message"), "content");
        if Truthy(choice) then Val(choice)
        else
          var completion := OptProp(OptIndex0(OptProp(Some(response), "completions")), "text");
          if Truthy(completion) then Val(completion)
          else Val(Some(JStr("")))
  }

  /** `_extractResponseText(response)`. */
  function ExtractResponseText(kind: ProviderKind, response: Json): Access {
    var r := Some(response);
    match kind
    case Anthropic => Then(Then0(Prop(r, "content")), "text")
    case OpenAI => Then(Then(Then0(Prop(r, "choices")), "message"), "content")
    case Gemini => Then(Then0(Then(Then(Then0(Prop(r, "candidates")), "content"), "parts")), "text")
    case OpenRouter => Then(Then(Then0(Prop(r, "choices")), "message"), "content")
    case Ollama => OllamaExtract(response)
  }

  /** A reply in the shape each provider documents. */
  function DocumentedReply(kind: ProviderKind, text: Json): Json {
    match kind
    case Anthropic => JObj([Member("content", JArr([JObj([Member("text", text)])]))])
    case OpenAI => JObj([Member("choices", JArr([JObj([Member("message", JObj([Member("content", text)]))])]))])
    case Gemini =>
      JObj([Member("candidates", JArr([JObj([Member("content",
        JObj([Member("parts", JArr([JObj([Member("text", text)])]))]))])]))])
    case OpenRouter => JObj([Member("choices", JArr([JObj([Member("message", JObj([Member("content", text)]))])]))])
    case Ollama => JObj([Member("message", JObj([Member("content", text)]))])
  }

  /**
   * Each extractor finds the text along its provider's documented path; Ollama
   * additionally strips a reasoning trace from a string reply.
   */
  lemma ExtractDocumentedReply(kind: ProviderKind, text: string)
    ensures ExtractResponseText(kind, DocumentedReply(kind, JStr(text)))
      == Val(Some(JStr(if kind == Ollama then StripThinking(text) else text)))
  {
    var t := JStr(text);
    match kind {
      case Anthropic =>
        PropOfSingle("text", t);
        PropOfSingle("content", JArr([JObj([Member("text", t)])]));
      case OpenAI =>
        PropOfSingle("content", t);
        PropOfSingle("message", JObj([Member("content", t)]));
        PropOfSingle("choices", JArr([JObj([Member("message", JObj([Member("content", t)]))])]));
      case Gemini =>
        var parts := JArr([JObj([Member("text", t)])]);
        PropOfSingle("text", t);
        PropOfSingle("parts", parts);
        PropOfSingle("content", JObj([Member("parts", parts)]));
        PropOfSingle("candidates", JArr([JObj([Member("content", JObj([Member("parts", parts)]))])]));
      case OpenRouter =>
        PropOfSingle("content", t);
        PropOfSingle("message", JObj([Member("content", t)]));
        PropOfSingle("choices", JArr([JObj([Member("message", JObj([Member("content", t)]))])]));
      case Ollama =>
        OllamaDocumentedReply(text);
    }
  }

  /** Ollama's documented reply `{message: {content: text}}` gives the text with any reasoning trace stripped. */
  lemma OllamaDocumentedReply(text: string)
    ensures OllamaExtract(DocumentedReply(Ollama, JStr(text))) == Val(Some(JStr(StripThinking(text))))
  {
    var m := JObj([Member("content", JStr(text))]);
    PropOfSingle("content", JStr(text));
    PropOfSingle("message", m);
    assert Prop(Some(DocumentedReply(Ollama, JStr(text))), "message") == Val(Some(m));
    assert OptProp(Some(m), "content") == Some(JStr(text));
  }

  /**
   * A reply that lacks the documented path makes the four hosted-provider extractors
   * throw, while Ollama's falls through to the empty string; Ollama's throws only on
   * a `null` reply.
   */
  lemma ExtractMissingPath(kind: ProviderKind, response: Json)
    ensures response == JObj([]) ==>
      if kind == Ollama then ExtractResponseText(kind, response) == Val(Some(JStr("")))
      else ExtractResponseText(kind, response).Threw?
    ensures kind == Ollama ==> (ExtractResponseText(kind, response).Threw? <==> response == JNull)
  {
  }

  /**
   * An Ollama reply whose message holds a reasoning trace, the closing delimiter and
   * a non-blank answer is extracted as the trimmed answer alone.
   */
  lemma OllamaDropsReasoning(reasoning: string, answer: string)
    requires !Contains(reasoning, ThinkEnd)
    requires Trim(answer) != ""
    ensures ExtractResponseText(Ollama, DocumentedReply(Ollama, JStr(reasoning + ThinkEnd + answer)))
      == Val(Some(JStr(Trim(answer))))
  {
    ThinkingStripped(reasoning, answer);
    ExtractDocumentedReply(Ollama, reasoning + ThinkEnd + answer);
  }

  /** `{response: t}`, the reply shape of Ollama's `/api/generate`. */
  function GenerateReply(t: Json): Json {
    JObj([Member("response", t)])
  }

  /** `{choices: [{message: {content: t}}]}`, the OpenAI-compatible shape. */
  function ChoicesReply(t: Json): Json {
    JObj([Member("choices", JArr([JObj([Member("message", JObj([Member("content", t)]))])]))])
  }

  /** `{completions: [{text: t}]}`, the completions shape. */
  function CompletionsReply(t: Json): Json {
    JObj([Member("completions", JArr([JObj([Member("text", t)])]))])
  }

  /** `{response: t}` gives `t`, even when `t` is empty. */
  lemma OllamaGenerateReply(t: string)
    ensures OllamaExtract(GenerateReply(JStr(t))) == Val(Some(JStr(t)))
  {
    PropOfSingle("response", JStr(t));
  }

  /** `{choices: [{message: {content: t}}]}` gives `t`; an empty `t` falls through to "". */
  lemma OllamaChoicesReply(t: string)
    ensures OllamaExtract(ChoicesReply(JStr(t))) == Val(Some(JStr(t)))
  {
    var v := JStr(t);
    PropOfSingle("content", v);
    PropOfSingle("message", JObj([Member("content", v)]));
    PropOfSingle("choices", JArr([JObj([Member("message", JObj([Member("content", v)]))])]));
  }

  /** `{completions: [{text: t}]}` gives `t`; an empty `t` falls through to "". */
  lemma OllamaCompletionsReply(t: string)
    ensures OllamaExtract(CompletionsReply(JStr(t))) == Val(Some(JStr(t)))
  {
    var v := JStr(t);
    PropOfSingle("text", v);
    PropOfSingle("completions", JArr([JObj([Member("text", v)])]));
  }

  /** A `message` without string content and an empty `choices` list both end in "". */
  lemma OllamaNothingUsable()
    ensures OllamaExtract(JObj([Member("message", Int(5))])) == Val(Some(JStr("")))
    ensures OllamaExtract(JObj([Member("choices", JArr([]))])) == Val(Some(JStr("")))
  {
    PropOfSingle("message", Int(5));
    PropOfSingle("choices", JArr([]));
  }

  /**
   * When the reply has no string `message.content`, Ollama's extractor tries in
   * turn a string `response` (even an empty one), a truthy
   * `choices[0].message.content`, a truthy `completions[0].text`, and otherwise
   * gives the empty string.
   */
  lemma OllamaFallbacks(t: string)
    ensures OllamaExtract(GenerateReply(JStr(t))) == Val(Some(JStr(t)))
    ensures OllamaExtract(ChoicesReply(JStr(t))) == Val(Some(JStr(t)))
    ensures OllamaExtract(CompletionsReply(JStr(t))) == Val(Some(JStr(t)))
    ensures OllamaExtract(JObj([Member("message", Int(5))])) == Val(Some(JStr("")))
    ensures OllamaExtract(JObj([Member("choices", JArr([]))])) == Val(Some(JStr("")))
  {
    OllamaGenerateReply(t);
    OllamaChoicesReply(t);
    OllamaCompletionsReply(t);
    OllamaNothingUsable();
  }

  /** A string `message.content` wins over `response`: only the first fallback is taken. */
  lemma OllamaMessageBeforeResponse(t: string, u: string)
    ensures OllamaExtract(JObj([Member("message", JObj([Member("content", JStr(u))])), Member("response", JStr(t))]))
      == Val(Some(JStr(StripThinking(u))))
  {
    var m := JObj([Member("content", JStr(u))]);
    var a := [Member("message", m), Member("response", JStr(t))];
    FieldOfUniqueKey(a, 0, "message");
    assert Prop(Some(JObj(a)), "message") == Val(Some(m));
    PropOfSingle("content", JStr(u));
  }

  /** A string `response` wins over `choices`, even when it is empty. */
  lemma OllamaResponseBeforeChoices(t: string, u: string)
    ensures OllamaExtract(JObj([Member("response", JStr(t)), Member("choices", ChoicesReply(JStr(u)).members[0].value)]))
      == Val(Some(JStr(t)))
  {
    var b := [Member("response", JStr(t)), Member("choices", ChoicesReply(JStr(u)).members[0].value)];
    FieldOfUniqueKey(b, 0, "response");
    assert Prop(Some(JObj(b)), "message") == Val(None);
    assert Prop(Some(JObj(b)), "response") == Val(Some(JStr(t)));
  }

  // ----------------------------------------------------------- classification

  /** Whether the response body parsed as JSON, and to what. */
  datatype ParseOutcome = Parsed(value: Json) | Unparseable(reason: string)

  /**
   * What the HTTP exchange produced: a transport failure (`send_and_read_finish`
   * threw), or a status with the body bytes (None when no bytes came back) and
   * the outcome of parsing them.
   */
  datatype HttpResult =
    | TransportFailure(reason: string)
    | Response(status: nat, body: Option<string>, parse: ParseOutcome)

  const StatusOk := 200

  /** Which path of the response handler produced an error. */
  datatype FailureKind = Network | NoData | HttpStatus | Parse | Empty | Exception

  /** One invocation of the caller's callback: `callback(Error, null)` or `callback(null, text)`. */
  datatype Delivery = Failed(kind: FailureKind, message: string) | Delivered(text: Json)

  /** The message of the TypeError a property read on undefined or null raises (engine wording not modelled). */
  const PropertyReadError := "TypeError: property read on undefined or null"

  function UrlLine(url: string): string { "\nURL: " + url }

  /** An error message: what went wrong, the URL line, then the details that follow it. */
  function ErrorText(what: string, url: string, details: string): (m: string)
    ensures Contains(m, UrlLine(url))
  {
    ContainsMiddle(what, UrlLine(url), details);
    what + UrlLine(url) + details
  }

  /**
   * The first callback invocation of `sendRequest`'s response handler for the
   * given HTTP result, with every error message as the handler composes it.
   */
  function Outcome(c: Config, h: History, r: HttpResult, serialize: Json -> string): (d: Delivery)
    ensures d.Failed? ==> Contains(d.message, UrlLine(EndpointUrl(c)))
  {
    var url := EndpointUrl(c);
    var request := serialize(RequestBody(c, h));
    match r
    case TransportFailure(reason) =>
      Failed(Network, ErrorText("Network error: " + reason, url, ""))
    case Response(status, body, parse) =>
      if body.None? then
        Failed(NoData, ErrorText("No response data received", url, ""))
      else if status != StatusOk then
        Failed(HttpStatus, ErrorText("HTTP error " + NatToString(status), url,
          "\nRequest: " + request + "\nResponse: " + body.value))
      else match parse
        case Unparseable(reason) =>
          Failed(Parse, ErrorText("Failed to parse JSON: " + reason, url, "\nRequest: " + request + "\nRaw: " + body.value))
        case Parsed(json) =>
          match ExtractResponseText(c.kind, json)
          case Threw =>
            Failed(Exception, ErrorText("Exception in response handler: " + PropertyReadError, url,
              "\nRequest: " + request))
          case Val(text) =>
            if !Truthy(text) then
              Failed(Empty, ErrorText("Response was empty.", url, "\nRequest: " + request + "\nRaw: " + body.value))
            else Delivered(text.value)
  }

  /**
   * Success is delivered exactly when the status is OK, a body came back, it
   * parsed, and the extractor returned a truthy value without throwing; that value
   * is what is delivered.
   */
  lemma DeliveredExactly(c: Config, h: History, r: HttpResult, serialize: Json -> string)
    ensures Outcome(c, h, r, serialize).Delivered? <==>
      && r.Response? && r.status == StatusOk && r.body.Some? && r.parse.Parsed?
      && ExtractResponseText(c.kind, r.parse.value).Val?
      && Truthy(ExtractResponseText(c.kind, r.parse.value).v)
    ensures Outcome(c, h, r, serialize).Delivered? ==>
      Some(Outcome(c, h, r, serialize).text) == ExtractResponseText(c.kind, r.parse.value).v
  {
  }

  /** Each failure path is the one its condition selects, checked in the handler's order. */
  lemma FailureKinds(c: Config, h: History, r: HttpResult, serialize: Json -> string)
    ensures r.TransportFailure? ==> Outcome(c, h, r, serialize).kind == Network
    ensures r.Response? && r.body.None? ==> Outcome(c, h, r, serialize).kind == NoData
    ensures r.Response? && r.body.Some? && r.status != StatusOk ==> Outcome(c, h, r, serialize).kind == HttpStatus
    ensures r.Response? && r.body.Some? && r.status == StatusOk && r.parse.Unparseable? ==>
      Outcome(c, h, r, serialize).kind == Parse
    ensures r.Response? && r.body.Some? && r.status == StatusOk && r.parse.Parsed? ==>
      (ExtractResponseText(c.kind, r.parse.value).Threw? ==> Outcome(c, h, r, serialize).kind == Exception)
    ensures r.Response? && r.body.Some? && r.status == StatusOk && r.parse.Parsed? ==>
      (ExtractResponseText(c.kind, r.parse.value).Val? && !Truthy(ExtractResponseText(c.kind, r.parse.value).v) ==>
         Outcome(c, h, r, serialize).kind == Empty)
  {
  }

  /**
   * Because the URL of a Gemini request embeds the API key, every Gemini error
   * message carries the key.
   */
  lemma GeminiFailuresCarryApiKey(c: Config, h: History, r: HttpResult, serialize: Json -> string)
    requires c.kind == Gemini && Outcome(c, h, r, serialize).Failed?
    ensures Contains(Outcome(c, h, r, serialize).message, c.apiKey)
  {
    var url := EndpointUrl(c);
    EndpointCarriesModelAndKey(c);
    ContainsMiddle("\nURL: ", url, "");
    assert "\nURL: " + url + "" == UrlLine(url);
    ContainsTransitive(Outcome(c, h, r, serialize).message, UrlLine(url), url);
    ContainsTransitive(Outcome(c, h, r, serialize).message, url, c.apiKey);
  }

  /** A response whose status is not OK is an HTTP error whatever its body holds; it is never delivered as text. */
  lemma NonOkStatusIsNeverDelivered(c: Config, h: History, status: nat, body: string, parse: ParseOutcome,
                                    serialize: Json -> string)
    requires status != StatusOk
    ensures Outcome(c, h, Response(status, Some(body), parse), serialize).Failed?
    ensures Outcome(c, h, Response(status, Some(body), parse), serialize).kind == HttpStatus
  {
  }

  /**
   * Only a falsy text counts as empty: an extracted text made of white space alone
   * is delivered as a success.
   */
  lemma BlankTextIsDelivered(c: Config, h: History, body: string, json: Json, serialize: Json -> string)
    requires ExtractResponseText(c.kind, json) == Val(Some(JStr("   ")))
    ensures Outcome(c, h, Response(StatusOk, Some(body), Parsed(json)), serialize) == Delivered(JStr("   "))
  {
  }

  /** The error the handler's outer `catch` delivers when a callback made from inside its `try` throws. */
  function HandlerException(c: Config, h: History, thrown: string, serialize: Json -> string): (d: Delivery)
    ensures d.Failed? && d.kind == Exception
    ensures Contains(d.message, UrlLine(EndpointUrl(c)))
  {
    Failed(Exception, ErrorText("Exception in response handler: " + thrown, EndpointUrl(c),
      "\nRequest: " + serialize(RequestBody(c, h))))
  }

  /** `_prepareRequest(url, requestBody)`: a POST to the endpoint with the adapter's headers and body. */
  function PrepareRequest(c: Config, h: History): HttpRequest {
    HttpRequest("POST", EndpointUrl(c), RequestHeaders(c), RequestBody(c, h))
  }

  datatype HttpRequest = HttpRequest(httpMethod: string, url: string, headers: seq<Header>, body: Json)

  /** An `LLMProvider` instance: its fixed configuration and its HTTP session's timeout. */
  class Provider {
    const config: Config
    var timeout: int

    constructor (config: Config)
      ensures this.config == config && timeout == DefaultTimeout
    {
      this.config := config;
      timeout := DefaultTimeout;
    }

    /** `setTimeout(seconds)` overwrites the session timeout. */
    method SetTimeout(seconds: int)
      modifies this`timeout
      ensures timeout == seconds
    {
      timeout := seconds;
    }

    /**
     * `sendRequest(history, callback)` once the HTTP exchange has produced `result`:
     * the callback invocations, in order. `callbackFault` is Some(message) when the
     * caller's callback throws with that message on being handed an error; such a
     * throw escapes to the handler's outer `catch`, which calls back a second time.
     */
    method SendRequest(history: History, result: HttpResult, serialize: Json -> string, callbackFault: Option<string>)
      returns (deliveries: seq<Delivery>)
      ensures 1 <= |deliveries| <= 2
      ensures deliveries[0] == Outcome(config, history, result, serialize)
      ensures |deliveries| == 2 <==>
        deliveries[0].Failed? && deliveries[0].kind != Exception && callbackFault.Some?
      ensures |deliveries| == 2 ==>
        deliveries[1] == HandlerException(config, history, callbackFault.value, serialize)
    {
      // the handler's first callback; a throw from the success callback is caught and logged
      var first := Outcome(config, history, result, serialize);
      deliveries := [first];
      if first.Failed? && first.kind != Exception && callbackFault.Some? {
        // a throw from an error callback reaches the outer catch, which calls back once more
        deliveries := deliveries + [HandlerException(config, history, callbackFault.value, serialize)];
      }
    }
  }

  /** `LLMProviderFactory.createProvider(providerType, apiKey, model)`. */
  method CreateProvider(id: string, apiKey: string, model: string) returns (p: Provider)
    ensures fresh(p)
    ensures p.config == Config(SelectKind(id), apiKey, model) && p.timeout == DefaultTimeout
  {
    p := new Provider(Config(SelectKind(id), apiKey, model));
  }
}
