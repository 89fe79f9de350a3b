/**
 * extension.js: the chat panel's conversation state. It holds the history, the
 * text of the input field and whether the field accepts typing. It reacts to the
 * user submitting input, to "new conversation", to loading the stored history and
 * to the reply a provider delivers. Widgets, rendering and focus handling are not
 * modelled; the persisted history lives in the settings store.
 */
module Extension {
  import opened Wrappers
  import opened Json
  import opened Messages
  import opened LlmProviders
  import opened Settings
  import C = Constants

  /** The part of the panel's state the handlers change. */
  datatype View = View(history: History, inputText: string, inputReactive: bool)

  /** Submitted text is handled unless it is empty or is the thinking placeholder. */
  predicate Accepts(text: string) {
    text != "" && text != C.ThinkingText
  }

  function UserTurn(input: string): Message {
    Message(C.UserRole, Some(input))
  }

  function AssistantTurn(reply: string): Message {
    Message(C.AssistantRole, Some(reply))
  }

  /**
   * `_handleUserInput` with the request sent: the input joins the history and the
   * field is locked showing the thinking text.
   */
  function AfterInput(v: View): View {
    if Accepts(v.inputText) then View(v.history + [UserTurn(v.inputText)], C.ThinkingText, false) else v
  }

  /** The provider object `_sendToLLM` configures and the request it sends. */
  datatype PendingRequest = PendingRequest(config: Config, timeout: int, request: HttpRequest)

  /** The configuration `_sendToLLM` reads from the settings for the selected provider. */
  function ConfigFor(store: Store): Config
    requires WellTyped(store)
  {
    var provider := LlmProvider(store);
    Config(SelectKind(provider), ApiKey(store, provider), Model(store, provider))
  }

  function RequestFor(store: Store, h: History, timeout: int): PendingRequest
    requires WellTyped(store)
  {
    var config := ConfigFor(store);
    PendingRequest(config, timeout, PrepareRequest(config, h))
  }

  /**
   * Submitted text that is empty or shows the thinking text changes nothing.
   * Accepted text adds exactly one user entry holding it, and locks the input
   * showing the thinking text.
   */
  lemma InputGuard(v: View)
    ensures !Accepts(v.inputText) ==> AfterInput(v) == v
    ensures Accepts(v.inputText) ==>
      && AfterInput(v).history == v.history + [UserTurn(v.inputText)]
      && |AfterInput(v).history| == |v.history| + 1
      && AfterInput(v).inputText == C.ThinkingText && !AfterInput(v).inputReactive
  {
  }

  /** While a request is pending a second submission is ignored, so a question is never sent twice. */
  lemma SecondSubmitIgnored(v: View)
    ensures AfterInput(AfterInput(v)) == AfterInput(v)
  {
  }

  /**
   * The request sent carries the history with the new user entry last; for
   * OpenRouter the body's messages are that history itself.
   */
  lemma RequestCarriesQuestion(store: Store, v: View, timeout: int)
    requires WellTyped(store) && Accepts(v.inputText)
    ensures var r := RequestFor(store, AfterInput(v).history, timeout);
      && r.timeout == timeout
      && r.request.url == EndpointUrl(r.config)
      && (r.config.kind == OpenRouter ==>
            MessagesOf(r.request.body, "messages") == Some(v.history + [UserTurn(v.inputText)]))
  {
    var r := RequestFor(store, AfterInput(v).history, timeout);
    if r.config.kind == OpenRouter {
      OpenRouterBodyReadsBack(r.config, AfterInput(v).history);
    }
  }

  /** With Ollama selected the request names no model and no key, whatever `ollama-model` holds. */
  lemma OllamaRequestNamesNoModel(store: Store, h: History, timeout: int)
    requires WellTyped(store) && LlmProvider(store) == C.OllamaId
    ensures RequestFor(store, h, timeout).config == Config(Ollama, "", "")
    ensures BodyField(RequestFor(store, h, timeout).request.body, "model") == Some(JStr(""))
  {
    SelectKindOfId(Ollama);
    OllamaHasNoSettings(store);
    assert ConfigFor(store) == Config(Ollama, "", "");
    OllamaBodyReadsBack(Config(Ollama, "", ""), h);
  }

  /**
   * `_handleUserInput` as written: `_sendToLLM` calls a settings getter that
   * lib/settings.js does not define, so the call throws after the input has joined
   * the history; no request is sent and the input field is left as it was.
   */
  function AfterInputAsWritten(v: View): View {
    if Accepts(v.inputText) then View(v.history + [UserTurn(v.inputText)], v.inputText, v.inputReactive) else v
  }

  /**
   * As written, submitting the same accepted text twice records the question twice
   * and the field still holds it, where the intended handler records it once and
   * ignores the second submission.
   */
  lemma AsWrittenRecordsQuestionTwice(v: View)
    requires Accepts(v.inputText)
    ensures AfterInputAsWritten(AfterInputAsWritten(v)).history
      == v.history + [UserTurn(v.inputText), UserTurn(v.inputText)]
    ensures AfterInputAsWritten(v).inputText == v.inputText
    ensures AfterInput(AfterInput(v)).history == v.history + [UserTurn(v.inputText)]
  {
  }

  /** The test of `_handleNewConversation`, as its two clauses are written. */
  predicate NewConversationAllowed(text: string) {
    text == C.NewConversationText || text != C.ThinkingText
  }

  /** The two-clause test is the single test "the input does not show the thinking text". */
  lemma NewConversationTest(text: string)
    ensures NewConversationAllowed(text) <==> text != C.ThinkingText
  {
    assert C.NewConversationText != C.ThinkingText by {
      assert C.NewConversationText[0] != C.ThinkingText[0];
    }
  }

  /** `_handleNewConversation`: the view afterwards. */
  function AfterNewConversation(v: View): View {
    if NewConversationAllowed(v.inputText) then View([], v.inputText, v.inputReactive) else v
  }

  /** `_handleNewConversation`: the store afterwards. */
  function StoreAfterNewConversation(store: Store, v: View, codec: Codec): Store {
    if NewConversationAllowed(v.inputText) then WithHistory(store, [], codec) else store
  }

  /**
   * Unless the input shows the thinking text, a new conversation empties both the
   * history in memory and the stored one; while it does, nothing changes.
   */
  lemma NewConversationClears(store: Store, v: View, codec: Codec)
    requires WellTyped(store) && RoundTrips(codec)
    ensures v.inputText != C.ThinkingText ==>
      && AfterNewConversation(v).history == []
      && StoredHistory(StoreAfterNewConversation(store, v, codec), codec) == JArr([])
    ensures v.inputText == C.ThinkingText ==>
      AfterNewConversation(v) == v && StoreAfterNewConversation(store, v, codec) == store
  {
    NewConversationTest(v.inputText);
    HistoryReadsBack(store, [], codec);
  }

  /** `_loadHistory`: the stored history, with the input unlocked and empty. */
  function Loaded(store: Store, codec: Codec): View
    requires WellTyped(store)
  {
    View(HistoryFromJson(StoredHistory(store, codec)).GetOr([]), "", true)
  }

  /** Loading after a history was stored gives that history back, with the input unlocked and empty. */
  lemma LoadAfterStore(store: Store, h: History, codec: Codec)
    requires WellTyped(store) && RoundTrips(codec)
    ensures Loaded(WithHistory(store, h, codec), codec) == View(h, "", true)
  {
    HistoryReadsBack(store, h, codec);
  }

  /**
   * The callback `_sendToLLM` hands the provider: the view afterwards. An error
   * unlocks and clears the input. A string reply, even a blank one, joins the
   * history as one assistant entry and unlocks and clears the input. Any other
   * reply makes the callback throw before it changes anything (the throw is caught
   * and logged by the provider).
   */
  function AfterResponse(v: View, d: Delivery): View {
    match d
    case Failed(_, _) => View(v.history, "", true)
    case Delivered(JStr(reply)) => View(v.history + [AssistantTurn(reply)], "", true)
    case Delivered(_) => v
  }

  /** The callback: the store afterwards. Only a string reply persists the history. */
  function StoreAfterResponse(store: Store, v: View, d: Delivery, codec: Codec): Store {
    match d
    case Delivered(JStr(reply)) => WithHistory(store, v.history + [AssistantTurn(reply)], codec)
    case _ => store
  }

  /** An error leaves the history and the stored history alone and gives the input back, empty. */
  lemma ErrorKeepsHistory(store: Store, v: View, kind: FailureKind, message: string, codec: Codec)
    ensures AfterResponse(v, Failed(kind, message)) == View(v.history, "", true)
    ensures StoreAfterResponse(store, v, Failed(kind, message), codec) == store
  {
  }

  /**
   * A string reply, blank or not, adds exactly one assistant entry holding it, and
   * afterwards the stored history reads back as the history in memory.
   */
  lemma ReplyIsRecordedAndPersisted(store: Store, v: View, reply: string, codec: Codec)
    requires WellTyped(store) && RoundTrips(codec)
    ensures AfterResponse(v, Delivered(JStr(reply))).history == v.history + [AssistantTurn(reply)]
    ensures var after := StoreAfterResponse(store, v, Delivered(JStr(reply)), codec);
      HistoryFromJson(StoredHistory(after, codec)) == Some(AfterResponse(v, Delivered(JStr(reply))).history)
  {
    HistoryReadsBack(store, v.history + [AssistantTurn(reply)], codec);
  }

  /** One exchange: an accepted question and its string reply add exactly the two turns, in order. */
  lemma ExchangeAddsTwoTurns(v: View, reply: string)
    requires Accepts(v.inputText)
    ensures AfterResponse(AfterInput(v), Delivered(JStr(reply)))
      == View(v.history + [UserTurn(v.inputText), AssistantTurn(reply)], "", true)
  {
  }

  /** The chat panel (`PenguinIndicator`): its conversation state and the settings facade it persists through. */
  class Chat {
    var history: History
    var inputText: string
    var inputReactive: bool
    const manager: SettingsManager
    const codec: Codec

    function State(): View
      reads this
    {
      View(history, inputText, inputReactive)
    }

    /** `_init`: an empty history and an empty, unlocked input, then `_loadHistory`. */
    constructor (manager: SettingsManager, codec: Codec)
      requires WellTyped(manager.settings.values)
      ensures this.manager == manager && this.codec == codec
      ensures State() == Loaded(manager.settings.values, codec)
    {
      this.manager := manager;
      this.codec := codec;
      history := [];
      inputText := "";
      inputReactive := true;
      new;
      LoadHistory();
    }

    /** `_loadHistory`. */
    method LoadHistory()
      requires WellTyped(manager.settings.values)
      modifies this
      ensures State() == Loaded(manager.settings.values, codec)
    {
      inputReactive := false;
      inputText := C.LoadingHistoryText;
      var stored := StoredHistory(manager.settings.values, codec);
      history := HistoryFromJson(stored).GetOr([]);
      inputReactive := true;
      inputText := "";
    }

    /**
     * `_handleUserInput`, with `timeout` the request timeout `_sendToLLM` sets on
     * the provider. Returns the provider's configuration and the request it sends,
     * or None when the input is refused.
     */
    method HandleUserInput(timeout: int) returns (sent: Option<PendingRequest>)
      requires WellTyped(manager.settings.values)
      modifies this
      ensures State() == AfterInput(old(State()))
      ensures sent == if Accepts(old(inputText)) then Some(RequestFor(manager.settings.values, history, timeout)) else None
    {
      var input := inputText;
      if input == "" || input == C.ThinkingText {
        return None;
      }
      history := history + [UserTurn(input)];
      sent := SendToLlm(timeout);
      inputReactive := false;
      inputText := C.ThinkingText;
    }

    /** `_sendToLLM`: creates the selected provider, sets its timeout and prepares the request. */
    method SendToLlm(timeout: int) returns (sent: Option<PendingRequest>)
      requires WellTyped(manager.settings.values)
      ensures sent == Some(RequestFor(manager.settings.values, history, timeout))
    {
      var store := manager.settings.values;
      var providerId := LlmProvider(store);
      var provider := CreateProvider(providerId, ApiKey(store, providerId), Model(store, providerId));
      provider.SetTimeout(timeout);
      sent := Some(PendingRequest(provider.config, provider.timeout, PrepareRequest(provider.config, history)));
    }

    /** `_handleUserInput` as the source has it: the call that reads the timeout throws after the history push. */
    method HandleUserInputAsWritten()
      modifies this
      ensures State() == AfterInputAsWritten(old(State()))
    {
      var input := inputText;
      if input == "" || input == C.ThinkingText {
        return;
      }
      history := history + [UserTurn(input)];
    }

    /** `_handleNewConversation`. */
    method HandleNewConversation()
      modifies this, manager.settings`values
      ensures State() == AfterNewConversation(old(State()))
      ensures manager.settings.values == StoreAfterNewConversation(old(manager.settings.values), old(State()), codec)
    {
      if inputText == C.NewConversationText || inputText != C.ThinkingText {
        history := [];
        manager.SetHistory([], codec);
      }
    }

    /** The callback closure of `_sendToLLM`, invoked with one delivery. */
    method OnResponse(d: Delivery)
      modifies this, manager.settings`values
      ensures State() == AfterResponse(old(State()), d)
      ensures manager.settings.values == StoreAfterResponse(old(manager.settings.values), old(State()), d, codec)
    {
      if d.Failed? {
        inputReactive := true;
        inputText := "";
      } else if d.text.JStr? {
        history := history + [AssistantTurn(d.text.s)];
        manager.SetHistory(history, codec);
        inputReactive := true;
        inputText := "";
      }
    }
  }
}
