/**
 * lib/settings.js: the `SettingsManager` facade over the extension's GSettings
 * store. The store is a map from schema keys to values. The getters are functions
 * of its contents. The setters and the change-callback registry are methods of
 * the classes that own that state.
 */
module Settings {
  import opened Wrappers
  import opened Json
  import opened Messages
  import C = Constants

  /** A stored setting: a string (schema type `s`) or a list of strings (schema type `as`). */
  datatype Value = Text(s: string) | TextList(items: seq<string>)

  type Store = map<string, Value>

  /** The string-typed keys of the schema that the facade reads or writes. */
  const StringKeys: set<string> := {
    C.LlmProviderKey,
    C.AnthropicApiKeyKey, C.OpenAIApiKeyKey, C.GeminiApiKeyKey, C.OpenRouterApiKeyKey,
    C.AnthropicModelKey, C.OpenAIModelKey, C.GeminiModelKey, C.OpenRouterModelKey, C.OllamaModelKey,
    C.HumanMessageColorKey, C.LlmMessageColorKey, C.HumanMessageTextColorKey, C.LlmMessageTextColorKey,
    C.HistoryKey
  }

  /** The four colour keys of the style settings. */
  const ColourKeys: set<string> := {
    C.HumanMessageColorKey, C.LlmMessageColorKey, C.HumanMessageTextColorKey, C.LlmMessageTextColorKey
  }

  /**
   * The schema holds every key with a value of its declared type; GSettings
   * aborts on a key outside the schema, so every read requires this.
   */
  predicate WellTyped(store: Store) {
    && (forall k :: k in StringKeys ==> k in store && store[k].Text?)
    && C.OpenChatShortcutKey in store && store[C.OpenChatShortcutKey].TextList?
  }

  /** `get_string(key)`. */
  function GetString(store: Store, key: string): string
    requires WellTyped(store) && key in StringKeys
  {
    store[key].s
  }

  /** `set_string(key, value)`: the key gets the new text and keeps its type. */
  function PutString(store: Store, key: string, value: string): (r: Store)
    requires key in StringKeys
    ensures WellTyped(store) ==> WellTyped(r) && GetString(r, key) == value
    ensures r - {key} == store - {key}
  {
    store[key := Text(value)]
  }

  /** `getLLMProvider()`. */
  function LlmProvider(store: Store): string
    requires WellTyped(store)
  {
    GetString(store, C.LlmProviderKey)
  }

  /** The four providers the facade keeps an API key and a model for. */
  const HostedIds: set<string> := {C.AnthropicId, C.OpenAIId, C.GeminiId, C.OpenRouterId}

  /** The key `getApiKey`/`setApiKey` use for a provider; any other id has none. */
  function ApiKeySetting(provider: string): (k: Option<string>)
    ensures k.Some? <==> provider in HostedIds
    ensures k.Some? ==> k.value in StringKeys && k.value !in ColourKeys && k.value != C.HistoryKey
  {
    if provider == C.AnthropicId then Some(C.AnthropicApiKeyKey)
    else if provider == C.OpenAIId then Some(C.OpenAIApiKeyKey)
    else if provider == C.GeminiId then Some(C.GeminiApiKeyKey)
    else if provider == C.OpenRouterId then Some(C.OpenRouterApiKeyKey)
    else None
  }

  /** The key `getModel`/`setModel` use for a provider; `ollama` has none although the schema has an `ollama-model` key. */
  function ModelSetting(provider: string): (k: Option<string>)
    ensures k.Some? <==> provider in HostedIds
    ensures k.Some? ==> k.value in StringKeys && k.value !in ColourKeys && k.value != C.HistoryKey
    ensures k != Some(C.OllamaModelKey)
  {
    if provider == C.AnthropicId then Some(C.AnthropicModelKey)
    else if provider == C.OpenAIId then Some(C.OpenAIModelKey)
    else if provider == C.GeminiId then Some(C.GeminiModelKey)
    else if provider == C.OpenRouterId then Some(C.OpenRouterModelKey)
    else None
  }

  /** Distinct providers keep their keys and models under distinct settings. */
  lemma SettingsKeysDistinct(p: string, q: string)
    requires p in HostedIds && q in HostedIds
    ensures p != q ==> ApiKeySetting(p) != ApiKeySetting(q) && ModelSetting(p) != ModelSetting(q)
    ensures ApiKeySetting(p) != ModelSetting(q)
  {
  }

  /** `getApiKey(provider)`. */
  function ApiKey(store: Store, provider: string): (r: string)
    requires WellTyped(store)
    ensures provider !in HostedIds ==> r == ""
  {
    match ApiKeySetting(provider)
    case Some(k) => GetString(store, k)
    case None => ""
  }

  /** `getModel(provider)`. */
  function Model(store: Store, provider: string): (r: string)
    requires WellTyped(store)
    ensures provider !in HostedIds ==> r == ""
  {
    match ModelSetting(provider)
    case Some(k) => GetString(store, k)
    case None => ""
  }

  /** `setApiKey(provider, apiKey)`. */
  function WithApiKey(store: Store, provider: string, apiKey: string): (r: Store)
    ensures WellTyped(store) ==> WellTyped(r)
  {
    match ApiKeySetting(provider)
    case Some(k) => PutString(store, k, apiKey)
    case None => store
  }

  /** `setModel(provider, model)`. */
  function WithModel(store: Store, provider: string, model: string): (r: Store)
    ensures WellTyped(store) ==> WellTyped(r)
  {
    match ModelSetting(provider)
    case Some(k) => PutString(store, k, model)
    case None => store
  }

  /**
   * A key written for a hosted provider reads back for it and leaves every other
   * provider's key and model as they were; for any other id (`ollama` included)
   * the write changes nothing and the read gives "".
   */
  lemma ApiKeyReadsBack(store: Store, p: string, q: string, apiKey: string)
    requires WellTyped(store)
    ensures ApiKey(WithApiKey(store, p, apiKey), p) == (if p in HostedIds then apiKey else "")
    ensures p !in HostedIds ==> WithApiKey(store, p, apiKey) == store
    ensures q != p ==> ApiKey(WithApiKey(store, p, apiKey), q) == ApiKey(store, q)
    ensures Model(WithApiKey(store, p, apiKey), q) == Model(store, q)
  {
    if p in HostedIds && q in HostedIds {
      SettingsKeysDistinct(p, q);
    }
  }

  /** The same for models: `getModel` after `setModel` for the same hosted provider gives the model back. */
  lemma ModelReadsBack(store: Store, p: string, q: string, model: string)
    requires WellTyped(store)
    ensures Model(WithModel(store, p, model), p) == (if p in HostedIds then model else "")
    ensures p !in HostedIds ==> WithModel(store, p, model) == store
    ensures q != p ==> Model(WithModel(store, p, model), q) == Model(store, q)
    ensures ApiKey(WithModel(store, p, model), q) == ApiKey(store, q)
  {
    if p in HostedIds && q in HostedIds {
      SettingsKeysDistinct(p, q);
      SettingsKeysDistinct(q, p);
    }
  }

  /** Whatever the store holds under `ollama-model`, the facade reports no model and no key for Ollama. */
  lemma OllamaHasNoSettings(store: Store)
    requires WellTyped(store)
    ensures Model(store, C.OllamaId) == "" && ApiKey(store, C.OllamaId) == ""
  {
  }

  /**
   * `getHistory()`: the parsed stored text, where an empty text stands for `[]`
   * and a text that fails to parse gives the empty array.
   */
  function StoredHistory(store: Store, codec: Codec): Json
    requires WellTyped(store)
  {
    var text := GetString(store, C.HistoryKey);
    match codec.parse(if text == "" then "[]" else text)
    case Some(j) => j
    case None => JArr([])
  }

  /** `setHistory(history)`: the stored text becomes the history's serialisation. */
  function WithHistory(store: Store, h: History, codec: Codec): (r: Store)
    ensures WellTyped(store) ==> WellTyped(r)
  {
    PutString(store, C.HistoryKey, codec.stringify(HistoryToJson(h)))
  }

  /** An empty or unreadable stored history is read as the empty array. */
  lemma StoredHistoryFallback(store: Store, codec: Codec)
    requires WellTyped(store) && RoundTrips(codec)
    requires GetString(store, C.HistoryKey) == "" || codec.parse(GetString(store, C.HistoryKey)).None?
    ensures StoredHistory(store, codec) == JArr([])
  {
    assert codec.parse(codec.stringify(JArr([]))) == Some(JArr([]));
  }

  /** A history that was set reads back as the same history. */
  lemma HistoryReadsBack(store: Store, h: History, codec: Codec)
    requires WellTyped(store) && RoundTrips(codec)
    ensures StoredHistory(WithHistory(store, h, codec), codec) == HistoryToJson(h)
    ensures HistoryFromJson(StoredHistory(WithHistory(store, h, codec), codec)) == Some(h)
  {
    var text := codec.stringify(HistoryToJson(h));
    assert codec.parse(text) == Some(HistoryToJson(h));
    assert codec.parse(codec.stringify(JArr([]))) == Some(JArr([]));
    HistoryRoundTrip(h);
  }

  /** `getOpenChatShortcut()`: the first accelerator of the stored list, or "" when the list is empty. */
  function OpenChatShortcut(store: Store): string
    requires WellTyped(store)
  {
    var shortcuts := store[C.OpenChatShortcutKey].items;
    if |shortcuts| > 0 then shortcuts[0] else ""
  }

  /** `set_strv(open-chat-shortcut, list)`. */
  function WithShortcuts(store: Store, shortcuts: seq<string>): (r: Store)
    ensures WellTyped(store) ==> WellTyped(r)
  {
    store[C.OpenChatShortcutKey := TextList(shortcuts)]
  }

  /** The getter reads back the head of the stored list, and "" for an empty list. */
  lemma ShortcutReadsBack(store: Store, shortcuts: seq<string>)
    requires WellTyped(store)
    ensures OpenChatShortcut(WithShortcuts(store, shortcuts)) == (if shortcuts == [] then "" else shortcuts[0])
    ensures forall s :: OpenChatShortcut(WithShortcuts(store, [s])) == s
  {
  }

  /** The fields of a style-settings object; an absent field is None. */
  datatype Style = Style(
    humanMessageColor: Option<string>,
    llmMessageColor: Option<string>,
    humanMessageTextColor: Option<string>,
    llmMessageTextColor: Option<string>)

  /** A style field is written only when it is truthy: present and not the empty string. */
  predicate Given(field: Option<string>) {
    field.Some? && field.value != ""
  }

  function PutIfGiven(store: Store, key: string, field: Option<string>): (r: Store)
    requires key in ColourKeys
    ensures WellTyped(store) ==> WellTyped(r)
    ensures r - {key} == store - {key}
  {
    if Given(field) then PutString(store, key, field.value) else store
  }

  /** `setStyleSettings(styleSettings)`. */
  function WithStyle(store: Store, style: Style): (r: Store)
    ensures WellTyped(store) ==> WellTyped(r)
  {
    var s1 := PutIfGiven(store, C.HumanMessageColorKey, style.humanMessageColor);
    var s2 := PutIfGiven(s1, C.LlmMessageColorKey, style.llmMessageColor);
    var s3 := PutIfGiven(s2, C.HumanMessageTextColorKey, style.humanMessageTextColor);
    PutIfGiven(s3, C.LlmMessageTextColorKey, style.llmMessageTextColor)
  }

  /** `getStyleSettings()`. */
  function StyleOf(store: Store): Style
    requires WellTyped(store)
  {
    Style(Some(GetString(store, C.HumanMessageColorKey)), Some(GetString(store, C.LlmMessageColorKey)),
      Some(GetString(store, C.HumanMessageTextColorKey)), Some(GetString(store, C.LlmMessageTextColorKey)))
  }

  /**
   * A style update writes exactly the given fields: each colour reads back as the
   * given value when one was given and as before otherwise, and no key outside the
   * four colours changes.
   */
  lemma {:induction false} StyleUpdate(store: Store, style: Style)
    requires WellTyped(store)
    ensures var after := StyleOf(WithStyle(store, style));
      var before := StyleOf(store);
      && after.humanMessageColor == (if Given(style.humanMessageColor) then style.humanMessageColor else before.humanMessageColor)
      && after.llmMessageColor == (if Given(style.llmMessageColor) then style.llmMessageColor else before.llmMessageColor)
      && after.humanMessageTextColor
        == (if Given(style.humanMessageTextColor) then style.humanMessageTextColor else before.humanMessageTextColor)
      && after.llmMessageTextColor
        == (if Given(style.llmMessageTextColor) then style.llmMessageTextColor else before.llmMessageTextColor)
    ensures WithStyle(store, style) - ColourKeys == store - ColourKeys
  {
    var s1 := PutIfGiven(store, C.HumanMessageColorKey, style.humanMessageColor);
    var s2 := PutIfGiven(s1, C.LlmMessageColorKey, style.llmMessageColor);
    var s3 := PutIfGiven(s2, C.HumanMessageTextColorKey, style.humanMessageTextColor);
    var s4 := PutIfGiven(s3, C.LlmMessageTextColorKey, style.llmMessageTextColor);
    assert s1 - ColourKeys == store - ColourKeys by { SameOutside(s1, store, C.HumanMessageColorKey); }
    assert s2 - ColourKeys == s1 - ColourKeys by { SameOutside(s2, s1, C.LlmMessageColorKey); }
    assert s3 - ColourKeys == s2 - ColourKeys by { SameOutside(s3, s2, C.HumanMessageTextColorKey); }
    assert s4 - ColourKeys == s3 - ColourKeys by { SameOutside(s4, s3, C.LlmMessageTextColorKey); }
  }

  /** Two stores that agree outside one colour key agree outside all four. */
  lemma SameOutside(a: Store, b: Store, key: string)
    requires key in ColourKeys && a - {key} == b - {key}
    ensures a - ColourKeys == b - ColourKeys
  {
    assert a - ColourKeys == (a - {key}) - ColourKeys;
    assert b - ColourKeys == (b - {key}) - ColourKeys;
  }

  /** A change callback, identified by the function object it is. */
  type Callback = nat

  /** The GSettings object: its key-value contents and its connected `changed` handlers. */
  class SettingsStore {
    var values: Store
    var handlers: set<nat>
    var nextHandler: nat

    /** Handler ids are issued in increasing order, so every connected id is below the next one. */
    ghost predicate Valid()
      reads this
    {
      forall id :: id in handlers ==> id < nextHandler
    }

    constructor (values: Store)
      ensures this.values == values && handlers == {} && nextHandler == 1 && Valid()
    {
      this.values := values;
      handlers := {};
      nextHandler := 1;
    }

    /** `set_string(key, value)`. */
    method SetString(key: string, value: string)
      requires key in StringKeys
      modifies this`values
      ensures values == PutString(old(values), key, value)
    {
      values := PutString(values, key, value);
    }

    /** `set_strv(open-chat-shortcut, shortcuts)`. */
    method SetStrv(shortcuts: seq<string>)
      modifies this`values
      ensures values == WithShortcuts(old(values), shortcuts)
    {
      values := WithShortcuts(values, shortcuts);
    }

    /** `connect("changed", callback)`: a fresh handler id. */
    method Connect() returns (id: nat)
      requires Valid()
      modifies this`handlers, this`nextHandler
      ensures Valid()
      ensures id == old(nextHandler) && id !in old(handlers)
      ensures handlers == old(handlers) + {id}
    {
      id := nextHandler;
      handlers := handlers + {id};
      nextHandler := nextHandler + 1;
    }

    /** `disconnect(id)`. */
    method Disconnect(id: nat)
      requires Valid()
      modifies this`handlers
      ensures Valid() && handlers == old(handlers) - {id}
    {
      handlers := handlers - {id};
    }
  }

  /** `SettingsManager`: the store it wraps and the map from callbacks to their handler ids. */
  class SettingsManager {
    const settings: SettingsStore
    var callbacks: map<Callback, nat>

    /** Every recorded id is connected, and no two callbacks share one. */
    ghost predicate Valid()
      reads this, settings
    {
      && settings.Valid()
      && Registered(callbacks, settings.handlers)
    }

    constructor (settings: SettingsStore)
      requires settings.Valid()
      ensures this.settings == settings && callbacks == map[] && Valid()
    {
      this.settings := settings;
      callbacks := map[];
    }

    /**
     * `connectToChanges(callback)`: connects a fresh handler and records it for the
     * callback. A callback connected twice keeps only its newer id, so the older
     * handler stays connected where the facade can no longer reach it.
     */
    method ConnectToChanges(cb: Callback) returns (id: nat)
      requires Valid()
      modifies this, settings`handlers, settings`nextHandler
      ensures Valid()
      ensures id !in old(settings.handlers) && settings.handlers == old(settings.handlers) + {id}
      ensures callbacks == old(callbacks)[cb := id]
      ensures cb in old(callbacks) ==> old(callbacks)[cb] in settings.handlers && old(callbacks)[cb] !in callbacks.Values
    {
      id := settings.Connect();
      callbacks := callbacks[cb := id];
    }

    /** `disconnectFromChanges(callback)`: a callback that was never connected is a no-op. */
    method DisconnectFromChanges(cb: Callback)
      requires Valid()
      modifies this, settings`handlers
      ensures Valid()
      ensures cb !in old(callbacks) ==> callbacks == old(callbacks) && settings.handlers == old(settings.handlers)
      ensures cb in old(callbacks) ==>
        && callbacks == old(callbacks) - {cb}
        && settings.handlers == old(settings.handlers) - {old(callbacks)[cb]}
    {
      if cb in callbacks {
        settings.Disconnect(callbacks[cb]);
        callbacks := callbacks - {cb};
      }
    }

    /** `disconnectAll()`: every recorded handler is disconnected and the registry ends empty. */
    method DisconnectAll()
      requires Valid()
      modifies this, settings`handlers
      ensures Valid()
      ensures callbacks == map[]
      ensures settings.handlers == old(settings.handlers) - old(callbacks.Values)
    {
      ghost var removed: set<nat> := {};
      ghost var recorded := callbacks.Values;
      ghost var connected := settings.handlers;
      while callbacks != map[]
        invariant Valid()
        invariant removed + callbacks.Values == recorded
        invariant settings.handlers == connected - removed
        decreases callbacks.Keys
      {
        var cb :| cb in callbacks;
        var id := callbacks[cb];
        Unregister(callbacks, settings.handlers, cb);
        settings.Disconnect(id);
        callbacks := callbacks - {cb};
        removed := removed + {id};
      }
    }

    /** `setHistory(history)`. */
    method SetHistory(h: History, codec: Codec)
      modifies settings`values
      ensures settings.values == WithHistory(old(settings.values), h, codec)
    {
      settings.SetString(C.HistoryKey, codec.stringify(HistoryToJson(h)));
    }

    /** `setLLMProvider(provider)`: any text is stored, listed id or not. */
    method SetLlmProvider(provider: string)
      modifies settings`values
      ensures settings.values == PutString(old(settings.values), C.LlmProviderKey, provider)
    {
      settings.SetString(C.LlmProviderKey, provider);
    }

    /** `setOpenChatShortcut(shortcut)`: the list becomes the single accelerator. */
    method SetOpenChatShortcut(shortcut: string)
      modifies settings`values
      ensures settings.values == WithShortcuts(old(settings.values), [shortcut])
    {
      settings.SetStrv([shortcut]);
    }

    /** `setApiKey(provider, apiKey)`. */
    method SetApiKey(provider: string, apiKey: string)
      modifies settings`values
      ensures settings.values == WithApiKey(old(settings.values), provider, apiKey)
    {
      if provider == C.AnthropicId {
        settings.SetString(C.AnthropicApiKeyKey, apiKey);
      } else if provider == C.OpenAIId {
        settings.SetString(C.OpenAIApiKeyKey, apiKey);
      } else if provider == C.GeminiId {
        settings.SetString(C.GeminiApiKeyKey, apiKey);
      } else if provider == C.OpenRouterId {
        settings.SetString(C.OpenRouterApiKeyKey, apiKey);
      }
    }

    /** `setModel(provider, model)`. */
    method SetModel(provider: string, model: string)
      modifies settings`values
      ensures settings.values == WithModel(old(settings.values), provider, model)
    {
      if provider == C.AnthropicId {
        settings.SetString(C.AnthropicModelKey, model);
      } else if provider == C.OpenAIId {
        settings.SetString(C.OpenAIModelKey, model);
      } else if provider == C.GeminiId {
        settings.SetString(C.GeminiModelKey, model);
      } else if provider == C.OpenRouterId {
        settings.SetString(C.OpenRouterModelKey, model);
      }
    }

    /** `setStyleSettings(styleSettings)`: writes the truthy fields, in the order the source tests them. */
    method SetStyleSettings(style: Style)
      modifies settings`values
      ensures settings.values == WithStyle(old(settings.values), style)
    {
      if Given(style.humanMessageColor) {
        settings.SetString(C.HumanMessageColorKey, style.humanMessageColor.value);
      }
      if Given(style.llmMessageColor) {
        settings.SetString(C.LlmMessageColorKey, style.llmMessageColor.value);
      }
      if Given(style.humanMessageTextColor) {
        settings.SetString(C.HumanMessageTextColorKey, style.humanMessageTextColor.value);
      }
      if Given(style.llmMessageTextColor) {
        settings.SetString(C.LlmMessageTextColorKey, style.llmMessageTextColor.value);
      }
    }
  }

  /** A registry of callbacks: every recorded id is connected, and no two callbacks share one. */
  predicate Registered(m: map<Callback, nat>, handlers: set<nat>) {
    && (forall cb :: cb in m ==> m[cb] in handlers)
    && (forall c1, c2 :: c1 in m && c2 in m && c1 != c2 ==> m[c1] != m[c2])
  }

  /**
   * Dropping one callback and disconnecting its id keeps the registry consistent
   * and removes exactly that id from the recorded ones.
   */
  lemma Unregister(m: map<Callback, nat>, handlers: set<nat>, k: Callback)
    requires k in m && Registered(m, handlers)
    ensures Registered(m - {k}, handlers - {m[k]})
    ensures (m - {k}).Values == m.Values - {m[k]}
    ensures (m - {k}).Keys < m.Keys
  {
    forall v | v in m.Values - {m[k]} ensures v in (m - {k}).Values {
      var c :| c in m && m[c] == v;
      assert (m - {k})[c] == v;
    }
  }
}
