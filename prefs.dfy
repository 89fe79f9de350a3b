/**
 * prefs.js: the settings window. It shows the stored provider as a position in
 * its drop-down, fills the key and model entries from the store, writes them all
 * back on "Save Preferences", and captures a new chat shortcut from the keyboard.
 */
module Prefs {
  import opened Wrappers
  import opened Settings
  import C = Constants

  /** The drop-down's entries, in the order the window lists them; `ollama` is not among them. */
  const ProviderList: seq<string> := [C.AnthropicId, C.OpenAIId, C.GeminiId, C.OpenRouterId]

  /** The position the drop-down shows for a stored provider id: where it is listed, else 0. */
  function ProviderIndex(id: string): (i: nat)
    ensures i < |ProviderList|
    ensures id in ProviderList ==> ProviderList[i] == id
    ensures id !in ProviderList ==> i == 0
  {
    if id == C.AnthropicId then 0
    else if id == C.OpenAIId then 1
    else if id == C.GeminiId then 2
    else if id == C.OpenRouterId then 3
    else 0
  }

  /** Selecting position i and loading it again gives i back: the positions name distinct ids. */
  lemma IndexOfListed(i: nat)
    requires i < |ProviderList|
    ensures ProviderIndex(ProviderList[i]) == i
  {
  }

  /** The entry texts the window starts with: each hosted provider's stored key, in list order. */
  function LoadedKeys(store: Store): (keys: seq<string>)
    requires WellTyped(store)
    ensures |keys| == |ProviderList|
    ensures forall i :: 0 <= i < |keys| ==> keys[i] == ApiKey(store, ProviderList[i])
  {
    [GetString(store, C.AnthropicApiKeyKey), GetString(store, C.OpenAIApiKeyKey),
     GetString(store, C.GeminiApiKeyKey), GetString(store, C.OpenRouterApiKeyKey)]
  }

  /** The model entry texts the window starts with. */
  function LoadedModels(store: Store): (models: seq<string>)
    requires WellTyped(store)
    ensures |models| == |ProviderList|
    ensures forall i :: 0 <= i < |models| ==> models[i] == Model(store, ProviderList[i])
  {
    [GetString(store, C.AnthropicModelKey), GetString(store, C.OpenAIModelKey),
     GetString(store, C.GeminiModelKey), GetString(store, C.OpenRouterModelKey)]
  }

  /**
   * The store after `_saveSettings`: the selected provider id, then the four keys,
   * the four models and the four colour texts, each from its own entry.
   */
  function SavedStore(store: Store, selected: nat, keys: seq<string>, models: seq<string>, colours: seq<string>): (r: Store)
    requires selected < |ProviderList| && |keys| == 4 && |models| == 4 && |colours| == 4
    ensures WellTyped(store) ==> WellTyped(r)
  {
    var withProvider := PutString(store, C.LlmProviderKey, ProviderList[selected]);
    var withKeys := SavedKeys(withProvider, keys);
    var withModels := SavedModels(withKeys, models);
    SavedColours(withModels, colours)
  }

  function SavedKeys(store: Store, keys: seq<string>): (r: Store)
    requires |keys| == 4
    ensures WellTyped(store) ==> WellTyped(r)
  {
    var s1 := PutString(store, C.AnthropicApiKeyKey, keys[0]);
    var s2 := PutString(s1, C.OpenAIApiKeyKey, keys[1]);
    var s3 := PutString(s2, C.GeminiApiKeyKey, keys[2]);
    PutString(s3, C.OpenRouterApiKeyKey, keys[3])
  }

  function SavedModels(store: Store, models: seq<string>): (r: Store)
    requires |models| == 4
    ensures WellTyped(store) ==> WellTyped(r)
  {
    var s1 := PutString(store, C.AnthropicModelKey, models[0]);
    var s2 := PutString(s1, C.OpenAIModelKey, models[1]);
    var s3 := PutString(s2, C.GeminiModelKey, models[2]);
    PutString(s3, C.OpenRouterModelKey, models[3])
  }

  function SavedColours(store: Store, colours: seq<string>): (r: Store)
    requires |colours| == 4
    ensures WellTyped(store) ==> WellTyped(r)
  {
    var s1 := PutString(store, C.HumanMessageColorKey, colours[0]);
    var s2 := PutString(s1, C.LlmMessageColorKey, colours[1]);
    var s3 := PutString(s2, C.HumanMessageTextColorKey, colours[2]);
    PutString(s3, C.LlmMessageTextColorKey, colours[3])
  }

  const ApiKeyKeys: set<string> := {C.AnthropicApiKeyKey, C.OpenAIApiKeyKey, C.GeminiApiKeyKey, C.OpenRouterApiKeyKey}
  const ModelKeys: set<string> := {C.AnthropicModelKey, C.OpenAIModelKey, C.GeminiModelKey, C.OpenRouterModelKey}

  /** The key writes store each entry under its provider's key and touch no other key. */
  lemma SavedKeysWrite(store: Store, keys: seq<string>)
    requires |keys| == 4
    ensures var r := SavedKeys(store, keys);
      && r[C.AnthropicApiKeyKey] == Text(keys[0]) && r[C.OpenAIApiKeyKey] == Text(keys[1])
      && r[C.GeminiApiKeyKey] == Text(keys[2]) && r[C.OpenRouterApiKeyKey] == Text(keys[3])
      && r - ApiKeyKeys == store - ApiKeyKeys
  {
  }

  lemma SavedModelsWrite(store: Store, models: seq<string>)
    requires |models| == 4
    ensures var r := SavedModels(store, models);
      && r[C.AnthropicModelKey] == Text(models[0]) && r[C.OpenAIModelKey] == Text(models[1])
      && r[C.GeminiModelKey] == Text(models[2]) && r[C.OpenRouterModelKey] == Text(models[3])
      && r - ModelKeys == store - ModelKeys
  {
  }

  lemma SavedColoursWrite(store: Store, colours: seq<string>)
    requires |colours| == 4
    ensures var r := SavedColours(store, colours);
      && r[C.HumanMessageColorKey] == Text(colours[0]) && r[C.LlmMessageColorKey] == Text(colours[1])
      && r[C.HumanMessageTextColorKey] == Text(colours[2]) && r[C.LlmMessageTextColorKey] == Text(colours[3])
      && r - ColourKeys == store - ColourKeys
  {
  }

  /** A key outside the written set keeps its value. */
  lemma KeptOutside(r: Store, store: Store, written: set<string>, k: string)
    requires r - written == store - written && k in store && k !in written
    ensures k in r && r[k] == store[k]
  {
    assert k in store - written;
  }

  /** `_saveSettings` writes the provider id and leaves the history, the shortcut and the Ollama model alone. */
  lemma SavedUntouched(store: Store, selected: nat, keys: seq<string>, models: seq<string>, colours: seq<string>)
    requires WellTyped(store)
    requires selected < |ProviderList| && |keys| == 4 && |models| == 4 && |colours| == 4
    ensures var r := SavedStore(store, selected, keys, models, colours);
      && r[C.LlmProviderKey] == Text(ProviderList[selected])
      && r[C.HistoryKey] == store[C.HistoryKey]
      && r[C.OpenChatShortcutKey] == store[C.OpenChatShortcutKey]
      && r[C.OllamaModelKey] == store[C.OllamaModelKey]
  {
    var withProvider := PutString(store, C.LlmProviderKey, ProviderList[selected]);
    var withKeys := SavedKeys(withProvider, keys);
    var withModels := SavedModels(withKeys, models);
    var r := SavedColours(withModels, colours);
    SavedKeysWrite(withProvider, keys);
    SavedModelsWrite(withKeys, models);
    SavedColoursWrite(withModels, colours);
    var untouched := [C.LlmProviderKey, C.HistoryKey, C.OpenChatShortcutKey, C.OllamaModelKey];
    for j := 0 to 4
      invariant forall i :: 0 <= i < j ==> untouched[i] in r && r[untouched[i]] == withProvider[untouched[i]]
    {
      var k := untouched[j];
      KeptOutside(withKeys, withProvider, ApiKeyKeys, k);
      KeptOutside(withModels, withKeys, ModelKeys, k);
      KeptOutside(r, withModels, ColourKeys, k);
    }
    KeptOutside(withProvider, store, {C.LlmProviderKey}, C.HistoryKey);
    KeptOutside(withProvider, store, {C.LlmProviderKey}, C.OpenChatShortcutKey);
    KeptOutside(withProvider, store, {C.LlmProviderKey}, C.OllamaModelKey);
  }

  /** `_saveSettings` stores each key and model entry under its provider's setting. */
  lemma SavedKeysAndModels(store: Store, selected: nat, keys: seq<string>, models: seq<string>, colours: seq<string>)
    requires WellTyped(store)
    requires selected < |ProviderList| && |keys| == 4 && |models| == 4 && |colours| == 4
    ensures var r := SavedStore(store, selected, keys, models, colours);
      && r[C.AnthropicApiKeyKey] == Text(keys[0]) && r[C.OpenAIApiKeyKey] == Text(keys[1])
      && r[C.GeminiApiKeyKey] == Text(keys[2]) && r[C.OpenRouterApiKeyKey] == Text(keys[3])
      && r[C.AnthropicModelKey] == Text(models[0]) && r[C.OpenAIModelKey] == Text(models[1])
      && r[C.GeminiModelKey] == Text(models[2]) && r[C.OpenRouterModelKey] == Text(models[3])
  {
    var withProvider := PutString(store, C.LlmProviderKey, ProviderList[selected]);
    var withKeys := SavedKeys(withProvider, keys);
    var withModels := SavedModels(withKeys, models);
    var r := SavedColours(withModels, colours);
    SavedKeysWrite(withProvider, keys);
    SavedModelsWrite(withKeys, models);
    SavedColoursWrite(withModels, colours);
    var apiKeys := [C.AnthropicApiKeyKey, C.OpenAIApiKeyKey, C.GeminiApiKeyKey, C.OpenRouterApiKeyKey];
    var modelKeys := [C.AnthropicModelKey, C.OpenAIModelKey, C.GeminiModelKey, C.OpenRouterModelKey];
    for j := 0 to 4
      invariant forall i :: 0 <= i < j ==> apiKeys[i] in r && r[apiKeys[i]] == withKeys[apiKeys[i]]
      invariant forall i :: 0 <= i < j ==> modelKeys[i] in r && r[modelKeys[i]] == withModels[modelKeys[i]]
    {
      KeptOutside(withModels, withKeys, ModelKeys, apiKeys[j]);
      KeptOutside(r, withModels, ColourKeys, apiKeys[j]);
      KeptOutside(r, withModels, ColourKeys, modelKeys[j]);
    }
  }

  /**
   * Saving stores the provider at the selected position, gives every hosted
   * provider exactly the key and model of its own entries, and leaves the history,
   * the shortcut and the Ollama model as they were.
   */
  lemma SaveWritesEntries(store: Store, selected: nat, keys: seq<string>, models: seq<string>, colours: seq<string>)
    requires WellTyped(store)
    requires selected < |ProviderList| && |keys| == 4 && |models| == 4 && |colours| == 4
    ensures var r := SavedStore(store, selected, keys, models, colours);
      && LlmProvider(r) == ProviderList[selected]
      && (forall i :: 0 <= i < 4 ==> ApiKey(r, ProviderList[i]) == keys[i] && Model(r, ProviderList[i]) == models[i])
      && StyleOf(r) == Style(Some(colours[0]), Some(colours[1]), Some(colours[2]), Some(colours[3]))
      && r[C.HistoryKey] == store[C.HistoryKey]
      && r[C.OpenChatShortcutKey] == store[C.OpenChatShortcutKey]
      && r[C.OllamaModelKey] == store[C.OllamaModelKey]
  {
    var r := SavedStore(store, selected, keys, models, colours);
    SavedUntouched(store, selected, keys, models, colours);
    SavedKeysAndModels(store, selected, keys, models, colours);
    SavedColoursWrite(SavedModels(SavedKeys(PutString(store, C.LlmProviderKey, ProviderList[selected]), keys), models), colours);
    forall i | 0 <= i < 4
      ensures ApiKey(r, ProviderList[i]) == keys[i] && Model(r, ProviderList[i]) == models[i]
    {
      if i == 0 {
      } else if i == 1 {
      } else if i == 2 {
      } else {
      }
    }
  }

  /**
   * Opening the window and saving without touching anything keeps a listed
   * provider, but turns `ollama` or any unlisted id into `anthropic`; keys and
   * models come back as they were in either case.
   */
  lemma LoadThenSave(store: Store, colours: seq<string>)
    requires WellTyped(store) && |colours| == 4
    ensures var r := SavedStore(store, ProviderIndex(LlmProvider(store)), LoadedKeys(store), LoadedModels(store), colours);
      && LlmProvider(r) == (if LlmProvider(store) in ProviderList then LlmProvider(store) else C.AnthropicId)
      && (forall p :: p in HostedIds ==> ApiKey(r, p) == ApiKey(store, p) && Model(r, p) == Model(store, p))
  {
    var sel := ProviderIndex(LlmProvider(store));
    var keys := LoadedKeys(store);
    var models := LoadedModels(store);
    var r := SavedStore(store, sel, keys, models, colours);
    SaveWritesEntries(store, sel, keys, models, colours);
    forall p | p in HostedIds
      ensures ApiKey(r, p) == ApiKey(store, p) && Model(r, p) == Model(store, p)
    {
      var i := ProviderIndex(p);
      assert ProviderList[i] == p;
      assert ApiKey(r, p) == keys[i] == ApiKey(store, p);
      assert Model(r, p) == models[i] == Model(store, p);
    }
  }

  /** In particular a stored `ollama` is shown as Anthropic and saved back as `anthropic`. */
  lemma OllamaSavedAsAnthropic(store: Store, colours: seq<string>)
    requires WellTyped(store) && |colours| == 4 && LlmProvider(store) == C.OllamaId
    ensures ProviderIndex(LlmProvider(store)) == 0
    ensures LlmProvider(SavedStore(store, 0, LoadedKeys(store), LoadedModels(store), colours)) == C.AnthropicId
  {
    assert C.OllamaId !in ProviderList;
    LoadThenSave(store, colours);
  }

  /** The window's state: the schema it edits and the widgets whose contents it reads back. */
  class SettingsUi {
    const schema: SettingsStore
    /** The drop-down's selected position. */
    var selected: nat
    /** The API-key and model entries, one per listed provider, in list order. */
    var apiKeyTexts: seq<string>
    var modelTexts: seq<string>
    /** The colour buttons' texts, in the order human, LLM, human text, LLM text. */
    var colourTexts: seq<string>
    /** Whether the next key release sets the shortcut. */
    var changingShortcut: bool
    /** The accelerator the shortcut label shows. */
    var accelerator: string

    ghost predicate Valid()
      reads this, schema
    {
      && WellTyped(schema.values)
      && selected < |ProviderList| && |apiKeyTexts| == 4 && |modelTexts| == 4 && |colourTexts| == 4
    }

    /**
     * The window as it opens: the drop-down at the stored provider's position, the
     * entries holding the stored texts, the label showing the stored shortcut and
     * no capture under way. The colour texts are whatever the colour buttons report.
     */
    constructor (schema: SettingsStore, colours: seq<string>)
      requires WellTyped(schema.values) && |colours| == 4
      ensures this.schema == schema && Valid()
      ensures selected == ProviderIndex(LlmProvider(schema.values))
      ensures apiKeyTexts == LoadedKeys(schema.values) && modelTexts == LoadedModels(schema.values)
      ensures colourTexts == colours
      ensures !changingShortcut && accelerator == OpenChatShortcut(schema.values)
    {
      this.schema := schema;
      var index := DefaultProviderIndex(LlmProvider(schema.values));
      selected := index;
      apiKeyTexts := LoadedKeys(schema.values);
      modelTexts := LoadedModels(schema.values);
      colourTexts := colours;
      changingShortcut := false;
      accelerator := OpenChatShortcut(schema.values);
    }

    /** `_saveSettings`: the writes in the order the window makes them. */
    method SaveSettings()
      requires Valid()
      modifies schema`values
      ensures Valid()
      ensures schema.values == SavedStore(old(schema.values), selected, apiKeyTexts, modelTexts, colourTexts)
    {
      schema.SetString(C.LlmProviderKey, ProviderList[selected]);
      schema.SetString(C.AnthropicApiKeyKey, apiKeyTexts[0]);
      schema.SetString(C.OpenAIApiKeyKey, apiKeyTexts[1]);
      schema.SetString(C.GeminiApiKeyKey, apiKeyTexts[2]);
      schema.SetString(C.OpenRouterApiKeyKey, apiKeyTexts[3]);
      schema.SetString(C.AnthropicModelKey, modelTexts[0]);
      schema.SetString(C.OpenAIModelKey, modelTexts[1]);
      schema.SetString(C.GeminiModelKey, modelTexts[2]);
      schema.SetString(C.OpenRouterModelKey, modelTexts[3]);
      schema.SetString(C.HumanMessageColorKey, colourTexts[0]);
      schema.SetString(C.LlmMessageColorKey, colourTexts[1]);
      schema.SetString(C.HumanMessageTextColorKey, colourTexts[2]);
      schema.SetString(C.LlmMessageTextColorKey, colourTexts[3]);
    }

    /** The "Change" button: the next key release sets the shortcut. */
    method ShortcutClicked()
      modifies this`changingShortcut
      ensures changingShortcut
    {
      changingShortcut := true;
    }

    /**
     * `key-pressed`: outside a capture the event propagates and nothing changes;
     * during one the label shows the pressed accelerator and the event stops.
     */
    method KeyPressed(pressed: string) returns (stop: bool)
      modifies this`accelerator
      ensures stop == changingShortcut
      ensures accelerator == if changingShortcut then pressed else old(accelerator)
    {
      if !changingShortcut {
        return false;
      }
      accelerator := pressed;
      return true;
    }

    /**
     * `key-released`: during a capture it ends the capture and stores the label's
     * accelerator as a one-element list; otherwise nothing changes.
     */
    method KeyReleased()
      requires Valid()
      modifies this`changingShortcut, schema`values
      ensures Valid() && !changingShortcut
      ensures schema.values
        == if old(changingShortcut) then WithShortcuts(old(schema.values), [accelerator]) else old(schema.values)
    {
      if !changingShortcut {
        return;
      }
      changingShortcut := false;
      schema.SetStrv([accelerator]);
    }

    /** The `changed::open-chat-shortcut` handler: the label shows the stored shortcut. */
    method ShortcutChanged()
      requires Valid()
      modifies this`accelerator
      ensures accelerator == OpenChatShortcut(schema.values)
    {
      accelerator := OpenChatShortcut(schema.values);
    }
  }

  /**
   * The drop-down's initial position: the loop over the listed ids stops at the
   * first that equals the stored one and keeps 0 when none does.
   */
  method DefaultProviderIndex(stored: string) returns (index: nat)
    ensures index == ProviderIndex(stored)
  {
    index := 0;
    var i := 0;
    while i < |ProviderList|
      invariant 0 <= i <= |ProviderList|
      invariant forall j :: 0 <= j < i ==> ProviderList[j] != stored
      invariant index == 0
    {
      if ProviderList[i] == stored {
        index := i;
        break;
      }
      i := i + 1;
    }
  }
}
