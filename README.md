# Penguin AI Chatbot: a Dafny model of the chat pipeline

This project models the core of the Penguin AI Chatbot, a GNOME Shell extension. The extension lets a user chat with a large language model from the top bar. The model covers:

- **Providers** (`llm_providers.dfy`, lib/llmProviders.js). The factory picks one of five adapters: Anthropic, OpenAI, Gemini, OpenRouter or a local Ollama server. Each adapter has an endpoint URL, request headers, a JSON request body and a reply extractor. `sendRequest` sorts every HTTP outcome into exactly one callback invocation, and in one case a second one.
- **Settings facade** (`settings.dfy`, lib/settings.js). Getters and setters over the GSettings store, the persisted history, and the registry of change callbacks.
- **Chat panel** (`extension.dfy`, extension.js). What submitting input, starting a new conversation, loading the history and receiving a reply do to the history, the input field and the stored history.
- **Reply sanitiser** (`chat_ui.dfy`, lib/chatUI.js). `_preprocessLLMOutput`, the chain of regular-expression replacements a reply goes through before it is rendered.
- **Placeholder formatting** (`utils.dfy`, lib/utils.js). `formatString`, which fills `{n}` placeholders.
- **Preferences window** (`prefs.dfy`, prefs.js). The provider drop-down's index, the writes of "Save Preferences", and the keyboard capture of the chat shortcut.

Shared pieces:

- `json.dfy` holds JSON values and JavaScript property-read semantics: a read on `undefined` or `null` throws, and `if (x)` tests truthiness.
- `messages.dfy` holds history entries and their JSON form.
- `js_strings.dfy` holds `trim`, `indexOf` and decimal digits as JavaScript defines them.
- `constants.dfy` holds the values of lib/constants.js.

State the source changes in place becomes Dafny classes:

- `LlmProviders.Provider` (the session timeout);
- `Settings.SettingsStore` and `Settings.SettingsManager` (the store and the callback map);
- `Extension.Chat` (history and input field);
- `Prefs.SettingsUi` (the widgets' contents and the capture flag).

Each method is proved equal to a pure function of the old state, and the properties are proved as lemmas about those functions.

The model follows the code where it differs from the description of the system:

- A reply made only of white space counts as a success, because `sendRequest` tests `!text`. It is recorded in the history.
- Gemini's API key is part of its URL. Every error message names the URL, so every Gemini error message contains the key.
- The `sendRequest` callback can run twice. This happens when the callback throws while being handed an error, because the handler's outer `catch` calls it again.
- `getModel("ollama")` returns "". So an Ollama request names the model "", whatever `ollama-model` holds.

## Model

| member | source | states |
|---|---|---|
| JsStrings.Trim | lib/chatUI.js:293 | the result has no white space at either end and occurs in the input; an already trimmed text is unchanged; the result is empty iff the input is all white space |
| JsStrings.TrimOnlyEdges | lib/chatUI.js:293 | the result sits in the input with nothing but white space before and after it, so only white space is removed, and only from the two ends |
| JsStrings.TrimKeepsInnerSpace | lib/chatUI.js:293 | white space between words is kept: `" a b "` trims to `"a b"` |
| JsStrings.IndexOf | lib/llmProviders.js:402 | the result is the first position where the pattern occurs, and None iff it occurs nowhere |
| JsStrings.NatToStringRoundTrip | lib/utils.js:56-57 | the decimal text of n reads back as n and has no superfluous leading zero |
| Json.Prop | lib/llmProviders.js:230 | a property read throws exactly on undefined or null |
| Json.Index0 | lib/llmProviders.js:230 | `[0]` throws exactly on undefined or null |
| Json.OptProp | lib/llmProviders.js:415 | optional chaining gives undefined where the plain read would throw, and the read's value otherwise |
| Messages.MessageRoundTrip | lib/settings.js:101-116 | a history entry, with or without content, reads back from its JSON form |
| Messages.HistoryRoundTrip | lib/settings.js:101-116 | a whole history reads back from its JSON form, entry for entry |
| Messages.MessageToJson | extension.js:181-184 | an entry becomes `{role, content}`, with no `content` member when the content is absent; `MessageRoundTrip` states that it reads back |
| Messages.HistoryFromJson | lib/settings.js:101-108 | a parsed value is a history iff it is an array whose every element is an entry; `HistoryRoundTrip` states that it inverts the serialisation |
| LlmProviders.SelectKind | lib/llmProviders.js:436-450 | a provider id selects its own adapter; any other id selects Anthropic |
| LlmProviders.SelectKindOfId | lib/llmProviders.js:437-447 | each of the five ids selects its own adapter |
| LlmProviders.EndpointUrl | lib/llmProviders.js:208-362 | each adapter's `_getEndpointUrl`: four fixed URLs, and Gemini's built from the model and the key; `EndpointCarriesModelAndKey` states which parts of the configuration it depends on |
| LlmProviders.AuthHeaders | lib/llmProviders.js:196-366 | Gemini and Ollama append no header and the other adapters append at least one; no adapter appends a second content type |
| LlmProviders.PrepareRequest | lib/llmProviders.js:36-48 | a POST to the endpoint with the content type, the adapter's headers and the body; `RequestHeadersByProvider` states the header list |
| LlmProviders.RequestBody | lib/llmProviders.js:215-392 | each adapter's `_generateRequestBody`; the five `*BodyReadsBack` lemmas state what reads back from it |
| LlmProviders.EndpointCarriesModelAndKey | lib/llmProviders.js:288-290 | Gemini's URL contains the model and the API key; every other URL is fixed |
| LlmProviders.RequestHeadersByProvider | lib/llmProviders.js:36-48 | content-type is JSON and comes first; Anthropic adds x-api-key and anthropic-version 2023-06-01; OpenAI and OpenRouter add a Bearer credential equal to the key; Gemini and Ollama add nothing |
| LlmProviders.BearerOf | lib/llmProviders.js:241-243 | the Authorization value yields the API key back as its Bearer credential |
| LlmProviders.ChatHistory | lib/llmProviders.js:215-226 | one message per entry, in order, `user` kept and every other role sent as `assistant`, content unchanged |
| LlmProviders.OllamaFiltered | lib/llmProviders.js:370-375 | only user and assistant entries are kept, each with content present |
| LlmProviders.OllamaFilteredAppend | lib/llmProviders.js:370-375 | the filter distributes over concatenation, so it keeps the order |
| LlmProviders.OllamaFilteredSingle | lib/llmProviders.js:370-375 | an entry is kept, with absent content sent as "", iff its role is user or assistant |
| LlmProviders.OllamaMessages | lib/llmProviders.js:368-380 | the messages always start with a user turn; an empty user turn is put in front iff the filtered list is empty or starts with an assistant turn |
| LlmProviders.AnthropicBodyReadsBack | lib/llmProviders.js:215-226 | the body's messages read back as the mapped history; model and `max_tokens` 1024 are present |
| LlmProviders.OpenAIBodyReadsBack | lib/llmProviders.js:255-273 | the body's messages read back as the mapped history; model, temperature 1 and `max_completion_tokens` 4096 are present |
| LlmProviders.GeminiBodyReadsBack | lib/llmProviders.js:295-311 | one turn per entry, in order, `user` kept and every other role sent as `model`, one part holding the content; the generation config is present |
| LlmProviders.OpenRouterBodyReadsBack | lib/llmProviders.js:340-345 | the body's messages read back as the history itself; the model is present |
| LlmProviders.OllamaBodyReadsBack | lib/llmProviders.js:368-392 | the body's messages read back as the prepared messages; the model is present and streaming is off |
| LlmProviders.StripThinking | lib/llmProviders.js:402-410 | without `</think>` the reply is kept; any changed result is a non-blank, trimmed part of the reply |
| LlmProviders.ThinkingStripped | lib/llmProviders.js:402-407 | a reasoning trace, `</think>` and a non-blank answer give the trimmed answer |
| LlmProviders.ThinkingKeptWhenBlank | lib/llmProviders.js:402-410 | when the text after the first `</think>` is blank, the reply is kept whole, reasoning trace included |
| LlmProviders.ExtractDocumentedReply | lib/llmProviders.js:229-422 | each extractor finds the text along its provider's documented path; Ollama also strips a reasoning trace |
| LlmProviders.OllamaExtract | lib/llmProviders.js:395-422 | Ollama's extractor throws iff the reply is null, and never yields undefined: its value is a string or truthy |
| LlmProviders.ExtractResponseText | lib/llmProviders.js:229-422 | `_extractResponseText` of each adapter, reading through undefined as a throw; `ExtractDocumentedReply` and `ExtractMissingPath` state its results |
| LlmProviders.OllamaFallbacks | lib/llmProviders.js:412-421 | without a string `message.content`: a string `response` is returned even when empty, then a truthy `choices[0].message.content`, then a truthy `completions[0].text`, and otherwise ""; a non-object `message` or an empty `choices` gives "" |
| LlmProviders.OllamaMessageBeforeResponse | lib/llmProviders.js:397-412 | a string `message.content` is used even when `response` is present |
| LlmProviders.OllamaResponseBeforeChoices | lib/llmProviders.js:412-416 | a string `response` is used even when `choices` is present |
| LlmProviders.ExtractMissingPath | lib/llmProviders.js:395-422 | on `{}` the hosted extractors throw and Ollama gives ""; Ollama's throws iff the reply is null |
| LlmProviders.OllamaDropsReasoning | lib/llmProviders.js:397-410 | an Ollama reply with a reasoning trace is extracted as the trimmed answer alone |
| LlmProviders.ErrorText | lib/llmProviders.js:114-166 | every error message the handler composes contains the URL line |
| LlmProviders.DeliveredExactly | lib/llmProviders.js:105-169 | success is delivered iff the status is OK, a body came back, it parsed and the extractor gave a truthy value without throwing; that value is delivered |
| LlmProviders.FailureKinds | lib/llmProviders.js:111-163 | network, no-data, HTTP-status, parse, exception (a throwing extractor) and empty (a falsy text) failures are reported in the handler's order of checks |
| LlmProviders.Outcome | lib/llmProviders.js:105-169 | the first callback invocation of the response handler; every error message it composes contains the URL line; `DeliveredExactly` and `FailureKinds` state which outcome each result gives |
| LlmProviders.GeminiFailuresCarryApiKey | lib/llmProviders.js:289 | every Gemini error message contains the API key |
| LlmProviders.NonOkStatusIsNeverDelivered | lib/llmProviders.js:160-163 | a status other than OK is an HTTP error whatever the body holds |
| LlmProviders.BlankTextIsDelivered | lib/llmProviders.js:144-148 | an extracted text of white space alone is delivered as a success |
| LlmProviders.HandlerException | lib/llmProviders.js:165-168 | the outer `catch` reports an exception-kind error whose message contains the URL line |
| LlmProviders.Provider.constructor | lib/llmProviders.js:14-20 | a new provider keeps its key and model, and its timeout is 300 seconds |
| LlmProviders.Provider.SetTimeout | lib/llmProviders.js:26-28 | the timeout becomes the given value |
| LlmProviders.Provider.SendRequest | lib/llmProviders.js:93-176 | the callback runs once with the classified outcome, or twice when it throws on an error other than the handler exception; the second call carries the handler-exception message |
| LlmProviders.CreateProvider | lib/llmProviders.js:436-450 | a fresh provider for the selected adapter, with the given key and model and the default timeout |
| Settings.PutString | lib/settings.js:145 | a write keeps the store well typed, reads back, and changes no other key |
| Settings.ApiKeySetting | lib/settings.js:62-75 | a key exists iff the provider is one of the four hosted ones, and it is a string key other than a colour or the history |
| Settings.ModelSetting | lib/settings.js:82-95 | a key exists iff the provider is hosted; `ollama-model` is never used |
| Settings.ApiKey | lib/settings.js:62-75 | `getApiKey`: any id other than the four hosted ones reads ""; `ApiKeyReadsBack` states the read-back |
| Settings.Model | lib/settings.js:82-95 | `getModel`: any id other than the four hosted ones reads "", Ollama included; `ModelReadsBack` states the read-back |
| Settings.SettingsKeysDistinct | lib/settings.js:62-95 | distinct providers use distinct key and model settings, and no key setting is a model setting |
| Settings.WithApiKey | lib/settings.js:153-168 | `setApiKey`: the store stays well typed; `ApiKeyReadsBack` states the read-back and that nothing else changes |
| Settings.WithModel | lib/settings.js:175-190 | `setModel`: the store stays well typed; `ModelReadsBack` states the read-back and that nothing else changes |
| Settings.ApiKeyReadsBack | lib/settings.js:153-168 | a key written for a hosted provider reads back, and no other provider's key or model changes; for any other id nothing changes |
| Settings.ModelReadsBack | lib/settings.js:175-190 | the same for models |
| Settings.OllamaHasNoSettings | lib/settings.js:82-95 | Ollama's key and model read as "" whatever the store holds |
| Settings.StoredHistoryFallback | lib/settings.js:101-108 | an empty or unparseable stored history reads as the empty array |
| Settings.StoredHistory | lib/settings.js:101-108 | `getHistory`: the parsed stored text, with "" read as `[]` and an unparseable text giving `[]`; `StoredHistoryFallback` and `HistoryReadsBack` state its results |
| Settings.WithHistory | lib/settings.js:114-116 | `setHistory` keeps the store well typed; `HistoryReadsBack` states that the history reads back |
| Settings.HistoryReadsBack | lib/settings.js:101-116 | a history that was set reads back as the same history |
| Settings.ShortcutReadsBack | lib/settings.js:135-138 | the shortcut getter reads back the head of the stored list, and "" for an empty list |
| Settings.OpenChatShortcut | lib/settings.js:135-138 | the first stored accelerator, or "" for an empty list; `ShortcutReadsBack` states the read-back |
| Settings.StyleUpdate | lib/settings.js:196-212 | each colour reads back as the given value when that value is truthy and as before otherwise; no other key changes |
| Settings.WithStyle | lib/settings.js:196-212 | `setStyleSettings` keeps the store well typed; `StyleUpdate` states which keys change |
| Settings.Unregister | lib/settings.js:31-37 | dropping one callback keeps the registry consistent and removes exactly its id |
| Settings.SettingsManager.constructor | lib/settings.js:11-14 | the facade starts with an empty callback map |
| Settings.SettingsManager.ConnectToChanges | lib/settings.js:21-25 | a fresh handler is connected and recorded for the callback; a callback connected twice leaves its old handler connected but unreachable |
| Settings.SettingsManager.DisconnectFromChanges | lib/settings.js:31-37 | a recorded callback's handler is disconnected and forgotten; an unknown callback changes nothing |
| Settings.SettingsManager.DisconnectAll | lib/settings.js:42-47 | every recorded handler is disconnected, no other, and the map ends empty |
| Settings.SettingsManager.SetHistory | lib/settings.js:114-116 | the store's history becomes the history's serialisation |
| Settings.SettingsManager.SetLlmProvider | lib/settings.js:144-146 | the provider setting becomes the given text |
| Settings.SettingsManager.SetApiKey | lib/settings.js:153-168 | the store changes as `WithApiKey` says |
| Settings.SettingsManager.SetModel | lib/settings.js:175-190 | the store changes as `WithModel` says |
| Settings.SettingsManager.SetStyleSettings | lib/settings.js:196-212 | the store changes as `WithStyle` says |
| Settings.SettingsManager.SetOpenChatShortcut | lib/settings.js:218-220 | the shortcut list becomes the one given accelerator |
| Extension.InputGuard | extension.js:172-192 | empty input or the thinking text changes nothing; accepted input adds exactly one user entry and locks the field showing the thinking text |
| Extension.AfterInput | extension.js:167-192 | the panel after `_handleUserInput` with the timeout read correctly; `InputGuard` and `SecondSubmitIgnored` state its properties |
| Extension.AfterInputAsWritten | extension.js:180-186 | the panel after `_handleUserInput` as written, where the throw at line 255 cuts the handler short; `AsWrittenRecordsQuestionTwice` states the consequence |
| Extension.SecondSubmitIgnored | extension.js:172-192 | submitting again while a request is pending changes nothing |
| Extension.RequestCarriesQuestion | extension.js:250-260 | the request carries the given timeout and its provider's endpoint; for OpenRouter, whose body sends the history as it is, the messages are the earlier history followed by the new question |
| Extension.OllamaRequestNamesNoModel | extension.js:251-253 | with Ollama selected the request has empty model and key, and the body's model is "" |
| Extension.AsWrittenRecordsQuestionTwice | extension.js:255 | as written, a second submission of the same text records the question again; corrected, it is recorded once |
| Extension.NewConversationTest | extension.js:200-201 | the two-clause test is the single test that the input does not show the thinking text |
| Extension.NewConversationClears | extension.js:199-211 | unless thinking, both the history and the stored history become empty; while thinking nothing changes |
| Extension.AfterNewConversation | extension.js:199-211 | the panel after `_handleNewConversation`; `NewConversationClears` states its effect |
| Extension.LoadAfterStore | extension.js:234-244 | loading after a store gives that history back, with the input unlocked and empty |
| Extension.Loaded | extension.js:234-244 | the panel after `_loadHistory`: the stored history, an unlocked and empty field; `LoadAfterStore` states the read-back |
| Extension.ErrorKeepsHistory | extension.js:313-335 | an error leaves both histories alone and unlocks and clears the input |
| Extension.ReplyIsRecordedAndPersisted | extension.js:313-335 | a string reply, blank or not, adds one assistant entry, and the stored history reads back as the history in memory |
| Extension.ExchangeAddsTwoTurns | extension.js:313-335 | a question and its reply add exactly the user turn and the assistant turn, in that order |
| Extension.AfterResponse | extension.js:313-335 | the panel after the callback; `ErrorKeepsHistory`, `ReplyIsRecordedAndPersisted` and `ExchangeAddsTwoTurns` state its effect |
| Extension.Chat.constructor | extension.js:59-60 | the panel starts in the loaded state |
| Extension.Chat.LoadHistory | extension.js:234-244 | the state becomes the stored history with the input unlocked and empty |
| Extension.Chat.HandleUserInput | extension.js:167-193 | the state changes as `AfterInput` says, and a request is sent iff the input is accepted |
| Extension.Chat.SendToLlm | extension.js:250-260 | the request is for the selected provider's configuration, with the given timeout |
| Extension.Chat.HandleUserInputAsWritten | extension.js:180-186 | as written: the question is recorded and nothing else changes |
| Extension.Chat.HandleNewConversation | extension.js:199-211 | the state and the store change as `AfterNewConversation` and `StoreAfterNewConversation` say |
| Extension.Chat.OnResponse | extension.js:313-335 | the state and the store change as `AfterResponse` and `StoreAfterResponse` say |
| ChatUi.StripTags | lib/chatUI.js:280 | no tag remains, only input characters remain, and a text without `<` is unchanged |
| ChatUi.TagRemoved | lib/chatUI.js:280 | a tag disappears whole |
| ChatUi.StripTables | lib/chatUI.js:281-282 | only input characters remain, and a text without `\|` is unchanged |
| ChatUi.RowEnd | lib/chatUI.js:281-282 | a row match exists at the front exactly when the text starts with `\|` and its first line after it has another `\|`, and it spans at least those two characters and no more than the text |
| ChatUi.StripTablesLines | lib/chatUI.js:281-282 | no `\|` of the output has another `\|` after it on its line (the global greedy match leaves none), and a `\|` on the output's first line comes from a first input line that had one |
| ChatUi.FinalRowRemoved | lib/chatUI.js:282 | a row at the very end of the text, from `\|` to its last `\|`, disappears |
| ChatUi.LoneBarKept | lib/chatUI.js:282 | a `\|` with no other `\|` after it on its line is kept |
| ChatUi.TableRowRemoved | lib/chatUI.js:282 | a row from `\|` to the last `\|` on its line disappears, and the line break stays |
| ChatUi.StripCodeBlocks | lib/chatUI.js:284 | a text without a backtick is unchanged; `CodeBlockReplaced` and `StripCodeBlocksCons` fix the result at each position |
| ChatUi.StripCodeBlocksCons | lib/chatUI.js:284 | a first character that opens no block (no fence, or a fence no later fence closes) is kept and the pass goes on after it |
| ChatUi.CodeBlockReplaced | lib/chatUI.js:284 | a fenced block, fences included, becomes `[code block removed]` when the closing fence is the first fence after the opening one; the body may hold backticks |
| ChatUi.CodeBlockWithInlineCode | lib/chatUI.js:284 | a fenced block whose body holds inline code is replaced whole |
| ChatUi.StripInlineCode | lib/chatUI.js:286 | a text without a backtick is unchanged; `InlineCodeReplaced` and `StripInlineCodeCons` fix the result at each position |
| ChatUi.InlineCodeReplaced | lib/chatUI.js:286 | a backtick span with at least one character becomes `[code]` |
| ChatUi.StripInlineCodeCons | lib/chatUI.js:286 | a first character that opens no span (no backtick, a doubled backtick, or one never closed) is kept and the pass goes on after it |
| ChatUi.EscapePasses | lib/chatUI.js:288-290 | the `&`, `<` and `>` passes in the source's order; `EscapePassesEscapeOnce` states it equals escaping each character once, and `EscapeRoundTrip` that it can be undone |
| ChatUi.EscapePassesEscapeOnce | lib/chatUI.js:288-290 | the three passes in their order equal escaping each character once |
| ChatUi.EscapeRoundTrip | lib/chatUI.js:288-290 | unescaping the escaped text gives the text back |
| ChatUi.Collapse | lib/chatUI.js:292 | no run of three white-space characters remains, only spaces and input characters appear, and a text without a long run is unchanged; `CollapseRun` and `CollapseCopies` fix the result at each position |
| ChatUi.CollapseRun | lib/chatUI.js:292 | a run of three or more white-space characters at the start of the text becomes two spaces |
| ChatUi.CollapseCopies | lib/chatUI.js:292 | a character that starts no run of three is kept and the pass goes on after it; with `CollapseRun` this fixes the result on every input |
| ChatUi.SanitizeEmpty | lib/chatUI.js:277 | a missing or empty text gives "" |
| ChatUi.SanitizeOutput | lib/chatUI.js:276-294 | the output has no angle bracket, no white space at either end and no run of three white-space characters |
| ChatUi.SanitizePlain | lib/chatUI.js:276-294 | a trimmed text with nothing to replace comes back unchanged |
| ChatUi.TagsBeforeInlineCode | lib/chatUI.js:280-286 | a tag inside backticks is removed first, and the empty backtick pair left behind is kept |
| ChatUi.Sanitize | lib/chatUI.js:276-294 | `_preprocessLLMOutput`, its passes in the source's order; `SanitizeEmpty`, `SanitizeOutput` and `SanitizePlain` state its results |
| ChatUi.EscapeHtml | lib/chatUI.js:288-290 | the one-pass escaper the passes are proved equal to; its result holds no angle bracket |
| Utils.PlaceholderReplaced | lib/utils.js:56-58 | `{n}` with an n-th argument becomes that argument, and the argument is not scanned again |
| Utils.MissingArgumentKept | lib/utils.js:57 | `{n}` without an n-th argument is kept |
| Utils.LeadingZeroKept | lib/utils.js:57 | digits with a leading zero name no argument and are kept |
| Utils.BraceWithoutDigitsKept | lib/utils.js:56 | a brace that does not start a match (no digit after it, or digits not closed by a brace, as in `{12x`) is copied |
| Utils.NoPlaceholderUnchanged | lib/utils.js:56 | a text in which no position starts a `{digits}` match comes back unchanged, whatever the arguments |
| Utils.PlainPrefix | lib/utils.js:56 | text without a brace is copied and formatting continues after it, so a text without `{` comes back unchanged |
| Utils.NoArgumentsNoChange | lib/utils.js:55-59 | with no arguments every text is unchanged |
| Utils.Format | lib/utils.js:55-59 | `formatString`, scanning left to right for `{digits}`; the lemmas above state its results |
| Prefs.ProviderIndex | prefs.js:132-147 | the shown index is below four; a listed id is at that index, and an unlisted one shows index 0 |
| Prefs.IndexOfListed | prefs.js:132-147 | each listed id loads back to its own index |
| Prefs.DefaultProviderIndex | prefs.js:140-145 | the search loop returns the specified index |
| Prefs.LoadedKeys | prefs.js:88-91 | each key entry starts with that provider's stored key |
| Prefs.LoadedModels | prefs.js:94-97 | each model entry starts with that provider's stored model |
| Prefs.SaveWritesEntries | prefs.js:526-553 | saving stores the selected id; each hosted provider's key and model come from its own entries; the colours are written; history, shortcut and `ollama-model` are unchanged |
| Prefs.SavedStore | prefs.js:524-553 | the store after "Save Preferences", which stays well typed; `SaveWritesEntries` and `LoadThenSave` state its writes |
| Prefs.LoadThenSave | prefs.js:526-535 | opening and saving unchanged keeps a listed provider, turns any other into `anthropic`, and keeps every key and model |
| Prefs.OllamaSavedAsAnthropic | prefs.js:132-147 | a stored `ollama` shows as index 0 and is saved back as `anthropic` |
| Prefs.SettingsUi.constructor | prefs.js:83-106 | the window opens showing the stored provider's index, the stored keys, models and shortcut, and no capture is under way |
| Prefs.SettingsUi.SaveSettings | prefs.js:524-553 | the store becomes `SavedStore` of the window's contents |
| Prefs.SettingsUi.ShortcutClicked | prefs.js:463-466 | a click starts a capture |
| Prefs.SettingsUi.KeyPressed | prefs.js:468-476 | outside a capture nothing changes and the event propagates; during one the label shows the pressed accelerator |
| Prefs.SettingsUi.KeyReleased | prefs.js:478-485 | during a capture it ends the capture and stores the one-element list; otherwise nothing changes |
| Prefs.SettingsUi.ShortcutChanged | prefs.js:487-490 | the label shows the stored shortcut |

## Left out

- The network. `Soup.Session`, `send_and_read_async`, `abort`, `GLib.Bytes` and `TextDecoder` are replaced by an `HttpResult` record: transport failure, or status, optional body and parse outcome. This record is a parameter of `SendRequest`.
- JSON text. `JSON.stringify` and `JSON.parse` are a `Codec` parameter. Its round trip is assumed as the `RoundTrips` precondition; the text format is not modelled.
- The engine's exact `TypeError` message when an extractor reads through undefined. It is one constant.
- The Gemini generation parameters are constant JSON values; there is no floating-point arithmetic.
- The polling loop over `global.llmResult` and `llmPending`, the debug callbacks and the timers (extension.js:263-310, 339-371). These are event-loop-driven global state.
- Widgets, markup, scrolling, focus, tooltips (lib/tooltip.js), `convertMD`, logging, and the placeholder text shown for a blank reply.
- Colour parsing and printing through `Gdk.RGBA`. The colour texts are whatever the colour buttons report.
- `getSetting`, `setSetting` and `resetToDefaults` in lib/settings.js. They dispatch on GVariant type strings or reset to schema defaults, which are not part of this model.
- `setupShortcut`, `removeShortcut`, `safeTimeout` and `focusInput` in lib/utils.js. They are thin GNOME Shell calls.
- Signals: a setter does not run the connected `changed` callbacks. `Prefs.SettingsUi.ShortcutChanged` is the handler as a method of its own.
- Extension.Chat.OnResponse: the closure captures the history array, while `_handleNewConversation` assigns a new one. A reply arriving after a new conversation therefore goes to the old array in the source. The model has one history field.
- Extension.Chat.LoadHistory: a stored text that parses to something other than an array of entries is loaded as the empty history. The source keeps whatever value was parsed.
- Prefs.SettingsUi.constructor: an empty stored shortcut list shows "". The source reads element 0 of an empty list, which is undefined. `Prefs.SettingsUi.ShortcutChanged` is modelled the same way.
- Prefs.SettingsUi.SaveSettings: requires the drop-down's selection to be one of the four positions. The source would write `undefined` for no selection.
- Characters. A Dafny `char` is a Unicode scalar value, while a JavaScript string is a sequence of UTF-16 code units. Text outside the Basic Multilingual Plane therefore has different lengths and positions: `[0]` on a string (`Json.Index0`) gives the whole character rather than its first surrogate, and `indexOf` positions count characters. None of the modelled behaviour depends on those positions beyond the ASCII delimiters it searches for.
- Utils.Format: the arguments are strings. An argument of another type would be converted to text by `replace`.
- LlmProviders.Provider.SendRequest: the callback's own effects are not part of the method. `Extension.Chat.OnResponse` models them for each delivery.

## Findings

| source | as written | input that shows it | evidently intended | confidence | as-written member | corrected member |
|---|---|---|---|---|---|---|
| extension.js:255 | `_sendToLLM` calls `getRequestTimeout`, which lib/settings.js does not define. The call throws after `_handleUserInput` has pushed the question, so no request is sent and the input field is never locked. | Any accepted input, e.g. "hello". Submitting it twice records the question twice. | Read the configured timeout, send the request, and lock the field showing the thinking text, so a second submission is ignored. | high, not executed | Extension.AsWrittenRecordsQuestionTwice | Extension.SecondSubmitIgnored |
