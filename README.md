# Image generation gateway, modelled in Dafny

This project models the decision logic of `img_gen`. It is a small HTTP service that puts one interface in front of two
providers. OpenAI is reached through its REST API: chat completions, image generations and image edits. Gemini is reached
through its SDK: `generate_content` and `generate_images`. The model covers:

- **Registry and validation.** The model registry and the names derived from it, type resolution, and prompt
  validation (length bounds, a case-insensitive denylist, trimming).
- **Conversation store.** The in-memory store keeps per-conversation message histories.
- **Adapters.** Each adapter decides what to send: the history sent whole, a summary of it, or the bare prompt.
  It also decides what to record after a reply, and which error ends a turn.
- **Gemini image bytes.** Gemini's image bytes are normalised (base64 or raw) and their format is sniffed.
- **Endpoints.** The endpoints validate uploads and turn each file into a `data:` URL.

The outbound APIs are oracles. They are total functions from the request an adapter builds (`Upstream.Call`) to the
reply it reads, and the caller passes them in. Every adapter operation is a pure specification function. It returns a
`Turn`: the result, the list of outbound calls in the order made, and the messages to record. Methods that follow the
source's control flow, and that update a `ConversationStore` object, are proved equal to those functions. Base64 is
section 4 of RFC 4648, with the decoder defined on canonical encodings and the round trip proved both ways.

Modules, one per file:
- `Wrappers` holds `Option` and `Result`.
- `Base64` is the encoder and decoder.
- `PyText` holds the `str` operations the core uses.
- `Schemas` covers `schemas/generation.py`.
- `ContextStore` covers `context_store.py`.
- `Upstream` holds the wire shapes and the oracles.
- `ProviderBase` covers `base.py` and the decisions both adapters share.
- `OpenAIService` and `GeminiService` are the two adapters.
- `Factory` covers `factory.py`.
- `Endpoints` covers `endpoints/generation.py`.

## Model

| member | source | states |
|---|---|---|
| Base64.Encode | Img_GenNeoguard/img_gen/app/api/v1/endpoints/generation.py:185 | `b64encode` yields four characters per started group of three bytes |
| Base64.DecodeEncode | Img_GenNeoguard/img_gen/app/api/v1/endpoints/generation.py:185 | every encoding is canonical, and `Decode` (`b64decode` on canonical text) gives back exactly the encoded bytes |
| Base64.EncodeDecode | Img_GenNeoguard/img_gen/app/services/providers/gemini_service.py:143 | re-encoding the decoded bytes of a canonical base64 text gives back the same text |
| Base64.EncodeIsAscii | Img_GenNeoguard/img_gen/app/services/providers/gemini_service.py:143 | an encoding is pure ASCII, so `.decode("utf-8")` of it cannot fail |
| PyText.StripStartDropsSpace | Img_GenNeoguard/img_gen/app/schemas/generation.py:121 | `lstrip` keeps a suffix of its input; everything it drops is whitespace, and what it keeps does not start with whitespace |
| PyText.StripEndDropsSpace | Img_GenNeoguard/img_gen/app/schemas/generation.py:121 | `rstrip` keeps a prefix of its input; everything it drops is whitespace, and what it keeps does not end with whitespace |
| PyText.StripIsTrimmedSlice | Img_GenNeoguard/img_gen/app/schemas/generation.py:121 | `strip` returns the slice of its input that starts after the leading whitespace; it removes only whitespace, and leaves none at either end |
| PyText.NoneAfterStrip | Img_GenNeoguard/img_gen/app/schemas/generation.py:117-121 | patterns absent from a string, in any letter case, are absent after stripping it |
| PyText.StripAllSpace | Img_GenNeoguard/img_gen/app/schemas/generation.py:121 | a whitespace-only string strips to the empty string |
| Schemas.ProviderValue | Img_GenNeoguard/img_gen/app/schemas/generation.py:37-38 | the enum value of a provider is `OpenAI` or `Gemini` |
| Schemas.ToEnumName | Img_GenNeoguard/img_gen/app/schemas/generation.py:69-74 | the name has the id's length and no `-`, `.` or lower-case letter; each `-` and `.` becomes `_` and every other character is upper-cased |
| Schemas.ToEnumNameExample | Img_GenNeoguard/img_gen/app/schemas/generation.py:71-74 | `gpt-image-1.5` becomes `GPT_IMAGE_1_5`, and `gpt-5` becomes `GPT_5` |
| Schemas.EnumNamesDistinct | Img_GenNeoguard/img_gen/app/schemas/generation.py:81-84 | within each provider the generated member names are pairwise distinct, so every model gets its own enum member |
| Schemas.ProviderModels | Img_GenNeoguard/img_gen/app/schemas/generation.py:95-97 | a provider's model list has the table's ids in table order |
| Schemas.EntriesToMap | Img_GenNeoguard/img_gen/app/schemas/generation.py:88-92 | the dict comprehension has a key for every entry and nothing else, and each value comes from an entry with that id |
| Schemas.EntriesToMapLookup | Img_GenNeoguard/img_gen/app/schemas/generation.py:88-92 | when ids are distinct, each entry's id maps to exactly that entry's type |
| Schemas.RegistryIdsDistinct | Img_GenNeoguard/img_gen/app/schemas/generation.py:55-66 | no model id appears twice in the table, across providers |
| Schemas.RegistryConsistent | Img_GenNeoguard/img_gen/app/schemas/generation.py:55-97 | every listed (provider, model) is in `ALL_MODELS` with the table's type, and `ALL_MODELS` holds only listed models |
| Schemas.EveryProviderHasModels | Img_GenNeoguard/img_gen/app/schemas/generation.py:55-66 | each provider has at least one model |
| Schemas.Gpt5IsText | Img_GenNeoguard/img_gen/app/schemas/generation.py:59 | `gpt-5` is registered as TEXT |
| Schemas.SanitizePrompt | Img_GenNeoguard/img_gen/app/schemas/generation.py:112-121 | it accepts exactly the prompts free of all four patterns in any letter case; an accepted prompt is returned as exactly `Strip(v)`, and that stripped form is free of them too |
| Schemas.StripKeepsPatternsOut | Img_GenNeoguard/img_gen/app/schemas/generation.py:117-121 | a prompt without a forbidden pattern has none after stripping |
| Schemas.ValidatePrompt | Img_GenNeoguard/img_gen/app/schemas/generation.py:108-121 | it accepts if and only if the raw length is in [1, 2000] and no pattern occurs; the result is the stripped prompt; too short or too long is reported before patterns are checked |
| Schemas.ForbiddenPromptRejected | Img_GenNeoguard/img_gen/app/schemas/generation.py:117-120 | any prompt containing a denylisted pattern, in any case, is rejected |
| Schemas.ScriptTagRejected | Img_GenNeoguard/img_gen/app/schemas/generation.py:117-120 | `<script>alert(1)</script>` is rejected |
| Schemas.CleanTrimmedPromptUnchanged | Img_GenNeoguard/img_gen/app/schemas/generation.py:121 | a clean prompt without surrounding whitespace is returned unchanged |
| Schemas.CatPromptAccepted | Img_GenNeoguard/img_gen/app/schemas/generation.py:108-121 | `Un gato naranja` is accepted as it is |
| Schemas.WhitespacePromptBecomesEmpty | Img_GenNeoguard/img_gen/app/schemas/generation.py:108-121 | a whitespace-only prompt of up to 2000 characters passes the length check and becomes `""` |
| ContextStore.Lookup | Img_GenNeoguard/img_gen/app/services/context_store.py:15 | an unknown id has the empty history |
| ContextStore.Appended | Img_GenNeoguard/img_gen/app/services/context_store.py:18-22 | the id's history is extended by the messages; the id becomes known; every other id is untouched |
| ContextStore.Removed | Img_GenNeoguard/img_gen/app/services/context_store.py:25-27 | the id is forgotten; every other id is untouched; removing an unknown id changes nothing |
| ContextStore.ConversationStore.constructor | Img_GenNeoguard/img_gen/app/services/context_store.py:10 | the store starts empty |
| ContextStore.ConversationStore.GetHistory | Img_GenNeoguard/img_gen/app/services/context_store.py:13-15 | it returns the stored list, or `[]` for an unknown id, as a value |
| ContextStore.ConversationStore.AppendMessages | Img_GenNeoguard/img_gen/app/services/context_store.py:18-22 | new history is old history followed by the messages; every other id keeps its history |
| ContextStore.ConversationStore.ClearConversation | Img_GenNeoguard/img_gen/app/services/context_store.py:25-27 | the history becomes empty; every other id keeps its history; an unknown id is a no-op |
| ContextStore.LookupAfter | Img_GenNeoguard/img_gen/app/services/context_store.py:18-27 | an append or a clear of another id extends the history of `id` by what it appends there, and by nothing otherwise |
| ContextStore.NeverAppendedIsEmpty | Img_GenNeoguard/img_gen/app/services/context_store.py:13-27 | an id that no operation appended to reads as empty after any sequence of appends and clears |
| ContextStore.HistoryIsAppendsInOrder | Img_GenNeoguard/img_gen/app/services/context_store.py:18-22 | without a clear, an id's history is the concatenation of its appends in call order |
| ContextStore.ClearForgetsEarlierTurns | Img_GenNeoguard/img_gen/app/services/context_store.py:25-27 | after a clear, the history is only what was appended since |
| ProviderBase.ResolveModelType | Img_GenNeoguard/img_gen/app/services/providers/base.py:30-39 | it succeeds if and only if the model is in `ALL_MODELS`, returns its type, and otherwise fails naming the model; it reads nothing else |
| ProviderBase.ResolveRegistered | Img_GenNeoguard/img_gen/app/services/providers/base.py:36-39 | every table model resolves to its table type |
| ProviderBase.ResolveUnregistered | Img_GenNeoguard/img_gen/app/services/providers/base.py:37-38 | a model no provider lists fails to resolve |
| ProviderBase.ResolveGpt5 | Img_GenNeoguard/img_gen/app/services/providers/base.py:36-39 | `gpt-5` resolves to TEXT |
| ProviderBase.HasApiKey | Img_GenNeoguard/img_gen/app/services/providers/openai_service.py:67-70 | a key is missing exactly when it is `None` or empty, as `not api_key` decides; the same test guards `edit_image` (openai_service.py:184-186) and Gemini's `generate` (gemini_service.py:70-73) |
| ProviderBase.SummaryPrompt | Img_GenNeoguard/img_gen/app/services/providers/openai_service.py:38-39 | the summary request starts with the fixed instruction, and is exactly that instruction for an empty history; Gemini builds it the same way (gemini_service.py:35-36) |
| ProviderBase.SummaryPromptAddsLine | Img_GenNeoguard/img_gen/app/services/providers/openai_service.py:38-39 | each message adds one `role: content` line after a line break, in history order, and a single message gives one line |
| ProviderBase.ActiveConversation | Img_GenNeoguard/img_gen/app/services/providers/openai_service.py:94 | a conversation is active if and only if the id is present and non-empty |
| ProviderBase.HistoryFor | Img_GenNeoguard/img_gen/app/services/providers/openai_service.py:94 | without an active conversation the history is empty; with one, it is that conversation's stored list (empty when unknown) |
| ProviderBase.SelectContext | Img_GenNeoguard/img_gen/app/services/providers/openai_service.py:95-104 | summary mode if and only if a summary is asked for and there is history; full history if and only if it is not asked for and there is history; prompt only if and only if there is no history |
| ProviderBase.TurnRecord | Img_GenNeoguard/img_gen/app/services/providers/openai_service.py:122-129 | a turn records something if and only if it has an active conversation, and then exactly `[user prompt, assistant reply]` |
| ProviderBase.Recorded | Img_GenNeoguard/img_gen/app/services/providers/openai_service.py:122-129 | the store is unchanged unless there is a record and an active conversation; otherwise the record is appended to it |
| OpenAIService.OpenAIRole | Img_GenNeoguard/img_gen/app/services/providers/openai_service.py:30 | `assistant` stays `assistant`; every other role becomes `user` |
| OpenAIService.OpenAIMessages | Img_GenNeoguard/img_gen/app/services/providers/openai_service.py:26-33 | the list has one more message than the history; message i is history i with its role mapped and its content kept; the last is `{user, prompt}` |
| OpenAIService.BuildOpenAIMessages | Img_GenNeoguard/img_gen/app/services/providers/openai_service.py:26-33 | the loop builds exactly `OpenAIMessages` |
| OpenAIService.ChatTurn | Img_GenNeoguard/img_gen/app/services/providers/openai_service.py:106-135 | exactly one more call is made, and it succeeds if and only if the reply is 200 with content |
| OpenAIService.ChatTurnOutcome | Img_GenNeoguard/img_gen/app/services/providers/openai_service.py:117-135 | success carries the reply's content as text and records `[user prompt, assistant reply]`; the only errors are an upstream error and a malformed reply |
| OpenAIService.TextTurn | Img_GenNeoguard/img_gen/app/services/providers/openai_service.py:85-135 | a text turn makes one or two calls |
| OpenAIService.TextTurnRequests | Img_GenNeoguard/img_gen/app/services/providers/openai_service.py:36-116 | see the bullets after this table |
| OpenAIService.ChatTurnEndsTextTurn | Img_GenNeoguard/img_gen/app/services/providers/openai_service.py:106-135 | when a text turn ends with a given chat call, it succeeds exactly when that call does, with its text; the only errors are upstream and malformed; the turn is recorded exactly when it succeeds |
| OpenAIService.TextTurnOutcome | Img_GenNeoguard/img_gen/app/services/providers/openai_service.py:36-135 | see the bullets after this table |
| OpenAIService.ImageTurn | Img_GenNeoguard/img_gen/app/services/providers/openai_service.py:137-172 | one generation call (quality high, n 1, 1024x1024); nothing is recorded |
| OpenAIService.ImageTurnOutcome | Img_GenNeoguard/img_gen/app/services/providers/openai_service.py:159-172 | it succeeds if and only if the reply is 200 with `b64_json`; a 200 reply without it is a malformed response; success carries the image and no text; the only errors are upstream and malformed |
| OpenAIService.GenerateSpec | Img_GenNeoguard/img_gen/app/services/providers/openai_service.py:61-83 | the model type is resolved before the key is checked; either failure makes no call; otherwise TEXT goes to `TextTurn` and IMAGE to `ImageTurn` |
| OpenAIService.CallChat | Img_GenNeoguard/img_gen/app/services/providers/openai_service.py:106-120 | the method's result and calls equal those of `ChatTurn` |
| OpenAIService.CallText | Img_GenNeoguard/img_gen/app/services/providers/openai_service.py:94-120 | the method's result and calls equal those of `TextTurn` for the history given |
| OpenAIService.GenerateText | Img_GenNeoguard/img_gen/app/services/providers/openai_service.py:85-135 | result and calls equal `TextTurn` on the history read; the store afterwards is the old store plus that turn's record |
| OpenAIService.Generate | Img_GenNeoguard/img_gen/app/services/providers/openai_service.py:61-83 | result, calls and new store equal those of `GenerateSpec` |
| OpenAIService.CallsAreOpenAI | Img_GenNeoguard/img_gen/app/services/providers/openai_service.py:61-172 | every call `generate` makes is a chat completion or an image generation |
| OpenAIService.EditImages | Img_GenNeoguard/img_gen/app/services/providers/openai_service.py:200 | one `{image_url}` per data URL, in order |
| OpenAIService.EditImage | Img_GenNeoguard/img_gen/app/services/providers/openai_service.py:174-228 | checks run in order: key, non-empty image list, edit model; a call is made if and only if all pass; the single edit request carries every URL in order; once the call is made, it succeeds if and only if the reply is 200 with `b64_json`, a non-200 reply is an upstream error carrying the body, and a 200 reply without the field is a malformed response; success names the model and `OpenAI` |
| OpenAIService.HelloScenario | Img_GenNeoguard/img_gen/app/services/providers/openai_service.py:94-104 | `gpt-5`/`hello` without a conversation sends one chat call with only the prompt, records nothing and returns text |
| OpenAIService.SecondTurnReplaysFirst | Img_GenNeoguard/img_gen/app/services/providers/openai_service.py:101-129 | the second `hello` in conversation `abc` sends `[user hello, assistant reply, user hello]` |
| GeminiService.GeminiRole | Img_GenNeoguard/img_gen/app/services/providers/gemini_service.py:27 | `assistant` becomes `model`; every other role becomes `user` |
| GeminiService.GeminiContentsFor | Img_GenNeoguard/img_gen/app/services/providers/gemini_service.py:23-30 | the list has one more entry than the history; entry i is history i with its role mapped; the last is a `user` entry with the prompt |
| GeminiService.BuildGeminiContents | Img_GenNeoguard/img_gen/app/services/providers/gemini_service.py:23-30 | the loop builds exactly `GeminiContentsFor` |
| GeminiService.B64Decode | Img_GenNeoguard/img_gen/app/services/providers/gemini_service.py:54-57 | canonical text decodes exactly; other text is left to the lenient decoder |
| GeminiService.EnsureRawBytes | Img_GenNeoguard/img_gen/app/services/providers/gemini_service.py:41-58 | see the bullets after this table |
| GeminiService.SignaturesExclusive | Img_GenNeoguard/img_gen/app/services/providers/gemini_service.py:134-139 | at most one of the PNG, JPEG and WEBP signatures matches |
| GeminiService.SniffMime | Img_GenNeoguard/img_gen/app/services/providers/gemini_service.py:133-141 | the type is always an allowed MIME type; JPEG if and only if the JPEG signature leads; WEBP if and only if it is a RIFF/WEBP container over 12 bytes; PNG otherwise |
| GeminiService.EncodedTextRestored | Img_GenNeoguard/img_gen/app/services/providers/gemini_service.py:43-44 | base64 text of any bytes normalises to exactly those bytes |
| GeminiService.SignedBytesKept | Img_GenNeoguard/img_gen/app/services/providers/gemini_service.py:46-52 | bytes of at least four that start with a PNG or JPEG signature, or a WEBP container over 12 bytes, are kept as they are |
| GeminiService.EncodedBytesRestored | Img_GenNeoguard/img_gen/app/services/providers/gemini_service.py:53-57 | base64 text handed over as bytes is decoded back to the original bytes, unless the text reads as a RIFF/WEBP header |
| GeminiService.ContentTurn | Img_GenNeoguard/img_gen/app/services/providers/gemini_service.py:94-114 | exactly one more call is made, and it succeeds if and only if the SDK returns a reply |
| GeminiService.TextTurn | Img_GenNeoguard/img_gen/app/services/providers/gemini_service.py:77-114 | a text turn makes one or two calls |
| GeminiService.TextTurnRequests | Img_GenNeoguard/img_gen/app/services/providers/gemini_service.py:33-98 | see the bullets after this table |
| GeminiService.ContentTurnEndsTextTurn | Img_GenNeoguard/img_gen/app/services/providers/gemini_service.py:94-114 | when a text turn ends with a given request, it succeeds exactly when that request does, with its text; the only error is the SDK's; the turn is recorded exactly when it succeeds |
| GeminiService.TextTurnOutcome | Img_GenNeoguard/img_gen/app/services/providers/gemini_service.py:33-114 | see the bullets after this table |
| GeminiService.ImageTurn | Img_GenNeoguard/img_gen/app/services/providers/gemini_service.py:115-126 | one `generate_images` call with the fixed configuration; nothing is recorded |
| GeminiService.ImageTurnOutcome | Img_GenNeoguard/img_gen/app/services/providers/gemini_service.py:127-150 | see the bullets after this table |
| GeminiService.GenerateSpec | Img_GenNeoguard/img_gen/app/services/providers/gemini_service.py:64-152 | the model type is resolved before the key is checked; either failure makes no call; otherwise TEXT goes to `TextTurn` and IMAGE to `ImageTurn` |
| GeminiService.CallContent | Img_GenNeoguard/img_gen/app/services/providers/gemini_service.py:94-99 | the method's result and calls equal those of `ContentTurn` |
| GeminiService.CallText | Img_GenNeoguard/img_gen/app/services/providers/gemini_service.py:81-99 | the method's result and calls equal those of `TextTurn` for the history given |
| GeminiService.CallsAreGemini | Img_GenNeoguard/img_gen/app/services/providers/gemini_service.py:64-152 | every call `generate` makes is `generate_content` or `generate_images` |
| GeminiService.GenerateText | Img_GenNeoguard/img_gen/app/services/providers/gemini_service.py:77-114 | result and calls equal `TextTurn` on the history read; the store afterwards is the old store plus that turn's record |
| GeminiService.Generate | Img_GenNeoguard/img_gen/app/services/providers/gemini_service.py:64-152 | result, calls and new store equal those of `GenerateSpec` |
| GeminiService.RawImageDelivered | Img_GenNeoguard/img_gen/app/services/providers/gemini_service.py:130-150 | raw signed bytes reach the client as their encoding, which decodes back to them, with the sniffed type |
| GeminiService.EncodedImageDelivered | Img_GenNeoguard/img_gen/app/services/providers/gemini_service.py:130-150 | base64 text from the SDK reaches the client unchanged, typed by the bytes it encodes |
| Factory.GetService | Img_GenNeoguard/img_gen/app/services/factory.py:33-38 | a provider is served if and only if it is registered, by its registered adapter; otherwise the error is "unsupported provider" |
| Factory.ServiceForEachProvider | Img_GenNeoguard/img_gen/app/services/factory.py:27-30 | OpenAI gets the OpenAI adapter and Gemini the Gemini adapter |
| Endpoints.GenerateSpec | Img_GenNeoguard/img_gen/app/api/v1/endpoints/generation.py:56-85 | a model outside the provider's enum is refused first, then an invalid prompt; neither makes a call |
| Endpoints.DelegatesToAdapter | Img_GenNeoguard/img_gen/app/api/v1/endpoints/generation.py:66-80 | an accepted request goes to the provider's own adapter, with the stripped prompt, the form's other fields and the conversation's history |
| Endpoints.Generate | Img_GenNeoguard/img_gen/app/api/v1/endpoints/generation.py:56-85 | result, calls and new store equal those of `Endpoints.GenerateSpec` |
| Endpoints.AcceptedModelsResolve | Img_GenNeoguard/img_gen/app/api/v1/endpoints/generation.py:58-80 | a generation endpoint never fails with "unsupported model", since every model its form accepts is registered |
| Endpoints.CallsStayWithProvider | Img_GenNeoguard/img_gen/app/api/v1/endpoints/generation.py:77-80 | the OpenAI endpoint only calls OpenAI, and the Gemini endpoint only calls Gemini |
| Endpoints.ListModels | Img_GenNeoguard/img_gen/app/api/v1/endpoints/generation.py:104-117 | one entry per provider, in order; each lists the provider's models in table order with their table type |
| Endpoints.GetEditInfo | Img_GenNeoguard/img_gen/app/api/v1/endpoints/generation.py:124-135 | extensions and edit models are each strictly sorted and equal, as sets, to the allow-lists; min is 1 and max is 16 |
| Endpoints.AfterLastDotIsLastSuffix | Img_GenNeoguard/img_gen/app/api/v1/endpoints/generation.py:175 | the result is the dot-free suffix after the last dot, or the whole name when there is no dot |
| Endpoints.ExtensionFollowsLastDot | Img_GenNeoguard/img_gen/app/api/v1/endpoints/generation.py:175 | `Extension`, the extension checked against the allow-list, is `"."` plus the lower-cased text after the last dot, or `""` without a dot |
| Endpoints.UpperCaseExtensionAccepted | Img_GenNeoguard/img_gen/app/api/v1/endpoints/generation.py:175-176 | `X.PNG` has extension `.png` |
| Endpoints.BitmapRefused | Img_GenNeoguard/img_gen/app/api/v1/endpoints/generation.py:175-176 | `x.bmp` is refused |
| Endpoints.NameWithoutDotRefused | Img_GenNeoguard/img_gen/app/api/v1/endpoints/generation.py:175-176 | `png` has no extension |
| Endpoints.CoerceMime | Img_GenNeoguard/img_gen/app/api/v1/endpoints/generation.py:182-184 | an allowed content type is kept; a missing or other type becomes `image/png` |
| Endpoints.DataUrlRoundTrip | Img_GenNeoguard/img_gen/app/api/v1/endpoints/generation.py:185-186 | `DataUrl`, the data URL built for an upload, is `data:`, the MIME type, `;base64,`, then a canonical payload that decodes to the file's bytes |
| Endpoints.FirstDisallowed | Img_GenNeoguard/img_gen/app/api/v1/endpoints/generation.py:174-180 | every file before the index is allowed, and the file at it is not |
| Endpoints.FirstDisallowedIs | Img_GenNeoguard/img_gen/app/api/v1/endpoints/generation.py:174-180 | the first disallowed file is the one the scan stops at |
| Endpoints.UploadUrls | Img_GenNeoguard/img_gen/app/api/v1/endpoints/generation.py:173-186 | see the bullets after this table |
| Endpoints.EncodeUploads | Img_GenNeoguard/img_gen/app/api/v1/endpoints/generation.py:173-186 | the loop returns exactly `UploadUrls` |
| Endpoints.EditImagesOpenAI | Img_GenNeoguard/img_gen/app/api/v1/endpoints/generation.py:143-204 | see the bullets after this table |
| Endpoints.EditSendsEveryUpload | Img_GenNeoguard/img_gen/app/api/v1/endpoints/generation.py:173-204 | a valid edit sends one request with the stripped prompt and one data URL per upload, in order |

Rows whose third cell points here:

- **OpenAIService.TextTurnRequests**
  - Every call is a chat call with the request's model.
  - Without history it sends only `{user, prompt}`. With history and no summary asked for, it sends `OpenAIMessages`.
  - With a summary asked for and history present, the summary call goes first. The main call follows if and only if the
    summary call succeeded, and then sends `[system note, {user, prompt}]`. The system note is the fixed prefix
    `Resumen de la conversación:` and a line break, followed by the stripped summary reply.
- **OpenAIService.TextTurnOutcome**
  - The turn succeeds if and only if its last call does.
  - Success carries that reply's text and no image.
  - The only errors are an upstream error and a malformed reply.
  - It records the turn if and only if it succeeded with an active conversation.
- **GeminiService.EnsureRawBytes**
  - Text is decoded. Non-ASCII text, or a decode failure, is an error.
  - Signed bytes are kept.
  - Other bytes are decoded, or kept when decoding fails.
  - A missing payload passes through as `None`.
  - Only text can fail.
- **GeminiService.TextTurnRequests**
  - Every call is a `generate_content` call with the request's model.
  - Without history, the call sends the bare prompt with no system instruction.
  - With history and no summary asked for, it sends the role list.
  - With a summary asked for and history present, the summary call goes first. The main call follows if and only if the
    summary call succeeded, and then sends the bare prompt, with the stripped summary as the system instruction.
- **GeminiService.TextTurnOutcome**
  - The turn succeeds if and only if its last call does, and then carries that reply's text and no image.
  - The only error is the SDK's.
  - It records the turn if and only if it succeeded with an active conversation.
- **GeminiService.ImageTurnOutcome**
  - An empty list is "no image generated".
  - The possible errors are upstream, no image, decode failure and missing data.
  - It succeeds if and only if the first image normalises to bytes.
  - Success carries `Encode` of the normalised bytes and their sniffed MIME type, and no text.
- **Endpoints.UploadUrls**
  - It succeeds if and only if every file is allowed, and then gives one data URL per file, in order.
  - Otherwise the error names the first disallowed file.
- **Endpoints.EditImagesOpenAI**
  - The count must be in [1, 16], then every file must be allowed, then the prompt must validate. None of these checks
    makes a call.
  - After them comes `EditImage` with the stripped prompt and the data URLs.
  - Image errors therefore take precedence over prompt errors.

## Left out

- **HTTP and the SDK.** These are not part of this model:
  - the HTTP transport, headers, JSON parsing and the Gemini SDK objects;
  - the floats `temperature` and `max_tokens`.

  A reply is reduced to a status, a body and the one field read from it, or to an SDK value or error.
- **The FastAPI layer.** Routing, form and file parsing, dynamic route registration and HTTP status codes are left out.
  Errors are the constructors of `Schemas.Error`, and the status each maps to is not modelled.
  Also left out: `main.py`, `api_router.py`, `core/config.py` (API keys are `Option<string>` parameters), and the
  standalone scripts `Original/generate_image.py` and `models_availables.py`.
- **Concurrency.** The `async` handlers and concurrent access to the shared store are not modelled. The store is used
  sequentially.
- **Dynamic enums.** Runtime `Enum` creation is replaced by the static table. `Schemas.EnumNamesDistinct` shows that
  no member name collides.
- **Exception kinds.** A reply the adapters cannot read raises one of several exceptions in the source:
  - unparsable JSON raises `JSONDecodeError` (a `ValueError`) from `response.json()`;
  - a missing key or an empty `choices` or `data` list raises `KeyError` or `IndexError`, and the image paths catch
    these and raise `ValueError` instead;
  - a `None` summary text raises `AttributeError` on `.strip()`.

  They are all modelled as `MalformedResponse`. The exception class and its message are not modelled.
- **Lenient base64 decoding.** Python's lenient decoding of non-canonical base64 (dropping stray characters, accepting
  non-zero pad bits) is an abstract function parameter (`GeminiService.LenientDecoder`).
- **Unicode case folding.** `re.IGNORECASE`, `str.lower` and `str.upper` are modelled on ASCII letters only.
  Non-ASCII case folds (for example `ſ` matching `s`) and non-ASCII upper-casing are not captured. The model ids and
  extensions that matter are ASCII.
- OpenAIService.ChatTurn, OpenAIService.ImageTurn, OpenAIService.EditImage: a reply field is either present as a
  string or absent. A JSON `null` for `content` or `b64_json` is treated like a missing key, so the model fails with
  `MalformedResponse`. The source instead returns success with `None`, and for chat it also stores `None` as the
  assistant's content. That case is not modelled.
- GeminiService.TextTurn: assumes the SDK's `response.text` is a string. When every candidate is blocked the SDK
  returns `None`. The source then returns and stores `None` as content, and that case is not modelled.
- **Adapter identity.** The factory returns a fresh adapter on each call. Adapters hold no state, so an adapter is a
  value here, and instance identity is not modelled.
- **Unreachable error path.** The endpoints' `get_service` error path cannot be reached, because every provider is
  registered. `Endpoints.Generate` therefore handles only the two registered adapters. The `hasattr(service,
  "edit_image")` check always holds for the OpenAI adapter and is not modelled.
