/**
  * The OpenAI adapter (`providers.openai_service`): chat completions with
  * conversation context, image generation, and image editing.
  */
module OpenAIService {
  import opened Wrappers
  import opened PyText
  import opened Schemas
  import opened ContextStore
  import opened Upstream
  import opened ProviderBase

  const SummaryNotePrefix: string := "Resumen de la conversaci\U{F3}n:\n"
  const ImageQuality: string := "high"
  const ImageSize: string := "1024x1024"
  const ImageCount: nat := 1

  /** Role mapping for OpenAI: a stored `assistant` role passes through unchanged (Gemini's mapping renames it), every other role is sent as `user`. */
  function OpenAIRole(role: string): (r: string)
    ensures r == "assistant" || r == "user"
    ensures r == "assistant" <==> role == "assistant"
  {
    if role == "assistant" then "assistant" else "user"
  }

  /** The `messages` list for a history and the current prompt. */
  function OpenAIMessages(history: seq<Message>, prompt: string): (msgs: seq<ChatMessage>)
    ensures |msgs| == |history| + 1
    ensures forall i :: 0 <= i < |history| ==>
              msgs[i] == ChatMessage(OpenAIRole(history[i].role), history[i].content)
    ensures msgs[|history|] == ChatMessage("user", prompt)
    decreases |history|
  {
    if history == [] then [ChatMessage("user", prompt)]
    else [ChatMessage(OpenAIRole(history[0].role), history[0].content)] + OpenAIMessages(history[1..], prompt)
  }

  /** `_build_openai_messages`: accumulates the converted history, then the prompt. */
  method BuildOpenAIMessages(history: seq<Message>, prompt: string) returns (messages: seq<ChatMessage>)
    ensures messages == OpenAIMessages(history, prompt)
  {
    messages := [];
    var i := 0;
    while i < |history|
      invariant 0 <= i <= |history|
      invariant |messages| == i
      invariant forall k :: 0 <= k < i ==>
                  messages[k] == ChatMessage(OpenAIRole(history[k].role), history[k].content)
    {
      var m := history[i];
      var role := if m.role == "assistant" then "assistant" else "user";
      messages := messages + [ChatMessage(role, m.content)];
      i := i + 1;
    }
    messages := messages + [ChatMessage("user", prompt)];
  }

  /** The summary request: one user message carrying the whole history. */
  function SummaryCall(model: string, history: seq<Message>): Call {
    ChatCompletion(model, [ChatMessage("user", SummaryPrompt(history))])
  }

  /** The main chat call after `earlier` calls, and what its reply makes of the turn. */
  function ChatTurn(req: GenerationRequest, messages: seq<ChatMessage>, api: OpenAIApi, earlier: seq<Call>): (t: Turn)
    ensures t.calls == earlier + [ChatCompletion(req.model, messages)]
    ensures t.result.Ok? <==> Succeeded(api.post(ChatCompletion(req.model, messages)))
  {
    var call := ChatCompletion(req.model, messages);
    var reply := api.post(call);
    if reply.status != 200 then Failed(UpstreamError(reply.text), earlier + [call])
    else if reply.field.None? then Failed(MalformedResponse, earlier + [call])
    else Turn(Ok(TextResponse(req, reply.field.value)), earlier + [call], TurnRecord(req, reply.field.value))
  }

  /** A chat turn answers the reply's text exactly when the reply succeeds, and records it; otherwise it fails upstream or as malformed. */
  lemma ChatTurnOutcome(req: GenerationRequest, messages: seq<ChatMessage>, api: OpenAIApi, earlier: seq<Call>)
    ensures var t := ChatTurn(req, messages, api, earlier);
            var reply := api.post(ChatCompletion(req.model, messages));
            && (t.result.Ok? ==> t.result.value == TextResponse(req, reply.field.value))
            && (t.result.Err? ==> t.result.error.UpstreamError? || t.result.error == MalformedResponse)
            && t.record == (if t.result.Ok? then TurnRecord(req, reply.field.value) else None)
  {
  }

  /** The text branch (`_generate_text`) given the history read for the request: one or two chat calls. */
  function TextTurn(req: GenerationRequest, history: seq<Message>, api: OpenAIApi): (t: Turn)
    ensures 1 <= |t.calls| <= 2
  {
    match SelectContext(req.useSummaryContext, history)
    case SummaryMode =>
      var summaryCall := SummaryCall(req.model, history);
      var reply := api.post(summaryCall);
      if reply.status != 200 then Failed(UpstreamError(reply.text), [summaryCall])
      else if reply.field.None? then Failed(MalformedResponse, [summaryCall])
      else
        var note := ChatMessage("system", SummaryNotePrefix + Strip(reply.field.value));
        ChatTurn(req, [note, ChatMessage("user", req.prompt)], api, [summaryCall])
    case FullHistory =>
      ChatTurn(req, OpenAIMessages(history, req.prompt), api, [])
    case PromptOnly =>
      ChatTurn(req, [ChatMessage("user", req.prompt)], api, [])
  }

  /**
    * What a text turn sends: the bare prompt without history, the whole history
    * when no summary is asked for, and otherwise a summary call followed, only
    * when it succeeds, by a system note and the prompt.
    */
  lemma TextTurnRequests(req: GenerationRequest, history: seq<Message>, api: OpenAIApi)
    ensures var t := TextTurn(req, history, api);
            && (forall c :: c in t.calls ==> c.ChatCompletion? && c.model == req.model)
            && (history == [] ==>
                  t.calls == [ChatCompletion(req.model, [ChatMessage("user", req.prompt)])])
            && (!req.useSummaryContext && history != [] ==>
                  t.calls == [ChatCompletion(req.model, OpenAIMessages(history, req.prompt))])
            && (req.useSummaryContext && history != [] ==>
                  && t.calls[0] == SummaryCall(req.model, history)
                  && (|t.calls| == 2 <==> Succeeded(api.post(SummaryCall(req.model, history)))))
            && (req.useSummaryContext && history != [] && |t.calls| == 2 ==>
                  && api.post(SummaryCall(req.model, history)).field.Some?
                  && t.calls[1].messages ==
                       [ChatMessage("system", SummaryNotePrefix + Strip(api.post(SummaryCall(req.model, history)).field.value)),
                        ChatMessage("user", req.prompt)])
  {
  }

  /**
    * How a text turn ends: it succeeds exactly when the last call does, with
    * that reply as text and no image; it fails only with an upstream error or
    * a malformed reply; it records the turn exactly when it succeeds.
    */
  lemma TextTurnOutcome(req: GenerationRequest, history: seq<Message>, api: OpenAIApi)
    ensures var t := TextTurn(req, history, api);
            && (t.result.Ok? <==> Succeeded(api.post(t.calls[|t.calls| - 1])))
            && (t.result.Ok? ==>
                  && t.result.value.content == api.post(t.calls[|t.calls| - 1]).field
                  && t.result.value.imageBase64.None?
                  && t.result.value.imageMimeType.None?)
            && (t.result.Err? ==> t.result.error.UpstreamError? || t.result.error == MalformedResponse)
            && t.record == (if t.result.Ok? then TurnRecord(req, t.result.value.content.value) else None)
  {
    var t := TextTurn(req, history, api);
    match SelectContext(req.useSummaryContext, history) {
      case SummaryMode =>
        var summaryCall := SummaryCall(req.model, history);
        var reply := api.post(summaryCall);
        if reply.status != 200 {
          assert t == Failed(UpstreamError(reply.text), [summaryCall]);
        } else if reply.field.None? {
          assert t == Failed(MalformedResponse, [summaryCall]);
        } else {
          var note := ChatMessage("system", SummaryNotePrefix + Strip(reply.field.value));
          ChatTurnEndsTextTurn(req, history, api, [note, ChatMessage("user", req.prompt)], [summaryCall]);
        }
      case FullHistory =>
        ChatTurnEndsTextTurn(req, history, api, OpenAIMessages(history, req.prompt), []);
      case PromptOnly =>
        ChatTurnEndsTextTurn(req, history, api, [ChatMessage("user", req.prompt)], []);
    }
  }

  /** When a text turn ends with a given chat call, its outcome is that call's outcome. */
  lemma ChatTurnEndsTextTurn(req: GenerationRequest, history: seq<Message>, api: OpenAIApi,
                             messages: seq<ChatMessage>, earlier: seq<Call>)
    requires TextTurn(req, history, api) == ChatTurn(req, messages, api, earlier)
    ensures var t := TextTurn(req, history, api);
            && (t.result.Ok? <==> Succeeded(api.post(t.calls[|t.calls| - 1])))
            && (t.result.Ok? ==>
                  && t.result.value.content == api.post(t.calls[|t.calls| - 1]).field
                  && t.result.value.imageBase64.None?
                  && t.result.value.imageMimeType.None?)
            && (t.result.Err? ==> t.result.error.UpstreamError? || t.result.error == MalformedResponse)
            && t.record == (if t.result.Ok? then TurnRecord(req, t.result.value.content.value) else None)
  {
    var t := TextTurn(req, history, api);
    assert t.calls[|t.calls| - 1] == ChatCompletion(req.model, messages);
    ChatTurnOutcome(req, messages, api, earlier);
  }

  /** The image branch (`_generate_image`): one generation request, the image read from `data[0].b64_json`. */
  function ImageTurn(req: GenerationRequest, api: OpenAIApi): (t: Turn)
    ensures t.calls == [ImageGeneration(req.model, req.prompt, ImageQuality, ImageCount, ImageSize)]
    ensures t.record.None?
  {
    var call := ImageGeneration(req.model, req.prompt, ImageQuality, ImageCount, ImageSize);
    var reply := api.post(call);
    if reply.status != 200 then Failed(UpstreamError(reply.text), [call])
    else if reply.field.None? then Failed(MalformedResponse, [call])
    else Turn(Ok(GenerationResponse(None, reply.field, None, req.model, ProviderValue(req.provider))), [call], None)
  }

  /**
    * How an image turn ends: it succeeds exactly when the reply is 200 with
    * `b64_json`, carrying that image and no text; a 200 reply without it is a
    * malformed response; nothing else can go wrong.
    */
  lemma ImageTurnOutcome(req: GenerationRequest, api: OpenAIApi)
    ensures var t := ImageTurn(req, api);
            var reply := api.post(t.calls[0]);
            && (t.result.Ok? <==> Succeeded(reply))
            && (reply.status == 200 && reply.field.None? ==> t.result == Err(MalformedResponse))
            && (t.result.Err? ==> t.result.error.UpstreamError? || t.result.error == MalformedResponse)
            && (t.result.Ok? ==> t.result.value.imageBase64 == reply.field && t.result.value.content.None?)
  {
  }

  /** `generate`: resolve the model type, then require the key, then route by type. */
  function GenerateSpec(req: GenerationRequest, history: seq<Message>, apiKey: Option<string>, api: OpenAIApi): (t: Turn)
    ensures req.model !in AllModels() ==> t == Failed(UnsupportedModel(req.model), [])
    ensures req.model in AllModels() && !HasApiKey(apiKey) ==> t == Failed(MissingCredential, [])
    ensures t.calls != [] ==> req.model in AllModels() && HasApiKey(apiKey)
    ensures t.result.Err? && t.result.error.UnsupportedModel? ==> req.model !in AllModels()
    ensures req.model in AllModels() && HasApiKey(apiKey) && AllModels()[req.model] == Text ==>
              t == TextTurn(req, history, api)
    ensures req.model in AllModels() && HasApiKey(apiKey) && AllModels()[req.model] == Image ==>
              t == ImageTurn(req, api)
  {
    match ResolveModelType(req.model)
    case Err(e) => Failed(e, [])
    case Ok(kind) =>
      if !HasApiKey(apiKey) then Failed(MissingCredential, [])
      else match kind
        case Text => TextTurnOutcome(req, history, api); TextTurn(req, history, api)
        case Image => ImageTurnOutcome(req, api); ImageTurn(req, api)
  }

  /** The adapter only ever calls the chat-completion and image-generation endpoints. */
  lemma CallsAreOpenAI(req: GenerationRequest, history: seq<Message>, apiKey: Option<string>, api: OpenAIApi)
    ensures forall c :: c in GenerateSpec(req, history, apiKey, api).calls ==> c.ChatCompletion? || c.ImageGeneration?
  {
    TextTurnRequests(req, history, api);
  }

  /** The main chat completion after `earlier` calls: the reply's text, or the error it stands for. */
  method CallChat(req: GenerationRequest, messages: seq<ChatMessage>, api: OpenAIApi, earlier: seq<Call>)
    returns (r: Result<GenerationResponse, Error>, calls: seq<Call>)
    ensures r == ChatTurn(req, messages, api, earlier).result && calls == ChatTurn(req, messages, api, earlier).calls
  {
    var call := ChatCompletion(req.model, messages);
    calls := earlier + [call];
    var response := api.post(call);
    if response.status != 200 {
      return Err(UpstreamError(response.text)), calls;
    }
    if response.field.None? {
      return Err(MalformedResponse), calls;
    }
    r := Ok(TextResponse(req, response.field.value));
  }

  /** The calls `_generate_text` makes for a given history, and what it answers; nothing is stored yet. */
  method CallText(req: GenerationRequest, history: seq<Message>, api: OpenAIApi)
    returns (r: Result<GenerationResponse, Error>, calls: seq<Call>)
    ensures r == TextTurn(req, history, api).result && calls == TextTurn(req, history, api).calls
  {
    match SelectContext(req.useSummaryContext, history)
    case SummaryMode =>
      var summaryCall := SummaryCall(req.model, history);
      var summary := api.post(summaryCall);
      if summary.status != 200 {
        return Err(UpstreamError(summary.text)), [summaryCall];
      }
      if summary.field.None? {
        return Err(MalformedResponse), [summaryCall];
      }
      var note := ChatMessage("system", SummaryNotePrefix + Strip(summary.field.value));
      r, calls := CallChat(req, [note, ChatMessage("user", req.prompt)], api, [summaryCall]);
    case FullHistory =>
      var messages := BuildOpenAIMessages(history, req.prompt);
      r, calls := CallChat(req, messages, api, []);
    case PromptOnly =>
      r, calls := CallChat(req, [ChatMessage("user", req.prompt)], api, []);
  }

  /** `_generate_text`: reads the history, picks the context, calls the API, and on success stores the turn. */
  method GenerateText(store: ConversationStore, req: GenerationRequest, api: OpenAIApi)
    returns (r: Result<GenerationResponse, Error>, calls: seq<Call>)
    modifies store
    ensures var t := TextTurn(req, HistoryFor(old(store.conversations), req.conversationId), api);
            && r == t.result && calls == t.calls
            && store.conversations == Recorded(old(store.conversations), req.conversationId, t.record)
  {
    var cid := ActiveConversation(req.conversationId);
    var history: seq<Message> := [];
    if cid.Some? {
      history := store.GetHistory(cid.value);
    }
    assert history == HistoryFor(old(store.conversations), req.conversationId);
    r, calls := CallText(req, history, api);
    TextTurnOutcome(req, history, api);
    if r.Ok? && cid.Some? {
      store.AppendMessages(cid.value, [Message("user", req.prompt), Message("assistant", r.value.content.value)]);
    }
  }

  /** `generate`, acting on the store through `GenerateText`. */
  method Generate(store: ConversationStore, req: GenerationRequest, apiKey: Option<string>, api: OpenAIApi)
    returns (r: Result<GenerationResponse, Error>, calls: seq<Call>)
    modifies store
    ensures var t := GenerateSpec(req, HistoryFor(old(store.conversations), req.conversationId), apiKey, api);
            && r == t.result && calls == t.calls
            && store.conversations == Recorded(old(store.conversations), req.conversationId, t.record)
  {
    var kind := ResolveModelType(req.model);
    if kind.Err? {
      return Err(kind.error), [];
    }
    if !HasApiKey(apiKey) {
      return Err(MissingCredential), [];
    }
    match kind.value
    case Text =>
      r, calls := GenerateText(store, req, api);
    case Image =>
      var t := ImageTurn(req, api);
      r, calls := t.result, t.calls;
  }

  /** The image references of an edit request: one per data URL, in order. */
  function EditImages(urls: seq<string>): (refs: seq<ImageRef>)
    ensures |refs| == |urls|
    ensures forall i :: 0 <= i < |urls| ==> refs[i].imageUrl == urls[i]
  {
    seq(|urls|, i requires 0 <= i < |urls| => ImageRef(urls[i]))
  }

  /** `edit_image`: key, then a non-empty image list, then an edit-capable model; then one edit request. */
  function EditImage(prompt: string, model: string, urls: seq<string>, apiKey: Option<string>, api: OpenAIApi): (t: Turn)
    ensures !HasApiKey(apiKey) ==> t == Failed(MissingCredential, [])
    ensures HasApiKey(apiKey) && urls == [] ==> t == Failed(NoInputImages, [])
    ensures HasApiKey(apiKey) && urls != [] && model !in ImageEditModels ==> t == Failed(UnsupportedEditModel(model), [])
    ensures t.calls != [] <==> HasApiKey(apiKey) && urls != [] && model in ImageEditModels
    ensures t.calls != [] ==> t.calls == [ImageEdit(model, prompt, EditImages(urls), ImageCount, ImageSize, ImageQuality)]
    ensures t.record.None?
    ensures t.calls != [] ==> (t.result.Ok? <==> Succeeded(api.post(t.calls[0])))
    ensures t.calls != [] && api.post(t.calls[0]).status != 200 ==>
              t.result == Err(UpstreamError(api.post(t.calls[0]).text))
    ensures t.calls != [] && api.post(t.calls[0]).status == 200 && api.post(t.calls[0]).field.None? ==>
              t.result == Err(MalformedResponse)
    ensures t.result.Ok? ==>
              && Succeeded(api.post(t.calls[0]))
              && t.result.value == GenerationResponse(None, api.post(t.calls[0]).field, None, model, "OpenAI")
  {
    if !HasApiKey(apiKey) then Failed(MissingCredential, [])
    else if urls == [] then Failed(NoInputImages, [])
    else if model !in ImageEditModels then Failed(UnsupportedEditModel(model), [])
    else
      var call := ImageEdit(model, prompt, EditImages(urls), ImageCount, ImageSize, ImageQuality);
      var reply := api.post(call);
      if reply.status != 200 then Failed(UpstreamError(reply.text), [call])
      else if reply.field.None? then Failed(MalformedResponse, [call])
      else Turn(Ok(GenerationResponse(None, reply.field, None, model, "OpenAI")), [call], None)
  }

  // ---- Scenarios ----

  /** `gpt-5` with prompt `hello` and no conversation: one chat call carrying only the prompt; a text result. */
  lemma HelloScenario(apiKey: Option<string>, api: OpenAIApi)
    requires HasApiKey(apiKey)
    ensures var req := GenerationRequest("hello", "gpt-5", OpenAI, None, false);
            var t := GenerateSpec(req, HistoryFor(map[], req.conversationId), apiKey, api);
            && t.calls == [ChatCompletion("gpt-5", [ChatMessage("user", "hello")])]
            && t.record.None?
            && (t.result.Ok? ==> t.result.value.content.Some? && t.result.value.imageBase64.None?)
  {
    Gpt5IsText();
  }

  /** The same request twice in conversation `abc`: the second call replays the first turn, three messages in all. */
  lemma SecondTurnReplaysFirst(apiKey: Option<string>, api: OpenAIApi, reply: string)
    requires HasApiKey(apiKey)
    requires Succeeded(api.post(ChatCompletion("gpt-5", [ChatMessage("user", "hello")])))
    requires api.post(ChatCompletion("gpt-5", [ChatMessage("user", "hello")])).field == Some(reply)
    ensures var req := GenerationRequest("hello", "gpt-5", OpenAI, Some("abc"), false);
            var first := GenerateSpec(req, HistoryFor(map[], req.conversationId), apiKey, api);
            var store := Recorded(map[], req.conversationId, first.record);
            var second := GenerateSpec(req, HistoryFor(store, req.conversationId), apiKey, api);
            && second.calls == [ChatCompletion("gpt-5",
                 [ChatMessage("user", "hello"), ChatMessage("assistant", reply), ChatMessage("user", "hello")])]
  {
    Gpt5IsText();
    var req := GenerationRequest("hello", "gpt-5", OpenAI, Some("abc"), false);
    var hello := [ChatMessage("user", "hello")];
    assert HistoryFor(map[], req.conversationId) == [];
    var first := GenerateSpec(req, [], apiKey, api);
    assert first == TextTurn(req, [], api);
    TextTurnRequests(req, [], api);
    assert first.calls == [ChatCompletion("gpt-5", hello)];
    TextTurnOutcome(req, [], api);
    var turn := [Message("user", "hello"), Message("assistant", reply)];
    assert first.record == Some(turn);
    var store := Recorded(map[], req.conversationId, first.record);
    assert Lookup(store, "abc") == turn;
    var history := HistoryFor(store, req.conversationId);
    assert history == turn;
    var second := GenerateSpec(req, history, apiKey, api);
    assert second == TextTurn(req, history, api);
    TextTurnRequests(req, history, api);
    assert second.calls == [ChatCompletion("gpt-5", OpenAIMessages(history, "hello"))];
    assert OpenAIRole("user") == "user" && OpenAIRole("assistant") == "assistant";
    assert OpenAIMessages(history, "hello")
           == [ChatMessage("user", "hello"), ChatMessage("assistant", reply), ChatMessage("user", "hello")];
  }
}
