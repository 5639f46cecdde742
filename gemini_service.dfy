/**
  * The Gemini adapter (`providers.gemini_service`): text through
  * `generate_content` with conversation context, images through
  * `generate_images` with byte normalisation and format sniffing.
  */
module GeminiService {
  import opened Wrappers
  import opened PyText
  import opened Base64
  import opened Schemas
  import opened ContextStore
  import opened Upstream
  import opened ProviderBase

  const SystemNotePrefix: string := "Resumen de la conversaci\U{F3}n previa:\n"

  /** The fixed configuration of every image request. */
  const ImageConfig: ImagenConfig := ImagenConfig(1, "1:1", "BLOCK_LOW_AND_ABOVE", "ALLOW_ADULT")

  /**
    * What `base64.b64decode` makes of text that is not a canonical encoding:
    * the bytes it decodes after dropping stray characters, or `None` when it
    * raises. Left abstract and supplied by the caller.
    */
  type LenientDecoder = string -> Option<seq<byte>>

  /** Role mapping for Gemini: `assistant` becomes `model`, every other role `user`. */
  function GeminiRole(role: string): (r: string)
    ensures r == "model" || r == "user"
    ensures r == "model" <==> role == "assistant"
  {
    if role == "assistant" then "model" else "user"
  }

  function TextContent(role: string, text: string): Content {
    Content(role, [TextPart(text)])
  }

  /** The `contents` list for a history and the current prompt. */
  function GeminiContentsFor(history: seq<Message>, prompt: string): (cs: seq<Content>)
    ensures |cs| == |history| + 1
    ensures forall i :: 0 <= i < |history| ==>
              cs[i] == TextContent(GeminiRole(history[i].role), history[i].content)
    ensures cs[|history|] == TextContent("user", prompt)
    decreases |history|
  {
    if history == [] then [TextContent("user", prompt)]
    else [TextContent(GeminiRole(history[0].role), history[0].content)] + GeminiContentsFor(history[1..], prompt)
  }

  /** `_build_gemini_contents`: accumulates the converted history, then the prompt. */
  method BuildGeminiContents(history: seq<Message>, prompt: string) returns (contents: seq<Content>)
    ensures contents == GeminiContentsFor(history, prompt)
  {
    contents := [];
    for i := 0 to |history|
      invariant |contents| == i
      invariant forall k :: 0 <= k < i ==>
                  contents[k] == TextContent(GeminiRole(history[k].role), history[k].content)
    {
      var m := history[i];
      var role := if m.role == "assistant" then "model" else "user";
      contents := contents + [Content(role, [TextPart(m.content)])];
    }
    contents := contents + [TextContent("user", prompt)];
  }

  // ---- Image bytes ----

  const PngMagic: seq<byte> := [0x89, 0x50, 0x4E, 0x47]
  const JpegMagic: seq<byte> := [0xFF, 0xD8, 0xFF]
  const RiffMagic: seq<byte> := [0x52, 0x49, 0x46, 0x46]
  const WebpMagic: seq<byte> := [0x57, 0x45, 0x42, 0x50]

  predicate StartsWith(b: seq<byte>, prefix: seq<byte>) {
    |prefix| <= |b| && b[..|prefix|] == prefix
  }

  /** A RIFF container holding WEBP, recognised only beyond twelve bytes. */
  predicate IsWebp(b: seq<byte>) {
    |b| > 12 && StartsWith(b, RiffMagic) && b[8..12] == WebpMagic
  }

  /** The test `_ensure_raw_bytes` applies before leaving bytes alone. */
  predicate HasImageSignature(b: seq<byte>) {
    |b| >= 4 && (StartsWith(b, PngMagic) || StartsWith(b, JpegMagic) || IsWebp(b))
  }

  /** Bytes read as text, one character per byte, as `b64decode` reads a bytes argument. */
  function BytesAsText(b: seq<byte>): (s: string)
    ensures |s| == |b|
    ensures forall i :: 0 <= i < |b| ==> s[i] as int == b[i] as int
  {
    seq(|b|, i requires 0 <= i < |b| => (b[i] as int) as char)
  }

  predicate IsAscii(s: string) {
    forall i :: 0 <= i < |s| ==> (s[i] as int) < 128
  }

  /** `base64.b64decode`: exact on canonical encodings, the lenient decoder elsewhere. */
  function B64Decode(s: string, lenient: LenientDecoder): (r: Option<seq<byte>>)
    ensures IsCanonical(s) ==> r == Some(Decode(s))
    ensures !IsCanonical(s) ==> r == lenient(s)
  {
    if IsCanonical(s) then Some(Decode(s)) else lenient(s)
  }

  /**
    * `_ensure_raw_bytes`: text is base64-decoded (non-ASCII text or a decoding
    * failure raises); bytes with an image signature are kept; other bytes are
    * decoded, or kept when decoding fails; a missing payload passes through.
    */
  function EnsureRawBytes(payload: ImagePayload, lenient: LenientDecoder): (r: Result<Option<seq<byte>>, Error>)
    ensures r.Err? ==> payload.TextData? && r.error == ImageDecodeError
    ensures r == Ok(None) <==> payload == NoData
    ensures payload.TextData? ==>
              r == (if IsAscii(payload.text) && B64Decode(payload.text, lenient).Some?
                    then Ok(B64Decode(payload.text, lenient))
                    else Err(ImageDecodeError))
    ensures payload.ByteData? && HasImageSignature(payload.bytes) ==> r == Ok(Some(payload.bytes))
    ensures payload.ByteData? && !HasImageSignature(payload.bytes) ==>
              r == Ok(Some(match B64Decode(BytesAsText(payload.bytes), lenient)
                           case Some(d) => d
                           case None => payload.bytes))
  {
    match payload
    case TextData(text) =>
      if !IsAscii(text) then Err(ImageDecodeError)
      else
        (match B64Decode(text, lenient)
         case Some(d) => Ok(Some(d))
         case None => Err(ImageDecodeError))
    case ByteData(bytes) =>
      if HasImageSignature(bytes) then Ok(Some(bytes))
      else
        (match B64Decode(BytesAsText(bytes), lenient)
         case Some(d) => Ok(Some(d))
         case None => Ok(Some(bytes)))
    case NoData => Ok(None)
  }

  /** The three signatures differ in their first byte, so at most one of them matches. */
  lemma SignaturesExclusive(b: seq<byte>)
    ensures !(StartsWith(b, PngMagic) && StartsWith(b, JpegMagic))
    ensures !(StartsWith(b, PngMagic) && IsWebp(b))
    ensures !(StartsWith(b, JpegMagic) && IsWebp(b))
  {
    if StartsWith(b, PngMagic) { assert b[0] == b[..4][0] == 0x89; }
    if StartsWith(b, JpegMagic) { assert b[0] == b[..3][0] == 0xFF; }
    if IsWebp(b) { assert b[0] == b[..4][0] == 0x52; }
  }

  /** The MIME type sniffed from the leading bytes: PNG, then JPEG, then WEBP, PNG otherwise. */
  function SniffMime(b: seq<byte>): (mime: string)
    ensures mime in AllowedImageMimeTypes
    ensures mime == "image/jpeg" <==> StartsWith(b, JpegMagic)
    ensures mime == "image/webp" <==> IsWebp(b)
    ensures mime == "image/png" <==> !StartsWith(b, JpegMagic) && !IsWebp(b)
  {
    SignaturesExclusive(b);
    if StartsWith(b, PngMagic) then "image/png"
    else if StartsWith(b, JpegMagic) then "image/jpeg"
    else if IsWebp(b) then "image/webp"
    else "image/png"
  }

  /** Base64 text of any bytes comes back as exactly those bytes. */
  lemma EncodedTextRestored(b: seq<byte>, lenient: LenientDecoder)
    ensures EnsureRawBytes(TextData(Encode(b)), lenient) == Ok(Some(b))
  {
    EncodeIsAscii(b);
    DecodeEncode(b);
  }

  /** Raw PNG, JPEG or WEBP bytes are never run through the decoder. */
  lemma SignedBytesKept(b: seq<byte>, lenient: LenientDecoder)
    requires StartsWith(b, PngMagic) || (|b| >= 4 && StartsWith(b, JpegMagic)) || IsWebp(b)
    ensures EnsureRawBytes(ByteData(b), lenient) == Ok(Some(b))
  {
  }

  /** Base64 text delivered as bytes is decoded, unless it happens to look like a WEBP container. */
  lemma EncodedBytesRestored(b: seq<byte>, lenient: LenientDecoder)
    requires !IsWebp(TextAsBytes(Encode(b)))
    ensures EnsureRawBytes(ByteData(TextAsBytes(Encode(b))), lenient) == Ok(Some(b))
  {
    var s := Encode(b);
    EncodeIsAscii(b);
    AsciiBytesAsText(s);
    var t := TextAsBytes(s);
    if |t| >= 4 {
      assert t[0] as int < 128;
      assert t[..4][0] == t[0] && t[..3][0] == t[0];
    }
    assert !HasImageSignature(t);
    DecodeEncode(b);
    assert B64Decode(BytesAsText(t), lenient) == Some(b);
  }

  /** ASCII text survives the trip to bytes and back. */
  lemma AsciiBytesAsText(s: string)
    requires IsAscii(s)
    ensures BytesAsText(TextAsBytes(s)) == s
  {
    var r := BytesAsText(TextAsBytes(s));
    assert forall i :: 0 <= i < |s| ==> r[i] == s[i];
  }

  /** ASCII text as bytes, one byte per character. */
  function TextAsBytes(s: string): (b: seq<byte>)
    ensures |b| == |s|
    ensures forall i :: 0 <= i < |s| && (s[i] as int) < 256 ==> b[i] as int == s[i] as int
  {
    seq(|s|, i requires 0 <= i < |s| => ((s[i] as int) % 256) as byte)
  }

  // ---- Turns ----

  /** The summary request: the whole history as one prompt, no configuration. */
  function SummaryCall(model: string, history: seq<Message>): Call {
    GenerateContent(model, PromptText(SummaryPrompt(history)), None)
  }

  /** The main `generate_content` call after `earlier` calls, and what its reply makes of the turn. */
  function ContentTurn(req: GenerationRequest, call: Call, api: GeminiApi, earlier: seq<Call>): (t: Turn)
    ensures t.calls == earlier + [call]
    ensures t.result.Ok? <==> api.generateContent(call).SdkOk?
  {
    match api.generateContent(call)
    case SdkError(detail) => Failed(UpstreamError(detail), earlier + [call])
    case SdkOk(content) => Turn(Ok(TextResponse(req, content)), earlier + [call], TurnRecord(req, content))
  }

  /** The TEXT branch of `generate` given the history read for the request: one or two calls. */
  function TextTurn(req: GenerationRequest, history: seq<Message>, api: GeminiApi): (t: Turn)
    ensures 1 <= |t.calls| <= 2
  {
    match SelectContext(req.useSummaryContext, history)
    case SummaryMode =>
      var summaryCall := SummaryCall(req.model, history);
      (match api.generateContent(summaryCall)
       case SdkError(detail) => Failed(UpstreamError(detail), [summaryCall])
       case SdkOk(summary) =>
         var call := GenerateContent(req.model, PromptText(req.prompt), Some(SystemNotePrefix + Strip(summary)));
         ContentTurn(req, call, api, [summaryCall]))
    case FullHistory =>
      ContentTurn(req, GenerateContent(req.model, ContentList(GeminiContentsFor(history, req.prompt)), None), api, [])
    case PromptOnly =>
      ContentTurn(req, GenerateContent(req.model, PromptText(req.prompt), None), api, [])
  }

  /**
    * What a text turn sends: the bare prompt without history, the converted
    * history when no summary is asked for, and otherwise a summary request
    * followed, only when it succeeds, by the prompt with the summary as
    * system instruction.
    */
  lemma TextTurnRequests(req: GenerationRequest, history: seq<Message>, api: GeminiApi)
    ensures var t := TextTurn(req, history, api);
            && (forall c :: c in t.calls ==> c.GenerateContent? && c.model == req.model)
            && (history == [] ==>
                  t.calls == [GenerateContent(req.model, PromptText(req.prompt), None)])
            && (!req.useSummaryContext && history != [] ==>
                  t.calls == [GenerateContent(req.model, ContentList(GeminiContentsFor(history, req.prompt)), None)])
            && (req.useSummaryContext && history != [] ==>
                  && t.calls[0] == SummaryCall(req.model, history)
                  && (|t.calls| == 2 <==> api.generateContent(SummaryCall(req.model, history)).SdkOk?))
            && (req.useSummaryContext && history != [] && |t.calls| == 2 ==>
                  t.calls[1] == GenerateContent(req.model, PromptText(req.prompt),
                                  Some(SystemNotePrefix + Strip(api.generateContent(t.calls[0]).value))))
  {
  }

  /** A content turn answers the reply's text exactly when the SDK call succeeds, and records it. */
  lemma ContentTurnEndsTextTurn(req: GenerationRequest, history: seq<Message>, api: GeminiApi, call: Call, earlier: seq<Call>)
    requires TextTurn(req, history, api) == ContentTurn(req, call, api, earlier)
    ensures var t := TextTurn(req, history, api);
            && (t.result.Ok? <==> api.generateContent(t.calls[|t.calls| - 1]).SdkOk?)
            && (t.result.Ok? ==>
                  && t.result.value.content == Some(api.generateContent(t.calls[|t.calls| - 1]).value)
                  && t.result.value.imageBase64.None?
                  && t.result.value.imageMimeType.None?)
            && (t.result.Err? ==> t.result.error.UpstreamError?)
            && t.record == (if t.result.Ok? then TurnRecord(req, t.result.value.content.value) else None)
  {
    var t := TextTurn(req, history, api);
    assert t.calls[|t.calls| - 1] == call;
  }

  /**
    * How a text turn ends: it succeeds exactly when the last request does,
    * with that reply as text and no image; any failure is an upstream error;
    * it records the turn exactly when it succeeds.
    */
  lemma TextTurnOutcome(req: GenerationRequest, history: seq<Message>, api: GeminiApi)
    ensures var t := TextTurn(req, history, api);
            && (t.result.Ok? <==> api.generateContent(t.calls[|t.calls| - 1]).SdkOk?)
            && (t.result.Ok? ==>
                  && t.result.value.content == Some(api.generateContent(t.calls[|t.calls| - 1]).value)
                  && t.result.value.imageBase64.None?
                  && t.result.value.imageMimeType.None?)
            && (t.result.Err? ==> t.result.error.UpstreamError?)
            && t.record == (if t.result.Ok? then TurnRecord(req, t.result.value.content.value) else None)
  {
    match SelectContext(req.useSummaryContext, history) {
      case SummaryMode =>
        var summaryCall := SummaryCall(req.model, history);
        match api.generateContent(summaryCall) {
          case SdkError(detail) =>
            assert TextTurn(req, history, api) == Failed(UpstreamError(detail), [summaryCall]);
          case SdkOk(summary) =>
            var call := GenerateContent(req.model, PromptText(req.prompt), Some(SystemNotePrefix + Strip(summary)));
            ContentTurnEndsTextTurn(req, history, api, call, [summaryCall]);
        }
      case FullHistory =>
        var call := GenerateContent(req.model, ContentList(GeminiContentsFor(history, req.prompt)), None);
        ContentTurnEndsTextTurn(req, history, api, call, []);
      case PromptOnly =>
        ContentTurnEndsTextTurn(req, history, api, GenerateContent(req.model, PromptText(req.prompt), None), []);
    }
  }

  /** The IMAGE branch of `generate`: one request, the first image normalised, sniffed and re-encoded. */
  function ImageTurn(req: GenerationRequest, api: GeminiApi, lenient: LenientDecoder): (t: Turn)
    ensures t.calls == [GenerateImages(req.model, req.prompt, ImageConfig)]
    ensures t.record.None?
  {
    var call := GenerateImages(req.model, req.prompt, ImageConfig);
    match api.generateImages(call)
    case SdkError(detail) => Failed(UpstreamError(detail), [call])
    case SdkOk(images) =>
      if images == [] then Failed(NoImageGenerated, [call])
      else
        match EnsureRawBytes(images[0], lenient)
        case Err(e) => Failed(e, [call])
        case Ok(None) => Failed(InvalidImageData, [call])
        case Ok(Some(b)) =>
          Turn(Ok(GenerationResponse(None, Some(Encode(b)), Some(SniffMime(b)), req.model, ProviderValue(req.provider))), [call], None)
  }

  /**
    * How an image turn ends: no image is an error of its own; it succeeds
    * exactly when the first image normalises to bytes, and then carries their
    * encoding and sniffed type and no text; nothing else can go wrong.
    */
  lemma ImageTurnOutcome(req: GenerationRequest, api: GeminiApi, lenient: LenientDecoder)
    ensures var t := ImageTurn(req, api, lenient);
            var reply := api.generateImages(t.calls[0]);
            && (reply == SdkOk([]) ==> t.result == Err(NoImageGenerated))
            && (t.result.Err? ==>
                  t.result.error.UpstreamError? || t.result.error in {NoImageGenerated, ImageDecodeError, InvalidImageData})
            && (t.result.Ok? <==>
                  && reply.SdkOk? && |reply.value| > 0
                  && EnsureRawBytes(reply.value[0], lenient).Ok?
                  && EnsureRawBytes(reply.value[0], lenient).value.Some?)
            && (t.result.Ok? ==>
                  var b := EnsureRawBytes(reply.value[0], lenient).value.value;
                  && t.result.value.content.None?
                  && t.result.value.imageBase64 == Some(Encode(b))
                  && t.result.value.imageMimeType == Some(SniffMime(b)))
  {
  }

  /** `generate`: resolve the model type, then require the key, then route by type. */
  function GenerateSpec(req: GenerationRequest, history: seq<Message>, apiKey: Option<string>, api: GeminiApi, lenient: LenientDecoder): (t: Turn)
    ensures req.model !in AllModels() ==> t == Failed(UnsupportedModel(req.model), [])
    ensures req.model in AllModels() && !HasApiKey(apiKey) ==> t == Failed(MissingCredential, [])
    ensures t.calls != [] ==> req.model in AllModels() && HasApiKey(apiKey)
    ensures t.result.Err? && t.result.error.UnsupportedModel? ==> req.model !in AllModels()
    ensures req.model in AllModels() && HasApiKey(apiKey) && AllModels()[req.model] == Text ==>
              t == TextTurn(req, history, api)
    ensures req.model in AllModels() && HasApiKey(apiKey) && AllModels()[req.model] == Image ==>
              t == ImageTurn(req, api, lenient)
  {
    match ResolveModelType(req.model)
    case Err(e) => Failed(e, [])
    case Ok(kind) =>
      if !HasApiKey(apiKey) then Failed(MissingCredential, [])
      else match kind
        case Text => TextTurnOutcome(req, history, api); TextTurn(req, history, api)
        case Image => ImageTurnOutcome(req, api, lenient); ImageTurn(req, api, lenient)
  }

  /** The adapter only ever calls `generate_content` and `generate_images`. */
  lemma CallsAreGemini(req: GenerationRequest, history: seq<Message>, apiKey: Option<string>, api: GeminiApi, lenient: LenientDecoder)
    ensures forall c :: c in GenerateSpec(req, history, apiKey, api, lenient).calls ==> c.GenerateContent? || c.GenerateImages?
  {
    TextTurnRequests(req, history, api);
  }

  /** One `generate_content` request after `earlier` ones: the reply's text, or the SDK error. */
  method CallContent(req: GenerationRequest, call: Call, api: GeminiApi, earlier: seq<Call>)
    returns (r: Result<GenerationResponse, Error>, calls: seq<Call>)
    ensures r == ContentTurn(req, call, api, earlier).result && calls == ContentTurn(req, call, api, earlier).calls
  {
    calls := earlier + [call];
    var response := api.generateContent(call);
    if response.SdkError? {
      return Err(UpstreamError(response.detail)), calls;
    }
    r := Ok(TextResponse(req, response.value));
  }

  /** The requests of the TEXT branch for a given history, and what it answers; nothing is stored yet. */
  method CallText(req: GenerationRequest, history: seq<Message>, api: GeminiApi)
    returns (r: Result<GenerationResponse, Error>, calls: seq<Call>)
    ensures r == TextTurn(req, history, api).result && calls == TextTurn(req, history, api).calls
  {
    match SelectContext(req.useSummaryContext, history)
    case SummaryMode =>
      var summaryCall := SummaryCall(req.model, history);
      var summary := api.generateContent(summaryCall);
      if summary.SdkError? {
        return Err(UpstreamError(summary.detail)), [summaryCall];
      }
      var config := Some(SystemNotePrefix + Strip(summary.value));
      r, calls := CallContent(req, GenerateContent(req.model, PromptText(req.prompt), config), api, [summaryCall]);
    case FullHistory =>
      var items := BuildGeminiContents(history, req.prompt);
      r, calls := CallContent(req, GenerateContent(req.model, ContentList(items), None), api, []);
    case PromptOnly =>
      r, calls := CallContent(req, GenerateContent(req.model, PromptText(req.prompt), None), api, []);
  }

  /** The TEXT branch acting on the store: read the history, call the model, record the turn. */
  method GenerateText(store: ConversationStore, req: GenerationRequest, api: GeminiApi)
    returns (r: Result<GenerationResponse, Error>, calls: seq<Call>)
    modifies store
    ensures var t := TextTurn(req, HistoryFor(old(store.conversations), req.conversationId), api);
            && r == t.result && calls == t.calls
            && store.conversations == Recorded(old(store.conversations), req.conversationId, t.record)
  {
    var cid := ActiveConversation(req.conversationId);
    var history: seq<Message> := [];
    if cid.Some? {
      history := store.GetHistory(cid.value);
    }
    assert history == HistoryFor(old(store.conversations), req.conversationId);
    r, calls := CallText(req, history, api);
    TextTurnOutcome(req, history, api);
    if r.Ok? && cid.Some? {
      store.AppendMessages(cid.value, [Message("user", req.prompt), Message("assistant", r.value.content.value)]);
    }
  }

  /** `generate`, acting on the store through `GenerateText`. */
  method Generate(store: ConversationStore, req: GenerationRequest, apiKey: Option<string>, api: GeminiApi, lenient: LenientDecoder)
    returns (r: Result<GenerationResponse, Error>, calls: seq<Call>)
    modifies store
    ensures var t := GenerateSpec(req, HistoryFor(old(store.conversations), req.conversationId), apiKey, api, lenient);
            && r == t.result && calls == t.calls
            && store.conversations == Recorded(old(store.conversations), req.conversationId, t.record)
  {
    var kind := ResolveModelType(req.model);
    if kind.Err? {
      return Err(kind.error), [];
    }
    if !HasApiKey(apiKey) {
      return Err(MissingCredential), [];
    }
    match kind.value
    case Text =>
      r, calls := GenerateText(store, req, api);
    case Image =>
      var t := ImageTurn(req, api, lenient);
      r, calls := t.result, t.calls;
  }

  /** An image delivered as raw bytes reaches the client as their exact encoding, with the sniffed type. */
  lemma RawImageDelivered(req: GenerationRequest, api: GeminiApi, lenient: LenientDecoder, b: seq<byte>, rest: seq<ImagePayload>)
    requires api.generateImages(GenerateImages(req.model, req.prompt, ImageConfig)) == SdkOk([ByteData(b)] + rest)
    requires HasImageSignature(b)
    ensures var t := ImageTurn(req, api, lenient);
            && t.result.Ok?
            && t.result.value.imageBase64 == Some(Encode(b))
            && IsCanonical(Encode(b)) && Decode(Encode(b)) == b
            && t.result.value.imageMimeType == Some(SniffMime(b))
  {
    ImageTurnOutcome(req, api, lenient);
    DecodeEncode(b);
  }

  /** An image delivered as base64 text reaches the client as the same text, the sniffed type taken from its bytes. */
  lemma EncodedImageDelivered(req: GenerationRequest, api: GeminiApi, lenient: LenientDecoder, b: seq<byte>, rest: seq<ImagePayload>)
    requires api.generateImages(GenerateImages(req.model, req.prompt, ImageConfig)) == SdkOk([TextData(Encode(b))] + rest)
    ensures var t := ImageTurn(req, api, lenient);
            && t.result.Ok?
            && t.result.value.imageBase64 == Some(Encode(b))
            && t.result.value.imageMimeType == Some(SniffMime(b))
  {
    ImageTurnOutcome(req, api, lenient);
    EncodedTextRestored(b, lenient);
  }
}
