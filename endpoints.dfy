/**
  * The HTTP endpoints (`api.v1.endpoints.generation`) minus the framework:
  * the per-provider generation endpoint, the model and edit listings, and
  * the image edit endpoint with its upload checks and data-URL conversion.
  */
module Endpoints {
  import opened Wrappers
  import opened PyText
  import opened Base64
  import opened Schemas
  import opened ContextStore
  import opened Upstream
  import opened ProviderBase
  import opened Factory
  import OpenAIService
  import GeminiService

  // ---- Generation ----

  /** The form fields of `POST /{provider}`. */
  datatype GenerateForm = GenerateForm(
    prompt: string,
    model: string,
    conversationId: Option<string>,
    useSummaryContext: bool)

  /** The configured API keys. */
  datatype Settings = Settings(openaiKey: Option<string>, geminiKey: Option<string>)

  /** The outside world the adapters talk to. */
  datatype Backends = Backends(openai: OpenAIApi, gemini: GeminiApi, lenient: GeminiService.LenientDecoder)

  /** The adapter's `generate` for a request. */
  function Dispatch(adapter: Adapter, req: GenerationRequest, history: seq<Message>, settings: Settings, backends: Backends): Turn {
    match adapter
    case OpenAIAdapter => OpenAIService.GenerateSpec(req, history, settings.openaiKey, backends.openai)
    case GeminiAdapter => GeminiService.GenerateSpec(req, history, settings.geminiKey, backends.gemini, backends.lenient)
  }

  /**
    * The generation endpoint of `provider`: the model must be one of the
    * provider's own (the enum the form field is typed with), the prompt must
    * validate, and the provider's adapter then receives the stripped prompt.
    */
  function GenerateSpec(m: Conversations, provider: Provider, form: GenerateForm, settings: Settings, backends: Backends): (t: Turn)
    ensures form.model !in ProviderModels(provider) ==> t == Failed(InvalidModelChoice(form.model), [])
    ensures form.model in ProviderModels(provider) && ValidatePrompt(form.prompt).Err? ==>
              t == Failed(InvalidPrompt(ValidatePrompt(form.prompt).error), [])
    ensures t.calls != [] ==> form.model in ProviderModels(provider) && ValidatePrompt(form.prompt).Ok?
  {
    if form.model !in ProviderModels(provider) then Failed(InvalidModelChoice(form.model), [])
    else match ValidatePrompt(form.prompt)
      case Err(e) => Failed(InvalidPrompt(e), [])
      case Ok(prompt) =>
        var req := GenerationRequest(prompt, form.model, provider, form.conversationId, form.useSummaryContext);
        match GetService(provider)
        case Err(e) => Failed(e, [])
        case Ok(adapter) => Dispatch(adapter, req, HistoryFor(m, form.conversationId), settings, backends)
  }

  /**
    * An accepted request reaches the provider's own adapter, with the
    * stripped prompt, the form's other fields and the conversation's history.
    */
  lemma DelegatesToAdapter(m: Conversations, provider: Provider, form: GenerateForm, settings: Settings, backends: Backends)
    requires form.model in ProviderModels(provider) && ValidatePrompt(form.prompt).Ok?
    ensures GenerateSpec(m, provider, form, settings, backends)
            == Dispatch(Services[provider],
                        GenerationRequest(Strip(form.prompt), form.model, provider, form.conversationId, form.useSummaryContext),
                        HistoryFor(m, form.conversationId), settings, backends)
  {
    ServiceForEachProvider(provider);
  }

  /** The generated `generate` endpoint: validate, build the request, delegate to the provider's adapter. */
  method Generate(store: ConversationStore, provider: Provider, form: GenerateForm, settings: Settings, backends: Backends)
    returns (r: Result<GenerationResponse, Error>, calls: seq<Call>)
    modifies store
    ensures var t := GenerateSpec(old(store.conversations), provider, form, settings, backends);
            && r == t.result && calls == t.calls
            && store.conversations == Recorded(old(store.conversations), form.conversationId, t.record)
  {
    if form.model !in ProviderModels(provider) {
      return Err(InvalidModelChoice(form.model)), [];
    }
    var validated := ValidatePrompt(form.prompt);
    if validated.Err? {
      return Err(InvalidPrompt(validated.error)), [];
    }
    var req := GenerationRequest(validated.value, form.model, provider, form.conversationId, form.useSummaryContext);
    // Every provider has an adapter (`ServiceForEachProvider`), so `get_service` cannot fail here.
    match GetService(provider)
    case Ok(OpenAIAdapter) =>
      r, calls := OpenAIService.Generate(store, req, settings.openaiKey, backends.openai);
    case Ok(GeminiAdapter) =>
      r, calls := GeminiService.Generate(store, req, settings.geminiKey, backends.gemini, backends.lenient);
  }

  /** A model the endpoint accepts always has a registered type, so `UnsupportedModel` never reaches a client. */
  lemma AcceptedModelsResolve(m: Conversations, provider: Provider, form: GenerateForm, settings: Settings, backends: Backends)
    ensures var t := GenerateSpec(m, provider, form, settings, backends);
            t.result.Err? ==> !t.result.error.UnsupportedModel?
  {
    if form.model in ProviderModels(provider) && ValidatePrompt(form.prompt).Ok? {
      var i :| 0 <= i < |ProviderModels(provider)| && ProviderModels(provider)[i] == form.model;
      ResolveRegistered(provider, i);
      DelegatesToAdapter(m, provider, form, settings, backends);
    }
  }

  /** Each endpoint talks only to its own provider's API. */
  lemma CallsStayWithProvider(m: Conversations, provider: Provider, form: GenerateForm, settings: Settings, backends: Backends)
    ensures forall c :: c in GenerateSpec(m, provider, form, settings, backends).calls ==>
              if provider == OpenAI then c.ChatCompletion? || c.ImageGeneration?
              else c.GenerateContent? || c.GenerateImages?
  {
    if form.model in ProviderModels(provider) && ValidatePrompt(form.prompt).Ok? {
      DelegatesToAdapter(m, provider, form, settings, backends);
      var req := GenerationRequest(Strip(form.prompt), form.model, provider, form.conversationId, form.useSummaryContext);
      var history := HistoryFor(m, form.conversationId);
      if provider == OpenAI {
        OpenAIService.CallsAreOpenAI(req, history, settings.openaiKey, backends.openai);
      } else {
        GeminiService.CallsAreGemini(req, history, settings.geminiKey, backends.gemini, backends.lenient);
      }
    }
  }

  // ---- Listings ----

  /** One `ModelInfo` of `list_models`: the id listed for the provider, with its `ALL_MODELS` type. */
  function ListedModel(p: Provider, j: nat): (info: ModelInfo)
    requires j < |ModelConfig(p)|
    ensures info == ModelInfo(ModelConfig(p)[j].id, ModelConfig(p)[j].kind)
  {
    ResolveRegistered(p, j);
    var id := ProviderModels(p)[j];
    ModelInfo(id, AllModels()[id])
  }

  /** `list_models`: every provider in order, each model of the table with its registered type. */
  function ListModels(): (r: seq<ProviderModelsInfo>)
    ensures |r| == |Providers|
    ensures forall i :: 0 <= i < |r| ==>
              && r[i].provider == Providers[i]
              && |r[i].models| == |ModelConfig(Providers[i])|
              && forall j :: 0 <= j < |r[i].models| ==>
                   r[i].models[j] == ModelInfo(ModelConfig(Providers[i])[j].id, ModelConfig(Providers[i])[j].kind)
  {
    seq(|Providers|, i requires 0 <= i < |Providers| =>
      var p := Providers[i];
      ProviderModelsInfo(p, seq(|ModelConfig(p)|, j requires 0 <= j < |ModelConfig(p)| => ListedModel(p, j))))
  }

  /** The body of `GET /edit-info`. */
  datatype EditInfo = EditInfo(
    allowedExtensions: seq<string>,
    allowedFormats: string,
    maxImages: nat,
    minImages: nat,
    models: seq<string>)

  /** `get_edit_info`: both allow-lists in sorted order, and the image count bounds. */
  function GetEditInfo(): (info: EditInfo)
    ensures StrictlySorted(info.allowedExtensions)
    ensures (set e | e in info.allowedExtensions) == AllowedImageExtensions
    ensures StrictlySorted(info.models)
    ensures (set e | e in info.models) == ImageEditModels
    ensures info.minImages == MinEditImages && info.maxImages == MaxEditImages
  {
    LexLessAt(".gif", ".jpeg", 1);
    LexLessAt(".jpeg", ".jpg", 3);
    LexLessAt(".jpg", ".png", 1);
    LexLessAt(".png", ".webp", 1);
    LexLessAt("chatgpt-image-latest", "gpt-image-1", 0);
    LexLessAt("gpt-image-1", "gpt-image-1-mini", 11);
    LexLessAt("gpt-image-1-mini", "gpt-image-1.5", 11);
    EditInfo(
      [".gif", ".jpeg", ".jpg", ".png", ".webp"],
      "PNG, JPEG, GIF, WEBP",
      16,
      1,
      ["chatgpt-image-latest", "gpt-image-1", "gpt-image-1-mini", "gpt-image-1.5"])
  }

  /** `a < b` shown by the first position where they part. */
  lemma LexLessAt(a: string, b: string, k: nat)
    requires k <= |a| && k <= |b| && a[..k] == b[..k]
    requires (k == |a| && k < |b|) || (k < |a| && k < |b| && a[k] < b[k])
    ensures LexLess(a, b)
  {
  }

  // ---- Image edit ----

  /** One uploaded file: its name, its declared content type, its bytes. */
  datatype Upload = Upload(filename: string, contentType: Option<string>, content: seq<byte>)

  /** `name.rsplit(".", 1)[-1]`: the text after the last dot, or the whole name without one. */
  function AfterLastDot(name: string): string
    decreases |name|
  {
    if name == [] then []
    else if name[|name| - 1] == '.' then []
    else AfterLastDot(name[..|name| - 1]) + [name[|name| - 1]]
  }

  /** The tail is the dot-free suffix that follows the last dot, or the whole name when it has no dot. */
  lemma {:induction false} AfterLastDotIsLastSuffix(name: string)
    ensures var tail := AfterLastDot(name);
            && |tail| <= |name| && tail == name[|name| - |tail|..]
            && '.' !in tail
            && ('.' in name ==> name[|name| - |tail| - 1] == '.')
            && ('.' !in name ==> tail == name)
    decreases |name|
  {
    if name != [] && name[|name| - 1] != '.' {
      var init, last := name[..|name| - 1], name[|name| - 1];
      AfterLastDotIsLastSuffix(init);
      var rest := AfterLastDot(init);
      assert AfterLastDot(name) == rest + [last];
      assert init[|init| - |rest|..] + [last] == name[|name| - |rest| - 1..];
      if '.' in name {
        var k :| 0 <= k < |name| && name[k] == '.';
        assert init[k] == '.';
        assert name[|name| - |rest| - 2] == init[|init| - |rest| - 1];
      } else {
        assert '.' !in init by {
          forall k | 0 <= k < |init| ensures init[k] != '.' { assert init[k] == name[k]; }
        }
        assert init + [last] == name;
      }
    }
  }

  /** The extension checked against the allow-list: a dot and the lower-cased tail, or empty without a dot. */
  function Extension(name: string): string {
    if '.' in name then "." + Lower(AfterLastDot(name)) else ""
  }

  /** The extension is empty for a name without a dot, and otherwise a dot followed by the lower-cased text after the last dot. */
  lemma ExtensionFollowsLastDot(name: string)
    ensures '.' !in name ==> Extension(name) == ""
    ensures '.' in name ==>
              exists k :: 0 <= k < |name| && name[k] == '.' && '.' !in name[k + 1..]
                          && Extension(name) == "." + Lower(name[k + 1..])
  {
    if '.' in name {
      AfterLastDotIsLastSuffix(name);
      var tail := AfterLastDot(name);
      var k := |name| - |tail| - 1;
      assert name[k + 1..] == tail;
    }
  }

  predicate IsAllowedFile(u: Upload) {
    Extension(u.filename) in AllowedImageExtensions
  }

  /** An upper-case extension is accepted. */
  lemma UpperCaseExtensionAccepted()
    ensures Extension("X.PNG") == ".png"
  {
    assert AfterLastDot("X.PNG") == "PNG" by {
      assert AfterLastDot("X.") == [];
      assert AfterLastDot("X.P") == "P" by { assert "X.P"[..2] == "X."; }
      assert AfterLastDot("X.PN") == "PN" by { assert "X.PN"[..3] == "X.P"; }
      assert "X.PNG"[..4] == "X.PN";
    }
    assert '.' in "X.PNG" by { assert "X.PNG"[1] == '.'; }
    assert Lower("PNG") == "png";
  }

  /** An extension off the list is refused. */
  lemma BitmapRefused()
    ensures Extension("x.bmp") !in AllowedImageExtensions
  {
    assert AfterLastDot("x.bmp") == "bmp" by {
      assert "x.bmp"[..4] == "x.bm" && "x.bm"[..3] == "x.b" && "x.b"[..2] == "x.";
    }
    assert Extension("x.bmp") == ".bmp";
  }

  /** A name without a dot has no extension, even when it spells one. */
  lemma NameWithoutDotRefused()
    ensures Extension("png") == ""
  {
    assert forall i :: 0 <= i < 3 ==> "png"[i] != '.';
  }

  /** The MIME type put in a data URL: the declared type when it is an allowed one, `image/png` otherwise. */
  function CoerceMime(contentType: Option<string>): (mime: string)
    ensures mime in AllowedImageMimeTypes
    ensures contentType.Some? && contentType.value in AllowedImageMimeTypes ==> mime == contentType.value
    ensures contentType.None? || contentType.value !in AllowedImageMimeTypes ==> mime == "image/png"
  {
    if contentType.Some? && contentType.value in AllowedImageMimeTypes then contentType.value else "image/png"
  }

  const DataPrefix: string := "data:"
  const Base64Marker: string := ";base64,"

  /** `data:<mime>;base64,<payload>` for one upload. */
  function DataUrl(u: Upload): string {
    DataPrefix + CoerceMime(u.contentType) + Base64Marker + Encode(u.content)
  }

  /** A data URL carries the coerced type and a canonical payload that decodes to the file's exact bytes. */
  lemma DataUrlRoundTrip(u: Upload)
    ensures var url, mime := DataUrl(u), CoerceMime(u.contentType);
            var n := |DataPrefix| + |mime| + |Base64Marker|;
            && n <= |url|
            && url[..|DataPrefix|] == DataPrefix
            && url[|DataPrefix|..|DataPrefix| + |mime|] == mime
            && url[|DataPrefix| + |mime|..n] == Base64Marker
            && IsCanonical(url[n..]) && Decode(url[n..]) == u.content
  {
    var url, mime := DataUrl(u), CoerceMime(u.contentType);
    var n := |DataPrefix| + |mime| + |Base64Marker|;
    assert url == DataPrefix + mime + Base64Marker + Encode(u.content);
    assert url[n..] == Encode(u.content);
    DecodeEncode(u.content);
  }

  /** The index of the first disallowed upload at or after `from`, or `|uploads|` when there is none. */
  function FirstDisallowed(uploads: seq<Upload>, from: nat): (k: nat)
    requires from <= |uploads|
    ensures from <= k <= |uploads|
    ensures forall j :: from <= j < k ==> IsAllowedFile(uploads[j])
    ensures k < |uploads| ==> !IsAllowedFile(uploads[k])
    decreases |uploads| - from
  {
    if from == |uploads| then from
    else if !IsAllowedFile(uploads[from]) then from
    else FirstDisallowed(uploads, from + 1)
  }

  /** The files of an edit request as data URLs, in upload order; the first disallowed file rejects them all. */
  function UploadUrls(uploads: seq<Upload>): (r: Result<seq<string>, Error>)
    ensures r.Ok? <==> forall j :: 0 <= j < |uploads| ==> IsAllowedFile(uploads[j])
    ensures r.Ok? ==> |r.value| == |uploads| && forall j :: 0 <= j < |uploads| ==> r.value[j] == DataUrl(uploads[j])
    ensures r.Err? ==> exists k :: 0 <= k < |uploads|
                         && r.error == DisallowedFile(uploads[k].filename)
                         && !IsAllowedFile(uploads[k])
                         && forall j :: 0 <= j < k ==> IsAllowedFile(uploads[j])
  {
    var k := FirstDisallowed(uploads, 0);
    if k < |uploads| then Err(DisallowedFile(uploads[k].filename))
    else Ok(seq(|uploads|, j requires 0 <= j < |uploads| => DataUrl(uploads[j])))
  }

  /** The first disallowed index is the one a left-to-right scan stops at. */
  lemma {:induction false} FirstDisallowedIs(uploads: seq<Upload>, from: nat, k: nat)
    requires from <= k < |uploads|
    requires forall j :: from <= j < k ==> IsAllowedFile(uploads[j])
    requires !IsAllowedFile(uploads[k])
    ensures FirstDisallowed(uploads, from) == k
    decreases k - from
  {
    if from < k {
      FirstDisallowedIs(uploads, from + 1, k);
    }
  }

  /** The conversion loop of `edit_images_openai`, stopping at the first disallowed file. */
  method EncodeUploads(uploads: seq<Upload>) returns (r: Result<seq<string>, Error>)
    ensures r == UploadUrls(uploads)
  {
    var urls: seq<string> := [];
    for i := 0 to |uploads|
      invariant |urls| == i
      invariant forall j :: 0 <= j < i ==> IsAllowedFile(uploads[j]) && urls[j] == DataUrl(uploads[j])
    {
      var u := uploads[i];
      if Extension(u.filename) !in AllowedImageExtensions {
        FirstDisallowedIs(uploads, 0, i);
        return Err(DisallowedFile(u.filename));
      }
      urls := urls + [DataPrefix + CoerceMime(u.contentType) + Base64Marker + Encode(u.content)];
    }
    assert FirstDisallowed(uploads, 0) == |uploads|;
    assert UploadUrls(uploads).value == urls;
    return Ok(urls);
  }

  /** `edit_images_openai`: count, then files, then prompt, then the OpenAI adapter's `edit_image`. */
  method EditImagesOpenAI(prompt: string, model: string, uploads: seq<Upload>, settings: Settings, backends: Backends)
    returns (r: Result<GenerationResponse, Error>, calls: seq<Call>)
    ensures |uploads| < MinEditImages ==> r == Err(TooFewImages) && calls == []
    ensures |uploads| > MaxEditImages ==> r == Err(TooManyImages) && calls == []
    ensures MinEditImages <= |uploads| <= MaxEditImages && UploadUrls(uploads).Err? ==>
              r == Err(UploadUrls(uploads).error) && calls == []
    ensures MinEditImages <= |uploads| <= MaxEditImages && UploadUrls(uploads).Ok? && ValidatePrompt(prompt).Err? ==>
              r == Err(InvalidPrompt(ValidatePrompt(prompt).error)) && calls == []
    ensures MinEditImages <= |uploads| <= MaxEditImages && UploadUrls(uploads).Ok? && ValidatePrompt(prompt).Ok? ==>
              var t := OpenAIService.EditImage(Strip(prompt), model, UploadUrls(uploads).value, settings.openaiKey, backends.openai);
              r == t.result && calls == t.calls
  {
    if |uploads| < MinEditImages {
      return Err(TooFewImages), [];
    }
    if |uploads| > MaxEditImages {
      return Err(TooManyImages), [];
    }
    var urls := EncodeUploads(uploads);
    if urls.Err? {
      return Err(urls.error), [];
    }
    var validated := ValidatePrompt(prompt);
    if validated.Err? {
      return Err(InvalidPrompt(validated.error)), [];
    }
    var t := OpenAIService.EditImage(validated.value, model, urls.value, settings.openaiKey, backends.openai);
    r, calls := t.result, t.calls;
  }

  /** An edit that reaches OpenAI sends one image per upload, in order, each the data URL of that file. */
  lemma EditSendsEveryUpload(prompt: string, model: string, uploads: seq<Upload>, settings: Settings, backends: Backends)
    requires MinEditImages <= |uploads| <= MaxEditImages && UploadUrls(uploads).Ok? && ValidatePrompt(prompt).Ok?
    requires HasApiKey(settings.openaiKey) && model in ImageEditModels
    ensures var t := OpenAIService.EditImage(Strip(prompt), model, UploadUrls(uploads).value, settings.openaiKey, backends.openai);
            && |t.calls| == 1
            && t.calls[0].ImageEdit?
            && t.calls[0].prompt == Strip(prompt)
            && |t.calls[0].images| == |uploads|
            && forall j :: 0 <= j < |uploads| ==> t.calls[0].images[j].imageUrl == DataUrl(uploads[j])
  {
  }
}
