/**
  * The model registry, prompt validation, the unified response and the image
  * edit constants (the `app.schemas.generation` module).
  */
module Schemas {
  import opened Wrappers
  import opened PyText

  /** The supported providers, in declaration order. */
  datatype Provider = OpenAI | Gemini

  /** The enum value of a provider, used in routes and in responses. */
  function ProviderValue(p: Provider): (v: string)
    ensures v == "OpenAI" || v == "Gemini"
  {
    match p
    case OpenAI => "OpenAI"
    case Gemini => "Gemini"
  }

  /** Iteration order of `Provider` and of the registry table. */
  const Providers: seq<Provider> := [OpenAI, Gemini]

  /** Whether a model produces text or an image. */
  datatype ModelType = Text | Image

  datatype ModelEntry = ModelEntry(id: string, kind: ModelType)

  /** The static registry table, provider by provider, in declaration order. */
  function ModelConfig(p: Provider): seq<ModelEntry> {
    match p
    case OpenAI => [
      ModelEntry("gpt-image-1.5", Image),
      ModelEntry("gpt-image-1", Image),
      ModelEntry("gpt-5", Text),
      ModelEntry("gpt-5.2", Text)
    ]
    case Gemini => [
      ModelEntry("gemini-2.5-flash", Text),
      ModelEntry("imagen-4.0-generate-001", Image)
    ]
  }

  /** The enum member name generated for a model id: upper-cased, `-` and `.` turned into `_`. */
  function ToEnumName(modelId: string): (name: string)
    ensures |name| == |modelId|
    ensures forall k :: 0 <= k < |name| ==> name[k] != '-' && name[k] != '.' && !('a' <= name[k] <= 'z')
    ensures forall k :: 0 <= k < |modelId| ==>
              name[k] == (if modelId[k] == '-' || modelId[k] == '.' then '_' else AsciiUpper(modelId[k]))
  {
    ReplaceChar(ReplaceChar(Upper(modelId), '-', '_'), '.', '_')
  }

  lemma ToEnumNameExample()
    ensures ToEnumName("gpt-image-1.5") == "GPT_IMAGE_1_5"
    ensures ToEnumName("gpt-5") == "GPT_5"
  {
  }

  ghost predicate DistinctEnumNames(entries: seq<ModelEntry>) {
    forall i, j :: 0 <= i < j < |entries| ==> ToEnumName(entries[i].id) != ToEnumName(entries[j].id)
  }

  /** Within each provider the generated member names do not collide, so no model is lost from its enum. */
  lemma EnumNamesDistinct(p: Provider)
    ensures DistinctEnumNames(ModelConfig(p))
  {
  }

  /** The model ids listed for a provider (`PROVIDER_MODELS`), in table order. */
  function ProviderModels(p: Provider): (ids: seq<string>)
    ensures |ids| == |ModelConfig(p)|
    ensures forall i :: 0 <= i < |ids| ==> ids[i] == ModelConfig(p)[i].id
  {
    seq(|ModelConfig(p)|, i requires 0 <= i < |ModelConfig(p)| => ModelConfig(p)[i].id)
  }

  /** A dict comprehension over `entries`: a later entry for the same id overrides an earlier one. */
  function EntriesToMap(entries: seq<ModelEntry>): (m: map<string, ModelType>)
    ensures forall e :: e in entries ==> e.id in m
    ensures forall id :: id in m ==> exists e :: e in entries && e.id == id && m[id] == e.kind
    decreases |entries|
  {
    if entries == [] then map[]
    else
      var last := entries[|entries| - 1];
      var m := EntriesToMap(entries[..|entries| - 1]);
      assert forall e :: e in entries ==> e in entries[..|entries| - 1] || e == last;
      m[last.id := last.kind]
  }

  ghost predicate DistinctIds(entries: seq<ModelEntry>) {
    forall i, j :: 0 <= i < j < |entries| ==> entries[i].id != entries[j].id
  }

  /** With distinct ids nothing is overridden: every entry keeps its own type. */
  lemma {:induction false} EntriesToMapLookup(entries: seq<ModelEntry>, i: nat)
    requires DistinctIds(entries) && i < |entries|
    ensures entries[i].id in EntriesToMap(entries) && EntriesToMap(entries)[entries[i].id] == entries[i].kind
    decreases |entries|
  {
    if i < |entries| - 1 {
      var prefix := entries[..|entries| - 1];
      assert prefix[i] == entries[i];
      EntriesToMapLookup(prefix, i);
    }
  }

  /** `ALL_MODELS`: every registered model id mapped to its type, providers in declaration order. */
  function AllModels(): map<string, ModelType> {
    EntriesToMap(ModelConfig(OpenAI) + ModelConfig(Gemini))
  }

  /** No model id appears twice in the table, across providers. */
  lemma RegistryIdsDistinct()
    ensures DistinctIds(ModelConfig(OpenAI) + ModelConfig(Gemini))
  {
  }

  /** Position of a provider's entry `i` in the table that `AllModels` folds over. */
  lemma RegistryPosition(p: Provider, i: nat)
    requires i < |ModelConfig(p)|
    ensures var k := if p == OpenAI then i else |ModelConfig(OpenAI)| + i;
            k < |ModelConfig(OpenAI) + ModelConfig(Gemini)| && (ModelConfig(OpenAI) + ModelConfig(Gemini))[k] == ModelConfig(p)[i]
  {
  }

  /**
    * The registry is consistent: every model listed under a provider has an
    * entry in `ALL_MODELS` and that entry is the type the table gives it, and
    * `ALL_MODELS` holds nothing else.
    */
  lemma RegistryConsistent()
    ensures forall p, i :: 0 <= i < |ModelConfig(p)| ==>
              ModelConfig(p)[i].id in AllModels() && AllModels()[ModelConfig(p)[i].id] == ModelConfig(p)[i].kind
    ensures forall id :: id in AllModels() ==> exists p :: id in ProviderModels(p)
  {
    var all := ModelConfig(OpenAI) + ModelConfig(Gemini);
    RegistryIdsDistinct();
    forall p, i | 0 <= i < |ModelConfig(p)|
      ensures ModelConfig(p)[i].id in AllModels() && AllModels()[ModelConfig(p)[i].id] == ModelConfig(p)[i].kind
    {
      RegistryPosition(p, i);
      EntriesToMapLookup(all, if p == OpenAI then i else |ModelConfig(OpenAI)| + i);
    }
    forall id | id in AllModels()
      ensures exists p :: id in ProviderModels(p)
    {
      var e :| e in all && e.id == id;
      var k :| 0 <= k < |all| && all[k] == e;
      if k < |ModelConfig(OpenAI)| {
        assert ProviderModels(OpenAI)[k] == id;
      } else {
        assert ProviderModels(Gemini)[k - |ModelConfig(OpenAI)|] == id;
      }
    }
  }

  lemma EveryProviderHasModels(p: Provider)
    ensures |ProviderModels(p)| > 0
  {
  }

  lemma Gpt5IsText()
    ensures "gpt-5" in AllModels() && AllModels()["gpt-5"] == Text
  {
    RegistryConsistent();
    assert ModelConfig(OpenAI)[2] == ModelEntry("gpt-5", Text);
  }

  // ---- Prompt validation ----

  const MinPromptLength: nat := 1
  const MaxPromptLength: nat := 2000

  /** Literal substrings refused in a prompt, in any letter case. */
  const ForbiddenPatterns: seq<string> := ["<script>", "javascript:", "exec(", "system("]

  datatype PromptError = TooShort | TooLong | ForbiddenPattern

  predicate HasForbiddenPattern(v: string) {
    exists p | p in ForbiddenPatterns :: ContainsIgnoringCase(v, p)
  }

  /** The prompt validator: refuse a forbidden pattern, otherwise strip surrounding whitespace. */
  function SanitizePrompt(v: string): (r: Result<string, PromptError>)
    ensures r.Ok? <==> !HasForbiddenPattern(v)
    ensures r.Err? ==> r.error == ForbiddenPattern
    ensures r.Ok? ==> r.value == Strip(v)
    ensures r.Ok? ==> |r.value| <= |v| && !HasForbiddenPattern(r.value)
  {
    if HasForbiddenPattern(v) then Err(ForbiddenPattern)
    else
      StripKeepsPatternsOut(v);
      Ok(Strip(v))
  }

  /** A slice of a string without forbidden patterns has none either. */
  lemma StripKeepsPatternsOut(v: string)
    requires !HasForbiddenPattern(v)
    ensures |Strip(v)| <= |v| && !HasForbiddenPattern(Strip(v))
  {
    NoneAfterStrip(v, ForbiddenPatterns);
  }

  /**
    * Building a request from a raw prompt: the field's length bounds are
    * checked on the raw text first, then the validator runs.
    */
  function ValidatePrompt(raw: string): (r: Result<string, PromptError>)
    ensures r.Ok? <==> MinPromptLength <= |raw| <= MaxPromptLength && !HasForbiddenPattern(raw)
    ensures r.Ok? ==> r.value == Strip(raw)
    ensures |raw| < MinPromptLength ==> r == Err(TooShort)
    ensures |raw| > MaxPromptLength ==> r == Err(TooLong)
  {
    if |raw| < MinPromptLength then Err(TooShort)
    else if |raw| > MaxPromptLength then Err(TooLong)
    else SanitizePrompt(raw)
  }

  /** A prompt containing a forbidden pattern in any letter case is rejected. */
  lemma ForbiddenPromptRejected(raw: string, p: string)
    requires p in ForbiddenPatterns && ContainsIgnoringCase(raw, p)
    ensures ValidatePrompt(raw).Err?
  {
  }

  lemma ScriptTagRejected()
    ensures ValidatePrompt("<script>alert(1)</script>") == Err(ForbiddenPattern)
  {
    var s := "<script>alert(1)</script>";
    assert MatchesAtIgnoringCase(s, 0, "<script>");
    assert ContainsIgnoringCase(s, ForbiddenPatterns[0]);
  }

  /** A clean prompt within the bounds and without surrounding whitespace is accepted unchanged. */
  lemma CleanTrimmedPromptUnchanged(raw: string)
    requires MinPromptLength <= |raw| <= MaxPromptLength && !HasForbiddenPattern(raw)
    requires !IsSpace(raw[0]) && !IsSpace(raw[|raw| - 1])
    ensures ValidatePrompt(raw) == Ok(raw)
  {
    StripTrimmed(raw);
  }

  lemma CatPromptAccepted()
    ensures ValidatePrompt("Un gato naranja") == Ok("Un gato naranja")
  {
    var s := "Un gato naranja";
    NotContainsWithoutChar(s, "<script>", 0);
    NotContainsWithoutChar(s, "javascript:", 10);
    NotContainsWithoutChar(s, "exec(", 4);
    NotContainsWithoutChar(s, "system(", 6);
    CleanTrimmedPromptUnchanged(s);
  }

  /** The bounds apply before trimming: a whitespace-only prompt passes and becomes empty. */
  lemma WhitespacePromptBecomesEmpty(raw: string)
    requires MinPromptLength <= |raw| <= MaxPromptLength
    requires forall k :: 0 <= k < |raw| ==> IsSpace(raw[k])
    ensures ValidatePrompt(raw) == Ok("")
  {
    forall p | p in ForbiddenPatterns
      ensures !ContainsIgnoringCase(raw, p)
    {
      NotContainsWithoutChar(raw, p, 0);
    }
    StripAllSpace(raw);
  }

  // ---- Unified response and the failures the core reports ----

  /** The normalised result: text in `content`, or an image in `imageBase64`. */
  datatype GenerationResponse = GenerationResponse(
    content: Option<string>,
    imageBase64: Option<string>,
    imageMimeType: Option<string>,
    modelUsed: string,
    provider: string)

  datatype ModelInfo = ModelInfo(id: string, kind: ModelType)

  datatype ProviderModelsInfo = ProviderModelsInfo(provider: Provider, models: seq<ModelInfo>)

  /** What the core raises, one constructor per distinct failure. */
  datatype Error =
    | InvalidPrompt(reason: PromptError)
    | InvalidModelChoice(model: string)
    | UnsupportedProvider
    | UnsupportedModel(model: string)
    | MissingCredential
    | UpstreamError(body: string)
    | MalformedResponse
    | NoImageGenerated
    | ImageDecodeError
    | InvalidImageData
    | NoInputImages
    | UnsupportedEditModel(model: string)
    | TooFewImages
    | TooManyImages
    | DisallowedFile(filename: string)

  // ---- Image edit constants ----

  const AllowedImageExtensions: set<string> := {".png", ".jpg", ".jpeg", ".gif", ".webp"}
  const AllowedImageMimeTypes: set<string> := {"image/png", "image/jpeg", "image/gif", "image/webp"}
  /** Models accepted by the image edit endpoint. */
  const ImageEditModels: set<string> := {"gpt-image-1.5", "gpt-image-1", "gpt-image-1-mini", "chatgpt-image-latest"}
  const MinEditImages: nat := 1
  const MaxEditImages: nat := 16
}
