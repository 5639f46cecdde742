/**
  * What the provider adapters share (the `providers.base` module and the
  * decisions both adapters take the same way): model type resolution, the
  * request they receive, and the choice of how much history to send.
  */
module ProviderBase {
  import opened Wrappers
  import opened PyText
  import opened Schemas
  import opened ContextStore
  import opened Upstream

  /** `resolve_model_type`: the registered type of a model id; depends on nothing else. */
  function ResolveModelType(model: string): (r: Result<ModelType, Error>)
    ensures r.Ok? <==> model in AllModels()
    ensures r.Ok? ==> r.value == AllModels()[model]
    ensures r.Err? ==> r.error == UnsupportedModel(model)
  {
    if model in AllModels() then Ok(AllModels()[model]) else Err(UnsupportedModel(model))
  }

  /** Every model of the table resolves to exactly the type registered for it. */
  lemma ResolveRegistered(p: Provider, i: nat)
    requires i < |ModelConfig(p)|
    ensures ResolveModelType(ModelConfig(p)[i].id) == Ok(ModelConfig(p)[i].kind)
  {
    RegistryConsistent();
  }

  /** A model that no provider lists fails to resolve. */
  lemma ResolveUnregistered(model: string)
    requires forall p :: model !in ProviderModels(p)
    ensures ResolveModelType(model) == Err(UnsupportedModel(model))
  {
    RegistryConsistent();
  }

  lemma ResolveGpt5()
    ensures ResolveModelType("gpt-5") == Ok(Text)
  {
    Gpt5IsText();
  }

  /** The request an endpoint hands to an adapter, prompt already validated. */
  datatype GenerationRequest = GenerationRequest(
    prompt: string,
    model: string,
    provider: Provider,
    conversationId: Option<string>,
    useSummaryContext: bool)

  /** An API key counts as configured when it is present and not empty: `not api_key` holds for `None` and `""`. */
  predicate HasApiKey(key: Option<string>): (ok: bool)
    ensures !ok <==> key.None? || key == Some("")
  {
    key.Some? && key.value != ""
  }

  /** The conversation a request takes part in: an absent or empty id means none. */
  function ActiveConversation(cid: Option<string>): (a: Option<string>)
    ensures a.Some? <==> cid.Some? && cid.value != ""
    ensures a.Some? ==> a == cid
  {
    if cid.Some? && cid.value != "" then cid else None
  }

  /** The history an adapter reads for a request: empty without a conversation. */
  function HistoryFor(m: Conversations, cid: Option<string>): (h: seq<Message>)
    ensures ActiveConversation(cid).None? ==> h == []
    ensures ActiveConversation(cid).Some? ==> h == Lookup(m, ActiveConversation(cid).value)
  {
    match ActiveConversation(cid)
    case None => []
    case Some(id) => Lookup(m, id)
  }

  /** How a text request carries its context. */
  datatype ContextMode = SummaryMode | FullHistory | PromptOnly

  /** Summary only when asked for and there is history; the history itself when there is some; else the prompt alone. */
  function SelectContext(useSummary: bool, history: seq<Message>): (mode: ContextMode)
    ensures mode == SummaryMode <==> useSummary && history != []
    ensures mode == FullHistory <==> !useSummary && history != []
    ensures mode == PromptOnly <==> history == []
  {
    if useSummary && history != [] then SummaryMode
    else if history != [] then FullHistory
    else PromptOnly
  }

  const SummaryInstruction: string :=
    "Resume brevemente esta conversaci\U{F3}n preservando hechos clave y contexto. Resumen:\n\n"

  /** One stored message as a line of the summary request. */
  function SummaryLine(m: Message): string {
    m.role + ": " + m.content
  }

  /** The request text of the summary call: every stored turn as `role: content`, one per line. */
  function SummaryPrompt(history: seq<Message>): (p: string)
    ensures |SummaryInstruction| <= |p| && p[..|SummaryInstruction|] == SummaryInstruction
    ensures history == [] ==> p == SummaryInstruction
  {
    SummaryInstruction + Join("\n", seq(|history|, i requires 0 <= i < |history| => SummaryLine(history[i])))
  }

  /** Each further message adds one line to the summary request, after a line break. */
  lemma {:induction false} SummaryPromptAddsLine(history: seq<Message>, m: Message)
    ensures SummaryPrompt([m]) == SummaryInstruction + SummaryLine(m)
    ensures history != [] ==> SummaryPrompt(history + [m]) == SummaryPrompt(history) + "\n" + SummaryLine(m)
  {
    var one := seq(1, i requires 0 <= i < 1 => SummaryLine([m][i]));
    assert one == [SummaryLine(m)];
    if history != [] {
      var h := history + [m];
      var parts := seq(|history|, i requires 0 <= i < |history| => SummaryLine(history[i]));
      var all := seq(|h|, i requires 0 <= i < |h| => SummaryLine(h[i]));
      assert all == parts + [SummaryLine(m)];
      JoinSnoc("\n", parts, SummaryLine(m));
    }
  }

  /** What one adapter call produced: its result, the outbound calls in order, and the turn to store. */
  datatype Turn = Turn(result: Result<GenerationResponse, Error>, calls: seq<Call>, record: Option<seq<Message>>)

  /** What a successful text turn stores: the user's prompt, then the reply; nothing without a conversation. */
  function TurnRecord(req: GenerationRequest, reply: string): (rec: Option<seq<Message>>)
    ensures rec.Some? <==> ActiveConversation(req.conversationId).Some?
    ensures rec.Some? ==> rec.value == [Message("user", req.prompt), Message("assistant", reply)]
  {
    if ActiveConversation(req.conversationId).Some? then Some([Message("user", req.prompt), Message("assistant", reply)])
    else None
  }

  /** The store after a turn: its record appended to the request's conversation, if any. */
  function Recorded(m: Conversations, cid: Option<string>, record: Option<seq<Message>>): (m': Conversations)
    ensures record.None? || ActiveConversation(cid).None? ==> m' == m
    ensures record.Some? && ActiveConversation(cid).Some? ==> m' == Appended(m, cid.value, record.value)
  {
    if record.Some? && ActiveConversation(cid).Some? then Appended(m, cid.value, record.value) else m
  }

  function TextResponse(req: GenerationRequest, content: string): GenerationResponse {
    GenerationResponse(Some(content), None, None, req.model, ProviderValue(req.provider))
  }

  /** A turn that ended in `e` after `calls`, storing nothing. */
  function Failed(e: Error, calls: seq<Call>): Turn {
    Turn(Err(e), calls, None)
  }
}
