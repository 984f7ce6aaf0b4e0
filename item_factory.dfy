/** `AiAgentStatusUpdateItemFactory`: picks the record class from the
    array's `type` entry and delegates to that class's `fromArray`. */
module ItemFactory {
  import opened PhpValues
  import IT = ItemTypes
  import opened UpdateItems

  /** The `type` entry as PHP reads it: a missing key reads as NULL. */
  function TypeEntry(data: Wire): Value {
    if "type" in data then data["type"] else Null
  }

  /** The kinds whose class reads a `loop_count` beside the envelope. */
  predicate CountsLoops(k: IT.ItemType) {
    || k.Iteration? || k.Response? || k.ChatHistory? || k.ProviderRequest?
    || k.ProviderResponse? || k.SystemMessage? || k.TextGenerated?
  }

  /** The decoders of the kinds that count loops. */
  function DispatchCounted(k: IT.ItemType, data: Wire): (r: Result<Record>)
    requires CountsLoops(k)
    ensures r.Success? ==> Kind(r.value.body) == k && EnvelopeFromArray(data) == Success(r.value.env)
    ensures r.Failure? ==> r.error.Malformed?
  {
    match k
    case Iteration => IterationFromArray(data)
    case Response => ResponseFromArray(data)
    case ChatHistory => ChatHistoryFromArray(data)
    case ProviderRequest => ProviderRequestFromArray(data)
    case ProviderResponse => ProviderResponseFromArray(data)
    case SystemMessage => SystemMessageFromArray(data)
    case TextGenerated => TextGeneratedFromArray(data)
  }

  /** The decoder a recognised tag dispatches to. `agent_request` has no
      arm and falls through to the default, like any unknown tag. */
  function Dispatch(k: IT.ItemType, data: Wire): (r: Result<Record>)
    ensures r.Success? ==> Kind(r.value.body) == k && EnvelopeFromArray(data) == Success(r.value.env)
    ensures k == IT.Request ==> r == Failure(UnknownType(TypeEntry(data)))
    ensures k != IT.Request && r.Failure? ==> r.error.Malformed?
  {
    if CountsLoops(k) then DispatchCounted(k, data)
    else match k
      case Started => StartedFromArray(data)
      case Finished => FinishedFromArray(data)
      case ToolSelected => ToolSelectedFromArray(data)
      case ToolStarted => ToolStartedFromArray(data)
      case ToolFinished => ToolFinishedFromArray(data)
      case Request => Failure(UnknownType(TypeEntry(data)))
  }

  /** True when the `type` entry is one of the twelve tags with an arm. */
  predicate Recognised(data: Wire) {
    var t := TypeEntry(data);
    t.Str? && IT.TryFrom(t.s).Some? && IT.TryFrom(t.s).value != IT.Request
  }

  /** `createFromArray()`. A decoded record is of the kind its `type` entry
      names and carries the envelope `StatusBase::fromArray` reads; any
      other `type` (missing, not a string, unknown, or `agent_request`)
      raises the factory's own exception. */
  function CreateFromArray(data: Wire): (r: Result<Record>)
    ensures r.Success? ==> "type" in data && data["type"] == Str(IT.TagValue(Kind(r.value.body)))
    ensures r.Success? ==> EnvelopeFromArray(data) == Success(r.value.env)
    ensures !Recognised(data) ==> r == Failure(UnknownType(TypeEntry(data)))
    ensures Recognised(data) ==> !r.Failure? || !r.error.UnknownType?
  {
    match TypeEntry(data)
    case Str(tag) =>
      (match IT.TryFrom(tag)
       case Some(k) => Dispatch(k, data)
       case None => Failure(UnknownType(TypeEntry(data))))
    case _ => Failure(UnknownType(TypeEntry(data)))
  }

  /** An array tagged with one of the twelve handled tags goes to that
      tag's decoder. */
  lemma CreateDispatches(data: Wire, k: IT.ItemType)
    requires "type" in data && data["type"] == Str(IT.TagValue(k)) && k != IT.Request
    ensures CreateFromArray(data) == Dispatch(k, data)
  {
    IT.TryFromTagValue(k);
  }

  /** The loop-counting decoders rebuild the records they stand for. */
  lemma DispatchCountedRoundTrip(r: Record)
    requires CountsLoops(Kind(r.body))
    ensures DispatchCounted(Kind(r.body), ToArray(r)) == Success(r)
  {
    var env := r.env;
    match r.body
    case AiAgentIterationExecution(n) => IterationRoundTrip(env, n);
    case AiAgentResponseExecution(n, text) => ResponseRoundTrip(env, n, text);
    case AiAgentChatHistory(n, history) => ChatHistoryRoundTrip(env, n, history);
    case SystemMessage(n, prompt) => SystemMessageRoundTrip(env, n, prompt);
    case AiProviderRequest(n, request, provider, model, config) =>
      ProviderRequestRoundTrip(env, n, request, provider, model, config);
    case AiProviderResponse(n, response) => ProviderResponseRoundTrip(env, n, response);
    case TextGenerated(n, text) => TextGeneratedRoundTrip(env, n, text);
    case AiAgentStartedExecution => assert false;
    case AiAgentFinishedExecution => assert false;
    case ToolSelected(_) => assert false;
    case ToolStartedExecution(_) => assert false;
    case ToolFinishedExecution(_, _) => assert false;
  }

  /** The decoder each tool tag names, for any array. */
  lemma DispatchesToTool(data: Wire)
    ensures Dispatch(IT.ToolSelected, data) == ToolSelectedFromArray(data)
    ensures Dispatch(IT.ToolStarted, data) == ToolStartedFromArray(data)
    ensures Dispatch(IT.ToolFinished, data) == ToolFinishedFromArray(data)
  {
  }

  /** The three tool decoders rebuild the records they stand for. */
  lemma DispatchToolRoundTrip(r: Record)
    requires r.body.ToolSelected? || r.body.ToolStartedExecution? || r.body.ToolFinishedExecution?
    ensures Dispatch(Kind(r.body), ToArray(r)) == Success(r)
  {
    DispatchesToTool(ToArray(r));
    match r.body
    case ToolSelected(t) => ToolSelectedRoundTrip(r.env, t);
    case ToolStartedExecution(t) => ToolStartedRoundTrip(r.env, t);
    case ToolFinishedExecution(t, results) => ToolFinishedRoundTrip(r.env, t, results);
  }

  /** Each record's own decoder rebuilds it from its array. */
  lemma DispatchRoundTrip(r: Record)
    ensures Dispatch(Kind(r.body), ToArray(r)) == Success(r)
  {
    match r.body
    case AiAgentStartedExecution => StartedRoundTrip(r.env);
    case AiAgentFinishedExecution => FinishedRoundTrip(r.env);
    case ToolSelected(_) => DispatchToolRoundTrip(r);
    case ToolStartedExecution(_) => DispatchToolRoundTrip(r);
    case ToolFinishedExecution(_, _) => DispatchToolRoundTrip(r);
    case _ => DispatchCountedRoundTrip(r);
  }

  /** Every record the model can produce comes back unchanged from its
      own array. */
  lemma FactoryRoundTrip(r: Record)
    ensures CreateFromArray(ToArray(r)) == Success(r)
  {
    CreateDispatches(ToArray(r), Kind(r.body));
    DispatchRoundTrip(r);
  }

  /** The enum's `agent_request` case has no record class: an array tagged
      with it is always refused. */
  lemma AgentRequestRejected(data: Wire)
    requires "type" in data && data["type"] == Str("agent_request")
    ensures CreateFromArray(data) == Failure(UnknownType(Str("agent_request")))
  {
    IT.TryFromTagValue(IT.Request);
  }

  /** A bare `StatusBase` array is tagged `tool_started` but lacks the tool
      fields, so the factory cannot rebuild it. */
  lemma StatusBaseNotRecreated(env: Envelope)
    ensures CreateFromArray(StatusBaseToArray(env)) == Failure(Malformed("tool_name"))
  {
    var w := StatusBaseToArray(env);
    IT.TryFromTagValue(IT.ToolStarted);
    assert TypeEntry(w) == Str("tool_started");
    assert "tool_name" !in w;
  }
}
