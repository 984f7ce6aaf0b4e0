/** The status records ("update items"): the `StatusBase` envelope shared
    by every record and the payload each subclass adds, with `toArray`
    (flatten envelope and payload into one array tagged by `type`) and
    each class's `fromArray` (rebuild the record from such an array). */
module UpdateItems {
  import opened PhpValues
  import IT = ItemTypes

  /** The fields `StatusBase` holds for every record. */
  datatype Envelope = Envelope(
    time: real,
    agentId: string,
    agentName: string,
    agentRunnerId: string,
    callingAgentId: Option<string>)

  /** The fields of a selected, started or finished tool call. */
  datatype ToolCall = ToolCall(
    toolId: string,
    toolName: string,
    toolInput: string,
    toolFeedbackMessage: string)

  /** One constructor per concrete record class, holding what that class
      adds to the envelope. */
  datatype Body =
    | AiAgentStartedExecution
    | AiAgentFinishedExecution
    | AiAgentIterationExecution(loopCount: int)
    | AiAgentResponseExecution(loopCount: int, textResponse: Option<string>)
    | AiAgentChatHistory(loopCount: int, chatHistory: PhpArray)
    | SystemMessage(loopCount: int, systemPrompt: string)
    | AiProviderRequest(loopCount: int, requestData: PhpArray, providerName: string,
                        modelName: string, config: PhpArray)
    | AiProviderResponse(loopCount: int, responseData: PhpArray)
    | TextGenerated(loopCount: int, generatedText: string)
    | ToolSelected(tool: ToolCall)
    | ToolStartedExecution(tool: ToolCall)
    | ToolFinishedExecution(tool: ToolCall, toolResults: string)

  datatype Record = Record(env: Envelope, body: Body)

  /** `getType()` as each class overrides it. No class reports `Request`. */
  function Kind(b: Body): (k: IT.ItemType)
    ensures k != IT.Request
  {
    match b
    case AiAgentStartedExecution => IT.Started
    case AiAgentFinishedExecution => IT.Finished
    case AiAgentIterationExecution(_) => IT.Iteration
    case AiAgentResponseExecution(_, _) => IT.Response
    case AiAgentChatHistory(_, _) => IT.ChatHistory
    case SystemMessage(_, _) => IT.SystemMessage
    case AiProviderRequest(_, _, _, _, _) => IT.ProviderRequest
    case AiProviderResponse(_, _) => IT.ProviderResponse
    case TextGenerated(_, _) => IT.TextGenerated
    case ToolSelected(_) => IT.ToolSelected
    case ToolStartedExecution(_) => IT.ToolStarted
    case ToolFinishedExecution(_, _) => IT.ToolFinished
  }

  /** `StatusBase::getType()`, the kind of a record no subclass overrides. */
  const BaseType: IT.ItemType := IT.ToolStarted

  const EnvelopeKeys: set<string> :=
    {"agent_id", "agent_name", "agent_runner_id", "type", "time", "calling_agent_id"}

  /** `StatusBase::toArray()`, with `getType()` bound to `tag`. */
  function BaseArray(env: Envelope, tag: IT.ItemType): (w: Wire)
    ensures w.Keys == EnvelopeKeys
    ensures w["type"] == Str(IT.TagValue(tag))
  {
    map[
      "agent_id" := Str(env.agentId),
      "agent_name" := Str(env.agentName),
      "agent_runner_id" := Str(env.agentRunnerId),
      "type" := Str(IT.TagValue(tag)),
      "time" := Float(env.time),
      "calling_agent_id" := Nullable(env.callingAgentId)
    ]
  }

  /** The array of a bare `StatusBase` object. */
  function StatusBaseToArray(env: Envelope): (w: Wire)
    ensures "type" in w && w["type"] == Str("tool_started")
  {
    BaseArray(env, BaseType)
  }

  /** `StatusBase::fromArray()`: the five envelope fields, with a missing
      or NULL `calling_agent_id` read as NULL. */
  function EnvelopeFromArray(data: Wire): (r: Result<Envelope>)
    ensures r.Failure? ==> r.error.Malformed?
    ensures Absent(data, "calling_agent_id") && r.Success? ==> r.value.callingAgentId == None
    ensures "agent_id" !in data || "agent_name" !in data || "agent_runner_id" !in data || "time" !in data
            ==> r.Failure?
  {
    var time :- RequiredTime(data, "time");
    var agentId :- RequiredString(data, "agent_id");
    var agentName :- RequiredString(data, "agent_name");
    var runnerId :- RequiredString(data, "agent_runner_id");
    var callingId :- NullableString(data, "calling_agent_id");
    Success(Envelope(time, agentId, agentName, runnerId, callingId))
  }

  /** The tool fields `ToolSelected` adds to its array. */
  function ToolArray(t: ToolCall): Wire {
    map[
      "tool_name" := Str(t.toolName),
      "tool_input" := Str(t.toolInput),
      "tool_id" := Str(t.toolId),
      "tool_feedback_message" := Str(t.toolFeedbackMessage)
    ]
  }

  /** The entries each subclass's `toArray()` adds to its parent's array. */
  function PayloadArray(b: Body): Wire {
    match b
    case AiAgentStartedExecution => map[]
    case AiAgentFinishedExecution => map[]
    case AiAgentIterationExecution(n) => map["loop_count" := Int(n)]
    case AiAgentResponseExecution(n, text) =>
      map["loop_count" := Int(n), "text_response" := Nullable(text)]
    case AiAgentChatHistory(n, history) =>
      map["loop_count" := Int(n), "chat_history" := history]
    case SystemMessage(n, prompt) =>
      map["loop_count" := Int(n), "system_prompt" := Str(prompt)]
    case AiProviderRequest(n, request, provider, model, config) =>
      map[
        "loop_count" := Int(n),
        "request_data" := request,
        "provider_name" := Str(provider),
        "model_name" := Str(model),
        "config" := config
      ]
    case AiProviderResponse(n, response) =>
      map["loop_count" := Int(n), "response_data" := response]
    case TextGenerated(n, text) =>
      map["loop_count" := Int(n), "text_response" := Str(text)]
    case ToolSelected(t) => ToolArray(t)
    case ToolStartedExecution(t) => ToolArray(t)
    case ToolFinishedExecution(t, results) =>
      map[
        "tool_name" := Str(t.toolName),
        "tool_input" := Str(t.toolInput),
        "tool_results" := Str(results),
        "tool_id" := Str(t.toolId),
        "tool_feedback_message" := Str(t.toolFeedbackMessage)
      ]
  }

  /** The payload keys of each kind of record, as its class documents them. */
  function PayloadKeys(b: Body): set<string> {
    match b
    case AiAgentStartedExecution => {}
    case AiAgentFinishedExecution => {}
    case AiAgentIterationExecution(_) => {"loop_count"}
    case AiAgentResponseExecution(_, _) => {"loop_count", "text_response"}
    case AiAgentChatHistory(_, _) => {"loop_count", "chat_history"}
    case SystemMessage(_, _) => {"loop_count", "system_prompt"}
    case AiProviderRequest(_, _, _, _, _) =>
      {"loop_count", "request_data", "provider_name", "model_name", "config"}
    case AiProviderResponse(_, _) => {"loop_count", "response_data"}
    case TextGenerated(_, _) => {"loop_count", "text_response"}
    case ToolSelected(_) => {"tool_name", "tool_input", "tool_id", "tool_feedback_message"}
    case ToolStartedExecution(_) => {"tool_name", "tool_input", "tool_id", "tool_feedback_message"}
    case ToolFinishedExecution(_, _) =>
      {"tool_name", "tool_input", "tool_results", "tool_id", "tool_feedback_message"}
  }

  /** Envelope fields survive whatever a subclass appends to the base array. */
  lemma EnvelopeRoundTrip(env: Envelope, tag: IT.ItemType, extra: Wire)
    ensures EnvelopeFromArray(Union(BaseArray(env, tag), extra)) == Success(env)
  {
  }

  /** Each payload array has exactly the keys its class documents. */
  lemma PayloadKeysMatch(b: Body)
    ensures PayloadArray(b).Keys == PayloadKeys(b)
  {
  }

  /** Every payload key is outside the envelope, so the union never drops
      a payload entry. */
  lemma PayloadOutsideEnvelope(b: Body)
    ensures PayloadKeys(b) !! EnvelopeKeys
  {
  }

  /** A union with an array whose keys are all present already adds nothing. */
  lemma UnionAbsorbs(a: Wire, b: Wire)
    requires b.Keys <= a.Keys
    ensures Union(a, b) == a
  {
  }

  /** The envelope array tagged with the record's own kind, plus its payload. */
  function ParentArray(r: Record): Wire {
    PayloadArray(r.body) + BaseArray(r.env, Kind(r.body))
  }

  /** What `ToolStartedExecution::toArray()` unions into its parent's array. */
  function ToolStartedExtra(b: Body): Wire {
    if b.ToolStartedExecution? then map["type" := Str(IT.TagValue(IT.ToolStarted))] else map[]
  }

  lemma ParentArrayShape(r: Record)
    ensures "type" in ParentArray(r) && ParentArray(r)["type"] == Str(IT.TagValue(Kind(r.body)))
    ensures forall k :: k in PayloadArray(r.body) ==> k in ParentArray(r) && ParentArray(r)[k] == PayloadArray(r.body)[k]
    ensures EnvelopeFromArray(ParentArray(r)) == Success(r.env)
  {
    PayloadKeysMatch(r.body);
    PayloadOutsideEnvelope(r.body);
    EnvelopeRoundTrip(r.env, Kind(r.body), PayloadArray(r.body));
  }

  /** `toArray()` of a record: the envelope array tagged with the record's
      own kind, plus its payload. `ToolStartedExecution` unions one more
      `type` entry, which the left-biased union discards. */
  function ToArray(r: Record): (w: Wire)
  {
    ToolStartedExtra(r.body) + ParentArray(r)
  }

  /** A record's array is tagged with its kind, carries its class's
      payload entries unchanged and the envelope `StatusBase::fromArray`
      reads back. */
  lemma ToArrayShape(r: Record)
    ensures "type" in ToArray(r) && ToArray(r)["type"] == Str(IT.TagValue(Kind(r.body)))
    ensures forall k :: k in PayloadArray(r.body) ==> k in ToArray(r) && ToArray(r)[k] == PayloadArray(r.body)[k]
    ensures EnvelopeFromArray(ToArray(r)) == Success(r.env)
  {
    ParentArrayShape(r);
    UnionAbsorbs(ParentArray(r), ToolStartedExtra(r.body));
  }

  /** A record's array holds the envelope keys and its class's payload keys,
      and nothing else. */
  lemma ToArrayKeys(r: Record)
    ensures ToArray(r).Keys == EnvelopeKeys + PayloadKeys(r.body)
  {
    PayloadKeysMatch(r.body);
    UnionAbsorbs(ParentArray(r), ToolStartedExtra(r.body));
  }

  /** The extra `type` entry of `ToolStartedExecution::toArray()` changes nothing. */
  lemma ToolStartedTypeUnionIsNoOp(env: Envelope, t: ToolCall)
    ensures ToArray(Record(env, ToolStartedExecution(t))) == Union(BaseArray(env, IT.ToolStarted), ToolArray(t))
  {
    var r := Record(env, ToolStartedExecution(t));
    ParentArrayShape(r);
    UnionAbsorbs(ParentArray(r), ToolStartedExtra(r.body));
    assert Kind(r.body) == IT.ToolStarted && PayloadArray(r.body) == ToolArray(t);
  }

  // ---------------------------------------------------------------------
  // fromArray, one per class.

  /** `AiAgentStartedExecution::fromArray()`. */
  function StartedFromArray(data: Wire): (r: Result<Record>)
    ensures r.Failure? ==> r.error.Malformed?
    ensures r.Success? <==> EnvelopeFromArray(data).Success?
    ensures r.Success? ==> r.value == Record(EnvelopeFromArray(data).value, AiAgentStartedExecution)
  {
    var env :- EnvelopeFromArray(data);
    Success(Record(env, AiAgentStartedExecution))
  }

  /** `AiAgentFinishedExecution::fromArray()`. */
  function FinishedFromArray(data: Wire): (r: Result<Record>)
    ensures r.Failure? ==> r.error.Malformed?
    ensures r.Success? <==> EnvelopeFromArray(data).Success?
    ensures r.Success? ==> r.value == Record(EnvelopeFromArray(data).value, AiAgentFinishedExecution)
  {
    var env :- EnvelopeFromArray(data);
    Success(Record(env, AiAgentFinishedExecution))
  }

  /** `AiAgentIterationExecution::fromArray()`: `loop_count` is required. */
  function IterationFromArray(data: Wire): (r: Result<Record>)
    ensures r.Failure? ==> r.error.Malformed?
    ensures "loop_count" !in data ==> r.Failure?
    ensures r.Success? ==> EnvelopeFromArray(data) == Success(r.value.env)
    ensures r.Success? ==> r.value.body.AiAgentIterationExecution?
                           && data["loop_count"] == Int(r.value.body.loopCount)
  {
    var env :- EnvelopeFromArray(data);
    var n :- RequiredInt(data, "loop_count");
    Success(Record(env, AiAgentIterationExecution(n)))
  }

  /** `AiAgentResponseExecution::fromArray()`: `loop_count` is required and
      a missing `text_response` reads as NULL. */
  function ResponseFromArray(data: Wire): (r: Result<Record>)
    ensures r.Failure? ==> r.error.Malformed?
    ensures "loop_count" !in data ==> r.Failure?
    ensures r.Success? ==> EnvelopeFromArray(data) == Success(r.value.env)
    ensures r.Success? ==> r.value.body.AiAgentResponseExecution?
                           && data["loop_count"] == Int(r.value.body.loopCount)
    ensures r.Success? && Absent(data, "text_response") ==> r.value.body.textResponse == None
  {
    var env :- EnvelopeFromArray(data);
    var n :- RequiredInt(data, "loop_count");
    var text :- NullableString(data, "text_response");
    Success(Record(env, AiAgentResponseExecution(n, text)))
  }

  /** `AiAgentChatHistory::fromArray()`: a missing `chat_history` reads as
      an empty list, a present one is carried over unchanged. */
  function ChatHistoryFromArray(data: Wire): (r: Result<Record>)
    ensures r.Failure? ==> r.error.Malformed?
    ensures "loop_count" !in data ==> r.Failure?
    ensures r.Success? ==> EnvelopeFromArray(data) == Success(r.value.env)
    ensures r.Success? ==> r.value.body.AiAgentChatHistory?
                           && data["loop_count"] == Int(r.value.body.loopCount)
    ensures r.Success? ==> r.value.body.chatHistory
                           == if Absent(data, "chat_history") then List([]) else data["chat_history"]
  {
    var env :- EnvelopeFromArray(data);
    var n :- RequiredInt(data, "loop_count");
    var history :- ArrayOr(data, "chat_history", List([]));
    Success(Record(env, AiAgentChatHistory(n, history)))
  }

  /** `SystemMessage::fromArray()`: a missing `system_prompt` reads as "". */
  function SystemMessageFromArray(data: Wire): (r: Result<Record>)
    ensures r.Failure? ==> r.error.Malformed?
    ensures "loop_count" !in data ==> r.Failure?
    ensures r.Success? ==> EnvelopeFromArray(data) == Success(r.value.env)
    ensures r.Success? ==> r.value.body.SystemMessage?
                           && data["loop_count"] == Int(r.value.body.loopCount)
    ensures r.Success? && Absent(data, "system_prompt") ==> r.value.body.systemPrompt == ""
    ensures r.Success? && !Absent(data, "system_prompt")
            ==> data["system_prompt"] == Str(r.value.body.systemPrompt)
  {
    var env :- EnvelopeFromArray(data);
    var n :- RequiredInt(data, "loop_count");
    var prompt :- StringOr(data, "system_prompt", "");
    Success(Record(env, SystemMessage(n, prompt)))
  }

  /** `AiProviderRequest::fromArray()`: missing request data, provider,
      model and config read as [], "", "" and []. */
  function ProviderRequestFromArray(data: Wire): (r: Result<Record>)
    ensures r.Failure? ==> r.error.Malformed?
    ensures "loop_count" !in data ==> r.Failure?
    ensures r.Success? ==> EnvelopeFromArray(data) == Success(r.value.env)
    ensures r.Success? ==> r.value.body.AiProviderRequest?
                           && data["loop_count"] == Int(r.value.body.loopCount)
    ensures r.Success? && Absent(data, "request_data") ==> r.value.body.requestData == List([])
    ensures r.Success? && Absent(data, "provider_name") ==> r.value.body.providerName == ""
    ensures r.Success? && Absent(data, "model_name") ==> r.value.body.modelName == ""
    ensures r.Success? && Absent(data, "config") ==> r.value.body.config == List([])
  {
    var env :- EnvelopeFromArray(data);
    var n :- RequiredInt(data, "loop_count");
    var request :- ArrayOr(data, "request_data", List([]));
    var provider :- StringOr(data, "provider_name", "");
    var model :- StringOr(data, "model_name", "");
    var config :- ArrayOr(data, "config", List([]));
    Success(Record(env, AiProviderRequest(n, request, provider, model, config)))
  }

  /** `AiProviderResponse::fromArray()`: a missing `response_data` reads as []. */
  function ProviderResponseFromArray(data: Wire): (r: Result<Record>)
    ensures r.Failure? ==> r.error.Malformed?
    ensures "loop_count" !in data ==> r.Failure?
    ensures r.Success? ==> EnvelopeFromArray(data) == Success(r.value.env)
    ensures r.Success? ==> r.value.body.AiProviderResponse?
                           && data["loop_count"] == Int(r.value.body.loopCount)
    ensures r.Success? && Absent(data, "response_data") ==> r.value.body.responseData == List([])
  {
    var env :- EnvelopeFromArray(data);
    var n :- RequiredInt(data, "loop_count");
    var response :- ArrayOr(data, "response_data", List([]));
    Success(Record(env, AiProviderResponse(n, response)))
  }

  /** `TextGenerated::fromArray()`: a missing `text_response` reads as "". */
  function TextGeneratedFromArray(data: Wire): (r: Result<Record>)
    ensures r.Failure? ==> r.error.Malformed?
    ensures "loop_count" !in data ==> r.Failure?
    ensures r.Success? ==> EnvelopeFromArray(data) == Success(r.value.env)
    ensures r.Success? ==> r.value.body.TextGenerated?
                           && data["loop_count"] == Int(r.value.body.loopCount)
    ensures r.Success? && Absent(data, "text_response") ==> r.value.body.generatedText == ""
  {
    var env :- EnvelopeFromArray(data);
    var n :- RequiredInt(data, "loop_count");
    var text :- StringOr(data, "text_response", "");
    Success(Record(env, TextGenerated(n, text)))
  }

  /** The tool fields as `ToolSelected` and `ToolStartedExecution` read
      them: name and input are required, id and feedback default to "". */
  function ToolCallFromArray(data: Wire): (r: Result<ToolCall>)
    ensures r.Failure? ==> r.error.Malformed?
    ensures "tool_name" !in data || "tool_input" !in data ==> r.Failure?
    ensures r.Success? && Absent(data, "tool_id") ==> r.value.toolId == ""
    ensures r.Success? && Absent(data, "tool_feedback_message") ==> r.value.toolFeedbackMessage == ""
    ensures r.Success? ==> data["tool_name"] == Str(r.value.toolName)
                           && data["tool_input"] == Str(r.value.toolInput)
  {
    var name :- RequiredString(data, "tool_name");
    var input :- RequiredString(data, "tool_input");
    var id :- StringOr(data, "tool_id", "");
    var feedback :- StringOr(data, "tool_feedback_message", "");
    Success(ToolCall(id, name, input, feedback))
  }

  /** `ToolSelected::fromArray()`. */
  function ToolSelectedFromArray(data: Wire): (r: Result<Record>)
    ensures r.Failure? ==> r.error.Malformed?
    ensures r.Success? <==> EnvelopeFromArray(data).Success? && ToolCallFromArray(data).Success?
    ensures r.Success? ==> r.value == Record(EnvelopeFromArray(data).value,
                                             ToolSelected(ToolCallFromArray(data).value))
  {
    var env :- EnvelopeFromArray(data);
    var tool :- ToolCallFromArray(data);
    Success(Record(env, ToolSelected(tool)))
  }

  /** `ToolStartedExecution::fromArray()`. */
  function ToolStartedFromArray(data: Wire): (r: Result<Record>)
    ensures r.Failure? ==> r.error.Malformed?
    ensures r.Success? <==> EnvelopeFromArray(data).Success? && ToolCallFromArray(data).Success?
    ensures r.Success? ==> r.value == Record(EnvelopeFromArray(data).value,
                                             ToolStartedExecution(ToolCallFromArray(data).value))
  {
    var env :- EnvelopeFromArray(data);
    var tool :- ToolCallFromArray(data);
    Success(Record(env, ToolStartedExecution(tool)))
  }

  /** `ToolFinishedExecution::fromArray()`: `tool_results` is required as
      well. */
  function ToolFinishedFromArray(data: Wire): (r: Result<Record>)
    ensures r.Failure? ==> r.error.Malformed?
    ensures "tool_results" !in data ==> r.Failure?
    ensures r.Success? ==> EnvelopeFromArray(data) == Success(r.value.env)
    ensures r.Success? ==> r.value.body.ToolFinishedExecution?
                           && ToolCallFromArray(data) == Success(r.value.body.tool)
                           && data["tool_results"] == Str(r.value.body.toolResults)
  {
    var env :- EnvelopeFromArray(data);
    var tool :- ToolCallFromArray(data);
    var results :- RequiredString(data, "tool_results");
    Success(Record(env, ToolFinishedExecution(tool, results)))
  }

  // ---------------------------------------------------------------------
  // Constructors whose trailing parameters have defaults.

  /** `new AiProviderRequest(...)` with its declared defaults. */
  function NewProviderRequest(time: real, agentId: string, agentName: string, agentRunnerId: string,
                              loopCount: int, requestData: PhpArray := List([]),
                              providerName: string := "", modelName: string := "",
                              config: PhpArray := List([]), callingAgentId: Option<string> := None): Record
  {
    Record(Envelope(time, agentId, agentName, agentRunnerId, callingAgentId),
           AiProviderRequest(loopCount, requestData, providerName, modelName, config))
  }

  /** `new ToolFinishedExecution(...)` with its declared defaults. */
  function NewToolFinished(time: real, agentId: string, agentName: string, agentRunnerId: string,
                           toolName: string, toolInput: string, toolId: string, toolResults: string,
                           toolFeedbackMessage: string := "", callingAgentId: Option<string> := None): Record
  {
    Record(Envelope(time, agentId, agentName, agentRunnerId, callingAgentId),
           ToolFinishedExecution(ToolCall(toolId, toolName, toolInput, toolFeedbackMessage), toolResults))
  }

  /** The array holding only what every record must carry. */
  function RequiredEntries(time: real, agentId: string, agentName: string, agentRunnerId: string): Wire {
    map["time" := Float(time), "agent_id" := Str(agentId), "agent_name" := Str(agentName),
        "agent_runner_id" := Str(agentRunnerId)]
  }

  /** Decoding a provider request with every optional key missing gives
      what the constructor's defaults give. */
  lemma ProviderRequestDefaultsAgree(time: real, agentId: string, agentName: string,
                                     agentRunnerId: string, loopCount: int)
    ensures ProviderRequestFromArray(RequiredEntries(time, agentId, agentName, agentRunnerId)
                                     ["loop_count" := Int(loopCount)])
            == Success(NewProviderRequest(time, agentId, agentName, agentRunnerId, loopCount))
  {
  }

  /** Decoding a finished tool call. The constructor requires `tool_id`;
      `fromArray` passes `''` for a missing one and the given string for a
      present one. A missing `tool_feedback_message` reads as `''`, which
      is also the constructor's own default for that parameter. */
  lemma ToolFinishedDefaultsAgree(time: real, agentId: string, agentName: string,
                                  agentRunnerId: string, toolName: string, toolInput: string,
                                  toolResults: string, toolId: string)
    ensures ToolFinishedFromArray(RequiredEntries(time, agentId, agentName, agentRunnerId)
                                  ["tool_name" := Str(toolName)]["tool_input" := Str(toolInput)]
                                  ["tool_results" := Str(toolResults)])
            == Success(NewToolFinished(time, agentId, agentName, agentRunnerId, toolName, toolInput,
                                       "", toolResults))
    ensures ToolFinishedFromArray(RequiredEntries(time, agentId, agentName, agentRunnerId)
                                  ["tool_name" := Str(toolName)]["tool_input" := Str(toolInput)]
                                  ["tool_results" := Str(toolResults)]["tool_id" := Str(toolId)])
            == Success(NewToolFinished(time, agentId, agentName, agentRunnerId, toolName, toolInput,
                                       toolId, toolResults))
  {
  }

  // ---------------------------------------------------------------------
  // Round trips: each class's fromArray inverts toArray.

  /** `StatusBase::fromArray(toArray())` keeps the five envelope fields. */
  lemma StatusBaseRoundTrip(env: Envelope)
    ensures EnvelopeFromArray(StatusBaseToArray(env)) == Success(env)
  {
    EnvelopeRoundTrip(env, BaseType, map[]);
    assert Union(BaseArray(env, BaseType), map[]) == StatusBaseToArray(env);
  }

  lemma StartedRoundTrip(env: Envelope)
    ensures var r := Record(env, AiAgentStartedExecution); StartedFromArray(ToArray(r)) == Success(r)
  {
    ToArrayShape(Record(env, AiAgentStartedExecution));
  }

  lemma FinishedRoundTrip(env: Envelope)
    ensures var r := Record(env, AiAgentFinishedExecution); FinishedFromArray(ToArray(r)) == Success(r)
  {
    ToArrayShape(Record(env, AiAgentFinishedExecution));
  }

  lemma IterationRoundTrip(env: Envelope, loopCount: int)
    ensures var r := Record(env, AiAgentIterationExecution(loopCount));
            IterationFromArray(ToArray(r)) == Success(r)
  {
    ToArrayShape(Record(env, AiAgentIterationExecution(loopCount)));
  }

  lemma ResponseRoundTrip(env: Envelope, loopCount: int, text: Option<string>)
    ensures var r := Record(env, AiAgentResponseExecution(loopCount, text));
            ResponseFromArray(ToArray(r)) == Success(r)
  {
    ToArrayShape(Record(env, AiAgentResponseExecution(loopCount, text)));
  }

  lemma ChatHistoryRoundTrip(env: Envelope, loopCount: int, history: PhpArray)
    ensures var r := Record(env, AiAgentChatHistory(loopCount, history));
            ChatHistoryFromArray(ToArray(r)) == Success(r)
  {
    ToArrayShape(Record(env, AiAgentChatHistory(loopCount, history)));
  }

  lemma SystemMessageRoundTrip(env: Envelope, loopCount: int, prompt: string)
    ensures var r := Record(env, SystemMessage(loopCount, prompt));
            SystemMessageFromArray(ToArray(r)) == Success(r)
  {
    ToArrayShape(Record(env, SystemMessage(loopCount, prompt)));
  }

  /** The entries `AiProviderRequest::toArray()` adds. */
  lemma ProviderRequestPayload(loopCount: int, request: PhpArray, provider: string, model: string,
                               config: PhpArray)
    ensures var p := PayloadArray(AiProviderRequest(loopCount, request, provider, model, config));
            && p["loop_count"] == Int(loopCount) && p["request_data"] == request
            && p["provider_name"] == Str(provider) && p["model_name"] == Str(model)
            && p["config"] == config
  {
  }

  /** What the provider request decoder reads back from any array that
      carries the request's payload entries. */
  lemma ProviderRequestReads(w: Wire, loopCount: int, request: PhpArray,
                             provider: string, model: string, config: PhpArray)
    requires var p := PayloadArray(AiProviderRequest(loopCount, request, provider, model, config));
             forall k :: k in p ==> k in w && w[k] == p[k]
    ensures && RequiredInt(w, "loop_count") == Success(loopCount)
            && ArrayOr(w, "request_data", List([])) == Success(request)
            && StringOr(w, "provider_name", "") == Success(provider)
            && StringOr(w, "model_name", "") == Success(model)
            && ArrayOr(w, "config", List([])) == Success(config)
  {
    var p := PayloadArray(AiProviderRequest(loopCount, request, provider, model, config));
    ProviderRequestPayload(loopCount, request, provider, model, config);
    assert w["loop_count"] == p["loop_count"];
    assert w["request_data"] == p["request_data"];
    assert w["provider_name"] == p["provider_name"];
    assert w["model_name"] == p["model_name"];
    assert w["config"] == p["config"];
  }

  lemma ProviderRequestRoundTrip(env: Envelope, loopCount: int, request: PhpArray,
                                 provider: string, model: string, config: PhpArray)
    ensures var r := Record(env, AiProviderRequest(loopCount, request, provider, model, config));
            ProviderRequestFromArray(ToArray(r)) == Success(r)
  {
    var r := Record(env, AiProviderRequest(loopCount, request, provider, model, config));
    ToArrayShape(r);
    ProviderRequestReads(ToArray(r), loopCount, request, provider, model, config);
  }

  lemma ProviderResponseRoundTrip(env: Envelope, loopCount: int, response: PhpArray)
    ensures var r := Record(env, AiProviderResponse(loopCount, response));
            ProviderResponseFromArray(ToArray(r)) == Success(r)
  {
    ToArrayShape(Record(env, AiProviderResponse(loopCount, response)));
  }

  lemma TextGeneratedRoundTrip(env: Envelope, loopCount: int, text: string)
    ensures var r := Record(env, TextGenerated(loopCount, text));
            TextGeneratedFromArray(ToArray(r)) == Success(r)
  {
    ToArrayShape(Record(env, TextGenerated(loopCount, text)));
  }

  /** The tool fields read from an array agree with those read from any
      array it agrees with on the four tool keys. */
  lemma ToolCallAgree(w: Wire, p: Wire)
    requires forall k :: k in p ==> k in w && w[k] == p[k]
    requires "tool_name" in p && "tool_input" in p && "tool_id" in p && "tool_feedback_message" in p
    ensures ToolCallFromArray(w) == ToolCallFromArray(p)
  {
  }

  /** `ToolSelected`'s tool entries read back as the tool call. */
  lemma ToolArrayReads(t: ToolCall)
    ensures "tool_name" in ToolArray(t) && "tool_input" in ToolArray(t)
    ensures "tool_id" in ToolArray(t) && "tool_feedback_message" in ToolArray(t)
    ensures ToolCallFromArray(ToolArray(t)) == Success(t)
  {
  }

  lemma ToolSelectedRoundTrip(env: Envelope, t: ToolCall)
    ensures var r := Record(env, ToolSelected(t)); ToolSelectedFromArray(ToArray(r)) == Success(r)
  {
    ToArrayShape(Record(env, ToolSelected(t)));
    ToolArrayReads(t);
    ToolCallAgree(ToArray(Record(env, ToolSelected(t))), ToolArray(t));
  }

  lemma ToolStartedRoundTrip(env: Envelope, t: ToolCall)
    ensures var r := Record(env, ToolStartedExecution(t)); ToolStartedFromArray(ToArray(r)) == Success(r)
  {
    ToArrayShape(Record(env, ToolStartedExecution(t)));
    ToolArrayReads(t);
    ToolCallAgree(ToArray(Record(env, ToolStartedExecution(t))), ToolArray(t));
  }

  /** `ToolFinishedExecution`'s entries read back as its tool call and results. */
  lemma ToolFinishedPayloadReads(t: ToolCall, results: string)
    ensures var p := PayloadArray(ToolFinishedExecution(t, results));
            && "tool_name" in p && "tool_input" in p && "tool_id" in p && "tool_feedback_message" in p
            && ToolCallFromArray(p) == Success(t)
            && RequiredString(p, "tool_results") == Success(results)
  {
  }

  lemma ToolFinishedRoundTrip(env: Envelope, t: ToolCall, results: string)
    ensures var r := Record(env, ToolFinishedExecution(t, results));
            ToolFinishedFromArray(ToArray(r)) == Success(r)
  {
    ToArrayShape(Record(env, ToolFinishedExecution(t, results)));
    var body := ToolFinishedExecution(t, results);
    var w := ToArray(Record(env, body));
    ToolFinishedPayloadReads(t, results);
    ToolCallAgree(w, PayloadArray(body));
    assert RequiredString(w, "tool_results") == RequiredString(PayloadArray(body), "tool_results");
  }

  // ---------------------------------------------------------------------
  // Setters: a record object updated in place, one field per setter.

  predicate HasLoopNumber(b: Body) {
    b.AiAgentIterationExecution? || b.AiAgentResponseExecution? || b.AiAgentChatHistory?
    || b.SystemMessage? || b.AiProviderRequest? || b.AiProviderResponse? || b.TextGenerated?
  }

  predicate HasTool(b: Body) {
    b.ToolSelected? || b.ToolStartedExecution? || b.ToolFinishedExecution?
  }

  /** A status item object; each setter replaces one field and leaves the
      rest of the record as it was. */
  class StatusItem {
    var record: Record

    constructor (r: Record)
      ensures record == r
    {
      record := r;
    }

    method SetTime(microtime: real)
      modifies this
      ensures record == old(record).(env := old(record).env.(time := microtime))
    {
      record := record.(env := record.env.(time := microtime));
    }

    method SetAgentId(agentId: string)
      modifies this
      ensures record == old(record).(env := old(record).env.(agentId := agentId))
    {
      record := record.(env := record.env.(agentId := agentId));
    }

    method SetAgentName(agentName: string)
      modifies this
      ensures record == old(record).(env := old(record).env.(agentName := agentName))
    {
      record := record.(env := record.env.(agentName := agentName));
    }

    /** Accepts NULL by signature, but the field is a non-null string: NULL
        raises a TypeError and leaves the record as it was. */
    method SetAgentRunnerId(agentRunnerId: Option<string>) returns (o: Outcome)
      modifies this
      ensures agentRunnerId.None? ==> o == Fail(Malformed("agent_runner_id")) && record == old(record)
      ensures agentRunnerId.Some? ==>
                o == Pass
                && record == old(record).(env := old(record).env.(agentRunnerId := agentRunnerId.value))
    {
      if agentRunnerId.None? {
        return Fail(Malformed("agent_runner_id"));
      }
      record := record.(env := record.env.(agentRunnerId := agentRunnerId.value));
      o := Pass;
    }

    method SetCallingAgentId(callingAgentId: Option<string>)
      modifies this
      ensures record == old(record).(env := old(record).env.(callingAgentId := callingAgentId))
    {
      record := record.(env := record.env.(callingAgentId := callingAgentId));
    }

    method SetLoopNumber(loopNumber: int)
      requires HasLoopNumber(record.body)
      modifies this
      ensures record == old(record).(body := old(record).body.(loopCount := loopNumber))
      ensures record.body.loopCount == loopNumber
    {
      record := record.(body := record.body.(loopCount := loopNumber));
    }

    method SetChatHistory(chatHistory: PhpArray)
      requires record.body.AiAgentChatHistory?
      modifies this
      ensures record == old(record).(body := old(record).body.(chatHistory := chatHistory))
      ensures record.body.chatHistory == chatHistory
    {
      record := record.(body := record.body.(chatHistory := chatHistory));
    }

    method SetSystemPrompt(systemPrompt: string)
      requires record.body.SystemMessage?
      modifies this
      ensures record == old(record).(body := old(record).body.(systemPrompt := systemPrompt))
      ensures record.body.systemPrompt == systemPrompt
    {
      record := record.(body := record.body.(systemPrompt := systemPrompt));
    }

    method SetRequestData(requestData: PhpArray)
      requires record.body.AiProviderRequest?
      modifies this
      ensures record == old(record).(body := old(record).body.(requestData := requestData))
    {
      record := record.(body := record.body.(requestData := requestData));
    }

    method SetProviderName(providerName: string)
      requires record.body.AiProviderRequest?
      modifies this
      ensures record == old(record).(body := old(record).body.(providerName := providerName))
    {
      record := record.(body := record.body.(providerName := providerName));
    }

    method SetModelName(modelName: string)
      requires record.body.AiProviderRequest?
      modifies this
      ensures record == old(record).(body := old(record).body.(modelName := modelName))
    {
      record := record.(body := record.body.(modelName := modelName));
    }

    method SetModelConfig(config: PhpArray)
      requires record.body.AiProviderRequest?
      modifies this
      ensures record == old(record).(body := old(record).body.(config := config))
    {
      record := record.(body := record.body.(config := config));
    }

    method SetResponseData(responseData: PhpArray)
      requires record.body.AiProviderResponse?
      modifies this
      ensures record == old(record).(body := old(record).body.(responseData := responseData))
    {
      record := record.(body := record.body.(responseData := responseData));
    }

    method SetGeneratedText(text: string)
      requires record.body.TextGenerated?
      modifies this
      ensures record == old(record).(body := old(record).body.(generatedText := text))
      ensures record.body.generatedText == text
    {
      record := record.(body := record.body.(generatedText := text));
    }

    method SetTextResponse(text: string)
      requires record.body.AiAgentResponseExecution?
      modifies this
      ensures record == old(record).(body := old(record).body.(textResponse := Some(text)))
    {
      record := record.(body := record.body.(textResponse := Some(text)));
    }

    method SetToolName(toolName: string)
      requires HasTool(record.body)
      modifies this
      ensures record == old(record).(body := old(record).body.(tool := old(record).body.tool.(toolName := toolName)))
    {
      record := record.(body := record.body.(tool := record.body.tool.(toolName := toolName)));
    }

    method SetToolId(toolId: string)
      requires HasTool(record.body)
      modifies this
      ensures record == old(record).(body := old(record).body.(tool := old(record).body.tool.(toolId := toolId)))
    {
      record := record.(body := record.body.(tool := record.body.tool.(toolId := toolId)));
    }

    method SetToolInput(toolInput: string)
      requires HasTool(record.body)
      modifies this
      ensures record == old(record).(body := old(record).body.(tool := old(record).body.tool.(toolInput := toolInput)))
    {
      record := record.(body := record.body.(tool := record.body.tool.(toolInput := toolInput)));
    }

    method SetToolFeedbackMessage(message: string)
      requires HasTool(record.body)
      modifies this
      ensures record == old(record).(body := old(record).body.(tool :=
                old(record).body.tool.(toolFeedbackMessage := message)))
    {
      record := record.(body := record.body.(tool := record.body.tool.(toolFeedbackMessage := message)));
    }

    method SetToolResults(toolResults: string)
      requires record.body.ToolFinishedExecution?
      modifies this
      ensures record == old(record).(body := old(record).body.(toolResults := toolResults))
    {
      record := record.(body := record.body.(toolResults := toolResults));
    }
  }
}
