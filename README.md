# ai_agents status events, modelled in Dafny

This project models the status pipeline of the Drupal `ai_agents` module.
While an agent runs, its events (started, request, response, tool started,
tool finished, finished) reach the `AgentStatusSubscriber`. Each handler
turns the event into status records ("update items"). It appends them to the
run's `AiAgentStatusUpdate` aggregate, which `PrivateTempStatusStorage` keeps
as JSON in the user's private temp store under
`ai_agents_status_updates_<thread id>`. The `AiAgentStatusPollerService`
reads that aggregate back for the front end.

A record is flattened by its class's `toArray()` into a string-keyed array
tagged with a `type` from `AiAgentStatusItemTypes`. It is rebuilt by
`AiAgentStatusUpdateItemFactory::createFromArray()`, which picks the class
from that tag. The model also covers two smaller pieces:

- `InMemoryArtifactStorage`, which keeps tool outputs under `"<tool id>:<index>"`;
- the post-update hook `ai_agents_post_update_10001`, which strips stray
  `"\r"` characters and empty strings from every agent's tool usage limits.

Modules, one file each:

| file | module | models |
|---|---|---|
| `php_values.dfy` | `PhpValues` | PHP values, arrays as maps, the exception kinds, and the two ways a `fromArray` reads a key |
| `item_types.dfy` | `ItemTypes` | the `AiAgentStatusItemTypes` enum: backing strings, `tryFrom`, titles |
| `update_items.dfy` | `UpdateItems` | the record classes: envelope, payloads, `toArray`, every `fromArray`, and the setters (class `StatusItem`) |
| `item_factory.dfy` | `ItemFactory` | `createFromArray` |
| `status_update.dfy` | `StatusUpdate` | the aggregate `AiAgentStatusUpdate` (a class with an `items` field) and its array form |
| `temp_status_storage.dfy` | `TempStatusStorage` | `PrivateTempStatusStorage` (a class over the temp store map) |
| `status_poller.dfy` | `StatusPoller` | `AiAgentStatusPollerService` |
| `status_subscriber.dfy` | `StatusSubscriber` | the gates, what each handler emits, and the handlers themselves (class `AgentStatusSubscriber`) |
| `decimal.dfy` | `Decimal` | PHP's integer-to-string conversion and the `(int)` cast on strings |
| `artifact_storage.dfy` | `ArtifactStorage` | `InMemoryArtifactStorage` (a class over the ordered artifact array) |
| `post_update.dfy` | `PostUpdate` | `ai_agents_post_update_10001`, its three nested loops as methods |

Design:

- The JSON text in the temp store is taken to be a lossless encoding of the
  array form. The store therefore holds the array form, and the ghost field
  `runs` records the records it decodes to. Every stored array decodes back
  to exactly `runs`, which `Coherent` states and every storage method keeps.
- A record is a `Record(env, body)`. `Envelope` holds the fields of
  `StatusBase`. `Body` has one constructor per concrete class, holding what
  that class adds.
- PHP's array union `$a + $b` keeps the left operand's entries. It is the
  Dafny map merge `b + a` (`PhpValues.Union`).
- A `TypeError` from a typed constructor parameter (a missing key, or a value
  of the wrong type) is the error `Malformed(key)`. The factory's
  `InvalidArgumentException` is `UnknownType(tag)`.
- The subscriber's handlers are proved against specification functions.
  `StartedRecords`, `RequestRecords`, `ResponseRecords`, `FinishedRecords`,
  `ToolStartedRecords` and `ToolFinishedRecords` give the records each event
  produces. `StoreAll` gives what storing them one after another does to the
  runs: the first call on a run that was never started throws, and nothing
  is stored.
- The clock (`TimeInterface`) is given to the handlers as parameters, one per
  reading the handler takes. The session manager is the storage's
  `sessionStarted` field.

## Model

| member | source | states |
|---|---|---|
| PhpValues.Union | src/Service/AgentStatus/UpdateItems/ToolStartedExecution.php:25-27 | PHP array union: every key of the left array keeps its value, and the right array only adds the keys the left one lacks |
| ItemTypes.TryFrom | src/Enum/AiAgentStatusItemTypes.php:10-30 | `tryFrom()`: a found case has exactly that backing string, and no case has the string when none is found |
| ItemTypes.TryFromTagValue | src/Enum/AiAgentStatusItemTypes.php:10-30 | `tryFrom()` of a case's backing value gives back that case |
| ItemTypes.TagValueInjective | src/Enum/AiAgentStatusItemTypes.php:12-30 | no two cases share a backing string |
| ItemTypes.AllTypesPositions | src/Enum/AiAgentStatusItemTypes.php:12-30 | the list of the 13 cases holds each case at its declaration position |
| ItemTypes.ThirteenCases | src/Enum/AiAgentStatusItemTypes.php:12-30 | the enum has 13 cases with pairwise distinct backing strings |
| ItemTypes.TitleInjective | src/Enum/AiAgentStatusItemTypes.php:38-54 | `getTitle()` gives every case a non-empty title, and no two cases share a title |
| ItemTypes.TitlesDistinct | src/Enum/AiAgentStatusItemTypes.php:38-54 | the titles of the 13 cases, in declaration order, are pairwise distinct |
| UpdateItems.Kind | src/Service/AgentStatus/UpdateItems/StatusBase.php:80-83 | no record class reports the `Request` type |
| UpdateItems.BaseArray | src/Service/AgentStatus/UpdateItems/StatusBase.php:165-174 | the base array has exactly the six envelope keys, and `type` holds the record's tag |
| UpdateItems.StatusBaseToArray | src/Service/AgentStatus/UpdateItems/StatusBase.php:165-174 | a bare `StatusBase` is tagged `tool_started`, the default `getType()` |
| UpdateItems.EnvelopeFromArray | src/Service/AgentStatus/UpdateItems/StatusBase.php:158-160 | fails (`TypeError`) when `time`, `agent_id`, `agent_name` or `agent_runner_id` is missing; a missing or NULL `calling_agent_id` reads as NULL |
| UpdateItems.EnvelopeRoundTrip | src/Service/AgentStatus/UpdateItems/StatusBase.php:158-174 | the envelope read back from the base array, whatever a subclass unions into it, is the one written |
| UpdateItems.PayloadKeysMatch | src/Service/AgentStatus/UpdateItems/AiProviderRequest.php:176-184 | each class's `toArray()` adds exactly the keys that class documents |
| UpdateItems.PayloadOutsideEnvelope | src/Service/AgentStatus/UpdateItems/AiProviderRequest.php:176-184 | no payload key collides with an envelope key, so the union drops no payload entry |
| UpdateItems.UnionAbsorbs | src/Service/AgentStatus/UpdateItems/ToolStartedExecution.php:23-28 | a union with an array whose keys are all present already is the left array unchanged |
| UpdateItems.ParentArrayShape | src/Service/AgentStatus/UpdateItems/AiAgentIterationExecution.php:76-80 | the parent's array plus the payload is tagged with the record's kind, carries the payload unchanged and the envelope |
| UpdateItems.ToArrayShape | src/Service/AgentStatus/UpdateItems/StatusBase.php:165-174 | a record's `toArray()` carries its kind's tag, its payload entries and its envelope |
| UpdateItems.ToArrayKeys | src/Service/AgentStatus/UpdateItems/AiProviderRequest.php:176-184 | a record's array has the envelope keys plus its class's payload keys and nothing else |
| UpdateItems.ToolStartedTypeUnionIsNoOp | src/Service/AgentStatus/UpdateItems/ToolStartedExecution.php:23-28 | the extra `type` union in `ToolStartedExecution::toArray()` leaves the parent's array unchanged |
| UpdateItems.StartedFromArray | src/Service/AgentStatus/UpdateItems/AiAgentStartedExecution.php:23-25 | succeeds exactly when the envelope reads, with a Started record holding it; failures are `TypeError`s |
| UpdateItems.FinishedFromArray | src/Service/AgentStatus/UpdateItems/AiAgentFinishedExecution.php:23-25 | succeeds exactly when the envelope reads, with a Finished record holding it; failures are `TypeError`s |
| UpdateItems.IterationFromArray | src/Service/AgentStatus/UpdateItems/AiAgentIterationExecution.php:85-87 | `loop_count` is required and read as given; the envelope as `StatusBase` reads it |
| UpdateItems.ResponseFromArray | src/Service/AgentStatus/Interfaces/UpdateItems/AgentResponseExecutionInterface.php:16-40 | `loop_count` is required; a missing or NULL `text_response` reads as NULL |
| UpdateItems.ChatHistoryFromArray | src/Service/AgentStatus/UpdateItems/AiAgentChatHistory.php:117-127 | `loop_count` is required; a missing `chat_history` reads as `[]`, a present one is carried over unchanged |
| UpdateItems.SystemMessageFromArray | src/Service/AgentStatus/UpdateItems/SystemMessage.php:111-121 | `loop_count` is required; a missing `system_prompt` reads as `''`, a present one as given |
| UpdateItems.ProviderRequestFromArray | src/Service/AgentStatus/UpdateItems/AiProviderRequest.php:189-202 | `loop_count` is required; missing `request_data`, `provider_name`, `model_name` and `config` read as `[]`, `''`, `''` and `[]` |
| UpdateItems.ProviderResponseFromArray | src/Service/AgentStatus/UpdateItems/AiProviderResponse.php:111-121 | `loop_count` is required; a missing `response_data` reads as `[]` |
| UpdateItems.TextGeneratedFromArray | src/Service/AgentStatus/UpdateItems/TextGenerated.php:111-121 | `loop_count` is required; a missing `text_response` reads as `''` |
| UpdateItems.ToolCallFromArray | src/Service/AgentStatus/UpdateItems/ToolStartedExecution.php:39-43 | `tool_name` and `tool_input` are required and read as given; `tool_id` and `tool_feedback_message` default to `''` |
| UpdateItems.ToolSelectedFromArray | src/Service/AgentStatus/UpdateItems/ToolStartedExecution.php:33-45 | succeeds exactly when the envelope and the tool fields read, with a ToolSelected record of them |
| UpdateItems.ToolStartedFromArray | src/Service/AgentStatus/UpdateItems/ToolStartedExecution.php:33-45 | succeeds exactly when the envelope and the tool fields read, with a ToolStarted record of them |
| UpdateItems.ToolFinishedFromArray | src/Service/AgentStatus/UpdateItems/ToolFinishedExecution.php:192-205 | `tool_results` is required as well as the tool fields; the record holds what was read |
| UpdateItems.ProviderRequestDefaultsAgree | src/Service/AgentStatus/UpdateItems/AiProviderRequest.php:72-94 | decoding a provider request with every optional key missing gives the constructor's defaults |
| UpdateItems.ToolFinishedDefaultsAgree | src/Service/AgentStatus/UpdateItems/ToolFinishedExecution.php:72-96 | decoding a finished tool call passes `''` for a missing `tool_id` (the constructor has no default for it) and the given string for a present one; a missing feedback message gives the constructor's own default `''` |
| UpdateItems.StatusBaseRoundTrip | src/Service/AgentStatus/UpdateItems/StatusBase.php:158-174 | `StatusBase::fromArray(toArray())` keeps the five envelope fields |
| UpdateItems.StartedRoundTrip | src/Service/AgentStatus/UpdateItems/AiAgentStartedExecution.php:23-25 | `fromArray(toArray())` gives back the Started record |
| UpdateItems.FinishedRoundTrip | src/Service/AgentStatus/UpdateItems/AiAgentFinishedExecution.php:23-25 | `fromArray(toArray())` gives back the Finished record |
| UpdateItems.IterationRoundTrip | src/Service/AgentStatus/UpdateItems/AiAgentIterationExecution.php:76-87 | `fromArray(toArray())` gives back the Iteration record |
| UpdateItems.ResponseRoundTrip | src/Service/AgentStatus/Interfaces/UpdateItems/AgentResponseExecutionInterface.php:16-40 | `fromArray(toArray())` gives back the Response record, NULL text included |
| UpdateItems.ChatHistoryRoundTrip | src/Service/AgentStatus/UpdateItems/AiAgentChatHistory.php:107-127 | `fromArray(toArray())` gives back the chat history record |
| UpdateItems.SystemMessageRoundTrip | src/Service/AgentStatus/UpdateItems/SystemMessage.php:101-121 | `fromArray(toArray())` gives back the system message record |
| UpdateItems.ProviderRequestPayload | src/Service/AgentStatus/UpdateItems/AiProviderRequest.php:176-184 | the five entries `AiProviderRequest::toArray()` adds hold the record's fields |
| UpdateItems.ProviderRequestReads | src/Service/AgentStatus/UpdateItems/AiProviderRequest.php:189-202 | any array carrying those five entries reads back the loop count, request data, provider, model and config |
| UpdateItems.ProviderRequestRoundTrip | src/Service/AgentStatus/UpdateItems/AiProviderRequest.php:176-202 | `fromArray(toArray())` gives back the provider request record |
| UpdateItems.ProviderResponseRoundTrip | src/Service/AgentStatus/UpdateItems/AiProviderResponse.php:101-121 | `fromArray(toArray())` gives back the provider response record |
| UpdateItems.TextGeneratedRoundTrip | src/Service/AgentStatus/UpdateItems/TextGenerated.php:101-121 | `fromArray(toArray())` gives back the generated-text record |
| UpdateItems.ToolCallAgree | src/Service/AgentStatus/UpdateItems/ToolStartedExecution.php:39-43 | the tool fields depend only on the four tool keys |
| UpdateItems.ToolArrayReads | src/Service/AgentStatus/UpdateItems/ToolStartedExecution.php:39-43 | the tool entries of the array read back as the tool call |
| UpdateItems.ToolSelectedRoundTrip | src/Service/AgentStatus/UpdateItems/ToolStartedExecution.php:23-45 | `fromArray(toArray())` gives back the ToolSelected record |
| UpdateItems.ToolStartedRoundTrip | src/Service/AgentStatus/UpdateItems/ToolStartedExecution.php:23-45 | `fromArray(toArray())` gives back the ToolStarted record |
| UpdateItems.ToolFinishedPayloadReads | src/Service/AgentStatus/UpdateItems/ToolFinishedExecution.php:178-205 | the finished tool's entries read back as its tool call and results |
| UpdateItems.ToolFinishedRoundTrip | src/Service/AgentStatus/UpdateItems/ToolFinishedExecution.php:178-205 | `fromArray(toArray())` gives back the ToolFinished record |
| UpdateItems.StatusItem.constructor | src/Service/AgentStatus/UpdateItems/StatusBase.php:63-75 | the item holds the record it was built with |
| UpdateItems.StatusItem.SetTime | src/Service/AgentStatus/UpdateItems/StatusBase.php:95-97 | replaces the time, nothing else |
| UpdateItems.StatusItem.SetAgentId | src/Service/AgentStatus/UpdateItems/StatusBase.php:109-111 | replaces the agent id, nothing else |
| UpdateItems.StatusItem.SetAgentName | src/Service/AgentStatus/UpdateItems/StatusBase.php:123-125 | replaces the agent name, nothing else |
| UpdateItems.StatusItem.SetAgentRunnerId | src/Service/AgentStatus/UpdateItems/StatusBase.php:137-139 | replaces the runner id; NULL is a `TypeError` and changes nothing |
| UpdateItems.StatusItem.SetCallingAgentId | src/Service/AgentStatus/UpdateItems/StatusBase.php:151-153 | replaces the calling agent id (NULL allowed), nothing else |
| UpdateItems.StatusItem.SetLoopNumber | src/Service/AgentStatus/UpdateItems/AiAgentIterationExecution.php:69-71 | replaces the loop count of a loop-counting record, nothing else |
| UpdateItems.StatusItem.SetChatHistory | src/Service/AgentStatus/UpdateItems/AiAgentChatHistory.php:86-88 | replaces the chat history, nothing else |
| UpdateItems.StatusItem.SetSystemPrompt | src/Service/AgentStatus/UpdateItems/SystemMessage.php:80-82 | replaces the system prompt, nothing else |
| UpdateItems.StatusItem.SetRequestData | src/Service/AgentStatus/UpdateItems/AiProviderRequest.php:113-115 | replaces the request data, nothing else |
| UpdateItems.StatusItem.SetProviderName | src/Service/AgentStatus/UpdateItems/AiProviderRequest.php:127-129 | replaces the provider name, nothing else |
| UpdateItems.StatusItem.SetModelName | src/Service/AgentStatus/UpdateItems/AiProviderRequest.php:141-143 | replaces the model name, nothing else |
| UpdateItems.StatusItem.SetModelConfig | src/Service/AgentStatus/UpdateItems/AiProviderRequest.php:155-157 | replaces the model configuration, nothing else |
| UpdateItems.StatusItem.SetResponseData | src/Service/AgentStatus/UpdateItems/AiProviderResponse.php:80-82 | replaces the response data, nothing else |
| UpdateItems.StatusItem.SetGeneratedText | src/Service/AgentStatus/UpdateItems/TextGenerated.php:80-82 | replaces the generated text, nothing else |
| UpdateItems.StatusItem.SetTextResponse | src/Service/AgentStatus/Interfaces/UpdateItems/AgentResponseExecutionInterface.php:40 | replaces the agent's text response, nothing else |
| UpdateItems.StatusItem.SetToolName | src/Service/AgentStatus/UpdateItems/ToolFinishedExecution.php:115-117 | replaces the tool name, nothing else |
| UpdateItems.StatusItem.SetToolId | src/Service/AgentStatus/UpdateItems/ToolFinishedExecution.php:129-131 | replaces the tool id, nothing else |
| UpdateItems.StatusItem.SetToolInput | src/Service/AgentStatus/UpdateItems/ToolFinishedExecution.php:143-145 | replaces the tool input, nothing else |
| UpdateItems.StatusItem.SetToolFeedbackMessage | src/Service/AgentStatus/UpdateItems/ToolFinishedExecution.php:171-173 | replaces the feedback message, nothing else |
| UpdateItems.StatusItem.SetToolResults | src/Service/AgentStatus/UpdateItems/ToolFinishedExecution.php:157-159 | replaces the tool results, nothing else |
| ItemFactory.DispatchCounted | src/Service/AgentStatus/AiAgentStatusUpdateItemFactory.php:40-46 | the loop-counting arms give a record of the named kind with the envelope read from the array, or a `TypeError` |
| ItemFactory.Dispatch | src/Service/AgentStatus/AiAgentStatusUpdateItemFactory.php:37-50 | an arm gives a record of its own kind or a `TypeError`; `agent_request` has no arm and raises the unknown-type exception |
| ItemFactory.CreateFromArray | src/Service/AgentStatus/AiAgentStatusUpdateItemFactory.php:36-52 | a decoded record has the kind its `type` names and the envelope read from the array; a missing, non-string, unknown or `agent_request` type raises the unknown-type exception, and no other input does |
| ItemFactory.CreateDispatches | src/Service/AgentStatus/AiAgentStatusUpdateItemFactory.php:37-49 | an array tagged with a handled tag goes to that tag's `fromArray` |
| ItemFactory.DispatchCountedRoundTrip | src/Service/AgentStatus/AiAgentStatusUpdateItemFactory.php:40-46 | each loop-counting arm rebuilds the record from its array |
| ItemFactory.DispatchesToTool | src/Service/AgentStatus/AiAgentStatusUpdateItemFactory.php:47-49 | the three tool tags dispatch to the three tool decoders |
| ItemFactory.DispatchToolRoundTrip | src/Service/AgentStatus/AiAgentStatusUpdateItemFactory.php:47-49 | each tool arm rebuilds the record from its array |
| ItemFactory.DispatchRoundTrip | src/Service/AgentStatus/AiAgentStatusUpdateItemFactory.php:37-49 | each record's arm rebuilds it from its array |
| ItemFactory.FactoryRoundTrip | src/Service/AgentStatus/AiAgentStatusUpdateItemFactory.php:36-52 | `createFromArray($item->toArray())` gives back every record |
| ItemFactory.AgentRequestRejected | src/Service/AgentStatus/AiAgentStatusUpdateItemFactory.php:50 | an array tagged `agent_request` is always refused |
| ItemFactory.StatusBaseNotRecreated | src/Service/AgentStatus/AiAgentStatusUpdateItemFactory.php:48 | a bare `StatusBase` array is tagged `tool_started` but lacks `tool_name`, so it is not rebuilt |
| StatusUpdate.DecodeItem | src/Service/AgentStatus/AiAgentStatusUpdate.php:67-68 | an object element goes to the factory; any other element fails |
| StatusUpdate.EncodeAll | src/Service/AgentStatus/AiAgentStatusUpdate.php:53-56 | one array per item |
| StatusUpdate.EncodeStep | src/Service/AgentStatus/AiAgentStatusUpdate.php:54-56 | each loop step appends the next item's array |
| StatusUpdate.DecodeAll | src/Service/AgentStatus/AiAgentStatusUpdate.php:67-70 | on success, one record per element |
| StatusUpdate.DecodeAllPointwise | src/Service/AgentStatus/AiAgentStatusUpdate.php:67-70 | success means every element decodes, in order; failure is the first failing element's error |
| StatusUpdate.DecodePrefixFailure | src/Service/AgentStatus/AiAgentStatusUpdate.php:67-70 | once an element throws, the later elements do not matter |
| StatusUpdate.DecodeStep | src/Service/AgentStatus/AiAgentStatusUpdate.php:67-70 | each loop step appends the next record or stops with its error |
| StatusUpdate.DecodeItemRoundTrip | src/Service/AgentStatus/AiAgentStatusUpdate.php:55-68 | one item's array decodes back to the item |
| StatusUpdate.DecodeEncodeAll | src/Service/AgentStatus/AiAgentStatusUpdate.php:53-70 | decoding inverts encoding for the whole list whenever it does for one item |
| StatusUpdate.AggregateRoundTrip | src/Service/AgentStatus/AiAgentStatusUpdate.php:52-72 | `fromArray(toArray())` gives back the same items in the same order |
| StatusUpdate.AiAgentStatusUpdate.constructor | src/Service/AgentStatus/AiAgentStatusUpdate.php:19 | a new aggregate has no items |
| StatusUpdate.AiAgentStatusUpdate.SetItems | src/Service/AgentStatus/AiAgentStatusUpdate.php:31-33 | the items become the given list |
| StatusUpdate.AiAgentStatusUpdate.AddItem | src/Service/AgentStatus/AiAgentStatusUpdate.php:38-40 | the item goes last |
| StatusUpdate.AiAgentStatusUpdate.ClearItems | src/Service/AgentStatus/AiAgentStatusUpdate.php:45-47 | no items are left |
| StatusUpdate.AiAgentStatusUpdate.ToArray | src/Service/AgentStatus/AiAgentStatusUpdate.php:52-60 | the `items` array, which decodes back to the items |
| StatusUpdate.AiAgentStatusUpdate.FromArray | src/Service/AgentStatus/AiAgentStatusUpdate.php:65-72 | a fresh aggregate with the decoded items, or the first item's exception; the values of a list, or of a string-keyed array with at most one entry, are decoded in turn |
| StatusUpdate.OrderedValues | src/Service/AgentStatus/AiAgentStatusUpdate.php:67 | the values `foreach` visits in a string-keyed array, known exactly when it has at most one entry |
| StatusUpdate.KeyedItemsDecode | src/Service/AgentStatus/AiAgentStatusUpdate.php:65-72 | a record's array under any string key decodes to that record; an empty string-keyed array to no records |
| TempStatusStorage.TempStoreKey | src/Service/AgentStatus/Storages/PrivateTempStatusStorage.php:107-109 | the key is the prefix `ai_agents_status_updates_` followed by the id |
| TempStatusStorage.TempStoreKeyInjective | src/Service/AgentStatus/Storages/PrivateTempStatusStorage.php:107-109 | different ids never share a key |
| TempStatusStorage.CoherentPut | src/Service/AgentStatus/Storages/PrivateTempStatusStorage.php:56 | storing an aggregate's array keeps every entry decodable to its run |
| TempStatusStorage.CoherentRemove | src/Service/AgentStatus/Storages/PrivateTempStatusStorage.php:95 | deleting an entry keeps the others decodable |
| TempStatusStorage.AppendItem | src/Service/AgentStatus/Storages/PrivateTempStatusStorage.php:73-75 | decode, add, re-encode: the stored array of a run becomes the array of the run plus the item |
| TempStatusStorage.PrivateTempStatusStorage.constructor | src/Service/AgentStatus/Storages/PrivateTempStatusStorage.php:38-41 | an empty store with the given session state |
| TempStatusStorage.PrivateTempStatusStorage.StartStatusUpdate | src/Service/AgentStatus/Storages/PrivateTempStatusStorage.php:46-58 | refuses without a session; otherwise the run's entry becomes an empty aggregate, replacing any earlier one |
| TempStatusStorage.PrivateTempStatusStorage.StoreStatusUpdateItem | src/Service/AgentStatus/Storages/PrivateTempStatusStorage.php:63-76 | refuses a run never started and changes nothing; otherwise the record is appended to that run only |
| TempStatusStorage.PrivateTempStatusStorage.LoadStatusUpdate | src/Service/AgentStatus/Storages/PrivateTempStatusStorage.php:81-88 | NULL for a run with no entry; otherwise a fresh aggregate with exactly the run's records |
| TempStatusStorage.PrivateTempStatusStorage.DeleteStatusUpdate | src/Service/AgentStatus/Storages/PrivateTempStatusStorage.php:93-96 | removes the run's entry and nothing else |
| StatusPoller.AiAgentStatusPollerService.constructor | src/Service/AgentStatus/AiAgentStatusPollerService.php:20-22 | the poller reads the given storage |
| StatusPoller.AiAgentStatusPollerService.GetLatestStatusUpdates | src/Service/AgentStatus/AiAgentStatusPollerService.php:27-36 | the run's records, or an empty aggregate for a run with no entry |
| StatusPoller.AiAgentStatusPollerService.DeleteStatusUpdate | src/Service/AgentStatus/AiAgentStatusPollerService.php:41-43 | the run's entry is gone, and polling it afterwards gives no records |
| StatusPoller.StartedRunPollsEmpty | tests/src/Kernel/Service/AgentStatus/AiAgentStatusPollerServiceTest.php:62-69 | a just-started run polls as empty, and so does a run never started |
| StatusSubscriber.Kinds | src/EventSubscriber/AgentStatusSubscriber.php:350-357 | the kinds of a record list, one per record |
| StatusSubscriber.StoreAllSplit | src/Service/AgentStatus/Storages/PrivateTempStatusStorage.php:63-76 | storing `a` then `b` is storing `a + b`, stopping at the first refusal |
| StatusSubscriber.StoreStep | src/Service/AgentStatus/Storages/PrivateTempStatusStorage.php:63-76 | one more `storeStatusUpdateItem` call extends what was stored so far |
| StatusSubscriber.StoreFailSticks | src/Service/AgentStatus/Storages/PrivateTempStatusStorage.php:66-72 | after a refused store, the handler stores nothing more |
| StatusSubscriber.SelectedToolsSkipNull | src/EventSubscriber/AgentStatusSubscriber.php:235-254 | one ToolSelected record per non-NULL tool, each built from that tool; none when every tool is NULL |
| StatusSubscriber.SharedTimestamp | src/EventSubscriber/AgentStatusSubscriber.php:150-230 | every record of one request or response event carries that event's fields and its one clock reading |
| StatusSubscriber.AdmittedConcat | src/EventSubscriber/AgentStatusSubscriber.php:350-357 | admitted record lists stay admitted when joined |
| StatusSubscriber.SelectedToolsKind | src/EventSubscriber/AgentStatusSubscriber.php:243-253 | every selected-tool record is of kind ToolSelected |
| StatusSubscriber.EmittedKindsAreAdmitted | src/EventSubscriber/AgentStatusSubscriber.php:75-131 | the started, finished and tool handlers emit only kinds the allow-list admits |
| StatusSubscriber.RequestKindsAreAdmitted | src/EventSubscriber/AgentStatusSubscriber.php:152-190 | the request handler emits only admitted kinds; the provider request is checked as `Request` |
| StatusSubscriber.ResponseKindsAreAdmitted | src/EventSubscriber/AgentStatusSubscriber.php:208-255 | the response handler emits only admitted kinds; the provider response is checked as `Response` |
| StatusSubscriber.SelectedToolsKinds | src/EventSubscriber/AgentStatusSubscriber.php:235-254 | the selected-tool records are one ToolSelected per non-NULL tool, and nothing else |
| StatusSubscriber.EmptyTrackingEmitsAll | src/EventSubscriber/AgentStatusSubscriber.php:352-355 | with an empty tracking list each handler's kinds are its full list in source order: Started (at loop 0) and Iteration; ChatHistory, SystemMessage and ProviderRequest; ProviderResponse, TextGenerated when there is text and one ToolSelected per non-NULL tool; ToolStarted; ToolFinished |
| StatusSubscriber.ProviderRequestGatedByRequest | src/EventSubscriber/AgentStatusSubscriber.php:177-190 | the provider request is logged exactly when `Request` is admitted; listing `ProviderRequest` alone logs nothing |
| StatusSubscriber.ProviderResponseGatedByResponse | src/EventSubscriber/AgentStatusSubscriber.php:208-218 | the provider response is logged exactly when `Response` is admitted; listing `ProviderResponse` alone logs nothing |
| StatusSubscriber.IterationAtEveryLoop | src/EventSubscriber/AgentStatusSubscriber.php:81-107 | the Iteration record comes at every loop, loop 0 included, after the Started record when there is one |
| StatusSubscriber.RootStartResetsRun | src/EventSubscriber/AgentStatusSubscriber.php:81-95 | a root agent's first loop replaces any earlier run under the thread id; any other start appends |
| StatusSubscriber.ToolFieldDefaults | src/EventSubscriber/AgentStatusSubscriber.php:282-293 | a missing tools id, readable output or progress message becomes `''`; name and input come from the tool |
| StatusSubscriber.AgentStatusSubscriber.constructor | src/EventSubscriber/AgentStatusSubscriber.php:47-53 | the subscriber writes to the given storage |
| StatusSubscriber.AgentStatusSubscriber.Store | src/Service/AgentStatus/Storages/PrivateTempStatusStorage.php:63-76 | one store call, stated as a step of `StoreAll` |
| StatusSubscriber.AgentStatusSubscriber.OnAgentStartedExecution | src/EventSubscriber/AgentStatusSubscriber.php:75-108 | nothing without a thread id; otherwise it opens the run for a root start and stores exactly `StartedRecords`, stopping at the first refusal |
| StatusSubscriber.AgentStatusSubscriber.OnAgentFinishedExecution | src/EventSubscriber/AgentStatusSubscriber.php:116-132 | nothing without a thread id; otherwise it stores exactly `FinishedRecords` |
| StatusSubscriber.AgentStatusSubscriber.OnAgentRequestExecution | src/EventSubscriber/AgentStatusSubscriber.php:140-191 | nothing without a thread id; otherwise it stores exactly `RequestRecords`, in order, stopping at the first refusal |
| StatusSubscriber.AgentStatusSubscriber.OnAgentRespondedExecution | src/EventSubscriber/AgentStatusSubscriber.php:199-256 | nothing without a thread id; otherwise it stores exactly `ResponseRecords`, in order, stopping at the first refusal |
| StatusSubscriber.AgentStatusSubscriber.StoreSelectedTools | src/EventSubscriber/AgentStatusSubscriber.php:235-254 | the tool loop stores one ToolSelected record per non-NULL tool, in order |
| StatusSubscriber.AgentStatusSubscriber.OnAgentToolFinishedExecution | src/EventSubscriber/AgentStatusSubscriber.php:264-294 | nothing without a thread id; otherwise it stores exactly `ToolFinishedRecords` |
| StatusSubscriber.AgentStatusSubscriber.OnAgentPreToolExecuteEvent | src/EventSubscriber/AgentStatusSubscriber.php:302-330 | nothing without a thread id; otherwise it stores exactly `ToolStartedRecords` |
| StatusSubscriber.SelectedToolsStep | src/EventSubscriber/AgentStatusSubscriber.php:235-254 | each loop step adds the next tool's record, or nothing for NULL |
| StatusSubscriber.SelectedToolsAppend | src/EventSubscriber/AgentStatusSubscriber.php:235-254 | the selected-tool records of two tool lists joined are the two record lists joined |
| StatusSubscriber.RootRunGates | src/EventSubscriber/AgentStatusSubscriber.php:350-357 | a tracking list of Started, ToolStarted, ToolFinished and Finished admits those kinds and not Iteration |
| StatusSubscriber.RootRunScenario | src/EventSubscriber/AgentStatusSubscriber.php:75-132 | with that list, a root run stores Started, then ToolStarted, ToolFinished and Finished and no Iteration |
| Decimal.DigitChar | src/Artifact/InMemoryArtifactStorage.php:23 | a digit value gives its decimal digit character |
| Decimal.NatToString | src/Artifact/InMemoryArtifactStorage.php:23 | a natural number prints as a non-empty digit string |
| Decimal.IntToString | src/Artifact/InMemoryArtifactStorage.php:23 | an integer prints as a non-empty numeral with no `:` in it |
| Decimal.ParseInt | src/Artifact/InMemoryArtifactStorage.php:60-61 | only a well-formed numeral parses |
| Decimal.NatToStringRoundTrip | src/Artifact/InMemoryArtifactStorage.php:23 | the digits of a printed number are worth that number |
| Decimal.ParseIntRoundTrip | src/Artifact/InMemoryArtifactStorage.php:23 | parsing a printed integer gives it back |
| Decimal.IntToStringInjective | src/Artifact/InMemoryArtifactStorage.php:23 | different integers print differently |
| Decimal.LeadingDigits | src/Artifact/InMemoryArtifactStorage.php:61 | the length of the leading digit run that `(int)` reads |
| Decimal.AllDigitsLeading | src/Artifact/InMemoryArtifactStorage.php:61 | in a string of digits, the leading run is the whole string |
| Decimal.IntCast | src/Artifact/InMemoryArtifactStorage.php:61 | `(int)` of a string that starts with its numeral: 0 when the string starts with neither a sign nor a digit, never positive after a minus sign, never negative otherwise |
| Decimal.IntCastAgreesWithParse | src/Artifact/InMemoryArtifactStorage.php:61 | on a whole numeral `(int)` reads its value |
| Decimal.IntCastRoundTrip | src/Artifact/InMemoryArtifactStorage.php:61 | `(int)` of a printed integer gives it back |
| ArtifactStorage.KeyShape | src/Artifact/InMemoryArtifactStorage.php:23 | a key starts with `"<tool id>:"` and ends with the printed index |
| ArtifactStorage.ColonAfterShortPrefix | src/Artifact/InMemoryArtifactStorage.php:51-54 | another tool's key behind a shorter tool's prefix still has a `:` left in it |
| ArtifactStorage.ColonInsideIndex | src/Artifact/InMemoryArtifactStorage.php:51-54 | a key that starts with a longer tool's prefix must have a `:` in its index part |
| ArtifactStorage.KeyParts | src/Artifact/InMemoryArtifactStorage.php:51-61 | a key that starts with the tool's prefix and whose rest parses belongs to that tool and index |
| ArtifactStorage.KeyInjective | src/Artifact/InMemoryArtifactStorage.php:23 | different (tool id, index) pairs never share a key |
| ArtifactStorage.LookupAfterStore | src/Artifact/InMemoryArtifactStorage.php:22-38 | after `store()`, `get()` gives the value and `has()` is true exactly when it is not NULL; other keys are untouched |
| ArtifactStorage.IndexPart | src/Artifact/InMemoryArtifactStorage.php:60-61 | `[, $i] = explode(':', $key, 2)` then `(int) $i` as `IntCast` reads it: 0 when the key has no `:` |
| ArtifactStorage.FirstColon | src/Artifact/InMemoryArtifactStorage.php:60 | the first `:` of a string, where `explode(..., 2)` splits it |
| ArtifactStorage.ScanKey | src/Artifact/InMemoryArtifactStorage.php:58-62 | one loop step only raises the maximum, and only to an index the tool stored |
| ArtifactStorage.ScanMaxBounds | src/Artifact/InMemoryArtifactStorage.php:57-62 | the scan's maximum bounds every index of the tool and is 0 or one of them |
| ArtifactStorage.DistinctAppend | src/Artifact/InMemoryArtifactStorage.php:23 | a new key appended keeps the key list free of repeats |
| ArtifactStorage.IndexedAfterStore | src/Artifact/InMemoryArtifactStorage.php:22-24 | `store()` keeps the ordered key list in step with the array |
| ArtifactStorage.NextIndexBounds | src/Artifact/InMemoryArtifactStorage.php:57-63 | the scan over the stored keys bounds every index of the tool |
| ArtifactStorage.InMemoryArtifactStorage.constructor | src/Artifact/InMemoryArtifactStorage.php:17 | a new storage is empty |
| ArtifactStorage.InMemoryArtifactStorage.Store | src/Artifact/InMemoryArtifactStorage.php:22-24 | sets the value under the key; a new key goes last and an existing one keeps its place |
| ArtifactStorage.InMemoryArtifactStorage.Get | src/Artifact/InMemoryArtifactStorage.php:29-31 | the stored value, or NULL when there is none |
| ArtifactStorage.InMemoryArtifactStorage.Has | src/Artifact/InMemoryArtifactStorage.php:36-38 | true exactly when a non-NULL value is stored (`isset`) |
| ArtifactStorage.InMemoryArtifactStorage.All | src/Artifact/InMemoryArtifactStorage.php:43-45 | the whole array, every key of the `"tool_id:index"` form |
| ArtifactStorage.InMemoryArtifactStorage.GetNextIndex | src/Artifact/InMemoryArtifactStorage.php:50-64 | as written: always 1 (see Findings) |
| ArtifactStorage.InMemoryArtifactStorage.GetNextIndexIntended | src/Artifact/ArtifactStorageInterface.php:63-68 | one past the highest index stored for the tool, 1 when there is none |
| ArtifactStorage.NextIndexScenario | src/Artifact/InMemoryArtifactStorage.php:50-64 | after storing indexes 1 and 3, the code answers 1 where 4 is intended |
| PostUpdate.RTrimCR | ai_agents.post_update.php:32 | `rtrim($value, "\r")`: a prefix of the value, no longer ending in `"\r"`, with only `"\r"` cut |
| PostUpdate.CleanValues | ai_agents.post_update.php:29-40 | the cleaned list is never longer than the original |
| PostUpdate.TrimAll | ai_agents.post_update.php:31-34 | trims every value that ends in `"\r"` |
| PostUpdate.CleanValuesReference | ai_agents.post_update.php:29-40 | fails exactly when a value is an array; otherwise drops the `''` values, trims the rest, keeps keys and order, and reports a change exactly when some value needed cleaning |
| PostUpdate.CleanValuesChanged | ai_agents.post_update.php:29-40 | `$changed` is set exactly when the list changed |
| PostUpdate.TrimmedToEmptyKept | ai_agents.post_update.php:31-39 | a value `"\r\r"` is trimmed to `''` and kept, not removed |
| PostUpdate.Lookup | ai_agents.post_update.php:28 | a key is found exactly when some entry has it |
| PostUpdate.Replace | ai_agents.post_update.php:32-37 | writing a value under an existing key keeps the keys and changes the list exactly when the value differs |
| PostUpdate.ValueList | ai_agents.post_update.php:28 | the settings' `values` entry, only when it is a non-empty array |
| PostUpdate.CleanProperty | ai_agents.post_update.php:28-41 | a property without a non-empty `values` array is left as it is |
| PostUpdate.CleanPropertyChanged | ai_agents.post_update.php:26-42 | the property's change flag is set exactly when its settings changed |
| PostUpdate.CleanTool | ai_agents.post_update.php:23-25 | a tool whose properties are not a non-empty array is skipped |
| PostUpdate.AppendDiffers | ai_agents.post_update.php:21-43 | two equally long lists with one entry appended differ exactly when the prefixes or the entries do |
| PostUpdate.PropertiesStep | ai_agents.post_update.php:26-42 | one iteration of the property loop |
| PostUpdate.ToolsStep | ai_agents.post_update.php:21-43 | one iteration of the tool loop |
| PostUpdate.CleanPropertiesShape | ai_agents.post_update.php:26-42 | the property loop keeps every property name and leaves properties without values as they are |
| PostUpdate.CleanPropertiesChanged | ai_agents.post_update.php:26-42 | the flag is set exactly when some property changed |
| PostUpdate.CleanToolsShape | ai_agents.post_update.php:21-43 | the tool loop keeps every tool id and leaves skipped tools as they are |
| PostUpdate.CleanToolChanged | ai_agents.post_update.php:23-42 | one tool's flag is set exactly when that tool changed |
| PostUpdate.CleanToolsChanged | ai_agents.post_update.php:21-43 | the flag is set exactly when some tool changed |
| PostUpdate.SavedIffRewritten | ai_agents.post_update.php:19-48 | an agent is saved exactly when its cleaned limits differ from the loaded ones, and then with the cleaned limits |
| PostUpdate.CleanValueList | ai_agents.post_update.php:29-40 | the values loop computes `CleanValues` |
| PostUpdate.FailureSticks | ai_agents.post_update.php:31 | once a value throws, the rest of the list does not matter |
| PostUpdate.CleanPropertyList | ai_agents.post_update.php:26-42 | the property loop computes `CleanProperties` |
| PostUpdate.PropertyFailureSticks | ai_agents.post_update.php:26-42 | once a property throws, the rest do not matter |
| PostUpdate.CleanToolUsageLimits | ai_agents.post_update.php:19-43 | the tool loop over one agent's limits computes `CleanLimits` |
| PostUpdate.ToolFailureSticks | ai_agents.post_update.php:21-43 | once a tool throws, the rest do not matter |
| PostUpdate.PostUpdate10001 | ai_agents.post_update.php:11-50 | the agents in load order, each saved exactly as `AgentUpdate` says, stopping at the first agent that throws |

## Left out

- JSON: `toJson()`, `fromJson()` and `Json::encode` of tool contexts are not modelled. The stored form is the array form, taken to be what the JSON text encodes losslessly.
- Floats: a timestamp is a `real`. Floats in agent configuration are not distinguished from integers.
- PHP's scalar coercions: the model only widens an integer `time` to a float. Other non-strict coercions of scalar values into typed parameters are modelled as `TypeError`s.
- Services: the session manager, the time service, the function-call plugin manager, the AI provider and the agent entity become plain values or parameters.
- Exceptions from those services: these include `getFunctionCallFromFunctionName()` failing on an unknown tool name.
- Chat messages: a request event holds each chat message's `toArray()` form and the chat input's. The message classes are not part of this model, so the request handler's conversion loop is not a separate step.
- `getSubscribedEvents()`: event registration and dispatch are not modelled.
- Entity load and save in the post-update: the hook is given each agent's stored `tool_usage_limits` and returns what it would save. A crash part-way leaves the earlier agents saved, which the method's result states.
- `ToolSelected.php` is not part of this model. `ToolStartedExecution` extends it, so its array form and `fromArray` are inferred from `ToolStartedExecution` and the subscriber's use of it.
- `AiAgentResponseExecution.php` is not part of this model. Its record is inferred from its interface and the factory; its `fromArray` is taken to read `loop_count` and a nullable `text_response`.
- `getLatestStatusUpdates()` on a run whose stored JSON no longer decodes cannot happen in the model, because every stored entry decodes (`Coherent`).
- ArtifactStorage.InMemoryArtifactStorage.GetNextIndexIntended: it reads an index only when the text after the prefix is a well-formed numeral. The interface does not say how other keys are read.
- The private temp store's expiry and per-user separation are not modelled. Neither is the `$store === NULL` check, which the temp store factory never triggers.
- StatusUpdate.AiAgentStatusUpdate.FromArray: a string-keyed `items` array with two or more entries is refused as `Malformed("items")`. PHP walks its values in insertion order, but a `Value` map keeps no key order, so that order cannot be stated. Lists and string-keyed arrays with at most one entry are decoded as PHP does.
- Decimal.IntCast: reads an optional sign and the digits right after it. PHP's `(int)` also skips leading whitespace, reads a fraction or an exponent (`"1e3"` is 1000) and saturates at the 64-bit limits. The keys `store()` writes never need these rules.
- ArtifactStorage.IndexPart: the text after the first `:` is cast with `IntCast`, so a key such as `"a: 5:1"` reads 0 where PHP reads 5. No result of `GetNextIndex` depends on it, because its scan only reaches colon-free texts.
- UpdateItems.StatusItem: the getters are plain field reads of `record` and are not separate members.

## Findings

| source | as written | input that shows it | evidently intended | confidence | as-written member | corrected member |
|---|---|---|---|---|---|---|
| src/Artifact/InMemoryArtifactStorage.php:54 | `array_keys(array_filter(array_keys($this->artifacts), …))` gives the positions of the matching keys (0, 1, …), not the keys. A position has no `:`, so `explode` yields no second part, `(int) NULL` is 0, and `getNextIndex()` always returns 1 | `store('t', 1, 'a')`, `store('t', 3, 'b')`, then `getNextIndex('t')` returns 1, an index already in use | return one past the highest stored index for the tool (4 here), as the interface's "next available index" says | high (not executed) | ArtifactStorage.InMemoryArtifactStorage.GetNextIndex | ArtifactStorage.InMemoryArtifactStorage.GetNextIndexIntended |
