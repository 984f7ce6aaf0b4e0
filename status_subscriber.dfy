/** `AgentStatusSubscriber`: turns agent events into status records and
    appends them to the run's stored aggregate.

    Every handler first applies the run gate (`checkLogEvent`: the event has
    a thread id) and then, per record, the agent's allow-list gate
    (`checkLogEventType`). The records one handler emits are described by a
    function of the event and the clock readings; the handler is proved to
    append exactly those, in that order, to the run keyed by the thread id.

    Events are plain values holding what the handlers read from them. The
    time service is replaced by clock readings passed in as parameters; the
    AI provider, the function-call plugin manager and the tool contexts are
    replaced by the values they would return. */
module StatusSubscriber {
  import opened PhpValues
  import IT = ItemTypes
  import opened UpdateItems
  import opened TempStatusStorage

  /** What the handlers read from the agent: its entity label, its
      detailed progress tracking list, and for provider requests the
      provider plugin id, model name and configuration. */
  datatype Agent = Agent(
    entityLabel: string,
    detailedTracking: seq<IT.ItemType>,
    providerId: string,
    modelName: string,
    configuration: PhpArray)

  /** The fields every status event carries (`AgentStatusBase` plus the
      agent, agent id and runner id each event class adds). */
  datatype EventBase = EventBase(
    agent: Agent,
    agentId: string,
    agentRunnerId: string,
    threadId: Option<string>,
    callerId: Option<string>)

  datatype StartedEvent = StartedEvent(base: EventBase, loopCount: int)

  datatype FinishedEvent = FinishedEvent(base: EventBase)

  /** A request event; `chatHistory` holds each message's array form and
      `chatInput` the chat input's. */
  datatype RequestEvent = RequestEvent(
    base: EventBase,
    loopCount: int,
    chatHistory: seq<PhpArray>,
    systemPrompt: string,
    chatInput: PhpArray)

  /** A tool the provider selected: the function name and arguments of its
      render array, its tool id, and the `feedback_message` of the
      function-call plugin definition that name resolves to. */
  datatype ToolChoice = ToolChoice(
    name: Option<string>,
    arguments: Option<string>,
    toolId: Option<string>,
    pluginFeedback: Option<string>)

  /** A response event; `response` is the response's array form, `text`
      the normalized text and `tools` the normalized tool list, whose
      entries may be NULL. */
  datatype ResponseEvent = ResponseEvent(
    base: EventBase,
    loopCount: int,
    response: PhpArray,
    text: Option<string>,
    tools: seq<Option<ToolChoice>>)

  /** A tool event (`AgentToolBase`): the tool's function name, its
      contexts already encoded as JSON text, its readable output, its tools
      id, and the event's progress message. */
  datatype ToolEvent = ToolEvent(
    base: EventBase,
    functionName: string,
    encodedInput: string,
    readableOutput: Option<string>,
    toolsId: Option<string>,
    progressMessage: Option<string>)

  // ---------------------------------------------------------------------
  // Gates.

  /** `checkLogEvent()`: only events of a thread are logged. */
  predicate CheckLogEvent(b: EventBase) {
    b.threadId.Some?
  }

  /** `checkLogEventType()`: an empty tracking list admits every kind,
      otherwise exactly the listed ones. */
  predicate CheckLogEventType(b: EventBase, t: IT.ItemType) {
    |b.agent.detailedTracking| == 0 || t in b.agent.detailedTracking
  }

  /** The kind a handler checks before emitting a record of kind `k`. */
  function GateKind(k: IT.ItemType): IT.ItemType {
    match k
    case ProviderRequest => IT.Request
    case ProviderResponse => IT.Response
    case _ => k
  }

  /** `$value ?? ''`. */
  function OrEmpty(s: Option<string>): string {
    match s
    case None => ""
    case Some(x) => x
  }

  /** The envelope every handler fills from the event. */
  function Env(b: EventBase, time: real): Envelope {
    Envelope(time, b.agentId, b.agent.entityLabel, b.agentRunnerId, b.callerId)
  }

  function Only(c: bool, r: Record): seq<Record> {
    if c then [r] else []
  }

  function Kinds(recs: seq<Record>): (ks: seq<IT.ItemType>)
    ensures |ks| == |recs|
    ensures forall i :: 0 <= i < |recs| ==> ks[i] == Kind(recs[i].body)
  {
    seq(|recs|, i requires 0 <= i < |recs| => Kind(recs[i].body))
  }

  // ---------------------------------------------------------------------
  // What each handler emits.

  /** `onAgentStartedExecution()`: a Started record at loop 0 (clock read
      `t1`), then an Iteration record at every loop (clock read `t2`). */
  function StartedRecords(e: StartedEvent, t1: real, t2: real): seq<Record> {
    Only(e.loopCount == 0 && CheckLogEventType(e.base, IT.Started),
         Record(Env(e.base, t1), AiAgentStartedExecution))
    + Only(CheckLogEventType(e.base, IT.Iteration),
           Record(Env(e.base, t2), AiAgentIterationExecution(e.loopCount)))
  }

  /** The started handler opens the run only for a root agent's first
      loop, and only when it is allowed to log the Started record. */
  predicate StartsRun(e: StartedEvent) {
    e.loopCount == 0 && CheckLogEventType(e.base, IT.Started) && e.base.callerId.None?
  }

  function FinishedRecords(e: FinishedEvent, now: real): seq<Record> {
    Only(CheckLogEventType(e.base, IT.Finished), Record(Env(e.base, now), AiAgentFinishedExecution))
  }

  /** `onAgentRequestExecution()`: chat history, system message, then the
      provider request, all stamped with one clock read. */
  function RequestRecords(e: RequestEvent, now: real): seq<Record> {
    var env := Env(e.base, now);
    var agent := e.base.agent;
    Only(CheckLogEventType(e.base, IT.ChatHistory),
         Record(env, AiAgentChatHistory(e.loopCount, List(e.chatHistory))))
    + Only(CheckLogEventType(e.base, IT.SystemMessage),
           Record(env, SystemMessage(e.loopCount, e.systemPrompt)))
    + Only(CheckLogEventType(e.base, IT.Request),
           Record(env, AiProviderRequest(e.loopCount, e.chatInput, agent.providerId,
                                         agent.modelName, agent.configuration)))
  }

  /** The ToolSelected record for one selected tool. */
  function SelectedTool(b: EventBase, now: real, c: ToolChoice): Record {
    Record(Env(b, now), ToolSelected(ToolCall(OrEmpty(c.toolId), OrEmpty(c.name),
                                              OrEmpty(c.arguments), OrEmpty(c.pluginFeedback))))
  }

  /** One ToolSelected record per non-NULL tool, in order. */
  function SelectedTools(b: EventBase, now: real, tools: seq<Option<ToolChoice>>): seq<Record>
    decreases |tools|
  {
    if tools == [] then []
    else
      SelectedTools(b, now, tools[..|tools| - 1])
      + match tools[|tools| - 1]
        case None => []
        case Some(c) => [SelectedTool(b, now, c)]
  }

  /** How many of the selected tools are not NULL. */
  function SomeCount(tools: seq<Option<ToolChoice>>): nat
    decreases |tools|
  {
    if tools == [] then 0
    else SomeCount(tools[..|tools| - 1]) + (if tools[|tools| - 1].Some? then 1 else 0)
  }

  /** `onAgentRespondedExecution()`: the provider response, the generated
      text when there is one, then the selected tools; one clock read. */
  function ResponseRecords(e: ResponseEvent, now: real): seq<Record> {
    var env := Env(e.base, now);
    Only(CheckLogEventType(e.base, IT.Response), Record(env, AiProviderResponse(e.loopCount, e.response)))
    + (if e.text.Some? && CheckLogEventType(e.base, IT.TextGenerated)
       then [Record(env, TextGenerated(e.loopCount, e.text.value))] else [])
    + (if |e.tools| > 0 && CheckLogEventType(e.base, IT.ToolSelected)
       then SelectedTools(e.base, now, e.tools) else [])
  }

  /** The tool fields both tool handlers fill from the event. */
  function EventToolCall(e: ToolEvent): ToolCall {
    ToolCall(OrEmpty(e.toolsId), e.functionName, e.encodedInput, OrEmpty(e.progressMessage))
  }

  function ToolFinishedRecords(e: ToolEvent, now: real): seq<Record> {
    Only(CheckLogEventType(e.base, IT.ToolFinished),
         Record(Env(e.base, now), ToolFinishedExecution(EventToolCall(e), OrEmpty(e.readableOutput))))
  }

  function ToolStartedRecords(e: ToolEvent, now: real): seq<Record> {
    Only(CheckLogEventType(e.base, IT.ToolStarted),
         Record(Env(e.base, now), ToolStartedExecution(EventToolCall(e))))
  }

  // ---------------------------------------------------------------------
  // What storing records one after another does to the runs.

  /** The runs after `storeStatusUpdateItem` is called for each record in
      turn: a run never started makes the first call throw, so nothing is
      stored; otherwise all records are appended in order. */
  function StoreAll(runs: map<string, seq<Record>>, key: string, recs: seq<Record>)
    : (Outcome, map<string, seq<Record>>)
  {
    if recs == [] then (Pass, runs)
    else if key !in runs then (Fail(NotStarted), runs)
    else (Pass, runs[key := runs[key] + recs])
  }

  /** Storing `a` then `b` is storing `a + b`, stopping at the first error. */
  lemma StoreAllSplit(runs: map<string, seq<Record>>, key: string, a: seq<Record>, b: seq<Record>)
    ensures StoreAll(runs, key, a).0.Fail? ==> StoreAll(runs, key, a + b) == StoreAll(runs, key, a)
    ensures StoreAll(runs, key, a).0.Pass? ==>
              StoreAll(runs, key, a + b) == StoreAll(StoreAll(runs, key, a).1, key, b)
  {
    if a == [] {
      assert a + b == b;
    } else if key in runs {
      var after := runs[key := runs[key] + a];
      if b == [] {
        assert a + b == a;
      } else {
        assert after[key] + b == runs[key] + (a + b);
        assert after[key := after[key] + b] == runs[key := runs[key] + (a + b)];
      }
    }
  }

  /** The run entry after the started handler, given whether a session is
      started. */
  function StartedEffect(sessionStarted: bool, runs: map<string, seq<Record>>,
                         e: StartedEvent, t1: real, t2: real): (Outcome, map<string, seq<Record>>)
    requires CheckLogEvent(e.base)
  {
    var key := TempStoreKey(e.base.threadId.value);
    if !StartsRun(e) then StoreAll(runs, key, StartedRecords(e, t1, t2))
    else if !sessionStarted then (Fail(NoSession), runs)
    else StoreAll(runs[key := []], key, StartedRecords(e, t1, t2))
  }

  /** One `storeStatusUpdateItem` call extends what has been stored so far. */
  lemma StoreStep(runs0: map<string, seq<Record>>, runs: map<string, seq<Record>>, key: string,
                  done: seq<Record>, r: Record, o: Outcome, runs': map<string, seq<Record>>)
    requires StoreAll(runs0, key, done) == (Pass, runs)
    requires key !in runs ==> o == Fail(NotStarted) && runs' == runs
    requires key in runs ==> o == Pass && runs' == runs[key := runs[key] + [r]]
    ensures StoreAll(runs0, key, done + [r]) == (o, runs')
  {
    if done == [] {
      assert done + [r] == [r];
    } else {
      assert key in runs0 && runs == runs0[key := runs0[key] + done];
      assert runs[key] + [r] == runs0[key] + (done + [r]);
      assert runs[key := runs[key] + [r]] == runs0[key := runs0[key] + (done + [r])];
    }
  }

  /** A failed store is the end: nothing later changes the outcome. */
  lemma StoreFailSticks(runs0: map<string, seq<Record>>, key: string, done: seq<Record>, rest: seq<Record>)
    requires StoreAll(runs0, key, done).0.Fail?
    ensures StoreAll(runs0, key, done + rest) == StoreAll(runs0, key, done)
  {
  }

  // ---------------------------------------------------------------------
  // Properties of what the handlers emit.

  /** One ToolSelected record per non-NULL tool, each built from that tool. */
  lemma {:induction false} SelectedToolsSkipNull(b: EventBase, now: real, tools: seq<Option<ToolChoice>>)
    ensures forall r :: r in SelectedTools(b, now, tools) ==>
              r.env == Env(b, now) && r.body.ToolSelected?
    ensures forall c :: Some(c) in tools ==> SelectedTool(b, now, c) in SelectedTools(b, now, tools)
    ensures |SelectedTools(b, now, tools)| <= |tools|
    ensures (forall i :: 0 <= i < |tools| ==> tools[i].None?) <==> SelectedTools(b, now, tools) == []
    decreases |tools|
  {
    if tools != [] {
      var init := tools[..|tools| - 1];
      SelectedToolsSkipNull(b, now, init);
      assert tools == init + [tools[|tools| - 1]];
      forall c | Some(c) in tools
        ensures SelectedTool(b, now, c) in SelectedTools(b, now, tools)
      {
        if Some(c) in init {
        } else {
          assert tools[|tools| - 1] == Some(c);
        }
      }
      if forall i :: 0 <= i < |tools| ==> tools[i].None? {
        assert forall i :: 0 <= i < |init| ==> init[i] == tools[i];
      }
      if SelectedTools(b, now, tools) == [] {
        forall i | 0 <= i < |tools|
          ensures tools[i].None?
        {
          if i < |init| {
            assert init[i] == tools[i];
          }
        }
      }
    }
  }

  /** Every record a handler emits is stamped with the event's fields and
      with that handler's one clock reading. */
  lemma SharedTimestamp(req: RequestEvent, resp: ResponseEvent, now: real)
    ensures forall r :: r in RequestRecords(req, now) ==> r.env == Env(req.base, now)
    ensures forall r :: r in ResponseRecords(resp, now) ==> r.env == Env(resp.base, now)
  {
    SelectedToolsSkipNull(resp.base, now, resp.tools);
  }

  /** Every record in `recs` passes the allow-list check its handler makes
      for it: the kind itself, except that the provider request is checked
      as `Request` and the provider response as `Response`. */
  predicate Admitted(b: EventBase, recs: seq<Record>) {
    forall r :: r in recs ==> CheckLogEventType(b, GateKind(Kind(r.body)))
  }

  lemma AdmittedConcat(b: EventBase, xs: seq<Record>, ys: seq<Record>)
    requires Admitted(b, xs) && Admitted(b, ys)
    ensures Admitted(b, xs + ys)
  {
  }

  /** The selected-tool records pass the `ToolSelected` check. */
  lemma {:induction false} SelectedToolsKind(b: EventBase, now: real, tools: seq<Option<ToolChoice>>)
    ensures forall r :: r in SelectedTools(b, now, tools) ==> Kind(r.body) == IT.ToolSelected
    decreases |tools|
  {
    if tools != [] {
      SelectedToolsKind(b, now, tools[..|tools| - 1]);
    }
  }

  /** The selected-tool records are exactly one ToolSelected per non-NULL
      tool. */
  lemma {:induction false} SelectedToolsKinds(b: EventBase, now: real, tools: seq<Option<ToolChoice>>)
    ensures Kinds(SelectedTools(b, now, tools)) == seq(SomeCount(tools), _ => IT.ToolSelected)
    decreases |tools|
  {
    if tools != [] {
      var init := tools[..|tools| - 1];
      SelectedToolsKinds(b, now, init);
      var ks := Kinds(SelectedTools(b, now, tools));
      assert ks == Kinds(SelectedTools(b, now, init))
                   + Kinds(match tools[|tools| - 1]
                           case None => []
                           case Some(c) => [SelectedTool(b, now, c)]);
    }
  }

  /** No handler emits a record its allow-list check did not admit. */
  lemma EmittedKindsAreAdmitted(s: StartedEvent, t1: real, t2: real, f: FinishedEvent,
                                tool: ToolEvent, now: real)
    ensures Admitted(s.base, StartedRecords(s, t1, t2))
    ensures Admitted(f.base, FinishedRecords(f, now))
    ensures Admitted(tool.base, ToolStartedRecords(tool, now))
    ensures Admitted(tool.base, ToolFinishedRecords(tool, now))
  {
  }

  lemma RequestKindsAreAdmitted(req: RequestEvent, now: real)
    ensures Admitted(req.base, RequestRecords(req, now))
  {
  }

  lemma ResponseKindsAreAdmitted(resp: ResponseEvent, now: real)
    ensures Admitted(resp.base, ResponseRecords(resp, now))
  {
    var env := Env(resp.base, now);
    var x := Only(CheckLogEventType(resp.base, IT.Response), Record(env, AiProviderResponse(resp.loopCount, resp.response)));
    var y := if resp.text.Some? && CheckLogEventType(resp.base, IT.TextGenerated)
             then [Record(env, TextGenerated(resp.loopCount, resp.text.value))] else [];
    var z := if |resp.tools| > 0 && CheckLogEventType(resp.base, IT.ToolSelected)
             then SelectedTools(resp.base, now, resp.tools) else [];
    SelectedToolsKind(resp.base, now, resp.tools);
    assert Admitted(resp.base, z);
    AdmittedConcat(resp.base, x, y);
    AdmittedConcat(resp.base, x + y, z);
  }

  /** With an empty tracking list every handler emits its full sequence,
      in the fixed order: the response handler the provider response, the
      generated text when there is some, and one ToolSelected per non-NULL
      tool. */
  lemma EmptyTrackingEmitsAll(s: StartedEvent, t1: real, t2: real, req: RequestEvent,
                              resp: ResponseEvent, tool: ToolEvent, now: real)
    requires s.base.agent.detailedTracking == [] && req.base.agent.detailedTracking == []
    requires resp.base.agent.detailedTracking == [] && tool.base.agent.detailedTracking == []
    ensures Kinds(StartedRecords(s, t1, t2))
            == (if s.loopCount == 0 then [IT.Started, IT.Iteration] else [IT.Iteration])
    ensures Kinds(RequestRecords(req, now)) == [IT.ChatHistory, IT.SystemMessage, IT.ProviderRequest]
    ensures Kinds(ResponseRecords(resp, now))
            == [IT.ProviderResponse] + (if resp.text.Some? then [IT.TextGenerated] else [])
               + seq(SomeCount(resp.tools), _ => IT.ToolSelected)
    ensures Kinds(ToolStartedRecords(tool, now)) == [IT.ToolStarted]
    ensures Kinds(ToolFinishedRecords(tool, now)) == [IT.ToolFinished]
  {
    var env := Env(resp.base, now);
    var x := [Record(env, AiProviderResponse(resp.loopCount, resp.response))];
    var y := if resp.text.Some? then [Record(env, TextGenerated(resp.loopCount, resp.text.value))] else [];
    var z := SelectedTools(resp.base, now, resp.tools);
    SelectedToolsKinds(resp.base, now, resp.tools);
    if resp.tools == [] {
      assert z == [];
    }
    assert ResponseRecords(resp, now) == x + y + z;
    assert Kinds(x + y + z) == Kinds(x) + Kinds(y) + Kinds(z);
  }

  /** The provider request is logged exactly when `Request` is admitted;
      listing `ProviderRequest` alone does not log it. */
  lemma ProviderRequestGatedByRequest(e: RequestEvent, now: real)
    ensures (exists r :: r in RequestRecords(e, now) && r.body.AiProviderRequest?)
            <==> CheckLogEventType(e.base, IT.Request)
    ensures e.base.agent.detailedTracking == [IT.ProviderRequest] ==> RequestRecords(e, now) == []
  {
    var recs := RequestRecords(e, now);
    if CheckLogEventType(e.base, IT.Request) {
      assert recs[|recs| - 1].body.AiProviderRequest?;
    }
  }

  /** The provider response is logged exactly when `Response` is
      admitted; listing `ProviderResponse` alone does not log it. */
  lemma ProviderResponseGatedByResponse(e: ResponseEvent, now: real)
    ensures (exists r :: r in ResponseRecords(e, now) && r.body.AiProviderResponse?)
            <==> CheckLogEventType(e.base, IT.Response)
    ensures e.base.agent.detailedTracking == [IT.ProviderResponse] ==> ResponseRecords(e, now) == []
  {
    SelectedToolsSkipNull(e.base, now, e.tools);
    var recs := ResponseRecords(e, now);
    if CheckLogEventType(e.base, IT.Response) {
      assert recs[0].body.AiProviderResponse?;
    }
  }

  /** The Iteration record comes at every loop, loop 0 included, after the
      Started record when there is one. */
  lemma IterationAtEveryLoop(e: StartedEvent, t1: real, t2: real)
    requires CheckLogEventType(e.base, IT.Iteration)
    ensures var recs := StartedRecords(e, t1, t2);
            && recs[|recs| - 1] == Record(Env(e.base, t2), AiAgentIterationExecution(e.loopCount))
            && (|recs| == 2 <==> e.loopCount == 0 && CheckLogEventType(e.base, IT.Started))
  {
  }

  /** A root start replaces any earlier run under the same thread id with
      just this event's records; any other started event appends. */
  lemma RootStartResetsRun(runs: map<string, seq<Record>>, e: StartedEvent, t1: real, t2: real)
    requires CheckLogEvent(e.base)
    ensures StartsRun(e) ==>
              StartedEffect(true, runs, e, t1, t2)
              == (Pass, runs[TempStoreKey(e.base.threadId.value) := StartedRecords(e, t1, t2)])
    ensures !StartsRun(e) ==>
              StartedEffect(true, runs, e, t1, t2)
              == StoreAll(runs, TempStoreKey(e.base.threadId.value), StartedRecords(e, t1, t2))
  {
    var key := TempStoreKey(e.base.threadId.value);
    if StartsRun(e) {
      var recs := StartedRecords(e, t1, t2);
      assert recs != [] && [] + recs == recs;
      assert runs[key := []][key := [] + recs] == runs[key := recs];
    }
  }

  /** The tool handlers fall back to "" for a missing tools id, readable
      output or progress message. */
  lemma ToolFieldDefaults(e: ToolEvent, now: real)
    requires CheckLogEventType(e.base, IT.ToolFinished)
    ensures |ToolFinishedRecords(e, now)| == 1
    ensures var body := ToolFinishedRecords(e, now)[0].body;
            && (e.toolsId.None? ==> body.tool.toolId == "")
            && (e.readableOutput.None? ==> body.toolResults == "")
            && (e.progressMessage.None? ==> body.tool.toolFeedbackMessage == "")
            && body.tool.toolName == e.functionName && body.tool.toolInput == e.encodedInput
  {
  }

  // ---------------------------------------------------------------------
  // The subscriber.

  class AgentStatusSubscriber {
    const statusStorage: PrivateTempStatusStorage

    constructor (statusStorage: PrivateTempStatusStorage)
      ensures this.statusStorage == statusStorage
    {
      this.statusStorage := statusStorage;
    }

    /** `storeStatusUpdateItem()` for the handler's run, with the record
        appended to what the handler has stored so far. */
    method Store(id: string, r: Record, ghost runs0: map<string, seq<Record>>, ghost done: seq<Record>)
      returns (o: Outcome)
      requires statusStorage.Valid()
      requires StoreAll(runs0, TempStoreKey(id), done) == (Pass, statusStorage.runs)
      modifies statusStorage
      ensures statusStorage.Valid() && statusStorage.sessionStarted == old(statusStorage.sessionStarted)
      ensures StoreAll(runs0, TempStoreKey(id), done + [r]) == (o, statusStorage.runs)
    {
      ghost var before := statusStorage.runs;
      o := statusStorage.StoreStatusUpdateItem(id, r);
      StoreStep(runs0, before, TempStoreKey(id), done, r, o, statusStorage.runs);
    }

    method OnAgentStartedExecution(e: StartedEvent, t1: real, t2: real) returns (o: Outcome)
      requires statusStorage.Valid()
      modifies statusStorage
      ensures statusStorage.Valid() && statusStorage.sessionStarted == old(statusStorage.sessionStarted)
      ensures !CheckLogEvent(e.base) ==> o == Pass && statusStorage.runs == old(statusStorage.runs)
      ensures CheckLogEvent(e.base) ==>
                (o, statusStorage.runs)
                == StartedEffect(old(statusStorage.sessionStarted), old(statusStorage.runs), e, t1, t2)
    {
      if !CheckLogEvent(e.base) {
        return Pass;
      }
      var b := e.base;
      var id := b.threadId.value;
      ghost var key := TempStoreKey(id);
      ghost var runs0 := statusStorage.runs;
      ghost var recs := StartedRecords(e, t1, t2);
      ghost var done: seq<Record> := [];
      if e.loopCount == 0 && CheckLogEventType(b, IT.Started) {
        if b.callerId.None? {
          var started := statusStorage.StartStatusUpdate(id);
          if started.Failure? {
            return Fail(started.error);
          }
          runs0 := statusStorage.runs;
        }
        assert StartedEffect(old(statusStorage.sessionStarted), old(statusStorage.runs), e, t1, t2)
               == StoreAll(runs0, key, recs);
        var r := Record(Env(b, t1), AiAgentStartedExecution);
        o := Store(id, r, runs0, done);
        done := done + [r];
        assert recs == done + recs[1..];
        if o.Fail? {
          StoreFailSticks(runs0, key, done, recs[1..]);
          return;
        }
      } else {
        assert StartedEffect(old(statusStorage.sessionStarted), old(statusStorage.runs), e, t1, t2)
               == StoreAll(runs0, key, recs);
      }
      o := Pass;
      if CheckLogEventType(b, IT.Iteration) {
        var r := Record(Env(b, t2), AiAgentIterationExecution(e.loopCount));
        o := Store(id, r, runs0, done);
        done := done + [r];
      }
      assert done == recs;
    }

    method OnAgentFinishedExecution(e: FinishedEvent, now: real) returns (o: Outcome)
      requires statusStorage.Valid()
      modifies statusStorage
      ensures statusStorage.Valid() && statusStorage.sessionStarted == old(statusStorage.sessionStarted)
      ensures !CheckLogEvent(e.base) ==> o == Pass && statusStorage.runs == old(statusStorage.runs)
      ensures CheckLogEvent(e.base) ==>
                (o, statusStorage.runs)
                == StoreAll(old(statusStorage.runs), TempStoreKey(e.base.threadId.value), FinishedRecords(e, now))
    {
      if !CheckLogEvent(e.base) {
        return Pass;
      }
      if !CheckLogEventType(e.base, IT.Finished) {
        return Pass;
      }
      var r := Record(Env(e.base, now), AiAgentFinishedExecution);
      assert [] + [r] == [r] == FinishedRecords(e, now);
      o := Store(e.base.threadId.value, r, statusStorage.runs, []);
    }

    method OnAgentRequestExecution(e: RequestEvent, now: real) returns (o: Outcome)
      requires statusStorage.Valid()
      modifies statusStorage
      ensures statusStorage.Valid() && statusStorage.sessionStarted == old(statusStorage.sessionStarted)
      ensures !CheckLogEvent(e.base) ==> o == Pass && statusStorage.runs == old(statusStorage.runs)
      ensures CheckLogEvent(e.base) ==>
                (o, statusStorage.runs)
                == StoreAll(old(statusStorage.runs), TempStoreKey(e.base.threadId.value), RequestRecords(e, now))
    {
      if !CheckLogEvent(e.base) {
        return Pass;
      }
      var b := e.base;
      var id := b.threadId.value;
      ghost var key := TempStoreKey(id);
      ghost var runs0 := statusStorage.runs;
      ghost var env := Env(b, now);
      ghost var x := Only(CheckLogEventType(b, IT.ChatHistory),
                          Record(env, AiAgentChatHistory(e.loopCount, List(e.chatHistory))));
      ghost var y := Only(CheckLogEventType(b, IT.SystemMessage),
                          Record(env, SystemMessage(e.loopCount, e.systemPrompt)));
      ghost var z := Only(CheckLogEventType(b, IT.Request),
                          Record(env, AiProviderRequest(e.loopCount, e.chatInput, b.agent.providerId,
                                                        b.agent.modelName, b.agent.configuration)));
      ghost var all := x + y + z;
      assert all == RequestRecords(e, now);
      // The event already holds each message's `toArray()` form, so the
      // source's conversion loop is the list itself.
      var chatHistory: seq<Value> := e.chatHistory;
      ghost var done: seq<Record> := [];
      o := Pass;
      if CheckLogEventType(b, IT.ChatHistory) {
        var r := Record(Env(b, now), AiAgentChatHistory(e.loopCount, List(chatHistory)));
        o := Store(id, r, runs0, done);
        done := done + [r];
        if o.Fail? {
          assert done == x && all == done + (y + z);
          StoreFailSticks(runs0, key, done, y + z);
          return;
        }
      }
      assert done == x;
      if CheckLogEventType(b, IT.SystemMessage) {
        var r := Record(Env(b, now), SystemMessage(e.loopCount, e.systemPrompt));
        o := Store(id, r, runs0, done);
        done := done + [r];
        if o.Fail? {
          assert done == x + y && all == done + z;
          StoreFailSticks(runs0, key, done, z);
          return;
        }
      }
      assert done == x + y;
      if CheckLogEventType(b, IT.Request) {
        var agent := b.agent;
        var r := Record(Env(b, now), AiProviderRequest(e.loopCount, e.chatInput, agent.providerId,
                                                       agent.modelName, agent.configuration));
        o := Store(id, r, runs0, done);
        done := done + [r];
      }
      assert done == all;
    }

    method OnAgentRespondedExecution(e: ResponseEvent, now: real) returns (o: Outcome)
      requires statusStorage.Valid()
      modifies statusStorage
      ensures statusStorage.Valid() && statusStorage.sessionStarted == old(statusStorage.sessionStarted)
      ensures !CheckLogEvent(e.base) ==> o == Pass && statusStorage.runs == old(statusStorage.runs)
      ensures CheckLogEvent(e.base) ==>
                (o, statusStorage.runs)
                == StoreAll(old(statusStorage.runs), TempStoreKey(e.base.threadId.value), ResponseRecords(e, now))
    {
      if !CheckLogEvent(e.base) {
        return Pass;
      }
      var b := e.base;
      var id := b.threadId.value;
      ghost var key := TempStoreKey(id);
      ghost var runs0 := statusStorage.runs;
      ghost var env := Env(b, now);
      ghost var x := Only(CheckLogEventType(b, IT.Response), Record(env, AiProviderResponse(e.loopCount, e.response)));
      ghost var y := if e.text.Some? && CheckLogEventType(b, IT.TextGenerated)
                     then [Record(env, TextGenerated(e.loopCount, e.text.value))] else [];
      ghost var tail := if |e.tools| > 0 && CheckLogEventType(b, IT.ToolSelected)
                        then SelectedTools(b, now, e.tools) else [];
      ghost var all := x + y + tail;
      assert all == ResponseRecords(e, now);
      ghost var done: seq<Record> := [];
      o := Pass;
      if CheckLogEventType(b, IT.Response) {
        var r := Record(Env(b, now), AiProviderResponse(e.loopCount, e.response));
        o := Store(id, r, runs0, done);
        done := done + [r];
        if o.Fail? {
          assert done == x && all == done + (y + tail);
          StoreFailSticks(runs0, key, done, y + tail);
          return;
        }
      }
      assert done == x;
      if e.text.Some? && CheckLogEventType(b, IT.TextGenerated) {
        var r := Record(Env(b, now), TextGenerated(e.loopCount, e.text.value));
        o := Store(id, r, runs0, done);
        done := done + [r];
        if o.Fail? {
          assert done == x + y && all == done + tail;
          StoreFailSticks(runs0, key, done, tail);
          return;
        }
      }
      assert done == x + y;
      if |e.tools| > 0 && CheckLogEventType(b, IT.ToolSelected) {
        o := StoreSelectedTools(b, id, now, e.tools, runs0, done);
      } else {
        assert done == all;
      }
    }

    /** The response handler's loop over the selected tools: one record per
        non-NULL tool, in order, until a store is refused. */
    method StoreSelectedTools(b: EventBase, id: string, now: real, tools: seq<Option<ToolChoice>>,
                              ghost runs0: map<string, seq<Record>>, ghost head: seq<Record>)
      returns (o: Outcome)
      requires statusStorage.Valid()
      requires StoreAll(runs0, TempStoreKey(id), head) == (Pass, statusStorage.runs)
      modifies statusStorage
      ensures statusStorage.Valid() && statusStorage.sessionStarted == old(statusStorage.sessionStarted)
      ensures (o, statusStorage.runs) == StoreAll(runs0, TempStoreKey(id), head + SelectedTools(b, now, tools))
    {
      ghost var key := TempStoreKey(id);
      ghost var done := head;
      o := Pass;
      var i := 0;
      while i < |tools|
        invariant 0 <= i <= |tools|
        invariant statusStorage.Valid()
        invariant statusStorage.sessionStarted == old(statusStorage.sessionStarted)
        invariant done == head + SelectedTools(b, now, tools[..i])
        invariant StoreAll(runs0, key, done) == (Pass, statusStorage.runs) && o == Pass
      {
        SelectedToolsStep(b, now, tools, i);
        match tools[i] {
          case None =>
          case Some(c) =>
            var r := SelectedTool(b, now, c);
            o := Store(id, r, runs0, done);
            assert done + [r] == head + SelectedTools(b, now, tools[..i + 1]);
            done := done + [r];
            if o.Fail? {
              // Only a run never started refuses a record, and then
              // nothing was stored before this one.
              assert key !in runs0 && statusStorage.runs == runs0;
              assert SelectedTool(b, now, c) in SelectedTools(b, now, tools) by {
                assert tools[i] == Some(c);
                SelectedToolsSkipNull(b, now, tools);
              }
              return;
            }
        }
        i := i + 1;
      }
      assert tools[..i] == tools;
    }

    method OnAgentToolFinishedExecution(e: ToolEvent, now: real) returns (o: Outcome)
      requires statusStorage.Valid()
      modifies statusStorage
      ensures statusStorage.Valid() && statusStorage.sessionStarted == old(statusStorage.sessionStarted)
      ensures !CheckLogEvent(e.base) ==> o == Pass && statusStorage.runs == old(statusStorage.runs)
      ensures CheckLogEvent(e.base) ==>
                (o, statusStorage.runs)
                == StoreAll(old(statusStorage.runs), TempStoreKey(e.base.threadId.value), ToolFinishedRecords(e, now))
    {
      if !CheckLogEvent(e.base) {
        return Pass;
      }
      if !CheckLogEventType(e.base, IT.ToolFinished) {
        return Pass;
      }
      var r := Record(Env(e.base, now), ToolFinishedExecution(EventToolCall(e), OrEmpty(e.readableOutput)));
      assert [] + [r] == [r] == ToolFinishedRecords(e, now);
      o := Store(e.base.threadId.value, r, statusStorage.runs, []);
    }

    method OnAgentPreToolExecuteEvent(e: ToolEvent, now: real) returns (o: Outcome)
      requires statusStorage.Valid()
      modifies statusStorage
      ensures statusStorage.Valid() && statusStorage.sessionStarted == old(statusStorage.sessionStarted)
      ensures !CheckLogEvent(e.base) ==> o == Pass && statusStorage.runs == old(statusStorage.runs)
      ensures CheckLogEvent(e.base) ==>
                (o, statusStorage.runs)
                == StoreAll(old(statusStorage.runs), TempStoreKey(e.base.threadId.value), ToolStartedRecords(e, now))
    {
      if !CheckLogEvent(e.base) {
        return Pass;
      }
      if !CheckLogEventType(e.base, IT.ToolStarted) {
        return Pass;
      }
      var r := Record(Env(e.base, now), ToolStartedExecution(EventToolCall(e)));
      assert [] + [r] == [r] == ToolStartedRecords(e, now);
      o := Store(e.base.threadId.value, r, statusStorage.runs, []);
    }
  }

  /** One more tool adds its record, or nothing for a NULL entry. */
  lemma SelectedToolsStep(b: EventBase, now: real, tools: seq<Option<ToolChoice>>, i: int)
    requires 0 <= i < |tools|
    ensures SelectedTools(b, now, tools[..i + 1])
            == SelectedTools(b, now, tools[..i])
               + (if tools[i].Some? then [SelectedTool(b, now, tools[i].value)] else [])
  {
    assert tools[..i + 1][..i] == tools[..i];
  }

  /** The selected-tool records of two consecutive tool lists are those of
      the whole list. */
  lemma {:induction false} SelectedToolsAppend(b: EventBase, now: real,
                                               xs: seq<Option<ToolChoice>>, ys: seq<Option<ToolChoice>>)
    ensures SelectedTools(b, now, xs + ys) == SelectedTools(b, now, xs) + SelectedTools(b, now, ys)
    decreases |ys|
  {
    if ys == [] {
      assert xs + ys == xs;
    } else {
      var init := ys[..|ys| - 1];
      SelectedToolsAppend(b, now, xs, init);
      assert (xs + ys)[..|xs + ys| - 1] == xs + init;
      assert (xs + ys)[|xs + ys| - 1] == ys[|ys| - 1];
    }
  }

  /** The gates of an agent tracking only its start, its tools and its
      finish. */
  lemma RootRunGates(b: EventBase)
    requires b.agent.detailedTracking == [IT.Started, IT.ToolStarted, IT.ToolFinished, IT.Finished]
    ensures CheckLogEventType(b, IT.Started) && CheckLogEventType(b, IT.ToolStarted)
    ensures CheckLogEventType(b, IT.ToolFinished) && CheckLogEventType(b, IT.Finished)
    ensures !CheckLogEventType(b, IT.Iteration)
  {
    assert b.agent.detailedTracking[0] == IT.Started;
    assert b.agent.detailedTracking[1] == IT.ToolStarted;
    assert b.agent.detailedTracking[2] == IT.ToolFinished;
    assert b.agent.detailedTracking[3] == IT.Finished;
  }

  /** A root agent tracking only its start, its tools and its finish runs
      one tool: its run then holds exactly those four records, in order,
      without the Iteration record its list leaves out. */
  lemma RootRunScenario(agent: Agent, id: string, now: real, runs: map<string, seq<Record>>)
    requires agent.detailedTracking == [IT.Started, IT.ToolStarted, IT.ToolFinished, IT.Finished]
    ensures var base := EventBase(agent, "agent", "runner", Some(id), None);
            var tool := ToolEvent(base, "calculator", "{}", None, None, None);
            var key := TempStoreKey(id);
            var (o1, runs1) := StartedEffect(true, runs, StartedEvent(base, 0), now, now);
            var (o2, runs2) := StoreAll(runs1, key, ToolStartedRecords(tool, now));
            var (o3, runs3) := StoreAll(runs2, key, ToolFinishedRecords(tool, now));
            var (o4, runs4) := StoreAll(runs3, key, FinishedRecords(FinishedEvent(base), now));
            && o1 == o2 == o3 == o4 == Pass
            && key in runs4
            && Kinds(runs4[key]) == [IT.Started, IT.ToolStarted, IT.ToolFinished, IT.Finished]
  {
    var base := EventBase(agent, "agent", "runner", Some(id), None);
    var tool := ToolEvent(base, "calculator", "{}", None, None, None);
    var key := TempStoreKey(id);
    var started := StartedEvent(base, 0);
    var r1 := Record(Env(base, now), AiAgentStartedExecution);
    var r2 := Record(Env(base, now), ToolStartedExecution(EventToolCall(tool)));
    var r3 := Record(Env(base, now), ToolFinishedExecution(EventToolCall(tool), ""));
    var r4 := Record(Env(base, now), AiAgentFinishedExecution);
    RootRunGates(base);
    assert StartedRecords(started, now, now) == [r1];
    RootStartResetsRun(runs, started, now, now);
    var runs1 := StartedEffect(true, runs, started, now, now).1;
    assert key in runs1 && runs1[key] == [r1];
    assert ToolStartedRecords(tool, now) == [r2];
    var runs2 := StoreAll(runs1, key, [r2]).1;
    assert key in runs2 && runs2[key] == [r1, r2];
    assert ToolFinishedRecords(tool, now) == [r3];
    var runs3 := StoreAll(runs2, key, [r3]).1;
    assert key in runs3 && runs3[key] == [r1, r2, r3];
    assert FinishedRecords(FinishedEvent(base), now) == [r4];
    var runs4 := StoreAll(runs3, key, [r4]).1;
    assert key in runs4 && runs4[key] == [r1, r2, r3, r4];
  }
}
