/** `PrivateTempStatusStorage`: keeps one serialized aggregate per agent
    run in the private temp store `ai_agents_status_updates`, under the key
    `ai_agents_status_updates_<run id>`.

    The temp store collection is the field `tempStore`, from key to the
    aggregate's array form (the JSON text is taken as a lossless encoding
    of that form). Whether the session manager reports a started session
    is the field `sessionStarted`. The ghost field `runs` holds, per key,
    the records the stored array decodes to. */
module TempStatusStorage {
  import opened PhpValues
  import UI = UpdateItems
  import opened StatusUpdate

  const TempStoreName: string := "ai_agents_status_updates"
  const TempStorePrefix: string := "ai_agents_status_updates_"

  /** `getTempStoreKey()`. */
  function TempStoreKey(id: string): (key: string)
    ensures |key| == |TempStorePrefix| + |id|
    ensures key[..|TempStorePrefix|] == TempStorePrefix && key[|TempStorePrefix|..] == id
  {
    TempStorePrefix + id
  }

  /** Distinct run ids never share a temp store entry. */
  lemma TempStoreKeyInjective(a: string, b: string)
    requires TempStoreKey(a) == TempStoreKey(b)
    ensures a == b
  {
    assert a == TempStoreKey(a)[|TempStorePrefix|..];
  }

  /** Every stored entry is the array of the aggregate of `runs` records. */
  ghost predicate Coherent(store: map<string, Wire>, runs: map<string, seq<UI.Record>>) {
    && store.Keys == runs.Keys
    && forall key :: key in store ==> store[key] == ItemsToWire(runs[key])
  }

  lemma CoherentPut(store: map<string, Wire>, runs: map<string, seq<UI.Record>>,
                    key: string, items: seq<UI.Record>)
    requires Coherent(store, runs)
    ensures Coherent(store[key := ItemsToWire(items)], runs[key := items])
  {
  }

  lemma CoherentRemove(store: map<string, Wire>, runs: map<string, seq<UI.Record>>, key: string)
    requires Coherent(store, runs)
    ensures Coherent(store - {key}, runs - {key})
  {
  }

  /** The middle of `storeStatusUpdateItem()`: rebuild the stored
      aggregate, add the record to it and flatten it again. */
  method AppendItem(stored: Wire, ghost items: seq<UI.Record>, item: UI.Record) returns (data: Wire)
    requires stored == ItemsToWire(items)
    ensures data == ItemsToWire(items + [item])
  {
    AggregateRoundTrip(items);
    var decoded := AiAgentStatusUpdate.FromArray(stored);
    var statusUpdate: AiAgentStatusUpdate;
    match decoded {
      case Failure(e) =>
        assert false;
        return map[];
      case Success(v) =>
        statusUpdate := v;
    }
    statusUpdate.AddItem(item);
    data := statusUpdate.ToArray();
  }

  class PrivateTempStatusStorage {
    var sessionStarted: bool
    var tempStore: map<string, Wire>
    ghost var runs: map<string, seq<UI.Record>>

    ghost predicate Valid()
      reads this
    {
      Coherent(tempStore, runs)
    }

    constructor (sessionStarted: bool)
      ensures Valid()
      ensures this.sessionStarted == sessionStarted && tempStore == map[] && runs == map[]
    {
      this.sessionStarted := sessionStarted;
      tempStore := map[];
      runs := map[];
    }

    /** `startStatusUpdate()`: refuses without a session; otherwise stores
        an empty aggregate for the run, replacing whatever was there. */
    method StartStatusUpdate(id: string) returns (r: Result<bool>)
      requires Valid()
      modifies this
      ensures Valid() && sessionStarted == old(sessionStarted)
      ensures !sessionStarted ==> r == Failure(NoSession) && tempStore == old(tempStore) && runs == old(runs)
      ensures sessionStarted ==> r == Success(true)
                                 && tempStore == old(tempStore)[TempStoreKey(id) := ItemsToWire([])]
                                 && runs == old(runs)[TempStoreKey(id) := []]
    {
      if !sessionStarted {
        return Failure(NoSession);
      }
      var key := TempStoreKey(id);
      var statusUpdate := new AiAgentStatusUpdate();
      var data := statusUpdate.ToArray();
      CoherentPut(tempStore, runs, key, []);
      tempStore := tempStore[key := data];
      runs := runs[key := []];
      r := Success(true);
    }

    /** `storeStatusUpdateItem()`: refuses a run that was never started;
        otherwise appends the record to the run's stored aggregate. */
    method StoreStatusUpdateItem(id: string, item: UI.Record) returns (o: Outcome)
      requires Valid()
      modifies this
      ensures Valid() && sessionStarted == old(sessionStarted)
      ensures TempStoreKey(id) !in old(tempStore) ==>
                o == Fail(NotStarted) && tempStore == old(tempStore) && runs == old(runs)
      ensures TempStoreKey(id) in old(tempStore) ==>
                o == Pass && runs == old(runs)[TempStoreKey(id) := old(runs)[TempStoreKey(id)] + [item]]
      ensures TempStoreKey(id) in old(tempStore) ==> tempStore.Keys == old(tempStore).Keys
    {
      var key := TempStoreKey(id);
      if key !in tempStore {
        return Fail(NotStarted);
      }
      ghost var stored := runs[key];
      var data := AppendItem(tempStore[key], stored, item);
      CoherentPut(tempStore, runs, key, stored + [item]);
      tempStore := tempStore[key := data];
      runs := runs[key := stored + [item]];
      o := Pass;
    }

    /** `loadStatusUpdate()`: a fresh aggregate holding the run's records,
        or nothing when the run has no entry. */
    method LoadStatusUpdate(id: string) returns (r: Option<AiAgentStatusUpdate>)
      requires Valid()
      ensures TempStoreKey(id) !in runs ==> r == None
      ensures TempStoreKey(id) in runs ==>
                r.Some? && fresh(r.value) && r.value.items == runs[TempStoreKey(id)]
    {
      var key := TempStoreKey(id);
      if key !in tempStore {
        return None;
      }
      AggregateRoundTrip(runs[key]);
      var decoded := AiAgentStatusUpdate.FromArray(tempStore[key]);
      if decoded.Failure? {
        assert false;
        return None;
      }
      r := Some(decoded.value);
    }

    /** `deleteStatusUpdate()`: drops the run's entry, if any. */
    method DeleteStatusUpdate(id: string)
      requires Valid()
      modifies this
      ensures Valid() && sessionStarted == old(sessionStarted)
      ensures tempStore == old(tempStore) - {TempStoreKey(id)}
      ensures runs == old(runs) - {TempStoreKey(id)}
    {
      var key := TempStoreKey(id);
      CoherentRemove(tempStore, runs, key);
      tempStore := tempStore - {key};
      runs := runs - {key};
    }
  }
}
