/** `AiAgentStatusPollerService`: what an external caller polls. It never
    fails for an unknown run: it answers with an empty aggregate. */
module StatusPoller {
  import opened PhpValues
  import UI = UpdateItems
  import opened StatusUpdate
  import opened TempStatusStorage

  /** The records a poll of `id` reports: the stored run, or none. */
  ghost function Reported(runs: map<string, seq<UI.Record>>, id: string): seq<UI.Record> {
    if TempStoreKey(id) in runs then runs[TempStoreKey(id)] else []
  }

  class AiAgentStatusPollerService {
    const storage: PrivateTempStatusStorage

    constructor (storage: PrivateTempStatusStorage)
      ensures this.storage == storage
    {
      this.storage := storage;
    }

    /** `getLatestStatusUpdates()`: the loaded aggregate, or a new empty
        one when the storage has nothing for the run. */
    method GetLatestStatusUpdates(uuid: string) returns (u: AiAgentStatusUpdate)
      requires storage.Valid()
      ensures fresh(u)
      ensures u.items == Reported(storage.runs, uuid)
    {
      var loaded := storage.LoadStatusUpdate(uuid);
      match loaded {
        case None =>
          u := new AiAgentStatusUpdate();
        case Some(statusUpdate) =>
          u := statusUpdate;
      }
    }

    /** `deleteStatusUpdate()`: delegates to the storage; afterwards the
        run polls as empty. */
    method DeleteStatusUpdate(uuid: string)
      requires storage.Valid()
      modifies storage
      ensures storage.Valid()
      ensures storage.runs == old(storage.runs) - {TempStoreKey(uuid)}
      ensures Reported(storage.runs, uuid) == []
    {
      storage.DeleteStatusUpdate(uuid);
    }
  }

  /** The poller's kernel test: with a session, a run that was just
      started polls as an empty aggregate, and a run never started polls
      as empty too instead of failing. */
  method StartedRunPollsEmpty(uuid: string, other: string) returns (started: seq<UI.Record>, unknown: seq<UI.Record>)
    requires other != uuid
    ensures started == [] && unknown == []
  {
    var storage := new PrivateTempStatusStorage(true);
    var poller := new AiAgentStatusPollerService(storage);
    var ok := storage.StartStatusUpdate(uuid);
    assert ok == Success(true);
    var status := poller.GetLatestStatusUpdates(uuid);
    started := status.items;
    if TempStoreKey(other) in storage.runs {
      TempStoreKeyInjective(other, uuid);
    }
    var none := poller.GetLatestStatusUpdates(other);
    unknown := none.items;
  }
}
