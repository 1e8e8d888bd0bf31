/** `DroneAgentService` over `JsonTaskStore`: what one payload makes the service do, step by step. A
    crash may come between any two steps; a step on the store is the atomic replacement of its file. */
module TaskServices {
  import opened Wrappers

  datatype Record = Record(mission: string, status: string, code: string)

  /** A payload as `parse_task_assignment` leaves it. */
  datatype Payload = Malformed(code: string) | TaskFor(agent: string, mission: string, id: string)

  /** A snapshot of the state monitor. */
  datatype Snapshot = Snapshot(stale: bool, online: bool, positionValid: bool, hasYaw: bool, batteryValid: bool,
                               ready: bool, batteryOk: bool, armed: bool)

  /** What the executor does: `status` and `code` are those of its result. */
  datatype Execution = Finishes(ok: bool, status: Option<string>, code: string) | Throws

  datatype Message =
    | ProtocolError(code: string)
    | Ignored(id: string)
    | Duplicate(id: string, original: Record)
    | Result(id: string, status: string, code: string)

  datatype Effect =
    | Publish(message: Message)
    | Store(id: string, record: Record)
    | Invoke(id: string)

  datatype Mode = Readonly | DryRun

  datatype Config = Config(agent: string, mode: Mode, hasExecutor: bool)

  /** `_state_rejection`. */
  function StateRejection(s: Snapshot): Option<string> {
    if s.stale then Some("STATE_STALE")
    else if !s.online then Some("DEVICE_OFFLINE")
    else if !s.positionValid then Some("POSITION_INVALID")
    else if !s.hasYaw then Some("YAW_UNAVAILABLE")
    else if !s.batteryValid then Some("BATTERY_INVALID")
    else if !s.ready then Some("TELEMETRY_NOT_READY")
    else if !s.batteryOk then Some("LOW_BATTERY")
    else if s.armed then Some("ALREADY_ARMED")
    else None
  }

  /** Status and code under which a new task is turned down without being executed. */
  function Refusal(cfg: Config, snapshot: Option<Snapshot>): Option<(string, string)> {
    if snapshot.Some? && StateRejection(snapshot.value).Some? then Some(("REJECTED", StateRejection(snapshot.value).value))
    else if cfg.mode == Readonly then Some(("REJECTED", "REAL_CONTROL_DISABLED"))
    else if !cfg.hasExecutor then Some(("FAILED", "EXECUTOR_UNAVAILABLE"))
    else None
  }

  function Report(x: Execution): (string, string) {
    match x
    case Throws => ("FAILED", "UNHANDLED_AGENT_ERROR")
    case Finishes(ok, status, code) =>
      var s := if ok then "COMPLETED" else if status.Some? then status.value else "FAILED";
      (if s in {"COMPLETED", "FAILED", "REJECTED"} then s else "FAILED", code)
  }

  /** The steps taken for a payload, given the records and whether the service is idle. */
  function Handling(cfg: Config, records: map<string, Record>, idle: bool, p: Payload, snapshot: Option<Snapshot>, x: Execution): seq<Effect> {
    match p
    case Malformed(code) => [Publish(ProtocolError(code))]
    case TaskFor(agent, mission, id) =>
      if agent != cfg.agent then [Publish(Ignored(id))]
      else if id in records then [Publish(Duplicate(id, records[id]))]
      else if !idle then [Publish(Result(id, "REJECTED", "BUSY"))]
      else NewTask(mission, id, Refusal(cfg, snapshot), Report(x))
  }

  /** The steps for a task seen for the first time: refused, or executed with the outcome `done`. */
  function NewTask(mission: string, id: string, refused: Option<(string, string)>, done: (string, string)): seq<Effect> {
    var report := if refused.Some? then refused.value else done;
    [Store(id, Record(mission, "RECEIVED", ""))]
    + (if refused.Some? then [] else [Store(id, Record(mission, "IN_PROGRESS", "")), Invoke(id)])
    + [Publish(Result(id, report.0, report.1)), Store(id, Record(mission, report.0, report.1))]
  }

  /** The records after the steps. */
  function Stored(records: map<string, Record>, effects: seq<Effect>): map<string, Record>
    decreases |effects|
  {
    if |effects| == 0 then records
    else Stored(if effects[0].Store? then records[effects[0].id := effects[0].record] else records, effects[1..])
  }

  lemma {:induction false} StoredConcat(records: map<string, Record>, a: seq<Effect>, b: seq<Effect>)
    ensures Stored(records, a + b) == Stored(Stored(records, a), b)
    decreases |a|
  {
    if |a| == 0 {
      assert a + b == b;
    } else {
      assert (a + b)[0] == a[0] && (a + b)[1..] == a[1..] + b;
      StoredConcat(if a[0].Store? then records[a[0].id := a[0].record] else records, a[1..], b);
    }
  }

  /** The store: its map in memory, and the file it replaces. */
  class JsonTaskStore {
    var records: map<string, Record>
    var file: map<string, Record>

    /** Loads the file. */
    constructor (file: map<string, Record>)
      ensures records == file == this.file
    {
      records, this.file := file, file;
    }

    method Get(id: string) returns (r: Option<Record>)
      ensures r == if id in records then Some(records[id]) else None
    {
      r := if id in records then Some(records[id]) else None;
    }

    method Put(id: string, record: Record)
      modifies this
      ensures records == old(records)[id := record] && file == records
    {
      records := records[id := record];
      file := records;
    }
  }

  class DroneAgentService {
    const config: Config
    const store: JsonTaskStore
    var idle: bool
    var log: seq<Effect>

    constructor (config: Config, store: JsonTaskStore)
      ensures this.config == config && this.store == store && idle && log == []
    {
      this.config, this.store, idle, log := config, store, true, [];
    }

    method PublishMessage(m: Message)
      modifies this`log
      ensures log == old(log) + [Publish(m)]
    {
      log := log + [Publish(m)];
    }

    method PutRecord(id: string, record: Record)
      modifies this`log, store
      ensures log == old(log) + [Store(id, record)]
      ensures store.records == old(store.records)[id := record] && store.file == store.records
    {
      store.Put(id, record);
      log := log + [Store(id, record)];
    }

    /** Publishes the result and stores it. */
    method Settle(mission: string, id: string, status: string, code: string)
      modifies this`log, store
      ensures log == old(log) + [Publish(Result(id, status, code)), Store(id, Record(mission, status, code))]
      ensures store.records == old(store.records)[id := Record(mission, status, code)] && store.file == store.records
    {
      PublishMessage(Result(id, status, code));
      PutRecord(id, Record(mission, status, code));
    }

    /** `_handle_payload`; afterwards the service is as idle as before, and file and memory agree. */
    method HandlePayload(p: Payload, snapshot: Option<Snapshot>, x: Execution)
      requires store.records == store.file
      modifies this`log, this`idle, store
      ensures idle == old(idle)
      ensures log == old(log) + Handling(config, old(store.records), old(idle), p, snapshot, x)
      ensures store.records == store.file == Stored(old(store.file), Handling(config, old(store.records), old(idle), p, snapshot, x))
      ensures p.TaskFor? && p.agent == config.agent && p.id !in old(store.records) && !old(idle) ==>
                log == old(log) + [Publish(Result(p.id, "REJECTED", "BUSY"))] && store.records == old(store.records)
    {
      hide StateRejection, Report;
      match p
      case Malformed(code) =>
        PublishMessage(ProtocolError(code));
      case TaskFor(agent, mission, id) =>
        if agent != config.agent {
          PublishMessage(Ignored(id));
          return;
        }
        var previous := store.Get(id);
        if previous.Some? {
          PublishMessage(Duplicate(id, previous.value));
          return;
        }
        if !idle {
          PublishMessage(Result(id, "REJECTED", "BUSY"));
          return;
        }
        AcceptTask(mission, id, snapshot, x);
    }

    method AcceptTask(mission: string, id: string, snapshot: Option<Snapshot>, x: Execution)
      requires store.records == store.file && idle && id !in store.records
      modifies this`log, this`idle, store
      ensures idle
      ensures var h := Handling(config, old(store.records), true, TaskFor(config.agent, mission, id), snapshot, x);
              log == old(log) + h && store.records == store.file == Stored(old(store.file), h)
    {
      hide StateRejection, Report, Stored;
      StoredThrice(store.records, mission, id, Refusal(config, snapshot), Report(x));
      PutRecord(id, Record(mission, "RECEIVED", ""));
      if snapshot.Some? {
        var rejection := StateRejection(snapshot.value);
        if rejection.Some? {
          Settle(mission, id, "REJECTED", rejection.value);
          return;
        }
      }
      if config.mode == Readonly {
        Settle(mission, id, "REJECTED", "REAL_CONTROL_DISABLED");
        return;
      }
      if !config.hasExecutor {
        Settle(mission, id, "FAILED", "EXECUTOR_UNAVAILABLE");
        return;
      }
      idle := false;
      PutRecord(id, Record(mission, "IN_PROGRESS", ""));
      log := log + [Invoke(id)];
      var report := Report(x);
      idle := true;
      Settle(mission, id, report.0, report.1);
    }
  }

  lemma OneStored(records: map<string, Record>, id: string, record: Record, x: Effect)
    requires !x.Store?
    ensures Stored(records, [Store(id, record)]) == records[id := record]
    ensures Stored(records, [Store(id, record), x]) == records[id := record]
    ensures Stored(records, [x, Store(id, record)]) == records[id := record]
  {
    assert [Store(id, record)][1..] == [];
    assert [Store(id, record), x][1..] == [x] && [x][1..] == [];
    assert [x, Store(id, record)][1..] == [Store(id, record)];
  }

  lemma StoredThrice(records: map<string, Record>, mission: string, id: string, refused: Option<(string, string)>, done: (string, string))
    ensures var report := if refused.Some? then refused.value else done;
            Stored(records, NewTask(mission, id, refused, done)) == records[id := Record(mission, report.0, report.1)]
  {
    hide Stored;
    var report := if refused.Some? then refused.value else done;
    var a, b := [Store(id, Record(mission, "RECEIVED", ""))], if refused.Some? then [] else [Store(id, Record(mission, "IN_PROGRESS", "")), Invoke(id)];
    var c := [Publish(Result(id, report.0, report.1)), Store(id, Record(mission, report.0, report.1))];
    StoredConcat(records, a + b, c);
    StoredConcat(records, a, b);
    OneStored(records, id, Record(mission, "RECEIVED", ""), Invoke(id));
    OneStored(Stored(records, a), id, Record(mission, "IN_PROGRESS", ""), Invoke(id));
    OneStored(Stored(records, a + b), id, Record(mission, report.0, report.1), Publish(Result(id, report.0, report.1)));
    assert a + [] == a;
  }
}
