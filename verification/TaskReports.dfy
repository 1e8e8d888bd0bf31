/** What the service reports and records about a task over whole runs with crashes and restarts, in terms
    of what the monitor showed and the executor did. */
module TaskReports {
  import opened Wrappers
  import opened TaskServices
  import opened TaskServiceRuns

  /** The process takes at least `n` steps of the attempt, if it has as many. */
  predicate Lives(a: Attempt, n: nat) {
    a.dies == None || a.dies.value >= n
  }

  /** The first thing out of order in the snapshot. */
  predicate FirstFault(s: Snapshot, code: string) {
    || (code == "STATE_STALE" && s.stale)
    || (code == "DEVICE_OFFLINE" && !s.stale && !s.online)
    || (code == "POSITION_INVALID" && !s.stale && s.online && !s.positionValid)
    || (code == "YAW_UNAVAILABLE" && !s.stale && s.online && s.positionValid && !s.hasYaw)
    || (code == "BATTERY_INVALID" && !s.stale && s.online && s.positionValid && s.hasYaw && !s.batteryValid)
    || (code == "TELEMETRY_NOT_READY" && !s.stale && s.online && s.positionValid && s.hasYaw && s.batteryValid && !s.ready)
    || (code == "LOW_BATTERY" && !s.stale && s.online && s.positionValid && s.hasYaw && s.batteryValid && s.ready && !s.batteryOk)
    || (code == "ALREADY_ARMED" && !s.stale && s.online && s.positionValid && s.hasYaw && s.batteryValid && s.ready && s.batteryOk && s.armed)
  }

  /** A new task is turned down: by the device, the mode, or for want of an executor, in this order. */
  predicate TurnedDown(a: Attempt, status: string, code: string) {
    if a.snapshot.Some? && !InOrder(a.snapshot.value) then status == "REJECTED" && FirstFault(a.snapshot.value, code)
    else if a.cfg.mode == Readonly then status == "REJECTED" && code == "REAL_CONTROL_DISABLED"
    else !a.cfg.hasExecutor && status == "FAILED" && code == "EXECUTOR_UNAVAILABLE"
  }

  /** What an execution is reported as: completed when the result is ok or, without being ok, says so. */
  predicate ReportedAs(x: Execution, status: string, code: string) {
    if x.Throws? then status == "FAILED" && code == "UNHANDLED_AGENT_ERROR"
    else
      && code == x.code && status in {"COMPLETED", "FAILED", "REJECTED"}
      && (status == "COMPLETED" <==> x.ok || x.status == Some("COMPLETED"))
      && (status == "REJECTED" <==> !x.ok && x.status == Some("REJECTED"))
  }

  /** How a new task ends, if the process lives. */
  predicate EndsAs(a: Attempt, status: string, code: string) {
    if MayExecute(a) then ReportedAs(a.execution, status, code) else TurnedDown(a, status, code)
  }

  lemma RefusalTurnsDown(a: Attempt, status: string, code: string)
    ensures Refusal(a.cfg, a.snapshot) == Some((status, code)) <==> !MayExecute(a) && TurnedDown(a, status, code)
  {
  }

  lemma ReportIsReported(x: Execution, status: string, code: string)
    ensures Report(x) == (status, code) <==> ReportedAs(x, status, code)
  {
  }

  /** Everything a new task makes the service do. */
  function Steps(mission: string, id: string, executed: bool, status: string, code: string): seq<Effect> {
    if executed then
      [Store(id, Record(mission, "RECEIVED", "")), Store(id, Record(mission, "IN_PROGRESS", "")), Invoke(id),
       Publish(Result(id, status, code)), Store(id, Record(mission, status, code))]
    else
      [Store(id, Record(mission, "RECEIVED", "")), Publish(Result(id, status, code)), Store(id, Record(mission, status, code))]
  }

  function Cut(steps: seq<Effect>, dies: Option<nat>): seq<Effect> {
    if dies.Some? && dies.value < |steps| then steps[..dies.value] else steps
  }

  lemma NewTaskSteps(before: map<string, Record>, a: Attempt, id: string) returns (status: string, code: string)
    requires IsNew(before, a, id)
    ensures EndsAs(a, status, code)
    ensures Taken(before, a) == Cut(Steps(a.payload.mission, id, MayExecute(a), status, code), a.dies)
  {
    var end := if MayExecute(a) then Report(a.execution) else Refusal(a.cfg, a.snapshot).value;
    NotRefused(a);
    status, code := end.0, end.1;
    RefusalTurnsDown(a, status, code);
    ReportIsReported(a.execution, status, code);
    hide Report, Refusal, MayExecute, ReportedAs, TurnedDown;
    assert Handling(a.cfg, before, true, a.payload, a.snapshot, a.execution) == Steps(a.payload.mission, id, MayExecute(a), status, code);
  }

  lemma OneEnd(a: Attempt, status: string, code: string, other: string, another: string)
    requires EndsAs(a, status, code) && EndsAs(a, other, another)
    ensures status == other && code == another
  {
  }

  /** What is taken of a new task's steps. */
  lemma CutSteps(mission: string, id: string, executed: bool, status: string, code: string, dies: Option<nat>)
    ensures var all := Steps(mission, id, executed, status, code);
            var taken, n := Cut(all, dies), if executed then 5 else 3;
            && (forall m :: Publish(m) in taken <==> m == Result(id, status, code) && (dies == None || dies.value >= n - 1))
            && (Invoke(id) in taken <==> executed && (dies == None || dies.value >= 3))
  {
    var all, n := Steps(mission, id, executed, status, code), if executed then 5 else 3;
    var taken := Cut(all, dies);
    assert all[n - 2] == Publish(Result(id, status, code)) && |all| == n;
    if dies == None || dies.value >= n - 1 {
      assert taken[n - 2] == all[n - 2];
    }
    if executed && (dies == None || dies.value >= 3) {
      assert taken[2] == Invoke(id);
    }
  }

  lemma StoredNext(records: map<string, Record>, steps: seq<Effect>, n: nat)
    requires n < |steps|
    ensures Stored(records, steps[..0]) == records
    ensures var r := Stored(records, steps[..n]); Stored(records, steps[..n + 1]) == if steps[n].Store? then r[steps[n].id := steps[n].record] else r
  {
    assert steps[..n + 1] == steps[..n] + [steps[n]];
    StoredConcat(records, steps[..n], [steps[n]]);
    assert [steps[n]][1..] == [];
  }

  /** The record a new task leaves, by how far the process gets. */
  lemma CutRecord(before: map<string, Record>, mission: string, id: string, executed: bool, status: string, code: string, dies: Option<nat>)
    ensures var after, n := Stored(before, Cut(Steps(mission, id, executed, status, code), dies)), if executed then 5 else 3;
            if dies == Some(0) then after == before
            else after == before[id := Record(mission, if dies == None || dies.value >= n then status
                                                       else if executed && dies.value >= 2 then "IN_PROGRESS" else "RECEIVED",
                                              if dies == None || dies.value >= n then code else "")]
  {
    hide Stored;
    var all := Steps(mission, id, executed, status, code);
    assert all[..|all|] == all;
    StoredNext(before, all, 0);
    StoredNext(before, all, 1);
    StoredNext(before, all, 2);
    if executed {
      StoredNext(before, all, 3);
      StoredNext(before, all, 4);
    }
  }

  // ----- over runs

  /** The `k`-th attempt meets a new task for the service. */
  predicate NewAt(file: map<string, Record>, attempts: seq<Attempt>, k: nat, id: string)
    requires k < |attempts|
  {
    IsNew(FileAfter(file, attempts, k), attempts[k], id)
  }

  function TakenAt(file: map<string, Record>, attempts: seq<Attempt>, k: nat): seq<Effect>
    requires k < |attempts|
  {
    Taken(FileAfter(file, attempts, k), attempts[k])
  }

  /** A result is published exactly when a new task ends so and the process lives until then. */
  lemma ResultsAreTrue(file: map<string, Record>, attempts: seq<Attempt>, k: nat, id: string, status: string, code: string)
    requires k < |attempts|
    ensures var a := attempts[k];
            Publish(Result(id, status, code)) in TakenAt(file, attempts, k)
            <==> NewAt(file, attempts, k, id) && EndsAs(a, status, code) && Lives(a, if MayExecute(a) then 4 else 2)
  {
    hide FileAfter, Taken, EndsAs, MayExecute, Steps, Cut;
    var before, a := FileAfter(file, attempts, k), attempts[k];
    if IsNew(before, a, id) {
      var st, c := NewTaskSteps(before, a, id);
      CutSteps(a.payload.mission, id, MayExecute(a), st, c, a.dies);
      if EndsAs(a, status, code) {
        OneEnd(a, status, code, st, c);
      }
    } else {
      NoResult(before, a, id, status, code);
    }
  }

  lemma NoResult(before: map<string, Record>, a: Attempt, id: string, status: string, code: string)
    requires !IsNew(before, a, id)
    ensures Publish(Result(id, status, code)) !in Taken(before, a)
  {
    hide Refusal, Report;
    var h := Handling(a.cfg, before, true, a.payload, a.snapshot, a.execution);
    assert Publish(Result(id, status, code)) !in h;
    assert forall e :: e in Taken(before, a) ==> e in h;
  }

  /** COMPLETED is published exactly for a task whose executor has been invoked and has returned ok, or has
      said COMPLETED itself. */
  lemma CompletedIsPublished(file: map<string, Record>, attempts: seq<Attempt>, k: nat, id: string, code: string)
    requires k < |attempts|
    ensures var x := attempts[k].execution;
            Publish(Result(id, "COMPLETED", code)) in TakenAt(file, attempts, k)
            <==> Invoke(id) in TakenAt(file, attempts, k) && Lives(attempts[k], 4)
                 && x.Finishes? && (x.ok || x.status == Some("COMPLETED")) && code == x.code
  {
    hide FileAfter, Taken, MayExecute;
    ResultsAreTrue(file, attempts, k, id, "COMPLETED", code);
    InvokedExactlyWhenReady(file, attempts, k, id);
    assert Invoke(id) in TakenAt(file, attempts, k) <==> Invocations(TakenAt(file, attempts, k), id) > 0;
  }

  /** An exception is never reported as anything but FAILED. */
  lemma ExceptionsFail(file: map<string, Record>, attempts: seq<Attempt>, k: nat, id: string, status: string, code: string)
    requires k < |attempts| && attempts[k].execution.Throws? && Invoke(id) in TakenAt(file, attempts, k)
    requires Publish(Result(id, status, code)) in TakenAt(file, attempts, k)
    ensures status == "FAILED" && code == "UNHANDLED_AGENT_ERROR"
  {
    hide FileAfter, Taken;
    ResultsAreTrue(file, attempts, k, id, status, code);
    InvokedExactlyWhenReady(file, attempts, k, id);
    assert Invocations(TakenAt(file, attempts, k), id) > 0;
  }

  // ----- the records

  /** The record that a new task leaves: its end, if the process lives to store it, else how far it got. */
  predicate Leaves(a: Attempt, r: Record) {
    && a.payload.TaskFor? && r.mission == a.payload.mission
    && if Lives(a, if MayExecute(a) then 5 else 3) then EndsAs(a, r.status, r.code)
       else r.code == "" && r.status == if MayExecute(a) && Lives(a, 2) then "IN_PROGRESS" else "RECEIVED"
  }

  lemma NewTaskRecord(before: map<string, Record>, a: Attempt, id: string)
    requires IsNew(before, a, id)
    ensures var after := Stored(before, Taken(before, a));
            if a.dies == Some(0) then after == before
            else id in after && after == before[id := after[id]] && Leaves(a, after[id])
  {
    hide Taken, EndsAs, MayExecute, Steps, Cut, Stored;
    var status, code := NewTaskSteps(before, a, id);
    CutRecord(before, a.payload.mission, id, MayExecute(a), status, code, a.dies);
  }

  lemma OldTaskRecord(before: map<string, Record>, a: Attempt)
    requires a.payload.TaskFor? ==> !IsNew(before, a, a.payload.id)
    ensures Stored(before, Taken(before, a)) == before
  {
    var t := Taken(before, a);
    assert |t| <= 1;
    assert |t| == 1 ==> !t[0].Store? && t[1..] == [];
  }

  /** What one attempt does to the record of a task. */
  lemma RecordStep(file: map<string, Record>, attempts: seq<Attempt>, k: nat, id: string)
    requires k < |attempts|
    ensures var before, after, a := FileAfter(file, attempts, k), FileAfter(file, attempts, k + 1), attempts[k];
            if NewAt(file, attempts, k, id) && a.dies != Some(0) then id in after && Leaves(a, after[id])
            else (id in after <==> id in before) && (id in before ==> after[id] == before[id])
  {
    hide FileAfter, Taken, Leaves, Stored;
    var before, a := FileAfter(file, attempts, k), attempts[k];
    assert FileAfter(file, attempts, k + 1) == Stored(before, Taken(before, a)) by {
      FileNext(file, attempts, k);
    }
    if a.payload.TaskFor? && IsNew(before, a, a.payload.id) {
      NewTaskRecord(before, a, a.payload.id);
    } else {
      OldTaskRecord(before, a);
    }
  }

  lemma FileNext(file: map<string, Record>, attempts: seq<Attempt>, k: nat)
    requires k < |attempts|
    ensures FileAfter(file, attempts, k + 1) == Stored(FileAfter(file, attempts, k), Taken(FileAfter(file, attempts, k), attempts[k]))
    ensures FileAfter(file, attempts, 0) == file
  {
  }

  /** The attempt that made the record of a task. */
  predicate MadeBy(file: map<string, Record>, attempts: seq<Attempt>, j: nat, id: string)
    requires j < |attempts|
  {
    NewAt(file, attempts, j, id) && attempts[j].dies != Some(0)
  }

  /** A record stays what it was, or was made by one attempt and says what became of that. */
  lemma {:induction false} RecordHasOrigin(file: map<string, Record>, attempts: seq<Attempt>, n: nat, id: string)
    requires n <= |attempts|
    ensures id in file ==> id in FileAfter(file, attempts, n) && FileAfter(file, attempts, n)[id] == file[id]
    ensures id !in file ==>
              (id in FileAfter(file, attempts, n) <==> exists j: nat :: j < n && MadeBy(file, attempts, j, id))
              && (forall j: nat :: j < n && MadeBy(file, attempts, j, id) ==> Leaves(attempts[j], FileAfter(file, attempts, n)[id]))
  {
    hide NewAt, Leaves, FileAfter;
    if n == 0 {
      assert FileAfter(file, attempts, 0) == file by {
        FileStarts(file, attempts);
      }
    } else {
      RecordHasOrigin(file, attempts, n - 1, id);
      RecordStep(file, attempts, n - 1, id);
      NewIsAbsent(file, attempts, n - 1, id);
      var k := n - 1;
      if MadeBy(file, attempts, k, id) {
        assert id !in file ==> forall j: nat :: j < k ==> !MadeBy(file, attempts, j, id);
      } else {
        assert forall j: nat :: j < n && MadeBy(file, attempts, j, id) ==> j < k;
      }
    }
  }

  lemma FileStarts(file: map<string, Record>, attempts: seq<Attempt>)
    ensures FileAfter(file, attempts, 0) == file
  {
  }

  lemma NewIsAbsent(file: map<string, Record>, attempts: seq<Attempt>, k: nat, id: string)
    requires k < |attempts|
    ensures NewAt(file, attempts, k, id) ==> id !in FileAfter(file, attempts, k)
  {
  }

  /** The attempt carried the task through, and the executor was ok or said COMPLETED. */
  ghost predicate CarriedThrough(file: map<string, Record>, attempts: seq<Attempt>, j: nat, id: string)
    requires j < |attempts|
  {
    var x := attempts[j].execution;
    Invoke(id) in TakenAt(file, attempts, j) && Lives(attempts[j], 5) && x.Finishes? && (x.ok || x.status == Some("COMPLETED"))
  }

  /** The record of a task not in the file at first says COMPLETED exactly when some attempt carried the task
      through. */
  lemma CompletedIsRecorded(file: map<string, Record>, attempts: seq<Attempt>, n: nat, id: string)
    requires n <= |attempts| && id !in file
    ensures (id in FileAfter(file, attempts, n) && FileAfter(file, attempts, n)[id].status == "COMPLETED")
       <==> exists j: nat :: j < n && CarriedThrough(file, attempts, j, id)
  {
    hide NewAt, Leaves, FileAfter, Taken, MayExecute;
    RecordHasOrigin(file, attempts, n, id);
    if id in FileAfter(file, attempts, n) && FileAfter(file, attempts, n)[id].status == "COMPLETED" {
      var j: nat :| j < n && MadeBy(file, attempts, j, id);
      CompletedLeaves(attempts[j], FileAfter(file, attempts, n)[id]);
      InvokedHere(file, attempts, j, id);
      assert CarriedThrough(file, attempts, j, id);
    }
    if j: nat :| j < n && CarriedThrough(file, attempts, j, id) {
      InvokedHere(file, attempts, j, id);
      assert MadeBy(file, attempts, j, id);
      CompletedLeaves(attempts[j], FileAfter(file, attempts, n)[id]);
    }
  }

  lemma InvokedHere(file: map<string, Record>, attempts: seq<Attempt>, k: nat, id: string)
    requires k < |attempts|
    ensures Invoke(id) in TakenAt(file, attempts, k) <==> NewAt(file, attempts, k, id) && MayExecute(attempts[k]) && Lives(attempts[k], 3)
  {
    hide FileAfter, Taken, MayExecute;
    InvokedExactlyWhenReady(file, attempts, k, id);
    assert Invoke(id) in TakenAt(file, attempts, k) <==> Invocations(TakenAt(file, attempts, k), id) > 0;
  }

  lemma CompletedLeaves(a: Attempt, r: Record)
    requires Leaves(a, r)
    ensures var x := a.execution;
            r.status == "COMPLETED" <==> MayExecute(a) && Lives(a, 5) && x.Finishes? && (x.ok || x.status == Some("COMPLETED"))
  {
    hide InOrder;
  }

  /** As long as executors say COMPLETED only together with ok, COMPLETED means ok. */
  lemma CompletedMeansOk(file: map<string, Record>, attempts: seq<Attempt>, n: nat, id: string)
    requires n <= |attempts| && id !in file
    requires forall j :: 0 <= j < |attempts| && attempts[j].execution.Finishes? && attempts[j].execution.status == Some("COMPLETED")
                         ==> attempts[j].execution.ok
    ensures (id in FileAfter(file, attempts, n) && FileAfter(file, attempts, n)[id].status == "COMPLETED")
       <==> exists j: nat :: j < n && Invoke(id) in TakenAt(file, attempts, j) && Lives(attempts[j], 5)
                             && attempts[j].execution.Finishes? && attempts[j].execution.ok
  {
    hide FileAfter, Taken;
    CompletedIsRecorded(file, attempts, n, id);
    forall j: nat | j < n
      ensures var x := attempts[j].execution;
              CarriedThrough(file, attempts, j, id) <==> (Invoke(id) in TakenAt(file, attempts, j) && Lives(attempts[j], 5) && x.Finishes? && x.ok)
    {
    }
    if j: nat :| j < n && Invoke(id) in TakenAt(file, attempts, j) && Lives(attempts[j], 5) && attempts[j].execution.Finishes? && attempts[j].execution.ok {
      assert CarriedThrough(file, attempts, j, id);
    }
  }

  /** Otherwise it need not: a result that is not ok but says COMPLETED is published and recorded as such. */
  lemma CompletedWithoutOk() returns (attempts: seq<Attempt>)
    ensures |attempts| == 1 && attempts[0].execution.Finishes? && !attempts[0].execution.ok
    ensures Publish(Result("t", "COMPLETED", "")) in TakenAt(map[], attempts, 0)
    ensures "t" in FileAfter(map[], attempts, 1) && FileAfter(map[], attempts, 1)["t"].status == "COMPLETED"
  {
    var cfg := Config("u", DryRun, true);
    attempts := [Attempt(cfg, TaskFor("u", "m", "t"), None, Finishes(false, Some("COMPLETED"), ""), None)];
    assert FileAfter(map[], attempts, 0) == map[];
    assert NewAt(map[], attempts, 0, "t") && MayExecute(attempts[0]);
    hide FileAfter, Taken, NewAt;
    InvokedHere(map[], attempts, 0, "t");
    CompletedIsPublished(map[], attempts, 0, "t", "");
    assert CarriedThrough(map[], attempts, 0, "t");
    CompletedIsRecorded(map[], attempts, 1, "t");
  }

  // ----- answers that change nothing

  /** Payloads that are no new task get one answer and change no record. */
  lemma OtherAnswers(file: map<string, Record>, attempts: seq<Attempt>, k: nat)
    requires k < |attempts|
    ensures var before, a := FileAfter(file, attempts, k), attempts[k];
            match a.payload
            case Malformed(code) => TakenAt(file, attempts, k) == if Lives(a, 1) then [Publish(ProtocolError(code))] else []
            case TaskFor(agent, _, id) =>
              if agent != a.cfg.agent then TakenAt(file, attempts, k) == if Lives(a, 1) then [Publish(Ignored(id))] else []
              else id in before ==> TakenAt(file, attempts, k) == if Lives(a, 1) then [Publish(Duplicate(id, before[id]))] else []
  {
    hide Refusal, Report, FileAfter;
    var before, a := FileAfter(file, attempts, k), attempts[k];
    var h := Handling(a.cfg, before, true, a.payload, a.snapshot, a.execution);
    if |h| == 1 {
      assert h[..0] == [];
    }
  }

  /** The answer to a task seen before repeats the result published for it, when the process lived to store
      that, and otherwise says how far it got. */
  lemma DuplicatesRepeat(file: map<string, Record>, attempts: seq<Attempt>, k: nat, id: string, r: Record)
    requires k < |attempts| && Publish(Duplicate(id, r)) in TakenAt(file, attempts, k) && id !in file
    ensures exists j: nat :: j < k && MadeBy(file, attempts, j, id) && r.mission == attempts[j].payload.mission
              && if Lives(attempts[j], if MayExecute(attempts[j]) then 5 else 3) then Publish(Result(id, r.status, r.code)) in TakenAt(file, attempts, j)
                 else r.status in {"RECEIVED", "IN_PROGRESS"}
  {
    hide NewAt, FileAfter, Taken, MayExecute, EndsAs;
    DuplicateIsRecord(file, attempts, k, id, r);
    RecordHasOrigin(file, attempts, k, id);
    var j: nat :| j < k && MadeBy(file, attempts, j, id);
    assert Leaves(attempts[j], r);
    ResultsAreTrue(file, attempts, j, id, r.status, r.code);
  }

  lemma DuplicateIsRecord(file: map<string, Record>, attempts: seq<Attempt>, k: nat, id: string, r: Record)
    requires k < |attempts| && Publish(Duplicate(id, r)) in TakenAt(file, attempts, k)
    ensures id in FileAfter(file, attempts, k) && r == FileAfter(file, attempts, k)[id]
  {
    hide Refusal, Report, FileAfter;
    var before, a := FileAfter(file, attempts, k), attempts[k];
    var h := Handling(a.cfg, before, true, a.payload, a.snapshot, a.execution);
    assert forall e :: e in Taken(before, a) ==> e in h;
  }
}
