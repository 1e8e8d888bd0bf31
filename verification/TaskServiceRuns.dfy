/** The service over any sequence of payloads, crashes and restarts. */
module TaskServiceRuns {
  import opened Wrappers
  import opened TaskServices

  /** One payload, the configuration the service was last started with, what the monitor and the
      executor do, and after how many steps the process dies, if it does. The next payload after a
      crash meets a restarted service, which has loaded the file. */
  datatype Attempt = Attempt(cfg: Config, payload: Payload, snapshot: Option<Snapshot>, execution: Execution, dies: Option<nat>)

  /** The steps an attempt takes; memory and file agree when it begins, and the service is idle. */
  function Taken(file: map<string, Record>, a: Attempt): (steps: seq<Effect>)
  {
    var all := Handling(a.cfg, file, true, a.payload, a.snapshot, a.execution);
    if a.dies.Some? && a.dies.value < |all| then all[..a.dies.value] else all
  }

  /** The file after the first `n` attempts. */
  function FileAfter(file: map<string, Record>, attempts: seq<Attempt>, n: nat): map<string, Record>
    requires n <= |attempts|
  {
    if n == 0 then file
    else
      var before := FileAfter(file, attempts, n - 1);
      Stored(before, Taken(before, attempts[n - 1]))
  }

  /** How often the executor is invoked for the task within some steps. */
  function Invocations(steps: seq<Effect>, id: string): nat {
    multiset(steps)[Invoke(id)]
  }

  function TotalInvocations(file: map<string, Record>, attempts: seq<Attempt>, n: nat, id: string): nat
    requires n <= |attempts|
  {
    if n == 0 then 0
    else TotalInvocations(file, attempts, n - 1, id) + Invocations(Taken(FileAfter(file, attempts, n - 1), attempts[n - 1]), id)
  }

  // ----- one attempt

  lemma {:induction false} KeysGrow(file: map<string, Record>, steps: seq<Effect>)
    ensures file.Keys <= Stored(file, steps).Keys
    decreases |steps|
  {
    if |steps| > 0 {
      KeysGrow(if steps[0].Store? then file[steps[0].id := steps[0].record] else file, steps[1..]);
    }
  }

  lemma PrefixStored(file: map<string, Record>, steps: seq<Effect>, n: nat, k: nat)
    requires k <= n <= |steps|
    ensures Stored(file, steps[..k]).Keys <= Stored(file, steps[..n]).Keys
  {
    hide Stored;
    assert steps[..n] == steps[..k] + steps[k..n];
    StoredConcat(file, steps[..k], steps[k..n]);
    KeysGrow(Stored(file, steps[..k]), steps[k..n]);
  }

  /** The executor is invoked at most once, and only after the task has been put into the file. */
  lemma HandlingInvokes(cfg: Config, file: map<string, Record>, p: Payload, snapshot: Option<Snapshot>, x: Execution, id: string)
    ensures var h := Handling(cfg, file, true, p, snapshot, x);
            && Invocations(h, id) <= 1
            && (Invocations(h, id) == 1 ==> id !in file && |h| == 5 && h[0].Store? && h[0].id == id && h[2] == Invoke(id))
  {
    hide Refusal, Report;
  }

  lemma PrefixCounts(steps: seq<Effect>, n: nat, id: string)
    requires n <= |steps|
    ensures Invocations(steps[..n], id) <= Invocations(steps, id)
    ensures Invoke(id) in steps[..n] <==> Invocations(steps[..n], id) > 0
  {
    assert steps == steps[..n] + steps[n..];
    assert multiset(steps) == multiset(steps[..n]) + multiset(steps[n..]);
  }

  lemma TakenInvokes(file: map<string, Record>, a: Attempt, id: string)
    ensures Invocations(Taken(file, a), id) <= 1
    ensures Invocations(Taken(file, a), id) == 1 ==> id !in file && id in Stored(file, Taken(file, a))
  {
    hide Handling, Stored, Invocations;
    var all := Handling(a.cfg, file, true, a.payload, a.snapshot, a.execution);
    HandlingInvokes(a.cfg, file, a.payload, a.snapshot, a.execution, id);
    var n := if a.dies.Some? && a.dies.value < |all| then a.dies.value else |all|;
    assert all[..|all|] == all;
    PrefixCounts(all, n, id);
    if Invocations(all[..n], id) == 1 {
      assert n > 0 by {
        assert Invoke(id) in all[..n];
      }
      FirstStored(file, all);
      PrefixStored(file, all, n, 1);
    }
  }

  lemma FirstStored(file: map<string, Record>, steps: seq<Effect>)
    requires |steps| > 0 && steps[0].Store?
    ensures steps[0].id in Stored(file, steps[..1])
  {
    assert steps[..1][1..] == [];
  }

  // ----- all attempts

  /** No record is ever lost, wherever the crashes fall. */
  lemma {:induction false} RecordsAreKept(file: map<string, Record>, attempts: seq<Attempt>, i: nat, j: nat)
    requires i <= j <= |attempts|
    ensures FileAfter(file, attempts, i).Keys <= FileAfter(file, attempts, j).Keys
    decreases j
  {
    hide Stored, Taken;
    if i < j {
      RecordsAreKept(file, attempts, i, j - 1);
      var before := FileAfter(file, attempts, j - 1);
      KeysGrow(before, Taken(before, attempts[j - 1]));
    }
  }

  lemma {:induction false} InvokedMeansRecorded(file: map<string, Record>, attempts: seq<Attempt>, n: nat, id: string)
    requires n <= |attempts|
    ensures TotalInvocations(file, attempts, n, id) <= if id !in file && id in FileAfter(file, attempts, n) then 1 else 0
  {
    hide Stored, Taken, Invocations;
    if n > 0 {
      InvokedMeansRecorded(file, attempts, n - 1, id);
      var before := FileAfter(file, attempts, n - 1);
      TakenInvokes(before, attempts[n - 1], id);
      RecordsAreKept(file, attempts, 0, n - 1);
      RecordsAreKept(file, attempts, n - 1, n);
    }
  }

  /** Over any payloads, crash points and restarts the executor is invoked at most once for each task
      id, and never for one that was in the file to begin with. */
  lemma AtMostOnce(file: map<string, Record>, attempts: seq<Attempt>, id: string)
    ensures TotalInvocations(file, attempts, |attempts|, id) <= 1
    ensures id in file ==> TotalInvocations(file, attempts, |attempts|, id) == 0
  {
    hide TotalInvocations, FileAfter;
    InvokedMeansRecorded(file, attempts, |attempts|, id);
  }

  /** The price: a task whose service died after recording it and before invoking the executor is never
      executed, whatever is redelivered; and one that got through is executed. */
  lemma DeathBeforeInvocationIsFinal(file: map<string, Record>, a: Attempt, later: seq<Attempt>, id: string)
    requires a.payload.TaskFor? && a.payload.id == id && a.payload.agent == a.cfg.agent && id !in file && Refusal(a.cfg, a.snapshot) == None
    ensures a.dies.Some? && 1 <= a.dies.value <= 2 ==> TotalInvocations(file, [a] + later, |[a] + later|, id) == 0
    ensures a.dies == None || a.dies.value >= 3 ==> TotalInvocations(file, [a] + later, |[a] + later|, id) == 1
  {
    hide Refusal, Report, Stored;
    var all := [a] + later;
    var h := Handling(a.cfg, file, true, a.payload, a.snapshot, a.execution);
    TakenCounts(file, a, id);
    FirstStored(file, h);
    if a.dies == None || a.dies.value >= 1 {
      assert h[..|h|] == h;
      PrefixStored(file, h, if a.dies.Some? && a.dies.value < |h| then a.dies.value else |h|, 1);
      assert id in FileAfter(file, all, 1);
      NoneAfter(file, all, 1, |all|, id);
    }
  }

  lemma TakenCounts(file: map<string, Record>, a: Attempt, id: string)
    requires a.payload.TaskFor? && a.payload.id == id && a.payload.agent == a.cfg.agent && id !in file && Refusal(a.cfg, a.snapshot) == None
    ensures Invocations(Taken(file, a), id) == if a.dies.Some? && a.dies.value <= 2 then 0 else 1
  {
    hide Refusal, Report;
    var h := Handling(a.cfg, file, true, a.payload, a.snapshot, a.execution);
    assert |h| == 5 && h[2] == Invoke(id) && !h[0].Invoke? && !h[1].Invoke? && !h[3].Invoke? && !h[4].Invoke?;
    assert h[..|h|] == h;
    hide Handling;
    CountPrefix(h, if a.dies.Some? && a.dies.value < 5 then a.dies.value else 5, id);
  }

  lemma CountPrefix(h: seq<Effect>, n: nat, id: string)
    requires n <= |h| == 5 && h[2] == Invoke(id) && !h[0].Invoke? && !h[1].Invoke? && !h[3].Invoke? && !h[4].Invoke?
    ensures Invocations(h[..n], id) == if n <= 2 then 0 else 1
  {
    if n <= 2 {
      assert Invoke(id) !in h[..n];
    } else {
      var a, b := h[..2], h[3..n];
      assert h[..n] == a + [h[2]] + b;
      assert Invoke(id) !in a && Invoke(id) !in b;
      assert multiset(h[..n]) == multiset(a) + multiset{h[2]} + multiset(b);
    }
  }

  // ----- when the executor is invoked

  /** Everything about the device is in order. */
  predicate InOrder(s: Snapshot) {
    !s.stale && s.online && s.positionValid && s.hasYaw && s.batteryValid && s.ready && s.batteryOk && !s.armed
  }

  /** The service may execute: the snapshot it took, if it has a monitor, is in order, the mode allows it
      and there is an executor. */
  predicate MayExecute(a: Attempt) {
    (a.snapshot.Some? ==> InOrder(a.snapshot.value)) && a.cfg.mode == DryRun && a.cfg.hasExecutor
  }

  lemma NotRefused(a: Attempt)
    ensures Refusal(a.cfg, a.snapshot) == None <==> MayExecute(a)
  {
  }

  /** The payload is a new task for this service. */
  predicate IsNew(file: map<string, Record>, a: Attempt, id: string) {
    a.payload.TaskFor? && a.payload.id == id && a.payload.agent == a.cfg.agent && id !in file
  }

  lemma NotInvoked(file: map<string, Record>, a: Attempt, id: string)
    requires !IsNew(file, a, id) || Refusal(a.cfg, a.snapshot).Some?
    ensures Invocations(Taken(file, a), id) == 0
  {
    hide Handling, Refusal;
    var h := Handling(a.cfg, file, true, a.payload, a.snapshot, a.execution);
    NoInvocationStep(file, a, id);
    var t := Taken(file, a);
    assert forall e :: e in t ==> e in h;
  }

  lemma NoInvocationStep(file: map<string, Record>, a: Attempt, id: string)
    requires !IsNew(file, a, id) || Refusal(a.cfg, a.snapshot).Some?
    ensures Invoke(id) !in Handling(a.cfg, file, true, a.payload, a.snapshot, a.execution)
  {
    hide Refusal, Report;
  }

  /** In every run, the `k`-th attempt invokes the executor for a task exactly when the task is new and for
      this service, the device was in order when the snapshot was taken, the mode and the executor are
      there, and the process does not die before the third step. */
  lemma InvokedExactlyWhenReady(file: map<string, Record>, attempts: seq<Attempt>, k: nat, id: string)
    requires k < |attempts|
    ensures var before, a := FileAfter(file, attempts, k), attempts[k];
            Invocations(Taken(before, a), id) > 0
            <==> IsNew(before, a, id) && MayExecute(a) && (a.dies.Some? ==> a.dies.value >= 3)
  {
    hide FileAfter, Taken, Invocations, Refusal, MayExecute;
    var before, a := FileAfter(file, attempts, k), attempts[k];
    NotRefused(a);
    if IsNew(before, a, id) && Refusal(a.cfg, a.snapshot) == None {
      TakenCounts(before, a, id);
    } else {
      NotInvoked(before, a, id);
    }
  }

  /** Nothing is invoked for a recorded task. */
  lemma {:induction false} NoneAfter(file: map<string, Record>, attempts: seq<Attempt>, i: nat, n: nat, id: string)
    requires i <= n <= |attempts| && id in FileAfter(file, attempts, i)
    ensures TotalInvocations(file, attempts, n, id) == TotalInvocations(file, attempts, i, id)
    decreases n
  {
    hide Stored, Taken, Invocations, FileAfter;
    if i < n {
      NoneAfter(file, attempts, i, n - 1, id);
      RecordsAreKept(file, attempts, i, n - 1);
      TakenInvokes(FileAfter(file, attempts, n - 1), attempts[n - 1], id);
    }
  }
}
