/** Pickups are meant to follow a positive inspection. They do unless failure feedback with a null
    task id arrives before any pickup: it matches the pickup task that is not there yet. */
module MissionConfirmation {
  import opened Wrappers
  import opened DeviceRegistries
  import opened MissionControl
  import opened MissionRuns
  import opened MissionBounds
  import opened MissionSelection
  import opened MissionWitness

  /** The `j`-th input is a positive inspection result the mission is waiting for. */
  predicate Positive(inputs: seq<Input>, j: nat, id: string)
    requires j < |inputs|
  {
    inputs[j].Judge? && inputs[j].id == id && inputs[j].garbage && Exists(inputs, j, id) && At(inputs, j, id).phase == AwaitingConfirm
  }

  ghost predicate Confirmed(inputs: seq<Input>, n: nat, id: string)
    requires n <= |inputs|
  {
    exists j :: 0 <= j < n && Positive(inputs, j, id)
  }

  predicate Picks(inputs: seq<Input>, k: nat, id: string)
    requires k < |inputs|
  {
    Assigns(OutAt(inputs, k), id, PickupAndDeliver)
  }

  /** Failure feedback with a null task id, while there is an inspection task and no pickup task, with
      budget left and a device for the pickup. */
  ghost predicate Nameless(inputs: seq<Input>, k: nat, id: string)
    requires k < |inputs|
  {
    && inputs[k].Hear? && inputs[k].fb.IsFailure() && inputs[k].fb.missionId == id && inputs[k].fb.taskId == None
    && Exists(inputs, k, id) && At(inputs, k, id).inspectTask.Some? && At(inputs, k, id).pickupTask == None
    && At(inputs, k, id).reassigns < MAX_REASSIGN
    && Nearest(SeenAt(inputs, k), At(inputs, k, id).target, "PICKUP", At(inputs, k, id).failedAgents + {inputs[k].fb.agentId}).Some?
  }

  // ----- one step

  /** Who may be sent to pick up, with `exclude` excluded. */
  predicate Sends(m: MissionState, reg: Registry, now: int, exclude: set<string>)
    requires reg.Valid()
  {
    Nearest(Listing(Ticked(reg, now).entries, reg.order), m.target, "PICKUP", exclude).Some?
  }

  predicate ByResult(m: MissionState, i: Input, reg: Registry)
    requires reg.Valid()
  {
    i.Judge? && i.id == m.id && i.garbage && m.phase == AwaitingConfirm && Sends(m, reg, i.now, m.failedAgents)
  }

  predicate ByFailure(m: MissionState, i: Input, reg: Registry)
    requires reg.Valid()
  {
    && i.Hear? && i.fb.IsFailure() && i.fb.missionId == m.id && i.fb.taskId == m.pickupTask != m.inspectTask
    && m.reassigns < MAX_REASSIGN && Sends(m, reg, i.now, m.failedAgents + {i.fb.agentId})
  }

  /** Exactly when a mission publishes a pickup, and that it has a pickup task only after one. */
  lemma PickStep(m: MissionState, i: Input, reg: Registry)
    requires reg.Valid()
    ensures Assigns(After(m, i, reg).1, m.id, PickupAndDeliver) <==> ByResult(m, i, reg) || ByFailure(m, i, reg)
    ensures m.pickupTask == None && !Assigns(After(m, i, reg).1, m.id, PickupAndDeliver) ==> After(m, i, reg).0.pickupTask == None
  {
    hide Nearest, Listing, Ticked, Assigns;
    var r := After(m, i, reg);
    if |r.1| > 0 {
      Singleton(r.1[0], m.id, PickupAndDeliver);
      assert r.1 == [r.1[0]];
    } else {
      Singleton(Result(m.id, true), m.id, PickupAndDeliver);
      assert r.1 == [];
    }
  }

  lemma PicksBy(inputs: seq<Input>, k: nat, id: string)
    requires FreshMissions(inputs) && k < |inputs| && Exists(inputs, k, id)
    ensures var m, reg := At(inputs, k, id), Exec(inputs[..k]).reg;
            && m.id == id && Exists(inputs, k + 1, id)
            && (Picks(inputs, k, id) <==> ByResult(m, inputs[k], reg) || ByFailure(m, inputs[k], reg))
            && (m.pickupTask == None && !Picks(inputs, k, id) ==> At(inputs, k + 1, id).pickupTask == None)
  {
    hide Exec, After, OutAt, Assigns, ByResult, ByFailure;
    Continues(inputs, k, id);
    PickStep(At(inputs, k, id), inputs[k], Exec(inputs[..k]).reg);
    SameAssigns(OutAt(inputs, k), After(At(inputs, k, id), inputs[k], Exec(inputs[..k]).reg).1, id);
  }

  lemma OnlyExistingPick(inputs: seq<Input>, k: nat, id: string)
    requires FreshMissions(inputs) && k < |inputs| && !Exists(inputs, k, id)
    ensures !Picks(inputs, k, id)
    ensures Exists(inputs, k + 1, id) ==> At(inputs, k + 1, id).pickupTask == None
  {
    hide Exec, OutAt, Assigns;
    if Creates(inputs[k], id) {
      CreatedClean(inputs, k, id);
      CreationSends(inputs, k, id);
    } else {
      UnknownStaysSilent(inputs, k, id);
      SameAssigns(OutAt(inputs, k), [], id);
      Singleton(Result(id, true), id, PickupAndDeliver);
    }
  }

  lemma CreationSends(inputs: seq<Input>, k: nat, id: string)
    requires k < |inputs| && Creates(inputs[k], id)
    ensures !Picks(inputs, k, id)
  {
    hide Exec, Chosen, Ticked, Assigns;
    var out := OutAt(inputs, k);
    assert out == [out[0]];
    Singleton(out[0], id, PickupAndDeliver);
  }

  lemma {:induction false} NoPickNoTask(inputs: seq<Input>, n: nat, id: string)
    requires FreshMissions(inputs) && n <= |inputs| && Exists(inputs, n, id)
    requires forall k :: 0 <= k < n ==> !Picks(inputs, k, id)
    ensures At(inputs, n, id).pickupTask == None
  {
    hide Exec, OutAt, Assigns, ByResult, ByFailure;
    if n == 0 {
      assert inputs[..0] == [];
      NothingExists(id);
    } else if Exists(inputs, n - 1, id) {
      NoPickNoTask(inputs, n - 1, id);
      PicksBy(inputs, n - 1, id);
    } else {
      OnlyExistingPick(inputs, n - 1, id);
    }
  }

  lemma {:induction false} FirstPick(inputs: seq<Input>, k: nat, id: string) returns (j: nat)
    requires k < |inputs| && Picks(inputs, k, id)
    ensures j <= k && Picks(inputs, j, id) && forall i :: 0 <= i < j ==> !Picks(inputs, i, id)
  {
    hide Picks;
    if i :| 0 <= i < k && Picks(inputs, i, id) {
      j := FirstPick(inputs, i, id);
    } else {
      j := k;
    }
  }

  lemma FirstIsNameless(inputs: seq<Input>, j: nat, id: string)
    requires FreshMissions(inputs) && j < |inputs| && Picks(inputs, j, id) && !Confirmed(inputs, j + 1, id)
    requires forall i :: 0 <= i < j ==> !Picks(inputs, i, id)
    ensures Nameless(inputs, j, id)
  {
    hide Exec, OutAt, Assigns, Picks, Nearest, Listing, Ticked;
    if !Exists(inputs, j, id) {
      OnlyExistingPick(inputs, j, id);
    } else {
      NoPickNoTask(inputs, j, id);
      PicksBy(inputs, j, id);
      assert !Positive(inputs, j, id);
    }
  }

  /** A run sends a pickup without an earlier positive result exactly when it contains, without an
      earlier positive result, failure feedback with a null task id as described. */
  lemma PickupWithoutConfirmation(inputs: seq<Input>, id: string)
    requires FreshMissions(inputs)
    ensures (exists k :: 0 <= k < |inputs| && Picks(inputs, k, id) && !Confirmed(inputs, k + 1, id))
       <==> (exists k :: 0 <= k < |inputs| && Nameless(inputs, k, id) && !Confirmed(inputs, k + 1, id))
  {
    hide Exec, Picks, Nameless, Positive;
    if k :| 0 <= k < |inputs| && Picks(inputs, k, id) && !Confirmed(inputs, k + 1, id) {
      var j := FirstPick(inputs, k, id);
      FirstIsNameless(inputs, j, id);
    }
    if k :| 0 <= k < |inputs| && Nameless(inputs, k, id) && !Confirmed(inputs, k + 1, id) {
      NamelessPicks(inputs, k, id);
    }
  }

  lemma NamelessPicks(inputs: seq<Input>, k: nat, id: string)
    requires FreshMissions(inputs) && k < |inputs| && Nameless(inputs, k, id)
    ensures Picks(inputs, k, id)
  {
    hide Exec, OutAt, Assigns, Picks, Nearest, Listing, Ticked;
    PicksBy(inputs, k, id);
  }

  /** So when failure feedback always names its task, every pickup follows a positive result. */
  lemma NamedFailuresKeepThePromise(inputs: seq<Input>, k: nat, id: string)
    requires FreshMissions(inputs) && k < |inputs| && Picks(inputs, k, id)
    requires forall j :: 0 <= j < |inputs| && inputs[j].Hear? && inputs[j].fb.IsFailure() ==> inputs[j].fb.taskId.Some?
    ensures Confirmed(inputs, k + 1, id)
  {
    hide Exec, Picks, Positive;
    PickupWithoutConfirmation(inputs, id);
    forall j | 0 <= j < |inputs|
      ensures !Nameless(inputs, j, id)
    {
    }
  }

  /** A run that breaks the promise: the mission is created, and one failure without a task id arrives. */
  lemma NullTaskIdSendsPickup() returns (inputs: seq<Input>)
    ensures FreshMissions(inputs) && FreshTasks(inputs) && |inputs| == 4 && Picks(inputs, 3, "m") && !Confirmed(inputs, 4, "m")
  {
    hide Exec, OutAt, Assigns, Picks, Nearest, Listing, Ticked;
    inputs := START_UP + [NAMELESS];
    GrowsBy(START_UP, NAMELESS, 1);
    GrowingIsFresh(inputs, 2);
    StartUp();
    assert inputs[..3] == START_UP;
    ReadyHolds();
    var m := Exec(START_UP).missions["m"];
    Choice(m.(failedAgents := m.failedAgents + {"x"}));
    assert Nameless(inputs, 3, "m");
    NamelessPicks(inputs, 3, "m");
  }
}
