/** Retries and phase changes are bounded, whatever feedback arrives and however late. */
module MissionBounds {
  import opened DeviceRegistries
  import opened MissionControl
  import opened MissionRuns

  predicate IsAssignment(p: Published, id: string, t: TaskType) {
    p.Assign? && p.missionId == id && p.taskType == t
  }

  predicate Assigns(out: seq<Published>, id: string, t: TaskType) {
    exists p :: p in out && IsAssignment(p, id, t)
  }

  /** No input makes the master publish two messages. */
  lemma OneMessage(w: World, i: Input)
    requires w.reg.Valid()
    ensures |Step(w, i).1| <= 1
  {
    hide Chosen, Ticked;
  }

  /** How many of the messages are assignments of the type for the mission. */
  function Count(out: seq<Published>, id: string, t: TaskType): nat {
    if |out| == 0 then 0 else One(IsAssignment(out[0], id, t)) + Count(out[1..], id, t)
  }

  /** How many assignments of the type a run publishes for the mission. */
  function Tally(inputs: seq<Input>, id: string, t: TaskType): nat {
    if |inputs| == 0 then 0 else Tally(inputs[..|inputs| - 1], id, t) + Count(OutAt(inputs, |inputs| - 1), id, t)
  }

  function One(b: bool): nat {
    if b then 1 else 0
  }

  lemma CountOfOne(out: seq<Published>, id: string, t: TaskType)
    requires |out| <= 1
    ensures Count(out, id, t) == One(Assigns(out, id, t))
  {
    if |out| == 1 {
      assert out[0] in out && out[1..] == [];
    }
  }

  /** One more input publishes at most one more assignment. */
  lemma TallyNext(inputs: seq<Input>, id: string, t: TaskType)
    requires |inputs| > 0
    ensures Tally(inputs, id, t) == Tally(inputs[..|inputs| - 1], id, t) + One(Assigns(OutAt(inputs, |inputs| - 1), id, t))
  {
    hide Step, Assigns, Count;
    var k := |inputs| - 1;
    OneMessage(Exec(inputs[..k]), inputs[k]);
    CountOfOne(OutAt(inputs, k), id, t);
  }

  // ----- the budget

  /** Reassignments left. */
  function Left(m: MissionState): nat {
    if m.reassigns < MAX_REASSIGN then MAX_REASSIGN - m.reassigns else 0
  }

  /** A confirmation may still come. */
  function Pending(m: MissionState): nat {
    if m.phase in {UavAssigned, UavInspecting, AwaitingConfirm} then 1 else 0
  }

  /** With `a` inspections and `g` pickups assigned so far. */
  predicate WithinBudget(m: MissionState, a: nat, g: nat) {
    && a + Left(m) <= 4 && g + Left(m) + Pending(m) <= 4
    && m.phase != Created && (m.reassigns > MAX_REASSIGN ==> m.phase == Failed)
  }

  lemma Singleton(p: Published, id: string, t: TaskType)
    ensures Assigns([p], id, t) == IsAssignment(p, id, t) && !Assigns([], id, t)
  {
    assert p in [p];
  }

  lemma CreationKeepsBudget(id: string, target: Pose, reg: Registry, now: int, newTask: string)
    requires reg.Valid()
    ensures var o := AssignUav(New(id, target), reg, now, newTask);
            WithinBudget(o.m, One(Assigns(o.out, id, InspectTarget)), One(Assigns(o.out, id, PickupAndDeliver)))
  {
    hide Chosen, Ticked, Assigns;
    var o := AssignUav(New(id, target), reg, now, newTask);
    Singleton(o.out[0], id, InspectTarget);
    Singleton(o.out[0], id, PickupAndDeliver);
  }

  lemma StepKeepsBudget(m: MissionState, i: Input, reg: Registry, a: nat, g: nat)
    requires reg.Valid() && WithinBudget(m, a, g)
    ensures var r := After(m, i, reg);
            WithinBudget(r.0, a + One(Assigns(r.1, m.id, InspectTarget)), g + One(Assigns(r.1, m.id, PickupAndDeliver)))
  {
    hide Chosen, Ticked, Assigns;
    var r := After(m, i, reg);
    if |r.1| > 0 {
      Singleton(r.1[0], m.id, InspectTarget);
      Singleton(r.1[0], m.id, PickupAndDeliver);
      assert r.1 == [r.1[0]];
    } else {
      Singleton(Result(m.id, true), m.id, InspectTarget);
      Singleton(Result(m.id, true), m.id, PickupAndDeliver);
      assert r.1 == [];
    }
  }

  ghost predicate BudgetAt(inputs: seq<Input>, id: string) {
    if id in Exec(inputs).missions then
      WithinBudget(Exec(inputs).missions[id], Tally(inputs, id, InspectTarget), Tally(inputs, id, PickupAndDeliver))
    else Tally(inputs, id, InspectTarget) == Tally(inputs, id, PickupAndDeliver) == 0
  }

  lemma {:induction false} RunKeepsBudget(inputs: seq<Input>, id: string)
    requires FreshMissions(inputs)
    ensures BudgetAt(inputs, id)
  {
    if |inputs| > 0 {
      var k := |inputs| - 1;
      RunKeepsBudget(inputs[..k], id);
      BudgetStep(inputs, id);
    }
  }

  lemma BudgetStep(inputs: seq<Input>, id: string)
    requires FreshMissions(inputs) && |inputs| > 0 && BudgetAt(inputs[..|inputs| - 1], id)
    ensures BudgetAt(inputs, id)
  {
    hide WithinBudget, Assigns, Tally, AssignUav, FeedbackOutcome, InspectionOutcome;
    var k := |inputs| - 1;
    var w, i := Exec(inputs[..k]), inputs[k];
    assert inputs[..k + 1] == inputs;
    TallyNext(inputs, id, InspectTarget);
    TallyNext(inputs, id, PickupAndDeliver);
    if Creates(i, id) {
      NotYetCreated(inputs, k);
      CreationKeepsBudget(id, i.target, w.reg, i.now, i.newTask);
    } else if id in w.missions {
      var m := w.missions[id];
      StepOnMission(inputs, k, id);
      StepKeepsBudget(m, i, w.reg, Tally(inputs[..k], id, InspectTarget), Tally(inputs[..k], id, PickupAndDeliver));
      SameAssigns(OutAt(inputs, k), After(m, i, w.reg).1, id);
    } else {
      UnknownStaysSilent(inputs, k, id);
      SameAssigns(OutAt(inputs, k), [], id);
      Singleton(Result(id, true), id, InspectTarget);
      Singleton(Result(id, true), id, PickupAndDeliver);
    }
  }

  lemma NotYetCreated(inputs: seq<Input>, k: nat)
    requires FreshMissions(inputs) && k < |inputs| && inputs[k].Create?
    ensures inputs[k].id !in Exec(inputs[..k]).missions
  {
    MissionsAreCreated(inputs[..k], inputs[k].id);
  }

  lemma SameAssigns(out: seq<Published>, mine: seq<Published>, id: string)
    requires forall p :: p in out && About(p, id) <==> p in mine
    ensures forall t :: Assigns(out, id, t) == Assigns(mine, id, t)
  {
    forall t
      ensures Assigns(out, id, t) == Assigns(mine, id, t)
    {
      if Assigns(out, id, t) {
        var p :| p in out && IsAssignment(p, id, t);
        assert p in mine;
      }
    }
  }

  lemma UnknownStaysSilent(inputs: seq<Input>, k: nat, id: string)
    requires k < |inputs| && id !in Exec(inputs[..k]).missions && !Creates(inputs[k], id)
    ensures id !in Exec(inputs[..k + 1]).missions
    ensures forall p :: p in OutAt(inputs, k) ==> !About(p, id)
  {
    hide AssignUav, FeedbackOutcome, InspectionOutcome, Exec;
    ExecNext(inputs, k);
    var w, i := Exec(inputs[..k]), inputs[k];
    if i.Hear? && i.fb.missionId in w.missions {
      MissionsAreCreated(inputs[..k], i.fb.missionId);
      AllAbout(w.missions[i.fb.missionId], i, w.reg);
      assert OutAt(inputs, k) == After(w.missions[i.fb.missionId], i, w.reg).1;
    } else if i.Judge? && i.id in w.missions {
      MissionsAreCreated(inputs[..k], i.id);
      AllAbout(w.missions[i.id], i, w.reg);
      assert OutAt(inputs, k) == After(w.missions[i.id], i, w.reg).1;
    } else if i.Create? {
      CreationAbout(i, w.reg);
    }
  }

  /** On every run a mission publishes at most 4 inspections and at most 4 pickups. */
  lemma BoundedRetries(inputs: seq<Input>, id: string)
    requires FreshMissions(inputs)
    ensures Tally(inputs, id, InspectTarget) <= 4 && Tally(inputs, id, PickupAndDeliver) <= 4
  {
    hide Exec, Tally;
    RunKeepsBudget(inputs, id);
  }

  // ----- phases

  /** Phases left on the way to the end. */
  function Rank(p: Phase): nat {
    match p
    case Created => 6
    case UavAssigned => 5
    case UavInspecting => 4
    case AwaitingConfirm => 3
    case UgvAssigned => 2
    case UgvExecuting => 1
    case Completed => 0
    case Failed => 0
  }

  /** Failures until no reassignment can follow. */
  function Budget(m: MissionState): nat {
    if m.reassigns < 4 then 4 - m.reassigns else 0
  }

  predicate IsTerminal(p: Phase) {
    p == Completed || p == Failed
  }

  /** Failure feedback naming the current inspection or pickup task. */
  predicate NamesCurrentTask(m: MissionState, i: Input) {
    i.Hear? && i.fb.IsFailure() && i.fb.missionId == m.id && (i.fb.taskId == m.inspectTask || i.fb.taskId == m.pickupTask)
  }

  /** An input that changes the phase uses up budget or leads on; the terminal phases are left only by
      failure feedback naming the current task, with budget left; a mission that failed with the
      budget spent stays so and publishes no assignment. */
  lemma PhaseStep(m: MissionState, i: Input, reg: Registry)
    requires reg.Valid() && m.phase != Created && (m.reassigns > MAX_REASSIGN ==> m.phase == Failed)
    ensures var r := After(m, i, reg);
            && Budget(r.0) <= Budget(m)
            && (r.0.phase != m.phase ==> Budget(r.0) < Budget(m) || (Budget(r.0) == Budget(m) && Rank(r.0.phase) < Rank(m.phase)))
            && (IsTerminal(m.phase) && !IsTerminal(r.0.phase) ==> NamesCurrentTask(m, i) && m.reassigns < r.0.reassigns <= MAX_REASSIGN)
            && (m.phase == Failed && Budget(m) == 0 ==> r.0.phase == Failed && Budget(r.0) == 0 && forall t :: !Assigns(r.1, m.id, t))
  {
    hide Chosen, Ticked, Assigns;
    var r := After(m, i, reg);
    forall t | m.phase == Failed && Budget(m) == 0
      ensures !Assigns(r.1, m.id, t)
    {
      Singleton(Result(m.id, false), m.id, t);
    }
  }

  /** The mission exists before the `k`-th input. */
  predicate Exists(inputs: seq<Input>, k: nat, id: string)
    requires k <= |inputs|
  {
    id in Exec(inputs[..k]).missions
  }

  function At(inputs: seq<Input>, k: nat, id: string): MissionState
    requires k <= |inputs| && Exists(inputs, k, id)
  {
    Exec(inputs[..k]).missions[id]
  }

  /** In a run with fresh ids a mission, once created, goes from state to state by `After`. */
  lemma Continues(inputs: seq<Input>, k: nat, id: string)
    requires FreshMissions(inputs) && k < |inputs| && Exists(inputs, k, id)
    ensures Exists(inputs, k + 1, id) && At(inputs, k, id).id == id
    ensures At(inputs, k + 1, id) == After(At(inputs, k, id), inputs[k], Exec(inputs[..k]).reg).0
    ensures forall p :: p in OutAt(inputs, k) && About(p, id) <==> p in After(At(inputs, k, id), inputs[k], Exec(inputs[..k]).reg).1
  {
    hide After, Exec, OutAt;
    if Creates(inputs[k], id) {
      NotYetCreated(inputs, k);
    }
    StepOnMission(inputs, k, id);
  }

  lemma Sound(inputs: seq<Input>, k: nat, id: string)
    requires FreshMissions(inputs) && k <= |inputs| && Exists(inputs, k, id)
    ensures var m := At(inputs, k, id); m.phase != Created && (m.reassigns > MAX_REASSIGN ==> m.phase == Failed)
  {
    hide Exec;
    RunKeepsBudget(inputs[..k], id);
  }

  predicate Changes(inputs: seq<Input>, k: nat, id: string)
    requires k < |inputs|
  {
    Exists(inputs, k, id) && Exists(inputs, k + 1, id) && At(inputs, k, id).phase != At(inputs, k + 1, id).phase
  }

  /** The mission leaves a terminal phase. */
  predicate Reopens(inputs: seq<Input>, k: nat, id: string)
    requires k < |inputs|
  {
    Exists(inputs, k, id) && Exists(inputs, k + 1, id) && IsTerminal(At(inputs, k, id).phase) && !IsTerminal(At(inputs, k + 1, id).phase)
  }

  function ChangeCount(inputs: seq<Input>, n: nat, id: string): nat
    requires n <= |inputs|
  {
    if n == 0 then 0 else ChangeCount(inputs, n - 1, id) + One(Changes(inputs, n - 1, id))
  }

  function ReopenCount(inputs: seq<Input>, n: nat, id: string): nat
    requires n <= |inputs|
  {
    if n == 0 then 0 else ReopenCount(inputs, n - 1, id) + One(Reopens(inputs, n - 1, id))
  }

  /** Every phase change, once the mission exists, strictly decreases the pair of budget and phases left. */
  lemma ChangesDecrease(inputs: seq<Input>, k: nat, id: string)
    requires FreshMissions(inputs) && k < |inputs| && Changes(inputs, k, id)
    ensures var m, n := At(inputs, k, id), At(inputs, k + 1, id);
            Budget(n) < Budget(m) || (Budget(n) == Budget(m) && Rank(n.phase) < Rank(m.phase))
  {
    hide After, Exec, OutAt;
    Sound(inputs, k, id);
    Continues(inputs, k, id);
    PhaseStep(At(inputs, k, id), inputs[k], Exec(inputs[..k]).reg);
  }

  lemma ReopeningNamesTask(inputs: seq<Input>, k: nat, id: string)
    requires FreshMissions(inputs) && k < |inputs| && Reopens(inputs, k, id)
    ensures NamesCurrentTask(At(inputs, k, id), inputs[k]) && At(inputs, k, id).reassigns < MAX_REASSIGN
    ensures At(inputs, k, id).reassigns < At(inputs, k + 1, id).reassigns <= MAX_REASSIGN
  {
    hide After, Exec, OutAt;
    Sound(inputs, k, id);
    Continues(inputs, k, id);
    PhaseStep(At(inputs, k, id), inputs[k], Exec(inputs[..k]).reg);
  }

  ghost predicate Counted(inputs: seq<Input>, n: nat, id: string)
    requires n <= |inputs|
  {
    if Exists(inputs, n, id) then
      var m := At(inputs, n, id);
      ChangeCount(inputs, n, id) + 6 * Budget(m) + Rank(m.phase) <= 29 && ReopenCount(inputs, n, id) + Left(m) <= 3
    else ChangeCount(inputs, n, id) == ReopenCount(inputs, n, id) == 0
  }

  lemma {:induction false} CountsAreBounded(inputs: seq<Input>, n: nat, id: string)
    requires FreshMissions(inputs) && n <= |inputs|
    ensures Counted(inputs, n, id)
  {
    if n > 0 {
      CountsAreBounded(inputs, n - 1, id);
      CountOneMore(inputs, n - 1, id);
    }
  }

  lemma CountOneMore(inputs: seq<Input>, k: nat, id: string)
    requires FreshMissions(inputs) && k < |inputs| && Counted(inputs, k, id)
    ensures Counted(inputs, k + 1, id)
  {
    hide Exec, After, OutAt;
    if Exists(inputs, k, id) {
      Continues(inputs, k, id);
      Sound(inputs, k, id);
      Sound(inputs, k + 1, id);
      PhaseStep(At(inputs, k, id), inputs[k], Exec(inputs[..k]).reg);
    } else if Creates(inputs[k], id) {
      JustCreated(inputs, k, id);
    } else {
      UnknownStaysSilent(inputs, k, id);
    }
  }

  lemma JustCreated(inputs: seq<Input>, k: nat, id: string)
    requires k < |inputs| && Creates(inputs[k], id)
    ensures Exists(inputs, k + 1, id) && At(inputs, k + 1, id).reassigns == 0 && At(inputs, k + 1, id).phase in {UavAssigned, Failed}
  {
    hide Exec, Chosen, Ticked;
    ExecNext(inputs, k);
  }

  /** In every run a mission changes phase at most 29 times and leaves a terminal phase at most 3 times. */
  lemma PhaseChangesAreBounded(inputs: seq<Input>, id: string)
    requires FreshMissions(inputs)
    ensures ChangeCount(inputs, |inputs|, id) <= 29 && ReopenCount(inputs, |inputs|, id) <= 3
  {
    hide ChangeCount, ReopenCount;
    CountsAreBounded(inputs, |inputs|, id);
  }

  /** A mission that has failed with its budget spent stays failed, and no assignment follows. */
  lemma {:induction false} SpentIsFinal(inputs: seq<Input>, k: nat, n: nat, id: string)
    requires FreshMissions(inputs) && k <= n <= |inputs| && Exists(inputs, k, id)
    requires At(inputs, k, id).phase == Failed && At(inputs, k, id).reassigns >= 4
    ensures Exists(inputs, n, id) && At(inputs, n, id).phase == Failed && At(inputs, n, id).reassigns >= 4
    ensures forall j, t :: k <= j < n ==> !Assigns(OutAt(inputs, j), id, t)
    decreases n
  {
    hide Exec, After, OutAt;
    if k < n {
      SpentIsFinal(inputs, k, n - 1, id);
      Sound(inputs, n - 1, id);
      Continues(inputs, n - 1, id);
      PhaseStep(At(inputs, n - 1, id), inputs[n - 1], Exec(inputs[..n - 1]).reg);
      SameAssigns(OutAt(inputs, n - 1), After(At(inputs, n - 1, id), inputs[n - 1], Exec(inputs[..n - 1]).reg).1, id);
    }
  }
}
