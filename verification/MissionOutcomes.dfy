/** How missions move and end over whole runs, in terms of inputs, phases and published messages. */
module MissionOutcomes {
  import opened Wrappers
  import opened DeviceRegistries
  import opened MissionControl
  import opened MissionRuns
  import opened MissionBounds
  import opened MissionSelection

  // ----- devices

  /** Last heard of at most five seconds ago; online, idle or reserved, with enough battery and a valid
      position in the target's frame; able to do the task. */
  predicate Serviceable(s: AgentState, now: int, target: Pose, t: TaskType) {
    && now - s.timestamp <= 5000
    && s.online && (s.work == Idle || s.work == Reserved) && s.batteryOk && s.positionValid
    && s.pose.Some? && s.pose.value.frame == target.frame
    && (t == InspectTarget ==> "INSPECT" in s.capabilities) && (t == PickupAndDeliver ==> "PICKUP" in s.capabilities)
  }

  /** In the plane, `s` is at most as far from the target as `r`. */
  predicate NoFarther(s: AgentState, r: AgentState, target: Pose) {
    s.pose.Some? && r.pose.Some?
    && var a, b, c, d := s.pose.value.x - target.x, s.pose.value.y - target.y, r.pose.value.x - target.x, r.pose.value.y - target.y;
       a * a + b * b <= c * c + d * d
  }

  lemma FitIsServiceable(s: AgentState, now: int, target: Pose, t: TaskType)
    ensures Fit(s, now, target, t) <==> Serviceable(s, now, target, t)
  {
  }

  lemma NoFartherIsDistance(s: AgentState, r: AgentState, target: Pose)
    requires s.pose.Some? && r.pose.Some?
    ensures NoFarther(s, r, target) <==> Distance2(s, target) <= Distance2(r, target)
  {
  }

  /** The device can be given the task at the `k`-th input: its last report makes it serviceable, and no
      failure of the mission so far, this input included, names it. */
  ghost predicate Eligible(inputs: seq<Input>, k: nat, id: string, target: Pose, t: TaskType, s: AgentState)
    requires k < |inputs| && !inputs[k].Heartbeat?
  {
    LastReport(inputs, k, s) && Serviceable(s, inputs[k].now, target, t) && !NamedInFailure(inputs, k + 1, id, s.agentId)
  }

  ghost predicate SomeEligible(inputs: seq<Input>, k: nat, id: string, target: Pose, t: TaskType)
    requires k < |inputs| && !inputs[k].Heartbeat?
  {
    exists s :: Eligible(inputs, k, id, target, t, s)
  }

  /** Every assignment goes to an eligible device, and no other eligible device is nearer. */
  lemma AssigneeIsNearest(inputs: seq<Input>, k: nat, a: Published)
    requires FreshMissions(inputs) && NondecreasingClock(inputs) && k < |inputs| && a in OutAt(inputs, k) && a.Assign?
    ensures !inputs[k].Heartbeat?
    ensures exists s: AgentState :: s.agentId == a.agentId && Eligible(inputs, k, a.missionId, a.target, a.taskType, s)
              && forall r :: Eligible(inputs, k, a.missionId, a.target, a.taskType, r) ==> NoFarther(s, r, a.target)
  {
    hide LastReport, Exec, Distance2, NondecreasingClock, NamedInFailure, Step, Serviceable, NoFarther;
    SelectionIsSound(inputs, k, a);
    var s: AgentState :| s.agentId == a.agentId && LastReport(inputs, k, s) && Fit(s, inputs[k].now, a.target, a.taskType)
              && forall r :: LastReport(inputs, k, r) && Fit(r, inputs[k].now, a.target, a.taskType)
                             && !NamedInFailure(inputs, k + 1, a.missionId, r.agentId)
                             ==> Distance2(s, a.target) <= Distance2(r, a.target);
    FitIsServiceable(s, inputs[k].now, a.target, a.taskType);
    forall r | Eligible(inputs, k, a.missionId, a.target, a.taskType, r)
      ensures NoFarther(s, r, a.target)
    {
      FitIsServiceable(r, inputs[k].now, a.target, a.taskType);
      NoFartherIsDistance(s, r, a.target);
    }
  }

  // ----- ties

  predicate FirstReported(inputs: seq<Input>, n: nat, j: nat, agent: string)
    requires n <= |inputs|
  {
    j < n && inputs[j].Heartbeat? && inputs[j].state.agentId == agent
    && forall i :: 0 <= i < j && inputs[i].Heartbeat? ==> inputs[i].state.agentId != agent
  }

  /** `a` was heard of before `b` was for the first time. */
  ghost predicate HeardBefore(inputs: seq<Input>, n: nat, a: string, b: string)
    requires n <= |inputs|
  {
    exists i: nat, j: nat :: i < j && FirstReported(inputs, n, i, a) && FirstReported(inputs, n, j, b)
  }

  ghost predicate HeardOf(inputs: seq<Input>, n: nat, a: string)
    requires n <= |inputs|
  {
    exists i: nat :: FirstReported(inputs, n, i, a)
  }

  ghost predicate OrderOk(inputs: seq<Input>, n: nat, order: seq<string>)
    requires n <= |inputs|
  {
    && (forall i, j :: 0 <= i < j < |order| ==> HeardBefore(inputs, n, order[i], order[j]))
    && (forall i :: 0 <= i < |order| ==> HeardOf(inputs, n, order[i]))
  }

  lemma StillHeard(inputs: seq<Input>, n: nat, a: string, b: string)
    requires n < |inputs|
    ensures HeardOf(inputs, n, a) ==> HeardOf(inputs, n + 1, a)
    ensures HeardBefore(inputs, n, a, b) ==> HeardBefore(inputs, n + 1, a, b)
  {
    var m := n + 1;
    if HeardOf(inputs, n, a) {
      var i: nat :| FirstReported(inputs, n, i, a);
      assert FirstReported(inputs, m, i, a);
    }
    if HeardBefore(inputs, n, a, b) {
      var i: nat, j: nat :| i < j && FirstReported(inputs, n, i, a) && FirstReported(inputs, n, j, b);
      assert FirstReported(inputs, m, i, a) && FirstReported(inputs, m, j, b);
    }
  }

  lemma NewlyHeard(inputs: seq<Input>, n: nat, a: string, b: string)
    requires n < |inputs| && inputs[n].Heartbeat? && inputs[n].state.agentId == b
    requires forall i :: 0 <= i < n && inputs[i].Heartbeat? ==> inputs[i].state.agentId != b
    ensures HeardOf(inputs, n + 1, b) && (HeardOf(inputs, n, a) ==> HeardBefore(inputs, n + 1, a, b))
  {
    var m := n + 1;
    assert FirstReported(inputs, m, n, b);
    if HeardOf(inputs, n, a) {
      var i: nat :| FirstReported(inputs, n, i, a);
      assert FirstReported(inputs, m, i, a);
    }
  }

  lemma OrderNext(inputs: seq<Input>, n: nat, order: seq<string>, next: seq<string>)
    requires n < |inputs| && OrderOk(inputs, n, order)
    requires forall i :: 0 <= i < n && inputs[i].Heartbeat? ==> inputs[i].state.agentId in order
    requires next == if inputs[n].Heartbeat? && inputs[n].state.agentId !in order then order + [inputs[n].state.agentId] else order
    ensures OrderOk(inputs, n + 1, next)
  {
    hide HeardBefore, HeardOf;
    forall i, j | 0 <= i < j < |next|
      ensures HeardBefore(inputs, n + 1, next[i], next[j])
    {
      if j < |order| {
        StillHeard(inputs, n, order[i], order[j]);
      } else {
        NewlyHeard(inputs, n, order[i], next[j]);
      }
    }
    forall i | 0 <= i < |next|
      ensures HeardOf(inputs, n + 1, next[i])
    {
      if i < |order| {
        StillHeard(inputs, n, order[i], order[i]);
      } else {
        NewlyHeard(inputs, n, next[i], next[i]);
      }
    }
  }

  lemma AllListed(inputs: seq<Input>, n: nat)
    requires n <= |inputs|
    ensures forall i :: 0 <= i < n && inputs[i].Heartbeat? ==> inputs[i].state.agentId in Exec(inputs[..n]).reg.order
  {
    hide Exec, Step, Report, Ticked;
    if n > 0 {
      AllListed(inputs, n - 1);
      ExecNext(inputs, n - 1);
      RegistryStep(Exec(inputs[..n - 1]), inputs[n - 1]);
      ReportLists(Exec(inputs[..n - 1]).reg, inputs[n - 1]);
    }
  }

  lemma ReportLists(reg: Registry, i: Input)
    requires reg.Valid()
    ensures i.Heartbeat? ==> Report(reg, i.state).order == if i.state.agentId in reg.order then reg.order else reg.order + [i.state.agentId]
    ensures !i.Heartbeat? ==> Ticked(reg, i.now).order == reg.order
  {
  }

  /** The directory lists the devices in the order in which they were first heard of. */
  lemma {:induction false} OrderIsFirstHeard(inputs: seq<Input>, n: nat)
    requires n <= |inputs|
    ensures OrderOk(inputs, n, Exec(inputs[..n]).reg.order)
  {
    hide OrderOk, Exec, Step;
    if n == 0 {
      assert inputs[..0] == [];
      NothingListed(inputs);
    } else {
      OrderIsFirstHeard(inputs, n - 1);
      AllListed(inputs, n - 1);
      ExecNext(inputs, n - 1);
      RegistryStep(Exec(inputs[..n - 1]), inputs[n - 1]);
      ReportLists(Exec(inputs[..n - 1]).reg, inputs[n - 1]);
      OrderNext(inputs, n - 1, Exec(inputs[..n - 1]).reg.order, Exec(inputs[..n]).reg.order);
    }
  }

  lemma NothingListed(inputs: seq<Input>)
    ensures OrderOk(inputs, 0, Exec([]).reg.order)
  {
  }

  /** Of several eligible devices equally near, the one first heard of is chosen. */
  lemma TieGoesToFirst(inputs: seq<Input>, k: nat, target: Pose, t: TaskType, exclude: set<string>, r: AgentState)
    requires k < |inputs| && !inputs[k].Heartbeat? && NondecreasingClock(inputs)
    requires Nearest(SeenAt(inputs, k), target, CapabilityOf(t), exclude).Some?
    requires LastReport(inputs, k, r) && Serviceable(r, inputs[k].now, target, t) && r.agentId !in exclude
    ensures var s := Nearest(SeenAt(inputs, k), target, CapabilityOf(t), exclude).value;
            NoFarther(r, s, target) && r.agentId != s.agentId ==> HeardBefore(inputs, k, s.agentId, r.agentId)
  {
    hide LastReport, Nearest, NondecreasingClock, Fit, Serviceable, HeardBefore, NoFarther, Distance2, Exec;
    var l := SeenAt(inputs, k);
    NearestIsFirstMinimum(l, target, CapabilityOf(t), exclude);
    var s := Nearest(l, target, CapabilityOf(t), exclude).value;
    var n :| 0 <= n < |l| && l[n] == s && IsFirstMinimum(l, n, target, CapabilityOf(t), exclude);
    FitIsServiceable(r, inputs[k].now, target, t);
    var i := FitIsSeen(inputs, k, r, target, t, exclude);
    NoFartherIsDistance(r, s, target);
    OrderIsFirstHeard(inputs, k);
    SeenInOrder(inputs, k, n);
    SeenInOrder(inputs, k, i);
  }

  /** Stated of the assignments: no other eligible device equally near was heard of before the assignee. */
  lemma AssigneeIsFirstHeard(inputs: seq<Input>, k: nat, a: Published, r: AgentState)
    requires FreshMissions(inputs) && NondecreasingClock(inputs) && k < |inputs| && a in OutAt(inputs, k) && a.Assign?
    requires !inputs[k].Heartbeat? && Eligible(inputs, k, a.missionId, a.target, a.taskType, r) && r.agentId != a.agentId
    ensures exists s: AgentState :: s.agentId == a.agentId && Eligible(inputs, k, a.missionId, a.target, a.taskType, s)
                        && (NoFarther(r, s, a.target) ==> HeardBefore(inputs, k, a.agentId, r.agentId))
  {
    hide LastReport, Exec, NondecreasingClock, NamedInFailure, Nearest, Listing, Step, Serviceable, NoFarther, HeardBefore, Fit;
    var w := Exec(inputs[..k]);
    forall id | id in w.missions
      ensures w.missions[id].id == id
    {
      MissionsAreCreated(inputs[..k], id);
    }
    ChosenBehind(w, inputs[k], a);
    ExecNext(inputs, k);
    var m := At(inputs, k + 1, a.missionId);
    forall agent
      ensures agent in m.failedAgents <==> NamedInFailure(inputs, k + 1, a.missionId, agent)
    {
      ExcludedAreNamed(inputs, k + 1, a.missionId, agent);
    }
    var s := NearestIsFit(inputs, k, a.target, a.taskType, m.failedAgents);
    FitIsServiceable(s, inputs[k].now, a.target, a.taskType);
    TieGoesToFirst(inputs, k, a.target, a.taskType, m.failedAgents, r);
    assert Eligible(inputs, k, a.missionId, a.target, a.taskType, s);
  }

  lemma SeenInOrder(inputs: seq<Input>, k: nat, n: nat)
    requires k < |inputs| && !inputs[k].Heartbeat? && n < |SeenAt(inputs, k)|
    ensures |SeenAt(inputs, k)| == |Exec(inputs[..k]).reg.order| && SeenAt(inputs, k)[n].agentId == Exec(inputs[..k]).reg.order[n]
  {
    hide Exec;
    var reg := Exec(inputs[..k]).reg;
    assert reg.order[n] in reg.entries;
  }

  /** The master finds a device exactly when there is one. */
  lemma FoundExactly(inputs: seq<Input>, k: nat, target: Pose, t: TaskType, exclude: set<string>)
    requires k < |inputs| && !inputs[k].Heartbeat? && NondecreasingClock(inputs)
    ensures Nearest(SeenAt(inputs, k), target, CapabilityOf(t), exclude).Some?
       <==> exists s :: LastReport(inputs, k, s) && Serviceable(s, inputs[k].now, target, t) && s.agentId !in exclude
  {
    hide LastReport, Nearest, NondecreasingClock, SeenAt, Fit, Serviceable, IsFirstMinimum;
    var l := SeenAt(inputs, k);
    NearestIsFirstMinimum(l, target, CapabilityOf(t), exclude);
    if Nearest(l, target, CapabilityOf(t), exclude).Some? {
      var s := NearestIsFit(inputs, k, target, t, exclude);
      FitIsServiceable(s, inputs[k].now, target, t);
    }
    if s :| LastReport(inputs, k, s) && Serviceable(s, inputs[k].now, target, t) && s.agentId !in exclude {
      FitIsServiceable(s, inputs[k].now, target, t);
      var i := FitIsSeen(inputs, k, s, target, t, exclude);
    }
  }

  // ----- one step

  predicate Heard(i: Input, id: string) {
    i.Hear? && i.fb.missionId == id
  }

  predicate ReportsFailure(i: Input, id: string) {
    Heard(i, id) && (i.fb.status == TaskFailed || i.fb.status == ManualControlRequired)
  }

  /** The mission is waiting for this result. */
  predicate Awaited(i: Input, id: string, phase: Phase) {
    i.Judge? && i.id == id && phase == AwaitingConfirm
  }

  /** What happens to a mission: everything an input does, given the open tasks, the failures heard so far
      and whether there is a device for each kind of task. */
  datatype Move = Move(phase: Phase, next: Phase, inspect: Option<string>, pickup: Option<string>, failures: nat, uav: bool, ugv: bool)

  predicate Reinspects(i: Input, id: string, v: Move) {
    ReportsFailure(i, id) && v.failures < 3 && i.fb.taskId == v.inspect
  }

  predicate Repicks(i: Input, id: string, v: Move) {
    ReportsFailure(i, id) && v.failures < 3 && i.fb.taskId == v.pickup && i.fb.taskId != v.inspect
  }

  predicate Accepts(i: Input, id: string, task: Option<string>) {
    Heard(i, id) && i.fb.taskId == task && i.fb.status == Accepted
  }

  /** The inputs that end a mission well: a negative result, or the pickup reported as completed. */
  predicate Succeeds(i: Input, id: string, v: Move) {
    || (Awaited(i, id, v.phase) && !i.garbage)
    || (Heard(i, id) && i.fb.taskId == v.pickup && i.fb.status == TaskCompleted && (v.phase == UgvAssigned || v.phase == UgvExecuting))
  }

  /** The inputs that end it badly: a failure with the budget spent or of no open task, and a task to be
      assigned for which there is no device. */
  predicate Fails(i: Input, id: string, v: Move) {
    || (ReportsFailure(i, id) && (v.failures >= 3 || (i.fb.taskId != v.inspect && i.fb.taskId != v.pickup)))
    || (Reinspects(i, id, v) && !v.uav)
    || ((Repicks(i, id, v) || (Awaited(i, id, v.phase) && i.garbage)) && !v.ugv)
  }

  /** The phase after an input. */
  ghost predicate Moves(i: Input, id: string, v: Move) {
    && (v.next == Completed <==> Succeeds(i, id, v) || (v.phase == Completed && !ReportsFailure(i, id)))
    && (v.next == Failed <==> Fails(i, id, v) || (v.phase == Failed && !ReportsFailure(i, id)))
    && (v.next == UavAssigned <==>
          (Reinspects(i, id, v) && v.uav)
          || (v.phase == UavAssigned && !ReportsFailure(i, id) && !(Heard(i, id) && i.fb.taskId == v.inspect && i.fb.status in {Accepted, ImageCaptured, TaskCompleted})))
    && (v.next == UavInspecting <==>
          (Accepts(i, id, v.inspect) && v.phase == UavAssigned)
          || (v.phase == UavInspecting && !ReportsFailure(i, id) && !(Heard(i, id) && i.fb.taskId == v.inspect && i.fb.status in {ImageCaptured, TaskCompleted})))
    && (v.next == AwaitingConfirm <==>
          (Heard(i, id) && i.fb.taskId == v.inspect && (i.fb.status == ImageCaptured || i.fb.status == TaskCompleted)
           && (v.phase == UavAssigned || v.phase == UavInspecting))
          || (v.phase == AwaitingConfirm && !ReportsFailure(i, id) && !Awaited(i, id, v.phase)))
    && (v.next == UgvAssigned <==>
          ((Repicks(i, id, v) || (Awaited(i, id, v.phase) && i.garbage)) && v.ugv)
          || (v.phase == UgvAssigned && !ReportsFailure(i, id) && !(Heard(i, id) && i.fb.taskId == v.pickup && i.fb.status in {Accepted, TaskCompleted})))
    && (v.next == UgvExecuting <==>
          (Accepts(i, id, v.pickup) && v.phase == UgvAssigned)
          || (v.phase == UgvExecuting && !ReportsFailure(i, id) && !(Heard(i, id) && i.fb.taskId == v.pickup && i.fb.status == TaskCompleted)))
  }

  predicate Finds(reg: Registry, i: Input, m: MissionState, t: TaskType)
    requires reg.Valid() && !i.Heartbeat?
  {
    var exclude := m.failedAgents + if ReportsFailure(i, m.id) then {i.fb.agentId} else {};
    Nearest(Listing(Ticked(reg, i.now).entries, reg.order), m.target, CapabilityOf(t), exclude).Some?
  }

  function MoveOf(m: MissionState, i: Input, reg: Registry): Move
    requires reg.Valid()
  {
    Move(m.phase, After(m, i, reg).0.phase, m.inspectTask, m.pickupTask, m.reassigns,
         !i.Heartbeat? && Finds(reg, i, m, InspectTarget), !i.Heartbeat? && Finds(reg, i, m, PickupAndDeliver))
  }

  lemma AfterMoves(m: MissionState, i: Input, reg: Registry)
    requires reg.Valid() && m.phase != Created
    ensures Moves(i, m.id, MoveOf(m, i, reg))
  {
    if ReportsFailure(i, m.id) {
      FailureMoves(m, i, reg);
    } else if Heard(i, m.id) {
      FeedbackMoves(m, i, reg);
    } else {
      ResultMoves(m, i, reg);
    }
  }

  lemma FailureMoves(m: MissionState, i: Input, reg: Registry)
    requires reg.Valid() && m.phase != Created && ReportsFailure(i, m.id)
    ensures Moves(i, m.id, MoveOf(m, i, reg))
  {
    hide Nearest, Listing, Ticked, InspectionOutcome;
    var excluded := m.failedAgents + {i.fb.agentId};
    assert After(m, i, reg).0 == Failure(m, i.fb, reg, i.now, i.newTask).m;
  }

  lemma FeedbackMoves(m: MissionState, i: Input, reg: Registry)
    requires reg.Valid() && m.phase != Created && Heard(i, m.id) && !ReportsFailure(i, m.id)
    ensures Moves(i, m.id, MoveOf(m, i, reg))
  {
    hide Finds, Failure, InspectionOutcome;
  }

  lemma ResultMoves(m: MissionState, i: Input, reg: Registry)
    requires reg.Valid() && m.phase != Created && !Heard(i, m.id)
    ensures Moves(i, m.id, MoveOf(m, i, reg))
  {
    hide Nearest, Listing, Ticked, FeedbackOutcome;
    assert m.failedAgents + {} == m.failedAgents;
  }

  // ----- what is published and noted

  /** A picture is reported for the open inspection. */
  predicate Pictures(i: Input, id: string, v: Move) {
    Heard(i, id) && i.fb.taskId == v.inspect && (i.fb.status == ImageCaptured || i.fb.status == TaskCompleted)
    && (v.phase == UavAssigned || v.phase == UavInspecting)
  }

  /** An assignment of the type is made. */
  predicate Sends(i: Input, id: string, v: Move, t: TaskType) {
    if t == InspectTarget then Reinspects(i, id, v) && v.uav
    else (Repicks(i, id, v) || (Awaited(i, id, v.phase) && i.garbage)) && v.ugv
  }

  /** The names added to the list of events. */
  function Notes(i: Input, id: string, v: Move): seq<string> {
    if ReportsFailure(i, id) then
      (if v.failures >= 3 then [] else ["task_failed"])
      + (if Fails(i, id, v) then ["mission_failed"] else ["selection", "task_assigned"])
    else if Awaited(i, id, v.phase) then
      if !i.garbage then ["inspection_rejected"]
      else ["inspection_confirmed"] + if v.ugv then ["selection", "task_assigned"] else ["mission_failed"]
    else if Succeeds(i, id, v) then ["mission_completed"]
    else if Pictures(i, id, v) then ["image_captured"]
    else if (Accepts(i, id, v.inspect) && v.phase == UavAssigned) || (Accepts(i, id, v.pickup) && v.phase == UgvAssigned) then ["task_accepted"]
    else []
  }

  /** What is published about the mission. */
  ghost predicate Says(out: seq<Published>, i: Input, m: MissionState, v: Move) {
    && |out| <= 1
    && (Result(m.id, true) in out <==> Succeeds(i, m.id, v))
    && (Result(m.id, false) in out <==> Fails(i, m.id, v))
    && (forall t :: Sends(i, m.id, v, t) <==> (i.Hear? || i.Judge?) && exists agent :: Assign(m.id, i.newTask, agent, t, m.target) in out)
    && (forall p :: p in out && p.Assign? ==> Sends(i, m.id, v, p.taskType) && p == Assign(m.id, i.newTask, p.agentId, p.taskType, m.target))
  }

  /** The record of the mission besides its phase. */
  predicate Records(n: MissionState, i: Input, m: MissionState, v: Move) {
    && n.id == m.id && n.target == m.target
    && n.inspectTask == (if Sends(i, m.id, v, InspectTarget) then Some(i.newTask) else if Reinspects(i, m.id, v) then None else m.inspectTask)
    && n.pickupTask == (if Sends(i, m.id, v, PickupAndDeliver) then Some(i.newTask) else if Repicks(i, m.id, v) then None else m.pickupTask)
    && n.reassigns == m.reassigns + (if ReportsFailure(i, m.id) then 1 else 0)
    && n.imageUrl == (if Pictures(i, m.id, v) && i.fb.imageUrl.Some? && i.fb.imageUrl.value != "" then i.fb.imageUrl else m.imageUrl)
    && n.garbage == (if Awaited(i, m.id, m.phase) then Some(i.garbage) else m.garbage)
    && n.events == m.events + Notes(i, m.id, v)
  }

  lemma AfterSays(m: MissionState, i: Input, reg: Registry)
    requires reg.Valid() && m.phase != Created
    ensures Says(After(m, i, reg).1, i, m, MoveOf(m, i, reg)) && Records(After(m, i, reg).0, i, m, MoveOf(m, i, reg))
  {
    if ReportsFailure(i, m.id) {
      FailureSays(m, i, reg);
      FailureRecords(m, i, reg);
    } else if Heard(i, m.id) {
      FeedbackSays(m, i, reg);
    } else {
      ResultSays(m, i, reg);
    }
  }

  lemma FailureSays(m: MissionState, i: Input, reg: Registry)
    requires reg.Valid() && m.phase != Created && ReportsFailure(i, m.id)
    ensures Says(After(m, i, reg).1, i, m, MoveOf(m, i, reg))
  {
    hide Nearest, Listing, Ticked, InspectionOutcome;
    var o := Failure(m, i.fb, reg, i.now, i.newTask);
    assert After(m, i, reg) == (o.m, o.out);
    assert o.out == [o.out[0]];
    assert o.out[0].Assign? ==> o.out[0] == Assign(m.id, i.newTask, o.out[0].agentId, o.out[0].taskType, m.target);
  }

  lemma FailureRecords(m: MissionState, i: Input, reg: Registry)
    requires reg.Valid() && m.phase != Created && ReportsFailure(i, m.id)
    ensures Records(After(m, i, reg).0, i, m, MoveOf(m, i, reg))
  {
    hide Nearest, Listing, Ticked, InspectionOutcome;
  }

  lemma FeedbackSays(m: MissionState, i: Input, reg: Registry)
    requires reg.Valid() && m.phase != Created && Heard(i, m.id) && !ReportsFailure(i, m.id)
    ensures Says(After(m, i, reg).1, i, m, MoveOf(m, i, reg)) && Records(After(m, i, reg).0, i, m, MoveOf(m, i, reg))
  {
    hide Finds, Failure, InspectionOutcome;
    assert m.events + [] == m.events;
  }

  lemma ResultSays(m: MissionState, i: Input, reg: Registry)
    requires reg.Valid() && m.phase != Created && !Heard(i, m.id)
    ensures Says(After(m, i, reg).1, i, m, MoveOf(m, i, reg)) && Records(After(m, i, reg).0, i, m, MoveOf(m, i, reg))
  {
    hide Nearest, Listing, Ticked, FeedbackOutcome;
    assert m.failedAgents + {} == m.failedAgents;
    assert m.events + [] == m.events;
    var out := After(m, i, reg).1;
    if |out| > 0 {
      assert out == [out[0]];
      assert out[0].Assign? ==> out[0] == Assign(m.id, i.newTask, out[0].agentId, out[0].taskType, m.target);
    }
  }

  // ----- whole runs

  /** How many failures of the mission have been reported before the `n`-th input. */
  function FailuresHeard(inputs: seq<Input>, n: nat, id: string): nat
    requires n <= |inputs|
  {
    if n == 0 then 0
    else FailuresHeard(inputs, n - 1, id) + One(Exists(inputs, n - 1, id) && ReportsFailure(inputs[n - 1], id))
  }

  /** What the `k`-th input makes the master publish about the mission. */
  function Words(inputs: seq<Input>, k: nat, id: string): seq<Published>
    requires k < |inputs|
  {
    var out := OutAt(inputs, k);
    if |out| == 1 && out[0].missionId == id then out else []
  }

  /** The open task of the type: the last one assigned, until a failure with budget left names it. */
  function Open(inputs: seq<Input>, n: nat, id: string, t: TaskType): Option<string>
    requires n <= |inputs|
    decreases n, t == PickupAndDeliver
  {
    if n == 0 then None
    else
      var i, out, before := inputs[n - 1], Words(inputs, n - 1, id), Open(inputs, n - 1, id, t);
      if |out| == 1 && out[0].Assign? && out[0].taskType == t then Some(out[0].taskId)
      else if ReportsFailure(i, id) && FailuresHeard(inputs, n - 1, id) < 3 && i.fb.taskId == before
              && (t == PickupAndDeliver ==> i.fb.taskId != Open(inputs, n - 1, id, InspectTarget)) then None
      else before
  }

  /** The `k`-th move of the mission, by what has been said and heard before. */
  ghost function MoveAt(inputs: seq<Input>, k: nat, id: string): Move
    requires k < |inputs| && Exists(inputs, k, id) && Exists(inputs, k + 1, id)
  {
    var target := At(inputs, k, id).target;
    Move(At(inputs, k, id).phase, At(inputs, k + 1, id).phase, Open(inputs, k, id, InspectTarget), Open(inputs, k, id, PickupAndDeliver),
         FailuresHeard(inputs, k, id),
         !inputs[k].Heartbeat? && SomeEligible(inputs, k, id, target, InspectTarget),
         !inputs[k].Heartbeat? && SomeEligible(inputs, k, id, target, PickupAndDeliver))
  }

  lemma FindsEligible(inputs: seq<Input>, k: nat, id: string, t: TaskType)
    requires FreshMissions(inputs) && NondecreasingClock(inputs) && k < |inputs| && Exists(inputs, k, id) && !inputs[k].Heartbeat?
    ensures At(inputs, k, id).id == id
    ensures Finds(Exec(inputs[..k]).reg, inputs[k], At(inputs, k, id), t) <==> SomeEligible(inputs, k, id, At(inputs, k, id).target, t)
  {
    hide Exec, After, LastReport, Nearest, Listing, NondecreasingClock, NamedInFailure, Serviceable;
    var m, reg := At(inputs, k, id), Exec(inputs[..k]).reg;
    Continues(inputs, k, id);
    AfterAddsFailed(m, inputs[k], reg);
    var n := At(inputs, k + 1, id);
    assert n.failedAgents == m.failedAgents + if ReportsFailure(inputs[k], id) then {inputs[k].fb.agentId} else {};
    forall agent
      ensures agent in n.failedAgents <==> NamedInFailure(inputs, k + 1, id, agent)
    {
      ExcludedAreNamed(inputs, k + 1, id, agent);
    }
    FoundExactly(inputs, k, m.target, t, n.failedAgents);
    if s :| LastReport(inputs, k, s) && Serviceable(s, inputs[k].now, m.target, t) && s.agentId !in n.failedAgents {
      assert Eligible(inputs, k, id, m.target, t, s);
    }
  }

  lemma WordsAreAfter(inputs: seq<Input>, k: nat, id: string)
    requires FreshMissions(inputs) && k < |inputs| && Exists(inputs, k, id)
    ensures Words(inputs, k, id) == After(At(inputs, k, id), inputs[k], Exec(inputs[..k]).reg).1
  {
    hide Exec, After, Step, Finds, Records, Sends, Succeeds, Fails, FreshMissions, OutAt;
    var m, reg := At(inputs, k, id), Exec(inputs[..k]).reg;
    Continues(inputs, k, id);
    Sound(inputs, k, id);
    AfterSays(m, inputs[k], reg);
    AllAbout(m, inputs[k], reg);
    var out, mine := OutAt(inputs, k), After(m, inputs[k], reg).1;
    assert |out| <= 1 by {
      OneWord(inputs, k);
    }
    assert |mine| <= 1;
    if |mine| == 1 {
      assert mine[0] in mine;
      assert mine[0] in out;
    } else if |out| == 1 {
      assert out[0] in out;
    }
  }

  lemma OneWord(inputs: seq<Input>, k: nat)
    requires k < |inputs|
    ensures |OutAt(inputs, k)| <= 1
  {
    hide Exec, Step;
    OneMessage(Exec(inputs[..k]), inputs[k]);
  }

  /** The record of the mission's open tasks and failures is what was said and heard. */
  ghost predicate Recorded(inputs: seq<Input>, n: nat, id: string)
    requires n <= |inputs|
  {
    if Exists(inputs, n, id) then
      var m := At(inputs, n, id);
      && m.inspectTask == Open(inputs, n, id, InspectTarget) && m.pickupTask == Open(inputs, n, id, PickupAndDeliver)
      && m.reassigns == FailuresHeard(inputs, n, id)
      && (m.phase in {UavAssigned, UavInspecting} ==> m.inspectTask.Some?)
      && (m.phase in {UgvAssigned, UgvExecuting} ==> m.pickupTask.Some?)
    else
      Open(inputs, n, id, InspectTarget) == Open(inputs, n, id, PickupAndDeliver) == None && FailuresHeard(inputs, n, id) == 0
  }

  lemma {:induction false} TasksAreOpen(inputs: seq<Input>, n: nat, id: string)
    requires FreshMissions(inputs) && n <= |inputs|
    ensures Recorded(inputs, n, id)
  {
    hide Recorded, Exec, Open, FailuresHeard;
    if n == 0 {
      NothingRecorded(inputs, id);
    } else {
      TasksAreOpen(inputs, n - 1, id);
      if Exists(inputs, n - 1, id) {
        RecordedNext(inputs, n - 1, id);
      } else if Creates(inputs[n - 1], id) {
        RecordedFirst(inputs, n - 1, id);
      } else {
        RecordedNothing(inputs, n - 1, id);
      }
    }
  }

  lemma NothingRecorded(inputs: seq<Input>, id: string)
    ensures Recorded(inputs, 0, id)
  {
    assert inputs[..0] == [];
    NothingExists(id);
  }

  lemma RecordedNext(inputs: seq<Input>, k: nat, id: string)
    requires FreshMissions(inputs) && k < |inputs| && Exists(inputs, k, id) && Recorded(inputs, k, id)
    ensures Recorded(inputs, k + 1, id)
  {
    hide Exec, After, Finds;
    var m, reg := At(inputs, k, id), Exec(inputs[..k]).reg;
    Continues(inputs, k, id);
    Sound(inputs, k, id);
    AfterSays(m, inputs[k], reg);
    AfterMoves(m, inputs[k], reg);
    WordsAreAfter(inputs, k, id);
  }

  lemma RecordedNothing(inputs: seq<Input>, k: nat, id: string)
    requires FreshMissions(inputs) && k < |inputs| && !Exists(inputs, k, id) && !Creates(inputs[k], id) && Recorded(inputs, k, id)
    ensures Recorded(inputs, k + 1, id)
  {
    hide Exec, OutAt;
    UnknownStaysSilent(inputs, k, id);
    var out := OutAt(inputs, k);
    assert |out| == 1 ==> out[0] in out;
    assert Words(inputs, k, id) == [];
  }

  lemma RecordedFirst(inputs: seq<Input>, k: nat, id: string)
    requires FreshMissions(inputs) && k < |inputs| && !Exists(inputs, k, id) && Creates(inputs[k], id) && Recorded(inputs, k, id)
    ensures Recorded(inputs, k + 1, id)
  {
    hide Exec, Chosen, Ticked;
    ExecNext(inputs, k);
    JustCreated(inputs, k, id);
  }

  lemma MovesAlike(inputs: seq<Input>, k: nat, id: string)
    requires FreshMissions(inputs) && NondecreasingClock(inputs) && k < |inputs| && Exists(inputs, k, id) && Exists(inputs, k + 1, id)
    ensures MoveAt(inputs, k, id) == MoveOf(At(inputs, k, id), inputs[k], Exec(inputs[..k]).reg)
  {
    hide Exec, After, Finds, Open, FailuresHeard, SomeEligible, NondecreasingClock;
    TasksAreOpen(inputs, k, id);
    Continues(inputs, k, id);
    if !inputs[k].Heartbeat? {
      FindsEligible(inputs, k, id, InspectTarget);
      FindsEligible(inputs, k, id, PickupAndDeliver);
    }
  }

  /** On every run each input does to a mission exactly what `Moves`, `Says` and `Records` say, given the
      messages published and the failures and device reports heard so far. */
  lemma MissionMoves(inputs: seq<Input>, k: nat, id: string)
    requires FreshMissions(inputs) && NondecreasingClock(inputs) && k < |inputs| && Exists(inputs, k, id)
    ensures Exists(inputs, k + 1, id)
    ensures var m, v := At(inputs, k, id), MoveAt(inputs, k, id);
            && m.id == id && Moves(inputs[k], id, v)
            && Says(Words(inputs, k, id), inputs[k], m, v) && Records(At(inputs, k + 1, id), inputs[k], m, v)
  {
    hide Exec, After, Moves, Says, Records, MoveAt, MoveOf, NondecreasingClock, OutAt, Words;
    var m, reg := At(inputs, k, id), Exec(inputs[..k]).reg;
    Continues(inputs, k, id);
    Sound(inputs, k, id);
    AfterMoves(m, inputs[k], reg);
    AfterSays(m, inputs[k], reg);
    MovesAlike(inputs, k, id);
    WordsAreAfter(inputs, k, id);
  }

  /** A mission is completed exactly by the negative result it waits for, or by the vehicle reporting the
      open pickup as completed while it is assigned or executed. */
  lemma CompletedExactly(inputs: seq<Input>, k: nat, id: string)
    requires FreshMissions(inputs) && NondecreasingClock(inputs) && k < |inputs| && Exists(inputs, k, id)
    ensures Exists(inputs, k + 1, id)
    ensures var before, after, i, task := At(inputs, k, id).phase, At(inputs, k + 1, id).phase, inputs[k], Open(inputs, k, id, PickupAndDeliver);
            && (before in {UgvAssigned, UgvExecuting} ==> task.Some?)
            && (before != Completed && after == Completed <==>
                  || (before == AwaitingConfirm && i.Judge? && i.id == id && !i.garbage)
                  || (before in {UgvAssigned, UgvExecuting} && i.Hear? && i.fb.missionId == id && i.fb.status == TaskCompleted && i.fb.taskId == task))
  {
    hide Exec, Says, Records, NondecreasingClock, Open, FailuresHeard, SomeEligible;
    MissionMoves(inputs, k, id);
    TasksAreOpen(inputs, k, id);
  }

  /** A mission fails exactly by a failure with the budget of three spent, a failure that names no open
      task, or a task to be assigned for which there is no device. */
  lemma FailedExactly(inputs: seq<Input>, k: nat, id: string)
    requires FreshMissions(inputs) && NondecreasingClock(inputs) && k < |inputs| && Exists(inputs, k, id)
    ensures Exists(inputs, k + 1, id)
    ensures var m, after, i := At(inputs, k, id), At(inputs, k + 1, id).phase, inputs[k];
            var inspect, pickup := Open(inputs, k, id, InspectTarget), Open(inputs, k, id, PickupAndDeliver);
            m.phase != Failed ==>
              (after == Failed <==>
                 || (i.Hear? && i.fb.missionId == id && i.fb.status in {TaskFailed, ManualControlRequired}
                     && (FailuresHeard(inputs, k, id) >= 3
                         || if i.fb.taskId == inspect then !SomeEligible(inputs, k, id, m.target, InspectTarget)
                            else i.fb.taskId == pickup ==> !SomeEligible(inputs, k, id, m.target, PickupAndDeliver)))
                 || (m.phase == AwaitingConfirm && i.Judge? && i.id == id && i.garbage
                     && !SomeEligible(inputs, k, id, m.target, PickupAndDeliver)))
  {
    hide Exec, Says, Records, NondecreasingClock, Open, FailuresHeard, SomeEligible;
    MissionMoves(inputs, k, id);
  }

  /** Each end is announced by exactly one result, of the right kind, and success by nothing else. */
  lemma EndsAreAnnounced(inputs: seq<Input>, k: nat, id: string)
    requires FreshMissions(inputs) && NondecreasingClock(inputs) && k < |inputs| && Exists(inputs, k, id)
    ensures Exists(inputs, k + 1, id)
    ensures var before, after, out := At(inputs, k, id).phase, At(inputs, k + 1, id).phase, Words(inputs, k, id);
            && (before != Completed && after == Completed <==> out == [Result(id, true)])
            && (before != Failed && after == Failed ==> out == [Result(id, false)])
            && (out == [Result(id, false)] ==> after == Failed)
            && (|out| == 1 && out[0].Assign? ==> after == if out[0].taskType == InspectTarget then UavAssigned else UgvAssigned)
            && |out| <= 1
  {
    hide Exec, Records, NondecreasingClock, Open, FailuresHeard, SomeEligible, Words;
    MissionMoves(inputs, k, id);
    var out := Words(inputs, k, id);
    if |out| == 1 {
      assert out[0] in out && out == [out[0]];
    }
  }

  /** A new mission is given to an eligible vehicle, or fails when there is none. */
  lemma CreationOutcome(inputs: seq<Input>, k: nat, id: string)
    requires FreshMissions(inputs) && NondecreasingClock(inputs) && k < |inputs| && Creates(inputs[k], id)
    ensures Exists(inputs, k + 1, id) && At(inputs, k + 1, id).target == inputs[k].target
    ensures var m, i, out := At(inputs, k + 1, id), inputs[k], OutAt(inputs, k);
            if SomeEligible(inputs, k, id, i.target, InspectTarget) then
              m.phase == UavAssigned && m.inspectTask == Some(i.newTask) && m.events == ["mission_created", "selection", "task_assigned"]
              && exists agent :: out == [Assign(id, i.newTask, agent, InspectTarget, i.target)]
            else
              m.phase == Failed && m.inspectTask == None && m.events == ["mission_created", "mission_failed"] && out == [Result(id, false)]
  {
    hide Exec, LastReport, Nearest, Listing, NondecreasingClock, NamedInFailure, Serviceable, Ticked;
    ExecNext(inputs, k);
    var target, n := inputs[k].target, k + 1;
    NotYetCreated(inputs, k);
    forall agent
      ensures !NamedInFailure(inputs, n, id, agent)
    {
      NobodyNamed(inputs, n, id, agent);
    }
    FoundExactly(inputs, k, target, InspectTarget, {});
    if s :| LastReport(inputs, k, s) && Serviceable(s, inputs[k].now, target, InspectTarget) {
      assert Eligible(inputs, k, id, target, InspectTarget, s);
    }
  }
}
