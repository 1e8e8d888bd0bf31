/** `Mission` and `MissionFSM` of mission_fsm.py: each handler is one step, since none suspends
    between a phase test and the phase write. `newTask` is the id a new assignment is given. */
module MissionControl {
  import opened Wrappers
  import opened DeviceRegistries

  datatype Phase = Created | UavAssigned | UavInspecting | AwaitingConfirm | UgvAssigned | UgvExecuting | Completed | Failed

  datatype Status = Accepted | Rejected | InProgress | ImageCaptured | Returning | TaskCompleted | TaskFailed | ManualControlRequired

  datatype TaskType = InspectTarget | PickupAndDeliver

  /** A null task id in the message is `None`. */
  datatype Feedback = Feedback(missionId: string, taskId: Option<string>, agentId: string, status: Status, imageUrl: Option<string>) {
    predicate IsFailure() {
      status == TaskFailed || status == ManualControlRequired
    }
  }

  datatype Published =
    | Assign(missionId: string, taskId: string, agentId: string, taskType: TaskType, target: Pose)
    | Result(missionId: string, completed: bool)

  datatype MissionState = MissionState(id: string, target: Pose, phase: Phase, inspectTask: Option<string>, pickupTask: Option<string>,
                                       uav: Option<string>, ugv: Option<string>, imageUrl: Option<string>, garbage: Option<bool>,
                                       events: seq<string>, failedAgents: set<string>, reassigns: nat)

  const MAX_REASSIGN := 3

  function New(id: string, target: Pose): MissionState {
    MissionState(id, target, Created, None, None, None, None, None, None, ["mission_created"], {}, 0)
  }

  /** The mission and the directory after a handler, and what the handler published. */
  datatype Outcome = Outcome(m: MissionState, reg: Registry, out: seq<Published>)

  function CapabilityOf(t: TaskType): string {
    if t == InspectTarget then "INSPECT" else "PICKUP"
  }

  function Chosen(m: MissionState, reg: Registry, t: TaskType, now: int): Option<AgentState>
    requires reg.Valid()
  {
    Nearest(Listing(Ticked(reg, now).entries, reg.order), m.target, CapabilityOf(t), m.failedAgents)
  }

  function Failing(m: MissionState, reg: Registry): Outcome {
    Outcome(m.(phase := Failed, events := m.events + ["mission_failed"]), reg, [Result(m.id, false)])
  }

  function AssignUav(m: MissionState, reg: Registry, now: int, newTask: string): Outcome
    requires reg.Valid()
  {
    var s := Chosen(m, reg, InspectTarget, now);
    if s == None then Failing(m, Ticked(reg, now))
    else
      Outcome(m.(uav := Some(s.value.agentId), inspectTask := Some(newTask), phase := UavAssigned,
                 events := m.events + ["selection", "task_assigned"]),
              Ticked(reg, now), [Assign(m.id, newTask, s.value.agentId, InspectTarget, m.target)])
  }

  function AssignUgv(m: MissionState, reg: Registry, now: int, newTask: string): Outcome
    requires reg.Valid()
  {
    var s := Chosen(m, reg, PickupAndDeliver, now);
    if s == None then Failing(m, Ticked(reg, now))
    else
      Outcome(m.(ugv := Some(s.value.agentId), pickupTask := Some(newTask), phase := UgvAssigned,
                 events := m.events + ["selection", "task_assigned"]),
              Ticked(reg, now), [Assign(m.id, newTask, s.value.agentId, PickupAndDeliver, m.target)])
  }

  /** The failing device is excluded for good; the budget is three reassignments. */
  function Failure(m: MissionState, fb: Feedback, reg: Registry, now: int, newTask: string): Outcome
    requires reg.Valid()
  {
    var counted := m.(failedAgents := m.failedAgents + {fb.agentId}, reassigns := m.reassigns + 1);
    if counted.reassigns > MAX_REASSIGN then Failing(counted, reg)
    else
      var noted := counted.(events := m.events + ["task_failed"]);
      if fb.taskId == m.inspectTask then AssignUav(noted.(phase := Created, inspectTask := None), reg, now, newTask)
      else if fb.taskId == m.pickupTask then AssignUgv(noted.(phase := AwaitingConfirm, pickupTask := None), reg, now, newTask)
      else Failing(noted, reg)
  }

  function Moved(m: MissionState, phase: Phase, event: string): MissionState {
    m.(phase := phase, events := m.events + [event])
  }

  /** `a or b` on optional strings: the empty string counts as absent. */
  function Or(a: Option<string>, b: Option<string>): Option<string> {
    if a == None || a == Some("") then b else a
  }

  function FeedbackOutcome(m: MissionState, fb: Feedback, reg: Registry, now: int, newTask: string): Outcome
    requires reg.Valid()
  {
    if fb.IsFailure() then Failure(m, fb, reg, now, newTask)
    else if fb.taskId == m.inspectTask && fb.status == Accepted && m.phase == UavAssigned then
      Outcome(Moved(m, UavInspecting, "task_accepted"), reg, [])
    else if fb.taskId == m.inspectTask && fb.status in {ImageCaptured, TaskCompleted} && m.phase in {UavAssigned, UavInspecting} then
      Outcome(Moved(m.(imageUrl := Or(fb.imageUrl, m.imageUrl)), AwaitingConfirm, "image_captured"), reg, [])
    else if fb.taskId == m.pickupTask && fb.status == Accepted && m.phase == UgvAssigned then
      Outcome(Moved(m, UgvExecuting, "task_accepted"), reg, [])
    else if fb.taskId == m.pickupTask && fb.status == TaskCompleted && m.phase in {UgvAssigned, UgvExecuting} then
      Outcome(Moved(m, Completed, "mission_completed"), reg, [Result(m.id, true)])
    else Outcome(m, reg, [])
  }

  function InspectionOutcome(m: MissionState, garbage: bool, reg: Registry, now: int, newTask: string): Outcome
    requires reg.Valid()
  {
    if m.phase != AwaitingConfirm then Outcome(m, reg, [])
    else if garbage then AssignUgv(m.(garbage := Some(true), events := m.events + ["inspection_confirmed"]), reg, now, newTask)
    else Outcome(Moved(m.(garbage := Some(false)), Completed, "inspection_rejected"), reg, [Result(m.id, true)])
  }

  class Mission {
    const id: string
    const target: Pose
    var phase: Phase
    var inspectTask: Option<string>
    var pickupTask: Option<string>
    var uav: Option<string>
    var ugv: Option<string>
    var imageUrl: Option<string>
    var garbage: Option<bool>
    var events: seq<string>
    var failedAgents: set<string>
    var reassigns: nat

    function View(): MissionState
      reads this
    {
      MissionState(id, target, phase, inspectTask, pickupTask, uav, ugv, imageUrl, garbage, events, failedAgents, reassigns)
    }

    constructor (id: string, target: Pose)
      ensures View() == New(id, target).(events := [])
    {
      this.id, this.target, phase := id, target, Created;
      inspectTask, pickupTask, uav, ugv, imageUrl, garbage := None, None, None, None, None, None;
      events, failedAgents, reassigns := [], {}, 0;
    }

    method Emit(event: string)
      modifies this`events
      ensures events == old(events) + [event]
    {
      events := events + [event];
    }
  }

  class MissionFSM {
    const registry: DeviceRegistry
    var missions: map<string, Mission>
    var published: seq<Published>

    ghost predicate Valid()
      reads this, registry, missions.Values
    {
      registry.View().Valid() && forall id :: id in missions ==> missions[id].id == id
    }

    function Views(): map<string, MissionState>
      reads this, missions.Values
    {
      map id | id in missions :: missions[id].View()
    }

    constructor (registry: DeviceRegistry)
      requires registry.View().Valid()
      ensures Valid() && this.registry == registry && Views() == map[] && published == []
    {
      this.registry, missions, published := registry, map[], [];
    }

    method FailMission(m: Mission)
      modifies m, this`published
      ensures m.View() == Failing(old(m.View()), registry.View()).m
      ensures published == old(published) + [Result(m.id, false)]
    {
      m.phase := Failed;
      m.Emit("mission_failed");
      published := published + [Result(m.id, false)];
    }

    method Select(t: TaskType, m: Mission, now: int) returns (s: Option<AgentState>)
      requires registry.View().Valid()
      modifies m`events, registry
      ensures s == Chosen(old(m.View()), old(registry.View()), t, now)
      ensures registry.View() == Ticked(old(registry.View()), now) && registry.View().Valid()
      ensures m.events == old(m.events) + if s.Some? then ["selection"] else []
    {
      s := registry.SelectNearest(m.target, CapabilityOf(t), m.failedAgents, now);
      if s.Some? {
        m.events := m.events + ["selection"];
      }
    }

    method AssignUavTo(m: Mission, now: int, newTask: string)
      requires registry.View().Valid()
      modifies m, registry, this`published
      ensures registry.View().Valid()
      ensures var o := AssignUav(old(m.View()), old(registry.View()), now, newTask);
              m.View() == o.m && registry.View() == o.reg && published == old(published) + o.out
    {
      hide Chosen, Ticked;
      var s := Select(InspectTarget, m, now);
      if s == None {
        FailMission(m);
        return;
      }
      m.uav := Some(s.value.agentId);
      m.inspectTask := Some(newTask);
      m.phase := UavAssigned;
      published := published + [Assign(m.id, newTask, s.value.agentId, InspectTarget, m.target)];
      m.Emit("task_assigned");
    }

    method AssignUgvTo(m: Mission, now: int, newTask: string)
      requires registry.View().Valid()
      modifies m, registry, this`published
      ensures registry.View().Valid()
      ensures var o := AssignUgv(old(m.View()), old(registry.View()), now, newTask);
              m.View() == o.m && registry.View() == o.reg && published == old(published) + o.out
    {
      hide Chosen, Ticked;
      var s := Select(PickupAndDeliver, m, now);
      if s == None {
        FailMission(m);
        return;
      }
      m.ugv := Some(s.value.agentId);
      m.pickupTask := Some(newTask);
      m.phase := UgvAssigned;
      published := published + [Assign(m.id, newTask, s.value.agentId, PickupAndDeliver, m.target)];
      m.Emit("task_assigned");
    }

    method HandleFailure(m: Mission, fb: Feedback, now: int, newTask: string)
      requires registry.View().Valid()
      modifies m, registry, this`published
      ensures registry.View().Valid()
      ensures var o := Failure(old(m.View()), fb, old(registry.View()), now, newTask);
              m.View() == o.m && registry.View() == o.reg && published == old(published) + o.out
    {
      hide AssignUav, AssignUgv;
      m.failedAgents := m.failedAgents + {fb.agentId};
      m.reassigns := m.reassigns + 1;
      if m.reassigns > MAX_REASSIGN {
        FailMission(m);
        return;
      }
      m.Emit("task_failed");
      if fb.taskId == m.inspectTask {
        m.phase := Created;
        m.inspectTask := None;
        AssignUavTo(m, now, newTask);
      } else if fb.taskId == m.pickupTask {
        m.phase := AwaitingConfirm;
        m.pickupTask := None;
        AssignUgvTo(m, now, newTask);
      } else {
        FailMission(m);
      }
    }

    /** Feedback that reports no failure. */
    method Advance(m: Mission, fb: Feedback, ghost now: int, ghost newTask: string)
      requires registry.View().Valid() && !fb.IsFailure()
      modifies m, this`published
      ensures var o := FeedbackOutcome(old(m.View()), fb, registry.View(), now, newTask);
              m.View() == o.m && registry.View() == o.reg && published == old(published) + o.out
    {
      if fb.taskId == m.inspectTask && fb.status == Accepted && m.phase == UavAssigned {
        m.phase := UavInspecting;
        m.Emit("task_accepted");
      } else if fb.taskId == m.inspectTask && (fb.status == ImageCaptured || fb.status == TaskCompleted)
                && (m.phase == UavAssigned || m.phase == UavInspecting) {
        m.imageUrl := Or(fb.imageUrl, m.imageUrl);
        m.phase := AwaitingConfirm;
        m.Emit("image_captured");
      } else if fb.taskId == m.pickupTask && fb.status == Accepted && m.phase == UgvAssigned {
        m.phase := UgvExecuting;
        m.Emit("task_accepted");
      } else if fb.taskId == m.pickupTask && fb.status == TaskCompleted && (m.phase == UgvAssigned || m.phase == UgvExecuting) {
        m.phase := Completed;
        m.Emit("mission_completed");
        published := published + [Result(m.id, true)];
      }
    }

    /** Feedback for a mission that is not known changes nothing. */
    method OnFeedback(fb: Feedback, now: int, newTask: string)
      requires Valid()
      modifies this`published, registry, missions.Values
      ensures Valid() && missions == old(missions)
      ensures fb.missionId !in missions ==> Views() == old(Views()) && registry.View() == old(registry.View()) && published == old(published)
      ensures fb.missionId in missions ==>
                var o := FeedbackOutcome(old(Views())[fb.missionId], fb, old(registry.View()), now, newTask);
                Views() == old(Views())[fb.missionId := o.m] && registry.View() == o.reg && published == old(published) + o.out
    {
      hide Failure;
      if fb.missionId !in missions {
        return;
      }
      var m := missions[fb.missionId];
      assert m in missions.Values;
      label before:
      if fb.IsFailure() {
        HandleFailure(m, fb, now, newTask);
      } else {
        hide FeedbackOutcome;
        Advance(m, fb, now, newTask);
      }
      OthersKept@before(m);
    }

    /** One mission object changes: of the views only its own does. */
    twostate lemma OthersKept(m: Mission)
      requires old(Valid()) && missions == old(missions) && old(m.id in missions && missions[m.id] == m)
      requires forall id :: id in missions && missions[id] != m ==> unchanged(missions[id])
      ensures Views() == old(Views())[m.id := m.View()]
    {
    }

    method CreateMission(id: string, target: Pose, now: int, newTask: string)
      requires Valid()
      modifies this, registry
      ensures Valid() && missions.Keys == old(missions).Keys + {id}
      ensures var o := AssignUav(New(id, target), old(registry.View()), now, newTask);
              Views() == old(Views())[id := o.m] && registry.View() == o.reg && published == old(published) + o.out
    {
      hide AssignUav;
      var m := new Mission(id, target);
      missions := missions[id := m];
      m.Emit("mission_created");
      assert m.events == ["mission_created"];
      assert m.View() == New(id, target);
      AssignUavTo(m, now, newTask);
      assert forall k :: k in old(missions) && k != id ==> missions[k] != m && missions[k].View() == old(missions[k].View());
    }

    method OnInspectionResult(id: string, garbage: bool, now: int, newTask: string) returns (taken: bool)
      requires Valid()
      modifies this`published, registry, missions.Values
      ensures Valid() && missions == old(missions)
      ensures taken == (id in missions && old(Views())[id].phase == AwaitingConfirm)
      ensures !taken ==> Views() == old(Views()) && registry.View() == old(registry.View()) && published == old(published)
      ensures taken ==>
                var o := InspectionOutcome(old(Views())[id], garbage, old(registry.View()), now, newTask);
                Views() == old(Views())[id := o.m] && registry.View() == o.reg && published == old(published) + o.out
    {
      hide AssignUgv;
      taken := id in missions && missions[id].phase == AwaitingConfirm;
      if !taken {
        return;
      }
      var m := missions[id];
      assert m in missions.Values;
      label before:
      m.garbage := Some(garbage);
      if garbage {
        m.Emit("inspection_confirmed");
        AssignUgvTo(m, now, newTask);
      } else {
        m.phase := Completed;
        m.Emit("inspection_rejected");
        published := published + [Result(m.id, true)];
      }
      OthersKept@before(m);
    }
  }
}
