/** `VehicleAgent` of src/main.cpp: bidding, taking assignments, executing. `distance` stands for
    `distance_m`. */
module VehicleAgents {
  import opened AuctionMessages

  /** What never changes about a vehicle. */
  datatype Profile = Profile(id: string, capability: string, maxPayload: real, speed: real)

  datatype State = State(tasks: map<string, Request>, targets: map<string, Pose>, bidded: set<string>, executed: set<string>,
                         epochs: map<string, int>, pose: Pose, battery: real)

  function Fresh(home: Pose, battery: real): State {
    State(map[], map[], {}, {}, map[], home, battery)
  }

  function Absorb(v: State, m: Msg): State {
    match m
    case RequestMsg(r) => v.(tasks := v.tasks[r.id := r])
    case TransformMsg(task, pose) => v.(targets := v.targets[task := pose])
    case _ => v
  }

  function Sync(v: State, batch: seq<Msg>): State
    decreases |batch|
  {
    if |batch| == 0 then v else Sync(Absorb(v, batch[0]), batch[1..])
  }

  // ----- bidding

  predicate Biddable(p: Profile, v: State, task: Request) {
    task.id !in v.bidded && task.capability == p.capability && task.payload <= p.maxPayload
  }

  function TargetOf(v: State, task: Request): Pose {
    if task.id in v.targets then v.targets[task.id] else task.target
  }

  function BidId(task: string, agent: string): string {
    "bid-" + task + "-" + agent
  }

  /** One bid per vehicle and task: its id tells the vehicle. */
  lemma BidIdsTellVehicles(task: string, a: string, b: string)
    requires BidId(task, a) == BidId(task, b)
    ensures a == b
  {
    var n := |"bid-" + task + "-"|;
    assert BidId(task, a)[n..] == a && BidId(task, b)[n..] == b;
  }

  /** With the nine-byte names of the demo, the derived ids fit their bounded IDL strings exactly
      for task ids of at most 50 bytes. */
  lemma DerivedIdsFit(task: string, agent: string)
    requires |agent| == 9
    ensures |BidId(task, agent)| <= 64 <==> |task| <= 50
    ensures |task| <= 50 ==> |"event-bid-" + BidId(task, agent)| <= 80 && |"event-progress-1-" + task| <= 80
    ensures |task| <= 50 ==> |"event-assigned-" + task + "-" + agent| <= 80 && |"transform-" + task| <= 64
  {
  }

  function Eta(p: Profile, v: State, task: Request, distance: (Pose, Pose) -> real): real
    requires p.speed != 0.0
  {
    distance(v.pose, TargetOf(v, task)) / p.speed
  }

  function BidFor(p: Profile, v: State, task: Request, distance: (Pose, Pose) -> real, now: int): Bid
    requires p.speed != 0.0
  {
    var eta := Eta(p, v, task, distance);
    Bid(BidId(task.id, p.id), task.id, p.id, true, eta, eta + (100.0 - v.battery) * 0.35, 5000, now)
  }

  /** The tasks in `order`, one after the other. */
  function Bids(p: Profile, v: State, order: seq<string>, distance: (Pose, Pose) -> real, clock: nat -> int, n: nat): (r: (State, seq<Msg>))
    requires p.speed != 0.0 && forall id :: id in order ==> id in v.tasks
    ensures r.0 == v.(bidded := r.0.bidded)
    decreases |order|
  {
    if |order| == 0 then (v, [])
    else
      var task := v.tasks[order[0]];
      if !Biddable(p, v, task) then Bids(p, v, order[1..], distance, clock, n)
      else
        var rest := Bids(p, v.(bidded := v.bidded + {task.id}), order[1..], distance, clock, n + 1);
        (rest.0, [BidMsg(BidFor(p, v, task, distance, clock(n))), EventMsg(task.id, BidSubmitted)] + rest.1)
  }

  // ----- assignments

  predicate Takes(p: Profile, v: State, a: Assignment) {
    a.accepted && a.agent == p.id && a.task !in v.executed && !(a.task in v.epochs && v.epochs[a.task] >= a.epoch)
  }

  /** The messages of one execution, in order. */
  function ExecutionOf(p: Profile, task: string): seq<Msg> {
    [StateMsg(p.id, task, Assigned), EventMsg(task, TaskAssigned),
     StateMsg(p.id, task, EnRoute), EventMsg(task, Progress),
     StateMsg(p.id, task, Executing), EventMsg(task, Progress),
     StateMsg(p.id, task, Completed), EventMsg(task, TaskCompleted)]
  }

  /** The epoch is recorded first; a task the vehicle has not heard of is then skipped. */
  function Handle(p: Profile, v: State, a: Assignment): (State, seq<Msg>) {
    if !Takes(p, v, a) then (v, [])
    else
      var noted := v.(epochs := v.epochs[a.task := a.epoch]);
      if a.task !in v.tasks then (noted, [])
      else
        var task := v.tasks[a.task];
        (noted.(pose := TargetOf(v, task), battery := v.battery - 1.0 - 1.2 - 0.5, executed := v.executed + {a.task}),
         ExecutionOf(p, task.id))
  }

  function HandleAll(p: Profile, v: State, batch: seq<Assignment>): (State, seq<Msg>)
    decreases |batch|
  {
    if |batch| == 0 then (v, [])
    else
      var one := Handle(p, v, batch[0]);
      var rest := HandleAll(p, one.0, batch[1..]);
      (rest.0, one.1 + rest.1)
  }

  lemma HandleAllFrom(p: Profile, v: State, batch: seq<Assignment>, k: nat)
    requires k < |batch|
    ensures var one := Handle(p, v, batch[k]); var rest := HandleAll(p, one.0, batch[k + 1..]);
            HandleAll(p, v, batch[k..]) == (rest.0, one.1 + rest.1)
  {
    assert batch[k..][0] == batch[k] && batch[k..][1..] == batch[k + 1..];
  }

  /** Tasks are filed under their own ids. */
  ghost predicate Filed(v: State) {
    forall id :: id in v.tasks ==> v.tasks[id].id == id
  }

  lemma {:induction false} SyncKeepsFiled(v: State, batch: seq<Msg>)
    requires Filed(v)
    ensures Filed(Sync(v, batch))
    decreases |batch|
  {
    if |batch| > 0 {
      SyncKeepsFiled(Absorb(v, batch[0]), batch[1..]);
    }
  }

  /** Repeated calls of `process_assignments`, each with the samples and the assignments it takes. */
  function Calls(p: Profile, v: State, calls: seq<(seq<Msg>, seq<Assignment>)>): State
    decreases |calls|
  {
    if |calls| == 0 then v else Calls(p, HandleAll(p, Sync(v, calls[0].0), calls[0].1).0, calls[1..])
  }

  predicate Noted(v: State, task: string, epoch: int) {
    task !in v.executed && task in v.epochs && v.epochs[task] >= epoch
  }

  lemma {:induction false} SyncKeepsNoted(v: State, batch: seq<Msg>, task: string, epoch: int)
    requires Noted(v, task, epoch)
    ensures Noted(Sync(v, batch), task, epoch)
    decreases |batch|
  {
    if |batch| > 0 {
      SyncKeepsNoted(Absorb(v, batch[0]), batch[1..], task, epoch);
    }
  }

  lemma {:induction false} HandlingKeepsNoted(p: Profile, v: State, later: seq<Assignment>, task: string, epoch: int)
    requires Noted(v, task, epoch)
    requires forall b :: b in later && b.task == task ==> b.epoch <= epoch
    ensures Noted(HandleAll(p, v, later).0, task, epoch)
    decreases |later|
  {
    if |later| > 0 {
      HandlingKeepsNoted(p, Handle(p, v, later[0]).0, later[1..], task, epoch);
    }
  }

  lemma {:induction false} CallsKeepNoted(p: Profile, v: State, calls: seq<(seq<Msg>, seq<Assignment>)>, task: string, epoch: int)
    requires Noted(v, task, epoch)
    requires forall k, b :: 0 <= k < |calls| && b in calls[k].1 && b.task == task ==> b.epoch <= epoch
    ensures Noted(Calls(p, v, calls), task, epoch)
    decreases |calls|
  {
    if |calls| > 0 {
      var (batch, assignments) := calls[0];
      SyncKeepsNoted(v, batch, task, epoch);
      HandlingKeepsNoted(p, Sync(v, batch), assignments, task, epoch);
      forall k, b | 0 <= k < |calls[1..]| && b in calls[1..][k].1 && b.task == task
        ensures b.epoch <= epoch
      {
        assert calls[1..][k] == calls[k + 1];
      }
      CallsKeepNoted(p, HandleAll(p, Sync(v, batch), assignments).0, calls[1..], task, epoch);
    }
  }

  /** An assignment the vehicle takes before it has heard of the task is lost: whatever samples and
      redeliveries follow, the vehicle never executes the task. One it takes afterwards is executed. */
  lemma {:induction false} EarlyAssignmentIsLost(p: Profile, v: State, a: Assignment, calls: seq<(seq<Msg>, seq<Assignment>)>)
    requires Takes(p, v, a)
    requires forall k, b :: 0 <= k < |calls| && b in calls[k].1 && b.task == a.task ==> b.epoch <= a.epoch
    ensures a.task !in v.tasks ==> a.task !in Calls(p, Handle(p, v, a).0, calls).executed
    ensures a.task in v.tasks ==> a.task in Handle(p, v, a).0.executed
  {
    if a.task !in v.tasks {
      CallsKeepNoted(p, Handle(p, v, a).0, calls, a.task, a.epoch);
    }
  }

  class VehicleAgent {
    const profile: Profile
    var tasks: map<string, Request>
    var targets: map<string, Pose>
    var bidded: set<string>
    var executed: set<string>
    var epochs: map<string, int>
    var pose: Pose
    var battery: real
    var published: seq<Msg>

    function View(): State
      reads this
    {
      State(tasks, targets, bidded, executed, epochs, pose, battery)
    }

    constructor (profile: Profile, home: Pose, battery: real)
      ensures this.profile == profile && View() == Fresh(home, battery) && published == []
    {
      this.profile := profile;
      tasks, targets, bidded, executed, epochs := map[], map[], {}, {}, map[];
      pose, this.battery, published := home, battery, [];
    }

    method PublishCapability()
      modifies this`published
      ensures published == old(published) + [CapabilityMsg(Capability(profile.id, profile.capability, true)), StateMsg(profile.id, "", Idle)]
    {
      published := published + [CapabilityMsg(Capability(profile.id, profile.capability, true))];
      published := published + [StateMsg(profile.id, "", Idle)];
    }

    method SynchronizeInputs(batch: seq<Msg>)
      modifies this
      ensures View() == Sync(old(View()), batch) && published == old(published)
    {
      for k := 0 to |batch|
        invariant Sync(View(), batch[k..]) == Sync(old(View()), batch)
        invariant published == old(published)
      {
        assert batch[k..][0] == batch[k] && batch[k..][1..] == batch[k + 1..];
        match batch[k] {
          case RequestMsg(r) => tasks := tasks[r.id := r];
          case TransformMsg(task, pose) => targets := targets[task := pose];
          case _ =>
        }
      }
      assert batch[|batch|..] == [];
    }

    method SubmitCandidateBids(batch: seq<Msg>, order: seq<string>, distance: (Pose, Pose) -> real, clock: nat -> int)
      requires profile.speed != 0.0
      requires forall id :: id in order ==> id in Sync(View(), batch).tasks
      modifies this
      ensures View() == Bids(profile, Sync(old(View()), batch), order, distance, clock, 0).0
      ensures published == old(published) + Bids(profile, Sync(old(View()), batch), order, distance, clock, 0).1
    {
      SynchronizeInputs(batch);
      ghost var start := View();
      var n: nat := 0;
      for k := 0 to |order|
        invariant View() == start.(bidded := bidded)
        invariant Bids(profile, View(), order[k..], distance, clock, n).0 == Bids(profile, start, order, distance, clock, 0).0
        invariant published + Bids(profile, View(), order[k..], distance, clock, n).1
               == old(published) + Bids(profile, start, order, distance, clock, 0).1
      {
        hide Sync, BidId;
        var task := tasks[order[k]];
        assert order[k..][0] == order[k] && order[k..][1..] == order[k + 1..];
        if task.id in bidded || task.capability != profile.capability || task.payload > profile.maxPayload {
          continue;
        }
        var target := if task.id in targets then targets[task.id] else task.target;
        var eta := distance(pose, target) / profile.speed;
        var cost := eta + (100.0 - battery) * 0.35;
        var bid := Bid(BidId(task.id, profile.id), task.id, profile.id, true, eta, cost, 5000, clock(n));
        n := n + 1;
        published := published + [BidMsg(bid)];
        published := published + [EventMsg(task.id, BidSubmitted)];
        bidded := bidded + {task.id};
      }
      assert order[|order|..] == [];
    }

    method PublishState(task: string, phase: Phase)
      modifies this`published
      ensures published == old(published) + [StateMsg(profile.id, task, phase)]
    {
      published := published + [StateMsg(profile.id, task, phase)];
    }

    method PublishEvent(task: string, event: Event)
      modifies this`published
      ensures published == old(published) + [EventMsg(task, event)]
    {
      published := published + [EventMsg(task, event)];
    }

    method Execute(task: Request, target: Pose)
      modifies this`published, this`pose, this`battery
      ensures published == old(published) + ExecutionOf(profile, task.id)
      ensures published == old(published)
                + [StateMsg(profile.id, task.id, Assigned), EventMsg(task.id, TaskAssigned), StateMsg(profile.id, task.id, EnRoute), EventMsg(task.id, Progress),
                   StateMsg(profile.id, task.id, Executing), EventMsg(task.id, Progress), StateMsg(profile.id, task.id, Completed), EventMsg(task.id, TaskCompleted)]
      ensures pose == target && battery == old(battery) - 1.0 - 1.2 - 0.5
    {
      PublishState(task.id, Assigned);
      PublishEvent(task.id, TaskAssigned);
      pose := Pose(pose.east + (target.east - pose.east) * 0.45, pose.north + (target.north - pose.north) * 0.45,
                   pose.up + (target.up - pose.up) * 0.45, pose.heading + (target.heading - pose.heading) * 0.45);
      battery := battery - 1.0;
      PublishState(task.id, EnRoute);
      PublishEvent(task.id, Progress);
      pose := target;
      battery := battery - 1.2;
      PublishState(task.id, Executing);
      PublishEvent(task.id, Progress);
      battery := battery - 0.5;
      PublishState(task.id, Completed);
      PublishEvent(task.id, TaskCompleted);
    }

    /** What is done with one assignment taken from the reader. */
    method HandleAssignment(a: Assignment)
      requires Filed(View())
      modifies this
      ensures Filed(View()) && View() == Handle(profile, old(View()), a).0
      ensures published == old(published) + Handle(profile, old(View()), a).1
      ensures !a.accepted || a.agent != profile.id || a.task in old(executed) ==> View() == old(View()) && published == old(published)
    {
      hide ExecutionOf;
      if !a.accepted || a.agent != profile.id || a.task in executed || (a.task in epochs && epochs[a.task] >= a.epoch) {
        return;
      }
      epochs := epochs[a.task := a.epoch];
      if a.task !in tasks {
        return;
      }
      var target := if a.task in targets then targets[a.task] else tasks[a.task].target;
      Execute(tasks[a.task], target);
      executed := executed + {a.task};
    }

    method ProcessAssignments(batch: seq<Msg>, assignments: seq<Assignment>)
      requires Filed(View())
      modifies this
      ensures Filed(View())
      ensures View() == HandleAll(profile, Sync(old(View()), batch), assignments).0
      ensures published == old(published) + HandleAll(profile, Sync(old(View()), batch), assignments).1
    {
      SyncKeepsFiled(View(), batch);
      SynchronizeInputs(batch);
      ghost var start := View();
      for k := 0 to |assignments|
        invariant Filed(View())
        invariant HandleAll(profile, View(), assignments[k..]).0 == HandleAll(profile, start, assignments).0
        invariant published + HandleAll(profile, View(), assignments[k..]).1 == old(published) + HandleAll(profile, start, assignments).1
      {
        hide Sync, Handle, HandleAll, Filed;
        ghost var before, sent := View(), published;
        HandleAllFrom(profile, before, assignments, k);
        HandleAssignment(assignments[k]);
        assert published == sent + Handle(profile, before, assignments[k]).1;
      }
      assert assignments[|assignments|..] == [];
    }
  }
}
