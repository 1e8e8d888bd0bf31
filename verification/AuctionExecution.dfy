/** What becomes of an assignment once its vehicle has handled it, in every run. */
module AuctionExecution {
  import opened AuctionMessages
  import opened AuctionSystem
  import opened AuctionInvariant
  import opened AuctionSteps
  import opened AuctionBids
  import opened AuctionSafety
  import V = VehicleAgents

  /** The vehicle knows what it has bid for, has executed what it has taken, and reports what it has executed. */
  ghost predicate Busy(log: seq<Msg>, g: string, ag: Agent) {
    && ag.v.bidded <= ag.v.tasks.Keys
    && ag.v.epochs.Keys <= ag.v.executed
    && forall t :: t in ag.v.executed ==> Reported(log, ag.out, g, t)
  }

  /** The completion is published or about to be. */
  ghost predicate Reported(log: seq<Msg>, out: seq<Msg>, g: string, t: string) {
    StateMsg(g, t, Completed) in log || StateMsg(g, t, Completed) in out
  }

  ghost predicate AllBusy(w: World) {
    forall g :: g in w.agents ==> Busy(w.log, g, w.agents[g])
  }

  ghost predicate FullInv(w: World) {
    Inv(w) && BidInv(w) && AllBusy(w)
  }

  // ----- what a vehicle does

  lemma {:induction false} SyncLearns(v: V.State, batch: seq<Msg>)
    ensures var s := V.Sync(v, batch);
            v.tasks.Keys <= s.tasks.Keys && s.bidded == v.bidded && s.epochs == v.epochs && s.executed == v.executed
    decreases |batch|
  {
    if |batch| > 0 {
      SyncLearns(V.Absorb(v, batch[0]), batch[1..]);
    }
  }

  lemma {:induction false} BidsForKnown(p: V.Profile, v: V.State, order: seq<string>, distance: (Pose, Pose) -> real, clock: nat -> int, n: nat)
    requires p.speed != 0.0 && (forall id :: id in order ==> id in v.tasks) && V.Filed(v) && v.bidded <= v.tasks.Keys
    ensures V.Bids(p, v, order, distance, clock, n).0.bidded <= v.tasks.Keys
    decreases |order|
  {
    if |order| > 0 {
      var task := v.tasks[order[0]];
      if V.Biddable(p, v, task) {
        BidsForKnown(p, v.(bidded := v.bidded + {task.id}), order[1..], distance, clock, n + 1);
      } else {
        BidsForKnown(p, v, order[1..], distance, clock, n);
      }
    }
  }

  lemma ReportedGrows(log: seq<Msg>, m: Msg, g: string, ag: Agent)
    requires Busy(log, g, ag)
    ensures Busy(log + [m], g, ag)
  {
    Grows(log, [m]);
  }

  lemma EmitterIsBusy(log: seq<Msg>, g: string, ag: Agent)
    requires Busy(log, g, ag) && ag.out != []
    ensures Busy(log + [ag.out[0]], g, ag.(out := ag.out[1..]))
  {
    Grows(log, [ag.out[0]]);
    assert ag.out == [ag.out[0]] + ag.out[1..];
  }

  /** An assignment that a vehicle takes is for a task it knows: it has bid for the task, and it bids
      only for tasks it knows. */
  lemma TakenTaskIsKnown(w: World, g: string, a: Assignment)
    requires FullInv(w) && g in w.agents && AssignMsg(a) in w.log && a.agent == g
    ensures a.accepted && a.task in w.agents[g].v.tasks
  {
    hide DecisionsOk, LogOrdered, AgentsOk, StatesKnown, Informed, Unlocked, V.BidId;
    var i :| 0 <= i < |w.log| && w.log[i] == AssignMsg(a);
    assert Justified(w.log[..i], a);
    var r, b, p :| RequestMsg(r) in w.log[..i] && BidMsg(b) in w.log[..i] && CapabilityMsg(p) in w.log[..i] && Backs(r, b, p, a);
    assert BidOf(w.log, w.agents[g].out, g, b);
    assert BidsOk(w.log, g, w.agents[g]) && Busy(w.log, g, w.agents[g]);
  }

  /** What handling an assignment to the vehicle does: the task counts as executed from then on. */
  lemma HandlerIsBusy(log: seq<Msg>, g: string, ag: Agent)
    requires Busy(log, g, ag) && AgentInformed(log, g, ag) && ag.out == [] && ag.queue != []
    requires ag.queue[0].agent == g ==> ag.queue[0].accepted && ag.queue[0].task in ag.v.tasks
    ensures var r := V.Handle(ag.profile, ag.v, ag.queue[0]);
            && Busy(log, g, ag.(v := r.0, queue := ag.queue[1..], out := r.1))
            && ag.v.executed <= r.0.executed && (ag.queue[0].agent == g ==> ag.queue[0].task in r.0.executed)
  {
    var a := ag.queue[0];
    if V.Takes(ag.profile, ag.v, a) {
      assert V.ExecutionOf(ag.profile, a.task)[6] == StateMsg(g, a.task, Completed);
    }
  }

  // ----- steps and runs

  lemma OneIsBusy(w: World, g: string, ag: Agent)
    requires AllBusy(w) && g in w.agents && Busy(w.log, g, ag)
    ensures AllBusy(WithAgent(w, g, ag))
  {
    hide Busy;
  }

  lemma LogGrowsBusy(w: World, m: Msg)
    requires AllBusy(w)
    ensures AllBusy(w.(log := w.log + [m]))
  {
    hide Busy;
    forall g | g in w.agents
      ensures Busy(w.log + [m], g, w.agents[g])
    {
      ReportedGrows(w.log, m, g, w.agents[g]);
    }
  }

  lemma EmitKeepsBusy(w: World, g: string)
    requires AllBusy(w) && Speeds(w) && Enabled(w, Emit(g))
    ensures AllBusy(Step(w, Emit(g)))
  {
    hide Busy;
    var m := w.agents[g].out[0];
    forall h | h in w.agents
      ensures Busy(w.log + [m], h, Step(w, Emit(g)).agents[h])
    {
      if h == g {
        EmitterIsBusy(w.log, g, w.agents[g]);
      } else {
        ReportedGrows(w.log, m, h, w.agents[h]);
      }
    }
  }

  lemma SubmitKeepsBusy(w: World, a: Action)
    requires a.SubmitBids? && FullInv(w) && Speeds(w) && Enabled(w, a)
    ensures AllBusy(Step(w, a))
  {
    hide Inv, BidInv, V.Sync, V.Bids, Delivered;
    var g := a.agent;
    InvAgent(w, g);
    var ag := w.agents[g];
    var s := V.Sync(ag.v, a.batch);
    SyncLearns(ag.v, a.batch);
    InformedIsFiled(w.log, g, ag, a.batch);
    BidsForKnown(ag.profile, s, a.order, a.distance, a.clock, 0);
    var r := V.Bids(ag.profile, s, a.order, a.distance, a.clock, 0);
    OneIsBusy(w, g, ag.(v := r.0, out := r.1));
  }

  lemma InformedIsFiled(log: seq<Msg>, g: string, ag: Agent, batch: seq<Msg>)
    requires AgentInformed(log, g, ag)
    ensures V.Filed(V.Sync(ag.v, batch))
  {
    V.SyncKeepsFiled(ag.v, batch);
  }

  lemma TakeKeepsBusy(w: World, a: Action)
    requires a.TakeAssignments? && AllBusy(w) && Speeds(w) && Enabled(w, a)
    ensures AllBusy(Step(w, a))
  {
    hide V.Sync, Delivered;
    var ag := w.agents[a.agent];
    SyncLearns(ag.v, a.batch);
    OneIsBusy(w, a.agent, ag.(v := V.Sync(ag.v, a.batch), queue := a.taken));
  }

  /** The vehicle handles the first assignment taken. */
  lemma HandleExecutes(w: World, g: string)
    requires FullInv(w) && Speeds(w) && Enabled(w, HandleNext(g))
    ensures AllBusy(Step(w, HandleNext(g)))
    ensures w.agents[g].queue[0].agent == g ==> w.agents[g].queue[0].task in Step(w, HandleNext(g)).agents[g].v.executed
  {
    hide Inv, BidInv, Busy, V.Handle, AllBusy;
    InvAgent(w, g);
    var ag := w.agents[g];
    assert ag.queue[0] in ag.queue;
    if ag.queue[0].agent == g {
      TakenTaskIsKnown(w, g, ag.queue[0]);
    }
    BusyAgent(w, g);
    HandlerIsBusy(w.log, g, ag);
    var r := V.Handle(ag.profile, ag.v, ag.queue[0]);
    OneIsBusy(w, g, ag.(v := r.0, queue := ag.queue[1..], out := r.1));
  }

  lemma BusyAgent(w: World, g: string)
    requires AllBusy(w) && g in w.agents
    ensures Busy(w.log, g, w.agents[g])
  {
  }

  lemma AnnounceKeepsBusy(w: World, g: string)
    requires AllBusy(w) && Speeds(w) && Enabled(w, Announce(g))
    ensures AllBusy(Step(w, Announce(g)))
  {
    OneIsBusy(w, g, Step(w, Announce(g)).agents[g]);
  }

  lemma StepKeepsFullInv(w: World, a: Action)
    requires FullInv(w) && Speeds(w) && Enabled(w, a)
    ensures FullInv(Step(w, a))
  {
    StepKeepsInv(w, a);
    StepKeepsBidInv(w, a);
    hide Inv, BidInv, Busy, AllBusy;
    match a
    case PublishRequest(r) => LogGrowsBusy(w, RequestMsg(r));
    case PublishTransform(task, pose) => LogGrowsBusy(w, TransformMsg(task, pose));
    case Announce(g) => AnnounceKeepsBusy(w, g);
    case SubmitBids(_, _, _, _, _) => SubmitKeepsBusy(w, a);
    case TakeAssignments(_, _, _) => TakeKeepsBusy(w, a);
    case HandleNext(g) => HandleExecutes(w, g);
    case Emit(g) => EmitKeepsBusy(w, g);
    case Schedule(_, _, _) => CoordinatorKeepsBusy(w, a);
    case EmitDecision => CoordinatorKeepsBusy(w, a);
  }

  lemma CoordinatorKeepsBusy(w: World, a: Action)
    requires AllBusy(w) && Speeds(w) && Enabled(w, a) && (a.Schedule? || a.EmitDecision?)
    ensures AllBusy(Step(w, a))
  {
    hide Busy;
    if a.EmitDecision? {
      LogGrowsBusy(w, w.cOut[0]);
    }
  }

  lemma StepKeepsExecuted(w: World, a: Action, g: string)
    requires Speeds(w) && Enabled(w, a) && g in w.agents
    ensures g in Step(w, a).agents && w.agents[g].v.executed <= Step(w, a).agents[g].v.executed
  {
    hide V.Sync, V.Bids, Delivered;
    if (a.SubmitBids? || a.TakeAssignments?) && a.agent == g {
      SyncLearns(w.agents[g].v, a.batch);
    }
  }

  lemma {:induction false} RunKeepsFullInv(w: World, actions: seq<Action>, end: World)
    requires FullInv(w) && Speeds(w) && Run(w, actions, end)
    ensures FullInv(end) && Speeds(end)
    decreases |actions|
  {
    hide FullInv;
    if |actions| > 0 {
      StepKeepsFullInv(w, actions[0]);
      StepKeepsSpeeds(w, actions[0]);
      RunKeepsFullInv(Step(w, actions[0]), actions[1..], end);
    }
  }

  lemma {:induction false} RunKeepsExecuted(w: World, actions: seq<Action>, end: World, g: string)
    requires Speeds(w) && Run(w, actions, end) && g in w.agents
    ensures g in end.agents && w.agents[g].v.executed <= end.agents[g].v.executed
    decreases |actions|
  {
    if |actions| > 0 {
      StepKeepsSpeeds(w, actions[0]);
      StepKeepsExecuted(w, actions[0], g);
      RunKeepsExecuted(Step(w, actions[0]), actions[1..], end, g);
    }
  }

  /** A run goes on from each of its worlds. */
  lemma {:induction false} RunGoesOn(w: World, actions: seq<Action>, k: nat, mid: World, end: World)
    requires Speeds(w) && Run(w, actions, end) && k <= |actions| && Run(w, actions[..k], mid)
    ensures Speeds(mid) && Run(mid, actions[k..], end)
    decreases k
  {
    if k == 0 {
      assert actions[0..] == actions;
    } else {
      StepKeepsSpeeds(w, actions[0]);
      assert actions[..k][0] == actions[0] && actions[..k][1..] == actions[1..][..k - 1] && actions[k..] == actions[1..][k - 1..];
      RunGoesOn(Step(w, actions[0]), actions[1..], k - 1, mid, end);
    }
  }

  lemma InitFullInv(w: World)
    requires Init(w)
    ensures FullInv(w) && Speeds(w)
  {
    InitInv(w);
    InitBidInv(w);
    hide Inv, BidInv;
  }

  // ----- the results

  /** In every run, the vehicle that a published assignment selects knows the task already: the loss that
      `VehicleAgents.EarlyAssignmentIsLost` speaks of needs a vehicle that has forgotten what it bid for,
      as one started anew has. */
  lemma SelectedVehicleKnowsTask(w: World, actions: seq<Action>, end: World, a: Assignment)
    requires Init(w) && Run(w, actions, end) && AssignMsg(a) in end.log
    ensures a.agent in end.agents && a.task in end.agents[a.agent].v.tasks
  {
    InitFullInv(w);
    RunKeepsFullInv(w, actions, end);
    BidderIsThere(end, a);
    hide FullInv, Init, Run;
    TakenTaskIsKnown(end, a.agent, a);
  }

  lemma BidderIsThere(w: World, a: Assignment)
    requires FullInv(w) && AssignMsg(a) in w.log
    ensures a.agent in w.agents
  {
    hide DecisionsOk, LogOrdered, AgentsOk, StatesKnown, Informed, Unlocked, BidsOk, Busy;
    var i :| 0 <= i < |w.log| && w.log[i] == AssignMsg(a);
    assert Justified(w.log[..i], a);
    var r, b, p :| RequestMsg(r) in w.log[..i] && BidMsg(b) in w.log[..i] && CapabilityMsg(p) in w.log[..i] && Backs(r, b, p, a);
    assert BidMsg(b) in w.log;
  }

  /** Once a vehicle has handled an assignment that selects it, then however the run goes on, the task has
      been started by it exactly once, counting what it has yet to publish; and when it has published
      everything, start and completion are in the log. */
  lemma HandledMeansExecuted(w: World, actions: seq<Action>, end: World, k: nat, mid: World, g: string)
    requires Init(w) && Run(w, actions, end) && k < |actions| && actions[k] == HandleNext(g)
    requires Run(w, actions[..k], mid) && Enabled(mid, actions[k]) && mid.agents[g].queue[0].agent == g
    ensures g in end.agents
    ensures var t, ag := mid.agents[g].queue[0].task, end.agents[g];
            && StartCount(end.log, g, t) + StartCount(ag.out, g, t) == 1
            && (ag.out == [] ==> StateMsg(g, t, Assigned) in end.log && StateMsg(g, t, Completed) in end.log)
  {
    hide FullInv, Init;
    InitFullInv(w);
    RunKeepsFullInv(w, actions[..k], mid);
    RunKeepsFullInv(w, actions, end);
    RunGoesOn(w, actions, k, mid, end);
    assert actions[k..][0] == HandleNext(g);
    StepKeepsSpeeds(mid, HandleNext(g));
    HandledNow(mid, g);
    RunKeepsExecuted(Step(mid, HandleNext(g)), actions[k..][1..], end, g);
    ExecutedIsReported(end, g, mid.agents[g].queue[0].task);
  }

  lemma HandledNow(w: World, g: string)
    requires FullInv(w) && Speeds(w) && Enabled(w, HandleNext(g)) && w.agents[g].queue[0].agent == g
    ensures w.agents[g].queue[0].task in Step(w, HandleNext(g)).agents[g].v.executed
  {
    HandleExecutes(w, g);
  }

  lemma ExecutedIsReported(w: World, g: string, t: string)
    requires FullInv(w) && g in w.agents && t in w.agents[g].v.executed
    ensures var ag := w.agents[g];
            && StartCount(w.log, g, t) + StartCount(ag.out, g, t) == 1
            && (ag.out == [] ==> StateMsg(g, t, Assigned) in w.log && StateMsg(g, t, Completed) in w.log)
  {
    hide Informed, DecisionsOk, LogJustified, LogOrdered, BidInv, AgentInformed, OutOk;
    var ag := w.agents[g];
    assert AgentOk(w.log, g, ag) && Busy(w.log, g, ag);
    NoStarts(g);
  }

  // ----- a vehicle that forgets

  /** A vehicle that has executed nothing yet may be started anew. */
  lemma RestartKeepsInv(w: World, g: string)
    requires Inv(w) && AuctionSystem.Idle(w, g) && w.agents[g].v.executed == {}
    ensures var ag := w.agents[g]; Inv(WithAgent(w, g, ag.(v := V.Fresh(ag.v.pose, ag.v.battery))))
  {
    hide Inv;
    InvAgent(w, g);
    var ag := w.agents[g];
    KeepOneAgent(w, g, ag.(v := V.Fresh(ag.v.pose, ag.v.battery)));
  }

  /** The only assignment for the task is passed over by the vehicle it selects. */
  ghost predicate Lost(w: World, g: string, a: Assignment) {
    AssignMsg(a) in w.log && a.agent == g && g in w.agents && V.Noted(w.agents[g].v, a.task, a.epoch)
  }

  lemma StepKeepsLost(w: World, act: Action, g: string, a: Assignment)
    requires Inv(w) && Speeds(w) && Enabled(w, act) && Lost(w, g, a)
    ensures Lost(Step(w, act), g, a)
  {
    hide Inv, Delivered, V.Noted, V.Sync, V.Bids, V.Handle;
    StepKeepsSpeeds(w, act);
    assert AssignMsg(a) in Step(w, act).log;
    var ag := w.agents[g];
    if (act.SubmitBids? || act.TakeAssignments?) && act.agent == g {
      V.SyncKeepsNoted(ag.v, act.batch, a.task, a.epoch);
      SameNotes(V.Sync(ag.v, act.batch), Step(w, act).agents[g].v, a);
    } else if act == HandleNext(g) {
      InvAgent(w, g);
      assert ag.queue[0] in ag.queue;
      if ag.queue[0].task == a.task {
        OnlyAssignment(w, a, ag.queue[0]);
      }
      PassedOver(ag.profile, ag.v, ag.queue[0], a);
    }
  }

  lemma SameNotes(v: V.State, v': V.State, a: Assignment)
    requires V.Noted(v, a.task, a.epoch) && v' == v.(bidded := v'.bidded)
    ensures V.Noted(v', a.task, a.epoch)
  {
  }

  lemma PassedOver(p: V.Profile, v: V.State, b: Assignment, a: Assignment)
    requires V.Noted(v, a.task, a.epoch) && (b.task == a.task ==> b == a)
    ensures V.Noted(V.Handle(p, v, b).0, a.task, a.epoch)
  {
    hide V.ExecutionOf, V.TargetOf;
  }

  lemma OnlyAssignment(w: World, a: Assignment, b: Assignment)
    requires Inv(w) && AssignMsg(a) in w.log && AssignMsg(b) in w.log && a.task == b.task
    ensures a == b
  {
    hide DecisionsOk;
    OneAssignmentPerTask(w, a, b);
  }

  lemma {:induction false} RunKeepsLost(w: World, actions: seq<Action>, end: World, g: string, a: Assignment)
    requires Inv(w) && Speeds(w) && Run(w, actions, end) && Lost(w, g, a)
    ensures Inv(end) && Lost(end, g, a)
    decreases |actions|
  {
    hide Inv, Lost;
    if |actions| > 0 {
      StepKeepsInv(w, actions[0]);
      StepKeepsSpeeds(w, actions[0]);
      StepKeepsLost(w, actions[0], g, a);
      RunKeepsLost(Step(w, actions[0]), actions[1..], end, g, a);
    }
  }

  /** An assignment that its vehicle takes before it knows the task is the only one there will be: however
      the run goes on, no vehicle ever starts the task. */
  lemma LostForGood(w: World, actions: seq<Action>, end: World, g: string, h: string)
    requires Inv(w) && Speeds(w) && Run(w, actions, end) && |actions| > 0 && actions[0] == HandleNext(g) && Enabled(w, actions[0])
    requires var ag := w.agents[g]; V.Takes(ag.profile, ag.v, ag.queue[0]) && ag.queue[0].task !in ag.v.tasks
    ensures StateMsg(h, w.agents[g].queue[0].task, Assigned) !in end.log
  {
    hide Inv;
    var a := w.agents[g].queue[0];
    InvAgent(w, g);
    assert a in w.agents[g].queue;
    StepKeepsInv(w, actions[0]);
    StepKeepsSpeeds(w, actions[0]);
    assert Lost(Step(w, actions[0]), g, a);
    RunKeepsLost(Step(w, actions[0]), actions[1..], end, g, a);
    LostIsNotStarted(end, g, a, h);
  }

  lemma LostIsNotStarted(w: World, g: string, a: Assignment, h: string)
    requires Inv(w) && Lost(w, g, a)
    ensures StateMsg(h, a.task, Assigned) !in w.log
  {
    hide Informed, DecisionsOk, LogJustified, LogOrdered, AgentInformed, OutOk;
    assert AgentOk(w.log, g, w.agents[g]);
    assert StartCount(w.log, g, a.task) == 0;
    if StateMsg(h, a.task, Assigned) in w.log {
      var i :| 0 <= i < |w.log| && w.log[i] == StateMsg(h, a.task, Assigned);
      var k := AssignmentBefore(w.log, i);
      assert w.log[k] == AssignMsg(w.log[k].assignment);
      OneAssignmentPerTask(w, a, w.log[k].assignment);
    }
  }
}
