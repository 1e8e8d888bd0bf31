/** One bid per vehicle and task, in every run; so the coordinator's choice depends on which bids it
    has, not on how they arrived. */
module AuctionBids {
  import opened Wrappers
  import opened AuctionMessages
  import opened AuctionSystem
  import C = CoordinatorAgent
  import V = VehicleAgents

  /** The bid is `g`'s, published or about to be. */
  predicate BidOf(log: seq<Msg>, out: seq<Msg>, g: string, b: Bid) {
    b.agent == g && (BidMsg(b) in log || BidMsg(b) in out)
  }

  ghost predicate BidsOk(log: seq<Msg>, g: string, ag: Agent) {
    && ag.profile.id == g
    && (forall b :: BidMsg(b) in ag.out ==> b.agent == g)
    && (forall b :: BidOf(log, ag.out, g, b) ==> b.id == V.BidId(b.task, g) && b.task in ag.v.bidded)
    && (forall b, d :: BidOf(log, ag.out, g, b) && BidOf(log, ag.out, g, d) && b.task == d.task ==> b == d)
  }

  ghost predicate BidInv(w: World) {
    && (forall b :: BidMsg(b) in w.log ==> b.agent in w.agents)
    && (forall b :: b in w.c.bids ==> BidMsg(b) in w.log)
    && (forall m :: m in w.cOut ==> !m.BidMsg?)
    && (forall g :: g in w.agents ==> BidsOk(w.log, g, w.agents[g]))
  }

  // ----- what the nodes publish

  /** The bids one call adds: for tasks not bid for before, one each, bearing the vehicle's id. */
  ghost predicate NewBids(g: string, before: set<string>, after: set<string>, out: seq<Msg>) {
    && before <= after
    && (forall b :: BidMsg(b) in out ==> b.agent == g && b.id == V.BidId(b.task, g) && b.task in after && b.task !in before)
    && (forall b, d :: BidMsg(b) in out && BidMsg(d) in out && b.task == d.task ==> b == d)
  }

  lemma {:induction false} BidsAreNew(p: V.Profile, v: V.State, order: seq<string>, distance: (Pose, Pose) -> real, clock: nat -> int, n: nat)
    requires p.speed != 0.0 && forall id :: id in order ==> id in v.tasks
    ensures var r := V.Bids(p, v, order, distance, clock, n); NewBids(p.id, v.bidded, r.0.bidded, r.1)
    decreases |order|
  {
    hide V.BidId;
    if |order| > 0 {
      var task := v.tasks[order[0]];
      if V.Biddable(p, v, task) {
        var next := v.(bidded := v.bidded + {task.id});
        BidsAreNew(p, next, order[1..], distance, clock, n + 1);
        var rest := V.Bids(p, next, order[1..], distance, clock, n + 1);
        OneMoreBid(p.id, v.bidded, rest.0.bidded, V.BidFor(p, v, task, distance, clock(n)), rest.1);
      } else {
        BidsAreNew(p, v, order[1..], distance, clock, n);
      }
    }
  }

  lemma OneMoreBid(g: string, before: set<string>, after: set<string>, b: Bid, rest: seq<Msg>)
    requires NewBids(g, before + {b.task}, after, rest) && b.task !in before && b.agent == g && b.id == V.BidId(b.task, g)
    ensures NewBids(g, before, after, [BidMsg(b), EventMsg(b.task, BidSubmitted)] + rest)
  {
    hide V.BidId;
    assert b.task in before + {b.task};
  }

  lemma {:induction false} SyncKeepsBidded(v: V.State, batch: seq<Msg>)
    ensures V.Sync(v, batch).bidded == v.bidded
    decreases |batch|
  {
    if |batch| > 0 {
      SyncKeepsBidded(V.Absorb(v, batch[0]), batch[1..]);
    }
  }

  lemma {:induction false} SyncLearnsPublishedBids(log: seq<Msg>, c: C.State, batch: seq<Msg>)
    requires Delivered(log, batch) && forall b :: b in c.bids ==> BidMsg(b) in log
    ensures forall b :: b in C.Sync(c, batch).bids ==> BidMsg(b) in log
    decreases |batch|
  {
    if |batch| > 0 {
      assert batch[0] in batch;
      SyncLearnsPublishedBids(log, C.Absorb(c, batch[0]), batch[1..]);
    }
  }

  lemma {:induction false} ScheduleMakesNoBids(c: C.State, order: seq<string>, clock: nat -> int, n: nat)
    requires forall id :: id in order ==> id in c.tasks
    ensures forall m :: m in C.Schedule(c, order, clock, n).1 ==> !m.BidMsg?
    decreases |order|
  {
    hide C.BestOf, C.Ready, C.AssignmentFor;
    if |order| > 0 {
      assert order[0] in order;
      var task := c.tasks[order[0]];
      if !C.Ready(c, task) {
        ScheduleMakesNoBids(c, order[1..], clock, n);
      } else if C.BestOf(c.capabilities, c.bids, task, clock, n, |c.bids|) == None {
        ScheduleMakesNoBids(c, order[1..], clock, n + |c.bids|);
      } else {
        ScheduleMakesNoBids(c.(assignedTasks := c.assignedTasks + {task.id}), order[1..], clock, n + |c.bids|);
      }
    }
  }

  // ----- what every step keeps

  /** A message that is no bid is published, and one vehicle's other affairs change. */
  lemma SameBids(log: seq<Msg>, m: Msg, g: string, ag: Agent)
    requires BidsOk(log, g, ag) && !(m.BidMsg? && m.bid.agent == g)
    ensures BidsOk(log + [m], g, ag)
  {
    hide V.BidId;
    assert forall b :: BidOf(log + [m], ag.out, g, b) ==> BidOf(log, ag.out, g, b);
  }

  lemma AddBids(log: seq<Msg>, g: string, ag: Agent, v: V.State, out: seq<Msg>)
    requires BidsOk(log, g, ag) && NewBids(g, ag.v.bidded, v.bidded, out) && ag.out == []
    ensures BidsOk(log, g, ag.(v := v, out := out))
  {
    hide V.BidId;
    assert forall b :: BidOf(log, out, g, b) ==> BidOf(log, ag.out, g, b) || BidMsg(b) in out;
  }

  lemma EmitBid(log: seq<Msg>, g: string, ag: Agent)
    requires BidsOk(log, g, ag) && ag.out != []
    ensures BidsOk(log + [ag.out[0]], g, ag.(out := ag.out[1..]))
    ensures ag.out[0].BidMsg? ==> ag.out[0].bid.agent == g
  {
    hide V.BidId;
    var log', out := log + [ag.out[0]], ag.out[1..];
    assert ag.out == [ag.out[0]] + out;
    assert forall b :: BidOf(log', out, g, b) ==> BidOf(log, ag.out, g, b);
    assert ag.out[0].BidMsg? ==> BidMsg(ag.out[0].bid) in ag.out;
  }

  lemma QuietOut(log: seq<Msg>, g: string, ag: Agent, v: V.State, queue: seq<Assignment>, out: seq<Msg>)
    requires BidsOk(log, g, ag) && ag.out == [] && v.bidded == ag.v.bidded && forall m :: m in out ==> !m.BidMsg?
    ensures BidsOk(log, g, ag.(v := v, queue := queue, out := out))
  {
    hide V.BidId;
    assert forall b :: BidOf(log, out, g, b) ==> BidOf(log, ag.out, g, b);
  }

  lemma PublishKeepsBids(w: World, m: Msg)
    requires BidInv(w) && !m.BidMsg?
    ensures BidInv(w.(log := w.log + [m]))
  {
    hide BidsOk;
    forall g | g in w.agents
      ensures BidsOk(w.log + [m], g, w.agents[g])
    {
      SameBids(w.log, m, g, w.agents[g]);
    }
  }

  lemma AgentStepKeepsBids(w: World, g: string, ag: Agent)
    requires BidInv(w) && g in w.agents && BidsOk(w.log, g, ag)
    ensures BidInv(WithAgent(w, g, ag))
  {
    hide BidsOk;
  }

  lemma SubmitKeepsBids(w: World, a: Action)
    requires a.SubmitBids? && BidInv(w) && Speeds(w) && Enabled(w, a)
    ensures BidInv(Step(w, a))
  {
    hide BidInv, V.Sync, V.Bids, Delivered, NewBids, V.BidId;
    var g := a.agent;
    BidsOfAgent(w, g);
    var ag := w.agents[g];
    SyncKeepsBidded(ag.v, a.batch);
    BidsAreNew(ag.profile, V.Sync(ag.v, a.batch), a.order, a.distance, a.clock, 0);
    var r := V.Bids(ag.profile, V.Sync(ag.v, a.batch), a.order, a.distance, a.clock, 0);
    AddBids(w.log, g, ag, r.0, r.1);
    AgentStepKeepsBids(w, g, ag.(v := r.0, out := r.1));
  }

  lemma BidsOfAgent(w: World, g: string)
    requires BidInv(w) && g in w.agents
    ensures BidsOk(w.log, g, w.agents[g])
  {
  }

  lemma QuietStepsKeepBids(w: World, a: Action)
    requires BidInv(w) && Speeds(w) && Enabled(w, a) && (a.Announce? || a.TakeAssignments? || a.HandleNext?)
    ensures BidInv(Step(w, a))
  {
    hide BidInv, BidsOk, V.Sync, Delivered;
    var g := a.agent;
    BidsOfAgent(w, g);
    var ag := w.agents[g];
    match a
    case Announce(_) =>
      QuietOut(w.log, g, ag, ag.v, ag.queue, Step(w, a).agents[g].out);
      AgentStepKeepsBids(w, g, Step(w, a).agents[g]);
    case TakeAssignments(_, batch, taken) =>
      SyncKeepsBidded(ag.v, batch);
      QuietOut(w.log, g, ag, V.Sync(ag.v, batch), taken, []);
      AgentStepKeepsBids(w, g, ag.(v := V.Sync(ag.v, batch), queue := taken));
    case HandleNext(_) =>
      var r := V.Handle(ag.profile, ag.v, ag.queue[0]);
      QuietOut(w.log, g, ag, r.0, ag.queue[1..], r.1);
      AgentStepKeepsBids(w, g, ag.(v := r.0, queue := ag.queue[1..], out := r.1));
  }

  lemma EmitKeepsBids(w: World, g: string)
    requires BidInv(w) && Speeds(w) && Enabled(w, Emit(g))
    ensures BidInv(Step(w, Emit(g)))
  {
    hide BidsOk;
    var ag := w.agents[g];
    var m := ag.out[0];
    EmitBid(w.log, g, ag);
    forall h | h in w.agents
      ensures BidsOk(w.log + [m], h, Step(w, Emit(g)).agents[h])
    {
      if h != g {
        SameBids(w.log, m, h, w.agents[h]);
      }
    }
  }

  lemma ScheduleKeepsBids(w: World, a: Action)
    requires a.Schedule? && BidInv(w) && Speeds(w) && Enabled(w, a)
    ensures BidInv(Step(w, a))
  {
    hide BidsOk, C.Sync, C.Schedule, Delivered;
    SyncLearnsPublishedBids(w.log, w.c, a.batch);
    ScheduleMakesNoBids(C.Sync(w.c, a.batch), a.order, a.clock, 0);
  }

  lemma StepKeepsBidInv(w: World, a: Action)
    requires BidInv(w) && Speeds(w) && Enabled(w, a)
    ensures BidInv(Step(w, a))
  {
    hide BidInv, BidsOk;
    match a
    case PublishRequest(r) => PublishKeepsBids(w, RequestMsg(r));
    case PublishTransform(task, pose) => PublishKeepsBids(w, TransformMsg(task, pose));
    case Announce(_) => QuietStepsKeepBids(w, a);
    case SubmitBids(_, _, _, _, _) => SubmitKeepsBids(w, a);
    case TakeAssignments(_, _, _) => QuietStepsKeepBids(w, a);
    case HandleNext(_) => QuietStepsKeepBids(w, a);
    case Emit(g) => EmitKeepsBids(w, g);
    case Schedule(_, _, _) => ScheduleKeepsBids(w, a);
    case EmitDecision => EmitDecisionKeepsBids(w);
  }

  lemma EmitDecisionKeepsBids(w: World)
    requires BidInv(w) && Speeds(w) && Enabled(w, EmitDecision)
    ensures BidInv(Step(w, EmitDecision))
  {
    hide BidsOk;
    assert w.cOut[0] in w.cOut;
    PublishKeepsBids(w, w.cOut[0]);
  }

  lemma {:induction false} RunKeepsBidInv(w: World, actions: seq<Action>, end: World)
    requires BidInv(w) && Speeds(w) && Run(w, actions, end)
    ensures BidInv(end)
    decreases |actions|
  {
    hide BidInv;
    if |actions| > 0 {
      StepKeepsBidInv(w, actions[0]);
      StepKeepsSpeeds(w, actions[0]);
      RunKeepsBidInv(Step(w, actions[0]), actions[1..], end);
    }
  }

  lemma InitBidInv(w: World)
    requires Init(w)
    ensures BidInv(w) && Speeds(w)
  {
    hide V.BidId;
  }

  // ----- the results

  /** In every run, two published bids with one task and one vehicle, or with one task and one id, are
      the same bid. */
  lemma OneBidPerVehicleAndTask(w: World, actions: seq<Action>, end: World, b: Bid, d: Bid)
    requires Init(w) && Run(w, actions, end) && BidMsg(b) in end.log && BidMsg(d) in end.log && b.task == d.task
    requires b.agent == d.agent || b.id == d.id
    ensures b == d
  {
    hide V.BidId, Init, Run;
    InitBidInv(w);
    RunKeepsBidInv(w, actions, end);
    assert BidOf(end.log, end.agents[b.agent].out, b.agent, b);
    assert BidOf(end.log, end.agents[d.agent].out, d.agent, d);
    if b.id == d.id {
      V.BidIdsTellVehicles(b.task, b.agent, d.agent);
    }
  }

  /** So in every reachable state, with the clock standing still, receiving the same bids in another
      order, or some of them repeatedly, makes no difference to the winner. */
  lemma ChoiceIgnoresArrival(w: World, actions: seq<Action>, end: World, others: seq<Bid>, task: Request, now: int)
    requires Init(w) && Run(w, actions, end)
    requires forall b :: b in end.c.bids <==> b in others
    ensures C.BestOf(end.c.capabilities, end.c.bids, task, _ => now, 0, |end.c.bids|)
         == C.BestOf(end.c.capabilities, others, task, _ => now, 0, |others|)
  {
    hide C.BestOf, Init, Run, BidsOk;
    InitBidInv(w);
    RunKeepsBidInv(w, actions, end);
    var bids := end.c.bids;
    forall i, j | 0 <= i < |bids| && 0 <= j < |bids| && bids[i].task == task.id && bids[j].task == task.id && bids[i].id == bids[j].id
      ensures bids[i] == bids[j]
    {
      OneBidPerVehicleAndTask(w, actions, end, bids[i], bids[j]);
    }
    C.ArrivalOrderIsIrrelevant(end.c.capabilities, bids, others, task, now);
  }
}
