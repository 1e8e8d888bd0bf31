/** Every action keeps the invariant. */
module AuctionSteps {
  import opened Wrappers
  import opened AuctionMessages
  import opened AuctionSystem
  import opened AuctionInvariant
  import C = CoordinatorAgent
  import V = VehicleAgents

  // ----- synchronisation

  lemma {:induction false} CoordinatorSync(log: seq<Msg>, c: C.State, batch: seq<Msg>)
    requires Informed(log, c) && Delivered(log, batch)
    ensures Informed(log, C.Sync(c, batch)) && C.Sync(c, batch).assignedTasks == c.assignedTasks
    decreases |batch|
  {
    if |batch| > 0 {
      var m := batch[0];
      assert m in batch;
      AbsorbInformed(log, c, m);
      CoordinatorSync(log, C.Absorb(c, m), batch[1..]);
    }
  }

  lemma AbsorbInformed(log: seq<Msg>, c: C.State, m: Msg)
    requires Informed(log, c) && m in log
    ensures Informed(log, C.Absorb(c, m)) && C.Absorb(c, m).assignedTasks == c.assignedTasks
  {
    if m.StateMsg? && m.phase == Completed {
      assert CompletedIn(log, m.task);
    }
  }

  lemma {:induction false} VehicleSync(log: seq<Msg>, v: V.State, batch: seq<Msg>)
    requires Delivered(log, batch)
    requires forall id :: id in v.tasks ==> v.tasks[id].id == id && RequestMsg(v.tasks[id]) in log
    ensures var s := V.Sync(v, batch);
            s.executed == v.executed && s.epochs == v.epochs
            && forall id :: id in s.tasks ==> s.tasks[id].id == id && RequestMsg(s.tasks[id]) in log
    decreases |batch|
  {
    if |batch| > 0 {
      assert batch[0] in batch;
      VehicleSync(log, V.Absorb(v, batch[0]), batch[1..]);
    }
  }

  // ----- publications that decide nothing

  lemma KeepQuiet(w: World, m: Msg)
    requires Inv(w) && !m.AssignMsg? && !m.StateMsg? && (m.RequestMsg? ==> Enabled(w, PublishRequest(m.request)))
    ensures Inv(w.(log := w.log + [m]))
  {
    hide Informed, DecisionsOk, LogJustified, LogOrdered, AgentOk, Justified;
    InformedGrows(w.log, [m], w.c);
    DecisionsGrow(w, m);
    LogJustifiedGrows(w.log, m);
    LogOrderedGrows(w.log, m);
    forall g | g in w.agents
      ensures AgentOk(w.log + [m], g, w.agents[g])
    {
      AgentGrows(w.log, m, g, w.agents[g]);
    }
  }

  /** Only one agent changes, and nothing is published. */
  lemma KeepOneAgent(w: World, g: string, ag: Agent)
    requires Inv(w) && g in w.agents && AgentOk(w.log, g, ag)
    ensures Inv(WithAgent(w, g, ag))
  {
    hide Informed, DecisionsOk, LogJustified, LogOrdered, AgentOk, Agree;
    var w' := WithAgent(w, g, ag);
    assert DecisionsOk(w') by {
      SameDecisions(w, w');
    }
  }

  lemma SameDecisions(w: World, w': World)
    requires DecisionsOk(w) && w'.log == w.log && w'.cOut == w.cOut && w'.c == w.c
    ensures DecisionsOk(w')
  {
    hide Numbered, Justified;
  }

  lemma KeepAnnounce(w: World, g: string)
    requires Inv(w) && Speeds(w) && Enabled(w, Announce(g))
    ensures Inv(Step(w, Announce(g)))
  {
    hide Inv, Informed, DecisionsOk, LogJustified, LogOrdered, AssignedIn;
    assert AgentOk(w.log, g, w.agents[g]) by {
      InvAgent(w, g);
    }
    var ag := w.agents[g];
    var p := ag.profile;
    var out := [CapabilityMsg(Capability(p.id, p.capability, true)), StateMsg(p.id, "", Phase.Idle)];
    assert forall t :: StartCount(out, g, t) == 0;
    KeepOneAgent(w, g, ag.(out := out));
  }

  lemma InvAgent(w: World, g: string)
    requires Inv(w) && g in w.agents
    ensures AgentOk(w.log, g, w.agents[g])
  {
  }

  // ----- bidding

  predicate BidTraffic(out: seq<Msg>) {
    forall m :: m in out ==> m.BidMsg? || m.EventMsg?
  }

  lemma {:induction false} BidsAreTraffic(p: V.Profile, v: V.State, order: seq<string>, distance: (Pose, Pose) -> real, clock: nat -> int, n: nat)
    requires p.speed != 0.0 && forall id :: id in order ==> id in v.tasks
    ensures BidTraffic(V.Bids(p, v, order, distance, clock, n).1)
    decreases |order|
  {
    if |order| > 0 {
      var task := v.tasks[order[0]];
      if V.Biddable(p, v, task) {
        BidsAreTraffic(p, v.(bidded := v.bidded + {task.id}), order[1..], distance, clock, n + 1);
      } else {
        BidsAreTraffic(p, v, order[1..], distance, clock, n);
      }
    }
  }

  lemma TrafficIsOk(log: seq<Msg>, g: string, out: seq<Msg>)
    requires BidTraffic(out)
    ensures OutOk(log, g, out) && forall t :: StartCount(out, g, t) == 0
  {
    hide AssignedIn;
    forall i | 0 <= i < |out|
      ensures PendingOk(log, g, out, i)
    {
      assert out[i] in out;
    }
    forall t
      ensures StartCount(out, g, t) == 0
    {
      assert StateMsg(g, t, Assigned) !in out;
    }
  }

  lemma KeepBids(w: World, a: Action)
    requires a.SubmitBids? && Inv(w) && Speeds(w) && Enabled(w, a)
    ensures Inv(Step(w, a))
  {
    hide Inv, Informed, DecisionsOk, LogJustified, LogOrdered, AssignedIn, V.Bids, V.Sync, Delivered, OutOk, BidTraffic;
    var g := a.agent;
    InvAgent(w, g);
    var ag := w.agents[g];
    VehicleSync(w.log, ag.v, a.batch);
    var s := V.Sync(ag.v, a.batch);
    var r := V.Bids(ag.profile, s, a.order, a.distance, a.clock, 0);
    BidsAreTraffic(ag.profile, s, a.order, a.distance, a.clock, 0);
    TrafficIsOk(w.log, g, r.1);
    assert forall t :: StartCount([], g, t) == 0;
    KeepOneAgent(w, g, ag.(v := r.0, out := r.1));
  }

  // ----- taking and handling assignments

  lemma TakenIsOk(log: seq<Msg>, g: string, ag: Agent, batch: seq<Msg>, taken: seq<Assignment>)
    requires AgentOk(log, g, ag) && Delivered(log, batch) && forall t :: t in taken ==> AssignMsg(t) in log
    ensures AgentOk(log, g, ag.(v := V.Sync(ag.v, batch), queue := taken))
  {
    hide V.Sync, Delivered, OutOk, StartCount;
    VehicleSync(log, ag.v, batch);
  }

  lemma KeepTake(w: World, a: Action)
    requires a.TakeAssignments? && Inv(w) && Speeds(w) && Enabled(w, a)
    ensures Inv(Step(w, a))
  {
    hide Inv, AgentOk, V.Sync, Delivered;
    InvAgent(w, a.agent);
    var ag := w.agents[a.agent];
    TakenIsOk(w.log, a.agent, ag, a.batch, a.taken);
    KeepOneAgent(w, a.agent, ag.(v := V.Sync(ag.v, a.batch), queue := a.taken));
  }

  lemma ExecutionCount(p: V.Profile, task: string, g: string, t: string)
    requires p.id == g
    ensures StartCount(V.ExecutionOf(p, task), g, t) == if t == task then 1 else 0
  {
  }

  lemma ExecutionIsOk(log: seq<Msg>, p: V.Profile, task: string, g: string)
    requires p.id == g && AssignedIn(log, task, g)
    ensures OutOk(log, g, V.ExecutionOf(p, task))
  {
    hide AssignedIn;
    var out := V.ExecutionOf(p, task);
    assert out[0] in log + out[..6] by {
      assert out[..6][0] == out[0];
    }
    forall i | 0 <= i < |out|
      ensures PendingOk(log, g, out, i)
    {
      if i == 6 {
        assert out[..i] == out[..6];
      }
    }
  }

  lemma HandledIsOk(log: seq<Msg>, g: string, ag: Agent)
    requires AgentOk(log, g, ag) && ag.out == [] && ag.queue != []
    ensures var r := V.Handle(ag.profile, ag.v, ag.queue[0]);
            AgentOk(log, g, ag.(v := r.0, queue := ag.queue[1..], out := r.1))
  {
    hide AssignedIn, OutOk, StartCount, V.ExecutionOf;
    var a := ag.queue[0];
    assert a in ag.queue;
    assert forall b :: b in ag.queue[1..] ==> b in ag.queue;
    NoStarts(g);
    NothingPending(log, g);
    if V.Takes(ag.profile, ag.v, a) && a.task in ag.v.tasks {
      AssignmentSeen(log, a);
      ExecutionIsOk(log, ag.profile, a.task, g);
      forall t
        ensures StartCount(V.ExecutionOf(ag.profile, a.task), g, t) == if t == a.task then 1 else 0
      {
        ExecutionCount(ag.profile, a.task, g, t);
      }
    }
  }

  lemma KeepHandle(w: World, g: string)
    requires Inv(w) && Speeds(w) && Enabled(w, HandleNext(g))
    ensures Inv(Step(w, HandleNext(g)))
  {
    hide Inv, AgentOk, V.Handle;
    InvAgent(w, g);
    var ag := w.agents[g];
    HandledIsOk(w.log, g, ag);
    var r := V.Handle(ag.profile, ag.v, ag.queue[0]);
    KeepOneAgent(w, g, ag.(v := r.0, queue := ag.queue[1..], out := r.1));
  }

  lemma AssignmentSeen(log: seq<Msg>, a: Assignment)
    requires AssignMsg(a) in log
    ensures AssignedIn(log, a.task, a.agent)
  {
  }

  lemma NoStarts(g: string)
    ensures forall t :: StartCount([], g, t) == 0
  {
  }

  lemma NothingPending(log: seq<Msg>, g: string)
    ensures OutOk(log, g, [])
  {
  }

  // ----- a vehicle publishes

  lemma OutShifts(log: seq<Msg>, g: string, out: seq<Msg>)
    requires out != [] && OutOk(log, g, out)
    ensures OutOk(log + [out[0]], g, out[1..])
  {
    hide AssignedIn;
    forall i | 0 <= i < |out[1..]|
      ensures PendingOk(log + [out[0]], g, out[1..], i)
    {
      assert out[1..][i] == out[i + 1] && PendingOk(log, g, out, i + 1);
      if out[i + 1].StateMsg? && out[i + 1].phase != Phase.Idle {
        AssignedGrows(log, [out[0]], out[i + 1].task, g);
      }
      assert log + out[..i + 1] == log + [out[0]] + out[1..][..i];
    }
  }

  lemma StartsShift(log: seq<Msg>, g: string, out: seq<Msg>, t: string)
    requires out != []
    ensures StartCount(log + [out[0]], g, t) + StartCount(out[1..], g, t) == StartCount(log, g, t) + StartCount(out, g, t)
  {
    assert out == [out[0]] + out[1..];
    assert multiset(log + [out[0]]) == multiset(log) + multiset{out[0]};
    assert multiset(out) == multiset{out[0]} + multiset(out[1..]);
  }

  lemma EmitterOk(log: seq<Msg>, g: string, ag: Agent)
    requires AgentOk(log, g, ag) && ag.out != []
    ensures AgentOk(log + [ag.out[0]], g, ag.(out := ag.out[1..]))
  {
    hide OutOk, StartCount;
    Grows(log, [ag.out[0]]);
    OutShifts(log, g, ag.out);
    forall t
      ensures StartCount(log + [ag.out[0]], g, t) + StartCount(ag.out[1..], g, t) == if t in ag.v.executed then 1 else 0
    {
      StartsShift(log, g, ag.out, t);
    }
  }

  lemma PendingMayFollow(log: seq<Msg>, g: string, out: seq<Msg>)
    requires out != [] && OutOk(log, g, out)
    ensures MayFollow(log, out[0]) && !out[0].AssignMsg? && !out[0].RequestMsg? && (out[0].StateMsg? ==> out[0].agent == g)
  {
    hide AssignedIn;
    assert PendingOk(log, g, out, 0);
    assert log + out[..0] == log;
  }

  lemma KeepEmit(w: World, g: string)
    requires Inv(w) && Speeds(w) && Enabled(w, Emit(g))
    ensures Inv(Step(w, Emit(g)))
  {
    hide Informed, DecisionsOk, LogJustified, LogOrdered, AgentOk, MayFollow;
    var ag := w.agents[g];
    var m := ag.out[0];
    var w' := Step(w, Emit(g));
    assert OutOk(w.log, g, ag.out) by {
      OutOfAgent(w, g);
    }
    PendingMayFollow(w.log, g, ag.out);
    InformedGrows(w.log, [m], w.c);
    DecisionsGrow(w, m);
    SameDecisions(w.(log := w.log + [m]), w');
    LogJustifiedGrows(w.log, m);
    LogOrderedGrows(w.log, m);
    forall h | h in w'.agents
      ensures AgentOk(w'.log, h, w'.agents[h])
    {
      if h == g {
        EmitterOk(w.log, g, ag);
      } else {
        AgentGrows(w.log, m, h, w.agents[h]);
      }
    }
  }

  lemma OutOfAgent(w: World, g: string)
    requires AgentsOk(w) && g in w.agents
    ensures OutOk(w.log, g, w.agents[g].out)
  {
  }

  // ----- the coordinator decides

  lemma WinnerIsBacked(log: seq<Msg>, c: C.State, task: Request, clock: nat -> int, n: nat)
    requires Informed(log, c) && RequestMsg(task) in log && C.BestOf(c.capabilities, c.bids, task, clock, n, |c.bids|).Some?
    ensures Backed(log, C.AssignmentFor(c, task, C.BestOf(c.capabilities, c.bids, task, clock, n, |c.bids|).value))
  {
    hide C.BestOf, CompletedIn;
    C.BestIsOptimal(c.capabilities, c.bids, task, clock, n, |c.bids|);
    var w := C.BestOf(c.capabilities, c.bids, task, clock, n, |c.bids|).value;
    var j :| 0 <= j < |c.bids| && c.bids[j] == w && C.Eligible(c.capabilities, c.bids[j], task, clock(n + j));
    var p := c.capabilities[w.agent];
    assert BidMsg(w) in log && CapabilityMsg(p) in log;
    assert Backs(task, w, p, C.AssignmentFor(c, task, w));
  }

  lemma ReadyIsUnlocked(log: seq<Msg>, c: C.State, id: string)
    requires Informed(log, c) && id in c.tasks && C.Ready(c, c.tasks[id])
    ensures Unlocked(log, c.tasks[id].id)
  {
    hide CompletedIn;
    var r := c.tasks[id];
    assert RequestMsg(r) in log && (r.predecessor == "" || CompletedIn(log, r.predecessor));
  }

  lemma InformedIgnoresAssigned(log: seq<Msg>, c: C.State, s: set<string>)
    requires Informed(log, c)
    ensures Informed(log, c.(assignedTasks := s))
  {
  }

  ghost predicate Decided(log: seq<Msg>, out: seq<Msg>) {
    (forall a :: AssignMsg(a) in out ==> Justified(log, a)) && (forall m :: m in out ==> m.AssignMsg? || m.EventMsg?)
  }

  lemma DecidedCons(log: seq<Msg>, a: Assignment, t: string, out: seq<Msg>)
    requires Justified(log, a) && Decided(log, out)
    ensures Decided(log, [AssignMsg(a), EventMsg(t, TaskAssigned)] + out)
    ensures Assigns([AssignMsg(a), EventMsg(t, TaskAssigned)] + out) == [a] + Assigns(out)
  {
    hide Justified;
    var all := [AssignMsg(a), EventMsg(t, TaskAssigned)] + out;
    assert all[1..] == [EventMsg(t, TaskAssigned)] + out;
    assert all[1..][1..] == out;
    assert Assigns(all[1..]) == Assigns(out);
  }

  lemma NumberedSnoc(all: seq<Assignment>, assigned': set<string>, a: Assignment)
    requires Numbered(all, assigned') && a.epoch == |assigned'| + 1 && a.task !in assigned'
    ensures Numbered(all + [a], assigned' + {a.task})
  {
  }

  lemma {:induction false} ScheduleDecides(log: seq<Msg>, c: C.State, order: seq<string>, clock: nat -> int, n: nat, done: seq<Assignment>)
    requires Informed(log, c) && (forall id :: id in order ==> id in c.tasks) && Numbered(done, c.assignedTasks)
    ensures var r := C.Schedule(c, order, clock, n);
            Informed(log, r.0) && Decided(log, r.1) && Numbered(done + Assigns(r.1), r.0.assignedTasks)
    decreases |order|
  {
    hide Informed, Numbered, Decided, C.BestOf, C.Ready, Justified, Unlocked, Backed;
    if |order| == 0 {
      assert Decided(log, []) by {
        NothingDecided(log);
      }
      assert done + Assigns([]) == done;
    } else {
      assert order[0] in order;
      var task := c.tasks[order[0]];
      var w := C.BestOf(c.capabilities, c.bids, task, clock, n, |c.bids|);
      if !C.Ready(c, task) {
        ScheduleDecides(log, c, order[1..], clock, n, done);
      } else if w == None {
        ScheduleDecides(log, c, order[1..], clock, n + |c.bids|, done);
      } else {
        OneDecision(log, c, order[0], clock, n, done);
        var a := C.AssignmentFor(c, task, w.value);
        var next := c.(assignedTasks := c.assignedTasks + {task.id});
        ScheduleDecides(log, next, order[1..], clock, n + |c.bids|, done + [a]);
        var rest := C.Schedule(next, order[1..], clock, n + |c.bids|);
        DecidedCons(log, a, task.id, rest.1);
        assert done + ([a] + Assigns(rest.1)) == done + [a] + Assigns(rest.1);
      }
    }
  }

  lemma NothingDecided(log: seq<Msg>)
    ensures Decided(log, [])
  {
  }

  lemma OneDecision(log: seq<Msg>, c: C.State, id: string, clock: nat -> int, n: nat, done: seq<Assignment>)
    requires Informed(log, c) && id in c.tasks && Numbered(done, c.assignedTasks) && C.Ready(c, c.tasks[id])
    requires C.BestOf(c.capabilities, c.bids, c.tasks[id], clock, n, |c.bids|).Some?
    ensures var task := c.tasks[id];
            var a := C.AssignmentFor(c, task, C.BestOf(c.capabilities, c.bids, task, clock, n, |c.bids|).value);
            && Justified(log, a)
            && Informed(log, c.(assignedTasks := c.assignedTasks + {task.id}))
            && Numbered(done + [a], c.assignedTasks + {task.id})
  {
    hide C.BestOf, Numbered, Unlocked, Backed;
    var task := c.tasks[id];
    WinnerIsBacked(log, c, task, clock, n);
    ReadyIsUnlocked(log, c, id);
    InformedIgnoresAssigned(log, c, c.assignedTasks + {task.id});
    NumberedSnoc(done, c.assignedTasks, C.AssignmentFor(c, task, C.BestOf(c.capabilities, c.bids, task, clock, n, |c.bids|).value));
  }

  lemma KeepSchedule(w: World, a: Action)
    requires a.Schedule? && Inv(w) && Speeds(w) && Enabled(w, a)
    ensures Inv(Step(w, a))
  {
    hide Informed, LogJustified, LogOrdered, AgentOk, C.Sync, C.Schedule, Delivered, Numbered, Decided;
    var s := C.Sync(w.c, a.batch);
    CoordinatorSync(w.log, w.c, a.batch);
    assert Assigns(w.log) + Assigns([]) == Assigns(w.log);
    ScheduleDecides(w.log, s, a.order, a.clock, 0, Assigns(w.log));
    var r := C.Schedule(s, a.order, a.clock, 0);
    DecidedUnfolds(w.log, r.1);
  }

  lemma DecidedUnfolds(log: seq<Msg>, out: seq<Msg>)
    requires Decided(log, out)
    ensures (forall a :: AssignMsg(a) in out ==> Justified(log, a)) && (forall m :: m in out ==> m.AssignMsg? || m.EventMsg?)
  {
  }

  function AfterDecision(w: World): World
    requires w.cOut != []
  {
    w.(cOut := w.cOut[1..], log := w.log + [w.cOut[0]])
  }

  lemma KeepEmitDecision(w: World)
    requires Inv(w) && Speeds(w) && Enabled(w, EmitDecision)
    ensures Inv(Step(w, EmitDecision))
  {
    hide Informed, LogJustified, LogOrdered, AgentOk, Justified, Numbered, DecisionsOk;
    var m := w.cOut[0];
    assert m in w.cOut;
    DecisionShifts(w);
    InformedGrows(w.log, [m], w.c);
    LogJustifiedGrows(w.log, m);
    LogOrderedGrows(w.log, m);
    forall g | g in w.agents
      ensures AgentOk(w.log + [m], g, w.agents[g])
    {
      AgentGrows(w.log, m, g, w.agents[g]);
    }
  }

  lemma DecisionShifts(w: World)
    requires DecisionsOk(w) && w.cOut != []
    ensures DecisionsOk(AfterDecision(w)) && (w.cOut[0].AssignMsg? ==> Justified(w.log, w.cOut[0].assignment))
    ensures w.cOut[0].AssignMsg? || w.cOut[0].EventMsg?
  {
    hide Justified, Numbered;
    var m, rest := w.cOut[0], w.cOut[1..];
    assert m in w.cOut;
    assert m.AssignMsg? ==> m == AssignMsg(m.assignment);
    AssignsGrow(w.log, m);
    assert Assigns(w.log + [m]) + Assigns(rest) == Assigns(w.log) + Assigns(w.cOut);
    forall a | AssignMsg(a) in rest
      ensures Justified(w.log + [m], a)
    {
      assert AssignMsg(a) in w.cOut;
      JustifiedGrows(w.log, [m], a);
    }
  }

  // ----- all of them

  lemma StepKeepsInv(w: World, a: Action)
    requires Inv(w) && Speeds(w) && Enabled(w, a)
    ensures Inv(Step(w, a))
  {
    hide Inv;
    match a
    case PublishRequest(r) => KeepQuiet(w, RequestMsg(r));
    case PublishTransform(task, pose) => KeepQuiet(w, TransformMsg(task, pose));
    case Announce(g) => KeepAnnounce(w, g);
    case SubmitBids(_, _, _, _, _) => KeepBids(w, a);
    case TakeAssignments(_, _, _) => KeepTake(w, a);
    case HandleNext(g) => KeepHandle(w, g);
    case Emit(g) => KeepEmit(w, g);
    case Schedule(_, _, _) => KeepSchedule(w, a);
    case EmitDecision => KeepEmitDecision(w);
  }

  lemma {:induction false} RunKeepsInv(w: World, actions: seq<Action>, end: World)
    requires Inv(w) && Speeds(w) && Run(w, actions, end)
    ensures Inv(end) && Speeds(end) && end.agents.Keys == w.agents.Keys && w.log <= end.log
    decreases |actions|
  {
    hide Inv;
    if |actions| > 0 {
      StepKeepsInv(w, actions[0]);
      StepKeepsSpeeds(w, actions[0]);
      RunKeepsInv(Step(w, actions[0]), actions[1..], end);
    }
  }
}
