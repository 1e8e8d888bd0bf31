/** What each call of the demo script does, for a survey `s` and a delivery `d` that waits for it. */
module DemoFacts {
  import opened Wrappers
  import opened Text
  import opened AuctionMessages
  import C = CoordinatorAgent
  import V = VehicleAgents

  const UAV := V.Profile("uav-alpha", "CAMERA_THERMAL", 1.0, 18.0)
  const UGV := V.Profile("ugv-bravo", "MEDICAL_PAYLOAD", 12.0, 5.0)
  const UAV_HOME := Pose(0.0, -40.0, 20.0, 0.0)
  const UGV_HOME := Pose(220.0, -160.0, 0.0, 90.0)

  predicate Jobs(s: Request, d: Request) {
    && s.capability == UAV.capability && s.payload == 0.0 && s.predecessor == ""
    && d.capability == UGV.capability && d.payload <= 12.0 && d.predecessor == s.id
    && s.id != d.id && s.id != "" && d.id != ""
  }

  predicate OnlyTransforms(batch: seq<Msg>) {
    forall m :: m in batch ==> m.TransformMsg?
  }

  /** The keys of a `std::map` over two ids, in its order. */
  function MapOrder(a: string, b: string): seq<string> {
    if Less(a, b) then [a, b] else [b, a]
  }

  function Known(s: Request, d: Request): map<string, Request> {
    map[s.id := s, d.id := d]
  }

  // ----- what the agents learn

  /** Of the two requests and no others, each is known or still to come. */
  ghost predicate WillKnow(tasks: map<string, Request>, batch: seq<Msg>, s: Request, d: Request) {
    && (forall id :: id in tasks ==> id in Known(s, d) && tasks[id] == Known(s, d)[id])
    && (forall r :: RequestMsg(r) in batch ==> r == s || r == d)
    && (s.id in tasks || RequestMsg(s) in batch) && (d.id in tasks || RequestMsg(d) in batch)
  }

  lemma KnowNext(tasks: map<string, Request>, batch: seq<Msg>, s: Request, d: Request)
    requires |batch| > 0 && s.id != d.id && WillKnow(tasks, batch, s, d)
    ensures WillKnow(if batch[0].RequestMsg? then tasks[batch[0].request.id := batch[0].request] else tasks, batch[1..], s, d)
  {
    assert batch == [batch[0]] + batch[1..];
    assert batch[0].RequestMsg? ==> batch[0] == RequestMsg(batch[0].request) && batch[0] in batch;
    assert forall m :: m in batch[1..] ==> m in batch;
  }

  lemma {:induction false} VehicleLearns(v: V.State, batch: seq<Msg>, s: Request, d: Request)
    requires s.id != d.id && WillKnow(v.tasks, batch, s, d)
    ensures V.Sync(v, batch) == v.(tasks := Known(s, d), targets := V.Sync(v, batch).targets)
    decreases |batch|
  {
    if |batch| > 0 {
      hide WillKnow;
      KnowNext(v.tasks, batch, s, d);
      VehicleLearns(V.Absorb(v, batch[0]), batch[1..], s, d);
    }
  }

  /** Everything `c` has learnt besides the bids. */
  predicate Knows(c: C.State, s: Request, d: Request, completed: set<string>, assigned': set<string>) {
    && c.tasks == Known(s, d) && c.completedTasks == completed && c.assignedTasks == assigned'
    && c.capabilities == map[UAV.id := Announced(UAV), UGV.id := Announced(UGV)]
  }

  function Announced(p: V.Profile): Capability {
    Capability(p.id, p.capability, true)
  }

  ghost predicate WillHear(known: map<string, Capability>, batch: seq<Msg>) {
    && (forall g :: g in known ==> (g == UAV.id && known[g] == Announced(UAV)) || (g == UGV.id && known[g] == Announced(UGV)))
    && (forall p :: CapabilityMsg(p) in batch ==> p == Announced(UAV) || p == Announced(UGV))
    && (UAV.id in known || CapabilityMsg(Announced(UAV)) in batch) && (UGV.id in known || CapabilityMsg(Announced(UGV)) in batch)
  }

  lemma HearNext(known: map<string, Capability>, batch: seq<Msg>)
    requires |batch| > 0 && WillHear(known, batch)
    ensures WillHear(if batch[0].CapabilityMsg? then known[batch[0].capability.agent := batch[0].capability] else known, batch[1..])
  {
    assert batch == [batch[0]] + batch[1..];
    assert batch[0].CapabilityMsg? ==> batch[0] == CapabilityMsg(batch[0].capability) && batch[0] in batch;
    assert forall m :: m in batch[1..] ==> m in batch;
  }

  function CompletionsIn(batch: seq<Msg>): set<string> {
    set m | m in batch && m.StateMsg? && m.phase == Completed && |m.task| > 0 :: m.task
  }

  function BidsIn(batch: seq<Msg>): seq<Bid> {
    if |batch| == 0 then [] else (if batch[0].BidMsg? then [batch[0].bid] else []) + BidsIn(batch[1..])
  }

  lemma NothingToLearn(c: C.State, s: Request, d: Request)
    requires s.id != d.id && WillKnow(c.tasks, [], s, d) && WillHear(c.capabilities, [])
    ensures Knows(c, s, d, c.completedTasks + CompletionsIn([]), c.assignedTasks)
  {
  }

  lemma {:induction false} CoordinatorLearns(c: C.State, batch: seq<Msg>, s: Request, d: Request)
    requires s.id != d.id && WillKnow(c.tasks, batch, s, d) && WillHear(c.capabilities, batch)
    ensures Knows(C.Sync(c, batch), s, d, c.completedTasks + CompletionsIn(batch), c.assignedTasks)
    decreases |batch|
  {
    hide WillKnow, WillHear, Knows, CompletionsIn;
    if |batch| == 0 {
      assert batch == [];
      NothingToLearn(c, s, d);
    } else {
      KnowNext(c.tasks, batch, s, d);
      HearNext(c.capabilities, batch);
      CompletedNext(c, batch);
      CoordinatorLearns(C.Absorb(c, batch[0]), batch[1..], s, d);
    }
  }

  lemma {:induction false} CoordinatorCollects(c: C.State, batch: seq<Msg>)
    ensures C.Sync(c, batch).bids == c.bids + BidsIn(batch)
    decreases |batch|
  {
    if |batch| == 0 {
      assert c.bids + [] == c.bids;
    } else {
      CoordinatorCollects(C.Absorb(c, batch[0]), batch[1..]);
      assert batch[0].BidMsg? ==> c.bids + ([batch[0].bid] + BidsIn(batch[1..])) == c.bids + [batch[0].bid] + BidsIn(batch[1..]);
    }
  }

  lemma CompletedNext(c: C.State, batch: seq<Msg>)
    requires |batch| > 0
    ensures C.Absorb(c, batch[0]).completedTasks + CompletionsIn(batch[1..]) == c.completedTasks + CompletionsIn(batch)
  {
    assert batch == [batch[0]] + batch[1..];
  }

  lemma {:induction false} BidsCounted(batch: seq<Msg>, b: Bid)
    ensures multiset(BidsIn(batch))[b] == multiset(batch)[BidMsg(b)]
  {
    if |batch| > 0 {
      BidsCounted(batch[1..], b);
      var first := if batch[0].BidMsg? then [batch[0].bid] else [];
      assert batch == [batch[0]] + batch[1..];
      assert multiset(batch) == multiset{batch[0]} + multiset(batch[1..]);
      assert multiset(first + BidsIn(batch[1..])) == multiset(first) + multiset(BidsIn(batch[1..]));
    }
  }

  /** Two different bids in some order. */
  lemma TwoBids(bids: seq<Bid>, a: Bid, b: Bid)
    requires multiset(bids) == multiset{a, b}
    ensures bids == [a, b] || bids == [b, a]
  {
    assert |bids| == |multiset(bids)| == 2;
    assert bids == [bids[0], bids[1]];
    assert bids[0] in multiset(bids) && bids[1] in multiset(bids);
    assert multiset(bids)[a] > 0 && multiset(bids)[b] > 0;
    assert a in bids && b in bids;
  }

  // ----- what they do about it

  function BidsOn(p: V.Profile, v: V.State, own: Request, distance: (Pose, Pose) -> real, now: int): (V.State, seq<Msg>)
    requires p.speed != 0.0
  {
    (v.(bidded := {own.id}), [BidMsg(V.BidFor(p, v, own, distance, now)), EventMsg(own.id, BidSubmitted)])
  }

  /** A vehicle that knows both tasks bids for the one it can do. */
  lemma OwnBid(p: V.Profile, v: V.State, s: Request, d: Request, distance: (Pose, Pose) -> real, clock: nat -> int)
    requires Jobs(s, d) && (p == UAV || p == UGV) && v.tasks == Known(s, d) && v.bidded == {}
    ensures V.Bids(p, v, MapOrder(s.id, d.id), distance, clock, 0) == BidsOn(p, v, if p == UAV then s else d, distance, clock(0))
  {
    hide V.BidFor, Less;
    var order := MapOrder(s.id, d.id);
    var own := if p == UAV then s else d;
    var next := v.(bidded := v.bidded + {own.id});
    assert v.bidded + {own.id} == {own.id};
    assert order[1..][1..] == [] && order[1..][0] == order[1];
    var out := BidsOn(p, v, own, distance, clock(0)).1;
    assert out + [] == out;
    if order[0] == own.id {
      assert V.Bids(p, next, order[1..], distance, clock, 1) == V.Bids(p, next, order[1..][1..], distance, clock, 1) == (next, []);
    } else {
      assert V.Bids(p, next, order[1..][1..], distance, clock, 1) == (next, []);
      assert V.Bids(p, v, order, distance, clock, 0) == V.Bids(p, v, order[1..], distance, clock, 0);
    }
  }

  /** The only bid for `task` wins exactly when it is looked at in time. */
  lemma OnlyBidWins(c: C.State, task: Request, b: Bid, other: Bid, clock: nat -> int, i: nat)
    requires i < 2 && c.bids == (if i == 0 then [b, other] else [other, b])
    requires b.feasible && b.task == task.id && other.task != task.id && b.ttl == 5000
    requires b.agent in c.capabilities && c.capabilities[b.agent] == Capability(b.agent, task.capability, true)
    ensures C.BestOf(c.capabilities, c.bids, task, clock, 0, 2) == if clock(i) - b.createdAt <= 5000 then Some(b) else None
  {
    assert C.BestOf(c.capabilities, c.bids, task, clock, 0, 0) == None;
    assert C.BestOf(c.capabilities, c.bids, task, clock, 0, 1)
        == if i == 0 && clock(0) - b.createdAt <= 5000 then Some(b) else None;
  }

  function Award(c: C.State, task: Request, w: Option<Bid>): (C.State, seq<Msg>) {
    if w == None then (c, [])
    else (c.(assignedTasks := c.assignedTasks + {task.id}),
          [AssignMsg(C.AssignmentFor(c, task, w.value)), EventMsg(task.id, TaskAssigned)])
  }

  /** Exactly one of the two tasks is ready: at most that one is assigned. */
  lemma ScheduleOne(c: C.State, s: Request, d: Request, task: Request, clock: nat -> int)
    requires s.id != d.id && c.tasks == Known(s, d) && (task == s || task == d)
    requires C.Ready(c, task) && !C.Ready(c, if task == s then d else s)
    ensures C.Schedule(c, MapOrder(s.id, d.id), clock, 0) == Award(c, task, C.BestOf(c.capabilities, c.bids, task, clock, 0, |c.bids|))
  {
    hide C.BestOf, Less;
    var order := MapOrder(s.id, d.id);
    assert order[1..][1..] == [] && order[1..][0] == order[1];
    var w := C.BestOf(c.capabilities, c.bids, task, clock, 0, |c.bids|);
    var next := c.(assignedTasks := c.assignedTasks + {task.id});
    var n := |c.bids|;
    assert Award(c, task, w).1 + [] == Award(c, task, w).1;
    if order[0] == task.id {
      assert !C.Ready(next, next.tasks[order[1]]);
      assert C.Schedule(next, order[1..], clock, n) == C.Schedule(next, order[1..][1..], clock, n) == (next, []);
      assert C.Schedule(c, order[1..], clock, n) == C.Schedule(c, order[1..][1..], clock, n) == (c, []);
    } else {
      assert C.Schedule(c, order, clock, 0) == C.Schedule(c, order[1..], clock, 0);
      assert C.Schedule(next, order[1..][1..], clock, n) == (next, []);
      assert C.Schedule(c, order[1..][1..], clock, n) == (c, []);
    }
  }

  /** Transforms change nothing but the targets. */
  lemma {:induction false} TransformsOnly(v: V.State, batch: seq<Msg>)
    requires OnlyTransforms(batch)
    ensures V.Sync(v, batch) == v.(targets := V.Sync(v, batch).targets)
    decreases |batch|
  {
    if |batch| > 0 {
      assert batch[0] in batch;
      TransformsOnly(V.Absorb(v, batch[0]), batch[1..]);
    }
  }
}
