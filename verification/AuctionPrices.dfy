/** What bids cost, over whole runs: the way to the target at cruise speed, and the charge that is missing. */
module AuctionPrices {
  import opened Wrappers
  import opened AuctionMessages
  import Text
  import opened AuctionSystem
  import opened AuctionInvariant
  import opened AuctionSteps
  import opened AuctionBids
  import opened AuctionOptimality
  import C = CoordinatorAgent
  import V = VehicleAgents

  // ----- what a vehicle has been handed

  /** Everything the actions hand to vehicle `g`, in order. */
  function Handed(actions: seq<Action>, g: string): seq<Msg> {
    if |actions| == 0 then []
    else
      (if (actions[0].SubmitBids? || actions[0].TakeAssignments?) && actions[0].agent == g then actions[0].batch else [])
      + Handed(actions[1..], g)
  }

  /** The pose of the last transform for the task. */
  function LastTransform(msgs: seq<Msg>, task: string): Option<Pose> {
    if |msgs| == 0 then None
    else
      var m := msgs[|msgs| - 1];
      if m.TransformMsg? && m.target == task then Some(m.pose) else LastTransform(msgs[..|msgs| - 1], task)
  }

  ghost predicate TargetsAre(targets: map<string, Pose>, msgs: seq<Msg>) {
    forall t :: LastTransform(msgs, t) == if t in targets then Some(targets[t]) else None
  }

  lemma {:induction false} SyncTargets(v: V.State, msgs: seq<Msg>, batch: seq<Msg>)
    requires TargetsAre(v.targets, msgs)
    ensures TargetsAre(V.Sync(v, batch).targets, msgs + batch)
    decreases |batch|
  {
    if |batch| == 0 {
      assert msgs + batch == msgs;
    } else {
      var next := msgs + [batch[0]];
      assert next[..|msgs|] == msgs;
      SyncTargets(V.Absorb(v, batch[0]), next, batch[1..]);
      assert msgs + batch == next + batch[1..];
    }
  }

  lemma StepTargets(w: World, act: Action, g: string, msgs: seq<Msg>)
    requires Speeds(w) && Enabled(w, act) && g in w.agents && TargetsAre(w.agents[g].v.targets, msgs)
    ensures g in Step(w, act).agents && TargetsAre(Step(w, act).agents[g].v.targets, msgs + Handed([act], g))
  {
    hide TargetsAre, V.Sync, V.Bids, Delivered;
    assert [act][1..] == [] && Handed([], g) == [];
    if (act.SubmitBids? || act.TakeAssignments?) && act.agent == g {
      SyncTargets(w.agents[g].v, msgs, act.batch);
      assert Handed([act], g) == act.batch;
    } else {
      assert msgs + Handed([act], g) == msgs;
    }
  }

  lemma HandedNext(actions: seq<Action>, g: string)
    requires |actions| > 0
    ensures Handed(actions, g) == Handed([actions[0]], g) + Handed(actions[1..], g)
  {
    assert [actions[0]][1..] == [] && Handed([], g) == [];
  }

  /** A vehicle's targets are the last transforms it has been handed. */
  lemma {:induction false} RunTargets(w: World, actions: seq<Action>, end: World, g: string, msgs: seq<Msg>)
    requires Speeds(w) && Run(w, actions, end) && g in w.agents && TargetsAre(w.agents[g].v.targets, msgs)
    ensures g in end.agents && TargetsAre(end.agents[g].v.targets, msgs + Handed(actions, g))
    decreases |actions|
  {
    hide TargetsAre;
    if |actions| == 0 {
      assert msgs + Handed(actions, g) == msgs;
    } else {
      hide Handed;
      StepKeepsSpeeds(w, actions[0]);
      StepTargets(w, actions[0], g, msgs);
      RunTargets(Step(w, actions[0]), actions[1..], end, g, msgs + Handed([actions[0]], g));
      HandedNext(actions, g);
      assert msgs + Handed([actions[0]], g) + Handed(actions[1..], g) == msgs + Handed(actions, g);
    }
  }

  // ----- the price of a bid

  /** The price of a bid made by a vehicle with this profile, at this pose and charge. */
  predicate Priced(p: V.Profile, pose: Pose, battery: real, target: Pose, distance: (Pose, Pose) -> real, b: Bid) {
    && b.agent == p.id && b.feasible && b.ttl == 5000
    && b.eta * p.speed == distance(pose, target)
    && b.cost == b.eta + 0.35 * (100.0 - battery)
  }

  /** The target of the task: the last transform, or where the request says. */
  ghost predicate Destination(msgs: seq<Msg>, r: Request, target: Pose) {
    target == match LastTransform(msgs, r.id) case Some(pose) => pose case None => r.target
  }

  lemma {:induction false} BidsArePriced(p: V.Profile, v: V.State, order: seq<string>, distance: (Pose, Pose) -> real, clock: nat -> int, n: nat,
                                         msgs: seq<Msg>, b: Bid)
    requires p.speed != 0.0 && (forall id :: id in order ==> id in v.tasks) && V.Filed(v) && TargetsAre(v.targets, msgs)
    requires BidMsg(b) in V.Bids(p, v, order, distance, clock, n).1
    ensures b.task in order && b.task in v.tasks && v.tasks[b.task].capability == p.capability && v.tasks[b.task].payload <= p.maxPayload
    ensures exists target :: Destination(msgs, v.tasks[b.task], target) && Priced(p, v.pose, v.battery, target, distance, b)
    ensures exists j: nat :: b.createdAt == clock(j)
    decreases |order|
  {
    hide V.BidId, TargetsAre;
    if |order| > 0 {
      var task := v.tasks[order[0]];
      if V.Biddable(p, v, task) {
        var own := V.BidFor(p, v, task, distance, clock(n));
        if b == own {
          OwnPrice(p, v, task, distance, clock(n), msgs);
        } else {
          BidsArePriced(p, v.(bidded := v.bidded + {task.id}), order[1..], distance, clock, n + 1, msgs, b);
        }
      } else {
        BidsArePriced(p, v, order[1..], distance, clock, n, msgs, b);
      }
    }
  }

  lemma OwnPrice(p: V.Profile, v: V.State, task: Request, distance: (Pose, Pose) -> real, now: int, msgs: seq<Msg>)
    requires p.speed != 0.0 && TargetsAre(v.targets, msgs)
    ensures exists target :: Destination(msgs, task, target) && Priced(p, v.pose, v.battery, target, distance, V.BidFor(p, v, task, distance, now))
  {
    var b, target := V.BidFor(p, v, task, distance, now), V.TargetOf(v, task);
    Quotient(distance(v.pose, target), p.speed);
    assert Destination(msgs, task, target) && Priced(p, v.pose, v.battery, target, distance, b);
  }

  lemma Quotient(d: real, s: real)
    requires s != 0.0
    ensures d / s * s == d
  {
  }

  /** A vehicle bids for every task in `order` that asks for its capability, is light enough, and that it has
      not bid for. */
  lemma {:induction false} BidsAreComplete(p: V.Profile, v: V.State, order: seq<string>, distance: (Pose, Pose) -> real, clock: nat -> int, n: nat,
                                           id: string)
    requires p.speed != 0.0 && (forall k :: k in order ==> k in v.tasks) && V.Filed(v)
    requires id in order && v.tasks[id].capability == p.capability && v.tasks[id].payload <= p.maxPayload && id !in v.bidded
    ensures exists b :: BidMsg(b) in V.Bids(p, v, order, distance, clock, n).1 && b.task == id
    decreases |order|
  {
    hide V.BidId, V.Eta;
    var task := v.tasks[order[0]];
    var own := V.BidFor(p, v, task, distance, clock(n));
    if order[0] == id {
      assert V.Biddable(p, v, task);
      assert BidMsg(own) in V.Bids(p, v, order, distance, clock, n).1 && own.task == id;
    } else {
      assert id in order[1..];
      var next, m := if V.Biddable(p, v, task) then v.(bidded := v.bidded + {task.id}) else v, if V.Biddable(p, v, task) then n + 1 else n;
      BidsAreComplete(p, next, order[1..], distance, clock, m, id);
      var b :| BidMsg(b) in V.Bids(p, next, order[1..], distance, clock, m).1 && b.task == id;
      assert BidMsg(b) in V.Bids(p, v, order, distance, clock, n).1;
    }
  }

  // ----- over runs

  /** The bid is published or about to be. */
  ghost predicate Offered(w: World, b: Bid) {
    b.agent in w.agents && BidOf(w.log, w.agents[b.agent].out, b.agent, b)
  }

  /** The call of `submit_candidate_bids` that made the bid. */
  ghost predicate Makes(w: World, act: Action, b: Bid)
    requires Speeds(w)
  {
    act.SubmitBids? && Enabled(w, act) && act.agent == b.agent
    && BidMsg(b) in V.Bids(w.agents[b.agent].profile, V.Sync(w.agents[b.agent].v, act.batch), act.order, act.distance, act.clock, 0).1
  }

  /** Only the call for bids offers any. */
  lemma OthersOfferNothing(w: World, act: Action, b: Bid)
    requires BidInv(w) && Speeds(w) && Enabled(w, act) && !act.SubmitBids?
    ensures Offered(Step(w, act), b) ==> Offered(w, b)
  {
    hide V.Sync, V.Bids, Delivered, V.BidId, C.Sync, C.Schedule, BidsOk;
    StepKeepsSpeeds(w, act);
    match act
    case HandleNext(h) => ExecutionIsNoBid(w.agents[h].profile, w.agents[h].v, w.agents[h].queue[0]);
    case Emit(h) => EmitsOwnBids(w, h);
    case EmitDecision => assert w.cOut[0] in w.cOut;
    case _ =>
  }

  lemma EmitsOwnBids(w: World, g: string)
    requires BidInv(w) && g in w.agents && w.agents[g].out != []
    ensures var out := w.agents[g].out;
            (out[0].BidMsg? ==> out[0].bid.agent == g) && out[0] in out && forall m :: m in out[1..] ==> m in out
  {
    hide V.BidId;
    BidsOfAgent(w, g);
    var out := w.agents[g].out;
    assert out[0].BidMsg? ==> BidMsg(out[0].bid) in out;
  }

  lemma StepOffers(w: World, act: Action, b: Bid)
    requires BidInv(w) && Speeds(w) && Enabled(w, act) && Offered(Step(w, act), b) && !Offered(w, b)
    ensures Makes(w, act, b)
  {
    hide V.Sync, V.Bids, Delivered, V.BidId, Offered, BidsOk;
    if act.SubmitBids? {
      SubmitOffers(w, act, b);
    } else {
      OthersOfferNothing(w, act, b);
    }
  }

  lemma SubmitOffers(w: World, act: Action, b: Bid)
    requires BidInv(w) && Speeds(w) && Enabled(w, act) && act.SubmitBids? && Offered(Step(w, act), b) && !Offered(w, b)
    ensures Makes(w, act, b)
  {
    hide V.Sync, V.Bids, Delivered, V.BidId;
    BidsOfAgent(w, act.agent);
  }

  lemma ExecutionIsNoBid(p: V.Profile, v: V.State, a: Assignment)
    ensures forall m :: m in V.Handle(p, v, a).1 ==> !m.BidMsg?
  {
  }

  lemma {:induction false} RunOffers(w: World, actions: seq<Action>, end: World, b: Bid) returns (k: nat, mid: World)
    requires BidInv(w) && Speeds(w) && Run(w, actions, end) && Offered(end, b) && !Offered(w, b)
    ensures k < |actions| && Run(w, actions[..k], mid) && Speeds(mid) && Makes(mid, actions[k], b)
    decreases |actions|
  {
    hide BidInv, Offered, Makes;
    assert |actions| > 0;
    var act, rest := actions[0], actions[1..];
    StepKeepsSpeeds(w, act);
    StepKeepsBidInv(w, act);
    if Offered(Step(w, act), b) {
      StepOffers(w, act, b);
      k, mid := 0, w;
      assert actions[..0] == [];
    } else {
      var j;
      j, mid := RunOffers(Step(w, act), rest, end, b);
      k := j + 1;
      assert actions[k] == rest[j];
      assert actions[..k][0] == act && actions[..k][1..] == rest[..j];
    }
  }

  /** The `k`-th action, made in the world `mid`, has the vehicle bid `b`: the estimated time times the cruise
      speed is the distance from its pose to the target, which is the last transform it has been handed for the
      task, or where the published request says when it has been handed none; and the cost is that time and 0.35
      for every percent of charge missing. */
  ghost predicate PricedAt(w: World, actions: seq<Action>, k: nat, mid: World, b: Bid)
    requires Speeds(w) && k < |actions|
  {
    && Run(w, actions[..k], mid) && actions[k].SubmitBids? && actions[k].agent == b.agent && b.agent in mid.agents
    && (exists j: nat :: b.createdAt == actions[k].clock(j))
    && var ag := mid.agents[b.agent];
       exists r, target :: RequestMsg(r) in mid.log && r.id == b.task && r.capability == ag.profile.capability && r.payload <= ag.profile.maxPayload
         && Destination(Handed(actions[..k + 1], b.agent), r, target)
         && Priced(ag.profile, ag.v.pose, ag.v.battery, target, actions[k].distance, b)
  }

  lemma {:induction false} HandedConcat(a: seq<Action>, b: seq<Action>, g: string)
    ensures Handed(a + b, g) == Handed(a, g) + Handed(b, g)
  {
    if |a| == 0 {
      assert a + b == b;
    } else {
      HandedConcat(a[1..], b, g);
      assert (a + b)[0] == a[0] && (a + b)[1..] == a[1..] + b;
      HandedNext(a + b, g);
      HandedNext(a, g);
      hide Handed;
      assert Handed([a[0]], g) + (Handed(a[1..], g) + Handed(b, g)) == Handed([a[0]], g) + Handed(a[1..], g) + Handed(b, g);
    }
  }

  lemma {:induction false} SyncKeepsBody(v: V.State, batch: seq<Msg>)
    ensures V.Sync(v, batch).pose == v.pose && V.Sync(v, batch).battery == v.battery
    decreases |batch|
  {
    if |batch| > 0 {
      SyncKeepsBody(V.Absorb(v, batch[0]), batch[1..]);
    }
  }

  lemma NothingHanded(w: World, g: string)
    requires Init(w) && g in w.agents
    ensures TargetsAre(w.agents[g].v.targets, [])
  {
  }

  /** Every published bid was made by such a call, at such a price. */
  lemma EveryBidIsPriced(w: World, actions: seq<Action>, end: World, b: Bid)
    requires Init(w) && Run(w, actions, end) && BidMsg(b) in end.log
    ensures exists k: nat, mid: World :: k < |actions| && PricedAt(w, actions, k, mid, b)
  {
    InitBidInv(w);
    InitInv(w);
    assert Speeds(w) && !Offered(w, b);
    RunKeepsBidInv(w, actions, end);
    assert Offered(end, b);
    hide Offered, BidInv, Inv, Init, Run;
    var k, mid := RunOffers(w, actions, end, b);
    RunKeepsInv(w, actions[..k], mid);
    MadeIsPriced(w, actions, k, mid, b);
  }

  lemma MadeIsPriced(w: World, actions: seq<Action>, k: nat, mid: World, b: Bid)
    requires Init(w) && k < |actions| && Run(w, actions[..k], mid) && Speeds(mid) && Inv(mid) && Makes(mid, actions[k], b)
    requires mid.agents.Keys == w.agents.Keys
    ensures PricedAt(w, actions, k, mid, b)
  {
    var g, act := b.agent, actions[k];
    NothingHanded(w, g);
    InvAgent(mid, g);
    assert actions[..k + 1] == actions[..k] + [act];
    assert AgentInformed(mid.log, g, mid.agents[g]);
    hide Inv, Init, Run, TargetsAre, Delivered, Handed, Destination, Priced, AgentInformed, V.Bids, V.Sync, OutOk, StartsOk;
    RunTargets(w, actions[..k], mid, g, []);
    assert [] + Handed(actions[..k], g) == Handed(actions[..k], g);
    HandedConcat(actions[..k], [act], g);
    HandedOne(act, g);
    MadeHere(mid, act, b, Handed(actions[..k], g));
  }

  lemma MadeHere(w: World, act: Action, b: Bid, msgs: seq<Msg>)
    requires Speeds(w) && Makes(w, act, b) && AgentInformed(w.log, b.agent, w.agents[b.agent]) && TargetsAre(w.agents[b.agent].v.targets, msgs)
    ensures exists j: nat :: b.createdAt == act.clock(j)
    ensures var ag := w.agents[b.agent];
            exists r, target :: RequestMsg(r) in w.log && r.id == b.task && r.capability == ag.profile.capability && r.payload <= ag.profile.maxPayload
              && Destination(msgs + act.batch, r, target) && Priced(ag.profile, ag.v.pose, ag.v.battery, target, act.distance, b)
  {
    hide TargetsAre, V.Sync, V.Bids, Delivered, Destination, Priced;
    var ag := w.agents[b.agent];
    var v := V.Sync(ag.v, act.batch);
    SyncTargets(ag.v, msgs, act.batch);
    VehicleSync(w.log, ag.v, act.batch);
    SyncKeepsBody(ag.v, act.batch);
    BidsArePriced(ag.profile, v, act.order, act.distance, act.clock, 0, msgs + act.batch, b);
    var target :| Destination(msgs + act.batch, v.tasks[b.task], target) && Priced(ag.profile, v.pose, v.battery, target, act.distance, b);
    assert RequestMsg(v.tasks[b.task]) in w.log;
  }

  lemma HandedOne(act: Action, g: string)
    requires act.SubmitBids? && act.agent == g
    ensures Handed([act], g) == act.batch
  {
    assert [act][1..] == [] && Handed([], g) == [];
    assert act.batch + [] == act.batch;
  }

  // ----- who wins

  /** 0.35 of cost for a percent of charge: at equal charge the sooner vehicle is cheaper, at equal time the one
      with the fuller battery. */
  lemma PricesCompare(w: World, actions: seq<Action>, i: nat, wi: World, b: Bid, j: nat, wj: World, d: Bid)
    requires Speeds(w) && i < |actions| && j < |actions| && PricedAt(w, actions, i, wi, b) && PricedAt(w, actions, j, wj, d)
    ensures b.agent in wi.agents && d.agent in wj.agents
    ensures var mine, other := wi.agents[b.agent].v.battery, wj.agents[d.agent].v.battery;
            && b.cost - d.cost == (b.eta - d.eta) + 0.35 * (other - mine)
            && (mine == other ==> (b.cost < d.cost <==> b.eta < d.eta))
            && (b.eta == d.eta ==> (b.cost < d.cost <==> mine > other))
  {
    hide Run, Handed, Destination;
  }

  /** The bid is for the task, feasible, not expired, and of a vehicle known to be available with the capability. */
  predicate Serves(c: C.State, d: Bid, task: Request, now: int) {
    && d in c.bids && d.task == task.id && d.feasible && now <= d.createdAt + d.ttl
    && d.agent in c.capabilities && c.capabilities[d.agent].available && c.capabilities[d.agent].capability == task.capability
  }

  /** `a` gives the task to the bidder of `b`; no bid that still serves costs less, or as much for a longer time,
      or, these being equal, has a smaller id. */
  ghost predicate Cheapest(c: C.State, task: Request, a: Assignment, b: Bid, now: int) {
    && b in c.bids && a.task == task.id == b.task && a.agent == b.agent && a.bidId == b.id && a.eta == b.eta && a.accepted
    && forall d :: Serves(c, d, task, now) ==> NoDearer(b, d)
  }

  ghost predicate NoDearer(b: Bid, d: Bid) {
    b.cost <= d.cost && (b.cost == d.cost ==> b.eta <= d.eta) && (b.cost == d.cost && b.eta == d.eta ==> b.id == d.id || Text.Precedes(b.id, d.id))
  }

  lemma UnbeatenIsNoDearer(b: Bid, d: Bid)
    requires !C.Better(d, b)
    ensures NoDearer(b, d)
  {
    Text.LessTrichotomy(b.id, d.id);
    Text.LessIsLexicographic(b.id, d.id);
    hide Text.Less, Text.Precedes;
  }

  /** What the clock shows at the end of the scan for the `m`-th key. */
  function ScanEnd(c: C.State, order: seq<string>, clock: nat -> int, m: nat): int
    requires m < |order| && forall id :: id in order ==> id in c.tasks
  {
    clock(BeforeKey(c, order, clock, 0, m).1 + |c.bids|)
  }

  lemma ServedIsNotBetter(c: C.State, order: seq<string>, clock: nat -> int, a: Assignment, m: nat, b: Bid, d: Bid)
    requires (forall id :: id in order ==> id in c.tasks) && ChosenAt(c, order, clock, 0, a, m, b) && Nondecreasing(clock)
    requires Serves(c, d, c.tasks[order[m]], ScanEnd(c, order, clock, m))
    ensures !C.Better(d, b)
  {
    hide BeforeKey, Nondecreasing, C.Better, C.AssignmentFor, C.Ready;
    assert C.Eligible(c.capabilities, d, c.tasks[order[m]], ScanEnd(c, order, clock, m));
  }

  lemma ChosenIsCheapest(c: C.State, order: seq<string>, clock: nat -> int, a: Assignment, m: nat, b: Bid)
    requires (forall id :: id in order ==> id in c.tasks) && ChosenAt(c, order, clock, 0, a, m, b) && Nondecreasing(clock)
    ensures m < |order| && Cheapest(c, c.tasks[order[m]], a, b, ScanEnd(c, order, clock, m))
  {
    ChosenBidIsThere(c, order, clock, a, m, b);
    hide ScanEnd, Nondecreasing, NoDearer, C.Better, Serves, ChosenAt;
    forall d | Serves(c, d, c.tasks[order[m]], ScanEnd(c, order, clock, m))
      ensures NoDearer(b, d)
    {
      ServedIsNotBetter(c, order, clock, a, m, b, d);
      UnbeatenIsNoDearer(b, d);
    }
  }

  lemma ChosenBidIsThere(c: C.State, order: seq<string>, clock: nat -> int, a: Assignment, m: nat, b: Bid)
    requires (forall id :: id in order ==> id in c.tasks) && ChosenAt(c, order, clock, 0, a, m, b)
    ensures m < |order|
    ensures var task := c.tasks[order[m]];
            b in c.bids && a.task == task.id == b.task && a.agent == b.agent && a.bidId == b.id && a.eta == b.eta && a.accepted
  {
    hide BeforeKey, Nondecreasing, C.Better;
  }

  /** At equal estimated times the fullest battery wins, among the vehicles whose bids still serve. */
  ghost predicate FullestAmongEqual(w: World, actions: seq<Action>, c: C.State, task: Request, b: Bid, now: int)
    requires Speeds(w)
  {
    forall d, i: nat, wi: World, j: nat, wj: World ::
      (Serves(c, d, task, now) && d.eta == b.eta && i < |actions| && PricedAt(w, actions, i, wi, b) && j < |actions| && PricedAt(w, actions, j, wj, d))
      ==> b.agent in wi.agents && d.agent in wj.agents && wi.agents[b.agent].v.battery >= wj.agents[d.agent].v.battery
  }

  lemma CheapestIsFullest(w: World, actions: seq<Action>, c: C.State, task: Request, a: Assignment, b: Bid, now: int)
    requires Speeds(w) && Cheapest(c, task, a, b, now)
    ensures FullestAmongEqual(w, actions, c, task, b, now)
  {
    hide PricedAt, Serves, Text.Precedes;
    forall d, i: nat, wi: World, j: nat, wj: World | Serves(c, d, task, now) && d.eta == b.eta && i < |actions| && PricedAt(w, actions, i, wi, b)
                                                     && j < |actions| && PricedAt(w, actions, j, wj, d)
      ensures b.agent in wi.agents && d.agent in wj.agents && wi.agents[b.agent].v.battery >= wj.agents[d.agent].v.battery
    {
      PricesCompare(w, actions, i, wi, b, j, wj, d);
    }
  }

  /** The scheduling call, on what it has received, makes the assignment for the `m`-th key and selects `b`; when
      its clock does not go back, `b` is the cheapest bid that still serves at the end of the scan for the key, and
      at equal times that of the fullest battery. */
  ghost predicate Awards(w: World, actions: seq<Action>, c: C.State, order: seq<string>, clock: nat -> int, a: Assignment, m: nat, b: Bid)
    requires Speeds(w) && forall id :: id in order ==> id in c.tasks
  {
    && m < |order| && ChosenAt(c, order, clock, 0, a, m, b)
    && (Nondecreasing(clock) ==>
          && Cheapest(c, c.tasks[order[m]], a, b, ScanEnd(c, order, clock, m))
          && FullestAmongEqual(w, actions, c, c.tasks[order[m]], b, ScanEnd(c, order, clock, m)))
  }

  lemma ChosenIsAwarded(w: World, actions: seq<Action>, c: C.State, order: seq<string>, clock: nat -> int, a: Assignment)
    requires Speeds(w) && (forall id :: id in order ==> id in c.tasks) && ChosenBest(c, order, clock, 0, a)
    ensures exists m: nat, b :: Awards(w, actions, c, order, clock, a, m, b)
  {
    hide ChosenAt, Cheapest, FullestAmongEqual, Nondecreasing, ScanEnd;
    var m: nat, b :| ChosenAt(c, order, clock, 0, a, m, b);
    ChosenBidIsThere(c, order, clock, a, m, b);
    if Nondecreasing(clock) {
      ChosenIsCheapest(c, order, clock, a, m, b);
      CheapestIsFullest(w, actions, c, c.tasks[order[m]], a, b, ScanEnd(c, order, clock, m));
    }
    assert Awards(w, actions, c, order, clock, a, m, b);
  }

  /** Every published assignment was published by such a call. */
  ghost predicate AwardedAt(w: World, actions: seq<Action>, k: nat, mid: World, a: Assignment)
    requires Speeds(w) && k < |actions|
  {
    && DecidedAt(w, actions, k, mid, a)
    && exists m: nat, b :: Awards(w, actions, C.Sync(mid.c, actions[k].batch), actions[k].order, actions[k].clock, a, m, b)
  }

  lemma AssignmentsAreCheapest(w: World, actions: seq<Action>, end: World, a: Assignment)
    requires Init(w) && Run(w, actions, end) && AssignMsg(a) in end.log
    ensures exists k: nat, mid: World :: k < |actions| && AwardedAt(w, actions, k, mid, a)
  {
    AssignmentsAreOptimal(w, actions, end, a);
    var k: nat, mid: World :| k < |actions| && DecidedAt(w, actions, k, mid, a);
    hide Run, Init, C.Sync, C.Schedule, Delivered, Awards, ChosenBest;
    ChosenIsAwarded(w, actions, C.Sync(mid.c, actions[k].batch), actions[k].order, actions[k].clock, a);
    assert AwardedAt(w, actions, k, mid, a);
  }

  // ----- nothing ready is passed over

  /** A key is assigned when its task is not assigned yet, its predecessor is completed, and some bid serves when
      the scan for it comes to the bid. */
  lemma {:induction false} ReadyIsAssigned(c: C.State, order: seq<string>, clock: nat -> int, n: nat, m: nat, j: nat)
    requires (forall id :: id in order ==> id in c.tasks) && m < |order| && j < |c.bids|
    requires var task, (s, start) := c.tasks[order[m]], BeforeKey(c, order, clock, n, m);
             && task.id !in s.assignedTasks && (task.predecessor == "" || task.predecessor in c.completedTasks)
             && Serves(c, c.bids[j], task, clock(start + j))
    ensures exists a :: AssignMsg(a) in C.Schedule(c, order, clock, n).1 && a.task == c.tasks[order[m]].id
    decreases |order|
  {
    hide C.BestOf, Serves;
    var task := c.tasks[order[0]];
    assert order[0] in order;
    var w := C.BestOf(c.capabilities, c.bids, task, clock, n, |c.bids|);
    if m == 0 {
      SomeoneWins(c, task, clock, n, j);
      assert C.Ready(c, task);
      var a := C.AssignmentFor(c, task, w.value);
      assert C.Schedule(c, order, clock, n).1[0] == AssignMsg(a);
      assert AssignMsg(a) in C.Schedule(c, order, clock, n).1;
    } else {
      assert order[1..][m - 1] == order[m];
      var next := if C.Ready(c, task) && w.Some? then c.(assignedTasks := c.assignedTasks + {task.id}) else c;
      var n' := if C.Ready(c, task) then n + |c.bids| else n;
      assert Serves(next, c.bids[j], c.tasks[order[m]], clock(BeforeKey(next, order[1..], clock, n', m - 1).1 + j)) by {
        SameServes(c, next, c.bids[j], c.tasks[order[m]], clock(BeforeKey(next, order[1..], clock, n', m - 1).1 + j));
      }
      ReadyIsAssigned(next, order[1..], clock, n', m - 1, j);
      var a :| AssignMsg(a) in C.Schedule(next, order[1..], clock, n').1 && a.task == c.tasks[order[m]].id;
      assert AssignMsg(a) in C.Schedule(c, order, clock, n).1;
    }
  }

  lemma SameServes(c: C.State, other: C.State, d: Bid, task: Request, now: int)
    requires other == c.(assignedTasks := other.assignedTasks)
    ensures Serves(c, d, task, now) <==> Serves(other, d, task, now)
  {
  }

  lemma SomeoneWins(c: C.State, task: Request, clock: nat -> int, n: nat, j: nat)
    requires j < |c.bids| && Serves(c, c.bids[j], task, clock(n + j))
    ensures C.BestOf(c.capabilities, c.bids, task, clock, n, |c.bids|).Some?
  {
    hide C.BestOf;
    C.BestIsOptimal(c.capabilities, c.bids, task, clock, n, |c.bids|);
    assert C.Eligible(c.capabilities, c.bids[j], task, clock(n + j));
  }

  // ----- what an execution changes

  /** Handling an assignment, the vehicle executes a task it has not executed before or leaves pose and charge as
      they are; executing takes it to the target and costs 2.7 percent. */
  ghost predicate Arrives(w: World, g: string, msgs: seq<Msg>)
    requires Speeds(w) && Enabled(w, HandleNext(g))
  {
    var v, v', task := w.agents[g].v, Step(w, HandleNext(g)).agents[g].v, w.agents[g].queue[0].task;
    if v'.executed == v.executed then v'.pose == v.pose && v'.battery == v.battery
    else
      && v'.executed == v.executed + {task} && task !in v.executed && v'.battery == v.battery - 2.7
      && exists r, target :: RequestMsg(r) in w.log && r.id == task && Destination(msgs, r, target) && v'.pose == target
  }

  lemma ExecutionArrives(w: World, actions: seq<Action>, k: nat, mid: World, g: string)
    requires Init(w) && k < |actions| && actions[k] == HandleNext(g) && Run(w, actions[..k], mid) && Speeds(mid) && Enabled(mid, HandleNext(g))
    ensures Arrives(mid, g, Handed(actions[..k], g))
  {
    assert g in w.agents && Inv(mid) by {
      InitInv(w);
      RunKeepsInv(w, actions[..k], mid);
    }
    NothingHanded(w, g);
    InvAgent(mid, g);
    hide *;
    RunTargets(w, actions[..k], mid, g, []);
    assert [] + Handed(actions[..k], g) == Handed(actions[..k], g);
    HandlingArrives(mid, g, Handed(actions[..k], g));
  }

  lemma HandlingArrives(w: World, g: string, msgs: seq<Msg>)
    requires Speeds(w) && Enabled(w, HandleNext(g)) && AgentOk(w.log, g, w.agents[g]) && TargetsAre(w.agents[g].v.targets, msgs)
    ensures Arrives(w, g, msgs)
  {
    hide TargetsAre, OutOk, StartsOk, V.ExecutionOf, V.TargetOf, Destination;
    var v, task := w.agents[g].v, w.agents[g].queue[0].task;
    if task in v.tasks {
      TargetIsDestination(v, v.tasks[task], msgs);
      assert RequestMsg(v.tasks[task]) in w.log;
    }
  }

  lemma TargetIsDestination(v: V.State, r: Request, msgs: seq<Msg>)
    requires TargetsAre(v.targets, msgs)
    ensures Destination(msgs, r, V.TargetOf(v, r))
  {
  }

  /** So over a run a vehicle loses 2.7 percent for each task it executes. */
  lemma {:induction false} ChargeIsSpent(w: World, actions: seq<Action>, end: World, g: string)
    requires Speeds(w) && Run(w, actions, end) && g in w.agents
    ensures g in end.agents
    ensures end.agents[g].v.battery - w.agents[g].v.battery == -2.7 * (|end.agents[g].v.executed| - |w.agents[g].v.executed|) as real
    decreases |actions|
  {
    if |actions| > 0 {
      StepKeepsSpeeds(w, actions[0]);
      StepSpends(w, actions[0], g);
      ChargeIsSpent(Step(w, actions[0]), actions[1..], end, g);
    }
  }

  lemma StepSpends(w: World, act: Action, g: string)
    requires Speeds(w) && Enabled(w, act) && g in w.agents
    ensures g in Step(w, act).agents
    ensures Step(w, act).agents[g].v.battery - w.agents[g].v.battery
         == -2.7 * (|Step(w, act).agents[g].v.executed| - |w.agents[g].v.executed|) as real
  {
    hide V.Sync, V.Bids, Delivered, V.ExecutionOf;
    if (act.SubmitBids? || act.TakeAssignments?) && act.agent == g {
      SyncKeepsBody(w.agents[g].v, act.batch);
      SyncKeepsExecuted(w.agents[g].v, act.batch);
    }
  }

  lemma {:induction false} SyncKeepsExecuted(v: V.State, batch: seq<Msg>)
    ensures V.Sync(v, batch).executed == v.executed
    decreases |batch|
  {
    if |batch| > 0 {
      SyncKeepsExecuted(V.Absorb(v, batch[0]), batch[1..]);
    }
  }
}
