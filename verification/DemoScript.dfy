/** The script in `main` of src/main.cpp: plan, bids, first round, survey, second round, delivery.
    Reliable samples arrive once, in any order; transforms arrive in any number, with any content. */
module DemoScript {
  import opened Wrappers
  import opened AuctionMessages
  import Text
  import opened DemoFacts
  import opened PlanRules
  import JsonGrammar
  import Validator = CppPlanValidator
  import opened AuctionInvariant
  import C = CoordinatorAgent
  import V = VehicleAgents

  function RequestOf(t: Task): Request {
    Request(t.taskId, t.capability, t.predecessor, t.payload, Pose(0.0, 0.0, 0.0, 0.0))
  }

  // ----- what the dashboard counts

  function CompletedIds(log: seq<Msg>): set<string> {
    set m | m in log && m.EventMsg? && m.event == TaskCompleted :: m.about
  }

  method CompletedTaskCount(log: seq<Msg>) returns (n: nat)
    ensures n == |CompletedIds(log)|
  {
    var completed: set<string> := {};
    for k := 0 to |log|
      invariant completed == CompletedIds(log[..k])
    {
      assert log[..k + 1] == log[..k] + [log[k]];
      if log[k].EventMsg? && log[k].event == TaskCompleted {
        completed := completed + {log[k].about};
      }
    }
    assert log[..|log|] == log;
    n := |completed|;
  }

  // ----- the two rounds of scheduling

  predicate BidsFor(bids: seq<Bid>, ub: Bid, gb: Bid, i: nat) {
    bids == if i == 0 then [ub, gb] else [gb, ub]
  }

  predicate IsBid(b: Bid, p: V.Profile, task: Request) {
    b.feasible && b.task == task.id && b.agent == p.id && b.ttl == 5000
  }

  function WinnerIf(inTime: bool, b: Bid): Option<Bid> {
    if inTime then Some(b) else None
  }

  lemma FirstRound(c: C.State, s: Request, d: Request, ub: Bid, gb: Bid, clock: nat -> int, i: nat)
    requires Jobs(s, d) && Knows(c, s, d, {}, {}) && IsBid(ub, UAV, s) && IsBid(gb, UGV, d) && i < 2 && BidsFor(c.bids, ub, gb, i)
    ensures C.Schedule(c, MapOrder(s.id, d.id), clock, 0) == Award(c, s, WinnerIf(clock(i) - ub.createdAt <= 5000, ub))
  {
    hide C.Schedule, C.BestOf, MapOrder, Award;
    OnlyBidWins(c, s, ub, gb, clock, i);
    ScheduleOne(c, s, d, s, clock);
  }

  /** Only after the survey has been assigned and completed is the delivery considered. */
  lemma SecondRound(c: C.State, s: Request, d: Request, ub: Bid, gb: Bid, clock: nat -> int, i: nat, surveyed: bool)
    requires Jobs(s, d) && IsBid(ub, UAV, s) && IsBid(gb, UGV, d) && i < 2 && BidsFor(c.bids, ub, gb, i)
    requires if surveyed then Knows(c, s, d, {s.id}, {s.id}) else Knows(c, s, d, {}, {})
    ensures C.Schedule(c, MapOrder(s.id, d.id), clock, 0)
         == if surveyed then Award(c, d, WinnerIf(clock(1 - i) - gb.createdAt <= 5000, gb))
            else Award(c, s, WinnerIf(clock(i) - ub.createdAt <= 5000, ub))
  {
    hide C.Schedule, C.BestOf, MapOrder, Award;
    if surveyed {
      OnlyBidWins(c, d, gb, ub, clock, 1 - i);
      ScheduleOne(c, s, d, d, clock);
    } else {
      FirstRound(c, s, d, ub, gb, clock, i);
    }
  }

  // ----- the two executions

  /** One assignment the vehicle may take, possibly after one that is for another vehicle. */
  lemma TakesOwn(p: V.Profile, v: V.State, batch: seq<Assignment>, task: string)
    requires |batch| <= 2 && v.executed == {} && v.epochs == map[]
    requires forall a :: a in batch ==> a.accepted && (a.agent == p.id ==> a.task == task && a == batch[|batch| - 1])
    requires task in v.tasks && v.tasks[task].id == task && (|batch| == 2 ==> batch[0] != batch[1])
    ensures V.HandleAll(p, v, batch).1 == if exists a :: a in batch && a.agent == p.id then V.ExecutionOf(p, task) else []
  {
    hide V.ExecutionOf;
    if |batch| > 0 {
      assert batch[0] in batch && batch[|batch| - 1] in batch;
      assert batch[1..] == [] || batch[1..] == [batch[1]];
      assert V.ExecutionOf(p, task) + [] == V.ExecutionOf(p, task);
    }
  }

  // ----- the script

  /** Delivery in any order, each sample once. */
  ghost predicate Permutes(mix: seq<Msg> -> seq<Msg>) {
    forall msgs :: multiset(mix(msgs)) == multiset(msgs)
  }

  lemma Mixed(mix: seq<Msg> -> seq<Msg>, msgs: seq<Msg>)
    requires Permutes(mix)
    ensures multiset(mix(msgs)) == multiset(msgs)
  {
  }

  function Announcements(p: V.Profile): seq<Msg> {
    [CapabilityMsg(Announced(p)), StateMsg(p.id, "", Phase.Idle)]
  }

  function PlanMessages(plan: seq<Task>): seq<Msg> {
    if |plan| == 0 then []
    else PlanMessages(plan[..|plan| - 1])
         + [RequestMsg(RequestOf(plan[|plan| - 1])), EventMsg(plan[|plan| - 1].taskId, TaskPublished)]
  }

  method PublishIncidentPlan(plan: seq<Task>) returns (published: seq<Msg>)
    ensures published == PlanMessages(plan)
  {
    published := [];
    for k := 0 to |plan|
      invariant published == PlanMessages(plan[..k])
    {
      assert plan[..k + 1][..k] == plan[..k];
      published := published + [RequestMsg(RequestOf(plan[k]))];
      published := published + [EventMsg(plan[k].taskId, TaskPublished)];
    }
    assert plan[..|plan|] == plan;
  }

  predicate IsPlan(plan: seq<Task>, s: Request, d: Request) {
    |plan| == 2 && Jobs(s, d)
    && ((RequestOf(plan[0]) == s && RequestOf(plan[1]) == d) || (RequestOf(plan[0]) == d && RequestOf(plan[1]) == s))
  }

  /** The messages of the plan: the two requests and nothing an agent acts on besides. */
  ghost predicate IsPlanText(msgs: seq<Msg>, s: Request, d: Request) {
    && (forall m :: m in msgs ==> m == RequestMsg(s) || m == RequestMsg(d) || (m.EventMsg? && m.event == TaskPublished))
    && RequestMsg(s) in msgs && RequestMsg(d) in msgs
  }

  lemma PlanIsKnown(plan: seq<Task>, s: Request, d: Request)
    requires IsPlan(plan, s, d)
    ensures IsPlanText(PlanMessages(plan), s, d)
  {
    hide RequestOf;
    var head := PlanMessages(plan[..1]);
    assert plan[..1][..0] == [] && PlanMessages([]) == [];
    assert plan[..1][0] == plan[0];
    assert head == [RequestMsg(RequestOf(plan[0])), EventMsg(plan[0].taskId, TaskPublished)];
    var tail := [RequestMsg(RequestOf(plan[1])), EventMsg(plan[1].taskId, TaskPublished)];
    assert head[0] in head && tail[0] in tail;
    assert PlanMessages(plan) == head + tail;
  }

  lemma OrderIgnoresPlan(a: string, b: string)
    requires a != b
    ensures MapOrder(a, b) == MapOrder(b, a)
  {
    Text.LessTrichotomy(a, b);
  }

  /** A batch holding the plan and transforms tells a vehicle exactly the two requests. */
  lemma BatchTellsPlan(requests: seq<Msg>, noise: seq<Msg>, batch: seq<Msg>, s: Request, d: Request)
    requires IsPlanText(requests, s, d) && OnlyTransforms(noise) && multiset(batch) == multiset(requests + noise)
    ensures WillKnow(map[], batch, s, d)
  {
    forall m
      ensures m in batch <==> m in requests || m in noise
    {
      assert m in batch <==> m in multiset(batch);
    }
  }

  predicate Waiting(v: V.State, s: Request, d: Request) {
    v.tasks == Known(s, d) && v.executed == {} && v.epochs == map[]
  }

  function BidMessages(b: Bid): seq<Msg> {
    [BidMsg(b), EventMsg(b.task, BidSubmitted)]
  }

  function Offer(p: V.Profile, b: Bid): seq<Msg> {
    Announcements(p) + BidMessages(b)
  }

  /** The bid of a vehicle that has been handed `batch` and nothing before. */
  function FirstBid(p: V.Profile, pose: Pose, battery: real, batch: seq<Msg>, own: Request, distance: (Pose, Pose) -> real, now: int): Bid
    requires p.speed != 0.0
  {
    V.BidFor(p, V.Sync(V.Fresh(pose, battery), batch), own, distance, now)
  }

  method OfferBid(agent: V.VehicleAgent, requests: seq<Msg>, noise: seq<Msg>, batch: seq<Msg>, order: seq<string>,
                  ghost s: Request, ghost d: Request, distance: (Pose, Pose) -> real, clock: nat -> int)
    returns (out: seq<Msg>, ghost b: Bid)
    requires Jobs(s, d) && IsPlanText(requests, s, d) && OnlyTransforms(noise) && multiset(batch) == multiset(requests + noise)
    requires order == MapOrder(s.id, d.id)
    requires agent.profile == UAV || agent.profile == UGV
    requires agent.View() == V.Fresh(agent.pose, agent.battery) && agent.published == Announcements(agent.profile)
    modifies agent
    ensures Waiting(agent.View(), s, d) && agent.published == Offer(agent.profile, b) && out == BidMessages(b)
    ensures var own := if agent.profile == UAV then s else d;
            && IsBid(b, agent.profile, own) && b.createdAt == clock(0)
            && b == FirstBid(agent.profile, old(agent.pose), old(agent.battery), batch, own, distance, clock(0))
  {
    hide V.Sync, V.Bids, IsPlanText, OnlyTransforms, MapOrder, WillKnow;
    ghost var v, p := agent.View(), agent.profile;
    BatchTellsPlan(requests, noise, batch, s, d);
    VehicleLearns(v, batch, s, d);
    ghost var own := if p == UAV then s else d;
    OwnBid(p, V.Sync(v, batch), s, d, distance, clock);
    b := V.BidFor(p, V.Sync(v, batch), own, distance, clock(0));
    OrderIsKnown(s, d);
    agent.SubmitCandidateBids(batch, order, distance, clock);
    out := agent.published[2..];
  }

  lemma OrderIsKnown(s: Request, d: Request)
    ensures forall id :: id in MapOrder(s.id, d.id) ==> id in Known(s, d)
  {
  }

  lemma {:induction false} BidsConcat(a: seq<Msg>, b: seq<Msg>)
    ensures BidsIn(a + b) == BidsIn(a) + BidsIn(b)
  {
    if |a| == 0 {
      assert a + b == b;
    } else {
      BidsConcat(a[1..], b);
      assert (a + b)[0] == a[0] && (a + b)[1..] == a[1..] + b;
      var one := if a[0].BidMsg? then [a[0].bid] else [];
      assert one + (BidsIn(a[1..]) + BidsIn(b)) == one + BidsIn(a[1..]) + BidsIn(b);
    }
  }

  lemma {:induction false} NoBids(msgs: seq<Msg>)
    requires forall m :: m in msgs ==> !m.BidMsg?
    ensures BidsIn(msgs) == []
  {
    if |msgs| > 0 {
      assert msgs[0] in msgs;
      NoBids(msgs[1..]);
    }
  }

  lemma OfferedBid(p: V.Profile, b: Bid)
    ensures BidsIn(Offer(p, b)) == [b]
  {
    assert BidMessages(b)[1..] == [EventMsg(b.task, BidSubmitted)] && BidsIn(BidMessages(b)[1..]) == [];
    BidsConcat(Announcements(p), BidMessages(b));
    NoBids(Announcements(p));
  }

  /** Where the bid of the UAV stands among the two in the batch. */
  function Arrival(batch: seq<Msg>, ub: Bid, gb: Bid): nat {
    if BidsIn(batch) == [ub, gb] then 0 else 1
  }

  /** The first batch of the coordinator holds the plan and both offers: it knows all, and both bids
      in the order of the batch. */
  lemma FirstBatch(requests: seq<Msg>, ub: Bid, gb: Bid, batch: seq<Msg>, s: Request, d: Request) returns (i: nat)
    requires Jobs(s, d) && IsPlanText(requests, s, d)
    requires multiset(batch) == multiset(requests + Offer(UAV, ub) + Offer(UGV, gb))
    ensures Knows(C.Sync(C.EMPTY, batch), s, d, {}, {}) && i == Arrival(batch, ub, gb) && BidsFor(C.Sync(C.EMPTY, batch).bids, ub, gb, i)
  {
    hide C.Sync, Knows, BidsIn, Offer, IsPlanText;
    var all := requests + Offer(UAV, ub) + Offer(UGV, gb);
    forall m
      ensures m in batch <==> m in all
    {
      assert m in batch <==> m in multiset(batch);
      assert m in all <==> m in multiset(all);
    }
    AllIsKnown(requests, ub, gb, batch, s, d);
    CoordinatorLearns(C.EMPTY, batch, s, d);
    assert {} + CompletionsIn(batch) == {};
    CoordinatorCollects(C.EMPTY, batch);
    assert [] + BidsIn(batch) == BidsIn(batch);
    BidsOfAll(requests, ub, gb, s, d);
    forall b
      ensures multiset(BidsIn(batch))[b] == multiset{ub, gb}[b]
    {
      BidsCounted(batch, b);
      BidsCounted(all, b);
    }
    assert multiset(BidsIn(batch)) == multiset{ub, gb};
    TwoBids(BidsIn(batch), ub, gb);
    i := Arrival(batch, ub, gb);
  }

  lemma AllIsKnown(requests: seq<Msg>, ub: Bid, gb: Bid, batch: seq<Msg>, s: Request, d: Request)
    requires IsPlanText(requests, s, d) && forall m :: m in batch <==> m in requests + Offer(UAV, ub) + Offer(UGV, gb)
    ensures WillKnow(map[], batch, s, d) && WillHear(map[], batch) && CompletionsIn(batch) == {}
  {
    assert Offer(UAV, ub)[0] in batch && Offer(UGV, gb)[0] in batch;
  }

  lemma BidsOfAll(requests: seq<Msg>, ub: Bid, gb: Bid, s: Request, d: Request)
    requires IsPlanText(requests, s, d)
    ensures BidsIn(requests + Offer(UAV, ub) + Offer(UGV, gb)) == [ub, gb]
  {
    hide BidsIn, Offer;
    BidsConcat(requests + Offer(UAV, ub), Offer(UGV, gb));
    BidsConcat(requests, Offer(UAV, ub));
    NoBids(requests);
    OfferedBid(UAV, ub);
    OfferedBid(UGV, gb);
  }

  /** What the coordinator publishes when it gives `task` to the bidder, if it does. */
  function Decision(made: bool, task: Request, b: Bid, epoch: int): seq<Msg> {
    if made then [AssignMsg(Assignment(task.id, b.agent, b.id, b.eta, epoch, true)), EventMsg(task.id, TaskAssigned)] else []
  }

  function ExecutedIf(made: bool, p: V.Profile, task: string): seq<Msg> {
    if made then V.ExecutionOf(p, task) else []
  }

  lemma DecidedAssignments(first: bool, s: Request, ub: Bid, second: bool, d: Request, gb: Bid, epoch: int)
    ensures Assigns(Decision(first, s, ub, 1) + Decision(second, d, gb, epoch))
         == (if first then [Assignment(s.id, ub.agent, ub.id, ub.eta, 1, true)] else [])
            + if second then [Assignment(d.id, gb.agent, gb.id, gb.eta, epoch, true)] else []
  {
    var a, b := Decision(first, s, ub, 1), Decision(second, d, gb, epoch);
    assert Assigns([]) == [];
    if second {
      assert b[1..][1..] == [] && b[1..] == [EventMsg(d.id, TaskAssigned)];
    }
    assert Assigns(b) == if second then [Assignment(d.id, gb.agent, gb.id, gb.eta, epoch, true)] else [];
    if first {
      assert (a + b)[1..] == [EventMsg(s.id, TaskAssigned)] + b && (a + b)[1..][1..] == b;
    } else {
      assert a + b == b;
    }
  }

  /** First round: the survey is assigned exactly when its bid is looked at in time, and then done. */
  method SurveyRound(coordinator: C.Coordinator, uav: V.VehicleAgent, requests: seq<Msg>, batch: seq<Msg>, noise: seq<Msg>,
                     order: seq<string>, clock: nat -> int,
                     ghost s: Request, ghost d: Request, ghost ub: Bid, ghost gb: Bid)
    returns (decided: seq<Msg>, survey: seq<Msg>, ghost i: nat)
    requires Jobs(s, d) && IsPlanText(requests, s, d) && order == MapOrder(s.id, d.id) && OnlyTransforms(noise)
    requires coordinator.View() == C.EMPTY && coordinator.published == []
    requires uav.profile == UAV && Waiting(uav.View(), s, d) && IsBid(ub, UAV, s) && IsBid(gb, UGV, d)
    requires multiset(batch) == multiset(requests + Offer(UAV, ub) + Offer(UGV, gb))
    modifies coordinator, uav
    ensures i == Arrival(batch, ub, gb) < 2 && BidsFor(coordinator.bids, ub, gb, i)
    ensures var made := clock(i) - ub.createdAt <= 5000;
            && Knows(coordinator.View(), s, d, {}, if made then {s.id} else {})
            && coordinator.published == decided == Decision(made, s, ub, 1)
            && uav.published == old(uav.published) + survey && survey == ExecutedIf(made, UAV, s.id)
  {
    hide C.Schedule, C.Sync, IsPlanText, OnlyTransforms, MapOrder, V.ExecutionOf, V.HandleAll, V.Sync, Assigns, Offer, BidsIn;
    i := FirstBatch(requests, ub, gb, batch, s, d);
    FirstRound(C.Sync(C.EMPTY, batch), s, d, ub, gb, clock, i);
    OrderIsKnown(s, d);
    coordinator.ScheduleReadyTasks(batch, order, clock);
    ghost var made := clock(i) - ub.createdAt <= 5000;
    assert coordinator.published == Decision(made, s, ub, 1);
    assert Decision(made, s, ub, 1) + Decision(false, d, gb, 2) == Decision(made, s, ub, 1);
    DecidedAssignments(made, s, ub, false, d, gb, 2);
    ghost var v := uav.View();
    TransformsOnly(v, noise);
    TakesOwn(UAV, V.Sync(v, noise), Assigns(coordinator.published), s.id);
    var sent := |uav.published|;
    uav.ProcessAssignments(noise, Assigns(coordinator.published));
    decided, survey := coordinator.published, uav.published[sent..];
  }

  /** The second batch of the coordinator holds what the survey published, if it took place. */
  lemma SecondBatch(c: C.State, surveyed: bool, batch: seq<Msg>, s: Request, d: Request)
    requires Jobs(s, d) && Knows(c, s, d, {}, if surveyed then {s.id} else {})
    requires multiset(batch) == multiset(ExecutedIf(surveyed, UAV, s.id))
    ensures Knows(C.Sync(c, batch), s, d, if surveyed then {s.id} else {}, if surveyed then {s.id} else {})
    ensures C.Sync(c, batch).bids == c.bids
  {
    hide C.Sync, BidsIn, Knows, ExecutedIf;
    var all := ExecutedIf(surveyed, UAV, s.id);
    forall m
      ensures m in batch <==> m in all
    {
      assert m in batch <==> m in multiset(batch);
      assert m in all <==> m in multiset(all);
    }
    SurveyTells(c, surveyed, batch, s, d);
    CoordinatorLearns(c, batch, s, d);
    assert {} + CompletionsIn(batch) == CompletionsIn(batch);
    CoordinatorCollects(c, batch);
    NoBids(batch);
  }

  lemma SurveyTells(c: C.State, surveyed: bool, batch: seq<Msg>, s: Request, d: Request)
    requires Jobs(s, d) && Knows(c, s, d, {}, if surveyed then {s.id} else {})
    requires forall m :: m in batch <==> m in ExecutedIf(surveyed, UAV, s.id)
    ensures WillKnow(c.tasks, batch, s, d) && WillHear(c.capabilities, batch) && forall m :: m in batch ==> !m.BidMsg?
    ensures CompletionsIn(batch) == c.assignedTasks == (if surveyed then {s.id} else {}) && c.completedTasks == {}
  {
    if surveyed {
      assert V.ExecutionOf(UAV, s.id)[6] in batch;
    }
  }

  /** Second round: the delivery is assigned and done exactly when the survey was done and the bid is
      looked at in time; a survey assigned only now is not done any more. */
  method DeliveryRound(coordinator: C.Coordinator, ugv: V.VehicleAgent, surveyed: bool, batch: seq<Msg>, noise: seq<Msg>,
                       order: seq<string>, clock: nat -> int,
                       ghost s: Request, ghost d: Request, ghost ub: Bid, ghost gb: Bid, ghost i: nat)
    returns (decided: seq<Msg>, delivery: seq<Msg>)
    requires Jobs(s, d) && order == MapOrder(s.id, d.id) && OnlyTransforms(noise)
    requires i < 2 && BidsFor(coordinator.bids, ub, gb, i) && IsBid(ub, UAV, s) && IsBid(gb, UGV, d)
    requires Knows(coordinator.View(), s, d, {}, if surveyed then {s.id} else {}) && coordinator.published == Decision(surveyed, s, ub, 1)
    requires multiset(batch) == multiset(ExecutedIf(surveyed, UAV, s.id))
    requires ugv.profile == UGV && Waiting(ugv.View(), s, d)
    modifies coordinator, ugv
    ensures var made := clock(1 - i) - gb.createdAt <= 5000; var late := clock(i) - ub.createdAt <= 5000;
            && coordinator.published == old(coordinator.published) + decided
            && decided == (if surveyed then Decision(made, d, gb, 2) else Decision(late, s, ub, 1))
            && ugv.published == old(ugv.published) + delivery && delivery == ExecutedIf(surveyed && made, UGV, d.id)
  {
    hide C.Schedule, C.Sync, OnlyTransforms, MapOrder, ExecutedIf, V.ExecutionOf, V.HandleAll, V.Sync, Assigns, Knows;
    var before, sent := |coordinator.published|, |ugv.published|;
    DecideAgain(coordinator, surveyed, batch, order, clock, s, d, ub, gb, i);
    ghost var made, late := clock(1 - i) - gb.createdAt <= 5000, clock(i) - ub.createdAt <= 5000;
    ghost var v, taken := ugv.View(), Assigns(coordinator.published);
    if surveyed {
      DecidedAssignments(true, s, ub, made, d, gb, 2);
    } else {
      DecidedAssignments(false, s, ub, late, s, ub, 1);
    }
    TransformsOnly(v, noise);
    DeliveryTaken(V.Sync(v, noise), taken, s, d, surveyed && made);
    ugv.ProcessAssignments(noise, Assigns(coordinator.published));
    decided, delivery := coordinator.published[before..], ugv.published[sent..];
  }

  /** The UGV ignores what is for the UAV. */
  lemma DeliveryTaken(v: V.State, taken: seq<Assignment>, s: Request, d: Request, made: bool)
    requires Jobs(s, d) && v.tasks == Known(s, d) && v.executed == {} && v.epochs == map[]
    requires |taken| <= 2 && forall a :: a in taken ==> a.accepted && (a.agent == UAV.id || (a.agent == UGV.id && a.task == d.id))
    requires made ==> |taken| == 2 && taken[1].agent == UGV.id && taken[0].agent == UAV.id
    requires !made ==> |taken| < 2 && forall a :: a in taken ==> a.agent == UAV.id
    ensures V.HandleAll(UGV, v, taken).1 == ExecutedIf(made, UGV, d.id)
  {
    hide V.HandleAll, V.ExecutionOf;
    TakesOwn(UGV, v, taken, d.id);
    if made {
      assert taken[1] in taken;
    }
  }

  method DecideAgain(coordinator: C.Coordinator, surveyed: bool, batch: seq<Msg>, order: seq<string>, clock: nat -> int,
                     ghost s: Request, ghost d: Request, ghost ub: Bid, ghost gb: Bid, ghost i: nat)
    requires Jobs(s, d) && order == MapOrder(s.id, d.id)
    requires i < 2 && BidsFor(coordinator.bids, ub, gb, i) && IsBid(ub, UAV, s) && IsBid(gb, UGV, d)
    requires Knows(coordinator.View(), s, d, {}, if surveyed then {s.id} else {}) && coordinator.published == Decision(surveyed, s, ub, 1)
    requires multiset(batch) == multiset(ExecutedIf(surveyed, UAV, s.id))
    modifies coordinator
    ensures var made := clock(1 - i) - gb.createdAt <= 5000; var late := clock(i) - ub.createdAt <= 5000;
            coordinator.published == Decision(surveyed, s, ub, 1) + if surveyed then Decision(made, d, gb, 2) else Decision(late, s, ub, 1)
  {
    hide C.Schedule, C.Sync, MapOrder, ExecutedIf, V.ExecutionOf;
    ghost var c := coordinator.View();
    SecondBatch(c, surveyed, batch, s, d);
    SecondRound(C.Sync(c, batch), s, d, ub, gb, clock, i, surveyed);
    OrderIsKnown(s, d);
    coordinator.ScheduleReadyTasks(batch, order, clock);
  }

  // ----- the whole script

  /** Everything published, in order. */
  function Transcript(requests: seq<Msg>, ub: Bid, gb: Bid, s: Request, d: Request, surveyed: bool, made: bool, late: bool): seq<Msg> {
    Opening() + requests + BidMessages(ub) + BidMessages(gb)
    + Decision(surveyed, s, ub, 1) + ExecutedIf(surveyed, UAV, s.id)
    + (if surveyed then Decision(made, d, gb, 2) else Decision(late, s, ub, 1)) + ExecutedIf(surveyed && made, UGV, d.id)
  }

  function Opening(): seq<Msg> {
    Announcements(UAV) + Announcements(UGV)
  }

  lemma {:induction false} CompletedConcat(a: seq<Msg>, b: seq<Msg>)
    ensures CompletedIds(a + b) == CompletedIds(a) + CompletedIds(b)
  {
    assert forall m :: m in a + b <==> m in a || m in b;
  }

  lemma CompletedByExecution(made: bool, p: V.Profile, task: string)
    ensures CompletedIds(ExecutedIf(made, p, task)) == if made then {task} else {}
  {
    if made {
      assert V.ExecutionOf(p, task)[7] in V.ExecutionOf(p, task);
    }
  }

  lemma CompletedBefore(requests: seq<Msg>, ub: Bid, gb: Bid, s: Request, d: Request)
    requires IsPlanText(requests, s, d)
    ensures CompletedIds(Opening() + requests + BidMessages(ub) + BidMessages(gb)) == {}
  {
    var all := Opening() + requests + BidMessages(ub) + BidMessages(gb);
    forall m | m in all
      ensures !(m.EventMsg? && m.event == TaskCompleted)
    {
      assert m in Opening() || m in requests || m in BidMessages(ub) || m in BidMessages(gb);
    }
  }

  lemma CompletedInTranscript(requests: seq<Msg>, ub: Bid, gb: Bid, s: Request, d: Request, surveyed: bool, made: bool, late: bool)
    requires IsPlanText(requests, s, d)
    ensures CompletedIds(Transcript(requests, ub, gb, s, d, surveyed, made, late))
         == (if surveyed then {s.id} else {}) + if surveyed && made then {d.id} else {}
  {
    hide CompletedIds, BidMessages, Opening, ExecutedIf, Decision, IsPlanText;
    var head := Opening() + requests + BidMessages(ub) + BidMessages(gb);
    var one, two := Decision(surveyed, s, ub, 1), if surveyed then Decision(made, d, gb, 2) else Decision(late, s, ub, 1);
    CompletedBefore(requests, ub, gb, s, d);
    DecisionsCompleteNothing(surveyed, s, ub, 1);
    DecisionsCompleteNothing(made, d, gb, 2);
    DecisionsCompleteNothing(late, s, ub, 1);
    CompletedByExecution(surveyed, UAV, s.id);
    CompletedByExecution(surveyed && made, UGV, d.id);
    CompletedConcat(head, one);
    CompletedConcat(head + one, ExecutedIf(surveyed, UAV, s.id));
    CompletedConcat(head + one + ExecutedIf(surveyed, UAV, s.id), two);
    CompletedConcat(head + one + ExecutedIf(surveyed, UAV, s.id) + two, ExecutedIf(surveyed && made, UGV, d.id));
  }

  lemma DecisionsCompleteNothing(made: bool, task: Request, b: Bid, epoch: int)
    ensures CompletedIds(Decision(made, task, b, epoch)) == {}
  {
  }

  /** First the survey, assigned with epoch 1, by the UAV from start to end; then the delivery,
      assigned with epoch 2, by the UGV; nothing is executed before, between or after. */
  ghost predicate DoneInOrder(log: seq<Msg>, s: Request, d: Request) {
    exists before, a, b ::
      && log == before + [AssignMsg(a), EventMsg(s.id, TaskAssigned)] + V.ExecutionOf(UAV, s.id)
                + [AssignMsg(b), EventMsg(d.id, TaskAssigned)] + V.ExecutionOf(UGV, d.id)
      && SelectedAs(a, UAV, s.id, 1) && SelectedAs(b, UGV, d.id, 2)
      && forall m :: m in before ==> !m.AssignMsg? && (m.StateMsg? ==> m.phase == Phase.Idle)
  }

  predicate SelectedAs(a: Assignment, p: V.Profile, task: string, epoch: int) {
    a.accepted && a.agent == p.id && a.task == task && a.epoch == epoch
  }

  lemma TranscriptIsInOrder(requests: seq<Msg>, ub: Bid, gb: Bid, s: Request, d: Request, late: bool)
    requires IsPlanText(requests, s, d) && IsBid(ub, UAV, s) && IsBid(gb, UGV, d)
    ensures DoneInOrder(Transcript(requests, ub, gb, s, d, true, true, late), s, d)
  {
    hide V.ExecutionOf;
    var before := Opening() + requests + BidMessages(ub) + BidMessages(gb);
    var a, b := Assignment(s.id, ub.agent, ub.id, ub.eta, 1, true), Assignment(d.id, gb.agent, gb.id, gb.eta, 2, true);
    forall m | m in before
      ensures !m.AssignMsg? && (m.StateMsg? ==> m.phase == Phase.Idle)
    {
      assert m in Opening() || m in requests || m in BidMessages(ub) || m in BidMessages(gb);
    }
    assert Transcript(requests, ub, gb, s, d, true, true, late)
        == before + [AssignMsg(a), EventMsg(s.id, TaskAssigned)] + V.ExecutionOf(UAV, s.id)
           + [AssignMsg(b), EventMsg(d.id, TaskAssigned)] + V.ExecutionOf(UGV, d.id);
  }

  /** How the script ends, given whether each bid was looked at in time. */
  ghost predicate Ends(done: bool, log: seq<Msg>, s: Request, d: Request, surveyed: bool, delivered: bool) {
    && done == (surveyed && delivered)
    && CompletedIds(log) == (if surveyed then {s.id} else {}) + (if surveyed && delivered then {d.id} else {})
    && (done ==> DoneInOrder(log, s, d))
  }

  function UavBid(plan: seq<Task>, s: Request, mix: seq<Msg> -> seq<Msg>, noise: nat -> seq<Msg>, distance: (Pose, Pose) -> real, now: int): Bid {
    FirstBid(UAV, UAV_HOME, 94.0, mix(PlanMessages(plan) + noise(0)), s, distance, now)
  }

  function UgvBid(plan: seq<Task>, d: Request, mix: seq<Msg> -> seq<Msg>, noise: nat -> seq<Msg>, distance: (Pose, Pose) -> real, now: int): Bid {
    FirstBid(UGV, UGV_HOME, 88.0, mix(PlanMessages(plan) + noise(1)), d, distance, now)
  }

  /** Where the bid of the UAV stands among the two that the coordinator receives. */
  function UavPlace(plan: seq<Task>, mix: seq<Msg> -> seq<Msg>, ub: Bid, gb: Bid): nat {
    Arrival(mix(PlanMessages(plan) + Offer(UAV, ub) + Offer(UGV, gb)), ub, gb)
  }

  /** Start of the script: the nodes announce themselves, the plan is published, the vehicles bid. */
  method GatherBids(plan: seq<Task>, ghost s: Request, ghost d: Request, mix: seq<Msg> -> seq<Msg>, noise: nat -> seq<Msg>,
                    distance: (Pose, Pose) -> real, uavClock: nat -> int, ugvClock: nat -> int)
    returns (uav: V.VehicleAgent, ugv: V.VehicleAgent, requests: seq<Msg>, log: seq<Msg>, ghost ub: Bid, ghost gb: Bid)
    requires IsPlan(plan, s, d) && Permutes(mix) && forall k :: OnlyTransforms(noise(k))
    ensures fresh(uav) && fresh(ugv) && uav != ugv && uav.profile == UAV && ugv.profile == UGV
    ensures Waiting(uav.View(), s, d) && Waiting(ugv.View(), s, d)
    ensures uav.published == Offer(UAV, ub) && IsBid(ub, UAV, s) && ub.createdAt == uavClock(0)
    ensures ugv.published == Offer(UGV, gb) && IsBid(gb, UGV, d) && gb.createdAt == ugvClock(0)
    ensures ub == UavBid(plan, s, mix, noise, distance, uavClock(0)) && gb == UgvBid(plan, d, mix, noise, distance, ugvClock(0))
    ensures requests == PlanMessages(plan)
    ensures IsPlanText(requests, s, d) && log == Opening() + requests + BidMessages(ub) + BidMessages(gb)
  {
    hide OnlyTransforms, IsPlanText, MapOrder, BidMessages;
    uav := new V.VehicleAgent(UAV, UAV_HOME, 94.0);
    ugv := new V.VehicleAgent(UGV, UGV_HOME, 88.0);
    uav.PublishCapability();
    ugv.PublishCapability();
    requests := PublishIncidentPlan(plan);
    log := uav.published + ugv.published + requests;
    var order := MapOrder(plan[0].taskId, plan[1].taskId);
    OrderIgnoresPlan(s.id, d.id);
    PlanIsKnown(plan, s, d);
    var out: seq<Msg>;
    out, ub := OfferBid(uav, requests, noise(0), mix(requests + noise(0)), order, s, d, distance, uavClock);
    log := log + out;
    out, gb := OfferBid(ugv, requests, noise(1), mix(requests + noise(1)), order, s, d, distance, ugvClock);
    log := log + out;
  }

  lemma EndsSo(log: seq<Msg>, requests: seq<Msg>, ub: Bid, gb: Bid, s: Request, d: Request, surveyed: bool, made: bool, late: bool)
    requires IsPlanText(requests, s, d) && IsBid(ub, UAV, s) && IsBid(gb, UGV, d) && s.id != d.id
    requires log == Transcript(requests, ub, gb, s, d, surveyed, made, late)
    ensures Ends(|CompletedIds(log)| == 2, log, s, d, surveyed, made)
  {
    hide Transcript, DoneInOrder, CompletedIds, IsPlanText;
    CompletedInTranscript(requests, ub, gb, s, d, surveyed, made, late);
    if surveyed && made {
      TranscriptIsInOrder(requests, ub, gb, s, d, late);
      assert |{s.id, d.id}| == 2;
    }
  }

  /** Both rounds, from the bids to the delivery. */
  method BothRounds(uav: V.VehicleAgent, ugv: V.VehicleAgent, plan: seq<Task>, requests: seq<Msg>, open: seq<Msg>,
                    mix: seq<Msg> -> seq<Msg>, noise: nat -> seq<Msg>, first: nat -> int, second: nat -> int,
                    ghost s: Request, ghost d: Request, ghost ub: Bid, ghost gb: Bid)
    returns (log: seq<Msg>, ghost i: nat)
    requires IsPlan(plan, s, d) && IsPlanText(requests, s, d) && Permutes(mix) && forall k :: OnlyTransforms(noise(k))
    requires uav != ugv && uav.profile == UAV && Waiting(uav.View(), s, d) && uav.published == Offer(UAV, ub) && IsBid(ub, UAV, s)
    requires ugv.profile == UGV && Waiting(ugv.View(), s, d) && ugv.published == Offer(UGV, gb) && IsBid(gb, UGV, d)
    modifies uav, ugv
    ensures i == Arrival(mix(requests + Offer(UAV, ub) + Offer(UGV, gb)), ub, gb) < 2
    ensures var surveyed, made, late := first(i) - ub.createdAt <= 5000, second(1 - i) - gb.createdAt <= 5000, second(i) - ub.createdAt <= 5000;
            log == open + Decision(surveyed, s, ub, 1) + ExecutedIf(surveyed, UAV, s.id)
                   + (if surveyed then Decision(made, d, gb, 2) else Decision(late, s, ub, 1)) + ExecutedIf(surveyed && made, UGV, d.id)
  {
    hide OnlyTransforms, IsPlanText, MapOrder, Decision, Knows, Offer, Waiting, IsBid, Arrival, ExecutedIf, BidsFor, Permutes;
    OrderIgnoresPlan(s.id, d.id);
    var order := MapOrder(plan[0].taskId, plan[1].taskId);
    var coordinator := new C.Coordinator();
    var inbox := mix(requests + uav.published + ugv.published);
    Mixed(mix, requests + uav.published + ugv.published);
    var decided, survey;
    decided, survey, i := SurveyRound(coordinator, uav, requests, inbox, noise(2), order, first, s, d, ub, gb);
    log := open + decided + survey;
    ghost var surveyed := first(i) - ub.createdAt <= 5000;
    ExecutionIsSomething(surveyed, UAV, s.id);
    Mixed(mix, survey);
    var delivery;
    decided, delivery := DeliveryRound(coordinator, ugv, |survey| > 0, mix(survey), noise(3), order, second, s, d, ub, gb, i);
    log := log + decided + delivery;
  }

  /** `i` is the place of the UAV's bid among the two that the coordinator receives, which the delivery
      order of its first batch decides. Messages carry texts of any length
      here; in idl/mission.idl the ids are bounded, and `VehicleAgents.DerivedIdsFit` says that they fit
      for task ids of at most 50 bytes. For ids of 51 to 64 bytes, which the validators accept, the
      contract speaks of agents whose middleware passes them on unchanged. */
  method RunScript(plan: seq<Task>, ghost s: Request, ghost d: Request, mix: seq<Msg> -> seq<Msg>, noise: nat -> seq<Msg>,
                   distance: (Pose, Pose) -> real, uavClock: nat -> int, ugvClock: nat -> int, first: nat -> int, second: nat -> int)
    returns (done: bool, log: seq<Msg>)
    requires IsPlan(plan, s, d) && Permutes(mix) && forall k :: OnlyTransforms(noise(k))
    ensures var ub, gb := UavBid(plan, s, mix, noise, distance, uavClock(0)), UgvBid(plan, d, mix, noise, distance, ugvClock(0));
            var i := UavPlace(plan, mix, ub, gb);
            Ends(done, log, s, d, first(i) - ub.createdAt <= 5000, second(1 - i) - gb.createdAt <= 5000)
  {
    hide IsPlanText, OnlyTransforms, Offer, Opening, Ends, CompletedIds, Waiting, IsBid, UavBid, UgvBid, PlanMessages, Permutes, Arrival, Decision,
         BidMessages, ExecutedIf;
    var uav, ugv, requests, open, ub, gb := GatherBids(plan, s, d, mix, noise, distance, uavClock, ugvClock);
    ghost var i;
    log, i := BothRounds(uav, ugv, plan, requests, open, mix, noise, first, second, s, d, ub, gb);
    EndsSo(log, requests, ub, gb, s, d, first(i) - ub.createdAt <= 5000, second(1 - i) - gb.createdAt <= 5000, second(i) - ub.createdAt <= 5000);
    var n := CompletedTaskCount(log);
    done := n == |plan|;
  }

  lemma ExecutionIsSomething(made: bool, p: V.Profile, task: string)
    ensures |ExecutedIf(made, p, task)| > 0 <==> made
  {
  }

  /** The readings of the clock that matter: when each vehicle made its bid, and those of the two
      rounds of scheduling. */
  datatype Clocks = Clocks(uav: nat -> int, ugv: nat -> int, first: nat -> int, second: nat -> int)

  ghost predicate RunsTo(plan: seq<Task>, mix: seq<Msg> -> seq<Msg>, noise: nat -> seq<Msg>, distance: (Pose, Pose) -> real,
                         clocks: Clocks, done: bool, log: seq<Msg>)
  {
    exists survey, delivery :: IsPair(plan, survey, delivery)
      && var s, d := RequestOf(survey), RequestOf(delivery);
         var i := UavPlace(plan, mix, UavBid(plan, s, mix, noise, distance, clocks.uav(0)), UgvBid(plan, d, mix, noise, distance, clocks.ugv(0)));
         Ends(done, log, s, d, clocks.first(i) - clocks.uav(0) <= 5000, clocks.second(1 - i) - clocks.ugv(0) <= 5000)
  }

  predicate IsPair(plan: seq<Task>, survey: Task, delivery: Task) {
    (plan == [survey, delivery] || plan == [delivery, survey]) && survey.kind == SURVEY && delivery.kind == DELIVERY
  }

  /** From the text of a plan to the end of the demo: every accepted plan runs to the same end, with the
      remark on the lengths of ids made at `RunScript`. */
  method Demo(text: string, fits: string -> bool, num: string -> real, mix: seq<Msg> -> seq<Msg>, noise: nat -> seq<Msg>,
              distance: (Pose, Pose) -> real, clocks: Clocks)
    returns (verdict: Verdict<seq<Task>>, done: bool, log: seq<Msg>)
    requires Permutes(mix) && forall k :: OnlyTransforms(noise(k))
    ensures verdict.Accepted? <==> exists v :: JsonGrammar.Derives(text, v, fits) && PlanOk(v, num)
    ensures forall v :: verdict.Accepted? && JsonGrammar.Derives(text, v, fits) ==> PlanOk(v, num) && verdict.value == PlanOf(v, num)
    ensures verdict.Accepted? ==> RunsTo(verdict.value, mix, noise, distance, clocks, done, log)
  {
    hide JsonGrammar.Derives, PlanOk, PlanOf, Permutes, OnlyTransforms, Ends;
    done, log := false, [];
    verdict := Validator.ParseJson(text, fits, num);
    if verdict.Accepted? {
      ghost var v :| JsonGrammar.Derives(text, v, fits) && PlanOk(v, num);
      ghost var survey, delivery := AcceptedPlan(v, num);
      done, log := RunScript(verdict.value, RequestOf(survey), RequestOf(delivery), mix, noise, distance,
                             clocks.uav, clocks.ugv, clocks.first, clocks.second);
    }
  }
}
