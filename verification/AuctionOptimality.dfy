/** Every published assignment of every run chose an unbeaten bid: in the scan that made it, the bid was
    eligible when looked at, and no bid received by then and still live at the end of that scan was better. */
module AuctionOptimality {
  import opened Wrappers
  import opened AuctionMessages
  import opened AuctionSystem
  import opened AuctionInvariant
  import opened AuctionSteps
  import C = CoordinatorAgent

  /** In the scan for `task` that begins at reading `n` of the clock, `b` was eligible when it was looked
      at; no bid eligible when looked at is better, nor, if the clock does not go back, any bid live at
      the end of the scan. */
  ghost predicate Unbeaten(c: C.State, task: Request, b: Bid, clock: nat -> int, n: nat) {
    && (exists j :: 0 <= j < |c.bids| && c.bids[j] == b && C.Eligible(c.capabilities, b, task, clock(n + j)))
    && (forall i :: 0 <= i < |c.bids| && C.Eligible(c.capabilities, c.bids[i], task, clock(n + i)) ==> !C.Better(c.bids[i], b))
    && (Nondecreasing(clock) ==>
          forall d :: d in c.bids && C.Eligible(c.capabilities, d, task, clock(n + |c.bids|)) ==> !C.Better(d, b))
  }

  /** What the coordinator knows, and the reading of the clock it has come to, before the `m`-th key. */
  function BeforeKey(c: C.State, order: seq<string>, clock: nat -> int, n: nat, m: nat): (r: (C.State, nat))
    requires m <= |order| && forall id :: id in order ==> id in c.tasks
    ensures r.0 == c.(assignedTasks := r.0.assignedTasks)
    decreases |order|
  {
    if m == 0 then (c, n)
    else
      var task := c.tasks[order[0]];
      if !C.Ready(c, task) then BeforeKey(c, order[1..], clock, n, m - 1)
      else if C.BestOf(c.capabilities, c.bids, task, clock, n, |c.bids|) == None then BeforeKey(c, order[1..], clock, n + |c.bids|, m - 1)
      else BeforeKey(c.(assignedTasks := c.assignedTasks + {task.id}), order[1..], clock, n + |c.bids|, m - 1)
  }

  /** `c` holds everything received; the assignment is made for one of the keys, which is ready, and selects
      a bid that is unbeaten in the scan for that key. */
  ghost predicate ChosenBest(c: C.State, order: seq<string>, clock: nat -> int, n: nat, a: Assignment)
    requires forall id :: id in order ==> id in c.tasks
  {
    exists m: nat, b :: ChosenAt(c, order, clock, n, a, m, b)
  }

  ghost predicate ChosenAt(c: C.State, order: seq<string>, clock: nat -> int, n: nat, a: Assignment, m: nat, b: Bid)
    requires forall id :: id in order ==> id in c.tasks
  {
    && m < |order|
    && var (s, start) := BeforeKey(c, order, clock, n, m);
       C.Ready(s, c.tasks[order[m]]) && a == C.AssignmentFor(s, c.tasks[order[m]], b) && Unbeaten(s, c.tasks[order[m]], b, clock, start)
  }

  lemma WinnerIsUnbeaten(c: C.State, task: Request, clock: nat -> int, n: nat)
    requires C.BestOf(c.capabilities, c.bids, task, clock, n, |c.bids|).Some?
    ensures Unbeaten(c, task, C.BestOf(c.capabilities, c.bids, task, clock, n, |c.bids|).value, clock, n)
  {
    hide C.BestOf, C.Eligible, C.Better, Nondecreasing;
    C.BestIsOptimal(c.capabilities, c.bids, task, clock, n, |c.bids|);
    if Nondecreasing(clock) {
      assert clock(n + |c.bids|) <= clock(n + |c.bids|);
      C.NoLiveBidIsBetter(c.capabilities, c.bids, task, clock, n, clock(n + |c.bids|));
    }
  }

  /** Going through the first key shifts the scans by one; only the set of assigned tasks may change. */
  lemma OneKeyPassed(c: C.State, order: seq<string>, clock: nat -> int, n: nat, s: set<string>, n': nat, a: Assignment)
    requires |order| > 0 && forall id :: id in order ==> id in c.tasks
    requires ChosenBest(c.(assignedTasks := s), order[1..], clock, n', a)
    requires forall m: nat :: m < |order| - 1 ==>
               BeforeKey(c, order, clock, n, m + 1) == BeforeKey(c.(assignedTasks := s), order[1..], clock, n', m)
    ensures ChosenBest(c, order, clock, n, a)
  {
    hide Unbeaten, C.Ready, C.AssignmentFor, BeforeKey;
    var c' := c.(assignedTasks := s);
    var m: nat, b :| ChosenAt(c', order[1..], clock, n', a, m, b);
    assert order[1..][m] == order[m + 1];
    assert ChosenAt(c, order, clock, n, a, m + 1, b);
  }

  /** A scheduling call assigns nothing but bids unbeaten in their scans. */
  lemma {:induction false} ScheduleChoosesBest(c: C.State, order: seq<string>, clock: nat -> int, n: nat, a: Assignment)
    requires (forall id :: id in order ==> id in c.tasks) && AssignMsg(a) in C.Schedule(c, order, clock, n).1
    ensures ChosenBest(c, order, clock, n, a)
    decreases |order|
  {
    hide C.BestOf, C.Ready, ChosenBest;
    assert order[0] in order;
    var task := c.tasks[order[0]];
    var w := C.BestOf(c.capabilities, c.bids, task, clock, n, |c.bids|);
    if !C.Ready(c, task) {
      ScheduleChoosesBest(c, order[1..], clock, n, a);
      OneKeyPassed(c, order, clock, n, c.assignedTasks, n, a);
    } else if w == None {
      ScheduleChoosesBest(c, order[1..], clock, n + |c.bids|, a);
      OneKeyPassed(c, order, clock, n, c.assignedTasks, n + |c.bids|, a);
    } else {
      var next := c.(assignedTasks := c.assignedTasks + {task.id});
      if AssignMsg(a) in C.Schedule(next, order[1..], clock, n + |c.bids|).1 {
        ScheduleChoosesBest(next, order[1..], clock, n + |c.bids|, a);
        OneKeyPassed(c, order, clock, n, next.assignedTasks, n + |c.bids|, a);
      } else {
        FirstIsBest(c, order, clock, n);
      }
    }
  }

  lemma FirstIsBest(c: C.State, order: seq<string>, clock: nat -> int, n: nat)
    requires |order| > 0 && forall id :: id in order ==> id in c.tasks
    requires C.Ready(c, c.tasks[order[0]]) && C.BestOf(c.capabilities, c.bids, c.tasks[order[0]], clock, n, |c.bids|).Some?
    ensures var task := c.tasks[order[0]];
            ChosenBest(c, order, clock, n, C.AssignmentFor(c, task, C.BestOf(c.capabilities, c.bids, task, clock, n, |c.bids|).value))
  {
    hide C.BestOf, Unbeaten;
    var task := c.tasks[order[0]];
    var b := C.BestOf(c.capabilities, c.bids, task, clock, n, |c.bids|).value;
    WinnerIsUnbeaten(c, task, clock, n);
    assert ChosenAt(c, order, clock, n, C.AssignmentFor(c, task, b), 0, b);
  }

  // ----- runs

  /** The scheduling call publishes the assignment, for a bid unbeaten in the scan the call makes. */
  ghost predicate Decides(c: C.State, act: Action, a: Assignment)
    requires act.Schedule? && forall id :: id in act.order ==> id in C.Sync(c, act.batch).tasks
  {
    && AssignMsg(a) in C.Schedule(C.Sync(c, act.batch), act.order, act.clock, 0).1
    && ChosenBest(C.Sync(c, act.batch), act.order, act.clock, 0, a)
  }

  /** The `k`-th action is that call, made in the world `mid`. */
  ghost predicate DecidedAt(w: World, actions: seq<Action>, k: nat, mid: World, a: Assignment)
    requires Speeds(w) && k < |actions|
  {
    Run(w, actions[..k], mid) && actions[k].Schedule? && Enabled(mid, actions[k]) && Decides(mid.c, actions[k], a)
  }

  ghost predicate Waiting(w: World, a: Assignment) {
    AssignMsg(a) in w.log || AssignMsg(a) in w.cOut
  }

  /** A step brings an assignment about only by scheduling. */
  lemma StepDecides(w: World, act: Action, a: Assignment)
    requires Inv(w) && Speeds(w) && Enabled(w, act) && Waiting(Step(w, act), a) && !Waiting(w, a)
    ensures act.Schedule? && Decides(w.c, act, a)
  {
    hide Inv, AgentOk, C.Sync, C.Schedule, ChosenBest, Delivered, DecisionsOk;
    match act
    case Schedule(batch, order, clock) =>
      ScheduleChoosesBest(C.Sync(w.c, batch), order, clock, 0, a);
    case Emit(g) =>
      NoForgedDecision(w, g);
    case _ =>
  }

  lemma NoForgedDecision(w: World, g: string)
    requires Inv(w) && g in w.agents && w.agents[g].out != []
    ensures !w.agents[g].out[0].AssignMsg?
  {
    hide Informed, DecisionsOk, LogJustified, LogOrdered;
    OutOfAgent(w, g);
    PendingMayFollow(w.log, g, w.agents[g].out);
  }

  lemma {:induction false} RunDecides(w: World, actions: seq<Action>, end: World, a: Assignment) returns (k: nat, mid: World)
    requires Inv(w) && Speeds(w) && Run(w, actions, end) && Waiting(end, a) && !Waiting(w, a)
    ensures k < |actions| && DecidedAt(w, actions, k, mid, a)
    decreases |actions|
  {
    hide Inv, Waiting, Decides;
    assert |actions| > 0;
    var act, rest := actions[0], actions[1..];
    StepKeepsSpeeds(w, act);
    StepKeepsInv(w, act);
    if Waiting(Step(w, act), a) {
      StepDecides(w, act, a);
      k, mid := 0, w;
      assert actions[..0] == [];
    } else {
      var j;
      j, mid := RunDecides(Step(w, act), rest, end, a);
      k := j + 1;
      assert actions[k] == rest[j];
      assert actions[..k][0] == act && actions[..k][1..] == rest[..j];
    }
  }

  /** Every published assignment of a run was published by a scheduling call of the run, for a bid that no
      bid received by then and still live at the end of that call's scan for the task beats. */
  lemma AssignmentsAreOptimal(w: World, actions: seq<Action>, end: World, a: Assignment)
    requires Init(w) && Run(w, actions, end) && AssignMsg(a) in end.log
    ensures exists k: nat, mid: World :: k < |actions| && DecidedAt(w, actions, k, mid, a)
  {
    hide Inv, Run, DecidedAt;
    InitInv(w);
    var k, mid := RunDecides(w, actions, end, a);
  }
}
