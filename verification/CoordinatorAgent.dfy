/** `Coordinator` of src/main.cpp: what it keeps, how it picks a bid, which assignments it makes. */
module CoordinatorAgent {
  import opened Wrappers
  import opened Text
  import opened AuctionMessages

  datatype State = State(tasks: map<string, Request>, capabilities: map<string, Capability>, bids: seq<Bid>,
                         completedTasks: set<string>, assignedTasks: set<string>)

  const EMPTY := State(map[], map[], [], {}, {})

  /** One sample taken by `synchronize_inputs`. */
  function Absorb(c: State, m: Msg): State {
    match m
    case RequestMsg(r) => c.(tasks := c.tasks[r.id := r])
    case CapabilityMsg(p) => c.(capabilities := c.capabilities[p.agent := p])
    case BidMsg(b) => c.(bids := c.bids + [b])
    case StateMsg(_, task, phase) => if phase == Completed && |task| > 0 then c.(completedTasks := c.completedTasks + {task}) else c
    case _ => c
  }

  function Sync(c: State, batch: seq<Msg>): State
    decreases |batch|
  {
    if |batch| == 0 then c else Sync(Absorb(c, batch[0]), batch[1..])
  }

  // ----- the choice of a bid

  predicate Eligible(capabilities: map<string, Capability>, bid: Bid, task: Request, now: int) {
    && bid.feasible && bid.task == task.id && now - bid.createdAt <= bid.ttl
    && bid.agent in capabilities && capabilities[bid.agent].available
    && capabilities[bid.agent].capability == task.capability
  }

  /** Lower cost, then shorter ETA, then smaller id. */
  predicate Better(a: Bid, b: Bid) {
    a.cost < b.cost || (a.cost == b.cost && a.eta < b.eta) || (a.cost == b.cost && a.eta == b.eta && Less(a.id, b.id))
  }

  /** The winner among the first `k` bids; bid `i` is looked at when the clock shows `clock(n + i)`. */
  function BestOf(capabilities: map<string, Capability>, bids: seq<Bid>, task: Request, clock: nat -> int, n: nat, k: nat): (w: Option<Bid>)
    requires k <= |bids|
  {
    if k == 0 then None
    else
      var w := BestOf(capabilities, bids, task, clock, n, k - 1);
      var bid := bids[k - 1];
      if !Eligible(capabilities, bid, task, clock(n + k - 1)) then w
      else if w == None || Better(bid, w.value) then Some(bid) else w
  }

  lemma BetterTransitive(a: Bid, b: Bid, c: Bid)
    requires !Better(a, b) && !Better(b, c)
    ensures !Better(a, c)
  {
    LessTrichotomy(a.id, b.id);
    LessTrichotomy(b.id, c.id);
    if Better(a, c) && a.cost == b.cost == c.cost && a.eta == b.eta == c.eta {
      if b.id != a.id && c.id != b.id {
        LessTransitive(c.id, b.id, a.id);
        LessTrichotomy(a.id, c.id);
      }
    }
  }

  /** The winner was eligible when it was looked at, and no bid that was eligible when it was looked
      at is better; there is no winner exactly when no bid was eligible. */
  lemma {:induction false} BestIsOptimal(capabilities: map<string, Capability>, bids: seq<Bid>, task: Request, clock: nat -> int, n: nat, k: nat)
    requires k <= |bids|
    ensures var w := BestOf(capabilities, bids, task, clock, n, k);
            && (w.Some? ==> exists j :: 0 <= j < k && bids[j] == w.value && Eligible(capabilities, bids[j], task, clock(n + j)))
            && (forall i :: 0 <= i < k && Eligible(capabilities, bids[i], task, clock(n + i)) ==> w.Some? && !Better(bids[i], w.value))
  {
    if k > 0 {
      BestIsOptimal(capabilities, bids, task, clock, n, k - 1);
      var w, w' := BestOf(capabilities, bids, task, clock, n, k - 1), BestOf(capabilities, bids, task, clock, n, k);
      if w'.Some? {
        LessTrichotomy(w'.value.id, w'.value.id);
        if w.Some? && w != w' {
          forall i | 0 <= i < k - 1 && Eligible(capabilities, bids[i], task, clock(n + i))
            ensures !Better(bids[i], w'.value)
          {
            BetterAsymmetric(w'.value, w.value);
            BetterTransitive(bids[i], w.value, w'.value);
          }
        }
      }
    }
  }

  lemma BetterAsymmetric(a: Bid, b: Bid)
    requires Better(a, b)
    ensures !Better(b, a)
  {
    LessTrichotomy(a.id, b.id);
  }

  /** With a clock that does not go back, no bid still live at the end of the scan beats the winner. */
  lemma NoLiveBidIsBetter(capabilities: map<string, Capability>, bids: seq<Bid>, task: Request, clock: nat -> int, n: nat, end: int)
    requires Nondecreasing(clock) && clock(n + |bids|) <= end
    ensures var w := BestOf(capabilities, bids, task, clock, n, |bids|);
            forall bid :: bid in bids && Eligible(capabilities, bid, task, end) ==> w.Some? && !Better(bid, w.value)
  {
    BestIsOptimal(capabilities, bids, task, clock, n, |bids|);
    forall i | 0 <= i < |bids| && Eligible(capabilities, bids[i], task, end)
      ensures Eligible(capabilities, bids[i], task, clock(n + i))
    {
      assert clock(n + i) <= clock(n + |bids|);
    }
  }

  /** No two different bids for the task carry one id. */
  predicate DistinctIds(bids: seq<Bid>, task: Request) {
    forall i, j :: 0 <= i < |bids| && 0 <= j < |bids| && bids[i].task == task.id && bids[j].task == task.id && bids[i].id == bids[j].id
      ==> bids[i] == bids[j]
  }

  /** With the clock standing still, the winner depends on which bids there are, not on the order or
      the number of times they arrive. */
  lemma ArrivalOrderIsIrrelevant(capabilities: map<string, Capability>, bids: seq<Bid>, others: seq<Bid>, task: Request, now: int)
    requires forall b :: b in bids <==> b in others
    requires DistinctIds(bids, task)
    ensures BestOf(capabilities, bids, task, _ => now, 0, |bids|) == BestOf(capabilities, others, task, _ => now, 0, |others|)
  {
    hide Better, Eligible;
    var clock: nat -> int := _ => now;
    BestIsOptimal(capabilities, bids, task, clock, 0, |bids|);
    BestIsOptimal(capabilities, others, task, clock, 0, |others|);
    var w, v := BestOf(capabilities, bids, task, clock, 0, |bids|), BestOf(capabilities, others, task, clock, 0, |others|);
    if w.Some? {
      var j :| 0 <= j < |bids| && bids[j] == w.value && Eligible(capabilities, bids[j], task, now);
      assert w.value in others;
      var i :| 0 <= i < |others| && others[i] == w.value;
      assert v.Some?;
    }
    if v.Some? {
      var j :| 0 <= j < |others| && others[j] == v.value && Eligible(capabilities, others[j], task, now);
      assert v.value in bids;
      var i :| 0 <= i < |bids| && bids[i] == v.value;
      assert w.Some?;
      UnbeatenMeansSameId(v.value, w.value);
      EligibleIsForTask(capabilities, w.value, v.value, task, now);
    }
  }

  lemma EligibleIsForTask(capabilities: map<string, Capability>, a: Bid, b: Bid, task: Request, now: int)
    requires Eligible(capabilities, a, task, now) && Eligible(capabilities, b, task, now)
    ensures a.task == task.id == b.task
  {
  }

  lemma UnbeatenMeansSameId(a: Bid, b: Bid)
    requires !Better(a, b) && !Better(b, a)
    ensures a.id == b.id
  {
    LessTrichotomy(a.id, b.id);
  }

  // ----- scheduling

  predicate Ready(c: State, task: Request) {
    task.id !in c.assignedTasks && (task.predecessor == "" || task.predecessor in c.completedTasks)
  }

  function AssignmentFor(c: State, task: Request, bid: Bid): Assignment {
    Assignment(task.id, bid.agent, bid.id, bid.eta, |c.assignedTasks| + 1, true)
  }

  /** The tasks in `order`, one after the other: the state after, and the messages published. */
  function Schedule(c: State, order: seq<string>, clock: nat -> int, n: nat): (r: (State, seq<Msg>))
    requires forall id :: id in order ==> id in c.tasks
    ensures r.0 == c.(assignedTasks := r.0.assignedTasks)
    decreases |order|
  {
    if |order| == 0 then (c, [])
    else
      var task := c.tasks[order[0]];
      if !Ready(c, task) then Schedule(c, order[1..], clock, n)
      else
        var w := BestOf(c.capabilities, c.bids, task, clock, n, |c.bids|);
        if w == None then Schedule(c, order[1..], clock, n + |c.bids|)
        else
          var rest := Schedule(c.(assignedTasks := c.assignedTasks + {task.id}), order[1..], clock, n + |c.bids|);
          (rest.0, [AssignMsg(AssignmentFor(c, task, w.value)), EventMsg(task.id, TaskAssigned)] + rest.1)
  }

  class Coordinator {
    var tasks: map<string, Request>
    var capabilities: map<string, Capability>
    var bids: seq<Bid>
    var completedTasks: set<string>
    var assignedTasks: set<string>
    var published: seq<Msg>

    function View(): State
      reads this
    {
      State(tasks, capabilities, bids, completedTasks, assignedTasks)
    }

    constructor ()
      ensures View() == EMPTY && published == []
    {
      tasks, capabilities, bids, completedTasks, assignedTasks := map[], map[], [], {}, {};
      published := [];
    }

    /** Takes the samples that have arrived. */
    method SynchronizeInputs(batch: seq<Msg>)
      modifies this
      ensures View() == Sync(old(View()), batch) && published == old(published)
    {
      for k := 0 to |batch|
        invariant Sync(View(), batch[k..]) == Sync(old(View()), batch)
        invariant published == old(published)
      {
        assert batch[k..][0] == batch[k] && batch[k..][1..] == batch[k + 1..];
        match batch[k] {
          case RequestMsg(r) => tasks := tasks[r.id := r];
          case CapabilityMsg(p) => capabilities := capabilities[p.agent := p];
          case BidMsg(b) => bids := bids + [b];
          case StateMsg(_, task, phase) =>
            if phase == Completed && |task| > 0 {
              completedTasks := completedTasks + {task};
            }
          case _ =>
        }
      }
      assert batch[|batch|..] == [];
    }

    /** Scans the bids once, rereading the clock for each. */
    method ChooseCandidate(task: Request, clock: nat -> int, n: nat) returns (winner: Option<Bid>)
      ensures winner == BestOf(capabilities, bids, task, clock, n, |bids|)
      ensures winner.Some? ==> exists i :: 0 <= i < |bids| && bids[i] == winner.value && Eligible(capabilities, bids[i], task, clock(n + i))
      ensures forall i :: 0 <= i < |bids| && Eligible(capabilities, bids[i], task, clock(n + i)) ==> winner.Some? && !Better(bids[i], winner.value)
    {
      winner := None;
      for k := 0 to |bids|
        invariant winner == BestOf(capabilities, bids, task, clock, n, k)
      {
        var bid := bids[k];
        if !bid.feasible || bid.task != task.id || clock(n + k) - bid.createdAt > bid.ttl {
          continue;
        }
        if bid.agent !in capabilities || !capabilities[bid.agent].available || capabilities[bid.agent].capability != task.capability {
          continue;
        }
        if winner == None || bid.cost < winner.value.cost
           || (bid.cost == winner.value.cost && bid.eta < winner.value.eta)
           || (bid.cost == winner.value.cost && bid.eta == winner.value.eta && Less(bid.id, winner.value.id)) {
          winner := Some(bid);
        }
      }
      BestIsOptimal(capabilities, bids, task, clock, n, |bids|);
    }

    method PublishAssignment(task: Request, bid: Bid)
      modifies this`published
      ensures published == old(published) + [AssignMsg(AssignmentFor(View(), task, bid)), EventMsg(task.id, TaskAssigned)]
    {
      published := published + [AssignMsg(Assignment(task.id, bid.agent, bid.id, bid.eta, |assignedTasks| + 1, true))];
      published := published + [EventMsg(task.id, TaskAssigned)];
    }

    /** `order` lists the keys of the task map in the order in which they are visited. */
    method ScheduleReadyTasks(batch: seq<Msg>, order: seq<string>, clock: nat -> int)
      requires forall id :: id in order ==> id in Sync(View(), batch).tasks
      modifies this
      ensures View() == Schedule(Sync(old(View()), batch), order, clock, 0).0
      ensures published == old(published) + Schedule(Sync(old(View()), batch), order, clock, 0).1
    {
      SynchronizeInputs(batch);
      ghost var start := View();
      var n: nat := 0;
      for k := 0 to |order|
        invariant View() == start.(assignedTasks := assignedTasks)
        invariant old(published) <= published
        invariant Schedule(View(), order[k..], clock, n).0 == Schedule(start, order, clock, 0).0
        invariant published + Schedule(View(), order[k..], clock, n).1 == old(published) + Schedule(start, order, clock, 0).1
      {
        hide BestOf, Sync;
        var task := tasks[order[k]];
        assert order[k..][0] == order[k] && order[k..][1..] == order[k + 1..];
        if task.id in assignedTasks || (task.predecessor != "" && task.predecessor !in completedTasks) {
          continue;
        }
        var winner := ChooseCandidate(task, clock, n);
        n := n + |bids|;
        if winner == None {
          continue;
        }
        PublishAssignment(task, winner.value);
        assignedTasks := assignedTasks + {task.id};
      }
      assert order[|order|..] == [];
    }
  }
}
