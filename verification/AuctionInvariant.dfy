/** What every step of the auction keeps. */
module AuctionInvariant {
  import opened AuctionMessages
  import opened AuctionSystem
  import C = CoordinatorAgent

  // ----- facts about the log

  /** Some vehicle has published the completion of `t`. */
  ghost predicate CompletedIn(log: seq<Msg>, t: string) {
    exists g :: StateMsg(g, t, Completed) in log
  }

  /** A published request for the task, whose predecessor, if any, is completed. */
  ghost predicate Unlocked(log: seq<Msg>, t: string) {
    exists r :: RequestMsg(r) in log && r.id == t && (r.predecessor == "" || CompletedIn(log, r.predecessor))
  }

  /** A published feasible bid of a vehicle whose published capability is the one asked for. */
  ghost predicate Backed(log: seq<Msg>, a: Assignment) {
    exists r, b, p :: RequestMsg(r) in log && BidMsg(b) in log && CapabilityMsg(p) in log && Backs(r, b, p, a)
  }

  predicate Backs(r: Request, b: Bid, p: Capability, a: Assignment) {
    && r.id == a.task && b.task == a.task && b.agent == a.agent && b.id == a.bidId && b.feasible
    && p.agent == a.agent && p.available && p.capability == r.capability
  }

  ghost predicate Justified(log: seq<Msg>, a: Assignment) {
    a.accepted && Unlocked(log, a.task) && Backed(log, a)
  }

  ghost predicate AssignedIn(log: seq<Msg>, t: string, g: string) {
    exists a :: AssignMsg(a) in log && a.task == t && a.agent == g
  }

  lemma Grows(log: seq<Msg>, more: seq<Msg>)
    ensures forall m :: m in log ==> m in log + more
  {
  }

  lemma CompletedGrows(log: seq<Msg>, more: seq<Msg>, t: string)
    requires CompletedIn(log, t)
    ensures CompletedIn(log + more, t)
  {
    var g :| StateMsg(g, t, Completed) in log;
    assert StateMsg(g, t, Completed) in log + more;
  }

  lemma JustifiedGrows(log: seq<Msg>, more: seq<Msg>, a: Assignment)
    requires Justified(log, a)
    ensures Justified(log + more, a)
  {
    hide Backs, CompletedIn;
    Grows(log, more);
    var r :| RequestMsg(r) in log && r.id == a.task && (r.predecessor == "" || CompletedIn(log, r.predecessor));
    if r.predecessor != "" {
      CompletedGrows(log, more, r.predecessor);
    }
    assert RequestMsg(r) in log + more;
    var q, b, p :| RequestMsg(q) in log && BidMsg(b) in log && CapabilityMsg(p) in log && Backs(q, b, p, a);
    assert RequestMsg(q) in log + more && BidMsg(b) in log + more && CapabilityMsg(p) in log + more;
  }

  lemma AssignedGrows(log: seq<Msg>, more: seq<Msg>, t: string, g: string)
    requires AssignedIn(log, t, g)
    ensures AssignedIn(log + more, t, g)
  {
    var a :| AssignMsg(a) in log && a.task == t && a.agent == g;
    assert AssignMsg(a) in log + more;
  }

  // ----- the clauses

  /** All requests for one id agree. */
  ghost predicate Agree(log: seq<Msg>) {
    forall r, q :: RequestMsg(r) in log && RequestMsg(q) in log && r.id == q.id ==> r == q
  }

  /** The coordinator knows only what was published. */
  ghost predicate Informed(log: seq<Msg>, c: C.State) {
    && (forall id :: id in c.tasks ==> c.tasks[id].id == id && RequestMsg(c.tasks[id]) in log)
    && (forall g :: g in c.capabilities ==> c.capabilities[g].agent == g && CapabilityMsg(c.capabilities[g]) in log)
    && (forall b :: b in c.bids ==> BidMsg(b) in log)
    && (forall t :: t in c.completedTasks ==> CompletedIn(log, t))
  }

  function Assigns(msgs: seq<Msg>): seq<Assignment> {
    if |msgs| == 0 then []
    else (if msgs[0].AssignMsg? then [msgs[0].assignment] else []) + Assigns(msgs[1..])
  }

  lemma {:induction false} AssignsConcat(a: seq<Msg>, b: seq<Msg>)
    ensures Assigns(a + b) == Assigns(a) + Assigns(b)
  {
    if |a| == 0 {
      assert a + b == b;
    } else {
      AssignsConcat(a[1..], b);
      assert (a + b)[0] == a[0] && (a + b)[1..] == a[1..] + b;
      var first := if a[0].AssignMsg? then [a[0].assignment] else [];
      assert first + (Assigns(a[1..]) + Assigns(b)) == first + Assigns(a[1..]) + Assigns(b);
    }
  }

  lemma {:induction false} AssignsHas(msgs: seq<Msg>, a: Assignment)
    ensures AssignMsg(a) in msgs <==> a in Assigns(msgs)
  {
    if |msgs| > 0 {
      AssignsHas(msgs[1..], a);
      assert msgs == [msgs[0]] + msgs[1..];
    }
  }

  /** The decisions taken, published or about to be: epochs 1, 2, 3, ..., one per task. */
  ghost predicate Numbered(all: seq<Assignment>, assignedTasks: set<string>) {
    && |all| == |assignedTasks|
    && (forall k :: 0 <= k < |all| ==> all[k].epoch == k + 1 && all[k].task in assignedTasks)
    && (forall i, j :: 0 <= i < j < |all| ==> all[i].task != all[j].task)
  }

  ghost predicate DecisionsOk(w: World) {
    && Numbered(Assigns(w.log) + Assigns(w.cOut), w.c.assignedTasks)
    && (forall a :: AssignMsg(a) in w.cOut ==> Justified(w.log, a))
    && (forall m :: m in w.cOut ==> m.AssignMsg? || m.EventMsg?)
  }

  /** Every published decision was justified by what had been published before it. */
  ghost predicate LogJustified(log: seq<Msg>) {
    forall i :: 0 <= i < |log| && log[i].AssignMsg? ==> Justified(log[..i], log[i].assignment)
  }

  /** Every reported phase of a task comes after an assignment of the task to that vehicle, and every
      completion after the start. */
  ghost predicate LogOrdered(log: seq<Msg>) {
    forall i :: 0 <= i < |log| && log[i].StateMsg? && log[i].phase != Phase.Idle ==>
      && AssignedIn(log[..i], log[i].task, log[i].agent)
      && (log[i].phase == Completed ==> StateMsg(log[i].agent, log[i].task, Assigned) in log[..i])
  }

  ghost predicate AgentInformed(log: seq<Msg>, g: string, ag: Agent) {
    && ag.profile.id == g
    && (forall id :: id in ag.v.tasks ==> ag.v.tasks[id].id == id && RequestMsg(ag.v.tasks[id]) in log)
    && (forall a :: a in ag.queue ==> AssignMsg(a) in log)
  }

  /** What a vehicle has yet to publish. */
  ghost predicate OutOk(log: seq<Msg>, g: string, out: seq<Msg>) {
    forall i :: 0 <= i < |out| ==> PendingOk(log, g, out, i)
  }

  ghost predicate PendingOk(log: seq<Msg>, g: string, out: seq<Msg>, i: nat)
    requires i < |out|
  {
    && !out[i].AssignMsg? && !out[i].RequestMsg?
    && (out[i].StateMsg? ==> out[i].agent == g)
    && (out[i].StateMsg? && out[i].phase != Phase.Idle ==> AssignedIn(log, out[i].task, g))
    && (out[i].StateMsg? && out[i].phase == Completed ==> StateMsg(g, out[i].task, Assigned) in log + out[..i])
  }

  /** The vehicle has started a task once if it counts it as executed, and not at all otherwise. */
  ghost predicate StartsOk(log: seq<Msg>, g: string, ag: Agent) {
    forall t :: StartCount(log, g, t) + StartCount(ag.out, g, t) == if t in ag.v.executed then 1 else 0
  }

  function StartCount(msgs: seq<Msg>, g: string, t: string): nat {
    multiset(msgs)[StateMsg(g, t, Assigned)]
  }

  ghost predicate AgentOk(log: seq<Msg>, g: string, ag: Agent) {
    AgentInformed(log, g, ag) && OutOk(log, g, ag.out) && StartsOk(log, g, ag)
  }

  ghost predicate AgentsOk(w: World) {
    forall g :: g in w.agents ==> AgentOk(w.log, g, w.agents[g])
  }

  ghost predicate StatesKnown(w: World) {
    forall i :: 0 <= i < |w.log| && w.log[i].StateMsg? ==> w.log[i].agent in w.agents
  }

  ghost predicate Inv(w: World) {
    Agree(w.log) && Informed(w.log, w.c) && DecisionsOk(w) && LogJustified(w.log) && LogOrdered(w.log) && AgentsOk(w) && StatesKnown(w)
  }

  lemma InitInv(w: World)
    requires Init(w)
    ensures Inv(w)
  {
    assert Assigns(w.log) + Assigns(w.cOut) == [];
  }

  // ----- the log grows by one message

  lemma InformedGrows(log: seq<Msg>, more: seq<Msg>, c: C.State)
    requires Informed(log, c)
    ensures Informed(log + more, c)
  {
    hide CompletedIn;
    Grows(log, more);
    forall t | t in c.completedTasks
      ensures CompletedIn(log + more, t)
    {
      CompletedGrows(log, more, t);
    }
  }

  lemma LogJustifiedGrows(log: seq<Msg>, m: Msg)
    requires LogJustified(log) && (m.AssignMsg? ==> Justified(log, m.assignment))
    ensures LogJustified(log + [m])
  {
    hide Justified;
    forall i | 0 <= i < |log + [m]| && (log + [m])[i].AssignMsg?
      ensures Justified((log + [m])[..i], (log + [m])[i].assignment)
    {
      assert (log + [m])[..i] == log[..i];
      assert log[..|log|] == log;
    }
  }

  /** A message that may follow what has been published. */
  ghost predicate MayFollow(log: seq<Msg>, m: Msg) {
    m.StateMsg? && m.phase != Phase.Idle ==>
      AssignedIn(log, m.task, m.agent) && (m.phase == Completed ==> StateMsg(m.agent, m.task, Assigned) in log)
  }

  lemma LogOrderedGrows(log: seq<Msg>, m: Msg)
    requires LogOrdered(log) && MayFollow(log, m)
    ensures LogOrdered(log + [m])
  {
    hide AssignedIn;
    var grown := log + [m];
    forall i | 0 <= i < |grown| && grown[i].StateMsg? && grown[i].phase != Phase.Idle
      ensures AssignedIn(grown[..i], grown[i].task, grown[i].agent)
      ensures grown[i].phase == Completed ==> StateMsg(grown[i].agent, grown[i].task, Assigned) in grown[..i]
    {
      assert grown[..i] == log[..i];
      assert log[..|log|] == log;
      if i < |log| {
        assert grown[i] == log[i];
      }
    }
  }

  lemma PendingGrows(log: seq<Msg>, m: Msg, g: string, out: seq<Msg>, i: nat)
    requires i < |out| && PendingOk(log, g, out, i)
    ensures PendingOk(log + [m], g, out, i)
  {
    hide AssignedIn;
    if out[i].StateMsg? && out[i].phase != Phase.Idle {
      AssignedGrows(log, [m], out[i].task, g);
    }
  }

  lemma AgentGrows(log: seq<Msg>, m: Msg, g: string, ag: Agent)
    requires AgentOk(log, g, ag) && !(m.StateMsg? && m.agent == g)
    ensures AgentOk(log + [m], g, ag)
  {
    hide PendingOk;
    Grows(log, [m]);
    forall i | 0 <= i < |ag.out|
      ensures PendingOk(log + [m], g, ag.out, i)
    {
      PendingGrows(log, m, g, ag.out, i);
    }
    assert forall t :: StartCount(log + [m], g, t) == StartCount(log, g, t);
  }

  lemma AssignsGrow(log: seq<Msg>, m: Msg)
    ensures Assigns(log + [m]) == Assigns(log) + (if m.AssignMsg? then [m.assignment] else [])
  {
    AssignsConcat(log, [m]);
    assert [m][1..] == [];
  }

  lemma DecisionsGrow(w: World, m: Msg)
    requires DecisionsOk(w) && !m.AssignMsg?
    ensures DecisionsOk(w.(log := w.log + [m]))
  {
    hide Justified, Numbered;
    AssignsGrow(w.log, m);
    assert Assigns(w.log) + [] == Assigns(w.log);
    forall a | AssignMsg(a) in w.cOut
      ensures Justified(w.log + [m], a)
    {
      JustifiedGrows(w.log, [m], a);
    }
  }
}
