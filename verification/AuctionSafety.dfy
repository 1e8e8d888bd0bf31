/** What holds of every run of the auction: whatever the order of steps, however late, reordered or
    repeated the deliveries, for any vehicles and any tasks. */
module AuctionSafety {
  import opened AuctionMessages
  import opened AuctionSystem
  import opened AuctionInvariant
  import opened AuctionSteps

  /** Vehicle `g` starts executing `t` at position `i`. */
  predicate StartsAt(log: seq<Msg>, i: nat, g: string, t: string) {
    i < |log| && log[i] == StateMsg(g, t, Assigned)
  }

  predicate CompletesAt(log: seq<Msg>, i: nat, g: string, t: string) {
    i < |log| && log[i] == StateMsg(g, t, Completed)
  }

  lemma RunInv(w: World, actions: seq<Action>, end: World)
    requires Init(w) && Run(w, actions, end)
    ensures Inv(end)
  {
    hide Inv;
    InitInv(w);
    RunKeepsInv(w, actions, end);
  }

  lemma AssignmentBefore(log: seq<Msg>, i: nat) returns (k: nat)
    requires LogOrdered(log) && i < |log| && log[i].StateMsg? && log[i].phase != Phase.Idle
    ensures k < i && log[k].AssignMsg? && log[k].assignment.task == log[i].task && log[k].assignment.agent == log[i].agent
  {
    assert AssignedIn(log[..i], log[i].task, log[i].agent);
    var a :| AssignMsg(a) in log[..i] && a.task == log[i].task && a.agent == log[i].agent;
    k :| 0 <= k < i && log[..i][k] == AssignMsg(a);
  }

  lemma CompletionBefore(log: seq<Msg>, t: string) returns (h: string, j: nat)
    requires CompletedIn(log, t)
    ensures CompletesAt(log, j, h, t)
  {
    h :| StateMsg(h, t, Completed) in log;
    j :| 0 <= j < |log| && log[j] == StateMsg(h, t, Completed);
  }

  lemma StartBefore(log: seq<Msg>, j: nat, h: string, t: string) returns (k: nat)
    requires LogOrdered(log) && CompletesAt(log, j, h, t)
    ensures k < j && StartsAt(log, k, h, t)
  {
    assert StateMsg(h, t, Assigned) in log[..j];
    k :| 0 <= k < j && log[..j][k] == StateMsg(h, t, Assigned);
  }

  /** A task with a predecessor starts only after the predecessor was executed from start to end. */
  lemma DependencySafety(w: World, actions: seq<Action>, end: World, i: nat, g: string, r: Request)
    requires Init(w) && Run(w, actions, end)
    requires StartsAt(end.log, i, g, r.id) && RequestMsg(r) in end.log && r.predecessor != ""
    ensures exists h, s: nat, j: nat :: s < j < i && StartsAt(end.log, s, h, r.predecessor) && CompletesAt(end.log, j, h, r.predecessor)
  {
    hide Informed, DecisionsOk, AgentsOk, StatesKnown, Backed, Init, Run;
    RunInv(w, actions, end);
    var log := end.log;
    var k := AssignmentBefore(log, i);
    assert Unlocked(log[..k], r.id);
    var q :| RequestMsg(q) in log[..k] && q.id == r.id && (q.predecessor == "" || CompletedIn(log[..k], q.predecessor));
    assert RequestMsg(q) in log && q == r;
    var h, j := CompletionBefore(log[..k], r.predecessor);
    assert CompletesAt(log, j, h, r.predecessor);
    var s := StartBefore(log, j, h, r.predecessor);
  }

  /** The decisions, in the order of publication, carry the epochs 1, 2, 3, ... and are for different
      tasks. */
  lemma EpochsCountDecisions(w: World, actions: seq<Action>, end: World)
    requires Init(w) && Run(w, actions, end)
    ensures var made := Assigns(end.log);
            && (forall k :: 0 <= k < |made| ==> made[k].epoch == k + 1)
            && (forall i, j :: 0 <= i < j < |made| ==> made[i].task != made[j].task)
  {
    hide Informed, LogJustified, LogOrdered, AgentsOk, StatesKnown, Justified, Init, Run;
    RunInv(w, actions, end);
    var made, all := Assigns(end.log), Assigns(end.log) + Assigns(end.cOut);
    assert forall k :: 0 <= k < |made| ==> all[k] == made[k];
  }

  lemma OneAssignmentPerTask(end: World, a: Assignment, b: Assignment)
    requires DecisionsOk(end) && AssignMsg(a) in end.log && AssignMsg(b) in end.log && a.task == b.task
    ensures a == b
  {
    hide Justified;
    AssignsHas(end.log, a);
    AssignsHas(end.log, b);
    var all := Assigns(end.log) + Assigns(end.cOut);
    var i :| 0 <= i < |Assigns(end.log)| && Assigns(end.log)[i] == a;
    var j :| 0 <= j < |Assigns(end.log)| && Assigns(end.log)[j] == b;
    assert all[i] == a && all[j] == b;
  }

  lemma TwiceCounts(msgs: seq<Msg>, i: nat, j: nat)
    requires i < j < |msgs| && msgs[i] == msgs[j]
    ensures multiset(msgs)[msgs[i]] >= 2
  {
    assert msgs == msgs[..j] + msgs[j..];
    assert multiset(msgs) == multiset(msgs[..j]) + multiset(msgs[j..]);
    assert msgs[..j][i] in msgs[..j] && msgs[j..][0] in msgs[j..];
  }

  lemma StartedOnce(end: World, i: nat, j: nat)
    requires AgentsOk(end) && StatesKnown(end) && i < j < |end.log|
    requires end.log[i].StateMsg? && end.log[i].phase == Assigned
    ensures end.log[i] != end.log[j]
  {
    hide AgentInformed, OutOk;
    var g, t := end.log[i].agent, end.log[i].task;
    assert AgentOk(end.log, g, end.agents[g]);
    assert StartCount(end.log, g, t) <= 1 && end.log[i] == StateMsg(g, t, Assigned);
    if end.log[i] == end.log[j] {
      TwiceCounts(end.log, i, j);
    }
  }

  /** However often assignments are redelivered, a task is started at most once in all, and by the
      vehicle that the one assignment of the task selects. */
  lemma ExecutedAtMostOnce(w: World, actions: seq<Action>, end: World, i: nat, g: string, j: nat, h: string, t: string)
    requires Init(w) && Run(w, actions, end)
    requires StartsAt(end.log, i, g, t) && StartsAt(end.log, j, h, t)
    ensures i == j && g == h
    ensures exists k: nat :: k < i && end.log[k].AssignMsg? && end.log[k].assignment.task == t && end.log[k].assignment.agent == g
    ensures forall a :: AssignMsg(a) in end.log && a.task == t ==> a.agent == g
  {
    hide Informed, LogJustified, Init, Run, AgentsOk, StatesKnown, LogOrdered, DecisionsOk;
    RunInv(w, actions, end);
    var k := AssignmentBefore(end.log, i);
    var l := AssignmentBefore(end.log, j);
    var a := end.log[k].assignment;
    assert end.log[k] == AssignMsg(a) && end.log[l] == AssignMsg(end.log[l].assignment);
    OneAssignmentPerTask(end, a, end.log[l].assignment);
    forall b | AssignMsg(b) in end.log && b.task == t
      ensures b.agent == g
    {
      OneAssignmentPerTask(end, a, b);
    }
    if i < j {
      StartedOnce(end, i, j);
    } else if j < i {
      StartedOnce(end, j, i);
    }
  }

  /** Behind every start there are, in this order: the request, a feasible bid and the announced
      capability of the vehicle, the capability being the one requested; then the assignment. */
  lemma StartsAreBacked(w: World, actions: seq<Action>, end: World, i: nat, g: string, t: string)
    requires Init(w) && Run(w, actions, end) && StartsAt(end.log, i, g, t)
    ensures exists k: nat, r, b, p :: k < i && end.log[k].AssignMsg?
              && RequestMsg(r) in end.log[..k] && BidMsg(b) in end.log[..k] && CapabilityMsg(p) in end.log[..k]
              && Backs(r, b, p, end.log[k].assignment) && end.log[k].assignment.agent == g && end.log[k].assignment.task == t
  {
    hide Informed, DecisionsOk, AgentsOk, StatesKnown, Unlocked, Init, Run, Backs;
    RunInv(w, actions, end);
    var k := AssignmentBefore(end.log, i);
    var a := end.log[k].assignment;
    assert Backed(end.log[..k], a);
    var r, b, p :| RequestMsg(r) in end.log[..k] && BidMsg(b) in end.log[..k] && CapabilityMsg(p) in end.log[..k] && Backs(r, b, p, a);
    assert Backs(r, b, p, end.log[k].assignment);
  }
}
