/** The device directory and the choice of the nearest device (registry.py and scheduler.py of the
    master agent). Distances are compared by their squares; times are milliseconds. */
module DeviceRegistries {
  import opened Wrappers

  datatype WorkState = Offline | Idle | Reserved | Preflight | Executing | Returning | ManualControl | Error

  datatype Pose = Pose(frame: string, x: real, y: real, z: real)

  datatype AgentState = AgentState(agentId: string, timestamp: int, online: bool, work: WorkState, pose: Option<Pose>,
                                   positionValid: bool, batteryOk: bool, capabilities: seq<string>)

  datatype Entry = Entry(state: AgentState, lastSeen: int, offline: bool)

  /** `order` is the insertion order of the dictionary. */
  datatype Registry = Registry(order: seq<string>, entries: map<string, Entry>) {
    ghost predicate Valid() {
      && (forall id :: id in entries <==> id in order)
      && (forall i, j :: 0 <= i < j < |order| ==> order[i] != order[j])
      && (forall id :: id in entries ==> entries[id].state.agentId == id && entries[id].lastSeen == entries[id].state.timestamp)
    }
  }

  const OFFLINE_MS := 5000

  function Report(r: Registry, s: AgentState): Registry {
    Registry(if s.agentId in r.entries then r.order else r.order + [s.agentId], r.entries[s.agentId := Entry(s, s.timestamp, false)])
  }

  function Flagged(e: Entry, now: int): Entry {
    if now - e.lastSeen > OFFLINE_MS then e.(offline := true) else e
  }

  function Ticked(r: Registry, now: int): Registry {
    r.(entries := map id | id in r.entries :: Flagged(r.entries[id], now))
  }

  /** What the directory shows of an entry: a device flagged offline is shown offline. */
  function Shown(e: Entry): AgentState {
    if e.offline then e.state.(work := Offline, online := false) else e.state
  }

  function Listing(entries: map<string, Entry>, order: seq<string>): (l: seq<AgentState>)
    requires forall id :: id in order ==> id in entries
    ensures |l| == |order| && forall k :: 0 <= k < |l| ==> l[k] == Shown(entries[order[k]])
  {
    if |order| == 0 then [] else Listing(entries, order[..|order| - 1]) + [Shown(entries[order[|order| - 1]])]
  }

  // ----- who may be chosen

  predicate IsAvailable(s: AgentState, capability: string) {
    s.online && s.work in {Idle, Reserved} && s.batteryOk && s.positionValid && s.pose.Some? && capability in s.capabilities
  }

  predicate Candidate(s: AgentState, target: Pose, capability: string, exclude: set<string>) {
    s.agentId !in exclude && s.work != Offline && IsAvailable(s, capability) && s.pose.value.frame == target.frame
  }

  function Distance2(s: AgentState, target: Pose): real
    requires s.pose.Some?
  {
    (s.pose.value.x - target.x) * (s.pose.value.x - target.x) + (s.pose.value.y - target.y) * (s.pose.value.y - target.y)
  }

  /** The first of the nearest candidates. */
  function Nearest(agents: seq<AgentState>, target: Pose, capability: string, exclude: set<string>): (w: Option<AgentState>)
    ensures w.Some? ==> Candidate(w.value, target, capability, exclude)
  {
    if |agents| == 0 then None
    else
      var w := Nearest(agents[..|agents| - 1], target, capability, exclude);
      var s := agents[|agents| - 1];
      if !Candidate(s, target, capability, exclude) then w
      else if w == None || Distance2(s, target) < Distance2(w.value, target) then Some(s) else w
  }

  predicate IsFirstMinimum(agents: seq<AgentState>, k: nat, target: Pose, capability: string, exclude: set<string>)
    requires k < |agents|
  {
    && Candidate(agents[k], target, capability, exclude)
    && (forall i :: 0 <= i < |agents| && Candidate(agents[i], target, capability, exclude) ==> Distance2(agents[i], target) >= Distance2(agents[k], target))
    && (forall i :: 0 <= i < k && Candidate(agents[i], target, capability, exclude) ==> Distance2(agents[i], target) > Distance2(agents[k], target))
  }

  predicate NoCandidate(agents: seq<AgentState>, target: Pose, capability: string, exclude: set<string>) {
    forall i :: 0 <= i < |agents| ==> !Candidate(agents[i], target, capability, exclude)
  }

  lemma OneMore(init: seq<AgentState>, s: AgentState, k: nat, target: Pose, capability: string, exclude: set<string>)
    requires k < |init| && IsFirstMinimum(init, k, target, capability, exclude)
    ensures IsFirstMinimum(init + [s], if Candidate(s, target, capability, exclude) && Distance2(s, target) < Distance2(init[k], target) then |init| else k,
                           target, capability, exclude)
  {
    hide Candidate, Distance2;
  }

  lemma FirstOne(init: seq<AgentState>, s: AgentState, target: Pose, capability: string, exclude: set<string>)
    requires NoCandidate(init, target, capability, exclude)
    ensures if Candidate(s, target, capability, exclude) then IsFirstMinimum(init + [s], |init|, target, capability, exclude)
            else NoCandidate(init + [s], target, capability, exclude)
  {
    hide Candidate, Distance2;
  }

  /** The chosen device is a candidate; no candidate is nearer, none listed before it is as near; no
      device is chosen exactly when there is no candidate. */
  lemma {:induction false} NearestIsFirstMinimum(agents: seq<AgentState>, target: Pose, capability: string, exclude: set<string>)
    ensures match Nearest(agents, target, capability, exclude)
      case None => NoCandidate(agents, target, capability, exclude)
      case Some(w) => exists k :: 0 <= k < |agents| && agents[k] == w && IsFirstMinimum(agents, k, target, capability, exclude)
  {
    hide Candidate, Distance2, IsFirstMinimum;
    if |agents| == 0 {
      assert NoCandidate(agents, target, capability, exclude);
    } else {
      hide NoCandidate;
      var n := |agents| - 1;
      var init, s := agents[..n], agents[n];
      assert agents == init + [s];
      NearestIsFirstMinimum(init, target, capability, exclude);
      match Nearest(init, target, capability, exclude)
      case None => FirstOne(init, s, target, capability, exclude);
      case Some(w) =>
        var k :| 0 <= k < |init| && init[k] == w && IsFirstMinimum(init, k, target, capability, exclude);
        assert agents[k] == w && agents[n] == s;
        OneMore(init, s, k, target, capability, exclude);
    }
  }

  class DeviceRegistry {
    var order: seq<string>
    var entries: map<string, Entry>

    function View(): Registry
      reads this
    {
      Registry(order, entries)
    }

    constructor ()
      ensures View() == Registry([], map[]) && View().Valid()
    {
      order, entries := [], map[];
    }

    method OnState(state: AgentState)
      requires View().Valid()
      modifies this
      ensures View() == Report(old(View()), state) && View().Valid()
    {
      if state.agentId !in entries {
        order := order + [state.agentId];
      }
      entries := entries[state.agentId := Entry(state, state.timestamp, false)];
    }

    method Tick(now: int)
      requires View().Valid()
      modifies this`entries
      ensures View() == Ticked(old(View()), now) && View().Valid()
    {
      for k := 0 to |order|
        invariant entries.Keys == old(entries).Keys
        invariant forall i :: 0 <= i < k ==> entries[order[i]] == Flagged(old(entries)[order[i]], now)
        invariant forall i :: k <= i < |order| ==> entries[order[i]] == old(entries)[order[i]]
      {
        var e := entries[order[k]];
        if now - e.lastSeen > OFFLINE_MS {
          entries := entries[order[k] := e.(offline := true)];
        }
      }
      assert entries == Ticked(old(View()), now).entries;
    }

    method Snapshot(now: int) returns (out: seq<AgentState>)
      requires View().Valid()
      modifies this`entries
      ensures View() == Ticked(old(View()), now) && View().Valid()
      ensures out == Listing(entries, order)
      ensures |out| == |order| && forall k :: 0 <= k < |out| && order[k] in entries ==>
                var e := entries[order[k]];
                out[k] == if e.offline then e.state.(work := Offline, online := false) else e.state
    {
      Tick(now);
      out := [];
      for k := 0 to |order|
        invariant out == Listing(entries, order[..k])
      {
        assert order[..k + 1][..k] == order[..k];
        var e := entries[order[k]];
        var s := e.state;
        if e.offline {
          s := s.(work := Offline, online := false);
        }
        out := out + [s];
      }
      assert order[..|order|] == order;
    }

    /** `select_nearest`: filters the snapshot, then takes the first minimum. */
    method SelectNearest(target: Pose, capability: string, exclude: set<string>, now: int) returns (best: Option<AgentState>)
      requires View().Valid()
      modifies this`entries
      ensures View() == Ticked(old(View()), now) && View().Valid()
      ensures best == Nearest(Listing(entries, order), target, capability, exclude)
    {
      var agents := Snapshot(now);
      var candidates := CandidatesAmong(agents, target, capability, exclude);
      best := FirstMinimum(candidates, target, capability, exclude);
    }
  }

  method CandidatesAmong(agents: seq<AgentState>, target: Pose, capability: string, exclude: set<string>) returns (candidates: seq<AgentState>)
    ensures forall s :: s in candidates ==> Candidate(s, target, capability, exclude)
    ensures Nearest(candidates, target, capability, exclude) == Nearest(agents, target, capability, exclude)
  {
    candidates := [];
    for k := 0 to |agents|
      invariant Nearest(candidates, target, capability, exclude) == Nearest(agents[..k], target, capability, exclude)
      invariant forall s :: s in candidates ==> Candidate(s, target, capability, exclude)
    {
      hide Distance2, IsAvailable;
      assert agents[..k + 1][..k] == agents[..k];
      var s := agents[k];
      if s.agentId in exclude || s.work == Offline || !IsAvailable(s, capability) || s.pose.value.frame != target.frame {
        continue;
      }
      assert (candidates + [s])[..|candidates|] == candidates;
      candidates := candidates + [s];
    }
    assert agents[..|agents|] == agents;
  }

  method FirstMinimum(candidates: seq<AgentState>, target: Pose, capability: string, exclude: set<string>) returns (best: Option<AgentState>)
    requires forall s :: s in candidates ==> Candidate(s, target, capability, exclude)
    ensures best == Nearest(candidates, target, capability, exclude)
  {
    best := None;
    for k := 0 to |candidates|
      invariant best == Nearest(candidates[..k], target, capability, exclude)
    {
      hide Distance2;
      assert candidates[..k + 1][..k] == candidates[..k] && candidates[k] in candidates;
      if best == None || Distance2(candidates[k], target) < Distance2(best.value, target) {
        best := Some(candidates[k]);
      }
    }
    assert candidates[..|candidates|] == candidates;
  }
}
