/** Who is chosen over whole runs. */
module MissionSelection {
  import opened Wrappers
  import opened DeviceRegistries
  import opened MissionControl
  import opened MissionRuns
  import opened MissionBounds

  // ----- what the directory knows

  predicate ReportedLast(inputs: seq<Input>, n: nat, j: nat, s: AgentState)
    requires n <= |inputs|
  {
    j < n && inputs[j] == Heartbeat(s) && forall i :: j < i < n && inputs[i].Heartbeat? ==> inputs[i].state.agentId != s.agentId
  }

  /** `s` is the last report of its device among the first `n` inputs. */
  ghost predicate LastReport(inputs: seq<Input>, n: nat, s: AgentState)
    requires n <= |inputs|
  {
    exists j :: 0 <= j < n && ReportedLast(inputs, n, j, s)
  }

  /** Some earlier reading of the clock found the report too old. */
  ghost predicate FoundStale(inputs: seq<Input>, n: nat, timestamp: int)
    requires n <= |inputs|
  {
    exists j :: 0 <= j < n && !inputs[j].Heartbeat? && inputs[j].now - timestamp > OFFLINE_MS
  }

  ghost predicate DirectoryOk(inputs: seq<Input>, n: nat, reg: Registry)
    requires n <= |inputs|
  {
    && (forall id :: id in reg.entries ==> LastReport(inputs, n, reg.entries[id].state))
    && (forall id :: id in reg.entries && reg.entries[id].offline ==> FoundStale(inputs, n, reg.entries[id].lastSeen))
    && (forall s :: LastReport(inputs, n, s) ==> s.agentId in reg.entries && reg.entries[s.agentId].state == s)
  }

  lemma RegistryStep(w: World, i: Input)
    requires w.reg.Valid()
    ensures i.Heartbeat? ==> Step(w, i).0.reg == Report(w.reg, i.state)
    ensures !i.Heartbeat? ==> Step(w, i).0.reg == w.reg || Step(w, i).0.reg == Ticked(w.reg, i.now)
  {
    hide Report, Ticked, AssignUav, FeedbackOutcome, InspectionOutcome;
    StepKeepsValid(w, i);
  }

  lemma NoNewReport(inputs: seq<Input>, n: nat)
    requires n < |inputs| && !inputs[n].Heartbeat?
    ensures forall s :: LastReport(inputs, n + 1, s) <==> LastReport(inputs, n, s)
    ensures forall ts :: FoundStale(inputs, n, ts) ==> FoundStale(inputs, n + 1, ts)
  {
    forall s
      ensures LastReport(inputs, n + 1, s) <==> LastReport(inputs, n, s)
    {
      if LastReport(inputs, n + 1, s) {
        var j :| 0 <= j < n + 1 && ReportedLast(inputs, n + 1, j, s);
        assert ReportedLast(inputs, n, j, s);
      }
      if LastReport(inputs, n, s) {
        var j :| 0 <= j < n && ReportedLast(inputs, n, j, s);
        assert ReportedLast(inputs, n + 1, j, s);
      }
    }
  }

  lemma NewReport(inputs: seq<Input>, n: nat)
    requires n < |inputs| && inputs[n].Heartbeat?
    ensures forall s :: LastReport(inputs, n + 1, s) <==> s == inputs[n].state || (s.agentId != inputs[n].state.agentId && LastReport(inputs, n, s))
    ensures forall ts :: FoundStale(inputs, n, ts) ==> FoundStale(inputs, n + 1, ts)
  {
    forall s
      ensures LastReport(inputs, n + 1, s) <==> s == inputs[n].state || (s.agentId != inputs[n].state.agentId && LastReport(inputs, n, s))
    {
      if LastReport(inputs, n + 1, s) {
        var j :| 0 <= j < n + 1 && ReportedLast(inputs, n + 1, j, s);
        if j < n {
          assert ReportedLast(inputs, n, j, s);
        }
      }
      if s == inputs[n].state {
        assert ReportedLast(inputs, n + 1, n, s);
      } else if s.agentId != inputs[n].state.agentId && LastReport(inputs, n, s) {
        var j :| 0 <= j < n && ReportedLast(inputs, n, j, s);
        assert ReportedLast(inputs, n + 1, j, s);
      }
    }
  }

  lemma {:induction false} DirectoryIsRight(inputs: seq<Input>, n: nat)
    requires n <= |inputs|
    ensures DirectoryOk(inputs, n, Exec(inputs[..n]).reg)
  {
    hide DirectoryOk, Exec, Step, Report, Ticked;
    if n == 0 {
      NothingReported(inputs);
      assert inputs[..0] == [];
    } else {
      DirectoryIsRight(inputs, n - 1);
      ExecNext(inputs, n - 1);
      RegistryStep(Exec(inputs[..n - 1]), inputs[n - 1]);
      DirectoryStep(inputs, n - 1, Exec(inputs[..n - 1]).reg, Exec(inputs[..n]).reg);
    }
  }

  lemma NothingReported(inputs: seq<Input>)
    ensures DirectoryOk(inputs, 0, START.reg) && Exec([]) == START
  {
  }

  lemma DirectoryStep(inputs: seq<Input>, k: nat, reg: Registry, next: Registry)
    requires k < |inputs| && reg.Valid() && DirectoryOk(inputs, k, reg)
    requires inputs[k].Heartbeat? ==> next == Report(reg, inputs[k].state)
    requires !inputs[k].Heartbeat? ==> next == reg || next == Ticked(reg, inputs[k].now)
    ensures DirectoryOk(inputs, k + 1, next)
  {
    hide LastReport, FoundStale;
    if inputs[k].Heartbeat? {
      NewReport(inputs, k);
    } else {
      NoNewReport(inputs, k);
      forall id | id in next.entries && next.entries[id].offline
        ensures FoundStale(inputs, k + 1, next.entries[id].lastSeen)
      {
        StaleNow(inputs, k, reg.entries[id].lastSeen);
      }
    }
  }

  lemma StaleNow(inputs: seq<Input>, k: nat, timestamp: int)
    requires k < |inputs| && !inputs[k].Heartbeat?
    ensures inputs[k].now - timestamp > OFFLINE_MS ==> FoundStale(inputs, k + 1, timestamp)
  {
  }

  // ----- who failed

  ghost predicate NamedInFailure(inputs: seq<Input>, n: nat, id: string, agent: string)
    requires n <= |inputs|
  {
    exists j :: 0 <= j < n && FailureOf(inputs, j, id, agent)
  }

  /** The `j`-th input reports a failure of `agent` on the existing mission. */
  predicate FailureOf(inputs: seq<Input>, j: nat, id: string, agent: string)
    requires j < |inputs|
  {
    inputs[j].Hear? && inputs[j].fb.IsFailure() && inputs[j].fb.missionId == id && inputs[j].fb.agentId == agent && Exists(inputs, j, id)
  }

  lemma AfterAddsFailed(m: MissionState, i: Input, reg: Registry)
    requires reg.Valid()
    ensures After(m, i, reg).0.target == m.target
    ensures After(m, i, reg).0.failedAgents
         == m.failedAgents + if i.Hear? && i.fb.missionId == m.id && i.fb.IsFailure() then {i.fb.agentId} else {}
  {
    hide Chosen, Ticked;
  }

  /** The excluded devices are exactly those named in an earlier failure of the mission. */
  lemma {:induction false} ExcludedAreNamed(inputs: seq<Input>, n: nat, id: string, agent: string)
    requires FreshMissions(inputs) && n <= |inputs| && Exists(inputs, n, id)
    ensures agent in At(inputs, n, id).failedAgents <==> NamedInFailure(inputs, n, id, agent)
  {
    hide Exec, After;
    if n > 0 {
      var k := n - 1;
      if Exists(inputs, k, id) {
        ExcludedAreNamed(inputs, k, id, agent);
        Continues(inputs, k, id);
        AfterAddsFailed(At(inputs, k, id), inputs[k], Exec(inputs[..k]).reg);
        assert NamedInFailure(inputs, n, id, agent) <==> NamedInFailure(inputs, k, id, agent) || FailureOf(inputs, k, id, agent);
      } else {
        NobodyNamed(inputs, n, id, agent);
      }
    } else {
      assert inputs[..0] == [];
      NothingExists(id);
    }
  }

  lemma NothingExists(id: string)
    ensures id !in Exec([]).missions
  {
  }

  lemma NobodyNamed(inputs: seq<Input>, n: nat, id: string, agent: string)
    requires FreshMissions(inputs) && 0 < n <= |inputs| && Exists(inputs, n, id) && !Exists(inputs, n - 1, id)
    ensures !NamedInFailure(inputs, n, id, agent) && agent !in At(inputs, n, id).failedAgents
  {
    hide Exec;
    if !Creates(inputs[n - 1], id) {
      UnknownStaysSilent(inputs, n - 1, id);
    } else {
      CreatedClean(inputs, n - 1, id);
      forall j | 0 <= j < n
        ensures !FailureOf(inputs, j, id, agent)
      {
        MissionsAreCreated(inputs[..j], id);
      }
    }
  }

  lemma CreatedClean(inputs: seq<Input>, k: nat, id: string)
    requires k < |inputs| && Creates(inputs[k], id)
    ensures Exists(inputs, k + 1, id) && At(inputs, k + 1, id).failedAgents == {} && At(inputs, k + 1, id).pickupTask == None
  {
    hide Exec, Chosen, Ticked;
    ExecNext(inputs, k);
  }

  // ----- the choice

  /** What an assignment needs: a report of at most five seconds ago of an available device with the
      capability, in the frame of the target. */
  predicate Fit(s: AgentState, now: int, target: Pose, t: TaskType) {
    now - s.timestamp <= OFFLINE_MS && IsAvailable(s, CapabilityOf(t)) && s.pose.value.frame == target.frame
  }

  ghost predicate NondecreasingClock(inputs: seq<Input>) {
    forall i, j :: 0 <= i <= j < |inputs| && !inputs[i].Heartbeat? && !inputs[j].Heartbeat? ==> inputs[i].now <= inputs[j].now
  }

  lemma ChosenBehind(w: World, i: Input, a: Published)
    requires w.reg.Valid() && a in Step(w, i).1 && a.Assign?
    requires forall id :: id in w.missions ==> w.missions[id].id == id
    ensures !i.Heartbeat? && a.missionId in Step(w, i).0.missions
    ensures var m := Step(w, i).0.missions[a.missionId]; var l := Listing(Ticked(w.reg, i.now).entries, w.reg.order);
            && m.target == a.target
            && Nearest(l, a.target, CapabilityOf(a.taskType), m.failedAgents).Some?
            && Nearest(l, a.target, CapabilityOf(a.taskType), m.failedAgents).value.agentId == a.agentId
  {
    hide Ticked, Listing, Nearest;
  }

  /** What the master sees at the `k`-th input. */
  ghost function SeenAt(inputs: seq<Input>, k: nat): seq<AgentState>
    requires k < |inputs| && !inputs[k].Heartbeat?
  {
    Listing(Ticked(Exec(inputs[..k]).reg, inputs[k].now).entries, Exec(inputs[..k]).reg.order)
  }

  /** A device seen as a candidate is fit. */
  lemma SeenIsFit(inputs: seq<Input>, k: nat, n: nat, target: Pose, t: TaskType, exclude: set<string>)
    requires k < |inputs| && !inputs[k].Heartbeat? && n < |SeenAt(inputs, k)|
    requires Candidate(SeenAt(inputs, k)[n], target, CapabilityOf(t), exclude)
    ensures var s := SeenAt(inputs, k)[n]; LastReport(inputs, k, s) && Fit(s, inputs[k].now, target, t)
  {
    hide LastReport, FoundStale, Exec, IsAvailable;
    DirectoryIsRight(inputs, k);
    var reg := Exec(inputs[..k]).reg;
    assert reg.order[n] in reg.entries;
    var e := Ticked(reg, inputs[k].now).entries[reg.order[n]];
    assert !e.offline && Shown(e) == e.state == reg.entries[reg.order[n]].state;
  }

  /** A fit device is seen as a candidate unless it is excluded. */
  lemma FitIsSeen(inputs: seq<Input>, k: nat, r: AgentState, target: Pose, t: TaskType, exclude: set<string>) returns (i: nat)
    requires k < |inputs| && !inputs[k].Heartbeat? && NondecreasingClock(inputs)
    requires LastReport(inputs, k, r) && Fit(r, inputs[k].now, target, t) && r.agentId !in exclude
    ensures i < |SeenAt(inputs, k)| && SeenAt(inputs, k)[i] == r && Candidate(r, target, CapabilityOf(t), exclude)
  {
    hide LastReport, FoundStale, Exec, IsAvailable, NondecreasingClock;
    DirectoryIsRight(inputs, k);
    var reg := Exec(inputs[..k]).reg;
    assert r.agentId in reg.order;
    i :| 0 <= i < |reg.order| && reg.order[i] == r.agentId;
    NotFlagged(inputs, k, reg.entries[r.agentId]);
    AvailableIsOnline(r, CapabilityOf(t));
  }

  /** Among fit devices not excluded, the first minimum of the listing is nearest. */
  lemma NearestIsFit(inputs: seq<Input>, k: nat, target: Pose, t: TaskType, exclude: set<string>) returns (s: AgentState)
    requires k < |inputs| && !inputs[k].Heartbeat? && NondecreasingClock(inputs)
    requires Nearest(SeenAt(inputs, k), target, CapabilityOf(t), exclude).Some?
    ensures Nearest(SeenAt(inputs, k), target, CapabilityOf(t), exclude) == Some(s)
    ensures LastReport(inputs, k, s) && Fit(s, inputs[k].now, target, t) && s.agentId !in exclude
    ensures forall r :: LastReport(inputs, k, r) && Fit(r, inputs[k].now, target, t) && r.agentId !in exclude ==> Distance2(s, target) <= Distance2(r, target)
  {
    hide LastReport, Distance2, Nearest, NondecreasingClock, SeenAt;
    var l := SeenAt(inputs, k);
    NearestIsFirstMinimum(l, target, CapabilityOf(t), exclude);
    s := Nearest(l, target, CapabilityOf(t), exclude).value;
    var n :| 0 <= n < |l| && l[n] == s && IsFirstMinimum(l, n, target, CapabilityOf(t), exclude);
    SeenIsFit(inputs, k, n, target, t, exclude);
    forall r | LastReport(inputs, k, r) && Fit(r, inputs[k].now, target, t) && r.agentId !in exclude
      ensures Distance2(s, target) <= Distance2(r, target)
    {
      var i := FitIsSeen(inputs, k, r, target, t, exclude);
    }
  }

  lemma AvailableIsOnline(s: AgentState, capability: string)
    requires IsAvailable(s, capability)
    ensures s.work != Offline
  {
  }

  lemma NotFlagged(inputs: seq<Input>, k: nat, e: Entry)
    requires k < |inputs| && !inputs[k].Heartbeat? && NondecreasingClock(inputs)
    requires e.offline ==> FoundStale(inputs, k, e.lastSeen)
    requires inputs[k].now - e.lastSeen <= OFFLINE_MS
    ensures !Flagged(e, inputs[k].now).offline
  {
  }

  /** Every assignment of every run goes to a device that no earlier failure of the mission names,
      whose last report is at most five seconds old, available, capable, in the target's frame; and no
      other such device is nearer. */
  lemma SelectionIsSound(inputs: seq<Input>, k: nat, a: Published)
    requires FreshMissions(inputs) && NondecreasingClock(inputs) && k < |inputs| && a in OutAt(inputs, k) && a.Assign?
    ensures !inputs[k].Heartbeat? && !NamedInFailure(inputs, k + 1, a.missionId, a.agentId)
    ensures exists s: AgentState :: s.agentId == a.agentId && LastReport(inputs, k, s) && Fit(s, inputs[k].now, a.target, a.taskType)
              && forall r :: LastReport(inputs, k, r) && Fit(r, inputs[k].now, a.target, a.taskType)
                             && !NamedInFailure(inputs, k + 1, a.missionId, r.agentId)
                             ==> Distance2(s, a.target) <= Distance2(r, a.target)
  {
    hide LastReport, Exec, Distance2, NondecreasingClock, NamedInFailure, Nearest, Listing, Step;
    var w := Exec(inputs[..k]);
    forall id | id in w.missions
      ensures w.missions[id].id == id
    {
      MissionsAreCreated(inputs[..k], id);
    }
    ChosenBehind(w, inputs[k], a);
    assert SeenAt(inputs, k) == Listing(Ticked(w.reg, inputs[k].now).entries, w.reg.order);
    ExecNext(inputs, k);
    var m := At(inputs, k + 1, a.missionId);
    var s := NearestIsFit(inputs, k, a.target, a.taskType, m.failedAgents);
    forall agent
      ensures agent in m.failedAgents <==> NamedInFailure(inputs, k + 1, a.missionId, agent)
    {
      ExcludedAreNamed(inputs, k + 1, a.missionId, agent);
    }
  }
}
