/** Whole runs of the master agent: any number of missions and devices, any order of state reports,
    feedback and inspection results. Mission ids are fresh. */
module MissionRuns {
  import opened DeviceRegistries
  import opened MissionControl

  datatype World = World(reg: Registry, missions: map<string, MissionState>)

  datatype Input =
    | Heartbeat(state: AgentState)
    | Tick(now: int)
    | Create(id: string, target: Pose, now: int, newTask: string)
    | Hear(fb: Feedback, now: int, newTask: string)
    | Judge(id: string, garbage: bool, now: int, newTask: string)

  const START := World(Registry([], map[]), map[])

  function Put(w: World, id: string, o: Outcome): (World, seq<Published>) {
    (World(o.reg, w.missions[id := o.m]), o.out)
  }

  function Step(w: World, i: Input): (World, seq<Published>)
    requires w.reg.Valid()
  {
    match i
    case Heartbeat(s) => (w.(reg := Report(w.reg, s)), [])
    case Tick(now) => (w.(reg := Ticked(w.reg, now)), [])
    case Create(id, target, now, newTask) => Put(w, id, AssignUav(New(id, target), w.reg, now, newTask))
    case Hear(fb, now, newTask) =>
      if fb.missionId !in w.missions then (w, [])
      else Put(w, fb.missionId, FeedbackOutcome(w.missions[fb.missionId], fb, w.reg, now, newTask))
    case Judge(id, garbage, now, newTask) =>
      if id !in w.missions then (w, []) else Put(w, id, InspectionOutcome(w.missions[id], garbage, w.reg, now, newTask))
  }

  lemma StepKeepsValid(w: World, i: Input)
    requires w.reg.Valid()
    ensures Step(w, i).0.reg.Valid()
    ensures Step(w, i).0.reg == w.reg || i.Heartbeat? || Step(w, i).0.reg == Ticked(w.reg, i.now)
  {
    hide Chosen;
  }

  function Exec(inputs: seq<Input>): (w: World)
    ensures w.reg.Valid()
  {
    if |inputs| == 0 then START
    else
      var before, last := Exec(inputs[..|inputs| - 1]), inputs[|inputs| - 1];
      StepKeepsValid(before, last);
      Step(before, last).0
  }

  /** What the `k`-th input makes the master publish. */
  function OutAt(inputs: seq<Input>, k: nat): seq<Published>
    requires k < |inputs|
  {
    Step(Exec(inputs[..k]), inputs[k]).1
  }

  ghost predicate FreshMissions(inputs: seq<Input>) {
    forall i, j :: 0 <= i < j < |inputs| && inputs[i].Create? && inputs[j].Create? ==> inputs[i].id != inputs[j].id
  }

  lemma {:induction false} MissionsAreCreated(inputs: seq<Input>, id: string)
    ensures id in Exec(inputs).missions <==> exists i :: 0 <= i < |inputs| && inputs[i].Create? && inputs[i].id == id
    ensures id in Exec(inputs).missions ==> Exec(inputs).missions[id].id == id
  {
    hide AssignUav, FeedbackOutcome, InspectionOutcome;
    if |inputs| > 0 {
      var init, last := inputs[..|inputs| - 1], inputs[|inputs| - 1];
      MissionsAreCreated(init, id);
      OutcomesKeepIds(Exec(init), last);
      assert forall i :: 0 <= i < |init| ==> init[i] == inputs[i];
      if last.Create? && last.id == id {
        assert inputs[|init|].Create?;
      }
    }
  }

  lemma OutcomesKeepIds(w: World, i: Input)
    requires w.reg.Valid()
    ensures i.Create? ==> AssignUav(New(i.id, i.target), w.reg, i.now, i.newTask).m.id == i.id
    ensures i.Hear? && i.fb.missionId in w.missions ==> FeedbackOutcome(w.missions[i.fb.missionId], i.fb, w.reg, i.now, i.newTask).m.id == w.missions[i.fb.missionId].id
    ensures i.Judge? && i.id in w.missions ==> InspectionOutcome(w.missions[i.id], i.garbage, w.reg, i.now, i.newTask).m.id == w.missions[i.id].id
  {
    hide Chosen, Ticked;
  }

  // ----- what one mission does

  /** The input creates the mission. */
  predicate Creates(i: Input, id: string) {
    i.Create? && i.id == id
  }

  /** The mission after an input that does not create it, and what is published about it. */
  function After(m: MissionState, i: Input, reg: Registry): (MissionState, seq<Published>)
    requires reg.Valid()
  {
    match i
    case Hear(fb, now, newTask) =>
      if fb.missionId == m.id then (FeedbackOutcome(m, fb, reg, now, newTask).m, FeedbackOutcome(m, fb, reg, now, newTask).out) else (m, [])
    case Judge(id, garbage, now, newTask) =>
      if id == m.id then (InspectionOutcome(m, garbage, reg, now, newTask).m, InspectionOutcome(m, garbage, reg, now, newTask).out) else (m, [])
    case _ => (m, [])
  }

  predicate About(p: Published, id: string) {
    p.missionId == id
  }

  /** A step does to each mission what `After` says, and publishes nothing else about it. */
  lemma StepOnMission(inputs: seq<Input>, k: nat, id: string)
    requires k < |inputs| && id in Exec(inputs[..k]).missions && !Creates(inputs[k], id)
    ensures Exec(inputs[..k]).missions[id].id == id
    ensures id in Exec(inputs[..k + 1]).missions
    ensures var a := After(Exec(inputs[..k]).missions[id], inputs[k], Exec(inputs[..k]).reg);
            Exec(inputs[..k + 1]).missions[id] == a.0 && forall p :: p in OutAt(inputs, k) && About(p, id) <==> p in a.1
  {
    hide AssignUav, FeedbackOutcome, InspectionOutcome, Exec;
    MissionsAreCreated(inputs[..k], id);
    ExecNext(inputs, k);
    var w, i := Exec(inputs[..k]), inputs[k];
    if i.Hear? && i.fb.missionId in w.missions {
      MissionsAreCreated(inputs[..k], i.fb.missionId);
      AllAbout(w.missions[i.fb.missionId], i, w.reg);
      assert OutAt(inputs, k) == After(w.missions[i.fb.missionId], i, w.reg).1;
    } else if i.Judge? && i.id in w.missions {
      MissionsAreCreated(inputs[..k], i.id);
      AllAbout(w.missions[i.id], i, w.reg);
      assert OutAt(inputs, k) == After(w.missions[i.id], i, w.reg).1;
    } else if i.Create? {
      CreationAbout(i, w.reg);
    }
  }

  lemma ExecNext(inputs: seq<Input>, k: nat)
    requires k < |inputs|
    ensures Exec(inputs[..k + 1]) == Step(Exec(inputs[..k]), inputs[k]).0
  {
    assert inputs[..k + 1][..k] == inputs[..k];
  }

  lemma AllAbout(m: MissionState, i: Input, reg: Registry)
    requires reg.Valid()
    ensures forall p :: p in After(m, i, reg).1 ==> About(p, m.id)
  {
    hide Chosen, Ticked;
  }

  lemma CreationAbout(i: Input, reg: Registry)
    requires i.Create? && reg.Valid()
    ensures forall p :: p in AssignUav(New(i.id, i.target), reg, i.now, i.newTask).out ==> About(p, i.id)
  {
    hide Chosen, Ticked;
  }
}
