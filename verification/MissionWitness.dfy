/** Runs that show the bounds are met and a promise is not. */
module MissionWitness {
  import opened Wrappers
  import opened DeviceRegistries
  import opened MissionControl
  import opened MissionRuns
  import opened MissionBounds

  const HERE := Pose("map", 0.0, 0.0, 0.0)
  const UAV := AgentState("u", 0, true, Idle, Some(HERE), true, true, ["INSPECT"])
  const UGV := AgentState("g", 0, true, Idle, Some(HERE), true, true, ["PICKUP"])
  const READY := Registry(["u", "g"], map["u" := Entry(UAV, 0, false), "g" := Entry(UGV, 0, false)])

  /** The `n`-th of a supply of task ids. */
  function Mark(n: nat): string {
    seq(n, _ => 'i')
  }

  const START_UP := [Heartbeat(UAV), Heartbeat(UGV), Create("m", HERE, 0, Mark(1))]
  const NAMELESS := Hear(Feedback("m", None, "x", TaskFailed, None), 0, Mark(2))

  /** The id of the inspection assigned after `k` reassignments. */
  function Inspection(k: nat): string {
    Mark(3 * k + 1)
  }

  function Captured(k: nat): Input {
    Hear(Feedback("m", Some(Inspection(k)), "u", ImageCaptured, None), 0, Mark(3 * k + 2))
  }

  function ConfirmedBy(k: nat): Input {
    Judge("m", true, 0, Mark(3 * k + 3))
  }

  function FailedLate(k: nat): Input {
    Hear(Feedback("m", Some(Inspection(k)), "x", TaskFailed, None), 0, Inspection(k + 1))
  }

  // ----- every input brings its own task id

  function NewTask(i: Input): Option<string> {
    if i.Create? || i.Hear? || i.Judge? then Some(i.newTask) else None
  }

  /** No task id is offered twice. */
  ghost predicate FreshTasks(inputs: seq<Input>) {
    forall i, j :: 0 <= i < j < |inputs| && NewTask(inputs[i]).Some? ==> NewTask(inputs[i]) != NewTask(inputs[j])
  }

  /** The ids grow longer, up to length `n`. */
  ghost predicate Growing(inputs: seq<Input>, n: nat) {
    && (forall i :: 0 <= i < |inputs| && NewTask(inputs[i]).Some? ==> |NewTask(inputs[i]).value| <= n)
    && forall i, j :: 0 <= i < j < |inputs| && NewTask(inputs[i]).Some? && NewTask(inputs[j]).Some?
                      ==> |NewTask(inputs[i]).value| < |NewTask(inputs[j]).value|
  }

  lemma GrowsBy(inputs: seq<Input>, i: Input, n: nat)
    requires Growing(inputs, n) && NewTask(i) == Some(Mark(n + 1))
    ensures Growing(inputs + [i], n + 1)
  {
  }

  lemma GrowingIsFresh(inputs: seq<Input>, n: nat)
    requires Growing(inputs, n)
    ensures FreshTasks(inputs)
  {
  }

  lemma Snoc(s: seq<Input>, i: Input, id: string, t: TaskType)
    ensures Exec(s + [i]) == Step(Exec(s), i).0
    ensures Tally(s + [i], id, t) == Tally(s, id, t) + One(Assigns(Step(Exec(s), i).1, id, t))
  {
    assert (s + [i])[..|s|] == s;
    TallyNext(s + [i], id, t);
  }

  lemma ReadyHolds()
    ensures READY.Valid() && Ticked(READY, 0) == READY
    ensures Listing(READY.entries, READY.order) == [UAV, UGV]
  {
  }

  lemma Choice(m: MissionState)
    requires m.target == HERE && m.failedAgents <= {"x"}
    ensures READY.Valid()
    ensures Chosen(m, READY, InspectTarget, 0) == Some(UAV) && Chosen(m, READY, PickupAndDeliver, 0) == Some(UGV)
  {
    ReadyHolds();
    assert [UAV, UGV][..1] == [UAV] && [UAV][..0] == [];
    forall capability
      ensures Nearest([], HERE, capability, m.failedAgents) == None
    {
    }
    assert Nearest([UAV], HERE, "INSPECT", m.failedAgents) == Some(UAV);
    assert Nearest([UAV], HERE, "PICKUP", m.failedAgents) == None;
  }

  /** Waiting for the inspection, with `k` reassignments behind it. */
  predicate Inspecting(w: World, k: nat) {
    && w.reg == READY && w.missions.Keys == {"m"}
    && w.missions["m"].id == "m" && w.missions["m"].target == HERE && w.missions["m"].phase == UavAssigned
    && w.missions["m"].inspectTask == Some(Inspection(k)) && w.missions["m"].failedAgents <= {"x"} && w.missions["m"].reassigns == k
  }

  /** A report publishes nothing. */
  lemma Reported(s: seq<Input>, d: AgentState)
    ensures Exec(s + [Heartbeat(d)]) == Exec(s).(reg := Report(Exec(s).reg, d))
    ensures forall t :: Tally(s + [Heartbeat(d)], "m", t) == Tally(s, "m", t)
  {
    hide Exec, Tally, Assigns;
    forall t
      ensures Tally(s + [Heartbeat(d)], "m", t) == Tally(s, "m", t)
    {
      Snoc(s, Heartbeat(d), "m", t);
      Singleton(Result("m", true), "m", t);
    }
    Snoc(s, Heartbeat(d), "m", InspectTarget);
  }

  lemma BothReported()
    ensures Exec([Heartbeat(UAV), Heartbeat(UGV)]) == World(READY, map[])
    ensures forall t :: Tally([Heartbeat(UAV), Heartbeat(UGV)], "m", t) == 0
  {
    var none: seq<Input> := [];
    Reported(none, UAV);
    Reported([Heartbeat(UAV)], UGV);
    assert none + [Heartbeat(UAV)] == [Heartbeat(UAV)];
    assert [Heartbeat(UAV)] + [Heartbeat(UGV)] == [Heartbeat(UAV), Heartbeat(UGV)];
    assert Exec(none) == START && forall t :: Tally(none, "m", t) == 0;
  }

  lemma StartUp()
    ensures Inspecting(Exec(START_UP), 0) && Exec(START_UP).missions["m"].pickupTask == None
    ensures Tally(START_UP, "m", InspectTarget) == 1 && Tally(START_UP, "m", PickupAndDeliver) == 0
  {
    hide Exec, Tally, Chosen, Assigns;
    BothReported();
    ReadyHolds();
    Choice(New("m", HERE));
    var two := [Heartbeat(UAV), Heartbeat(UGV)];
    assert two + [Create("m", HERE, 0, Mark(1))] == START_UP;
    Snoc(two, Create("m", HERE, 0, Mark(1)), "m", InspectTarget);
    Snoc(two, Create("m", HERE, 0, Mark(1)), "m", PickupAndDeliver);
    var p := Assign("m", Mark(1), "u", InspectTarget, HERE);
    Singleton(p, "m", InspectTarget);
    Singleton(p, "m", PickupAndDeliver);
  }

  /** Picture, confirmation: the pickup is assigned. */
  lemma Confirm(s: seq<Input>, k: nat)
    requires Inspecting(Exec(s), k)
    ensures var c := s + [Captured(k)] + [ConfirmedBy(k)];
            && Exec(c).reg == READY && Exec(c).missions.Keys == {"m"}
            && Exec(c).missions["m"] == Exec(s).missions["m"].(phase := UgvAssigned, pickupTask := Some(Mark(3 * k + 3)), ugv := Some("g"), garbage := Some(true),
                                                              imageUrl := Exec(c).missions["m"].imageUrl, events := Exec(c).missions["m"].events)
            && Tally(c, "m", InspectTarget) == Tally(s, "m", InspectTarget)
            && Tally(c, "m", PickupAndDeliver) == Tally(s, "m", PickupAndDeliver) + 1
  {
    hide Exec, Tally, Chosen, Assigns;
    ReadyHolds();
    var s1 := s + [Captured(k)];
    Snoc(s, Captured(k), "m", InspectTarget);
    Snoc(s, Captured(k), "m", PickupAndDeliver);
    var p := Assign("m", Mark(3 * k + 3), "g", PickupAndDeliver, HERE);
    Singleton(p, "m", InspectTarget);
    Singleton(p, "m", PickupAndDeliver);
    var m := Exec(s1).missions["m"];
    Choice(m.(garbage := Some(true), events := m.events + ["inspection_confirmed"]));
    Snoc(s1, ConfirmedBy(k), "m", InspectTarget);
    Snoc(s1, ConfirmedBy(k), "m", PickupAndDeliver);
  }

  /** Late failure of the inspection: it is assigned again. */
  lemma Retry(s: seq<Input>, k: nat)
    requires k < 3 && Inspecting(Exec(s), k)
    ensures var r := s + [Captured(k)] + [ConfirmedBy(k)] + [FailedLate(k)];
            && Inspecting(Exec(r), k + 1)
            && Tally(r, "m", InspectTarget) == Tally(s, "m", InspectTarget) + 1
            && Tally(r, "m", PickupAndDeliver) == Tally(s, "m", PickupAndDeliver) + 1
  {
    hide Exec, Tally, Chosen, Assigns;
    ReadyHolds();
    Confirm(s, k);
    var c := s + [Captured(k)] + [ConfirmedBy(k)];
    var m := Exec(c).missions["m"];
    var p := Assign("m", Inspection(k + 1), "u", InspectTarget, HERE);
    Singleton(p, "m", InspectTarget);
    Singleton(p, "m", PickupAndDeliver);
    Choice(m.(failedAgents := m.failedAgents + {"x"}, reassigns := k + 1, events := m.events + ["task_failed"], phase := Created, inspectTask := None));
    Snoc(c, FailedLate(k), "m", InspectTarget);
    Snoc(c, FailedLate(k), "m", PickupAndDeliver);
  }

  function Rounds(k: nat): seq<Input> {
    if k == 0 then START_UP else Rounds(k - 1) + [Captured(k - 1)] + [ConfirmedBy(k - 1)] + [FailedLate(k - 1)]
  }

  lemma {:induction false} AfterRounds(k: nat)
    requires k <= 3
    ensures Inspecting(Exec(Rounds(k)), k)
    ensures Tally(Rounds(k), "m", InspectTarget) == k + 1 && Tally(Rounds(k), "m", PickupAndDeliver) == k
  {
    hide Exec, Tally, Inspecting;
    if k == 0 {
      StartUp();
    } else {
      AfterRounds(k - 1);
      Retry(Rounds(k - 1), k - 1);
    }
  }

  /** Only the third input creates a mission. */
  predicate OneCreation(s: seq<Input>) {
    |s| >= 3 && forall i :: 0 <= i < |s| && s[i].Create? ==> i == 2
  }

  lemma {:induction false} RoundsAreFresh(k: nat)
    ensures OneCreation(Rounds(k)) && Growing(Rounds(k), 3 * k + 1)
  {
    hide Growing;
    if k == 0 {
      StartGrows();
    } else {
      RoundsAreFresh(k - 1);
      var r := Rounds(k - 1);
      GrowsBy(r, Captured(k - 1), 3 * k - 2);
      GrowsBy(r + [Captured(k - 1)], ConfirmedBy(k - 1), 3 * k - 1);
      GrowsBy(r + [Captured(k - 1)] + [ConfirmedBy(k - 1)], FailedLate(k - 1), 3 * k);
    }
  }

  lemma StartGrows()
    ensures Growing(START_UP, 1)
  {
  }

  /** Both bounds are met by one run: four inspections and four pickups, each under its own id. */
  lemma EightAssignments() returns (inputs: seq<Input>)
    ensures FreshMissions(inputs) && FreshTasks(inputs)
    ensures Tally(inputs, "m", InspectTarget) == 4 && Tally(inputs, "m", PickupAndDeliver) == 4
  {
    hide Exec, Tally, Inspecting, Growing, FreshTasks, Rounds;
    AfterRounds(3);
    Confirm(Rounds(3), 3);
    RoundsAreFresh(3);
    inputs := Rounds(3) + [Captured(3)] + [ConfirmedBy(3)];
    GrowsBy(Rounds(3), Captured(3), 10);
    GrowsBy(Rounds(3) + [Captured(3)], ConfirmedBy(3), 11);
    GrowingIsFresh(inputs, 12);
  }
}
