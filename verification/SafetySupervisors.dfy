/** `SafetySupervisor` of safety_supervisor.py. An age that is missing or not a finite number is
    `None` and counts as infinite. Messages are left out of decisions. */
module SafetySupervisors {
  import opened Wrappers

  datatype Action = Nothing | Warn | RejectNewTask | HoldPosition | ReturnHome | LandNow | ManualTakeover

  datatype Decision = Decision(action: Action, code: string, severity: string, latched: bool) {
    /** The actions that end the flight. */
    predicate Final() {
      action in {ReturnHome, LandNow, ManualTakeover}
    }
  }

  datatype Thresholds = Thresholds(taskMin: real, returnHome: real, critical: real, batteryStale: real, positionWarning: real,
                                   positionFailure: real, maxJump: real, stable: real, coordinatorWarning: real, coordinatorFailure: real,
                                   fcuWarning: real, fcuFailure: real, blindLanding: bool) {
    /** What `__post_init__` accepts. */
    predicate Valid() {
      && 0.0 <= critical < returnHome < taskMin <= 100.0
      && batteryStale >= 0.0 && positionWarning >= 0.0 && positionFailure >= 0.0 && maxJump >= 0.0 && stable >= 0.0
      && coordinatorWarning >= 0.0 && coordinatorFailure >= 0.0 && fcuWarning >= 0.0 && fcuFailure >= 0.0
    }
  }

  /** `__post_init__`; `false` stands for the exception. */
  method PostInit(th: Thresholds) returns (accepted: bool)
    ensures accepted <==> th.Valid()
    ensures accepted <==>
              && 0.0 <= th.critical < th.returnHome < th.taskMin <= 100.0
              && th.batteryStale >= 0.0 && th.positionWarning >= 0.0 && th.positionFailure >= 0.0 && th.maxJump >= 0.0 && th.stable >= 0.0
              && th.coordinatorWarning >= 0.0 && th.coordinatorFailure >= 0.0 && th.fcuWarning >= 0.0 && th.fcuFailure >= 0.0
  {
    if !(0.0 <= th.critical < th.returnHome < th.taskMin <= 100.0) {
      return false;
    }
    var values := [th.taskMin, th.returnHome, th.critical, th.batteryStale, th.positionWarning, th.positionFailure, th.maxJump, th.stable,
                   th.coordinatorWarning, th.coordinatorFailure, th.fcuWarning, th.fcuFailure];
    for k := 0 to |values|
      invariant forall i :: 0 <= i < k ==> values[i] >= 0.0
    {
      if values[k] < 0.0 {
        return false;
      }
    }
    assert values[3] >= 0.0 && values[4] >= 0.0 && values[5] >= 0.0 && values[6] >= 0.0 && values[7] >= 0.0;
    assert values[8] >= 0.0 && values[9] >= 0.0 && values[10] >= 0.0 && values[11] >= 0.0;
    accepted := true;
  }

  datatype Point3 = Point3(x: real, y: real, z: real)

  datatype RawPoint = RawPoint(x: Option<real>, y: Option<real>, z: Option<real>)

  /** One telemetry sample; `declared` is the entry `position_valid`, a missing or empty pose is `None`. */
  datatype Sample = Sample(pose: Option<RawPoint>, position: Option<RawPoint>, declared: Option<bool>, positionAge: Option<real>,
                           battery: Option<real>, batteryAge: Option<real>, fcuAge: Option<real>, coordinatorAge: Option<real>)

  datatype State = State(latched: Option<Decision>, last: Option<Point3>, since: Option<real>)

  const CLEAR := State(None, None, None)

  function Position(s: Sample): Option<Point3> {
    var raw := if s.pose.Some? then s.pose else s.position;
    if raw.Some? && raw.value.x.Some? && raw.value.y.Some? && raw.value.z.Some?
    then Some(Point3(raw.value.x.value, raw.value.y.value, raw.value.z.value))
    else None
  }

  /** `age >= limit`, negative ages counting as zero. */
  predicate Reaches(age: Option<real>, limit: real) {
    age == None || (if age.value < 0.0 then 0.0 else age.value) >= limit
  }

  predicate Jumps(th: Thresholds, a: Point3, b: Point3) {
    (a.x - b.x) * (a.x - b.x) + (a.y - b.y) * (a.y - b.y) + (a.z - b.z) * (a.z - b.z) > th.maxJump * th.maxJump
  }

  /** The sample carries a position, does not declare it invalid, and is recent. */
  predicate Fresh(th: Thresholds, s: Sample) {
    Position(s).Some? && s.declared != Some(false) && !Reaches(s.positionAge, th.positionFailure)
  }

  const OK := "POSITION_OK"

  /** `_position_health`: the new state and the verdict. */
  function Health(th: Thresholds, st: State, s: Sample, now: real): (State, string) {
    var p := Position(s);
    if p == None || s.declared == Some(false) then (st.(since := None), "POSITION_INVALID")
    else if Reaches(s.positionAge, th.positionFailure) then (st.(since := None), "POSITION_STALE")
    else if st.last.Some? && Jumps(th, st.last.value, p.value) then (st.(since := None, last := p), "POSITION_JUMP")
    else
      var since := if st.since == None then now else st.since.value;
      (st.(last := p, since := Some(since)), if now - since < th.stable then "POSITION_RECOVERING" else OK)
  }

  function Latched(st: State, d: Decision): (State, Decision) {
    if st.latched.Some? then (st, st.latched.value.(latched := true)) else (st.(latched := Some(d)), d)
  }

  function Plain(action: Action, code: string, severity: string): Decision {
    Decision(action, code, severity, false)
  }

  function Warnings(th: Thresholds, s: Sample): seq<string> {
    (if Reaches(s.batteryAge, th.batteryStale) then ["BATTERY_STATUS_STALE"] else [])
    + (if Reaches(s.positionAge, th.positionWarning) then ["POSITION_DELAYED"] else [])
    + (if Reaches(s.fcuAge, th.fcuWarning) then ["FCU_LINK_DELAYED"] else [])
    + (if Reaches(s.coordinatorAge, th.coordinatorWarning) then ["COORDINATOR_LINK_DELAYED"] else [])
  }

  function Joined(parts: seq<string>): string {
    if |parts| == 0 then "" else if |parts| == 1 then parts[0] else parts[0] + "+" + Joined(parts[1..])
  }

  /** Decisions that are never latched: on the ground, or with nothing seriously wrong. */
  function Routine(th: Thresholds, s: Sample, code: string, accepting: bool): Decision {
    if accepting && (Reaches(s.batteryAge, th.batteryStale) || s.battery == None) then Plain(RejectNewTask, "BATTERY_STATUS_UNKNOWN", "L2")
    else if accepting && s.battery.value < th.taskMin then Plain(RejectNewTask, "LOW_BATTERY", "L2")
    else if accepting && code != OK then Plain(RejectNewTask, code, "L2")
    else if Warnings(th, s) != [] then Plain(Warn, Joined(Warnings(th, s)), "L1")
    else Plain(Nothing, "OK", "L0")
  }

  predicate AtMost(value: Option<real>, limit: real) {
    value.Some? && value.value <= limit
  }

  /** The decision of highest priority, before latching. */
  function Verdict(th: Thresholds, s: Sample, code: string, airborne: bool, accepting: bool): Decision {
    if Reaches(s.fcuAge, th.fcuFailure) then
      if airborne then Plain(ManualTakeover, "FCU_LINK_LOST", "L3") else Plain(RejectNewTask, "FCU_LINK_LOST", "L2")
    else if AtMost(s.battery, th.critical) then
      if airborne && (code == OK || th.blindLanding) then Plain(LandNow, "CRITICAL_BATTERY", "L4")
      else if airborne then Plain(ManualTakeover, "CRITICAL_BATTERY_POSITION_UNSAFE", "L4")
      else Plain(RejectNewTask, "CRITICAL_BATTERY", "L2")
    else if airborne && code != OK then
      if code == "POSITION_RECOVERING" || !Reaches(s.positionAge, th.positionFailure) then Plain(HoldPosition, code, "L1")
      else Plain(ManualTakeover, code, "L3")
    else if AtMost(s.battery, th.returnHome) then
      if airborne then Plain(ReturnHome, "LOW_BATTERY_RETURN", "L2") else Plain(RejectNewTask, "LOW_BATTERY", "L2")
    else if Reaches(s.coordinatorAge, th.coordinatorFailure) then
      if airborne then Plain(ReturnHome, "COORDINATOR_LINK_LOST", "L2") else Plain(RejectNewTask, "COORDINATOR_LINK_LOST", "L2")
    else Routine(th, s, code, accepting)
  }

  /** `evaluate`: a final verdict is latched, or replaced by the one that was. */
  function Evaluated(th: Thresholds, st: State, s: Sample, now: real, airborne: bool, accepting: bool): (State, Decision) {
    var h := Health(th, st, s, now);
    var d := Verdict(th, s, h.1, airborne, accepting);
    if d.Final() then Latched(h.0, d) else (h.0, d)
  }

  class SafetySupervisor {
    const thresholds: Thresholds
    var latched: Option<Decision>
    var last: Option<Point3>
    var since: Option<real>

    function View(): State
      reads this
    {
      State(latched, last, since)
    }

    constructor (thresholds: Thresholds)
      requires thresholds.Valid()
      ensures this.thresholds == thresholds && View() == CLEAR
    {
      this.thresholds, latched, last, since := thresholds, None, None, None;
    }

    method ResetAfterSafeLanding()
      modifies this
      ensures View() == CLEAR
    {
      latched, last, since := None, None, None;
    }

    method Latch(d: Decision) returns (r: Decision)
      modifies this`latched
      ensures (View(), r) == Latched(old(View()), d)
    {
      if latched.Some? {
        return Decision(latched.value.action, latched.value.code, latched.value.severity, true);
      }
      latched := Some(d);
      r := d;
    }

    method PositionHealth(s: Sample, now: real) returns (ok: bool, code: string)
      modifies this`last, this`since
      ensures (View(), code) == Health(thresholds, old(View()), s, now)
      ensures ok == (code == OK)
    {
      var position := Position(s);
      var declared := if s.declared.Some? then s.declared.value else position.Some?;
      if !declared || position == None {
        since := None;
        return false, "POSITION_INVALID";
      }
      if Reaches(s.positionAge, thresholds.positionFailure) {
        since := None;
        return false, "POSITION_STALE";
      }
      if last.Some? && Jumps(thresholds, last.value, position.value) {
        since := None;
        last := position;
        return false, "POSITION_JUMP";
      }
      last := position;
      if since == None {
        since := Some(now);
      }
      if now - since.value < thresholds.stable {
        return false, "POSITION_RECOVERING";
      }
      ok, code := true, OK;
    }

    method Evaluate(s: Sample, now: real, airborne: bool, accepting: bool) returns (d: Decision)
      modifies this
      ensures (View(), d) == Evaluated(thresholds, old(View()), s, now, airborne, accepting)
    {
      hide Health, Reaches, Routine;
      var ok, code := PositionHealth(s, now);
      if Reaches(s.fcuAge, thresholds.fcuFailure) {
        d := if airborne then Plain(ManualTakeover, "FCU_LINK_LOST", "L3") else Plain(RejectNewTask, "FCU_LINK_LOST", "L2");
        if airborne {
          d := Latch(d);
        }
        return;
      }
      if s.battery.Some? && s.battery.value <= thresholds.critical {
        if airborne && (ok || thresholds.blindLanding) {
          d := Latch(Plain(LandNow, "CRITICAL_BATTERY", "L4"));
          return;
        }
        if airborne {
          d := Latch(Plain(ManualTakeover, "CRITICAL_BATTERY_POSITION_UNSAFE", "L4"));
        } else {
          d := Plain(RejectNewTask, "CRITICAL_BATTERY", "L2");
        }
        return;
      }
      if airborne && !ok {
        if code == "POSITION_RECOVERING" || !Reaches(s.positionAge, thresholds.positionFailure) {
          return Plain(HoldPosition, code, "L1");
        }
        d := Latch(Plain(ManualTakeover, code, "L3"));
        return;
      }
      if s.battery.Some? && s.battery.value <= thresholds.returnHome {
        if airborne {
          d := Latch(Plain(ReturnHome, "LOW_BATTERY_RETURN", "L2"));
          return;
        }
        return Plain(RejectNewTask, "LOW_BATTERY", "L2");
      }
      if Reaches(s.coordinatorAge, thresholds.coordinatorFailure) {
        if airborne {
          d := Latch(Plain(ReturnHome, "COORDINATOR_LINK_LOST", "L2"));
          return;
        }
        return Plain(RejectNewTask, "COORDINATOR_LINK_LOST", "L2");
      }
      d := RoutineDecision(s, ok, code, accepting);
      RoutineIsNotFinal(thresholds, s, code, accepting);
    }

    method RoutineDecision(s: Sample, ok: bool, code: string, accepting: bool) returns (d: Decision)
      requires ok == (code == OK)
      ensures d == Routine(thresholds, s, code, accepting)
    {
      hide Reaches, Joined;
      if accepting {
        if Reaches(s.batteryAge, thresholds.batteryStale) || s.battery == None {
          return Plain(RejectNewTask, "BATTERY_STATUS_UNKNOWN", "L2");
        }
        if s.battery.value < thresholds.taskMin {
          return Plain(RejectNewTask, "LOW_BATTERY", "L2");
        }
        if !ok {
          return Plain(RejectNewTask, code, "L2");
        }
      }
      var warnings: seq<string> := [];
      if Reaches(s.batteryAge, thresholds.batteryStale) {
        warnings := warnings + ["BATTERY_STATUS_STALE"];
      }
      if Reaches(s.positionAge, thresholds.positionWarning) {
        warnings := warnings + ["POSITION_DELAYED"];
      }
      if Reaches(s.fcuAge, thresholds.fcuWarning) {
        warnings := warnings + ["FCU_LINK_DELAYED"];
      }
      if Reaches(s.coordinatorAge, thresholds.coordinatorWarning) {
        warnings := warnings + ["COORDINATOR_LINK_DELAYED"];
      }
      assert warnings == Warnings(thresholds, s);
      if warnings != [] {
        return Plain(Warn, Joined(warnings), "L1");
      }
      d := Plain(Nothing, "OK", "L0");
    }
  }

  lemma RoutineIsNotFinal(th: Thresholds, s: Sample, code: string, accepting: bool)
    ensures !Routine(th, s, code, accepting).Final()
  {
  }
}
