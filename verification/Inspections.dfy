/** `InspectionBehavior` of inspect_target.py around an adapter any of whose calls may raise. Reading
    the state, setting the work state and asking for the pilot are assumed to succeed. */
module Inspections {
  import opened Wrappers
  import opened FlightPaths
  import opened InspectionPlans

  /** The adapter, the detector, the upload and the feedback callback, seen from the behaviour: what
      each reading shows, and whether the n-th call returns or raises. */
  class Adapter {
    const sensors: nat -> Sensors
    const answer: nat -> Try<()>
    var workState: WorkState
    var readings: nat
    var log: seq<Effect>

    constructor (sensors: nat -> Sensors, answer: nat -> Try<()>, workState: WorkState)
      ensures this.sensors == sensors && this.answer == answer && this.workState == workState && readings == 0 && log == []
    {
      this.sensors, this.answer, this.workState, readings, log := sensors, answer, workState, 0, [];
    }

    method ReadState() returns (s: Sensors)
      modifies this`readings
      ensures s == sensors(old(readings)) && readings == old(readings) + 1
    {
      s := sensors(readings);
      readings := readings + 1;
    }

    method Do(call: Call) returns (r: Try<()>)
      modifies this`log
      ensures r == answer(old(|log|)) && log == old(log) + [Effect(call, r.Done?)]
    {
      r := answer(|log|);
      log := log + [Effect(call, r.Done?)];
    }

    method SetWorkState(w: WorkState)
      modifies this`workState, this`log
      ensures workState == w && log == old(log) + [Effect(SetWork(w), true)]
    {
      workState := w;
      log := log + [Effect(SetWork(w), true)];
    }

    method RequestManualTakeover()
      modifies this`workState, this`log
      ensures workState == ManualControl && log == old(log) + [Effect(Takeover, true)]
    {
      workState := ManualControl;
      log := log + [Effect(Takeover, true)];
    }
  }

  datatype Report = Success | Failure(status: Status, code: string)

  class InspectionBehavior {
    const adapter: Adapter
    const safety: Safety
    const geometry: Geometry
    const detection: Detection
    var sequence: nat

    constructor (adapter: Adapter, safety: Safety, geometry: Geometry, detection: Detection)
      ensures this.adapter == adapter && this.safety == safety && this.geometry == geometry && this.detection == detection
    {
      this.adapter, this.safety, this.geometry, this.detection, sequence := adapter, safety, geometry, detection, 0;
    }

    /** The first `i` calls of the script return when made from the `start`-th call on. */
    ghost predicate Answered(start: nat, script: seq<Call>, i: nat) {
      i <= |script| && forall k :: 0 <= k < i ==> script[k].SetWork? || adapter.answer(start + k).Done?
    }

    /** The log shows the first `i` calls of the script, all returned. */
    ghost predicate Reached(before: seq<Effect>, script: seq<Call>, i: nat)
      reads adapter
    {
      Answered(|before|, script, i) && adapter.log == before + AllOk(script[..i])
    }

    ghost predicate StoppedAt(before: seq<Effect>, script: seq<Call>, i: nat, raised: bool)
      reads adapter
    {
      && Answered(|before|, script, i) && (raised ==> i < |script| && !script[i].SetWork? && !adapter.answer(|before| + i).Done?)
      && exists e :: adapter.log == before + e && Stopped(e, script, i, raised)
    }

    /** The next call of the script. */
    method Call(call: Call, ghost before: seq<Effect>, ghost script: seq<Call>, ghost i: nat) returns (r: Try<()>)
      requires Reached(before, script, i) && i < |script| && script[i] == call && !call.SetWork?
      modifies adapter`log
      ensures r.Done? ==> Reached(before, script, i + 1)
      ensures !r.Done? ==> StoppedAt(before, script, i, true) && r == adapter.answer(|before| + i)
    {
      r := adapter.Do(call);
      CallLogged(before, script, i, r.Done?);
    }

    /** One more call on the log. */
    lemma CallLogged(before: seq<Effect>, script: seq<Call>, i: nat, ok: bool)
      requires i < |script| && adapter.log == before + AllOk(script[..i]) + [Effect(script[i], ok)]
      requires Answered(|before|, script, i) && (ok <==> script[i].SetWork? || adapter.answer(|before| + i).Done?)
      ensures ok ==> Reached(before, script, i + 1)
      ensures !ok ==> StoppedAt(before, script, i, true)
    {
      if ok {
        assert AllOk(script[..i + 1]) == AllOk(script[..i]) + [Effect(script[i], true)];
      } else {
        var e := AllOk(script[..i]) + [Effect(script[i], false)];
        assert adapter.log == before + e && Stopped(e, script, i, true);
      }
    }

    method SetWork(w: WorkState, ghost before: seq<Effect>, ghost script: seq<Call>, ghost i: nat)
      requires Reached(before, script, i) && i < |script| && script[i] == InspectionPlans.SetWork(w)
      modifies adapter`log, adapter`workState
      ensures Reached(before, script, i + 1) && adapter.workState == w
    {
      adapter.SetWorkState(w);
      CallLogged(before, script, i, true);
    }

    method Feedback(status: Status, stage: string, progress: nat, ghost before: seq<Effect>, ghost script: seq<Call>, ghost i: nat) returns (r: Try<()>)
      requires Reached(before, script, i) && i < |script| && script[i] == Callback(status, stage, progress, sequence + 1)
      modifies this`sequence, adapter`log, adapter`readings
      ensures sequence == old(sequence) + 1 && adapter.readings == old(adapter.readings) + 1
      ensures r.Done? ==> Reached(before, script, i + 1)
      ensures !r.Done? ==> StoppedAt(before, script, i, true) && r == adapter.answer(|before| + i)
    {
      sequence := sequence + 1;
      var _ := adapter.ReadState();
      r := Call(Callback(status, stage, progress, sequence), before, script, i);
    }

    // ----- on the ground

    /** The first check that fails gives its code; the device is read only for a task that fits. */
    method RunPreflight(task: Task) returns (r: Try<()>)
      modifies adapter`readings
      ensures var fault := if TaskFits(task, safety) then DeviceFault(safety, adapter.sensors(old(adapter.readings)), adapter.workState)
                           else TaskFault(task, safety);
              r == if fault.Some? then Rejected(fault.value) else Done(())
      ensures r.Done? <==> TaskFits(task, safety) && DeviceReady(safety, adapter.sensors(old(adapter.readings)), adapter.workState)
      ensures !r.Raised? && (r.Done? ==> adapter.readings == old(adapter.readings) + 1)
      ensures !r.Done? ==> PreflightCode(task, safety, adapter.sensors(old(adapter.readings)), adapter.workState, r.code)
      ensures r.Done? ==> forall code :: !PreflightCode(task, safety, adapter.sensors(old(adapter.readings)), adapter.workState, code)
      ensures TaskFits(task, safety) && adapter.sensors(old(adapter.readings)).online && adapter.workState != Idle ==> r == Rejected("DEVICE_BUSY")
    {
      if task.agent != safety.agent {
        return Rejected("WRONG_AGENT");
      }
      if task.kind != "INSPECT_TARGET" {
        return Rejected("UNSUPPORTED_TASK");
      }
      if task.targetLabel == "" {
        return Rejected("TARGET_LABEL_MISSING");
      }
      if !ConfidenceOk(task.confidence) {
        return Rejected("TARGET_CONFIDENCE_INVALID");
      }
      var s := adapter.ReadState();
      if !s.online {
        return Rejected("DEVICE_OFFLINE");
      }
      if adapter.workState != Idle {
        return Rejected("DEVICE_BUSY");
      }
      if !s.positionValid {
        return Rejected("POSITION_INVALID");
      }
      if !s.batteryOk {
        return Rejected("LOW_BATTERY");
      }
      if s.mode == ReadOnly || (s.mode == Real && !safety.realControl) {
        return Rejected("CONTROL_DISABLED");
      }
      if s.mode == Real && !s.controlReady {
        return Rejected("CONTROL_PATH_OFFLINE");
      }
      r := Done(());
    }

    /** The samples from the `n`-th reading on give no home pose. */
    ghost predicate NoHome(n: nat) {
      forall home :: !IsHome(adapter.sensors, n, safety.home, geometry, home)
    }

    method RecordHomePose() returns (r: Try<Pose>)
      modifies adapter`readings
      ensures r.Done? ==> IsHome(adapter.sensors, old(adapter.readings), safety.home, geometry, r.value)
      ensures !r.Done? ==> NoHome(old(adapter.readings)) && HomeFault(adapter.sensors, old(adapter.readings), safety.home, r)
    {
      var n := safety.home.samples;
      ghost var from := adapter.readings;
      var poses: seq<Pose> := [];
      for k := 0 to n
        invariant adapter.readings == from + k
        invariant SamplesUsable(adapter.sensors, from, k) && poses == Samples(adapter.sensors, from, k)
      {
        var s := adapter.ReadState();
        assert FirstUnusable(adapter.sensors, from, k, if s.online && s.positionValid && s.pose.Some? then "YAW_UNAVAILABLE" else "POSITION_INVALID")
          <==> !s.online || !s.positionValid || s.pose == None || s.pose.value.yaw == None;
        if !s.online || !s.positionValid {
          return Rejected("POSITION_INVALID");
        }
        if s.pose == None {
          return Rejected("POSITION_INVALID");
        }
        if s.pose.value.yaw == None {
          return Rejected("YAW_UNAVAILABLE");
        }
        poses := poses + [s.pose.value];
      }
      if n == 0 {
        return Raised;
      }
      r := SettleHome(poses);
    }

    method SettleHome(poses: seq<Pose>) returns (r: Try<Pose>)
      requires |poses| > 0 && forall k :: 0 <= k < |poses| ==> poses[k].yaw.Some?
      ensures r.Done? <==> SteadyPosition(poses, safety.home) && SteadyYaw(poses, safety.home, geometry)
      ensures r.Done? ==> r.value == MeanPose(poses)
      ensures !r.Done? ==> r == Rejected(if SteadyPosition(poses, safety.home) then "YAW_UNAVAILABLE" else "POSITION_INVALID")
    {
      var x, y, z := 0.0, 0.0, 0.0;
      for k := 0 to |poses|
        invariant (x, y, z) == Total(poses[..k])
      {
        assert poses[..k + 1][..k] == poses[..k];
        x, y, z := x + poses[k].x, y + poses[k].y, z + poses[k].z;
      }
      assert poses[..|poses|] == poses;
      var n := |poses| as real;
      var home := Pose(poses[0].frame, x / n, y / n, z / n, poses[0].yaw);
      for k := 0 to |poses|
        invariant forall i :: 0 <= i < k ==> !Exceeds(Distance2(poses[i], home), safety.home.maxPositionJitter)
      {
        hide Exceeds, Distance2;
        if Exceeds(Distance2(poses[k], home), safety.home.maxPositionJitter) {
          return Rejected("POSITION_INVALID");
        }
      }
      for k := 0 to |poses|
        invariant forall i :: 0 <= i < k ==> geometry.angularDifference(poses[i].yaw.value, poses[0].yaw.value) <= safety.home.maxYawJitter
      {
        if geometry.angularDifference(poses[k].yaw.value, poses[0].yaw.value) > safety.home.maxYawJitter {
          return Rejected("YAW_UNAVAILABLE");
        }
      }
      r := Done(home);
    }

    method MakePlan(task: Task, home: Pose) returns (r: Try<Plan>)
      ensures r.Done? ==> PlanOk(task, safety, geometry, r.value) && r.value.home == home
      ensures r.Done? ==> var start, end := Pose(home.frame, home.x, home.y, safety.cruise, home.yaw), r.value.observation;
                          PoseOk(safety.area, end) && PathOk(safety.area, start, end, SampleCount(geometry.hypot(end.x - start.x, end.y - start.y)))
      ensures !r.Done? ==> forall p :: PlanOk(task, safety, geometry, p) ==> p.home != home
    {
      hide PoseOk, ObservationPose, PathOk, SampleCount;
      var distance :- ValueOr(task.distance, safety.distance);
      var height :- ValueOr(task.height, safety.cruise);
      var stable :- ValueOr(task.stable, safety.stable);
      var observation :- ObservationPose(home, task.target, distance, height, geometry);
      var _ :- ValidatePose(safety.area, observation);
      var _ :- ValidatePose(safety.area, CruiseStart(safety, home));
      var _ :- ValidatePath(safety.area, CruiseStart(safety, home), observation, geometry.hypot);
      r := Done(Plan(home, observation, stable));
    }

    /** What is known about a plan when the flight begins. */
    ghost predicate Cleared(task: Task, reading: nat, work: WorkState, plan: Plan) {
      && TaskFits(task, safety) && DeviceReady(safety, adapter.sensors(reading), work)
      && IsHome(adapter.sensors, reading + 2, safety.home, geometry, plan.home)
      && PlanOk(task, safety, geometry, plan)
    }

    ghost predicate IsScript(script: seq<Call>) {
      exists plan :: script == Script(plan, safety.cruise)
    }

    /** Why a run does not get through: the answer of the call that raised, where a failing detector has its own code;
        or the code of the check, of the samples or of the detection. */
    ghost predicate Reason<T>(task: Task, reading: nat, work: WorkState, start: nat, i: nat, raised: bool, why: Try<T>) {
      if raised then
        if i == DETECT then why.Rejected? && why.code == "TARGET_DETECTION_ERROR" else SameFailure(why, adapter.answer(start + i))
      else if i == 0 then why.Rejected? && PreflightCode(task, safety, adapter.sensors(reading), work, why.code)
      else if i == 2 then exists r :: HomeFault(adapter.sensors, reading + 2, safety.home, r) && SameFailure(why, r)
      else if i == DETECT + 1 then if detection.confidence == NotANumber then why.Raised? else why.Rejected? && why.code == "TARGET_NOT_FOUND"
      else true
    }

    /** The step at which a run ends although no call raised, or its last. */
    ghost predicate StopsQuietly(task: Task, reading: nat, work: WorkState, i: nat) {
      if i == 0 then !(TaskFits(task, safety) && DeviceReady(safety, adapter.sensors(reading), work))
      else if i == 2 then NoHome(reading + 2)
      else if i == 3 then forall plan :: !Cleared(task, reading, work, plan)
      else if i == DETECT + 1 then !DetectionVerdict(detection).Done?
      else i == 24
    }

    lemma ReachedStops(before: seq<Effect>, script: seq<Call>, i: nat)
      requires Reached(before, script, i)
      ensures StoppedAt(before, script, i, false)
    {
      assert AllOk(script[..i]) == AllOk(script[..i]) + [];
      assert Stopped(AllOk(script[..i]), script, i, false);
    }

    /** Any script: the first calls do not depend on the plan. */
    ghost function GuessedScript(): (script: seq<Call>)
      ensures IsScript(script)
    {
      var nowhere := Pose("", 0.0, 0.0, 0.0, None);
      Script(Plan(nowhere, nowhere, 0.0), safety.cruise)
    }

    lemma Starts(before: seq<Effect>, script: seq<Call>)
      requires adapter.log == before
      ensures Reached(before, script, 0)
    {
      assert AllOk(script[..0]) == [];
    }

    lemma SameStart(before: seq<Effect>, plan: Plan)
      requires Reached(before, GuessedScript(), 3)
      ensures Reached(before, Script(plan, safety.cruise), 3)
    {
      assert GuessedScript()[..3] == Script(plan, safety.cruise)[..3];
    }

    lemma GuessedCalls()
      ensures var s := GuessedScript();
              && s[0] == Callback(Accepted, "PREFLIGHT_CHECK", 5, 1) && s[1] == InspectionPlans.SetWork(Preflight)
              && s[2] == Callback(InProgress, "RECORDING_HOME", 10, 2) && |s| == 24
    {
    }

    /** The checks and the recording of the home pose; these calls do not depend on the plan. */
    method Prepare(task: Task, ghost before: seq<Effect>) returns (r: Try<Pose>, ghost i: nat, ghost raised: bool)
      requires adapter.log == before && sequence == 0
      modifies this`sequence, adapter`log, adapter`readings, adapter`workState
      ensures i > 0 || raised <==> TaskFits(task, safety) && DeviceReady(safety, adapter.sensors(old(adapter.readings)), old(adapter.workState))
      ensures r.Done? ==> IsHome(adapter.sensors, old(adapter.readings) + 2, safety.home, geometry, r.value)
      ensures r.Done? ==> Reached(before, GuessedScript(), 3) && i == 3 && !raised
      ensures !r.Done? ==> StoppedAt(before, GuessedScript(), i, raised) && i < 3
      ensures !r.Done? && !raised ==> i != 3 && StopsQuietly(task, old(adapter.readings), old(adapter.workState), i)
      ensures raised ==> SameFailure(r, adapter.answer(|before| + i))
      ensures !raised && i == 0 ==> r.Rejected? && PreflightCode(task, safety, adapter.sensors(old(adapter.readings)), old(adapter.workState), r.code)
      ensures !raised && i == 2 ==> HomeFault(adapter.sensors, old(adapter.readings) + 2, safety.home, r)
      ensures sequence == Made(i, raised)
      ensures (i == 0 && !raised) || old(adapter.workState) == Idle
      ensures adapter.workState == if i <= 1 then old(adapter.workState) else Preflight
    {
      hide Reached, StoppedAt, GuessedScript, IsHome, DeviceReady, TaskFits, HomeFault, PreflightCode;
      ghost var script := GuessedScript();
      i, raised := 0, false;
      Starts(before, script);
      GuessedCalls();
      DeviceReadyIsIdle(adapter.sensors(adapter.readings), adapter.workState);
      var checked := RunPreflight(task);
      if !checked.Done? {
        ReachedStops(before, script, i);
        return Rejected(checked.code), i, raised;
      }
      raised := true;
      var _ :- Feedback(Accepted, "PREFLIGHT_CHECK", 5, before, script, i);
      i := 1;
      SetWork(Preflight, before, script, i);
      i := 2;
      r := RecordHomePose();
      if !r.Done? {
        ReachedStops(before, script, i);
        return r, i, false;
      }
      var _ :- Feedback(InProgress, "RECORDING_HOME", 10, before, script, i);
      i, raised := 3, false;
    }

    lemma DeviceReadyIsIdle(s: Sensors, work: WorkState)
      ensures DeviceReady(safety, s, work) ==> work == Idle
    {
    }

    /** Up to the point where the propellers may start: `i` calls of the script have returned. */
    method Ground(task: Task, ghost before: seq<Effect>) returns (r: Try<Plan>, ghost script: seq<Call>, ghost i: nat, ghost raised: bool)
      requires adapter.log == before && sequence == 0
      modifies this`sequence, adapter`log, adapter`readings, adapter`workState
      ensures r.Done? ==> Cleared(task, old(adapter.readings), old(adapter.workState), r.value)
      ensures r.Done? ==> script == Script(r.value, safety.cruise) && Reached(before, script, TAKEOFF) && i == TAKEOFF && !raised
      ensures !r.Done? ==> IsScript(script) && StoppedAt(before, script, i, raised) && i < TAKEOFF
      ensures i > 0 || raised <==> TaskFits(task, safety) && DeviceReady(safety, adapter.sensors(old(adapter.readings)), old(adapter.workState))
      ensures !r.Done? && !raised ==> StopsQuietly(task, old(adapter.readings), old(adapter.workState), i)
      ensures !r.Done? ==> Reason(task, old(adapter.readings), old(adapter.workState), |before|, i, raised, r)
      ensures sequence == Made(i, raised)
      ensures (i == 0 && !raised) || old(adapter.workState) == Idle
      ensures adapter.workState == if i <= 1 then old(adapter.workState) else if i <= 3 then Preflight else Executing
    {
      hide Script, Reached, StoppedAt, Cleared, GuessedScript, IsScript, IsHome, DeviceReady, TaskFits, PlanOk, Callbacks, HomeFault,
           PreflightCode;
      ghost var reading, work := adapter.readings, adapter.workState;
      script := GuessedScript();
      var home: Try<Pose>;
      home, i, raised := Prepare(task, before);
      if !home.Done? {
        r := home.PropagateFailure();
        assert i == 2 && !raised ==> HomeFault(adapter.sensors, reading + 2, safety.home, home) && SameFailure(r, home);
        return r, script, i, raised;
      }
      r := MakePlan(task, home.value);
      if !r.Done? {
        ReachedStops(before, script, i);
        NothingCleared(task, reading, work, home.value);
        return r, script, i, false;
      }
      ClearedNow(task, reading, work, r.value);
      SameStart(before, r.value);
      script := Script(r.value, safety.cruise);
      LastOnGround(r.value);
      SetWork(Executing, before, script, i);
      i, raised := 4, true;
      IsScriptOf(r.value);
      var f := Feedback(InProgress, "TAKING_OFF", 20, before, script, i);
      if !f.Done? {
        return f.PropagateFailure(), script, i, raised;
      }
      i, raised := TAKEOFF, false;
    }

    lemma LastOnGround(plan: Plan)
      ensures Script(plan, safety.cruise)[3] == InspectionPlans.SetWork(Executing)
      ensures Script(plan, safety.cruise)[4] == Callback(InProgress, "TAKING_OFF", 20, 3)
    {
    }

    lemma IsScriptOf(plan: Plan)
      ensures IsScript(Script(plan, safety.cruise))
    {
    }

    lemma ClearedNow(task: Task, reading: nat, work: WorkState, plan: Plan)
      requires TaskFits(task, safety) && DeviceReady(safety, adapter.sensors(reading), work) && PlanOk(task, safety, geometry, plan)
      requires IsHome(adapter.sensors, reading + 2, safety.home, geometry, plan.home)
      ensures Cleared(task, reading, work, plan)
    {
    }

    /** The samples have only one mean. */
    lemma NothingCleared(task: Task, reading: nat, work: WorkState, home: Pose)
      requires IsHome(adapter.sensors, reading + 2, safety.home, geometry, home)
      requires forall p :: PlanOk(task, safety, geometry, p) ==> p.home != home
      ensures forall plan :: !Cleared(task, reading, work, plan)
    {
      hide PlanOk, DeviceReady, TaskFits;
    }

    /** From take-off to the picture being taken. */
    method FlyOut(plan: Plan, ghost before: seq<Effect>, ghost script: seq<Call>) returns (r: Try<()>, airborne: bool, ghost i: nat)
      requires script == Script(plan, safety.cruise) && Reached(before, script, TAKEOFF) && sequence == 3
      modifies this`sequence, adapter`log, adapter`readings
      ensures r.Done? ==> Reached(before, script, 12) && i == 12 && sequence == 6
      ensures !r.Done? ==> StoppedAt(before, script, i, true) && TAKEOFF <= i < 12 && sequence == Made(i, true) && r == adapter.answer(|before| + i)
      ensures airborne == AirborneAfter(i)
    {
      hide Script, Reached, StoppedAt;
      assert |script| == 24 && script[TAKEOFF] == Takeoff(safety.cruise) && script[6] == Callback(InProgress, "TRANSITING", 40, 4)
        && script[7] == Goto(plan.observation) by
      {
        ScriptCalls(plan, safety.cruise);
      }
      airborne, i := false, TAKEOFF;
      var _ :- Call(Takeoff(safety.cruise), before, script, i);
      airborne, i := true, 6;
      var _ :- Feedback(InProgress, "TRANSITING", 40, before, script, i);
      i := 7;
      var _ :- Call(Goto(plan.observation), before, script, i);
      i := 8;
      r, i := TakePicture(plan, before, script);
    }

    /** At the observation point. */
    method TakePicture(plan: Plan, ghost before: seq<Effect>, ghost script: seq<Call>) returns (r: Try<()>, ghost i: nat)
      requires script == Script(plan, safety.cruise) && Reached(before, script, 8) && sequence == 4
      modifies this`sequence, adapter`log, adapter`readings
      ensures r.Done? ==> Reached(before, script, 12) && i == 12 && sequence == 6
      ensures !r.Done? ==> StoppedAt(before, script, i, true) && 8 <= i < 12 && sequence == Made(i, true) && r == adapter.answer(|before| + i)
    {
      hide Script, Reached, StoppedAt;
      assert |script| == 24 && script[8] == Callback(InProgress, "STABILIZING", 55, 5) && script[9] == Hold(plan.stable)
        && script[10] == Callback(InProgress, "CAPTURING_IMAGE", 65, 6) && script[11] == Capture by
      {
        ScriptCalls(plan, safety.cruise);
      }
      i := 8;
      var _ :- Feedback(InProgress, "STABILIZING", 55, before, script, i);
      i := 9;
      var _ :- Call(Hold(plan.stable), before, script, i);
      i := 10;
      var _ :- Feedback(InProgress, "CAPTURING_IMAGE", 65, before, script, i);
      i := 11;
      r := Call(Capture, before, script, i);
      i := if r.Done? then 12 else 11;
    }

    /** The target is looked for in the picture, and the picture uploaded. */
    method Confirm(plan: Plan, ghost before: seq<Effect>, ghost script: seq<Call>) returns (r: Try<()>, ghost i: nat, ghost raised: bool)
      requires script == Script(plan, safety.cruise) && Reached(before, script, 12) && sequence == 6
      modifies this`sequence, adapter`log, adapter`readings
      ensures r.Done? ==> Reached(before, script, 17) && i == 17 && sequence == 9
      ensures !r.Done? ==> StoppedAt(before, script, i, raised) && 12 <= i < 17 && sequence == Made(i, raised)
      ensures !raised ==> r.Done? || (i == DETECT + 1 && r == DetectionVerdict(detection))
      ensures raised ==> r == if i == DETECT then Rejected("TARGET_DETECTION_ERROR") else adapter.answer(|before| + i)
      ensures r.Done? || (raised && DETECT < i) ==> DetectionVerdict(detection).Done?
    {
      hide Script, Reached, StoppedAt;
      assert |script| == 24 && script[12] == Callback(InProgress, "VERIFYING_TARGET", 68, 7) && script[13] == InspectionPlans.Detect
        && script[14] == Callback(TargetConfirmed, "VERIFYING_TARGET", 70, 8) && script[15] == InspectionPlans.Upload
        && script[16] == Callback(ImageCaptured, "UPLOADING_IMAGE", 72, 9) by
      {
        ScriptCalls(plan, safety.cruise);
      }
      i, raised := 12, true;
      var _ :- Feedback(InProgress, "VERIFYING_TARGET", 68, before, script, i);
      i := DETECT;
      r := Call(Detect, before, script, i);
      if !r.Done? {
        return Rejected("TARGET_DETECTION_ERROR"), i, raised;
      }
      i := DETECT + 1;
      var confidence := ValueOr(detection.confidence, 0.0);
      if !detection.found || !confidence.Done? {
        ReachedStops(before, script, i);
        return if confidence.Done? then Rejected("TARGET_NOT_FOUND") else Raised, i, false;
      }
      var _ :- Feedback(TargetConfirmed, "VERIFYING_TARGET", 70, before, script, i);
      i := 15;
      var _ :- Call(Upload, before, script, i);
      i := 16;
      r := Feedback(ImageCaptured, "UPLOADING_IMAGE", 72, before, script, i);
      if r.Done? {
        i, raised := 17, false;
      }
    }

    /** From the uploaded picture to the ground. */
    method FlyHome(plan: Plan, ghost before: seq<Effect>, ghost script: seq<Call>)
      returns (r: Try<()>, airborne: bool, recovered: bool, ghost i: nat)
      requires script == Script(plan, safety.cruise) && Reached(before, script, 17) && sequence == 9
      modifies this`sequence, adapter`log, adapter`readings, adapter`workState
      ensures r.Done? ==> Reached(before, script, 24) && i == 24 && sequence == Made(24, false)
      ensures !r.Done? ==> StoppedAt(before, script, i, true) && 17 <= i < 24 && sequence == Made(i, true) && r == adapter.answer(|before| + i)
      ensures airborne == AirborneAfter(i) && recovered == (i > LAND)
      ensures adapter.workState in {Returning, Idle}
    {
      hide Script, Reached, StoppedAt;
      assert |script| == 24 && script[17] == InspectionPlans.SetWork(Returning) && script[18] == Callback(ReturningHome, "RETURNING_HOME", 80, 10)
        && script[19] == Return(plan.home, safety.cruise) by
      {
        ScriptCalls(plan, safety.cruise);
      }
      airborne, recovered, i := true, false, 17;
      SetWork(Returning, before, script, i);
      i := 18;
      var _ :- Feedback(ReturningHome, "RETURNING_HOME", 80, before, script, i);
      i := 19;
      var _ :- Call(Return(plan.home, safety.cruise), before, script, i);
      i := 20;
      r, airborne, recovered, i := TouchDown(plan, before, script);
    }

    /** The landing; from then on nothing more moves. */
    method TouchDown(plan: Plan, ghost before: seq<Effect>, ghost script: seq<Call>)
      returns (r: Try<()>, airborne: bool, recovered: bool, ghost i: nat)
      requires script == Script(plan, safety.cruise) && Reached(before, script, 20) && sequence == 10 && adapter.workState == Returning
      modifies this`sequence, adapter`log, adapter`readings, adapter`workState
      ensures r.Done? ==> Reached(before, script, 24) && i == 24 && sequence == Made(24, false)
      ensures !r.Done? ==> StoppedAt(before, script, i, true) && 20 <= i < 24 && sequence == Made(i, true) && r == adapter.answer(|before| + i)
      ensures airborne == AirborneAfter(i) && recovered == (i > LAND)
      ensures adapter.workState == if i > LAND then Idle else Returning
    {
      hide Script, Reached, StoppedAt;
      assert |script| == 24 && script[20] == Callback(InProgress, "LANDING", 90, 11) && script[LAND] == Land
        && script[22] == InspectionPlans.SetWork(Idle) && script[23] == Callback(Completed, "DONE", 100, 12) by
      {
        ScriptCalls(plan, safety.cruise);
      }
      airborne, recovered, i := true, false, 20;
      var _ :- Feedback(InProgress, "LANDING", 90, before, script, i);
      i := LAND;
      var _ :- Call(Land, before, script, i);
      airborne, recovered, i := false, true, 22;
      SetWork(Idle, before, script, i);
      i := 23;
      r := Feedback(Completed, "DONE", 100, before, script, i);
      i := if r.Done? then 24 else 23;
    }

    method Flight(plan: Plan, ghost before: seq<Effect>, ghost script: seq<Call>)
      returns (r: Try<()>, airborne: bool, recovered: bool, ghost i: nat, ghost raised: bool)
      requires script == Script(plan, safety.cruise) && Reached(before, script, TAKEOFF) && sequence == 3
      requires adapter.workState == Executing
      modifies this`sequence, adapter`log, adapter`readings, adapter`workState
      ensures r.Done? ==> Reached(before, script, 24) && i == 24 && !raised
      ensures !r.Done? ==> StoppedAt(before, script, i, raised) && TAKEOFF <= i < 24
      ensures sequence == Made(i, raised)
      ensures !raised ==> r.Done? || (i == DETECT + 1 && r == DetectionVerdict(detection) && !r.Done?)
      ensures raised ==> r == if i == DETECT then Rejected("TARGET_DETECTION_ERROR") else adapter.answer(|before| + i)
      ensures DETECT < i && (raised || DETECT + 1 < i) ==> DetectionVerdict(detection).Done?
      ensures airborne == AirborneAfter(i) && recovered == (i > LAND)
      ensures adapter.workState in {Executing, Returning, Idle}
    {
      hide Script, Reached, StoppedAt;
      recovered, raised := false, true;
      r, airborne, i := FlyOut(plan, before, script);
      if r.Done? {
        r, i, raised := Confirm(plan, before, script);
      }
      if r.Done? {
        r, airborne, recovered, i := FlyHome(plan, before, script);
        raised := !r.Done?;
      }
    }

    // ----- the end of a run

    /** The last reading, and the answers to the way home asked for from the `n`-th call on, decide the recovery. */
    ghost predicate RecoveryTaken(n: nat, end: Ending)
      reads adapter
    {
      adapter.readings > 0
      && end.recovery == RecoveryOf(adapter.sensors(adapter.readings - 1).positionValid, adapter.answer(n + 1).Done?, adapter.answer(n + 2).Done?)
    }

    /** From position `n` of the log on: the return is tried exactly with a valid position in the last reading, the
        landing exactly when the return came back, and the pilot is asked exactly unless the vehicle landed. */
    ghost predicate WayHome(n: nat, home: Pose)
      reads adapter
    {
      n <= |adapter.log| && adapter.readings > 0
      && var valid, returned, landed := adapter.sensors(adapter.readings - 1).positionValid, adapter.answer(n + 1).Done?, adapter.answer(n + 2).Done?;
         var calls := adapter.log[n..];
         && (forall ok :: Effect(Return(home, safety.cruise), ok) in calls <==> valid && ok == returned)
         && (forall ok :: Effect(Land, ok) in calls <==> valid && returned && ok == landed)
         && (Effect(Takeover, true) in calls <==> !(valid && returned && landed))
         && adapter.workState == if valid && returned && landed then Idle else ManualControl
    }

    lemma RecoveryIsWayHome(before: seq<Effect>, home: Pose, end: Ending)
      requires adapter.log == before + RecoveryCalls(end.recovery, home, safety.cruise) && RecoveryTaken(|before|, end)
      requires adapter.workState == if end.recovery == Recovers then Idle else ManualControl
      ensures WayHome(|before|, home)
    {
      assert adapter.log[|before|..] == RecoveryCalls(end.recovery, home, safety.cruise);
    }

    /** The way home, as far as it raises nothing. */
    method TryHome(home: Pose) returns (landed: bool)
      modifies adapter`log, adapter`workState
      ensures var n := old(|adapter.log|);
              var returned := adapter.answer(n + 1).Done?;
              && adapter.log == old(adapter.log) + [Effect(InspectionPlans.SetWork(Returning), true), Effect(Return(home, safety.cruise), returned)]
                                + (if returned then [Effect(Land, adapter.answer(n + 2).Done?)] else [])
              && landed == (returned && adapter.answer(n + 2).Done?)
      ensures adapter.workState == Returning
    {
      adapter.SetWorkState(Returning);
      var r := adapter.Do(Return(home, safety.cruise));
      if r.Done? {
        r := adapter.Do(Land);
      }
      landed := r.Done?;
    }

    /** The `finally` block. */
    method Recover(airborne: bool, home: Option<Pose>, landed: bool, ghost p: Plan, ghost i: nat, ghost end: Ending) returns (ghost rest: Ending)
      requires airborne == AirborneAfter(i) && landed == (LAND < i) && (airborne ==> home == Some(p.home))
      modifies adapter`log, adapter`readings, adapter`workState
      ensures rest == end.(recovery := rest.recovery, idle := rest.idle)
      ensures adapter.log == old(adapter.log) + Cleanup(p, safety.cruise, i, rest)
      ensures adapter.workState == if airborne then if rest.recovery == Recovers then Idle else ManualControl
                                   else if rest.idle then Idle else old(adapter.workState)
      ensures !airborne ==> rest.idle == (landed || old(adapter.workState) != ManualControl)
      ensures airborne ==> adapter.readings == old(adapter.readings) + 1 && RecoveryTaken(old(|adapter.log|), rest)
      ensures airborne ==> WayHome(old(|adapter.log|), p.home)
    {
      hide WayHome;
      rest := end;
      var recovered := landed;
      if airborne && home.Some? {
        var s := adapter.ReadState();
        ghost var n := |adapter.log|;
        rest := rest.(recovery := RecoveryOf(s.positionValid, adapter.answer(n + 1).Done?, adapter.answer(n + 2).Done?));
        if s.positionValid {
          recovered := TryHome(home.value);
        }
        if !recovered {
          adapter.RequestManualTakeover();
        }
      }
      if recovered {
        adapter.SetWorkState(Idle);
        rest := rest.(idle := true);
      } else if !airborne {
        var _ := adapter.ReadState();
        rest := rest.(idle := adapter.workState != ManualControl);
        if adapter.workState != ManualControl {
          adapter.SetWorkState(Idle);
        }
      }
      if airborne {
        RecoveryIsWayHome(old(adapter.log), p.home, rest);
      }
    }

    /** The message about a failure; when that raises, `execute` itself does. */
    method Tell(status: Status, stage: string, code: string) returns (r: Try<Report>)
      modifies this`sequence, adapter`log, adapter`readings
      ensures adapter.log == old(adapter.log) + [Effect(Callback(status, stage, 0, old(sequence) + 1), r.Done?)]
      ensures r.Done? <==> adapter.answer(old(|adapter.log|)).Done?
      ensures r.Done? ==> r.value == Failure(status, code)
    {
      sequence := sequence + 1;
      var _ := adapter.ReadState();
      var f := adapter.Do(Callback(status, stage, 0, sequence));
      r := if f.Done? then Done(Failure(status, code)) else f.PropagateFailure();
    }

    /** How far the script gets: to the first call that raises, or to the step at which it ends quietly. */
    ghost predicate GotTo(task: Task, reading: nat, work: WorkState, start: nat, p: Plan, i: nat, raised: bool) {
      && (forall k: nat :: k < i ==> SetsWork(k) || adapter.answer(start + k).Done?)
      && (if raised then !adapter.answer(start + i).Done? else StopsQuietly(task, reading, work, i))
      && (i > 0 || raised <==> TaskFits(task, safety) && DeviceReady(safety, adapter.sensors(reading), work))
      && (TAKEOFF <= i ==> Cleared(task, reading, work, p))
      && (DETECT < i && (raised || DETECT + 1 < i) ==> DetectionVerdict(detection).Done?)
    }

    /** A plan is cleared, the target confirmed, and no call of the script raises. */
    ghost predicate NothingAmiss(task: Task, reading: nat, work: WorkState, start: nat) {
      && (exists plan :: Cleared(task, reading, work, plan))
      && DetectionVerdict(detection).Done?
      && forall k: nat :: k < 24 ==> SetsWork(k) || adapter.answer(start + k).Done?
    }

    /** A run gets through exactly when nothing is amiss. */
    lemma GetsThrough(task: Task, reading: nat, work: WorkState, start: nat, p: Plan, i: nat, raised: bool)
      requires GotTo(task, reading, work, start, p, i, raised) && i <= 24 && (raised ==> i < 24 && !SetsWork(i))
      ensures i == 24 <==> NothingAmiss(task, reading, work, start)
    {
    }

    /** How a run started with `start` calls on the log went: how far the script got, and how it ended. */
    ghost predicate Ran(task: Task, reading: nat, work: WorkState, start: nat, p: Plan, i: nat, raised: bool, end: Ending)
      reads adapter
    {
      && GotTo(task, reading, work, start, p, i, raised)
      && (AirborneAfter(i) ==> RecoveryTaken(start + i + (if raised then 2 else 1), end))
      && (i < 24 ==> (end.told <==> adapter.answer(start + i + (if raised then 1 else 0)).Done?))
      && end.status in {Refused, Failed} && (end.status == Refused ==> !AirborneAfter(i))
      && adapter.workState == (if (AirborneAfter(i) && end.recovery != Recovers) || (!AirborneAfter(i) && !end.idle) then ManualControl else Idle)
      && (!AirborneAfter(i) && !end.idle ==> work == ManualControl)
      && (work == Idle || (i == 0 && !raised))
    }

    lemma StoppedIsAttempt(before: seq<Effect>, p: Plan, i: nat, raised: bool)
      requires StoppedAt(before, Script(p, safety.cruise), i, raised) || (!raised && Reached(before, Script(p, safety.cruise), i))
      ensures i <= 24 && (raised ==> i < 24) && adapter.log == before + Attempt(p, safety.cruise, i, raised)
      ensures forall k: nat :: k < i ==> SetsWork(k) || adapter.answer(|before| + k).Done?
      ensures raised ==> !SetsWork(i) && !adapter.answer(|before| + i).Done?
    {
      forall k: nat | k < 24
        ensures Script(p, safety.cruise)[k].SetWork? <==> SetsWork(k)
      {
        ScriptSetsWork(p, safety.cruise, k);
      }
      hide Script;
      var script := Script(p, safety.cruise);
      if StoppedAt(before, script, i, raised) {
        var e :| adapter.log == before + e && Stopped(e, script, i, raised);
        assert e == Attempt(p, safety.cruise, i, raised);
      } else {
        assert Attempt(p, safety.cruise, i, raised) == AllOk(script[..i]);
      }
    }

    lemma SameReason<T, U>(task: Task, reading: nat, work: WorkState, start: nat, i: nat, raised: bool, why: Try<T>, other: Try<U>)
      requires Reason(task, reading, work, start, i, raised, why) && SameFailure(why, other)
      ensures Reason(task, reading, work, start, i, raised, other)
    {
      hide HomeFault, PreflightCode;
      if !raised && i == 2 {
        var r :| HomeFault(adapter.sensors, reading + 2, safety.home, r) && SameFailure(why, r);
        assert SameFailure(other, r);
      }
    }

    /** The body of the `try`. */
    method RunScript(task: Task)
      returns (r: Try<()>, airborne: bool, home: Option<Pose>, landed: bool, ghost p: Plan, ghost i: nat, ghost raised: bool)
      requires sequence == 0
      modifies this`sequence, adapter`log, adapter`readings, adapter`workState
      ensures i <= 24 && (raised ==> i < 24) && adapter.log == old(adapter.log) + Attempt(p, safety.cruise, i, raised)
      ensures r.Done? <==> i == 24
      ensures GotTo(task, old(adapter.readings), old(adapter.workState), old(|adapter.log|), p, i, raised)
      ensures raised ==> !SetsWork(i)
      ensures !r.Done? ==> Reason(task, old(adapter.readings), old(adapter.workState), old(|adapter.log|), i, raised, r)
      ensures old(adapter.workState) == Idle || (i == 0 && !raised)
      ensures airborne == AirborneAfter(i) && landed == (LAND < i) && (airborne ==> home == Some(p.home))
      ensures sequence == Made(i, raised)
      ensures adapter.workState == ManualControl ==> old(adapter.workState) == ManualControl && i == 0 && !raised
      ensures i == 0 && !raised ==> adapter.workState == old(adapter.workState)
    {
      hide Script, Reached, StoppedAt, Cleared, Attempt, Reason;
      ghost var before := adapter.log;
      airborne, home, landed := false, None, false;
      ghost var script: seq<Call>;
      var plan: Try<Plan>;
      plan, script, i, raised := Ground(task, before);
      if !plan.Done? {
        p :| script == Script(p, safety.cruise);
        StoppedIsAttempt(before, p, i, raised);
        r := plan.PropagateFailure();
        SameReason(task, old(adapter.readings), old(adapter.workState), |before|, i, raised, plan, r);
        return;
      }
      home, p := Some(plan.value.home), plan.value;
      r, airborne, landed, i, raised := Flight(plan.value, before, script);
      StoppedIsAttempt(before, p, i, raised);
      if !r.Done? {
        FlightReason(task, old(adapter.readings), old(adapter.workState), |before|, i, raised, r);
      }
    }

    lemma FlightReason(task: Task, reading: nat, work: WorkState, start: nat, i: nat, raised: bool, why: Try<()>)
      requires TAKEOFF <= i < 24 && !why.Done?
      requires raised ==> why == if i == DETECT then Rejected("TARGET_DETECTION_ERROR") else adapter.answer(start + i)
      requires !raised ==> i == DETECT + 1 && why == DetectionVerdict(detection)
      ensures Reason(task, reading, work, start, i, raised, why)
    {
    }

    /** The `except` blocks. */
    method Conclude(outcome: Try<()>, airborne: bool, ghost i: nat, ghost raised: bool) returns (r: Try<Report>, ghost end: Ending)
      requires i <= 24 && airborne == AirborneAfter(i) && (outcome.Done? <==> i == 24) && sequence == Made(i, raised)
      modifies this`sequence, adapter`log, adapter`readings
      ensures adapter.log == old(adapter.log) + LastWords(i, raised, end)
      ensures end.status in {Refused, Failed} && (end.status == Refused ==> !airborne)
      ensures r == Done(Success) <==> i == 24
      ensures r.Done? && i < 24 ==> r.value == Failure(end.status, if outcome.Rejected? then outcome.code else "UNKNOWN_ERROR") && end.told
      ensures !r.Done? ==> i < 24 && !end.told
      ensures i < 24 ==> (adapter.log == old(adapter.log)
                + [Effect(Callback(end.status, if airborne then "RETURNING_HOME" else "PREFLIGHT_CHECK", 0, old(sequence) + 1), end.told)])
      ensures i < 24 ==> end.status == if outcome.Rejected? && !airborne then Refused else Failed
      ensures i < 24 ==> (end.told <==> adapter.answer(old(|adapter.log|)).Done?)
    {
      var stage := if airborne then "RETURNING_HOME" else "PREFLIGHT_CHECK";
      end := Ending(Failed, true, NoPosition, false);
      match outcome {
        case Done(_) =>
          r := Done(Success);
          assert adapter.log == adapter.log + LastWords(i, raised, end);
        case Rejected(code) =>
          var status := if airborne then Failed else Refused;
          r := Tell(status, stage, code);
          end := end.(status := status, told := r.Done?);
        case Raised =>
          r := Tell(Failed, stage, "UNKNOWN_ERROR");
          end := end.(told := r.Done?);
      }
    }

    /** The `try` with its `except` blocks. */
    method TryAndTell(task: Task)
      returns (r: Try<Report>, airborne: bool, home: Option<Pose>, landed: bool, ghost p: Plan, ghost i: nat, ghost raised: bool, ghost end: Ending,
               ghost why: Try<()>)
      requires sequence == 0
      modifies this`sequence, adapter`log, adapter`readings, adapter`workState
      ensures i <= 24 && (raised ==> i < 24)
      ensures adapter.log == old(adapter.log) + Attempt(p, safety.cruise, i, raised) + LastWords(i, raised, Ending(end.status, end.told, NoPosition, false))
      ensures i < 24 ==> |adapter.log| == old(|adapter.log|) + i + if raised then 2 else 1
      ensures GotTo(task, old(adapter.readings), old(adapter.workState), old(|adapter.log|), p, i, raised)
      ensures i == 24 <==> NothingAmiss(task, old(adapter.readings), old(adapter.workState), old(|adapter.log|))
      ensures airborne == AirborneAfter(i) && landed == (LAND < i) && (airborne ==> home == Some(p.home))
      ensures old(adapter.workState) == Idle || (i == 0 && !raised)
      ensures adapter.workState == ManualControl ==> old(adapter.workState) == ManualControl && i == 0 && !raised
      ensures i == 0 && !raised ==> adapter.workState == old(adapter.workState)
      ensures end.status in {Refused, Failed} && (end.status == Refused ==> !airborne)
      ensures i < 24 ==> (end.told <==> adapter.answer(old(|adapter.log|) + i + if raised then 1 else 0).Done?)
      ensures r == Done(Success) <==> i == 24
      ensures i < 24 ==> Reason(task, old(adapter.readings), old(adapter.workState), old(|adapter.log|), i, raised, why)
      ensures i < 24 ==> end.status == if why.Rejected? && !AirborneAfter(i) then Refused else Failed
      ensures r.Done? && i < 24 ==> r.value == Failure(end.status, if why.Rejected? then why.code else "UNKNOWN_ERROR") && end.told
      ensures !r.Done? ==> i < 24 && !end.told
    {
      hide Attempt, LastWords, Made, GotTo, NothingAmiss, Reason;
      var outcome;
      outcome, airborne, home, landed, p, i, raised := RunScript(task);
      why := outcome;
      GetsThrough(task, old(adapter.readings), old(adapter.workState), old(|adapter.log|), p, i, raised);
      r, end := Conclude(outcome, airborne, i, raised);
      if i < 24 {
        WordsSoFar(p, i, raised, end);
      }
      SameWords(i, raised, end);
    }

    /** Whatever raises, a run whose take-off returned ends with a landing that returned as the last
        motion or with the pilot asked to take over, and the work state is idle or manual control.
        Nothing takes off before the checks have passed and the whole way out is validated; a device
        that is not idle is refused and then set idle, unless it is under manual control. */
    method Execute(task: Task)
      returns (r: Try<Report>, ghost p: Plan, ghost i: nat, ghost raised: bool, ghost end: Ending, ghost why: Try<()>)
      modifies this`sequence, adapter`log, adapter`readings, adapter`workState
      ensures i <= 24 && (raised ==> i < 24) && adapter.log == old(adapter.log) + RunLog(p, safety.cruise, i, raised, end)
      ensures Ran(task, old(adapter.readings), old(adapter.workState), old(|adapter.log|), p, i, raised, end)
      ensures i == 24 <==> NothingAmiss(task, old(adapter.readings), old(adapter.workState), old(|adapter.log|))
      ensures var e := RunLog(p, safety.cruise, i, raised, end); TookOff(e) ==> LandedLast(e) || AskedForPilot(e)
      ensures AirborneAfter(i) ==> WayHome(old(|adapter.log|) + i + (if raised then 2 else 1), p.home)
      ensures adapter.workState == Idle || adapter.workState == ManualControl
      ensures old(adapter.workState) != Idle ==> i == 0 && (adapter.workState == ManualControl <==> old(adapter.workState) == ManualControl)
      ensures r == Done(Success) <==> i == 24
      ensures i < 24 ==> Reason(task, old(adapter.readings), old(adapter.workState), old(|adapter.log|), i, raised, why)
      ensures i < 24 ==> end.status == if why.Rejected? && !AirborneAfter(i) then Refused else Failed
      ensures r.Done? && i < 24 ==> r.value == Failure(end.status, if why.Rejected? then why.code else "UNKNOWN_ERROR") && end.told
      ensures !r.Done? ==> i < 24 && !end.told
    {
      hide Attempt, RecoveryCalls, LastWords, Cleanup, Made, GotTo, NothingAmiss, RecoveryTaken, WayHome, Reason, TookOff, LandedLast, AskedForPilot,
           RunLog;
      sequence := 0;
      var airborne, home, landed;
      r, airborne, home, landed, p, i, raised, end, why := TryAndTell(task);
      end := Recover(airborne, home, landed, p, i, end);
      LogsJoin(old(adapter.log), p, i, raised, end);
      SafeAfterAll(p, i, raised, end);
    }

    lemma LogsJoin(before: seq<Effect>, p: Plan, i: nat, raised: bool, end: Ending)
      requires i <= 24 && (raised ==> i < 24)
      ensures before + Attempt(p, safety.cruise, i, raised) + LastWords(i, raised, Ending(end.status, end.told, NoPosition, false))
              + Cleanup(p, safety.cruise, i, end) == before + RunLog(p, safety.cruise, i, raised, end)
    {
      hide Attempt, LastWords, Cleanup;
      SameWords(i, raised, end);
    }

    lemma SafeAfterAll(p: Plan, i: nat, raised: bool, end: Ending)
      requires i <= 24 && (raised ==> i < 24)
      ensures var e := RunLog(p, safety.cruise, i, raised, end); TookOff(e) ==> LandedLast(e) || AskedForPilot(e)
    {
      hide RunLog, TookOff, LandedLast, AskedForPilot;
      if TookOff(RunLog(p, safety.cruise, i, raised, end)) {
        RunIsSafe(p, safety.cruise, i, raised, end);
      }
    }

    lemma WordsSoFar(p: Plan, i: nat, raised: bool, end: Ending)
      requires i < 24
      ensures |Attempt(p, safety.cruise, i, raised)| == i + if raised then 1 else 0
      ensures |LastWords(i, raised, end)| == 1
    {
    }

    lemma SameWords(i: nat, raised: bool, end: Ending)
      ensures LastWords(i, raised, end) == LastWords(i, raised, Ending(end.status, end.told, NoPosition, false))
    {
    }
  }
}
