/** What `execute` of inspect_target.py is given, what it decides before take-off, and the calls it
    makes. Trigonometry is a parameter. */
module InspectionPlans {
  import opened Wrappers
  import opened FlightPaths

  datatype Mode = Sim | ReadOnly | Real

  datatype WorkState = Idle | Preflight | Executing | Returning | ManualControl | OtherState

  /** One reading of the adapter, without the work state. A pose that is missing or malformed is `None`. */
  datatype Sensors = Sensors(online: bool, positionValid: bool, batteryOk: bool, mode: Mode, controlReady: bool, pose: Option<Pose>)

  /** An optional numeric task parameter. */
  datatype Parameter = Missing | Number(value: real) | NotANumber

  datatype Task = Task(agent: string, kind: string, targetLabel: string, confidence: Parameter, target: Pose,
                       distance: Parameter, height: Parameter, stable: Parameter)

  datatype HomeConfig = HomeConfig(samples: nat, maxPositionJitter: real, maxYawJitter: real)

  datatype Safety = Safety(agent: string, cruise: real, distance: real, stable: real, area: Area, home: HomeConfig, realControl: bool)

  datatype Geometry = Geometry(hypot: (real, real) -> real, atan2: (real, real) -> real, cos: real -> real, sin: real -> real,
                               angularDifference: (real, real) -> real)

  datatype Status = Accepted | InProgress | TargetConfirmed | ImageCaptured | ReturningHome | Completed | Refused | Failed

  datatype Call =
    | Callback(status: Status, stage: string, progress: nat, sequence: nat)
    | SetWork(state: WorkState)
    | Takeoff(height: real) | Goto(to: Pose) | Hold(duration: real) | Capture | Detect | Upload | Return(home: Pose, height: real) | Land
    | Takeover

  /** A call and whether it returned. */
  datatype Effect = Effect(call: Call, ok: bool)

  /** What is settled on the ground. */
  datatype Plan = Plan(home: Pose, observation: Pose, stable: real)

  // ----- the checks before anything moves

  function ValueOr(p: Parameter, default: real): Try<real> {
    match p
    case Missing => Done(default)
    case Number(v) => Done(v)
    case NotANumber => Raised
  }

  predicate ConfidenceOk(p: Parameter) {
    p.Missing? || (p.Number? && 0.0 <= p.value <= 1.0)
  }

  predicate TaskFits(task: Task, safety: Safety) {
    task.agent == safety.agent && task.kind == "INSPECT_TARGET" && task.targetLabel != "" && ConfidenceOk(task.confidence)
  }

  predicate DeviceReady(safety: Safety, s: Sensors, work: WorkState) {
    && s.online && work == Idle && s.positionValid && s.batteryOk
    && s.mode != ReadOnly && (s.mode == Real ==> safety.realControl && s.controlReady)
  }

  /** The first fault of the task, in the order of the checks. */
  function TaskFault(task: Task, safety: Safety): Option<string> {
    if task.agent != safety.agent then Some("WRONG_AGENT")
    else if task.kind != "INSPECT_TARGET" then Some("UNSUPPORTED_TASK")
    else if task.targetLabel == "" then Some("TARGET_LABEL_MISSING")
    else if !ConfidenceOk(task.confidence) then Some("TARGET_CONFIDENCE_INVALID")
    else None
  }

  /** The first fault of the device, in the order of the checks. */
  function DeviceFault(safety: Safety, s: Sensors, work: WorkState): Option<string> {
    if !s.online then Some("DEVICE_OFFLINE")
    else if work != Idle then Some("DEVICE_BUSY")
    else if !s.positionValid then Some("POSITION_INVALID")
    else if !s.batteryOk then Some("LOW_BATTERY")
    else if s.mode == ReadOnly || (s.mode == Real && !safety.realControl) then Some("CONTROL_DISABLED")
    else if s.mode == Real && !s.controlReady then Some("CONTROL_PATH_OFFLINE")
    else None
  }

  /** The code of the first check that fails: of the task, then of the device. */
  predicate PreflightCode(task: Task, safety: Safety, s: Sensors, work: WorkState, code: string) {
    if task.agent != safety.agent then code == "WRONG_AGENT"
    else if task.kind != "INSPECT_TARGET" then code == "UNSUPPORTED_TASK"
    else if task.targetLabel == "" then code == "TARGET_LABEL_MISSING"
    else if task.confidence == NotANumber || (task.confidence.Number? && !(0.0 <= task.confidence.value <= 1.0)) then code == "TARGET_CONFIDENCE_INVALID"
    else
      || (code == "DEVICE_OFFLINE" && !s.online)
      || (code == "DEVICE_BUSY" && s.online && work != Idle)
      || (code == "POSITION_INVALID" && s.online && work == Idle && !s.positionValid)
      || (code == "LOW_BATTERY" && s.online && work == Idle && s.positionValid && !s.batteryOk)
      || (s.online && work == Idle && s.positionValid && s.batteryOk
          && ((code == "CONTROL_DISABLED" && (s.mode == ReadOnly || (s.mode == Real && !safety.realControl)))
              || (code == "CONTROL_PATH_OFFLINE" && s.mode == Real && safety.realControl && !s.controlReady)))
  }

  /** What the detector returns; the confidence is converted to a number only when it is printed. */
  datatype Detection = Detection(found: bool, confidence: Parameter)

  /** How the step after the detection ends. */
  function DetectionVerdict(d: Detection): Try<()> {
    if d.confidence == NotANumber then Raised else if d.found then Done(()) else Rejected("TARGET_NOT_FOUND")
  }

  /** A target that is not found is one outcome, a confidence that is no number another, found or not. */
  lemma DetectionMeans(d: Detection)
    ensures DetectionVerdict(d).Done? <==> d.found && d.confidence != NotANumber
    ensures DetectionVerdict(d) == Rejected("TARGET_NOT_FOUND") <==> !d.found && d.confidence != NotANumber
    ensures DetectionVerdict(d) == Raised <==> d.confidence == NotANumber
  {
  }

  /** The same failure, of whatever was tried. */
  predicate SameFailure<T, U>(a: Try<T>, b: Try<U>) {
    (a.Raised? && b.Raised?) || (a.Rejected? && b.Rejected? && a.code == b.code)
  }

  /** `calculate_observation_pose`. */
  function ObservationPose(home: Pose, target: Pose, distance: real, height: real, g: Geometry): Try<Pose> {
    var dx, dy := target.x - home.x, target.y - home.y;
    var near := g.hypot(dx, dy) < 0.000000001;
    if home.frame != target.frame || distance < 0.0 then Rejected("POSITION_INVALID")
    else if near && home.yaw == None then Rejected("YAW_UNAVAILABLE")
    else
      var yaw := if near then home.yaw.value else g.atan2(dy, dx);
      if distance == 0.0 then Done(Pose(target.frame, target.x, target.y, height, home.yaw))
      else Done(Pose(target.frame, target.x - distance * g.cos(yaw), target.y - distance * g.sin(yaw), height, Some(yaw)))
  }

  /** The observation point lies at the inspection distance from the target, at the given height. */
  lemma ObservationAtDistance(home: Pose, target: Pose, distance: real, height: real, g: Geometry)
    requires ObservationPose(home, target, distance, height, g).Done?
    requires forall a :: g.cos(a) * g.cos(a) + g.sin(a) * g.sin(a) == 1.0
    ensures var p := ObservationPose(home, target, distance, height, g).value;
            Horizontal2(p, target) == distance * distance && p.z == height && p.frame == target.frame
  {
    var p := ObservationPose(home, target, distance, height, g).value;
    if distance != 0.0 {
      var c, s := g.cos(p.yaw.value), g.sin(p.yaw.value);
      SquareOfProduct(distance, c);
      SquareOfProduct(distance, s);
      Distribute(c * c, s * s, distance * distance);
    }
  }

  /** What `hypot`, `atan2`, `cos` and `sin` have to do with one another. */
  ghost predicate Polar(g: Geometry) {
    forall x, y :: g.hypot(x, y) * g.cos(g.atan2(y, x)) == x && g.hypot(x, y) * g.sin(g.atan2(y, x)) == y
  }

  /** The observation point lies on the straight line from the target to the home, on the side of the home, as
      far from the target as asked, and looks along it; over the target itself only when asked for no distance. */
  lemma ObservationOnTheWay(home: Pose, target: Pose, distance: real, height: real, g: Geometry)
    requires Polar(g)
    ensures var r, dx, dy := ObservationPose(home, target, distance, height, g), target.x - home.x, target.y - home.y;
            var h := g.hypot(dx, dy);
            && (r == Rejected("POSITION_INVALID") <==> home.frame != target.frame || distance < 0.0)
            && (r == Rejected("YAW_UNAVAILABLE") <==> home.frame == target.frame && distance >= 0.0 && h < 0.000000001 && home.yaw == None)
            && (r.Done? <==> home.frame == target.frame && distance >= 0.0 && (h >= 0.000000001 || home.yaw.Some?))
            && (r.Done? && h >= 0.000000001 ==>
                  && (target.x - r.value.x) * h == distance * dx && (target.y - r.value.y) * h == distance * dy
                  && r.value.yaw == if distance == 0.0 then home.yaw else Some(g.atan2(dy, dx)))
            && (r.Done? ==> r.value.z == height && r.value.frame == target.frame)
  {
    var dx, dy := target.x - home.x, target.y - home.y;
    var h, yaw := g.hypot(dx, dy), g.atan2(dy, dx);
    assert h * g.cos(yaw) == dx && h * g.sin(yaw) == dy;
    Regroups(distance, g.cos(yaw), h);
    Regroups(distance, g.sin(yaw), h);
  }

  lemma Regroups(d: real, c: real, h: real)
    ensures d * c * h == d * (h * c)
  {
  }

  function CruiseStart(safety: Safety, home: Pose): Pose {
    home.(z := safety.cruise)
  }

  /** Everything the plan of a flight must satisfy. */
  ghost predicate PlanOk(task: Task, safety: Safety, g: Geometry, p: Plan) {
    && ValueOr(task.stable, safety.stable) == Done(p.stable)
    && ValueOr(task.distance, safety.distance).Done? && ValueOr(task.height, safety.cruise).Done?
    && ObservationPose(p.home, task.target, ValueOr(task.distance, safety.distance).value, ValueOr(task.height, safety.cruise).value, g)
       == Done(p.observation)
    && PoseOk(safety.area, p.observation) && PoseOk(safety.area, CruiseStart(safety, p.home))
    && PathOk(safety.area, CruiseStart(safety, p.home), p.observation,
              SampleCount(g.hypot(p.observation.x - p.home.x, p.observation.y - p.home.y)))
  }

  // ----- the home pose

  predicate Usable(s: Sensors) {
    s.online && s.positionValid && s.pose.Some? && s.pose.value.yaw.Some?
  }

  /** Readings `from`, `from + 1`, ... are usable. */
  predicate SamplesUsable(sensors: nat -> Sensors, from: nat, n: nat) {
    forall k :: from <= k < from + n ==> Usable(sensors(k))
  }

  function Samples(sensors: nat -> Sensors, from: nat, n: nat): (poses: seq<Pose>)
    requires SamplesUsable(sensors, from, n)
    ensures |poses| == n && forall k :: 0 <= k < n ==> sensors(from + k).pose == Some(poses[k]) && poses[k].yaw.Some?
  {
    seq(n, k requires 0 <= k < n && Usable(sensors(from + k)) => sensors(from + k).pose.value)
  }

  /** The sum of the positions. */
  function Total(poses: seq<Pose>): (real, real, real) {
    if |poses| == 0 then (0.0, 0.0, 0.0)
    else
      var t, p := Total(poses[..|poses| - 1]), poses[|poses| - 1];
      (t.0 + p.x, t.1 + p.y, t.2 + p.z)
  }

  function MeanPose(poses: seq<Pose>): Pose
    requires |poses| > 0
  {
    var t, n := Total(poses), |poses| as real;
    Pose(poses[0].frame, t.0 / n, t.1 / n, t.2 / n, poses[0].yaw)
  }

  function Distance2(p: Pose, q: Pose): real {
    Horizontal2(p, q) + (p.z - q.z) * (p.z - q.z)
  }

  /** `sqrt(d2) > limit`. */
  predicate Exceeds(d2: real, limit: real) {
    limit < 0.0 || d2 > limit * limit
  }

  predicate SteadyPosition(poses: seq<Pose>, cfg: HomeConfig)
    requires |poses| > 0
  {
    forall k :: 0 <= k < |poses| ==> !Exceeds(Distance2(poses[k], MeanPose(poses)), cfg.maxPositionJitter)
  }

  predicate SteadyYaw(poses: seq<Pose>, cfg: HomeConfig, g: Geometry)
    requires |poses| > 0 && forall k :: 0 <= k < |poses| ==> poses[k].yaw.Some?
  {
    forall k :: 0 <= k < |poses| ==> g.angularDifference(poses[k].yaw.value, poses[0].yaw.value) <= cfg.maxYawJitter
  }

  /** The home pose is the mean of enough usable, steady samples. */
  predicate IsHome(sensors: nat -> Sensors, from: nat, cfg: HomeConfig, g: Geometry, home: Pose) {
    cfg.samples > 0 && SamplesUsable(sensors, from, cfg.samples)
    && var poses := Samples(sensors, from, cfg.samples);
       SteadyPosition(poses, cfg) && SteadyYaw(poses, cfg, g) && home == MeanPose(poses)
  }

  /** The `k`-th reading is the first that is no use, with this code. */
  predicate FirstUnusable(sensors: nat -> Sensors, from: nat, k: nat, code: string) {
    var s := sensors(from + k);
    SamplesUsable(sensors, from, k)
    && if s.online && s.positionValid && s.pose.Some? then s.pose.value.yaw == None && code == "YAW_UNAVAILABLE" else code == "POSITION_INVALID"
  }

  /** Why the samples give no home pose: the first unusable reading, no sample at all, or too much jitter. */
  ghost predicate HomeFault(sensors: nat -> Sensors, from: nat, cfg: HomeConfig, r: Try<Pose>) {
    || (r.Rejected? && exists k: nat :: k < cfg.samples && FirstUnusable(sensors, from, k, r.code))
    || (cfg.samples == 0 && r == Raised)
    || (cfg.samples > 0 && SamplesUsable(sensors, from, cfg.samples)
        && r == Rejected(if SteadyPosition(Samples(sensors, from, cfg.samples), cfg) then "YAW_UNAVAILABLE" else "POSITION_INVALID"))
  }

  /** The sum of the offsets from a point, in each direction. */
  function Offsets(poses: seq<Pose>, p: Pose): (real, real, real) {
    if |poses| == 0 then (0.0, 0.0, 0.0)
    else
      var t, q := Offsets(poses[..|poses| - 1], p), poses[|poses| - 1];
      (t.0 + (q.x - p.x), t.1 + (q.y - p.y), t.2 + (q.z - p.z))
  }

  function Times(n: nat, x: real): real {
    n as real * x
  }

  lemma TimesNext(n: nat, x: real)
    ensures Times(n + 1, x) == Times(n, x) + x && Times(0, x) == 0.0
  {
  }

  lemma {:induction false} OffsetsFromTotal(poses: seq<Pose>, p: Pose)
    ensures var t, n := Total(poses), |poses|; Offsets(poses, p) == (t.0 - Times(n, p.x), t.1 - Times(n, p.y), t.2 - Times(n, p.z))
  {
    hide Times;
    TimesNext(0, p.x);
    TimesNext(0, p.y);
    TimesNext(0, p.z);
    if |poses| > 0 {
      var m := |poses| - 1;
      OffsetsFromTotal(poses[..m], p);
      TimesNext(m, p.x);
      TimesNext(m, p.y);
      TimesNext(m, p.z);
    }
  }

  /** The home pose is the point about which the samples balance, with the frame and yaw of the first; all samples
      are from devices online with a valid position, within the jitter limits of it and of the first yaw. */
  predicate Balanced(poses: seq<Pose>, cfg: HomeConfig, g: Geometry, home: Pose) {
    && |poses| == cfg.samples > 0
    && (forall k :: 0 <= k < |poses| ==> poses[k].yaw.Some?)
    && home.frame == poses[0].frame && home.yaw == poses[0].yaw && Offsets(poses, home) == (0.0, 0.0, 0.0)
    && (forall k :: 0 <= k < |poses| ==> InJitter(poses[k], home, cfg.maxPositionJitter))
    && (forall k :: 0 <= k < |poses| ==> g.angularDifference(poses[k].yaw.value, poses[0].yaw.value) <= cfg.maxYawJitter)
  }

  predicate InJitter(p: Pose, home: Pose, limit: real) {
    limit >= 0.0 && (p.x - home.x) * (p.x - home.x) + (p.y - home.y) * (p.y - home.y) + (p.z - home.z) * (p.z - home.z) <= limit * limit
  }

  lemma JitterIsDistance(p: Pose, home: Pose, limit: real)
    ensures InJitter(p, home, limit) <==> !Exceeds(Distance2(p, home), limit)
  {
  }

  /** The readings from `from` on show these poses, of a device online with a valid position. */
  ghost predicate Read(sensors: nat -> Sensors, from: nat, poses: seq<Pose>) {
    forall k: nat :: from <= k < from + |poses| ==> sensors(k).online && sensors(k).positionValid && sensors(k).pose == Some(poses[k - from])
  }

  lemma MeanBalances(poses: seq<Pose>, home: Pose)
    requires |poses| > 0
    ensures home == MeanPose(poses) <==> home.frame == poses[0].frame && home.yaw == poses[0].yaw && Offsets(poses, home) == (0.0, 0.0, 0.0)
  {
    hide Total, Offsets;
    OffsetsFromTotal(poses, home);
    CoordinateIs(Total(poses).0, |poses|, home.x);
    CoordinateIs(Total(poses).1, |poses|, home.y);
    CoordinateIs(Total(poses).2, |poses|, home.z);
    hide Times;
  }

  lemma CoordinateIs(t: real, n: nat, x: real)
    requires n > 0
    ensures x == t / n as real <==> t - Times(n, x) == 0.0
  {
    CancelOut(x, n as real);
    assert t / n as real * n as real == t;
  }

  lemma CancelOut(x: real, n: real)
    requires n != 0.0
    ensures x * n / n == x
  {
  }

  lemma HomeIsBalanced(sensors: nat -> Sensors, from: nat, cfg: HomeConfig, g: Geometry, home: Pose)
    requires IsHome(sensors, from, cfg, g, home)
    ensures exists poses :: Read(sensors, from, poses) && Balanced(poses, cfg, g, home)
  {
    hide Total, MeanPose, Offsets, Exceeds, Distance2, InJitter;
    var poses := Samples(sensors, from, cfg.samples);
    MeanBalances(poses, home);
    forall k: nat | from <= k < from + |poses|
      ensures sensors(k).online && sensors(k).positionValid && sensors(k).pose == Some(poses[k - from])
    {
      assert Usable(sensors(k));
      assert sensors(from + (k - from)).pose == Some(poses[k - from]);
    }
    assert Read(sensors, from, poses);
    forall k | 0 <= k < |poses|
      ensures InJitter(poses[k], home, cfg.maxPositionJitter) <==> !Exceeds(Distance2(poses[k], home), cfg.maxPositionJitter)
    {
      JitterIsDistance(poses[k], home, cfg.maxPositionJitter);
    }
  }

  lemma BalancedIsHome(sensors: nat -> Sensors, from: nat, cfg: HomeConfig, g: Geometry, home: Pose, poses: seq<Pose>)
    requires Read(sensors, from, poses) && Balanced(poses, cfg, g, home)
    ensures IsHome(sensors, from, cfg, g, home)
  {
    hide Total, MeanPose, Offsets, Exceeds, Distance2, InJitter;
    MeanBalances(poses, home);
    forall k: nat | from <= k < from + cfg.samples
      ensures Usable(sensors(k))
    {
      assert poses[k - from].yaw.Some?;
    }
    assert SamplesUsable(sensors, from, cfg.samples);
    var samples := Samples(sensors, from, cfg.samples);
    forall k | 0 <= k < |poses|
      ensures samples[k] == poses[k]
    {
      assert sensors(from + k).pose == Some(samples[k]);
    }
    assert samples == poses;
    forall k | 0 <= k < |poses|
      ensures InJitter(poses[k], home, cfg.maxPositionJitter) <==> !Exceeds(Distance2(poses[k], home), cfg.maxPositionJitter)
    {
      JitterIsDistance(poses[k], home, cfg.maxPositionJitter);
    }
  }

  /** What the home pose is, without naming how it is computed. */
  lemma HomeExactly(sensors: nat -> Sensors, from: nat, cfg: HomeConfig, g: Geometry, home: Pose)
    ensures IsHome(sensors, from, cfg, g, home) <==> exists poses :: Read(sensors, from, poses) && Balanced(poses, cfg, g, home)
  {
    hide IsHome, Read, Balanced;
    if IsHome(sensors, from, cfg, g, home) {
      HomeIsBalanced(sensors, from, cfg, g, home);
    }
    if poses :| Read(sensors, from, poses) && Balanced(poses, cfg, g, home) {
      BalancedIsHome(sensors, from, cfg, g, home, poses);
    }
  }

  // ----- the calls of a flight, in order

  const TAKEOFF: nat := 5
  const DETECT: nat := 13
  const LAND: nat := 21

  function Script(p: Plan, cruise: real): (s: seq<Call>)
    ensures |s| == 24 && s[TAKEOFF] == Takeoff(cruise) && s[DETECT] == Detect && s[LAND] == Land
  {
    [Callback(Accepted, "PREFLIGHT_CHECK", 5, 1), SetWork(Preflight), Callback(InProgress, "RECORDING_HOME", 10, 2),
     SetWork(Executing), Callback(InProgress, "TAKING_OFF", 20, 3), Takeoff(cruise),
     Callback(InProgress, "TRANSITING", 40, 4), Goto(p.observation), Callback(InProgress, "STABILIZING", 55, 5), Hold(p.stable),
     Callback(InProgress, "CAPTURING_IMAGE", 65, 6), Capture, Callback(InProgress, "VERIFYING_TARGET", 68, 7), Detect,
     Callback(TargetConfirmed, "VERIFYING_TARGET", 70, 8), Upload, Callback(ImageCaptured, "UPLOADING_IMAGE", 72, 9),
     SetWork(Returning), Callback(ReturningHome, "RETURNING_HOME", 80, 10), Return(p.home, cruise),
     Callback(InProgress, "LANDING", 90, 11), Land, SetWork(Idle), Callback(Completed, "DONE", 100, 12)]
  }

  lemma ScriptCalls(p: Plan, cruise: real)
    ensures var s := Script(p, cruise);
            && s[0] == Callback(Accepted, "PREFLIGHT_CHECK", 5, 1) && s[1] == SetWork(Preflight)
            && s[2] == Callback(InProgress, "RECORDING_HOME", 10, 2) && s[3] == SetWork(Executing)
            && s[4] == Callback(InProgress, "TAKING_OFF", 20, 3) && s[5] == Takeoff(cruise)
            && s[6] == Callback(InProgress, "TRANSITING", 40, 4) && s[7] == Goto(p.observation)
            && s[8] == Callback(InProgress, "STABILIZING", 55, 5) && s[9] == Hold(p.stable)
            && s[10] == Callback(InProgress, "CAPTURING_IMAGE", 65, 6) && s[11] == Capture
            && s[12] == Callback(InProgress, "VERIFYING_TARGET", 68, 7) && s[13] == Detect
            && s[14] == Callback(TargetConfirmed, "VERIFYING_TARGET", 70, 8) && s[15] == Upload
            && s[16] == Callback(ImageCaptured, "UPLOADING_IMAGE", 72, 9) && s[17] == SetWork(Returning)
            && s[18] == Callback(ReturningHome, "RETURNING_HOME", 80, 10) && s[19] == Return(p.home, cruise)
            && s[20] == Callback(InProgress, "LANDING", 90, 11) && s[21] == Land && s[22] == SetWork(Idle)
            && s[23] == Callback(Completed, "DONE", 100, 12)
  {
  }

  /** The steps of the script that set the work state, which always succeeds. */
  predicate SetsWork(k: nat) {
    k == 1 || k == 3 || k == 17 || k == 22
  }

  lemma ScriptSetsWork(p: Plan, cruise: real, k: nat)
    requires k < 24
    ensures Script(p, cruise)[k].SetWork? <==> SetsWork(k)
  {
    ScriptCalls(p, cruise);
    hide Script;
  }

  function AllOk(calls: seq<Call>): (e: seq<Effect>)
    ensures |e| == |calls| && forall i :: 0 <= i < |e| ==> e[i] == Effect(calls[i], true)
  {
    seq(|calls|, i requires 0 <= i < |calls| => Effect(calls[i], true))
  }

  /** The first `i` calls of the script returned; the next was not made, or raised. */
  predicate Stopped(e: seq<Effect>, script: seq<Call>, i: nat, raised: bool) {
    i <= |script| && (raised ==> i < |script|) && e == AllOk(script[..i]) + if raised then [Effect(script[i], false)] else []
  }

  /** Where the flight stands when the script stops after `i` calls. */
  predicate AirborneAfter(i: nat) {
    TAKEOFF < i <= LAND
  }

  function Callbacks(calls: seq<Call>): nat {
    if |calls| == 0 then 0 else Callbacks(calls[..|calls| - 1]) + if calls[|calls| - 1].Callback? then 1 else 0
  }

  /** How many feedback messages the first `i` calls of the script, and the next if it raised, make. */
  function Made(i: nat, raised: bool): nat {
    if i <= LAND then (i + 1) / 2 + (if raised && i % 2 == 0 then 1 else 0)
    else 11 + (if i == 24 || (i == 23 && raised) then 1 else 0)
  }

  predicate IsMessage(c: Call, n: nat) {
    c.Callback? && c.sequence == n
  }

  lemma ScriptMessages(p: Plan, cruise: real)
    ensures var s := Script(p, cruise);
            && IsMessage(s[0], 1) && IsMessage(s[2], 2) && IsMessage(s[4], 3) && IsMessage(s[6], 4) && IsMessage(s[8], 5)
            && IsMessage(s[10], 6) && IsMessage(s[12], 7) && IsMessage(s[14], 8) && IsMessage(s[16], 9) && IsMessage(s[18], 10)
            && IsMessage(s[20], 11) && IsMessage(s[23], 12)
            && !s[1].Callback? && !s[3].Callback? && !s[5].Callback? && !s[7].Callback? && !s[9].Callback? && !s[11].Callback?
            && !s[13].Callback? && !s[15].Callback? && !s[17].Callback? && !s[19].Callback? && !s[21].Callback? && !s[22].Callback?
  {
    ScriptCalls(p, cruise);
    hide Script;
  }

  lemma ScriptKinds(p: Plan, cruise: real, i: nat)
    requires i < 24
    ensures Script(p, cruise)[i].Callback? <==> (i % 2 == 0 && i < LAND) || i == 23
    ensures Script(p, cruise)[i].Callback? ==> Script(p, cruise)[i].sequence == Made(i, false) + 1
  {
    ScriptMessages(p, cruise);
    hide Script;
  }

  lemma {:induction false} MadeCounts(p: Plan, cruise: real, i: nat)
    requires i <= 24
    ensures Callbacks(Script(p, cruise)[..i]) == Made(i, false)
  {
    hide Script;
    var s := Script(p, cruise);
    if i > 0 {
      MadeCounts(p, cruise, i - 1);
      ScriptKinds(p, cruise, i - 1);
      assert s[..i][..i - 1] == s[..i - 1];
    }
  }

  /** The script's messages are numbered in order. */
  lemma ScriptNumbers(p: Plan, cruise: real, i: nat)
    requires i < 24 && Script(p, cruise)[i].Callback?
    ensures Script(p, cruise)[i].sequence == Callbacks(Script(p, cruise)[..i]) + 1 == Made(i, true)
  {
    hide Script;
    ScriptKinds(p, cruise, i);
    MadeCounts(p, cruise, i);
  }

  // ----- recovery

  /** How the recovery goes: the reading of the position, and which calls return. */
  datatype Recovery = NoPosition | ReturnRaises | LandRaises | Recovers

  /** The way home is tried with a valid position, and each call only when the one before returned. */
  function RecoveryOf(positionValid: bool, returned: bool, landed: bool): Recovery {
    if !positionValid then NoPosition else if !returned then ReturnRaises else if !landed then LandRaises else Recovers
  }

  function RecoveryCalls(r: Recovery, home: Pose, cruise: real): seq<Effect> {
    match r
    case NoPosition => [Effect(Takeover, true)]
    case ReturnRaises => [Effect(SetWork(Returning), true), Effect(Return(home, cruise), false), Effect(Takeover, true)]
    case LandRaises => [Effect(SetWork(Returning), true), Effect(Return(home, cruise), true), Effect(Land, false), Effect(Takeover, true)]
    case Recovers => [Effect(SetWork(Returning), true), Effect(Return(home, cruise), true), Effect(Land, true), Effect(SetWork(Idle), true)]
  }

  /** How a run ends: what the final message says and whether it got through, how the recovery goes,
      and whether a device on the ground is set idle. */
  datatype Ending = Ending(status: Status, told: bool, recovery: Recovery, idle: bool)

  function Attempt(p: Plan, cruise: real, i: nat, raised: bool): seq<Effect>
    requires i <= 24 && (raised ==> i < 24)
  {
    AllOk(Script(p, cruise)[..i]) + if raised then [Effect(Script(p, cruise)[i], false)] else []
  }

  function LastWords(i: nat, raised: bool, end: Ending): seq<Effect> {
    if i == 24 then []
    else [Effect(Callback(end.status, if AirborneAfter(i) then "RETURNING_HOME" else "PREFLIGHT_CHECK", 0, Made(i, raised) + 1), end.told)]
  }

  function Cleanup(p: Plan, cruise: real, i: nat, end: Ending): seq<Effect> {
    if AirborneAfter(i) then RecoveryCalls(end.recovery, p.home, cruise)
    else if end.idle then [Effect(SetWork(Idle), true)]
    else []
  }

  /** Everything a run does: the script as far as it got, the message about the failure, the cleanup. */
  function RunLog(p: Plan, cruise: real, i: nat, raised: bool, end: Ending): seq<Effect>
    requires i <= 24 && (raised ==> i < 24)
  {
    Attempt(p, cruise, i, raised) + LastWords(i, raised, end) + Cleanup(p, cruise, i, end)
  }

  predicate IsMotion(c: Call) {
    c.Takeoff? || c.Goto? || c.Hold? || c.Return? || c.Land?
  }

  predicate TookOff(e: seq<Effect>) {
    exists i :: 0 <= i < |e| && e[i].call.Takeoff? && e[i].ok
  }

  /** The last motion is a landing that returned. */
  predicate LandedLast(e: seq<Effect>) {
    exists i :: 0 <= i < |e| && e[i] == Effect(Land, true) && forall j :: i < j < |e| ==> !IsMotion(e[j].call)
  }

  predicate AskedForPilot(e: seq<Effect>) {
    exists i :: 0 <= i < |e| && e[i].call == Takeover
  }

  lemma Landed(before: seq<Effect>, after: seq<Effect>)
    requires forall j :: 0 <= j < |after| ==> !IsMotion(after[j].call)
    ensures LandedLast(before + [Effect(Land, true)] + after)
  {
    var e := before + [Effect(Land, true)] + after;
    assert e[|before|] == Effect(Land, true);
  }

  /** A run whose take-off returned ends with a landing that returned as the last motion, or with the
      pilot asked to take over. */
  lemma RunIsSafe(p: Plan, cruise: real, i: nat, raised: bool, end: Ending)
    requires i <= 24 && (raised ==> i < 24) && TookOff(RunLog(p, cruise, i, raised, end))
    ensures LandedLast(RunLog(p, cruise, i, raised, end)) || AskedForPilot(RunLog(p, cruise, i, raised, end))
  {
    hide Script, LandedLast, AskedForPilot, RunLog, Attempt, LastWords;
    var e := RunLog(p, cruise, i, raised, end);
    if AirborneAfter(i) {
      RunSplits(p, cruise, i, raised, end);
      RecoveryEnds(e[..|e| - |Cleanup(p, cruise, i, end)|], p, cruise, end.recovery);
    } else if i > LAND {
      LandedInScript(p, cruise, i, raised, end);
    } else {
      NeverTookOff(p, cruise, i, raised, end);
    }
  }

  lemma RunSplits(p: Plan, cruise: real, i: nat, raised: bool, end: Ending)
    requires i <= 24 && (raised ==> i < 24)
    ensures var e, c := RunLog(p, cruise, i, raised, end), Cleanup(p, cruise, i, end);
            |c| <= |e| && e == e[..|e| - |c|] + c
  {
  }

  lemma RecoveryEnds(before: seq<Effect>, p: Plan, cruise: real, r: Recovery)
    ensures var e := before + RecoveryCalls(r, p.home, cruise); LandedLast(e) || AskedForPilot(e)
  {
    hide LandedLast;
    var c := RecoveryCalls(r, p.home, cruise);
    var e := before + c;
    if r == Recovers {
      Landed(before + c[..2], c[3..]);
      assert e == before + c[..2] + [Effect(Land, true)] + c[3..];
    } else {
      assert e[|e| - 1] == c[|c| - 1];
    }
  }

  lemma AfterLanding(p: Plan, cruise: real, i: nat, raised: bool)
    requires LAND < i <= 24 && (raised ==> i < 24)
    ensures var a := Attempt(p, cruise, i, raised);
            |a| > LAND && a[LAND] == Effect(Land, true) && forall j :: LAND < j < |a| ==> !IsMotion(a[j].call)
  {
    ScriptCalls(p, cruise);
    hide Script;
    var s, a := Script(p, cruise), Attempt(p, cruise, i, raised);
    forall j | LAND < j < |a|
      ensures !IsMotion(a[j].call)
    {
      assert a[j].call == s[j];
    }
  }

  lemma LandedInScript(p: Plan, cruise: real, i: nat, raised: bool, end: Ending)
    requires LAND < i <= 24 && (raised ==> i < 24)
    ensures LandedLast(RunLog(p, cruise, i, raised, end))
  {
    hide LandedLast, Attempt;
    AfterLanding(p, cruise, i, raised);
    var a := Attempt(p, cruise, i, raised);
    var tail := a[LAND + 1..];
    assert a == a[..LAND] + [a[LAND]] + tail;
    assert forall j :: 0 <= j < |tail| ==> tail[j] == a[LAND + 1 + j];
    var rest := tail + LastWords(i, raised, end) + Cleanup(p, cruise, i, end);
    Landed(a[..LAND], rest);
    assert RunLog(p, cruise, i, raised, end) == a[..LAND] + [Effect(Land, true)] + rest;
  }

  lemma NeverTookOff(p: Plan, cruise: real, i: nat, raised: bool, end: Ending)
    requires i <= TAKEOFF
    ensures !TookOff(RunLog(p, cruise, i, raised, end))
  {
    ScriptCalls(p, cruise);
    hide Script;
    var s, a := Script(p, cruise), Attempt(p, cruise, i, raised);
    forall j | 0 <= j < |a|
      ensures !(a[j].call.Takeoff? && a[j].ok)
    {
      assert a[j].call == s[j] && (j == i ==> !a[j].ok);
    }
  }

  function CallsOf(e: seq<Effect>): (calls: seq<Call>)
    ensures |calls| == |e| && forall j :: 0 <= j < |e| ==> calls[j] == e[j].call
  {
    seq(|e|, j requires 0 <= j < |e| => e[j].call)
  }

  /** The calls attempted are the first of the script. */
  lemma AttemptedCalls(p: Plan, cruise: real, i: nat, raised: bool)
    requires i <= 24 && (raised ==> i < 24)
    ensures CallsOf(Attempt(p, cruise, i, raised)) == Script(p, cruise)[..if raised then i + 1 else i]
  {
    hide Script;
  }

  lemma CallsPrefix(a: seq<Effect>, b: seq<Effect>, s: seq<Call>, n: nat, j: nat)
    requires n <= |s| && CallsOf(a) == s[..n] && j <= n
    ensures |a| == n && CallsOf(a + b)[..j] == s[..j]
    ensures j < n ==> (a + b)[j].call == s[j]
  {
    assert CallsOf(a + b)[..j] == CallsOf(a)[..j];
  }

  /** The feedback messages of a run are numbered 1, 2, 3, ... */
  lemma RunIsNumbered(p: Plan, cruise: real, i: nat, raised: bool, end: Ending, j: nat)
    requires i <= 24 && (raised ==> i < 24) && j < |RunLog(p, cruise, i, raised, end)|
    requires RunLog(p, cruise, i, raised, end)[j].call.Callback?
    ensures RunLog(p, cruise, i, raised, end)[j].call.sequence == Callbacks(CallsOf(RunLog(p, cruise, i, raised, end))[..j]) + 1
  {
    hide Script, Callbacks, Attempt, CallsOf, LastWords, Cleanup;
    var e, a, rest := RunLog(p, cruise, i, raised, end), Attempt(p, cruise, i, raised), LastWords(i, raised, end) + Cleanup(p, cruise, i, end);
    assert e == a + rest;
    AttemptedCalls(p, cruise, i, raised);
    NumberedIn(p, cruise, i, raised, end, a, rest, j);
  }

  lemma NumberedIn(p: Plan, cruise: real, i: nat, raised: bool, end: Ending, a: seq<Effect>, rest: seq<Effect>, j: nat)
    requires i <= 24 && (raised ==> i < 24) && j < |a + rest| && (a + rest)[j].call.Callback?
    requires a == Attempt(p, cruise, i, raised) && a + rest == RunLog(p, cruise, i, raised, end)
    requires CallsOf(a) == Script(p, cruise)[..if raised then i + 1 else i]
    ensures (a + rest)[j].call.sequence == Callbacks(CallsOf(a + rest)[..j]) + 1
  {
    hide *;
    var n := if raised then i + 1 else i;
    CallsPrefix(a, rest, Script(p, cruise), n, if j < n then j else n);
    if j < n {
      ScriptNumbers(p, cruise, j);
    } else {
      NotInCleanup(p, cruise, i, raised, end, j);
      MadeCounts(p, cruise, n);
      if raised {
        MadeNext(i);
      }
    }
  }

  lemma MadeNext(i: nat)
    requires i < 24
    ensures Made(i, true) == Made(i + 1, false)
  {
  }

  lemma NotInCleanup(p: Plan, cruise: real, i: nat, raised: bool, end: Ending, j: nat)
    requires i <= 24 && (raised ==> i < 24) && |Attempt(p, cruise, i, raised)| <= j < |RunLog(p, cruise, i, raised, end)|
    requires RunLog(p, cruise, i, raised, end)[j].call.Callback?
    ensures j == |Attempt(p, cruise, i, raised)| && RunLog(p, cruise, i, raised, end)[j].call.sequence == Made(i, raised) + 1
  {
    hide Attempt;
  }

  // ----- the order of the calls

  ghost predicate DoneBefore(e: seq<Effect>, j: nat, call: Call)
    requires j <= |e|
  {
    exists i :: 0 <= i < j && e[i] == Effect(call, true)
  }

  /** The last motion before position `j` was this, and it came back. */
  ghost predicate LastMotion(e: seq<Effect>, j: nat, call: Call)
    requires j <= |e|
  {
    exists i :: 0 <= i < j && e[i] == Effect(call, true) && forall m :: i < m < j ==> !IsMotion(e[m].call)
  }

  /** Each call comes in its place: the picture is taken when the vehicle has gone to the observation point and held
      for the stable time; the target is looked for in a picture, and only after that the picture is uploaded; a
      landing follows a return to the home; and messages claim only what has been done. */
  ghost predicate InPlace(e: seq<Effect>, j: nat, p: Plan, cruise: real)
    requires j < |e|
  {
    match e[j].call
    case Takeoff(h) => h == cruise && DoneBefore(e, j, SetWork(Executing))
    case Goto(to) => to == p.observation && LastMotion(e, j, Takeoff(cruise))
    case Hold(d) => d == p.stable && LastMotion(e, j, Goto(p.observation))
    case Capture => LastMotion(e, j, Hold(p.stable))
    case Detect => DoneBefore(e, j, Capture)
    case Upload => DoneBefore(e, j, Detect)
    case Return(home, h) => home == p.home && h == cruise && DoneBefore(e, j, Takeoff(cruise)) && DoneBefore(e, j, SetWork(Returning))
    case Land => LastMotion(e, j, Return(p.home, cruise))
    case Takeover => DoneBefore(e, j, Takeoff(cruise))
    case SetWork(_) => true
    case Callback(status, _, _, _) =>
      && (status == TargetConfirmed ==> DoneBefore(e, j, Detect))
      && (status == ImageCaptured ==> DoneBefore(e, j, Upload))
      && (status == ReturningHome ==> DoneBefore(e, j, SetWork(Returning)))
      && (status == Completed ==> LastMotion(e, j, Land) && DoneBefore(e, j, Upload))
  }

  /** What has been done in the script before the `j`-th call. */
  lemma ScriptDone(p: Plan, cruise: real, e: seq<Effect>, j: nat, m: nat)
    requires m < j <= |e| && j <= 24 && forall k :: 0 <= k < j ==> e[k] == Effect(Script(p, cruise)[k], true)
    ensures DoneBefore(e, j, Script(p, cruise)[m])
  {
    assert e[m] == Effect(Script(p, cruise)[m], true);
  }

  lemma ScriptMotion(p: Plan, cruise: real, e: seq<Effect>, j: nat, m: nat)
    requires m < j <= |e| && j <= 24 && forall k :: 0 <= k < j ==> e[k] == Effect(Script(p, cruise)[k], true)
    requires forall k :: m < k < j ==> !IsMotion(Script(p, cruise)[k])
    ensures LastMotion(e, j, Script(p, cruise)[m])
  {
    assert e[m] == Effect(Script(p, cruise)[m], true);
  }

  lemma AttemptInPlace(p: Plan, cruise: real, e: seq<Effect>, j: nat)
    requires j < |e| && j < 24 && e[j].call == Script(p, cruise)[j]
    requires forall k :: 0 <= k < j ==> e[k] == Effect(Script(p, cruise)[k], true)
    ensures InPlace(e, j, p, cruise)
  {
    hide *;
    if j <= 6 {
      StartInPlace(p, cruise, e, j);
    } else if j <= 12 {
      OutInPlace(p, cruise, e, j);
    } else if j <= 18 {
      PictureInPlace(p, cruise, e, j);
    } else {
      BackInPlace(p, cruise, e, j);
    }
  }

  lemma StartInPlace(p: Plan, cruise: real, e: seq<Effect>, j: nat)
    requires j < |e| && 0 <= j <= 6 && e[j].call == Script(p, cruise)[j]
    requires forall k :: 0 <= k < j ==> e[k] == Effect(Script(p, cruise)[k], true)
    ensures InPlace(e, j, p, cruise)
  {
    ScriptCalls(p, cruise);
    hide Script, DoneBefore, LastMotion;
    if j == 5 {
      ScriptDone(p, cruise, e, j, 3);
    }
  }

  lemma OutInPlace(p: Plan, cruise: real, e: seq<Effect>, j: nat)
    requires j < |e| && 7 <= j <= 12 && e[j].call == Script(p, cruise)[j]
    requires forall k :: 0 <= k < j ==> e[k] == Effect(Script(p, cruise)[k], true)
    ensures InPlace(e, j, p, cruise)
  {
    ScriptCalls(p, cruise);
    hide Script, DoneBefore, LastMotion;
    if j == 7 {
      ScriptMotion(p, cruise, e, j, 5);
    } else if j == 9 {
      ScriptMotion(p, cruise, e, j, 7);
    } else if j == 11 {
      ScriptMotion(p, cruise, e, j, 9);
    }
  }

  lemma PictureInPlace(p: Plan, cruise: real, e: seq<Effect>, j: nat)
    requires j < |e| && 13 <= j <= 18 && e[j].call == Script(p, cruise)[j]
    requires forall k :: 0 <= k < j ==> e[k] == Effect(Script(p, cruise)[k], true)
    ensures InPlace(e, j, p, cruise)
  {
    ScriptCalls(p, cruise);
    hide Script, DoneBefore, LastMotion;
    if j == 13 {
      ScriptDone(p, cruise, e, j, 11);
    } else if j == 14 || j == 15 {
      ScriptDone(p, cruise, e, j, 13);
    } else if j == 16 {
      ScriptDone(p, cruise, e, j, 15);
    } else if j == 18 {
      ScriptDone(p, cruise, e, j, 17);
    }
  }

  lemma BackInPlace(p: Plan, cruise: real, e: seq<Effect>, j: nat)
    requires j < |e| && 19 <= j <= 23 && e[j].call == Script(p, cruise)[j]
    requires forall k :: 0 <= k < j ==> e[k] == Effect(Script(p, cruise)[k], true)
    ensures InPlace(e, j, p, cruise)
  {
    var s := Script(p, cruise);
    assert s[5] == Takeoff(cruise) && s[15] == Upload && s[17] == SetWork(Returning) && s[19] == Return(p.home, cruise)
      && s[20].Callback? && s[20].status == InProgress && s[21] == Land && s[22] == SetWork(Idle) && s[23] == Callback(Completed, "DONE", 100, 12) by
    {
      ScriptCalls(p, cruise);
    }
    hide Script, DoneBefore, LastMotion;
    if j == 19 {
      ScriptDone(p, cruise, e, j, 5);
      ScriptDone(p, cruise, e, j, 17);
    } else if j == 21 {
      ScriptMotion(p, cruise, e, j, 19);
    } else if j == 23 {
      ScriptDone(p, cruise, e, j, 15);
      ScriptMotion(p, cruise, e, j, 21);
    }
  }

  lemma CleanupInPlace(p: Plan, cruise: real, e: seq<Effect>, n: nat, r: Recovery, j: nat)
    requires n <= j < |e| && e[n..] == RecoveryCalls(r, p.home, cruise) && TAKEOFF < n && e[TAKEOFF] == Effect(Takeoff(cruise), true)
    ensures InPlace(e, j, p, cruise)
  {
    assert e[j] == e[n..][j - n];
    assert DoneBefore(e, j, Takeoff(cruise));
    if j > n {
      assert e[n] == e[n..][0];
      assert j > n + 1 ==> e[n + 1] == e[n..][1];
    }
  }

  /** Every call of every run is in its place. */
  lemma FlightInOrder(p: Plan, cruise: real, i: nat, raised: bool, end: Ending, j: nat)
    requires i <= 24 && (raised ==> i < 24) && end.status in {Refused, Failed} && j < |RunLog(p, cruise, i, raised, end)|
    ensures InPlace(RunLog(p, cruise, i, raised, end), j, p, cruise)
  {
    var e, a := RunLog(p, cruise, i, raised, end), Attempt(p, cruise, i, raised);
    hide Script, DoneBefore, LastMotion, InPlace, RecoveryCalls;
    if j < |a| {
      AttemptInPlace(p, cruise, e, j);
    } else if j < |a| + |LastWords(i, raised, end)| {
      WordsInPlace(e, j, p, cruise);
    } else if AirborneAfter(i) {
      RecoveryInPlace(p, cruise, i, raised, end, j);
    } else {
      IdleInPlace(e, j, p, cruise);
    }
  }

  lemma RecoveryInPlace(p: Plan, cruise: real, i: nat, raised: bool, end: Ending, j: nat)
    requires i <= 24 && (raised ==> i < 24) && AirborneAfter(i)
    requires |Attempt(p, cruise, i, raised)| + |LastWords(i, raised, end)| <= j < |RunLog(p, cruise, i, raised, end)|
    ensures InPlace(RunLog(p, cruise, i, raised, end), j, p, cruise)
  {
    var e, n := RunLog(p, cruise, i, raised, end), |Attempt(p, cruise, i, raised)| + |LastWords(i, raised, end)|;
    hide Script, DoneBefore, LastMotion, InPlace, RecoveryCalls;
    assert e[n..] == RecoveryCalls(end.recovery, p.home, cruise);
    CleanupInPlace(p, cruise, e, n, end.recovery, j);
  }

  lemma WordsInPlace(e: seq<Effect>, j: nat, p: Plan, cruise: real)
    requires j < |e| && e[j].call.Callback? && e[j].call.status in {Refused, Failed}
    ensures InPlace(e, j, p, cruise)
  {
  }

  lemma IdleInPlace(e: seq<Effect>, j: nat, p: Plan, cruise: real)
    requires j < |e| && e[j].call.SetWork?
    ensures InPlace(e, j, p, cruise)
  {
  }
}
