/** Which histories of samples lead to which decision, without the supervisor's own state. */
module SupervisorConditions {
  import opened Wrappers
  import opened SafetySupervisors
  import opened SupervisorRuns

  // ----- what the samples say

  /** The age is known and below the limit; a negative age counts as zero. */
  predicate Recent(age: Option<real>, limit: real) {
    age.Some? && age.value < limit && 0.0 < limit
  }

  /** The pose, or the position when there is no pose, is complete. */
  predicate LocatedAt(s: Sample, p: Point3) {
    var raw := RawPoint(Some(p.x), Some(p.y), Some(p.z));
    s.pose == Some(raw) || (s.pose == None && s.position == Some(raw))
  }

  ghost predicate Located(s: Sample) {
    exists p :: LocatedAt(s, p)
  }

  ghost predicate Sound(th: Thresholds, s: Sample) {
    Located(s) && s.declared != Some(false) && Recent(s.positionAge, th.positionFailure)
  }

  ghost predicate SoundAt(th: Thresholds, events: seq<Event>, j: nat)
    requires j < |events|
  {
    events[j].Reading? && Sound(th, events[j].s)
  }

  /** The last sound sample before the `k`-th event, since the last reset. */
  ghost predicate LastSound(th: Thresholds, events: seq<Event>, k: nat, j: nat)
    requires k <= |events|
  {
    j < k && SoundAt(th, events, j) && NoReset(events, j, k) && forall i: nat :: j < i < k ==> !SoundAt(th, events, i)
  }

  ghost predicate Close(th: Thresholds, s: Sample, t: Sample) {
    exists p, q :: LocatedAt(s, p) && LocatedAt(t, q)
      && (p.x - q.x) * (p.x - q.x) + (p.y - q.y) * (p.y - q.y) + (p.z - q.z) * (p.z - q.z) <= th.maxJump * th.maxJump
  }

  /** The sample is sound and no jump away from the last sound one. */
  ghost predicate Steady(th: Thresholds, events: seq<Event>, k: nat)
    requires k < |events|
  {
    SoundAt(th, events, k) && forall j: nat :: LastSound(th, events, k, j) ==> Close(th, events[j].s, events[k].s)
  }

  /** Samples `a`, ..., `k` are steady, and the event before them is not. */
  ghost predicate SteadySince(th: Thresholds, events: seq<Event>, a: nat, k: nat)
    requires k < |events|
  {
    a <= k && (forall i: nat :: a <= i <= k ==> Steady(th, events, i)) && (a > 0 ==> !Steady(th, events, a - 1))
  }

  /** The position has been steady for the stable time. */
  ghost predicate Stable(th: Thresholds, events: seq<Event>, k: nat)
    requires k < |events| && events[k].Reading?
  {
    exists a: nat :: SteadySince(th, events, a, k) && events[a].Reading? && events[k].now - events[a].now >= th.stable
  }

  // ----- the supervisor's state says the same

  lemma LocatedIsPosition(s: Sample)
    ensures forall p :: LocatedAt(s, p) <==> Position(s) == Some(p)
    ensures Located(s) <==> Position(s).Some?
  {
    forall p
      ensures LocatedAt(s, p) <==> Position(s) == Some(p)
    {
    }
    if Position(s).Some? {
      assert LocatedAt(s, Position(s).value);
    }
  }

  lemma RecentReaches(age: Option<real>, limit: real)
    ensures Reaches(age, limit) <==> !Recent(age, limit)
  {
  }

  lemma CloseIsNoJump(th: Thresholds, s: Sample, t: Sample)
    requires Located(s) && Located(t)
    ensures Position(s).Some? && Position(t).Some? && (Close(th, s, t) <==> !Jumps(th, Position(s).value, Position(t).value))
  {
    hide Position, LocatedAt;
    LocatedIsPosition(s);
    LocatedIsPosition(t);
    var p, q := Position(s).value, Position(t).value;
    assert LocatedAt(s, p) && LocatedAt(t, q);
  }

  /** What the remembered position and clock mean before the `n`-th event. */
  ghost predicate Remembers(th: Thresholds, events: seq<Event>, n: nat, st: State)
    requires n <= |events|
  {
    && (forall j: nat :: LastSound(th, events, n, j) ==> st.last == Position(events[j].s))
    && (st.last.Some? ==> exists j: nat :: LastSound(th, events, n, j))
    && (st.since.Some? <==> n > 0 && Steady(th, events, n - 1))
    && (st.since.Some? ==> ClockSetAt(th, events, n - 1, st.since.value))
  }

  ghost predicate ClockSetAt(th: Thresholds, events: seq<Event>, k: nat, now: real)
    requires k < |events|
  {
    exists a: nat :: SteadySince(th, events, a, k) && events[a].Reading? && events[a].now == now
  }

  lemma SoundIsFresh(th: Thresholds, s: Sample)
    ensures Sound(th, s) <==> Fresh(th, s)
    ensures Sound(th, s) <==> Located(s) && s.declared != Some(false) && !Reaches(s.positionAge, th.positionFailure)
  {
    LocatedIsPosition(s);
    RecentReaches(s.positionAge, th.positionFailure);
  }

  lemma SteadyIsNoJump(th: Thresholds, events: seq<Event>, k: nat, st: State)
    requires k < |events| && SoundAt(th, events, k) && Remembers(th, events, k, st)
    ensures Position(events[k].s).Some?
    ensures Steady(th, events, k) <==> st.last == None || !Jumps(th, st.last.value, Position(events[k].s).value)
  {
    hide Position, Jumps, Recent, NoReset, ClockSetAt;
    LocatedIsPosition(events[k].s);
    if st.last.Some? {
      var j: nat :| LastSound(th, events, k, j);
      CloseIsNoJump(th, events[j].s, events[k].s);
      forall i: nat | LastSound(th, events, k, i)
        ensures i == j
      {
        assert !(i < j) && !(j < i);
      }
    } else {
      forall j: nat | LastSound(th, events, k, j)
        ensures false
      {
        LocatedIsPosition(events[j].s);
      }
    }
  }

  lemma LastSoundNext(th: Thresholds, events: seq<Event>, k: nat, j: nat)
    requires k < |events| && events[k].Reading?
    ensures LastSound(th, events, k + 1, j) <==> if SoundAt(th, events, k) then j == k else LastSound(th, events, k, j)
  {
    hide Sound;
  }

  /** One start for a steady stretch. */
  lemma OneStart(th: Thresholds, events: seq<Event>, a: nat, b: nat, k: nat)
    requires k < |events| && SteadySince(th, events, a, k) && SteadySince(th, events, b, k)
    ensures a == b
  {
    hide Steady;
  }

  lemma StretchGrows(th: Thresholds, events: seq<Event>, a: nat, k: nat)
    requires k + 1 < |events| && Steady(th, events, k + 1)
    ensures Steady(th, events, k) && SteadySince(th, events, a, k) ==> SteadySince(th, events, a, k + 1)
    ensures !Steady(th, events, k) ==> SteadySince(th, events, k + 1, k + 1)
  {
    hide Steady;
  }

  /** The clock of a steady sample, and what it says. */
  lemma ClockAt(th: Thresholds, events: seq<Event>, k: nat, st: State)
    requires k < |events| && events[k].Reading? && Steady(th, events, k) && Remembers(th, events, k, st)
    ensures var since := if st.since == None then events[k].now else st.since.value;
            ClockSetAt(th, events, k, since) && (Stable(th, events, k) <==> events[k].now - since >= th.stable)
  {
    hide Steady, LastSound;
    var since := if st.since == None then events[k].now else st.since.value;
    var a: nat;
    if st.since == None {
      a := k;
      if k > 0 {
        StretchGrows(th, events, k, k - 1);
      }
      assert SteadySince(th, events, k, k);
    } else {
      a :| SteadySince(th, events, a, k - 1) && events[a].Reading? && events[a].now == since;
      StretchGrows(th, events, a, k - 1);
    }
    assert SteadySince(th, events, a, k) && events[a].now == since;
    if Stable(th, events, k) {
      var b: nat :| SteadySince(th, events, b, k) && events[b].Reading? && events[k].now - events[b].now >= th.stable;
      OneStart(th, events, a, b, k);
    }
  }

  lemma SteadyReads(th: Thresholds, events: seq<Event>, k: nat)
    requires k < |events| && Steady(th, events, k)
    ensures events[k].Reading? && Located(events[k].s)
  {
  }

  /** The verdict on the position, in terms of the samples so far. */
  lemma HealthIsHistory(th: Thresholds, events: seq<Event>, k: nat, st: State)
    requires k < |events| && events[k].Reading? && Remembers(th, events, k, st)
    ensures var code, s := Health(th, st, events[k].s, events[k].now).1, events[k].s;
            && (code == OK <==> Steady(th, events, k) && Stable(th, events, k))
            && (code == "POSITION_RECOVERING" <==> Steady(th, events, k) && !Stable(th, events, k))
            && (code == "POSITION_JUMP" <==> SoundAt(th, events, k) && !Steady(th, events, k))
            && (code == "POSITION_STALE" <==> Located(s) && s.declared != Some(false) && !Recent(s.positionAge, th.positionFailure))
            && (code == "POSITION_INVALID" <==> !Located(s) || s.declared == Some(false))
  {
    hide Steady, Stable, LastSound, Remembers, Jumps, Position, Reaches, Recent;
    var s := events[k].s;
    LocatedIsPosition(s);
    RecentReaches(s.positionAge, th.positionFailure);
    SoundIsFresh(th, s);
    if SoundAt(th, events, k) {
      SteadyIsNoJump(th, events, k, st);
      if Steady(th, events, k) {
        ClockAt(th, events, k, st);
      }
    } else {
      NotSoundNotSteady(th, events, k);
    }
  }

  lemma NotSoundNotSteady(th: Thresholds, events: seq<Event>, k: nat)
    requires k < |events| && !SoundAt(th, events, k)
    ensures !Steady(th, events, k)
  {
  }

  /** What is remembered of a sample: its position when it is sound, and the clock when it is steady. */
  lemma HealthRemembers(th: Thresholds, events: seq<Event>, k: nat, st: State)
    requires k < |events| && events[k].Reading? && Remembers(th, events, k, st)
    ensures var h := Health(th, st, events[k].s, events[k].now).0;
            && h.last == (if SoundAt(th, events, k) then Position(events[k].s) else st.last)
            && h.since == if !Steady(th, events, k) then None else if st.since == None then Some(events[k].now) else st.since
  {
    hide Steady, Stable, LastSound, Remembers, Jumps, Position, Reaches, Recent;
    SoundIsFresh(th, events[k].s);
    LocatedIsPosition(events[k].s);
    if SoundAt(th, events, k) {
      SteadyIsNoJump(th, events, k, st);
    } else {
      NotSoundNotSteady(th, events, k);
    }
  }

  lemma ReadingRemembered(th: Thresholds, events: seq<Event>, k: nat, st: State, next: State)
    requires k < |events| && events[k].Reading? && Remembers(th, events, k, st)
    requires var h := Health(th, st, events[k].s, events[k].now).0; next.since == h.since && next.last == h.last
    ensures Remembers(th, events, k + 1, next)
  {
    hide Steady, Stable, Health, Sound, Position, ClockSetAt, NoReset;
    HealthRemembers(th, events, k, st);
    forall j: nat | LastSound(th, events, k + 1, j)
      ensures next.last == Position(events[j].s)
    {
      LastSoundNext(th, events, k, j);
    }
    if next.last.Some? {
      var j: nat;
      if SoundAt(th, events, k) {
        j := k;
      } else {
        j :| LastSound(th, events, k, j);
      }
      LastSoundNext(th, events, k, j);
      assert LastSound(th, events, k + 1, j);
    }
    if Steady(th, events, k) {
      ClockAt(th, events, k, st);
    }
    assert next.since.Some? <==> Steady(th, events, k + 1 - 1);
  }

  lemma NothingRemembered(th: Thresholds, events: seq<Event>, n: nat)
    requires n <= |events| && (n == 0 || events[n - 1].Reset?)
    ensures Remembers(th, events, n, CLEAR)
  {
    hide Sound;
    if n > 0 {
      NotSoundNotSteady(th, events, n - 1);
    }
  }

  lemma {:induction false} StateIsHistory(th: Thresholds, events: seq<Event>, n: nat)
    requires n <= |events|
    ensures Remembers(th, events, n, Before(th, events, n))
  {
    hide Remembers, Evaluated, Health;
    if n == 0 || events[n - 1].Reset? {
      NothingRemembered(th, events, n);
    } else {
      StateIsHistory(th, events, n - 1);
      var e, st := events[n - 1], Before(th, events, n - 1);
      EvaluatedKeepsHealth(th, st, e.s, e.now, e.airborne, e.accepting);
      ReadingRemembered(th, events, n - 1, st, Before(th, events, n));
    }
  }

  // ----- the decisions

  predicate Below(value: Option<real>, limit: real) {
    value.Some? && value.value <= limit
  }

  /** No final decision has been given since the last reset. */
  ghost predicate Unlatched(th: Thresholds, events: seq<Event>, k: nat)
    requires k <= |events|
  {
    forall i: nat :: i < k && NoReset(events, i, k) ==> !FinalAt(th, events, i)
  }

  /** The battery is known, fresh and full enough for a task. */
  predicate ChargedForTask(th: Thresholds, s: Sample) {
    Recent(s.batteryAge, th.batteryStale) && s.battery.Some? && s.battery.value >= th.taskMin
  }

  predicate NothingDelayed(th: Thresholds, s: Sample) {
    && Recent(s.batteryAge, th.batteryStale) && Recent(s.positionAge, th.positionWarning)
    && Recent(s.fcuAge, th.fcuWarning) && Recent(s.coordinatorAge, th.coordinatorWarning)
  }

  lemma VerdictCases(th: Thresholds, s: Sample, code: string, airborne: bool, accepting: bool)
    requires code == "POSITION_RECOVERING" || code == "POSITION_JUMP" ==> Recent(s.positionAge, th.positionFailure)
    ensures var d := Verdict(th, s, code, airborne, accepting);
            var link, critical, low := Recent(s.fcuAge, th.fcuFailure), Below(s.battery, th.critical), Below(s.battery, th.returnHome);
            var coordinator, stable := Recent(s.coordinatorAge, th.coordinatorFailure), code == OK;
            && (d.action == LandNow <==> airborne && link && critical && (stable || th.blindLanding))
            && (d.action == ReturnHome <==> airborne && link && !critical && stable && (low || !coordinator))
            && (d.action == ManualTakeover <==>
                  airborne && (!link || if critical then !stable && !th.blindLanding else !stable && !Recent(s.positionAge, th.positionFailure)))
            && (d.action == HoldPosition <==> airborne && link && !critical && !stable && Recent(s.positionAge, th.positionFailure))
            && !d.latched
  {
    hide Routine;
    RecentReaches(s.fcuAge, th.fcuFailure);
    RecentReaches(s.positionAge, th.positionFailure);
    RecentReaches(s.coordinatorAge, th.coordinatorFailure);
    hide Reaches, Recent;
    RoutineActions(th, s, code, accepting);
  }

  lemma RoutineActions(th: Thresholds, s: Sample, code: string, accepting: bool)
    ensures var d := Routine(th, s, code, accepting);
            && d.action in {Nothing, Warn, RejectNewTask} && !d.latched
            && (d.action == RejectNewTask <==> accepting && !(ChargedForTask(th, s) && code == OK))
            && (d.action == Nothing ==> NothingDelayed(th, s))
            && (d.action == Warn ==> !NothingDelayed(th, s))
  {
    hide Joined;
    RecentReaches(s.batteryAge, th.batteryStale);
    RecentReaches(s.positionAge, th.positionWarning);
    RecentReaches(s.fcuAge, th.fcuWarning);
    RecentReaches(s.coordinatorAge, th.coordinatorWarning);
    hide Reaches, Recent;
  }

  lemma {:induction false} UnlatchedState(th: Thresholds, events: seq<Event>, k: nat)
    requires k <= |events| && Unlatched(th, events, k)
    ensures Before(th, events, k).latched == None
  {
    hide FinalAt, DecisionAt, Evaluated;
    if k > 0 && events[k - 1].Reading? {
      assert NoReset(events, k - 1, k);
      assert !FinalAt(th, events, k - 1);
      UnlatchedState(th, events, k - 1);
      NotFinalKeeps(th, events, k - 1);
    }
  }

  lemma NotFinalKeeps(th: Thresholds, events: seq<Event>, k: nat)
    requires k < |events| && events[k].Reading? && !FinalAt(th, events, k) && Before(th, events, k).latched == None
    ensures Before(th, events, k + 1).latched == None
  {
    hide Before, DecisionAt;
    StepAt(th, events, k);
  }

  /** The verdict before latching, at the `k`-th event. */
  lemma DecisionIsVerdict(th: Thresholds, events: seq<Event>, k: nat) returns (code: string)
    requires k < |events| && events[k].Reading?
    ensures var e := events[k];
            var d := Verdict(th, e.s, code, e.airborne, e.accepting);
            && (FinalAt(th, events, k) <==> d.Final())
            && (!d.Final() || Unlatched(th, events, k) ==> DecisionAt(th, events, k) == d)
    ensures code == Health(th, Before(th, events, k), events[k].s, events[k].now).1
  {
    hide Before, Health, Verdict, FinalAt;
    var st, e := Before(th, events, k), events[k];
    code := Health(th, st, e.s, e.now).1;
    LatchIsFinal(th, events, k);
    SameLatch(th, st, e.s, e.now);
    if Unlatched(th, events, k) {
      UnlatchedState(th, events, k);
    }
    FinalUnfolds(th, events, k);
  }

  lemma SameLatch(th: Thresholds, st: State, s: Sample, now: real)
    ensures Health(th, st, s, now).0.latched == st.latched
  {
    hide Reaches, Position, Jumps;
  }

  lemma FinalUnfolds(th: Thresholds, events: seq<Event>, k: nat)
    requires k < |events| && events[k].Reading?
    ensures FinalAt(th, events, k) <==> DecisionAt(th, events, k).Final()
  {
  }

  /** In terms of the sample, the thresholds and the history: which final action is given first, and
      when the vehicle is told to hold. */
  lemma FirstAction(th: Thresholds, events: seq<Event>, k: nat)
    requires k < |events| && events[k].Reading? && Unlatched(th, events, k)
    ensures var s, d, airborne := events[k].s, DecisionAt(th, events, k), events[k].airborne;
            var link, critical, low := Recent(s.fcuAge, th.fcuFailure), Below(s.battery, th.critical), Below(s.battery, th.returnHome);
            var coordinator, stable, recent := Recent(s.coordinatorAge, th.coordinatorFailure), Stable(th, events, k), Recent(s.positionAge, th.positionFailure);
            && (d.action == LandNow <==> airborne && link && critical && (stable || th.blindLanding))
            && (d.action == ReturnHome <==> airborne && link && !critical && stable && (low || !coordinator))
            && (d.action == ManualTakeover <==> airborne && (!link || if critical then !stable && !th.blindLanding else !stable && !recent))
            && (d.action == HoldPosition <==> airborne && link && !critical && !stable && recent)
            && !d.latched
  {
    hide Before, Health, Verdict, Stable, DecisionAt, Unlatched, Recent;
    var code := DecisionIsVerdict(th, events, k);
    CodeIsHistory(th, events, k);
    VerdictCases(th, events[k].s, code, events[k].airborne, events[k].accepting);
  }

  lemma CodeIsHistory(th: Thresholds, events: seq<Event>, k: nat)
    requires k < |events| && events[k].Reading?
    ensures var code := Health(th, Before(th, events, k), events[k].s, events[k].now).1;
            && (code == OK <==> Stable(th, events, k))
            && (code == "POSITION_RECOVERING" || code == "POSITION_JUMP" ==> Recent(events[k].s.positionAge, th.positionFailure))
  {
    hide Before, Health, Stable, Recent, Remembers;
    StateIsHistory(th, events, k);
    HealthIsHistory(th, events, k, Before(th, events, k));
    if Stable(th, events, k) {
      StableIsSteady(th, events, k);
    }
    if Steady(th, events, k) {
      assert SoundAt(th, events, k);
    }
  }

  lemma StableIsSteady(th: Thresholds, events: seq<Event>, k: nat)
    requires k < |events| && events[k].Reading? && Stable(th, events, k)
    ensures Steady(th, events, k)
  {
    hide Steady;
  }

  /** A final action is given, first or again, exactly in flight under these conditions, and holding is
      asked for exactly under those; which final action, when an earlier one is in force, `SupervisorRuns.FinalDecisionsAgree` says. */
  lemma FinalExactly(th: Thresholds, events: seq<Event>, k: nat)
    requires k < |events| && events[k].Reading?
    ensures var s, stable := events[k].s, Stable(th, events, k);
            FinalAt(th, events, k) <==>
              events[k].airborne && (!Recent(s.fcuAge, th.fcuFailure) || Below(s.battery, th.critical)
                || if stable then Below(s.battery, th.returnHome) || !Recent(s.coordinatorAge, th.coordinatorFailure)
                   else !Recent(s.positionAge, th.positionFailure))
    ensures var s := events[k].s;
            DecisionAt(th, events, k).action == HoldPosition <==>
              events[k].airborne && Recent(s.fcuAge, th.fcuFailure) && !Below(s.battery, th.critical)
              && !Stable(th, events, k) && Recent(s.positionAge, th.positionFailure)
  {
    hide Before, Health, Verdict, Stable, DecisionAt, Unlatched, Recent, FinalAt;
    FinalUnfolds(th, events, k);
    var code := DecisionIsVerdict(th, events, k);
    CodeIsHistory(th, events, k);
    VerdictCases(th, events[k].s, code, events[k].airborne, events[k].accepting);
  }

  // ----- on the ground, and in the air with a new task

  /** On the ground no final action is given and none to hold; a task is refused there when anything is
      out of order, in the air only one that is offered while the battery is unknown or too low for it. */
  lemma Refusals(th: Thresholds, events: seq<Event>, k: nat)
    requires k < |events| && events[k].Reading?
    ensures var s, d, airborne, accepting := events[k].s, DecisionAt(th, events, k), events[k].airborne, events[k].accepting;
            var link, critical, low := Recent(s.fcuAge, th.fcuFailure), Below(s.battery, th.critical), Below(s.battery, th.returnHome);
            var coordinator, stable := Recent(s.coordinatorAge, th.coordinatorFailure), Stable(th, events, k);
            var ready, quiet := link && !critical && !low && coordinator, !accepting || (ChargedForTask(th, s) && stable);
            && (!airborne ==> d.action in {Nothing, Warn, RejectNewTask})
            && (d.action == RejectNewTask <==> if airborne then ready && stable && !quiet else !ready || !quiet)
            && (d.action == Warn <==> ready && quiet && (airborne ==> stable) && !NothingDelayed(th, s))
            && (d.action == Nothing <==> ready && quiet && (airborne ==> stable) && NothingDelayed(th, s))
  {
    hide Before, Health, Verdict, Stable, DecisionAt, Unlatched, Recent, FinalAt;
    var code := DecisionIsVerdict(th, events, k);
    var e := events[k];
    FinalUnfolds(th, events, k);
    CodeIsHistory(th, events, k);
    VerdictCases(th, e.s, code, e.airborne, e.accepting);
    QuietCases(th, e.s, code, e.airborne, e.accepting);
  }

  lemma QuietCases(th: Thresholds, s: Sample, code: string, airborne: bool, accepting: bool)
    ensures var d := Verdict(th, s, code, airborne, accepting);
            var ready := Recent(s.fcuAge, th.fcuFailure) && !Below(s.battery, th.critical) && !Below(s.battery, th.returnHome)
                         && Recent(s.coordinatorAge, th.coordinatorFailure);
            var quiet := !accepting || (ChargedForTask(th, s) && code == OK);
            && (!airborne ==> d.action in {Nothing, Warn, RejectNewTask})
            && (d.action == RejectNewTask <==> if airborne then ready && code == OK && !quiet else !ready || !quiet)
            && (d.action == Warn <==> ready && quiet && (airborne ==> code == OK) && !NothingDelayed(th, s))
            && (d.action == Nothing <==> ready && quiet && (airborne ==> code == OK) && NothingDelayed(th, s))
  {
    RecentReaches(s.fcuAge, th.fcuFailure);
    RecentReaches(s.coordinatorAge, th.coordinatorFailure);
    hide Reaches, Recent, Routine, NothingDelayed, ChargedForTask;
    RoutineActions(th, s, code, accepting);
  }

  /** A task offered in flight can be refused: an unknown battery is enough. */
  lemma RefusedInTheAir() returns (th: Thresholds, events: seq<Event>)
    ensures th.Valid() && |events| == 1 && events[0].Reading? && events[0].airborne
    ensures DecisionAt(th, events, 0).action == RejectNewTask
  {
    th := Thresholds(40.0, 25.0, 15.0, 3.0, 0.5, 2.0, 0.5, 0.0, 1.0, 3.0, 1.0, 3.0, false);
    var here := RawPoint(Some(0.0), Some(0.0), Some(0.0));
    var s := Sample(Some(here), None, None, Some(0.0), None, None, Some(0.0), Some(0.0));
    events := [Reading(s, 0.0, true, true)];
    assert LocatedAt(s, Point3(0.0, 0.0, 0.0));
    assert Steady(th, events, 0);
    assert SteadySince(th, events, 0, 0);
    assert Stable(th, events, 0);
    hide DecisionAt;
    Refusals(th, events, 0);
  }

  // ----- codes and severities

  ghost function PositionCode(th: Thresholds, events: seq<Event>, k: nat): string
    requires k < |events| && events[k].Reading?
  {
    var s := events[k].s;
    if !Located(s) || s.declared == Some(false) then "POSITION_INVALID"
    else if !Recent(s.positionAge, th.positionFailure) then "POSITION_STALE"
    else if !Steady(th, events, k) then "POSITION_JUMP"
    else if !Stable(th, events, k) then "POSITION_RECOVERING"
    else "POSITION_OK"
  }

  /** The names of the delayed readings, each followed by a plus sign. */
  function DelayNames(th: Thresholds, s: Sample): string {
    (if Recent(s.batteryAge, th.batteryStale) then "" else "BATTERY_STATUS_STALE+")
    + (if Recent(s.positionAge, th.positionWarning) then "" else "POSITION_DELAYED+")
    + (if Recent(s.fcuAge, th.fcuWarning) then "" else "FCU_LINK_DELAYED+")
    + (if Recent(s.coordinatorAge, th.coordinatorWarning) then "" else "COORDINATOR_LINK_DELAYED+")
  }

  lemma PositionCodeIsHealth(th: Thresholds, events: seq<Event>, k: nat)
    requires k < |events| && events[k].Reading?
    ensures Health(th, Before(th, events, k), events[k].s, events[k].now).1 == PositionCode(th, events, k)
    ensures PositionCode(th, events, k) == OK <==> Stable(th, events, k)
  {
    hide Before, Health, Stable, Recent, Remembers, Steady;
    StateIsHistory(th, events, k);
    HealthIsHistory(th, events, k, Before(th, events, k));
    if Stable(th, events, k) {
      StableIsSteady(th, events, k);
    }
    if Steady(th, events, k) {
      SteadyIsSound(th, events, k);
    }
  }

  lemma SteadyIsSound(th: Thresholds, events: seq<Event>, k: nat)
    requires k < |events| && Steady(th, events, k)
    ensures SoundAt(th, events, k)
  {
  }

  /** Code and severity of each first decision. */
  lemma FirstReport(th: Thresholds, events: seq<Event>, k: nat)
    requires k < |events| && events[k].Reading? && Unlatched(th, events, k)
    ensures var s, d, code := events[k].s, DecisionAt(th, events, k), PositionCode(th, events, k);
            var link, critical, low := Recent(s.fcuAge, th.fcuFailure), Below(s.battery, th.critical), Below(s.battery, th.returnHome);
            match d.action
            case LandNow => d.code == "CRITICAL_BATTERY" && d.severity == "L4"
            case ReturnHome => d.code == (if low then "LOW_BATTERY_RETURN" else "COORDINATOR_LINK_LOST") && d.severity == "L2"
            case ManualTakeover =>
              if !link then d.code == "FCU_LINK_LOST" && d.severity == "L3"
              else if critical then d.code == "CRITICAL_BATTERY_POSITION_UNSAFE" && d.severity == "L4"
              else d.code == code && d.severity == "L3"
            case HoldPosition => d.code == code && d.severity == "L1"
            case RejectNewTask =>
              && d.severity == "L2"
              && d.code == if !link then "FCU_LINK_LOST" else if critical then "CRITICAL_BATTERY" else if low then "LOW_BATTERY"
                           else if !Recent(s.coordinatorAge, th.coordinatorFailure) then "COORDINATOR_LINK_LOST"
                           else if !Recent(s.batteryAge, th.batteryStale) || s.battery == None then "BATTERY_STATUS_UNKNOWN"
                           else if s.battery.value < th.taskMin then "LOW_BATTERY"
                           else code
            case Warn => d.code + "+" == DelayNames(th, s) && d.severity == "L1"
            case Nothing => d.code == "OK" && d.severity == "L0"
  {
    hide Before, Health, Verdict, Stable, DecisionAt, Unlatched, Recent, FinalAt, PositionCode, DelayNames;
    var code := DecisionIsVerdict(th, events, k);
    PositionCodeIsHealth(th, events, k);
    VerdictReport(th, events[k].s, code, events[k].airborne, events[k].accepting);
  }

  lemma VerdictReport(th: Thresholds, s: Sample, code: string, airborne: bool, accepting: bool)
    ensures var d := Verdict(th, s, code, airborne, accepting);
            var link, critical, low := Recent(s.fcuAge, th.fcuFailure), Below(s.battery, th.critical), Below(s.battery, th.returnHome);
            match d.action
            case LandNow => d.code == "CRITICAL_BATTERY" && d.severity == "L4"
            case ReturnHome => d.code == (if low then "LOW_BATTERY_RETURN" else "COORDINATOR_LINK_LOST") && d.severity == "L2"
            case ManualTakeover =>
              if !link then d.code == "FCU_LINK_LOST" && d.severity == "L3"
              else if critical then d.code == "CRITICAL_BATTERY_POSITION_UNSAFE" && d.severity == "L4"
              else d.code == code && d.severity == "L3"
            case HoldPosition => d.code == code && d.severity == "L1"
            case RejectNewTask =>
              && d.severity == "L2"
              && d.code == if !link then "FCU_LINK_LOST" else if critical then "CRITICAL_BATTERY" else if low then "LOW_BATTERY"
                           else if !Recent(s.coordinatorAge, th.coordinatorFailure) then "COORDINATOR_LINK_LOST"
                           else if !Recent(s.batteryAge, th.batteryStale) || s.battery == None then "BATTERY_STATUS_UNKNOWN"
                           else if s.battery.value < th.taskMin then "LOW_BATTERY"
                           else code
            case Warn => d.code + "+" == DelayNames(th, s) && d.severity == "L1"
            case Nothing => d.code == "OK" && d.severity == "L0"
  {
    RecentReaches(s.fcuAge, th.fcuFailure);
    RecentReaches(s.coordinatorAge, th.coordinatorFailure);
    RecentReaches(s.batteryAge, th.batteryStale);
    hide Reaches, Recent, Joined, Warnings, DelayNames;
    if Warnings(th, s) != [] {
      WarningsJoin(th, s);
    }
  }

  lemma WarningsJoin(th: Thresholds, s: Sample)
    requires Warnings(th, s) != []
    ensures Joined(Warnings(th, s)) + "+" == DelayNames(th, s)
  {
    hide Joined, Ended, WithPlus;
    RecentReaches(s.batteryAge, th.batteryStale);
    RecentReaches(s.positionAge, th.positionWarning);
    RecentReaches(s.fcuAge, th.fcuWarning);
    RecentReaches(s.coordinatorAge, th.coordinatorWarning);
    hide Reaches, Recent;
    JoinedEnds(Warnings(th, s));
    var b, p := Recent(s.batteryAge, th.batteryStale), Recent(s.positionAge, th.positionWarning);
    var f, c := Recent(s.fcuAge, th.fcuWarning), Recent(s.coordinatorAge, th.coordinatorWarning);
    var names := ["BATTERY_STATUS_STALE", "POSITION_DELAYED", "FCU_LINK_DELAYED", "COORDINATOR_LINK_DELAYED"];
    EndedConcat(Unless(b, names[0]) + Unless(p, names[1]) + Unless(f, names[2]), Unless(c, names[3]));
    EndedConcat(Unless(b, names[0]) + Unless(p, names[1]), Unless(f, names[2]));
    EndedConcat(Unless(b, names[0]), Unless(p, names[1]));
    EndedUnless(b, names[0]);
    EndedUnless(p, names[1]);
    EndedUnless(f, names[2]);
    EndedUnless(c, names[3]);
    NamesWithPlus();
  }

  function Unless(ok: bool, name: string): seq<string> {
    if ok then [] else [name]
  }

  function WithPlus(name: string): string {
    name + "+"
  }

  lemma NamesWithPlus()
    ensures WithPlus("BATTERY_STATUS_STALE") == "BATTERY_STATUS_STALE+" && WithPlus("POSITION_DELAYED") == "POSITION_DELAYED+"
    ensures WithPlus("FCU_LINK_DELAYED") == "FCU_LINK_DELAYED+" && WithPlus("COORDINATOR_LINK_DELAYED") == "COORDINATOR_LINK_DELAYED+"
  {
  }

  lemma EndedUnless(ok: bool, name: string)
    ensures Ended(Unless(ok, name)) == if ok then "" else WithPlus(name)
  {
    assert [name][1..] == [];
    assert WithPlus(name) + "" == WithPlus(name);
  }

  function Ended(parts: seq<string>): string {
    if |parts| == 0 then "" else WithPlus(parts[0]) + Ended(parts[1..])
  }

  lemma Associates(a: string, b: string, c: string)
    ensures (a + b) + c == a + (b + c)
  {
  }

  lemma {:induction false} EndedConcat(a: seq<string>, b: seq<string>)
    ensures Ended(a + b) == Ended(a) + Ended(b)
  {
    hide WithPlus;
    if |a| == 0 {
      assert a + b == b;
    } else {
      EndedConcat(a[1..], b);
      assert (a + b)[0] == a[0] && (a + b)[1..] == a[1..] + b;
      Associates(WithPlus(a[0]), Ended(a[1..]), Ended(b));
    }
  }

  lemma {:induction false} JoinedEnds(parts: seq<string>)
    requires |parts| > 0
    ensures Joined(parts) + "+" == Ended(parts)
  {
    if |parts| > 1 {
      JoinedEnds(parts[1..]);
      Associates(WithPlus(parts[0]), Joined(parts[1..]), "+");
    } else {
      assert parts[1..] == [];
    }
  }

  // ----- a lower battery

  function Harshness(a: Action): nat {
    match a
    case Nothing => 0
    case Warn => 1
    case RejectNewTask => 2
    case HoldPosition => 3
    case ReturnHome => 4
    case ManualTakeover => 5
    case LandNow => 6
  }

  predicate SameUntil(events: seq<Event>, other: seq<Event>, k: nat) {
    k <= |events| && k <= |other| && forall i: nat :: i < k ==> events[i] == other[i]
  }

  lemma {:induction false} SamePast(th: Thresholds, events: seq<Event>, other: seq<Event>, k: nat, n: nat)
    requires SameUntil(events, other, k) && n <= k
    ensures Before(th, events, n) == Before(th, other, n)
  {
    hide Step;
    if n > 0 {
      SamePast(th, events, other, k, n - 1);
    }
  }

  lemma SameLatching(th: Thresholds, events: seq<Event>, other: seq<Event>, k: nat)
    requires SameUntil(events, other, k) && Unlatched(th, events, k)
    ensures Unlatched(th, other, k)
  {
    hide Before, Evaluated;
    forall i: nat | i < k && NoReset(other, i, k)
      ensures !FinalAt(th, other, i)
    {
      assert NoReset(events, i, k) by {
        assert forall j :: i <= j < k ==> events[j] == other[j];
      }
      SamePast(th, events, other, k, i);
      assert !FinalAt(th, events, i);
    }
  }

  lemma VerdictIsMonotone(th: Thresholds, s: Sample, charge: real, code: string, airborne: bool, accepting: bool)
    requires th.Valid() && s.battery.Some? && charge <= s.battery.value
    ensures Harshness(Verdict(th, s.(battery := Some(charge)), code, airborne, accepting).action)
         >= Harshness(Verdict(th, s, code, airborne, accepting).action)
  {
    hide Reaches, Joined;
  }

  /** With everything else equal and nothing latched, a lower battery never gets a milder action. */
  lemma LowerBatteryIsNoMilder(th: Thresholds, events: seq<Event>, k: nat, charge: real)
    requires th.Valid() && k < |events| && events[k].Reading? && Unlatched(th, events, k)
    requires events[k].s.battery.Some? && charge <= events[k].s.battery.value
    ensures var lower := events[k := events[k].(s := events[k].s.(battery := Some(charge)))];
            Harshness(DecisionAt(th, lower, k).action) >= Harshness(DecisionAt(th, events, k).action)
  {
    var lower := events[k := events[k].(s := events[k].s.(battery := Some(charge)))];
    SamePast(th, events, lower, k, k);
    SameLatching(th, events, lower, k);
    hide Before, Verdict, DecisionAt, Unlatched, FinalAt, Harshness, Health;
    var code := DecisionIsVerdict(th, events, k);
    var other := DecisionIsVerdict(th, lower, k);
    BatteryIsNoPosition(th, Before(th, events, k), events[k].s, events[k].now, charge);
    VerdictIsMonotone(th, events[k].s, charge, code, events[k].airborne, events[k].accepting);
  }

  lemma BatteryIsNoPosition(th: Thresholds, st: State, s: Sample, now: real, charge: real)
    ensures Health(th, st, s.(battery := Some(charge)), now) == Health(th, st, s, now)
  {
    hide Reaches, Jumps;
  }
}
