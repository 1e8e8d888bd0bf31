/** The supervisor over whole runs of samples and resets. */
module SupervisorRuns {
  import opened Wrappers
  import opened SafetySupervisors

  datatype Event =
    | Reading(s: Sample, now: real, airborne: bool, accepting: bool)
    | Reset

  function Step(th: Thresholds, st: State, e: Event): State {
    match e
    case Reading(s, now, airborne, accepting) => Evaluated(th, st, s, now, airborne, accepting).0
    case Reset => CLEAR
  }

  /** The state before the `n`-th event. */
  function Before(th: Thresholds, events: seq<Event>, n: nat): State
    requires n <= |events|
  {
    if n == 0 then CLEAR else Step(th, Before(th, events, n - 1), events[n - 1])
  }

  /** The decision on the `k`-th event, a reading. */
  function DecisionAt(th: Thresholds, events: seq<Event>, k: nat): Decision
    requires k < |events| && events[k].Reading?
  {
    Evaluated(th, Before(th, events, k), events[k].s, events[k].now, events[k].airborne, events[k].accepting).1
  }

  /** The `k`-th event is a reading answered by one of the final actions. */
  predicate FinalAt(th: Thresholds, events: seq<Event>, k: nat)
    requires k < |events|
  {
    events[k].Reading? && DecisionAt(th, events, k).Final()
  }

  predicate NoReset(events: seq<Event>, i: nat, j: nat)
    requires i <= j <= |events|
  {
    forall k :: i <= k < j ==> !events[k].Reset?
  }

  // ----- one step

  lemma StepLatches(th: Thresholds, st: State, s: Sample, now: real, airborne: bool, accepting: bool)
    requires st.latched.Some? ==> st.latched.value.Final() && !st.latched.value.latched
    ensures var r := Evaluated(th, st, s, now, airborne, accepting);
            && (st.latched.Some? ==> r.0.latched == st.latched && (r.1.Final() ==> r.1 == st.latched.value.(latched := true)))
            && (st.latched == None ==> if r.1.Final() then r.0.latched == Some(r.1) && !r.1.latched else r.0.latched == None)
  {
    hide Reaches, Position, Jumps, Joined, Routine;
    RoutineIsNotFinal(th, s, Health(th, st, s, now).1, accepting);
  }

  lemma {:induction false} LatchIsFinal(th: Thresholds, events: seq<Event>, n: nat)
    requires n <= |events|
    ensures var l := Before(th, events, n).latched; l.Some? ==> l.value.Final() && !l.value.latched
  {
    hide Evaluated;
    if n > 0 {
      LatchIsFinal(th, events, n - 1);
      var e := events[n - 1];
      if e.Reading? {
        StepLatches(th, Before(th, events, n - 1), e.s, e.now, e.airborne, e.accepting);
      }
    }
  }

  lemma StepAt(th: Thresholds, events: seq<Event>, k: nat)
    requires k < |events| && events[k].Reading?
    ensures var before, after, d := Before(th, events, k).latched, Before(th, events, k + 1).latched, DecisionAt(th, events, k);
            && (before.Some? ==> after == before && (d.Final() ==> d == before.value.(latched := true)))
            && (before == None ==> if d.Final() then after == Some(d) && !d.latched else after == None)
  {
    hide Evaluated;
    LatchIsFinal(th, events, k);
    StepLatches(th, Before(th, events, k), events[k].s, events[k].now, events[k].airborne, events[k].accepting);
  }

  /** Once latched, a decision stays until a reset. */
  lemma {:induction false} LatchStays(th: Thresholds, events: seq<Event>, i: nat, j: nat)
    requires i <= j <= |events| && NoReset(events, i, j) && Before(th, events, i).latched.Some?
    ensures Before(th, events, j).latched == Before(th, events, i).latched
    decreases j
  {
    hide Before, DecisionAt;
    if i < j {
      LatchStays(th, events, i, j - 1);
      StepAt(th, events, j - 1);
    }
  }

  /** Between resets all final decisions agree in action, code and severity, and of two of them the
      later one is marked as latched. */
  lemma FinalDecisionsAgree(th: Thresholds, events: seq<Event>, i: nat, j: nat)
    requires i < j < |events| && NoReset(events, i, j) && FinalAt(th, events, i) && FinalAt(th, events, j)
    ensures DecisionAt(th, events, j) == DecisionAt(th, events, i).(latched := true)
  {
    hide Before, DecisionAt;
    StepAt(th, events, i);
    LatchStays(th, events, i + 1, j);
    StepAt(th, events, j);
  }

  /** No final decision since `from`, where nothing is latched. */
  lemma {:induction false} NothingLatched(th: Thresholds, events: seq<Event>, from: nat, n: nat)
    requires from <= n <= |events| && NoReset(events, from, n) && Before(th, events, from).latched == None
    requires forall k :: from <= k < n ==> !FinalAt(th, events, k)
    ensures Before(th, events, n).latched == None
    decreases n
  {
    hide Before, DecisionAt;
    if from < n {
      NothingLatched(th, events, from, n - 1);
      assert !FinalAt(th, events, n - 1);
      StepAt(th, events, n - 1);
    }
  }

  /** A final decision is marked as latched exactly when an earlier one followed the last reset. */
  lemma OnlyTheFirstIsFresh(th: Thresholds, events: seq<Event>, from: nat, k: nat)
    requires from <= k < |events| && (from == 0 || events[from - 1].Reset?) && NoReset(events, from, k) && FinalAt(th, events, k)
    ensures DecisionAt(th, events, k).latched <==> exists i :: from <= i < k && FinalAt(th, events, i)
  {
    hide DecisionAt;
    assert Before(th, events, from).latched == None;
    StepAt(th, events, k);
    if i :| from <= i < k && FinalAt(th, events, i) {
      FinalDecisionsAgree(th, events, i, k);
    } else {
      NothingLatched(th, events, from, k);
    }
  }

  // ----- what a return or a landing presupposes

  /** Samples `a`, ..., `n - 1` are fresh and each is within the jump limit of the one before. */
  ghost predicate Unbroken(th: Thresholds, events: seq<Event>, a: nat, n: nat)
    requires a <= n <= |events|
  {
    && (forall i :: a <= i < n ==> events[i].Reading? && Fresh(th, events[i].s))
    && (forall i, j :: a <= i && j == i + 1 && j < n && events[i].Reading? && events[j].Reading? ==> Near(th, events[i].s, events[j].s))
  }

  predicate Near(th: Thresholds, s: Sample, t: Sample) {
    Position(s).Some? && Position(t).Some? && !Jumps(th, Position(s).value, Position(t).value)
  }

  /** The recovery clock was set at a sample from which the stream is unbroken. */
  ghost predicate ClockOk(th: Thresholds, events: seq<Event>, n: nat, st: State)
    requires n <= |events|
  {
    st.since.Some? ==> exists a :: 0 <= a < n && Since(th, events, a, n, st)
  }

  ghost predicate Since(th: Thresholds, events: seq<Event>, a: nat, n: nat, st: State)
    requires a < n <= |events|
  {
    && Unbroken(th, events, a, n) && events[a].Reading? && events[n - 1].Reading?
    && st.since == Some(events[a].now) && st.last == Position(events[n - 1].s)
  }

  /** What `_position_health` does to the clock. */
  lemma HealthStep(th: Thresholds, st: State, s: Sample, now: real)
    ensures var h := Health(th, st, s, now);
            && h.0.latched == st.latched
            && (h.0.since.Some? ==> Fresh(th, s) && h.0.last == Position(s)
                                    && (if st.since.Some? then h.0.since == st.since && (st.last.Some? ==> !Jumps(th, st.last.value, Position(s).value))
                                        else h.0.since == Some(now)))
            && (h.1 == OK ==> h.0.since.Some? && now - h.0.since.value >= th.stable)
  {
    hide Reaches, Position, Jumps;
  }

  lemma EvaluatedKeepsHealth(th: Thresholds, st: State, s: Sample, now: real, airborne: bool, accepting: bool)
    ensures var r, h := Evaluated(th, st, s, now, airborne, accepting).0, Health(th, st, s, now).0;
            r.since == h.since && r.last == h.last
  {
    hide Health, Verdict;
  }

  lemma OneMore(th: Thresholds, events: seq<Event>, a: nat, n: nat, st: State, next: State)
    requires n < |events| && events[n].Reading? && a < n && Since(th, events, a, n, st)
    requires next.since == st.since && Fresh(th, events[n].s) && next.last == Position(events[n].s)
    requires st.last.Some? ==> !Jumps(th, st.last.value, Position(events[n].s).value)
    ensures Since(th, events, a, n + 1, next)
  {
    hide Jumps, Position, Reaches;
    forall i, j | a <= i && j == i + 1 && j < n + 1 && events[i].Reading? && events[j].Reading?
      ensures Near(th, events[i].s, events[j].s)
    {
      if j == n {
        assert Fresh(th, events[i].s);
      }
    }
  }

  lemma {:induction false} ClockIsRight(th: Thresholds, events: seq<Event>, n: nat)
    requires n <= |events|
    ensures ClockOk(th, events, n, Before(th, events, n))
  {
    hide Since, Evaluated, Health;
    if n > 0 {
      ClockIsRight(th, events, n - 1);
      var e, st := events[n - 1], Before(th, events, n - 1);
      if e.Reading? {
        EvaluatedKeepsHealth(th, st, e.s, e.now, e.airborne, e.accepting);
        HealthKeepsClock(th, events, n - 1, st);
      }
    }
  }

  lemma HealthKeepsClock(th: Thresholds, events: seq<Event>, k: nat, st: State)
    requires k < |events| && events[k].Reading? && ClockOk(th, events, k, st)
    ensures var h := Health(th, st, events[k].s, events[k].now).0;
            forall next: State :: next.since == h.since && next.last == h.last ==> ClockOk(th, events, k + 1, next)
  {
    hide Since, Health, Fresh, Jumps, Position;
    var e := events[k];
    var h := Health(th, st, e.s, e.now).0;
    HealthStep(th, st, e.s, e.now);
    forall next: State | next.since == h.since && next.last == h.last
      ensures ClockOk(th, events, k + 1, next)
    {
      if h.since.Some? {
        if st.since.Some? {
          var a :| 0 <= a < k && Since(th, events, a, k, st);
          OneMore(th, events, a, k, st, next);
        } else {
          Begin(th, events, k, next);
        }
      }
    }
  }

  lemma Begin(th: Thresholds, events: seq<Event>, k: nat, next: State)
    requires k < |events| && events[k].Reading? && Fresh(th, events[k].s)
    requires next.since == Some(events[k].now) && next.last == Position(events[k].s)
    ensures Since(th, events, k, k + 1, next)
  {
    hide Fresh, Position;
  }

  /** A first return home, or a first landing when blind landing is off, follows an unbroken stretch of
      fresh samples within the jump limit of one another that lasted at least the stable time. */
  lemma ReturnFollowsStablePosition(th: Thresholds, events: seq<Event>, k: nat)
    requires k < |events| && FinalAt(th, events, k) && !DecisionAt(th, events, k).latched
    requires DecisionAt(th, events, k).action == ReturnHome || (DecisionAt(th, events, k).action == LandNow && !th.blindLanding)
    ensures exists a :: 0 <= a <= k && Unbroken(th, events, a, k + 1) && events[a].Reading? && events[k].now - events[a].now >= th.stable
  {
    hide Before, Unbroken;
    var st, e := Before(th, events, k), events[k];
    FreshMeansOk(th, events, k);
    ClockIsRight(th, events, k);
    HealthStep(th, st, e.s, e.now);
    HealthKeepsClock(th, events, k, st);
    var h := Health(th, st, e.s, e.now).0;
    assert ClockOk(th, events, k + 1, h);
    var a :| 0 <= a < k + 1 && Since(th, events, a, k + 1, h);
    assert Unbroken(th, events, a, k + 1) && events[a].Reading? && events[a].now == h.since.value;
  }

  lemma FreshMeansOk(th: Thresholds, events: seq<Event>, k: nat)
    requires k < |events| && FinalAt(th, events, k) && !DecisionAt(th, events, k).latched
    requires DecisionAt(th, events, k).action == ReturnHome || (DecisionAt(th, events, k).action == LandNow && !th.blindLanding)
    ensures Health(th, Before(th, events, k), events[k].s, events[k].now).1 == OK
  {
    hide Before, Health, Reaches, Routine;
    var e := events[k];
    RoutineIsNotFinal(th, e.s, Health(th, Before(th, events, k), e.s, e.now).1, e.accepting);
  }

  // ----- and what a repeated one does not

  /** A latched decision is repeated for every later final verdict: when the position is lost for
      good in flight and the link and the battery hold, a latched return home is asked for again. */
  lemma LatchedReturnOutlivesPosition(th: Thresholds, events: seq<Event>, i: nat, k: nat)
    requires i < k < |events| && NoReset(events, i, k) && FinalAt(th, events, i) && DecisionAt(th, events, i).action == ReturnHome
    requires events[k].Reading? && events[k].airborne && Position(events[k].s) == None && Reaches(events[k].s.positionAge, th.positionFailure)
    requires !Reaches(events[k].s.fcuAge, th.fcuFailure) && !AtMost(events[k].s.battery, th.critical)
    ensures DecisionAt(th, events, k).action == ReturnHome && DecisionAt(th, events, k).latched
    ensures Health(th, Before(th, events, k), events[k].s, events[k].now).1 == "POSITION_INVALID"
  {
    var e, st := events[k], Before(th, events, k);
    assert Verdict(th, e.s, "POSITION_INVALID", true, e.accepting) == Plain(ManualTakeover, "POSITION_INVALID", "L3");
    hide Before;
    LatchIsFinal(th, events, k);
    LostIsFinal(th, st, e.s, e.now, e.accepting);
    StepAt(th, events, k);
    FinalDecisionsAgree(th, events, i, k);
  }

  lemma LostIsFinal(th: Thresholds, st: State, s: Sample, now: real, accepting: bool)
    requires Health(th, st, s, now).1 == "POSITION_INVALID"
    requires Verdict(th, s, "POSITION_INVALID", true, accepting).Final()
    requires st.latched.Some? ==> st.latched.value.Final()
    ensures Evaluated(th, st, s, now, true, accepting).1.Final()
  {
    hide Verdict, Health;
    var h := Health(th, st, s, now);
    HealthStep(th, st, s, now);
    assert Verdict(th, s, h.1, true, accepting) == Verdict(th, s, "POSITION_INVALID", true, accepting);
  }
}
