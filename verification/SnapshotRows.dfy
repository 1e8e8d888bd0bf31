/** What a reader of the printed snapshot finds in each row, in terms of the bridge's lists and maps. */
module SnapshotRows {
  import opened Wrappers
  import opened JsonGrammar
  import opened JsonScanner
  import opened SnapshotPrinter
  import opened SnapshotTrees
  import opened SnapshotRoundTrip

  predicate Shows(j: Json, name: string, v: Json) {
    j.Object? && name in j.members && j.members[name] == v
  }

  predicate ShowsEnu(j: Json, e: Enu) {
    Shows(j, "east", Number(NumText(e.east))) && Shows(j, "north", Number(NumText(e.north))) && Shows(j, "up", Number(NumText(e.up)))
  }

  /** The row of a task: its own fields, the vehicle it is assigned to, if any, and where it is: by its
      transform, or else at its target and at the corner of the sandbox. */
  predicate ShowsTask(j: Json, d: Dashboard, t: TaskInfo) {
    && Shows(j, "id", Str(t.id)) && Shows(j, "capability", Str(t.capability)) && Shows(j, "predecessor", Str(t.predecessor))
    && (t.kind == Survey ==> Shows(j, "kind", Str("SURVEY"))) && (t.kind == Delivery ==> Shows(j, "kind", Str("DELIVERY")))
    && (t.priority == Critical ==> Shows(j, "priority", Str("CRITICAL"))) && (t.priority == High ==> Shows(j, "priority", Str("HIGH")))
    && (t.priority == Normal ==> Shows(j, "priority", Str("NORMAL")))
    && (t.id in d.assignments ==> Shows(j, "assigned_to", Str(d.assignments[t.id])))
    && (t.id !in d.assignments ==> Shows(j, "assigned_to", Str("")))
    && "enu" in j.members && "sandbox" in j.members
    && (t.id in d.transforms ==>
          && ShowsEnu(j.members["enu"], d.transforms[t.id].enu)
          && Shows(j.members["sandbox"], "x", Number(NumText(d.transforms[t.id].x))) && Shows(j.members["sandbox"], "y", Number(NumText(d.transforms[t.id].y))))
    && (t.id !in d.transforms ==>
          && ShowsEnu(j.members["enu"], t.target)
          && Shows(j.members["sandbox"], "x", Number("0")) && Shows(j.members["sandbox"], "y", Number("0")))
  }

  predicate ShowsVehicle(j: Json, v: VehicleInfo) {
    && Shows(j, "id", Str(v.agentId)) && Shows(j, "task_id", Str(v.taskId))
    && Shows(j, "battery_percent", Number(NumText(v.battery))) && Shows(j, "progress_percent", Number(NumText(v.progress)))
    && (v.kind == UavDevice ==> Shows(j, "kind", Str("UAV"))) && (v.kind != UavDevice ==> Shows(j, "kind", Str("UGV")))
    && (v.phase == Idle ==> Shows(j, "phase", Str("IDLE"))) && (v.phase == Bidding ==> Shows(j, "phase", Str("BIDDING")))
    && (v.phase == Assigned ==> Shows(j, "phase", Str("ASSIGNED"))) && (v.phase == EnRoute ==> Shows(j, "phase", Str("EN_ROUTE")))
    && (v.phase == Executing ==> Shows(j, "phase", Str("EXECUTING"))) && (v.phase == Completed ==> Shows(j, "phase", Str("COMPLETED")))
    && (v.phase == Failed ==> Shows(j, "phase", Str("FAILED")))
    && "enu" in j.members && ShowsEnu(j.members["enu"], v.pose)
  }

  predicate ShowsEvent(j: Json, e: EventInfo) {
    && Shows(j, "id", Str(e.id)) && Shows(j, "task_id", Str(e.taskId)) && Shows(j, "source", Str(e.source)) && Shows(j, "code", Str(e.code))
    && Shows(j, "occurred_at_ms", Number(NumText(e.occurredAt)))
    && (e.kind == TaskPublished ==> Shows(j, "kind", Str("TASK_PUBLISHED"))) && (e.kind == BidSubmitted ==> Shows(j, "kind", Str("BID_SUBMITTED")))
    && (e.kind == TaskAssigned ==> Shows(j, "kind", Str("TASK_ASSIGNED"))) && (e.kind == Progress ==> Shows(j, "kind", Str("PROGRESS")))
    && (e.kind == TaskCompleted ==> Shows(j, "kind", Str("TASK_COMPLETED"))) && (e.kind == SafetyAlert ==> Shows(j, "kind", Str("SAFETY_ALERT")))
  }

  ghost predicate ShowsAll(root: Json, d: Dashboard, now: Num) {
    && Shows(root, "scenario", Str("campus emergency response")) && Shows(root, "domain_id", Number("42"))
    && Shows(root, "transport", Str("ZRDDS typed topics via DashboardBridge")) && Shows(root, "generated_at_ms", Number(NumText(now)))
    && "tasks" in root.members && root.members["tasks"].Array? && |root.members["tasks"].items| == |d.tasks|
    && "vehicles" in root.members && root.members["vehicles"].Array? && |root.members["vehicles"].items| == |d.vehicles|
    && "events" in root.members && root.members["events"].Array? && |root.members["events"].items| == |d.events|
    && (forall k :: 0 <= k < |d.tasks| ==> ShowsTask(root.members["tasks"].items[k], d, d.tasks[k]))
    && (forall k :: 0 <= k < |d.vehicles| ==> ShowsVehicle(root.members["vehicles"].items[k], d.vehicles[k]))
    && (forall k :: 0 <= k < |d.events| ==> ShowsEvent(root.members["events"].items[k], d.events[k]))
  }

  lemma EntryShown(es: seq<Entry>, k: nat)
    requires DistinctEntries(es) && k < |es|
    ensures Shows(Object(Record(es)), es[k].0, es[k].1)
  {
    RecordHasAll(es, k);
  }

  lemma EnuShown(e: Enu)
    ensures ShowsEnu(EnuRecord(e), e)
  {
    hide Record, NumText;
    var es := [("east", Number(NumText(e.east))), ("north", Number(NumText(e.north))), ("up", Number(NumText(e.up)))];
    EntryShown(es, 0);
    EntryShown(es, 1);
    EntryShown(es, 2);
  }

  lemma SandboxShown(x: Num, y: Num)
    ensures var j := Object(Record([("x", Number(NumText(x))), ("y", Number(NumText(y)))]));
            Shows(j, "x", Number(NumText(x))) && Shows(j, "y", Number(NumText(y)))
  {
    hide Record, NumText;
    var es := [("x", Number(NumText(x))), ("y", Number(NumText(y)))];
    EntryShown(es, 0);
    EntryShown(es, 1);
  }

  lemma ZeroText()
    ensures NumText(ZERO) == "0"
  {
    assert NumText(ZERO) == "" + ("0" + ("" + ""));
  }

  lemma TaskShown(d: Dashboard, t: TaskInfo)
    ensures ShowsTask(Object(Record(TaskEntries(d, t))), d, t)
  {
    var es := TaskEntries(d, t);
    var tr := TransformOf(d, t);
    TaskKeysDiffer(d, t);
    hide Record, NumText, EnuRecord;
    EntryShown(es, 0);
    EntryShown(es, 1);
    EntryShown(es, 2);
    EntryShown(es, 3);
    EntryShown(es, 4);
    EntryShown(es, 5);
    EntryShown(es, 6);
    EntryShown(es, 7);
    EnuShown(tr.enu);
    SandboxShown(tr.x, tr.y);
    ZeroText();
  }

  lemma VehicleShown(v: VehicleInfo)
    ensures ShowsVehicle(Object(Record(VehicleEntries(v))), v)
  {
    var es := VehicleEntries(v);
    VehicleKeysDiffer(v);
    hide Record, NumText, EnuRecord;
    EntryShown(es, 0);
    EntryShown(es, 1);
    EntryShown(es, 2);
    EntryShown(es, 3);
    EntryShown(es, 4);
    EntryShown(es, 5);
    EntryShown(es, 6);
    EnuShown(v.pose);
  }

  lemma EventShown(e: EventInfo)
    ensures ShowsEvent(Object(Record(EventEntries(e))), e)
  {
    var es := EventEntries(e);
    EventKeysDiffer(e);
    hide Record, NumText;
    EntryShown(es, 0);
    EntryShown(es, 1);
    EntryShown(es, 2);
    EntryShown(es, 3);
    EntryShown(es, 4);
    EntryShown(es, 5);
  }

  /** A snapshot whose strings are clean is read back as a value that shows everything in it. */
  lemma SnapshotShowsAll(d: Dashboard, now: Num, fits: string -> bool)
    requires Finite(d, now, fits) && AllClean(d)
    ensures Document(SnapshotText(d, now), fits).Ok? && ShowsAll(Document(SnapshotText(d, now), fits).value, d, now)
  {
    PrintThenParse(d, now, fits);
    hide *;
    RecordShowsAll(d, now);
  }

  lemma RecordShowsAll(d: Dashboard, now: Num)
    ensures ShowsAll(Object(Record(SnapshotEntries(d, now))), d, now)
  {
    ListsAreFound(d, now);
    HeadShown(d, now);
    hide SnapshotEntries, Record, ShowsTask, ShowsVehicle, ShowsEvent, TaskEntries, VehicleEntries, EventEntries, NumText;
    forall k | 0 <= k < |d.tasks|
      ensures ShowsTask(Object(Record(TaskEntries(d, d.tasks[k]))), d, d.tasks[k])
    {
      TaskShown(d, d.tasks[k]);
    }
    forall k | 0 <= k < |d.vehicles|
      ensures ShowsVehicle(Object(Record(VehicleEntries(d.vehicles[k]))), d.vehicles[k])
    {
      VehicleShown(d.vehicles[k]);
    }
    forall k | 0 <= k < |d.events|
      ensures ShowsEvent(Object(Record(EventEntries(d.events[k]))), d.events[k])
    {
      EventShown(d.events[k]);
    }
  }

  lemma HeadShown(d: Dashboard, now: Num)
    ensures var root := Object(Record(SnapshotEntries(d, now)));
            && Shows(root, "scenario", Str("campus emergency response")) && Shows(root, "domain_id", Number("42"))
            && Shows(root, "transport", Str("ZRDDS typed topics via DashboardBridge")) && Shows(root, "generated_at_ms", Number(NumText(now)))
  {
    hide Record, NumText, TaskEntries, VehicleEntries, EventEntries;
    var es := SnapshotEntries(d, now);
    EntryShown(es, 0);
    EntryShown(es, 1);
    EntryShown(es, 2);
    EntryShown(es, 3);
  }
}
