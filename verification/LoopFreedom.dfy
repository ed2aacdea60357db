/**
 * Ingests, worker runs with the department writes they make, polls and the departments' own edits, in any
 * order: when a change that K-Sync delivered comes back as an event.
 */
module LoopFreedom {
  import opened Domain
  import opened Diff
  import opened Polling
  import opened PollingLaws
  import opened Adapters
  import opened Echo
  import opened EchoChecks
  import opened Ksync
  import SystemRuns
  import RunDelivery
  import Delivery
  import Routing

  /** A row of one of the two department tables. */
  datatype DeptRow = Factory(factory: FactoryRow) | Labour(labour: LabourRow)

  /** A translated payload; now is the time of the write as a date string. */
  datatype DeptPayload = ForFactory(payload: FactoryPayload, now: string) | ForLabour(fields: LabourPayload)

  datatype RowId = RowId(system: SystemName, localIdentifier: string)

  /**
   * What has happened to a row since its last poll: K-Sync's own clean writes, with the event of the last one
   * and the fields of all, or anything else.
   */
  datatype History = Since(last: Option<Event>, fields: set<PayloadField>) | Disturbed

  /**
   * The backend with the department tables and the stored snapshots. The history is a history variable: it
   * is kept up to date, and no move reads it.
   */
  datatype Network = Network(
    sys: System, rows: map<RowId, DeptRow>, snapshots: map<SnapshotKey, Stored>, history: map<RowId, History>)

  function IdOf(row: DeptRow): RowId {
    match row
    case Factory(r) => RowId(ESURAKSHATE, r.licenseNo)
    case Labour(r) => RowId(EKARMIKA, r.labourRegNo)
  }

  /** What polling makes of a row; a row without an identifier is not polled. */
  function RecordOf(row: DeptRow): (record: Option<Record>)
    ensures record.Some? <==> IdOf(row).localIdentifier != ""
    ensures record.Some? ==>
      record.value.system == IdOf(row).system && record.value.localIdentifier == IdOf(row).localIdentifier
  {
    match row
    case Factory(r) => NormalizeFactory(r)
    case Labour(r) => NormalizeLabour(r)
  }

  predicate Fits(row: DeptRow, p: DeptPayload) { row.Factory? <==> p.ForFactory? }

  function WriteRow(row: DeptRow, p: DeptPayload, e: Event, modifiedAt: int, appliedAt: int): DeptRow
    requires Fits(row, p)
  {
    match row
    case Factory(r) => Factory(FactoryWritten(r, p.payload, e, modifiedAt, appliedAt, p.now))
    case Labour(r) => Labour(LabourWritten(r, p.fields, e, modifiedAt, appliedAt))
  }

  // ---- Moves ----

  datatype Move =
    | Inside(step: SystemRuns.Step)
    | Writing(id: Delivery.JobId, registry: Routing.Registry, payload: DeptPayload, modifiedAt: int, appliedAt: int)
    | Polling(rowId: RowId)
    | Editing(row: DeptRow)

  /** The row that a job's write goes to, by the registry of the moment. */
  function TargetRow(w: Network, id: Delivery.JobId, registry: Routing.Registry): RowId
    requires id.eventId in w.sys.world.events
  {
    RowId(id.target, Routing.ResolveTarget(registry, w.sys.world.events[id.eventId].ubid, id.target).localIdentifier)
  }

  predicate IsDepartment(system: SystemName) { system == EKARMIKA || system == ESURAKSHATE }

  /** A worker run that reaches the write and succeeds. */
  predicate Delivers(w: Network, id: Delivery.JobId, registry: Routing.Registry) {
    && Delivery.Runnable(HubOf(w.sys), id) && id.eventId in w.sys.world.events
    && w.sys.world.status[id.eventId] != SUPERSEDED
    && Routing.Resolves(registry, w.sys.world.events[id.eventId], id.target)
  }

  ghost predicate CanMove(w: Network, m: Move) {
    match m
    case Inside(step) =>
      && SystemRuns.CanTake(w.sys, step)
      && !(step.Running? && step.adapter == Delivery.SUCCEEDS && IsDepartment(step.id.target)
           && Delivers(w, step.id, step.registry))
    case Writing(id, registry, payload, _, _) =>
      && IsDepartment(id.target) && Delivers(w, id, registry)
      && TargetRow(w, id, registry) in w.rows && Fits(w.rows[TargetRow(w, id, registry)], payload)
    case Polling(rowId) => rowId in w.rows
    case Editing(row) => true
  }

  /** A write of a one-field event into a row of its own UBID, with stamps within five seconds. */
  predicate CleanFor(row: DeptRow, e: Event, modifiedAt: int, appliedAt: int) {
    && OneFieldChange(e) && RecordOf(row).Some? && e.ubid == RecordOf(row).value.ubid
    && Abs(modifiedAt - appliedAt) <= 5000
  }

  function HistoryOf(w: Network, id: RowId): History { if id in w.history then w.history[id] else Disturbed }

  function AfterWrite(h: History, row: DeptRow, e: Event, modifiedAt: int, appliedAt: int): History {
    if h.Since? && CleanFor(row, e, modifiedAt, appliedAt) then Since(Some(e), h.fields + {e.changedFields[0]})
    else Disturbed
  }

  function WithWrite(w: Network, id: RowId, p: DeptPayload, e: Event, modifiedAt: int, appliedAt: int): Network
    requires id in w.rows && Fits(w.rows[id], p)
  {
    w.(rows := w.rows[id := WriteRow(w.rows[id], p, e, modifiedAt, appliedAt)],
       history := w.history[id := AfterWrite(HistoryOf(w, id), w.rows[id], e, modifiedAt, appliedAt)])
  }

  function WithPoll(w: Network, id: RowId): Network
    requires id in w.rows
  {
    match RecordOf(w.rows[id])
    case None => w
    case Some(record) =>
      w.(snapshots := w.snapshots[KeyOf(record) := PollStored(Previous(w.snapshots, record), record)],
         history := w.history[id := Since(None, {})])
  }

  ghost function AfterMove(w: Network, m: Move): Network
    requires CanMove(w, m)
  {
    match m
    case Inside(step) => w.(sys := SystemRuns.Take(w.sys, step))
    case Writing(id, registry, payload, modifiedAt, appliedAt) =>
      WithWrite(w.(sys := RunJob(w.sys, id, registry, Delivery.SUCCEEDS)), TargetRow(w, id, registry), payload,
              w.sys.world.events[id.eventId], modifiedAt, appliedAt)
    case Polling(rowId) => WithPoll(w, rowId)
    case Editing(row) =>
      w.(rows := w.rows[IdOf(row) := row], history := w.history[IdOf(row) := Disturbed])
  }

  /** The events that a poll of this row would create now. */
  function Created(w: Network, rowId: RowId): nat
    requires rowId in w.rows
  {
    match RecordOf(w.rows[rowId])
    case None => 0
    case Some(record) => Poll(Previous(w.snapshots, record), record, w.sys.world.events).eventsCreated
  }

  ghost predicate IsRun(trace: seq<Network>, moves: seq<Move>) {
    && |trace| == |moves| + 1
    && trace[0] == Network(EMPTY, map[], map[], map[])
    && forall i {:trigger CanMove(trace[i], moves[i])} :: 0 <= i < |moves| ==>
      CanMove(trace[i], moves[i]) && trace[i + 1] == AfterMove(trace[i], moves[i])
  }

  // ---- What every run keeps ----

  /** Jobs exist only for targets that the routing table has for their event. */
  ghost predicate JobsRouted(s: System) {
    forall id :: id in s.jobs ==> id.eventId in s.world.events && RoutedTo(s.world.events[id.eventId], id.target)
  }

  predicate RoutedTo(e: Event, target: SystemName) { target in Routing.RuleTargets(e.source, e.serviceType) }

  ghost predicate RowsFit(w: Network) {
    forall id :: id in w.rows ==> IdOf(w.rows[id]) == id
  }

  ghost predicate SnapshotsSound(w: Network) {
    forall key :: key in w.snapshots ==> StoredSound(w.snapshots[key], key.system)
  }

  ghost predicate Healthy(w: Network) {
    && SystemRuns.Sturdy(w.sys) && JobsRouted(w.sys)
    && RowsFit(w) && SnapshotsSound(w)
  }

  lemma QueueingKeepsRouted(s: System, s': System, c: Call, routed: bool)
    requires JobsRouted(s) && c.e.id !in s.world.events
    requires s'.jobs == RunDelivery.JobsAfter(s, c, routed) && s'.world.events == s.world.events[c.e.id := c.e]
    ensures JobsRouted(s')
  {
    Routing.NeverBackToTheSource(c.registry, c.e);
  }

  lemma RunningKeepsRouted(s: System, s': System)
    requires JobsRouted(s) && s'.jobs.Keys == s.jobs.Keys && s'.world.events == s.world.events
    ensures JobsRouted(s')
  {
  }

  lemma StepKeepsRouted(s: System, step: SystemRuns.Step)
    requires SystemRuns.CanTake(s, step) && SystemRuns.Sturdy(s) && JobsRouted(s)
    ensures JobsRouted(SystemRuns.Take(s, step))
  {
    match step
    case Ingesting(c, order) =>
      var routed := RunDelivery.IngestJobs(s, c, order);
      SystemRuns.IngestAddsTheEvent(s, c, order);
      QueueingKeepsRouted(s, SystemRuns.Take(s, step), c, routed);
    case Running(id, registry, adapter) =>
      RunDelivery.JobRunAddsNoJob(s, step);
      SystemRuns.JobRunOnWorld(s, id, registry, adapter);
      RunningKeepsRouted(s, SystemRuns.Take(s, step));
  }

  /** As far as the backend proper goes, a delivery is a worker run. */
  function StepOf(m: Move): SystemRuns.Step
    requires m.Inside? || m.Writing?
  {
    match m
    case Inside(step) => step
    case Writing(id, registry, _, _, _) => SystemRuns.Running(id, registry, Delivery.SUCCEEDS)
  }

  lemma MoveIsAStep(w: Network, m: Move)
    requires CanMove(w, m)
    ensures if m.Inside? || m.Writing?
      then SystemRuns.CanTake(w.sys, StepOf(m)) && AfterMove(w, m).sys == SystemRuns.Take(w.sys, StepOf(m))
      else AfterMove(w, m).sys == w.sys
  {
  }

  lemma MoveKeepsBackend(w: Network, m: Move)
    requires CanMove(w, m) && Healthy(w)
    ensures SystemRuns.Sturdy(AfterMove(w, m).sys) && JobsRouted(AfterMove(w, m).sys)
  {
    MoveIsAStep(w, m);
    if m.Inside? || m.Writing? {
      SystemRuns.StepKeepsSturdy(w.sys, StepOf(m));
      StepKeepsRouted(w.sys, StepOf(m));
    }
  }

  lemma WriteKeepsIdentity(row: DeptRow, p: DeptPayload, e: Event, modifiedAt: int, appliedAt: int)
    requires Fits(row, p)
    ensures IdOf(WriteRow(row, p, e, modifiedAt, appliedAt)) == IdOf(row)
  {
  }

  lemma MoveKeepsRowsFit(w: Network, m: Move)
    requires CanMove(w, m) && RowsFit(w)
    ensures RowsFit(AfterMove(w, m))
  {
    if m.Writing? {
      var target := TargetRow(w, m.id, m.registry);
      WriteKeepsIdentity(w.rows[target], m.payload, w.sys.world.events[m.id.eventId], m.modifiedAt, m.appliedAt);
    }
  }

  lemma RecordIsSound(row: DeptRow)
    requires RecordOf(row).Some?
    ensures IsSnapshot(RecordOf(row).value.snapshot, IdOf(row).system)
  {
    match row
    case Factory(r) => FactorySnapshotIsSound(r);
    case Labour(r) => LabourSnapshotIsSound(r);
  }

  lemma MoveKeepsSnapshotsSound(w: Network, m: Move)
    requires CanMove(w, m) && SnapshotsSound(w)
    ensures SnapshotsSound(AfterMove(w, m))
  {
    if m.Polling? && RecordOf(w.rows[m.rowId]).Some? {
      RecordIsSound(w.rows[m.rowId]);
    }
  }

  lemma MoveIsSound(w: Network, m: Move)
    requires Healthy(w) && CanMove(w, m)
    ensures Healthy(AfterMove(w, m))
  {
    MoveKeepsBackend(w, m);
    MoveKeepsRowsFit(w, m);
    MoveKeepsSnapshotsSound(w, m);
  }

  // ---- One row since its last poll ----

  /** The mapping of the one field that the event changes. */
  function OwnMapping(e: Event, system: SystemName): DiffMapping {
    if e.changedFields == [RegisteredAddress] then AddressMapping(system) else ManagerMapping(system)
  }

  function OtherMapping(e: Event, system: SystemName): DiffMapping {
    if e.changedFields == [RegisteredAddress] then ManagerMapping(system) else AddressMapping(system)
  }

  /** The snapshots differ in the fields at most. */
  ghost predicate SameBut(fields: set<PayloadField>, before: Snapshot, after: Snapshot, system: SystemName) {
    forall f ::
      && (f == AddressField(system) ==> RegisteredAddress !in fields)
      && (f == ManagerField(system) ==> AuthorizedSignatory !in fields) ==>
        AreValuesEqual(Get(before, f), Get(after, f))
  }

  /** The record differs from the snapshot at most in the fields written since, and carries the last write's trace. */
  ghost predicate Explained(
    record: Record, system: SystemName, baseline: Snapshot, h: History, events: map<EventId, Event>)
    requires h.Since?
  {
    && record.system == system
    && SameBut(h.fields, baseline, record.snapshot, system)
    && match h.last
       case None => h.fields == {}
       case Some(e) => OneFieldChange(e) && e.changedFields[0] in h.fields && WrittenFor(record, e, events)
  }

  ghost predicate Tracked(w: Network, id: RowId) {
    HistoryOf(w, id).Since? ==>
      && id in w.rows && RecordOf(w.rows[id]).Some?
      && var record := RecordOf(w.rows[id]).value;
         && Previous(w.snapshots, record).Some? && StoredSound(Previous(w.snapshots, record).value, id.system)
         && Explained(record, id.system, Previous(w.snapshots, record).value.payload, HistoryOf(w, id),
                      w.sys.world.events)
  }

  lemma SameFieldsIsSameBut(before: Snapshot, after: Snapshot, system: SystemName)
    ensures SameBut({}, before, after, system) <==> SameFields(before, after)
  {
  }

  lemma PolledIsTracked(w: Network, id: RowId)
    requires id in w.rows && IdOf(w.rows[id]) == id && RecordOf(w.rows[id]).Some? && SnapshotsSound(w)
    ensures Tracked(WithPoll(w, id), id)
  {
    var record := RecordOf(w.rows[id]).value;
    RecordIsSound(w.rows[id]);
    if Previous(w.snapshots, record).Some? {
      PollPatches(Previous(w.snapshots, record).value, record);
    } else {
      assert forall f :: AreValuesEqual(Get(record.snapshot, f), Get(record.snapshot, f));
    }
    SameFieldsIsSameBut(WithPoll(w, id).snapshots[KeyOf(record)].payload, record.snapshot, id.system);
  }

  lemma UnchangedCreatesNothing(baseline: Stored, record: Record, events: map<EventId, Event>)
    requires StoredSound(baseline, record.system) && IsSnapshot(record.snapshot, record.system)
    requires SameFields(baseline.payload, record.snapshot)
    ensures Poll(Some(baseline), record, events).eventsCreated == 0
  {
    EmptyDiffMeansSameFields(baseline.payload, record.snapshot, record.system);
    SameHashMeansNoDiff(baseline.payload, record.snapshot, record.system);
  }

  lemma OwnIsAnnounced(before: Snapshot, after: Snapshot, system: SystemName, e: Event)
    requires OneFieldChange(e)
    ensures Announced(EntryFor(OwnMapping(e, system), before, after), e)
    ensures !Announced(EntryFor(OtherMapping(e, system), before, after), e)
  {
  }

  lemma OneFieldAnnounced(before: Snapshot, after: Snapshot, system: SystemName, e: Event)
    requires OneFieldChange(e) && SameButTwo(before, after, system)
    ensures AllAnnounced(DiffSnapshots(before, after, system), e)
      <==> !Changed(OtherMapping(e, system), before, after)
  {
    OwnIsAnnounced(before, after, system, e);
    var entries, other := DiffSnapshots(before, after, system), OtherMapping(e, system);
    if Changed(other, before, after) {
      assert EntryFor(other, before, after) in entries && Supported(EntryFor(other, before, after));
    } else {
      forall d | d in entries ensures Announced(d, e) {
        OnlyTwoEntries(before, after, system, d);
      }
    }
  }

  // ---- Writes ----

  lemma WriteShowsOneField(
    row: DeptRow, p: DeptPayload, e: Event, modifiedAt: int, appliedAt: int, f: SourceField)
    requires Fits(row, p) && OneFieldChange(e) && RecordOf(row).Some?
    requires f != OwnMapping(e, IdOf(row).system).source
    ensures RecordOf(WriteRow(row, p, e, modifiedAt, appliedAt)).Some?
    ensures Get(RecordOf(WriteRow(row, p, e, modifiedAt, appliedAt)).value.snapshot, f)
      == Get(RecordOf(row).value.snapshot, f)
  {
    match row
    case Factory(r) => FactoryOthersKept(r, p.payload, e, modifiedAt, appliedAt, p.now, f);
    case Labour(r) => LabourOthersKept(r, p.fields, e, modifiedAt, appliedAt, f);
  }

  lemma WriteCarriesTrace(row: DeptRow, p: DeptPayload, e: Event, modifiedAt: int, appliedAt: int)
    requires Fits(row, p) && RecordOf(row).Some?
    ensures var after := RecordOf(WriteRow(row, p, e, modifiedAt, appliedAt));
      && after.Some? && KeyOf(after.value) == KeyOf(RecordOf(row).value)
      && after.value.propagation == Some(Trace(e, appliedAt)) && after.value.lastModifiedAt == modifiedAt
  {
  }

  /** Routing sends to the departments nothing but changes of SWS. */
  lemma DepartmentsHearSws(e: Event, target: SystemName)
    requires IsDepartment(target) && RoutedTo(e, target)
    ensures e.source == SWS
  {
  }

  lemma WrittenRow(
    row: DeptRow, p: DeptPayload, e: Event, modifiedAt: int, appliedAt: int, baseline: Snapshot,
    fields: set<PayloadField>)
    requires Fits(row, p) && OneFieldChange(e) && RecordOf(row).Some?
    requires SameBut(fields, baseline, RecordOf(row).value.snapshot, IdOf(row).system)
    ensures RecordOf(WriteRow(row, p, e, modifiedAt, appliedAt)).Some?
    ensures SameBut(fields + {e.changedFields[0]}, baseline,
                    RecordOf(WriteRow(row, p, e, modifiedAt, appliedAt)).value.snapshot, IdOf(row).system)
  {
    WriteCarriesTrace(row, p, e, modifiedAt, appliedAt);
    var system, now := IdOf(row).system, fields + {e.changedFields[0]};
    var after := RecordOf(WriteRow(row, p, e, modifiedAt, appliedAt)).value.snapshot;
    forall f | (f == AddressField(system) ==> RegisteredAddress !in now)
      && (f == ManagerField(system) ==> AuthorizedSignatory !in now)
      ensures AreValuesEqual(Get(baseline, f), Get(after, f))
    {
      WriteShowsOneField(row, p, e, modifiedAt, appliedAt, f);
    }
  }

  lemma WrittenIsExplained(
    row: DeptRow, p: DeptPayload, e: Event, modifiedAt: int, appliedAt: int, baseline: Snapshot, h: History,
    events: map<EventId, Event>)
    requires Fits(row, p) && CleanFor(row, e, modifiedAt, appliedAt) && h.Since?
    requires e.source == SWS && e.id in events && events[e.id] == e
    requires SameBut(h.fields, baseline, RecordOf(row).value.snapshot, IdOf(row).system)
    ensures var after := RecordOf(WriteRow(row, p, e, modifiedAt, appliedAt));
      && after.Some? && KeyOf(after.value) == KeyOf(RecordOf(row).value)
      && Explained(after.value, IdOf(row).system, baseline, AfterWrite(h, row, e, modifiedAt, appliedAt), events)
  {
    WriteCarriesTrace(row, p, e, modifiedAt, appliedAt);
    WrittenRow(row, p, e, modifiedAt, appliedAt, baseline, h.fields);
  }

  lemma SameKeySamePrevious(snapshots: map<SnapshotKey, Stored>, a: Record, b: Record)
    requires KeyOf(a) == KeyOf(b)
    ensures Previous(snapshots, a) == Previous(snapshots, b)
  {
  }

  lemma WrittenIsTracked(w: Network, id: RowId, p: DeptPayload, e: Event, modifiedAt: int, appliedAt: int)
    requires Tracked(w, id) && id in w.rows && IdOf(w.rows[id]) == id && Fits(w.rows[id], p)
    requires e.source == SWS && e.id in w.sys.world.events && w.sys.world.events[e.id] == e
    ensures Tracked(WithWrite(w, id, p, e, modifiedAt, appliedAt), id)
  {
    var row, h := w.rows[id], HistoryOf(w, id);
    if h.Since? && CleanFor(row, e, modifiedAt, appliedAt) {
      var record := RecordOf(row).value;
      WrittenIsExplained(row, p, e, modifiedAt, appliedAt, Previous(w.snapshots, record).value.payload, h,
                         w.sys.world.events);
      SameKeySamePrevious(w.snapshots, record, RecordOf(WriteRow(row, p, e, modifiedAt, appliedAt)).value);
    }
  }

  /** Nothing about the row has changed. */
  ghost predicate Untouched(w: Network, w': Network, id: RowId) {
    && id in w.rows && id in w'.rows && w'.rows[id] == w.rows[id] && HistoryOf(w', id) == HistoryOf(w, id)
    && (RecordOf(w.rows[id]).Some? ==>
      Previous(w'.snapshots, RecordOf(w.rows[id]).value) == Previous(w.snapshots, RecordOf(w.rows[id]).value))
  }

  ghost predicate EventsKept(s: System, s': System) {
    forall e :: e in s.world.events ==> e in s'.world.events && s'.world.events[e] == s.world.events[e]
  }

  lemma UntouchedIsTracked(w: Network, w': Network, id: RowId)
    requires Tracked(w, id) && Untouched(w, w', id) && EventsKept(w.sys, w'.sys)
    ensures Tracked(w', id)
  {
  }

  lemma MoveKeepsEvents(w: Network, m: Move)
    requires Healthy(w) && CanMove(w, m)
    ensures EventsKept(w.sys, AfterMove(w, m).sys)
  {
    MoveIsAStep(w, m);
    if m.Inside? || m.Writing? {
      forall e | e in w.sys.world.events
        ensures e in AfterMove(w, m).sys.world.events && AfterMove(w, m).sys.world.events[e] == w.sys.world.events[e]
      {
        SystemRuns.TakeKeepsEvents(w.sys, StepOf(m), e);
      }
    }
  }

  predicate Touches(w: Network, m: Move, id: RowId) {
    match m
    case Inside(_) => false
    case Writing(job, registry, _, _, _) => job.eventId in w.sys.world.events && TargetRow(w, job, registry) == id
    case Polling(rowId) => rowId == id
    case Editing(row) => IdOf(row) == id
  }

  /** A write as two changes: of the backend proper, which moves no row, and of the row. */
  lemma WriteInTwoParts(w: Network, m: Move) returns (v: Network)
    requires Healthy(w) && CanMove(w, m) && m.Writing?
    ensures v == w.(sys := v.sys) && v.sys.world.events == w.sys.world.events
    ensures var id, e := TargetRow(w, m.id, m.registry), w.sys.world.events[m.id.eventId];
      && id in v.rows && IdOf(v.rows[id]) == id && Fits(v.rows[id], m.payload)
      && AfterMove(w, m) == WithWrite(v, id, m.payload, e, m.modifiedAt, m.appliedAt)
      && e.source == SWS && e.id in v.sys.world.events && v.sys.world.events[e.id] == e
  {
    v := w.(sys := RunJob(w.sys, m.id, m.registry, Delivery.SUCCEEDS));
    DepartmentsHearSws(w.sys.world.events[m.id.eventId], m.id.target);
    SystemRuns.JobRunOnWorld(w.sys, m.id, m.registry, Delivery.SUCCEEDS);
  }

  lemma OtherPollKeepsPrevious(w: Network, other: RowId, id: RowId)
    requires RowsFit(w) && other in w.rows && id in w.rows && other != id && RecordOf(w.rows[id]).Some?
    ensures Untouched(w, WithPoll(w, other), id)
  {
    assert IdOf(w.rows[other]) == other && IdOf(w.rows[id]) == id;
  }

  lemma OtherWriteKeepsRow(
    w: Network, other: RowId, p: DeptPayload, e: Event, modifiedAt: int, appliedAt: int, id: RowId)
    requires other in w.rows && Fits(w.rows[other], p) && id in w.rows && other != id
    ensures Untouched(w, WithWrite(w, other, p, e, modifiedAt, appliedAt), id)
  {
  }

  lemma SameBackendIsUntouched(w: Network, v: Network, w': Network, id: RowId)
    requires v == w.(sys := v.sys) && Untouched(v, w', id)
    ensures Untouched(w, w', id)
  {
  }

  lemma OtherWriteMoveKeepsRow(w: Network, m: Move, id: RowId)
    requires Healthy(w) && CanMove(w, m) && m.Writing? && TargetRow(w, m.id, m.registry) != id && id in w.rows
    ensures Untouched(w, AfterMove(w, m), id)
  {
    var v := WriteInTwoParts(w, m);
    var e := w.sys.world.events[m.id.eventId];
    OtherWriteKeepsRow(v, TargetRow(w, m.id, m.registry), m.payload, e, m.modifiedAt, m.appliedAt, id);
    SameBackendIsUntouched(w, v, AfterMove(w, m), id);
  }

  lemma OtherMoveKeepsRow(w: Network, m: Move, id: RowId)
    requires RowsFit(w) && CanMove(w, m) && !m.Writing? && !Touches(w, m, id) && id in w.rows
    requires RecordOf(w.rows[id]).Some?
    ensures Untouched(w, AfterMove(w, m), id)
  {
    if m.Polling? { OtherPollKeepsPrevious(w, m.rowId, id); }
  }

  lemma OtherMoveIsTracked(w: Network, m: Move, id: RowId)
    requires Healthy(w) && CanMove(w, m) && !Touches(w, m, id) && Tracked(w, id) && HistoryOf(w, id).Since?
    ensures Tracked(AfterMove(w, m), id)
  {
    if m.Writing? {
      OtherWriteMoveKeepsRow(w, m, id);
    } else {
      OtherMoveKeepsRow(w, m, id);
    }
    MoveKeepsEvents(w, m);
    UntouchedIsTracked(w, AfterMove(w, m), id);
  }

  lemma OtherMovesKeepHistory(w: Network, m: Move, id: RowId)
    requires CanMove(w, m) && !Touches(w, m, id)
    ensures HistoryOf(AfterMove(w, m), id) == HistoryOf(w, id)
  {
  }

  lemma SameBackendIsTracked(w: Network, v: Network, id: RowId)
    requires Tracked(w, id) && v == w.(sys := v.sys) && v.sys.world.events == w.sys.world.events
    ensures Tracked(v, id)
  {
  }

  lemma WriteIsTracked(w: Network, m: Move)
    requires Healthy(w) && CanMove(w, m) && m.Writing? && Tracked(w, TargetRow(w, m.id, m.registry))
    ensures Tracked(AfterMove(w, m), TargetRow(w, m.id, m.registry))
  {
    var id := TargetRow(w, m.id, m.registry);
    var v := WriteInTwoParts(w, m);
    SameBackendIsTracked(w, v, id);
    WrittenIsTracked(v, id, m.payload, w.sys.world.events[m.id.eventId], m.modifiedAt, m.appliedAt);
  }

  lemma PollIsTracked(w: Network, id: RowId)
    requires Healthy(w) && id in w.rows && Tracked(w, id)
    ensures Tracked(WithPoll(w, id), id)
  {
    if RecordOf(w.rows[id]).Some? { PolledIsTracked(w, id); }
  }

  lemma MoveIsTracked(w: Network, m: Move, id: RowId)
    requires Healthy(w) && CanMove(w, m) && Tracked(w, id)
    ensures Tracked(AfterMove(w, m), id)
  {
    if !Touches(w, m, id) {
      OtherMovesKeepHistory(w, m, id);
      if HistoryOf(w, id).Since? { OtherMoveIsTracked(w, m, id); }
    } else if m.Writing? {
      WriteIsTracked(w, m);
    } else if m.Polling? {
      PollIsTracked(w, id);
    }
  }

  lemma NextIsTracked(trace: seq<Network>, moves: seq<Move>, n: nat, id: RowId)
    requires IsRun(trace, moves) && n < |moves| && Healthy(trace[n]) && Tracked(trace[n], id)
    ensures Healthy(trace[n + 1]) && Tracked(trace[n + 1], id)
  {
    assert CanMove(trace[n], moves[n]);
    MoveIsSound(trace[n], moves[n]);
    MoveIsTracked(trace[n], moves[n], id);
  }

  lemma {:induction false} RunIsTracked(trace: seq<Network>, moves: seq<Move>, n: nat, id: RowId)
    requires IsRun(trace, moves) && n <= |moves|
    ensures Healthy(trace[n]) && Tracked(trace[n], id)
  {
    if n == 0 {
      SystemRuns.EmptyIsSturdy();
    } else {
      RunIsTracked(trace, moves, n - 1, id);
      NextIsTracked(trace, moves, n - 1, id);
    }
  }

  // ---- When a delivered change comes back ----

  /** The field that the last write did not change shows as the last poll left it. */
  predicate OtherFieldShows(w: Network, id: RowId) {
    id in w.rows && RecordOf(w.rows[id]).Some? && HistoryOf(w, id).Since? && HistoryOf(w, id).last.Some?
    && Previous(w.snapshots, RecordOf(w.rows[id]).value).Some?
    && !Changed(OtherMapping(HistoryOf(w, id).last.value, id.system),
                Previous(w.snapshots, RecordOf(w.rows[id]).value).value.payload,
                RecordOf(w.rows[id]).value.snapshot)
  }

  lemma PollOfTracked(w: Network, id: RowId)
    requires Tracked(w, id) && HistoryOf(w, id).Since?
    ensures id in w.rows
    ensures Created(w, id) == 0 <==> HistoryOf(w, id).last.None? || OtherFieldShows(w, id)
  {
    var record := RecordOf(w.rows[id]).value;
    var baseline := Previous(w.snapshots, record).value;
    RecordIsSound(w.rows[id]);
    match HistoryOf(w, id).last
    case None =>
      SameFieldsIsSameBut(baseline.payload, record.snapshot, id.system);
      UnchangedCreatesNothing(baseline, record, w.sys.world.events);
    case Some(e) =>
      OneFieldAnnounced(baseline.payload, record.snapshot, id.system, e);
      NoEventIffAllAnnounced(baseline, record, e, w.sys.world.events);
  }

  /**
   * Exactly when delivered changes come back, in every reachable state: for a row that since its last poll has
   * changed by K-Sync's writes of one-field SWS changes only, if at all, the next poll creates no event if and
   * only if there was no such write, or the field that the last one did not change shows as that poll left it.
   */
  lemma ChangesComeBackIff(trace: seq<Network>, moves: seq<Move>, n: nat, id: RowId)
    requires IsRun(trace, moves) && n <= |moves| && HistoryOf(trace[n], id).Since?
    ensures id in trace[n].rows
    ensures Created(trace[n], id) == 0 <==>
      HistoryOf(trace[n], id).last.None? || OtherFieldShows(trace[n], id)
  {
    RunIsTracked(trace, moves, n, id);
    PollOfTracked(trace[n], id);
  }

  lemma OneFieldOnly(w: Network, id: RowId, field: PayloadField)
    requires Tracked(w, id) && HistoryOf(w, id).Since? && HistoryOf(w, id).fields <= {field}
    ensures HistoryOf(w, id).last.None? || OtherFieldShows(w, id)
  {
  }

  /**
   * Loop freedom, in every reachable state: SWS changes of one and the same field, delivered any number of
   * times since the last poll of the row, do not come back as an event.
   */
  lemma OneFieldNeverComesBack(trace: seq<Network>, moves: seq<Move>, n: nat, id: RowId, field: PayloadField)
    requires IsRun(trace, moves) && n <= |moves|
    requires HistoryOf(trace[n], id).Since? && HistoryOf(trace[n], id).fields <= {field}
    ensures id in trace[n].rows && Created(trace[n], id) == 0
  {
    RunIsTracked(trace, moves, n, id);
    OneFieldOnly(trace[n], id, field);
    PollOfTracked(trace[n], id);
  }

  /** The field still shows as the last poll left it. */
  predicate Shows(w: Network, id: RowId, f: SourceField) {
    id in w.rows && RecordOf(w.rows[id]).Some? && Previous(w.snapshots, RecordOf(w.rows[id]).value).Some?
    && AreValuesEqual(Get(Previous(w.snapshots, RecordOf(w.rows[id]).value).value.payload, f),
                      Get(RecordOf(w.rows[id]).value.snapshot, f))
  }

  lemma WriteKeepsOtherField(v: Network, id: RowId, p: DeptPayload, e: Event, modifiedAt: int, appliedAt: int)
    requires id in v.rows && IdOf(v.rows[id]) == id && Fits(v.rows[id], p) && Tracked(v, id)
    requires HistoryOf(v, id).Since? && CleanFor(v.rows[id], e, modifiedAt, appliedAt)
    requires !Shows(v, id, OtherMapping(e, id.system).source)
    ensures var u := WithWrite(v, id, p, e, modifiedAt, appliedAt);
      HistoryOf(u, id).Since? && HistoryOf(u, id).last == Some(e) && !OtherFieldShows(u, id)
  {
    WriteShowsOneField(v.rows[id], p, e, modifiedAt, appliedAt, OtherMapping(e, id.system).source);
    WriteCarriesTrace(v.rows[id], p, e, modifiedAt, appliedAt);
    SameKeySamePrevious(v.snapshots, RecordOf(v.rows[id]).value,
                        RecordOf(WriteRow(v.rows[id], p, e, modifiedAt, appliedAt)).value);
  }

  /**
   * Two different fields do: if one of them shows a delivered change that has not been polled yet, a write of
   * the other replaces its trace, and the next poll takes it for the department's own.
   */
  lemma SecondWriteHidesTheFirst(trace: seq<Network>, moves: seq<Move>, n: nat)
    requires IsRun(trace, moves) && n < |moves| && HidesTheFirst(trace[n], moves[n])
    ensures var id := TargetRow(trace[n], moves[n].id, moves[n].registry);
      id in trace[n + 1].rows && Created(trace[n + 1], id) > 0
  {
    var id := TargetRow(trace[n], moves[n].id, moves[n].registry);
    RunIsTracked(trace, moves, n, id);
    RunIsTracked(trace, moves, n + 1, id);
    HidingWriteComesBack(trace[n], moves[n], trace[n + 1]);
  }

  lemma HidingWriteComesBack(w: Network, m: Move, w': Network)
    requires HidesTheFirst(w, m) && w' == AfterMove(w, m) && Healthy(w)
    requires Tracked(w, TargetRow(w, m.id, m.registry)) && Tracked(w', TargetRow(w, m.id, m.registry))
    ensures TargetRow(w, m.id, m.registry) in w'.rows && Created(w', TargetRow(w, m.id, m.registry)) > 0
  {
    var id, e := TargetRow(w, m.id, m.registry), w.sys.world.events[m.id.eventId];
    var v := WriteInTwoParts(w, m);
    SameBackendIsTracked(w, v, id);
    WriteKeepsOtherField(v, id, m.payload, e, m.modifiedAt, m.appliedAt);
    PollOfTracked(w', id);
  }

  /** A clean write to a row that has only seen such writes and shows an unpolled change of the other field. */
  ghost predicate HidesTheFirst(w: Network, m: Move) {
    && m.Writing? && CanMove(w, m)
    && var id, e := TargetRow(w, m.id, m.registry), w.sys.world.events[m.id.eventId];
       && HistoryOf(w, id).Since? && CleanFor(w.rows[id], e, m.modifiedAt, m.appliedAt)
       && !Shows(w, id, OtherMapping(e, id.system).source)
  }

  // ---- A department's own changes ----

  /** How many supported fields show differently from the stored snapshot. */
  ghost function Differences(stored: Stored, record: Record): nat {
    |set d | d in DiffSnapshots(stored.payload, record.snapshot, record.system) && Supported(d)|
  }

  /**
   * In every reachable state, a polled row whose trace is missing, unknown or more than five seconds off its
   * last change comes back with one event for each supported field that shows differently.
   */
  lemma UntracedChangesComeBack(trace: seq<Network>, moves: seq<Move>, n: nat, id: RowId)
    requires IsRun(trace, moves) && n <= |moves| && id in trace[n].rows && RecordOf(trace[n].rows[id]).Some?
    requires var record := RecordOf(trace[n].rows[id]).value;
      Previous(trace[n].snapshots, record).Some? && Untraced(record, trace[n].sys.world.events)
    ensures var record := RecordOf(trace[n].rows[id]).value;
      Created(trace[n], id) == Differences(Previous(trace[n].snapshots, record).value, record)
  {
    RunIsTracked(trace, moves, n, id);
    RecordIsSound(trace[n].rows[id]);
    var record := RecordOf(trace[n].rows[id]).value;
    UntracedChangesAreEvents(Previous(trace[n].snapshots, record).value, record, trace[n].sys.world.events);
  }

  /**
   * So does an edit that keeps the trace of K-Sync's last write, if it is stamped more than five seconds after
   * that write: each supported field that it changes becomes an event at the next poll.
   */
  lemma LateEditComesBack(
    trace: seq<Network>, moves: seq<Move>, n: nat, row: DeptRow, e: Event, appliedAt: int, stored: Stored)
    requires IsRun(trace, moves) && n < |moves| && moves[n] == Editing(row) && RecordOf(row).Some?
    requires RecordOf(row).value.propagation == Some(Trace(e, appliedAt))
    requires RecordOf(row).value.lastModifiedAt > appliedAt + 5000
    requires Previous(trace[n].snapshots, RecordOf(row).value) == Some(stored)
    ensures IdOf(row) in trace[n + 1].rows
    ensures Created(trace[n + 1], IdOf(row)) == Differences(stored, RecordOf(row).value)
  {
    assert CanMove(trace[n], moves[n]);
    UntracedChangesComeBack(trace, moves, n + 1, IdOf(row));
  }
}
