/** What a poll reports of each difference: exactly when it is taken for the echo of a write, and otherwise an event. */
module EchoChecks {
  import opened Domain
  import opened Diff
  import opened Polling
  import opened PollingLaws
  import opened Echo

  /**
   * The record names a known event of another system, on the same UBID and of the difference's service type, as
   * applied within five seconds of the record's last change; and that event has the difference's payload, or
   * changes exactly its field.
   */
  predicate Echoes(record: Record, d: DiffEntry, events: map<EventId, Event>) {
    && record.propagation.Some?
    && var p := record.propagation.value;
       && p.eventId.Some? && p.eventId.value in events
       && p.source != Some(record.system)
       && d.mapping.serviceType.Some? && p.serviceType == d.mapping.serviceType
       && p.appliedAt.Some? && -5000 <= record.lastModifiedAt - p.appliedAt.value <= 5000
       && var e := events[p.eventId.value];
          && e.source != record.system && e.ubid == record.ubid
          && e.serviceType == d.mapping.serviceType.value
          && (e.payloadHash == PayloadHash(d.fragment) || e.changedFields == [d.mapping.changedField])
  }

  /** What a supported difference becomes. */
  function VerdictOn(record: Record, d: DiffEntry, events: map<EventId, Event>): Action
    requires Supported(d)
  {
    var field, service := d.mapping.changedField, d.mapping.serviceType.value;
    if Echoes(record, d, events)
    then PROPAGATED_CHANGE_CONFIRMED(events[record.propagation.value.eventId.value].id, service, [field])
    else EVENT_CREATED(Request([field], d.fragment, service, record.system, record.ubid))
  }

  lemma GroupVerdictOn(record: Record, g: Group, events: map<EventId, Event>)
    requires |g.entries| == 1 && g.entries[0].mapping.serviceType == Some(g.serviceType)
    ensures ActionFor(record, g, events) == VerdictOn(record, g.entries[0], events)
  {
    var d := g.entries[0];
    assert g.entries == [d];
    SingleFields(d);
    MergingOneFragment(d);
    if record.propagation.Some? && record.propagation.value.eventId.Some?
      && record.propagation.value.eventId.value in events
    {
      SingletonMultiset(d.mapping.changedField, events[record.propagation.value.eventId.value].changedFields);
    }
  }

  lemma {:induction false} ActionsOfGroups(record: Record, groups: seq<Group>, events: map<EventId, Event>)
    ensures |SummaryOf(record, groups, events).actions| == |groups|
    ensures forall i :: 0 <= i < |groups| ==>
      SummaryOf(record, groups, events).actions[i] == ActionFor(record, groups[i], events)
  {
    if groups == [] {
    } else {
      ActionsOfGroups(record, groups[..|groups| - 1], events);
    }
  }

  // ---- The differences of a poll ----

  predicate IsDifference(previous: Stored, record: Record, d: DiffEntry) {
    d in DiffSnapshots(previous.payload, record.snapshot, record.system) && Supported(d)
  }

  lemma DifferenceHasGroup(previous: Stored, record: Record, d: DiffEntry) returns (i: nat)
    requires IsDifference(previous, record, d)
    ensures var groups := GroupEntries(DiffSnapshots(previous.payload, record.snapshot, record.system));
      i < |groups| && groups[i].entries == [d] && d.mapping.serviceType == Some(groups[i].serviceType)
  {
    var entries := DiffSnapshots(previous.payload, record.snapshot, record.system);
    var g := SupportedIsGrouped(entries, d);
    GroupsAreSingletons(previous.payload, record.snapshot, record.system, g);
    i :| 0 <= i < |GroupEntries(entries)| && GroupEntries(entries)[i] == g;
  }

  lemma GroupIsDifference(previous: Stored, record: Record, i: nat)
    requires i < |GroupEntries(DiffSnapshots(previous.payload, record.snapshot, record.system))|
    ensures var g := GroupEntries(DiffSnapshots(previous.payload, record.snapshot, record.system))[i];
      && |g.entries| == 1 && IsDifference(previous, record, g.entries[0])
      && g.entries[0].mapping.serviceType == Some(g.serviceType)
  {
    var g := GroupEntries(DiffSnapshots(previous.payload, record.snapshot, record.system))[i];
    GroupsAreSingletons(previous.payload, record.snapshot, record.system, g);
  }

  /**
   * Of a poll of a changed record: it confirms exactly the differences that are echoes, and ingests exactly one
   * request for each other supported difference, with the new value as its whole payload.
   */
  lemma PollReports(previous: Stored, record: Record, events: map<EventId, Event>, action: Action)
    requires StoredSound(previous, record.system) && IsSnapshot(record.snapshot, record.system)
    requires action.EVENT_CREATED? || action.PROPAGATED_CHANGE_CONFIRMED?
    ensures action in Poll(Some(previous), record, events).actions <==>
      exists d | IsDifference(previous, record, d) :: action == VerdictOn(record, d, events)
  {
    var entries := DiffSnapshots(previous.payload, record.snapshot, record.system);
    var groups := GroupEntries(entries);
    NoChangeMeansNoDiff(previous, record, events);
    ActionsOfGroups(record, groups, events);
    ReportedActions(previous, record, events, action);
    if action in SummaryOf(record, groups, events).actions {
      var i :| 0 <= i < |groups| && ActionFor(record, groups[i], events) == action;
      GroupIsDifference(previous, record, i);
      GroupVerdictOn(record, groups[i], events);
    }
    if d :| IsDifference(previous, record, d) && action == VerdictOn(record, d, events) {
      var i := DifferenceHasGroup(previous, record, d);
      GroupVerdictOn(record, groups[i], events);
      assert SummaryOf(record, groups, events).actions[i] == action;
    }
  }

  /** The other actions of a poll are neither. */
  lemma ReportedActions(previous: Stored, record: Record, events: map<EventId, Event>, action: Action)
    requires StoredSound(previous, record.system) && IsSnapshot(record.snapshot, record.system)
    requires action.EVENT_CREATED? || action.PROPAGATED_CHANGE_CONFIRMED?
    ensures action in Poll(Some(previous), record, events).actions <==>
      action in SummaryOf(record, GroupEntries(DiffSnapshots(previous.payload, record.snapshot, record.system)),
                          events).actions
  {
    NoChangeMeansNoDiff(previous, record, events);
    SameHashMeansNoDiff(previous.payload, record.snapshot, record.system);
  }

  // ---- How many there are ----

  ghost function EntriesCreating(record: Record, groups: seq<Group>, events: map<EventId, Event>): set<DiffEntry>
    requires forall i :: 0 <= i < |groups| ==> |groups[i].entries| == 1
  {
    set i | 0 <= i < |groups| && !Echoes(record, groups[i].entries[0], events) :: groups[i].entries[0]
  }

  predicate OneEach(groups: seq<Group>) {
    && (forall i :: 0 <= i < |groups| ==>
      |groups[i].entries| == 1 && groups[i].entries[0].mapping.serviceType == Some(groups[i].serviceType))
    && (forall i, j :: 0 <= i < j < |groups| ==> groups[i].serviceType != groups[j].serviceType)
  }

  lemma CreatingLast(record: Record, groups: seq<Group>, events: map<EventId, Event>)
    requires OneEach(groups) && groups != []
    ensures var n, last := |groups| - 1, groups[|groups| - 1].entries[0];
      && last !in EntriesCreating(record, groups[..n], events)
      && EntriesCreating(record, groups, events) == EntriesCreating(record, groups[..n], events)
        + if Echoes(record, last, events) then {} else {last}
  {
    var n := |groups| - 1;
    assert forall i :: 0 <= i < n ==> groups[..n][i] == groups[i];
    forall d ensures d in EntriesCreating(record, groups, events) <==>
      d in EntriesCreating(record, groups[..n], events)
      || (d == groups[n].entries[0] && !Echoes(record, d, events))
    {
      if d in EntriesCreating(record, groups[..n], events) {
        var i :| 0 <= i < n && groups[..n][i].entries[0] == d && !Echoes(record, d, events);
        assert groups[i].entries[0] == d;
      }
    }
  }

  lemma CountedOnce(s: Summary, record: Record, g: Group, events: map<EventId, Event>)
    requires |g.entries| == 1 && g.entries[0].mapping.serviceType == Some(g.serviceType)
    ensures var after, echoed := Polling.Count(s, ActionFor(record, g, events)), Echoes(record, g.entries[0], events);
      && after.eventsCreated == s.eventsCreated + (if echoed then 0 else 1)
      && after.confirmed == s.confirmed + if echoed then 1 else 0
  {
    GroupVerdictOn(record, g, events);
  }

  lemma {:induction false} CreatedAreCounted(record: Record, groups: seq<Group>, events: map<EventId, Event>)
    requires OneEach(groups)
    ensures SummaryOf(record, groups, events).eventsCreated == |EntriesCreating(record, groups, events)|
    ensures SummaryOf(record, groups, events).eventsCreated + SummaryOf(record, groups, events).confirmed == |groups|
  {
    if groups == [] {
    } else {
      var front, last := groups[..|groups| - 1], groups[|groups| - 1];
      CreatedAreCounted(record, front, events);
      CreatingLast(record, groups, events);
      CountedOnce(SummaryOf(record, front, events), record, last, events);
    }
  }

  /** The supported differences that are no echoes. */
  ghost function NotEchoed(previous: Stored, record: Record, events: map<EventId, Event>): set<DiffEntry> {
    set d | d in DiffSnapshots(previous.payload, record.snapshot, record.system)
      && Supported(d) && !Echoes(record, d, events)
  }

  lemma GroupsAreOneEach(previous: Stored, record: Record)
    ensures OneEach(GroupEntries(DiffSnapshots(previous.payload, record.snapshot, record.system)))
  {
    var groups := GroupEntries(DiffSnapshots(previous.payload, record.snapshot, record.system));
    GroupingPartitions(DiffSnapshots(previous.payload, record.snapshot, record.system), REGISTERED_ADDRESS_CHANGE);
    forall i | 0 <= i < |groups|
      ensures |groups[i].entries| == 1 && groups[i].entries[0].mapping.serviceType == Some(groups[i].serviceType)
    {
      GroupIsDifference(previous, record, i);
    }
  }

  lemma CreatingAreNotEchoed(previous: Stored, record: Record, events: map<EventId, Event>)
    requires OneEach(GroupEntries(DiffSnapshots(previous.payload, record.snapshot, record.system)))
    ensures NotEchoed(previous, record, events) == EntriesCreating(
      record, GroupEntries(DiffSnapshots(previous.payload, record.snapshot, record.system)), events)
  {
    var groups := GroupEntries(DiffSnapshots(previous.payload, record.snapshot, record.system));
    forall d ensures d in EntriesCreating(record, groups, events) <==> d in NotEchoed(previous, record, events) {
      if d in EntriesCreating(record, groups, events) {
        var i :| 0 <= i < |groups| && groups[i].entries[0] == d && !Echoes(record, d, events);
        GroupIsDifference(previous, record, i);
      }
      if d in NotEchoed(previous, record, events) {
        var i := DifferenceHasGroup(previous, record, d);
      }
    }
  }

  /** One event for each of them, and none besides. */
  lemma EventsPerDifference(previous: Stored, record: Record, events: map<EventId, Event>)
    requires StoredSound(previous, record.system) && IsSnapshot(record.snapshot, record.system)
    ensures Poll(Some(previous), record, events).eventsCreated == |NotEchoed(previous, record, events)|
  {
    GroupsAreOneEach(previous, record);
    CreatedAreCounted(record, GroupEntries(DiffSnapshots(previous.payload, record.snapshot, record.system)), events);
    CreatingAreNotEchoed(previous, record, events);
    CreatedIsOfGroups(previous, record, events);
  }

  lemma CreatedIsOfGroups(previous: Stored, record: Record, events: map<EventId, Event>)
    requires StoredSound(previous, record.system) && IsSnapshot(record.snapshot, record.system)
    ensures Poll(Some(previous), record, events).eventsCreated == SummaryOf(
      record, GroupEntries(DiffSnapshots(previous.payload, record.snapshot, record.system)), events).eventsCreated
  {
    NoChangeMeansNoDiff(previous, record, events);
    SameHashMeansNoDiff(previous.payload, record.snapshot, record.system);
  }

  /** No trace that could make any difference an echo: missing, unknown or more than five seconds off. */
  predicate Untraced(record: Record, events: map<EventId, Event>) {
    record.propagation.Some? ==>
      var p := record.propagation.value;
      || p.eventId.None? || p.eventId.value !in events || p.appliedAt.None?
      || record.lastModifiedAt - p.appliedAt.value > 5000 || p.appliedAt.value - record.lastModifiedAt > 5000
  }

  /** Then every supported difference comes back as an event of its own. */
  lemma UntracedChangesAreEvents(previous: Stored, record: Record, events: map<EventId, Event>)
    requires StoredSound(previous, record.system) && IsSnapshot(record.snapshot, record.system)
    requires Untraced(record, events)
    ensures Poll(Some(previous), record, events).eventsCreated
      == |set d | d in DiffSnapshots(previous.payload, record.snapshot, record.system) && Supported(d)|
  {
    EventsPerDifference(previous, record, events);
    assert NotEchoed(previous, record, events)
      == set d | d in DiffSnapshots(previous.payload, record.snapshot, record.system) && Supported(d);
  }

  // ---- The one field that polling does not support ----

  const WORKER_LIMIT_MAPPING := DiffMapping(WorkerLimitPath, WorkerLimit, None, WORKER_LIMIT)

  lemma OnlyWorkerLimit(system: SystemName, m: DiffMapping)
    ensures m in DiffMappings(system) && m.serviceType.None? <==> system != EKARMIKA && m == WORKER_LIMIT_MAPPING
  {
    if system != EKARMIKA { assert DiffMappings(system)[2] == WORKER_LIMIT_MAPPING; }
  }

  lemma NonEmptyHasElement<T>(s: seq<T>)
    ensures s != [] <==> exists x :: x in s
  {
    if s != [] { assert s[0] in s; }
  }

  lemma {:induction false} AtMostOneUnsupported(entries: seq<DiffEntry>, m: DiffMapping)
    requires OnePerType(entries)
    requires forall d :: d in entries && !Supported(d) ==> d.mapping == m
    ensures |Unsupported(entries)| <= 1
    ensures forall d :: d in Unsupported(entries) ==> d in entries && !Supported(d)
  {
    if entries == [] {
    } else {
      var front, last := entries[..|entries| - 1], entries[|entries| - 1];
      assert last in entries;
      AtMostOneUnsupported(front, m);
      if !Supported(last) {
        forall d | d in front ensures d.mapping != m {
          var i :| 0 <= i < |front| && front[i] == d;
          assert entries[i].mapping != entries[|entries| - 1].mapping;
        }
        NonEmptyHasElement(Unsupported(front));
      }
    }
  }

  /** The skipped entries of a diff: the worker limit of an e-Surakshate record, if it changed. */
  lemma UnsupportedOfDiff(before: Snapshot, after: Snapshot, system: SystemName)
    ensures var skipped := Unsupported(DiffSnapshots(before, after, system));
      if system != EKARMIKA && Changed(WORKER_LIMIT_MAPPING, before, after)
      then skipped == [EntryFor(WORKER_LIMIT_MAPPING, before, after)] else skipped == []
  {
    var entries := DiffSnapshots(before, after, system);
    DiffEntriesAreDistinct(before, after, system);
    OnlyWorkerLimit(system, WORKER_LIMIT_MAPPING);
    GroupingPartitions(entries, REGISTERED_ADDRESS_CHANGE);
    forall d | d in entries && !Supported(d) ensures d.mapping == WORKER_LIMIT_MAPPING {
      OnlyWorkerLimit(system, d.mapping);
    }
    AtMostOneUnsupported(entries, WORKER_LIMIT_MAPPING);
    NonEmptyHasElement(Unsupported(entries));
    forall d | d in Unsupported(entries)
      ensures system != EKARMIKA && Changed(WORKER_LIMIT_MAPPING, before, after)
      ensures d == EntryFor(WORKER_LIMIT_MAPPING, before, after)
    {
      OnlyWorkerLimit(system, d.mapping);
      var m :| m in DiffMappings(system) && Changed(m, before, after) && d == EntryFor(m, before, after);
    }
    if system != EKARMIKA && Changed(WORKER_LIMIT_MAPPING, before, after) {
      assert EntryFor(WORKER_LIMIT_MAPPING, before, after) in entries;
      assert EntryFor(WORKER_LIMIT_MAPPING, before, after) in Unsupported(entries);
    }
  }

  lemma FieldsOfOne(d: DiffEntry)
    ensures ChangedFieldsOf([d]) == [d.mapping.changedField]
  {
    SingleFields(d);
  }

  /** The worker limit of an e-Surakshate record shows differently. */
  predicate WorkerLimitChanged(previous: Stored, record: Record) {
    record.system != EKARMIKA
    && !AreValuesEqual(Get(previous.payload, WORKER_LIMIT), Get(record.snapshot, WORKER_LIMIT))
  }

  lemma SkippedActions(s: Summary, skipped: seq<DiffEntry>, action: Action)
    requires forall a :: a in s.actions ==> !a.UNSUPPORTED_CHANGE_SKIPPED?
    requires action.UNSUPPORTED_CHANGE_SKIPPED? && s.unsupported == 0
    ensures var after := WithUnsupported(s, skipped);
      && after.unsupported == |skipped|
      && (action in after.actions <==> skipped != [] && action == UNSUPPORTED_CHANGE_SKIPPED(ChangedFieldsOf(skipped)))
  {
    var last := UNSUPPORTED_CHANGE_SKIPPED(ChangedFieldsOf(skipped));
    assert action in s.actions + [last] <==> action in s.actions || action == last;
  }

  lemma NoGroupIsSkipped(record: Record, groups: seq<Group>, events: map<EventId, Event>)
    ensures forall a :: a in SummaryOf(record, groups, events).actions ==> !a.UNSUPPORTED_CHANGE_SKIPPED?
  {
    ActionsOfGroups(record, groups, events);
  }

  /** A changed worker limit is skipped and named, once, and nothing else is. */
  lemma UnsupportedIsSkipped(previous: Stored, record: Record, events: map<EventId, Event>, action: Action)
    requires StoredSound(previous, record.system) && IsSnapshot(record.snapshot, record.system)
    requires action.UNSUPPORTED_CHANGE_SKIPPED?
    ensures var s := Poll(Some(previous), record, events);
      && s.unsupported == (if WorkerLimitChanged(previous, record) then 1 else 0)
      && (action in s.actions <==>
          WorkerLimitChanged(previous, record) && action == UNSUPPORTED_CHANGE_SKIPPED([WorkerLimit]))
  {
    var entries := DiffSnapshots(previous.payload, record.snapshot, record.system);
    var groups := GroupEntries(entries);
    NoChangeMeansNoDiff(previous, record, events);
    SameHashMeansNoDiff(previous.payload, record.snapshot, record.system);
    UnsupportedOfDiff(previous.payload, record.snapshot, record.system);
    FieldsOfOne(EntryFor(WORKER_LIMIT_MAPPING, previous.payload, record.snapshot));
    NoGroupIsSkipped(record, groups, events);
    NothingSavedYet(record, groups, events);
    SkippedActions(SummaryOf(record, groups, events), Unsupported(entries), action);
  }

  // ---- The other two kinds of poll ----

  /** The first poll of a record stores it and reports nothing else; one that finds nothing new stores nothing. */
  lemma QuietPolls(previous: Option<Stored>, record: Record, events: map<EventId, Event>)
    requires IsSnapshot(record.snapshot, record.system)
    requires previous.Some? ==> StoredSound(previous.value, record.system)
    ensures var s, stored := Poll(previous, record, events), PollStored(previous, record);
      && (previous.None? ==>
        && s.actions == [BASELINE_SAVED] && s.baselinesSaved == 1 && s.snapshotsSaved == 1 && s.noChanges == 0
        && s.eventsCreated == 0 && s.confirmed == 0 && s.unsupported == 0
        && stored.payload == record.snapshot && stored.lastModifiedAt == record.lastModifiedAt)
      && (previous.Some? && DiffSnapshots(previous.value.payload, record.snapshot, record.system) == [] ==>
        && s.actions == [NO_CHANGE] && s.noChanges == 1 && s.snapshotsSaved == 0 && s.baselinesSaved == 0
        && s.eventsCreated == 0 && s.confirmed == 0 && s.unsupported == 0 && stored == previous.value)
      && (previous.Some? && DiffSnapshots(previous.value.payload, record.snapshot, record.system) != [] ==>
        && s.noChanges == 0 && s.snapshotsSaved == 1 && s.baselinesSaved == 0
        && stored.payload == record.snapshot && stored.lastModifiedAt == record.lastModifiedAt)
  {
    if previous.Some? {
      NoChangeMeansNoDiff(previous.value, record, events);
      SameHashMeansNoDiff(previous.value.payload, record.snapshot, record.system);
      NothingSavedYet(record, GroupEntries(PollEntries(previous, record)), events);
    }
  }
}
