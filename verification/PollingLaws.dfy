/** What polling guarantees: nothing missed, nothing counted twice, and diffs that add up. */
module PollingLaws {
  import opened Domain
  import opened Diff
  import opened Polling

  /** A stored snapshot carries the hash of its own payload. */
  predicate StoredSound(stored: Stored, system: SystemName) {
    IsSnapshot(stored.payload, system) && stored.hash == SnapshotHash(stored.payload, system)
  }

  /** A poll reports NO_CHANGE exactly when diffing would find nothing. */
  lemma NoChangeMeansNoDiff(previous: Stored, record: Record, events: map<EventId, Event>)
    requires StoredSound(previous, record.system) && IsSnapshot(record.snapshot, record.system)
    ensures Poll(Some(previous), record, events).noChanges == 1 <==>
      DiffSnapshots(previous.payload, record.snapshot, record.system) == []
    ensures PollEntries(Some(previous), record)
      == DiffSnapshots(previous.payload, record.snapshot, record.system)
  {
    SameHashMeansNoDiff(previous.payload, record.snapshot, record.system);
    NothingSavedYet(record, GroupEntries(PollEntries(Some(previous), record)), events);
  }

  // ---- Runs of polls of one record ----

  /** The stored snapshot after a run of polls. */
  function StoredAfter(records: seq<Record>): Option<Stored> {
    if records == [] then None
    else Some(PollStored(StoredAfter(records[..|records| - 1]), records[|records| - 1]))
  }

  /** All entries found in a run, in order. */
  function EntriesOf(records: seq<Record>): seq<DiffEntry> {
    if records == [] then []
    else
      var front := records[..|records| - 1];
      EntriesOf(front) + PollEntries(StoredAfter(front), records[|records| - 1])
  }

  predicate OfSystem(records: seq<Record>, system: SystemName) {
    forall i :: 0 <= i < |records| ==> records[i].system == system && IsSnapshot(records[i].snapshot, system)
  }

  lemma SameFieldsIsTransitive(a: Snapshot, b: Snapshot, c: Snapshot)
    requires SameFields(a, b) && SameFields(b, c)
    ensures SameFields(a, c)
  {
    forall f ensures AreValuesEqual(Get(a, f), Get(c, f)) {
      assert AreValuesEqual(Get(a, f), Get(b, f)) && AreValuesEqual(Get(b, f), Get(c, f));
    }
  }

  lemma SameFieldsIsSymmetric(a: Snapshot, b: Snapshot)
    requires SameFields(a, b)
    ensures SameFields(b, a)
  {
    forall f ensures AreValuesEqual(Get(b, f), Get(a, f)) {
      assert AreValuesEqual(Get(a, f), Get(b, f));
    }
  }

  /** One poll: the stored snapshot patched with its entries is the polled snapshot. */
  lemma PollPatches(previous: Stored, record: Record)
    requires StoredSound(previous, record.system) && IsSnapshot(record.snapshot, record.system)
    ensures var next := PollStored(Some(previous), record);
      && StoredSound(next, record.system)
      && SameFields(next.payload, record.snapshot)
      && SameFields(Overlay(previous.payload, PollEntries(Some(previous), record)), record.snapshot)
  {
    var t := record.snapshot;
    SameHashMeansNoDiff(previous.payload, t, record.system);
    OverlayGivesTheNewSnapshot(previous.payload, t, record.system);
    EmptyDiffMeansSameFields(previous.payload, t, record.system);
    assert forall f :: AreValuesEqual(Get(t, f), Get(t, f));
  }

  /**
   * Over any run of polls the baseline overlaid with all entries in order equals the last saved
   * snapshot, which equals the last polled one.
   */
  lemma {:induction false} DiffsAddUp(records: seq<Record>, system: SystemName)
    requires records != [] && OfSystem(records, system)
    ensures var stored := StoredAfter(records).value;
      && StoredSound(stored, system)
      && SameFields(stored.payload, records[|records| - 1].snapshot)
      && SameFields(Overlay(records[0].snapshot, EntriesOf(records)), stored.payload)
  {
    var front, last := records[..|records| - 1], records[|records| - 1];
    if front == [] {
      assert StoredAfter(front) == None && EntriesOf(records) == [];
      assert forall f :: AreValuesEqual(Get(last.snapshot, f), Get(last.snapshot, f));
    } else {
      DiffsAddUp(front, system);
      var before, after := StoredAfter(front).value, StoredAfter(records).value;
      PollPatches(before, last);
      var earlier, found := EntriesOf(front), PollEntries(Some(before), last);
      OverlayConcat(records[0].snapshot, earlier, found);
      OverlayKeepsSameFields(Overlay(records[0].snapshot, earlier), before.payload, found);
      SameFieldsIsTransitive(Overlay(Overlay(records[0].snapshot, earlier), found),
                             Overlay(before.payload, found), last.snapshot);
      SameFieldsIsSymmetric(after.payload, last.snapshot);
      SameFieldsIsTransitive(Overlay(Overlay(records[0].snapshot, earlier), found), last.snapshot, after.payload);
    }
  }

  // ---- Polls of several records ----

  /** The snapshot table after polls of any records in any order. */
  function SnapshotsAfter(records: seq<Record>): map<SnapshotKey, Stored> {
    if records == [] then map[]
    else
      var before, last := SnapshotsAfter(records[..|records| - 1]), records[|records| - 1];
      before[KeyOf(last) := PollStored(Previous(before, last), last)]
  }

  /** Snapshots are kept by system, UBID and local identifier. */
  predicate SameRecord(a: Record, b: Record) {
    a.system == b.system && a.ubid == b.ubid && a.localIdentifier == b.localIdentifier
  }

  function OfRecord(records: seq<Record>, record: Record): seq<Record> {
    if records == [] then []
    else
      var last := records[|records| - 1];
      OfRecord(records[..|records| - 1], record) + if SameRecord(last, record) then [last] else []
  }

  lemma StoredAfterLast(front: seq<Record>, last: Record)
    ensures StoredAfter(front + [last]) == Some(PollStored(StoredAfter(front), last))
  {
    assert (front + [last])[..|front|] == front;
  }

  lemma SavedUnderItsKey(before: map<SnapshotKey, Stored>, last: Record, stored: Stored, record: Record)
    ensures Previous(before[KeyOf(last) := stored], record)
      == if KeyOf(last) == KeyOf(record) then Some(stored) else Previous(before, record)
  {
  }

  lemma PreviousOfSameKey(before: map<SnapshotKey, Stored>, last: Record, record: Record)
    requires KeyOf(last) == KeyOf(record)
    ensures Previous(before, last) == Previous(before, record)
  {
  }

  /** Polls do not interfere: the next poll of a record starts from what the polls of that record alone left. */
  lemma {:induction false} PollsDoNotInterfere(records: seq<Record>, record: Record)
    ensures Previous(SnapshotsAfter(records), record) == StoredAfter(OfRecord(records, record))
  {
    if records == [] {
    } else {
      var front, last := records[..|records| - 1], records[|records| - 1];
      var before := SnapshotsAfter(front);
      PollsDoNotInterfere(front, record);
      SavedUnderItsKey(before, last, PollStored(Previous(before, last), last), record);
      if SameRecord(last, record) {
        PreviousOfSameKey(before, last, record);
        StoredAfterLast(OfRecord(front, record), last);
      } else {
        assert OfRecord(records, record) == OfRecord(front, record);
      }
    }
  }

  // ---- What a poll ingests does not change its own verdicts ----

  /** The tables agree on the one event that the record's last write names. */
  predicate SameNamedEvent(record: Record, events: map<EventId, Event>, events': map<EventId, Event>) {
    record.propagation.Some? && record.propagation.value.eventId.Some? ==>
      var id := record.propagation.value.eventId.value;
      && (id in events <==> id in events')
      && (id in events ==> events[id] == events'[id])
  }

  lemma SameNamedEventSameAction(
    record: Record, group: Group, events: map<EventId, Event>, events': map<EventId, Event>)
    requires SameNamedEvent(record, events, events')
    ensures ActionFor(record, group, events) == ActionFor(record, group, events')
  {
  }

  lemma {:induction false} SameNamedEventSameSummary(
    record: Record, groups: seq<Group>, events: map<EventId, Event>, events': map<EventId, Event>)
    requires SameNamedEvent(record, events, events')
    ensures SummaryOf(record, groups, events) == SummaryOf(record, groups, events')
  {
    if groups == [] {
    } else {
      SameNamedEventSameSummary(record, groups[..|groups| - 1], events, events');
      SameNamedEventSameAction(record, groups[|groups| - 1], events, events');
    }
  }

  /**
   * A poll may as well read the event table as it was before the poll: events added meanwhile under other ids
   * than the one that the record names change nothing.
   */
  lemma PollIgnoresOtherEvents(
    previous: Option<Stored>, record: Record, events: map<EventId, Event>, events': map<EventId, Event>)
    requires SameNamedEvent(record, events, events')
    ensures Poll(previous, record, events) == Poll(previous, record, events')
  {
    SameNamedEventSameSummary(record, GroupEntries(PollEntries(previous, record)), events, events');
  }

  // ---- Every entry is handled once ----

  function OfType(entries: seq<DiffEntry>, t: ServiceType): seq<DiffEntry> {
    if entries == [] then []
    else
      var last := entries[|entries| - 1];
      OfType(entries[..|entries| - 1], t) + if last.mapping.serviceType == Some(t) then [last] else []
  }

  function GroupOf(groups: seq<Group>, t: ServiceType): seq<DiffEntry> {
    if groups == [] then []
    else if groups[0].serviceType == t then groups[0].entries
    else GroupOf(groups[1..], t)
  }

  predicate DistinctGroups(groups: seq<Group>) {
    && (forall i, j :: 0 <= i < j < |groups| ==> groups[i].serviceType != groups[j].serviceType)
    && (forall i :: 0 <= i < |groups| ==> groups[i].entries != [])
  }

  lemma {:induction false} AddingKeepsGroupsDistinct(groups: seq<Group>, t: ServiceType, entry: DiffEntry)
    requires DistinctGroups(groups)
    ensures DistinctGroups(AddToGroup(groups, t, entry))
    ensures forall g :: g in AddToGroup(groups, t, entry) ==>
      g.serviceType == t || exists h :: h in groups && h.serviceType == g.serviceType
  {
    if groups == [] || groups[0].serviceType == t {
    } else {
      var rest := groups[1..];
      AddingKeepsGroupsDistinct(rest, t, entry);
      var longer := AddToGroup(rest, t, entry);
      assert groups == [groups[0]] + rest;
      forall j | 0 <= j < |longer| ensures longer[j].serviceType != groups[0].serviceType {
        assert longer[j] in longer;
      }
    }
  }

  lemma {:induction false} AddingToGroups(groups: seq<Group>, t: ServiceType, entry: DiffEntry, u: ServiceType)
    ensures GroupOf(AddToGroup(groups, t, entry), u) == GroupOf(groups, u) + if u == t then [entry] else []
  {
    if groups == [] || groups[0].serviceType == t {
    } else {
      AddingToGroups(groups[1..], t, entry, u);
    }
  }

  /** Grouping partitions the entries: each one is in the group of its own service type, or unsupported. */
  lemma {:induction false} GroupingPartitions(entries: seq<DiffEntry>, t: ServiceType)
    ensures GroupOf(GroupEntries(entries), t) == OfType(entries, t)
    ensures DistinctGroups(GroupEntries(entries))
    ensures forall e :: e in Unsupported(entries) <==> e in entries && e.mapping.serviceType == None
    ensures forall e :: e in OfType(entries, t) <==> e in entries && e.mapping.serviceType == Some(t)
  {
    if entries == [] {
    } else {
      var front, last := entries[..|entries| - 1], entries[|entries| - 1];
      GroupingPartitions(front, t);
      assert entries == front + [last];
      if last.mapping.serviceType.Some? {
        AddingToGroups(GroupEntries(front), last.mapping.serviceType.value, last, t);
        AddingKeepsGroupsDistinct(GroupEntries(front), last.mapping.serviceType.value, last);
      }
    }
  }

  function Sizes(groups: seq<Group>): nat {
    if groups == [] then 0 else |groups[0].entries| + Sizes(groups[1..])
  }

  lemma {:induction false} AddingGrowsByOne(groups: seq<Group>, t: ServiceType, entry: DiffEntry)
    ensures Sizes(AddToGroup(groups, t, entry)) == Sizes(groups) + 1
  {
    var added := AddToGroup(groups, t, entry);
    if groups == [] {
    } else {
      assert added[1..] == if groups[0].serviceType == t then groups[1..] else AddToGroup(groups[1..], t, entry);
      if groups[0].serviceType != t { AddingGrowsByOne(groups[1..], t, entry); }
    }
  }

  lemma {:induction false} NothingIsLost(entries: seq<DiffEntry>)
    ensures Sizes(GroupEntries(entries)) + |Unsupported(entries)| == |entries|
  {
    if entries == [] {
    } else {
      var front, last := entries[..|entries| - 1], entries[|entries| - 1];
      NothingIsLost(front);
      if last.mapping.serviceType.Some? {
        AddingGrowsByOne(GroupEntries(front), last.mapping.serviceType.value, last);
      }
    }
  }

  // ---- In a diff no two entries share a service type ----

  predicate OnePerType(entries: seq<DiffEntry>) {
    forall i, j :: 0 <= i < j < |entries| ==> entries[i].mapping != entries[j].mapping
  }

  lemma {:induction false} DiffHasDistinctMappings(mappings: seq<DiffMapping>, before: Snapshot, after: Snapshot)
    requires Distinct(mappings)
    ensures OnePerType(DiffOver(mappings, before, after))
  {
    if mappings == [] {
    } else {
      var front, last := mappings[..|mappings| - 1], mappings[|mappings| - 1];
      DiffHasDistinctMappings(front, before, after);
      var earlier := DiffOver(front, before, after);
      forall i | 0 <= i < |earlier| ensures earlier[i].mapping != last {
        assert earlier[i] in earlier;
        var m :| m in front && earlier[i] == EntryFor(m, before, after);
      }
    }
  }

  lemma DiffEntriesAreDistinct(before: Snapshot, after: Snapshot, system: SystemName)
    ensures OnePerType(DiffSnapshots(before, after, system))
    ensures forall e :: e in DiffSnapshots(before, after, system) ==> e.mapping in DiffMappings(system)
  {
    DiffHasDistinctMappings(DiffMappings(system), before, after);
  }

  lemma {:induction false} AtMostOneOfType(entries: seq<DiffEntry>, system: SystemName, t: ServiceType)
    requires OnePerType(entries)
    requires forall e :: e in entries ==> e.mapping in DiffMappings(system)
    ensures |OfType(entries, t)| <= 1
  {
    if entries == [] {
    } else {
      var front, last := entries[..|entries| - 1], entries[|entries| - 1];
      assert entries == front + [last];
      AtMostOneOfType(front, system, t);
      MappingsCoverSnapshots(system);
      if last.mapping.serviceType == Some(t) {
        forall i | 0 <= i < |front| ensures front[i].mapping.serviceType != Some(t) {
          assert front[i] == entries[i] && entries[i] in entries && entries[|front|] == last;
        }
        NoneOfType(front, t);
      }
    }
  }

  lemma {:induction false} NoneOfType(entries: seq<DiffEntry>, t: ServiceType)
    requires forall i :: 0 <= i < |entries| ==> entries[i].mapping.serviceType != Some(t)
    ensures OfType(entries, t) == []
  {
    if entries == [] {
    } else {
      NoneOfType(entries[..|entries| - 1], t);
    }
  }

  lemma {:induction false} GroupFound(groups: seq<Group>, g: Group)
    requires DistinctGroups(groups) && g in groups
    ensures GroupOf(groups, g.serviceType) == g.entries
  {
    if groups[0] == g {
    } else {
      assert groups == [groups[0]] + groups[1..];
      GroupFound(groups[1..], g);
      var i :| 0 <= i < |groups| && groups[i] == g;
    }
  }

  /** In a poll every group holds exactly one entry, so every event it creates changes one field. */
  lemma GroupsAreSingletons(before: Snapshot, after: Snapshot, system: SystemName, g: Group)
    requires g in GroupEntries(DiffSnapshots(before, after, system))
    ensures |g.entries| == 1 && g.entries[0] in DiffSnapshots(before, after, system)
    ensures g.entries[0].mapping.serviceType == Some(g.serviceType)
  {
    var entries := DiffSnapshots(before, after, system);
    GroupingPartitions(entries, g.serviceType);
    GroupFound(GroupEntries(entries), g);
    DiffEntriesAreDistinct(before, after, system);
    AtMostOneOfType(entries, system, g.serviceType);
    var i :| 0 <= i < |GroupEntries(entries)| && GroupEntries(entries)[i] == g;
    assert g.entries[0] in OfType(entries, g.serviceType);
  }

  /** Merging one fragment is that fragment, so such an event carries exactly the new value of its field. */
  lemma MergingOneFragment(d: DiffEntry)
    ensures MergeFragments([d]) == d.fragment
  {
    assert [d][..0] == [];
    assert MergeFragments([d]) == MergeInto(MergeFragments([]), d.fragment);
  }

  lemma {:induction false} SingletonSizes(groups: seq<Group>)
    requires forall g :: g in groups ==> |g.entries| == 1
    ensures Sizes(groups) == |groups|
  {
    if groups == [] {
    } else {
      assert groups == [groups[0]] + groups[1..];
      SingletonSizes(groups[1..]);
    }
  }

  lemma {:induction false} OneActionPerGroup(record: Record, groups: seq<Group>, events: map<EventId, Event>)
    ensures var s := SummaryOf(record, groups, events);
      s.eventsCreated + s.confirmed == |groups| == |s.actions|
  {
    if groups == [] {
    } else {
      OneActionPerGroup(record, groups[..|groups| - 1], events);
    }
  }

  /** Each differing field is either turned into an event, confirmed as an echo, or counted as unsupported. */
  lemma EveryDifferenceIsCountedOnce(previous: Stored, record: Record, events: map<EventId, Event>)
    requires StoredSound(previous, record.system) && IsSnapshot(record.snapshot, record.system)
    ensures var s := Poll(Some(previous), record, events);
      s.eventsCreated + s.confirmed + s.unsupported
        == |DiffSnapshots(previous.payload, record.snapshot, record.system)|
  {
    var entries := DiffSnapshots(previous.payload, record.snapshot, record.system);
    NoChangeMeansNoDiff(previous, record, events);
    if entries != [] {
      var groups := GroupEntries(entries);
      NothingSavedYet(record, groups, events);
      OneActionPerGroup(record, groups, events);
      forall g | g in groups ensures |g.entries| == 1 {
        GroupsAreSingletons(previous.payload, record.snapshot, record.system, g);
      }
      SingletonSizes(groups);
      NothingIsLost(entries);
    }
  }

  lemma AddingNothing(x: Summary)
    ensures Add(x, EMPTY_SUMMARY) == x
  {
  }

  lemma MergeLast(a: seq<Summary>, front: seq<Summary>, last: Summary)
    ensures MergeRunSummaries(a + (front + [last])) == Add(MergeRunSummaries(a + front), last)
  {
    var all := a + (front + [last]);
    assert all[..|all| - 1] == a + front;
  }

  lemma AddIsAssociative(x: Summary, y: Summary, z: Summary)
    ensures Add(Add(x, y), z) == Add(x, Add(y, z))
  {
    assert x.actions + y.actions + z.actions == x.actions + (y.actions + z.actions);
  }

  /** Every total of the last is the sum of those of the others, and its actions are theirs in order. */
  predicate AddsUp(a: Summary, b: Summary, both: Summary) {
    && both.baselinesSaved == a.baselinesSaved + b.baselinesSaved
    && both.eventsCreated == a.eventsCreated + b.eventsCreated
    && both.noChanges == a.noChanges + b.noChanges && both.confirmed == a.confirmed + b.confirmed
    && both.snapshotsSaved == a.snapshotsSaved + b.snapshotsSaved && both.unsupported == a.unsupported + b.unsupported
    && both.actions == a.actions + b.actions
  }

  lemma {:induction false} MergingIsAdding(a: seq<Summary>, b: seq<Summary>)
    ensures MergeRunSummaries(a + b) == Add(MergeRunSummaries(a), MergeRunSummaries(b))
  {
    if b == [] {
      assert a + b == a;
      AddingNothing(MergeRunSummaries(a));
    } else {
      var front, last := b[..|b| - 1], b[|b| - 1];
      MergingIsAdding(a, front);
      MergeLast(a, front, last);
      assert b == front + [last];
      AddIsAssociative(MergeRunSummaries(a), MergeRunSummaries(front), last);
    }
  }

  lemma MergingOne(s: Summary)
    ensures MergeRunSummaries([s]) == s
  {
    assert MergeRunSummaries([s]) == Add(MergeRunSummaries([]), s);
  }

  /** Merging run summaries adds: the totals of a concatenation are the totals added, and one summary stays itself. */
  lemma MergingAddsUp(a: seq<Summary>, b: seq<Summary>)
    ensures AddsUp(MergeRunSummaries(a), MergeRunSummaries(b), MergeRunSummaries(a + b))
    ensures |b| == 1 ==> MergeRunSummaries(b) == b[0]
  {
    MergingIsAdding(a, b);
    if |b| == 1 {
      MergingOne(b[0]);
      assert b == [b[0]];
    }
  }

  /** Of several fragments the later one wins field by field; an address keeps older optional lines it does not give. */
  lemma LaterFragmentsWin(entries: seq<DiffEntry>, last: DiffEntry)
    ensures var before, f, after := MergeFragments(entries), last.fragment, MergeFragments(entries + [last]);
      && after.businessName == (if f.businessName.Some? then f.businessName else before.businessName)
      && after.signatory == (if f.signatory.Some? then f.signatory else before.signatory)
      && after.employeeCount == (if f.employeeCount.Some? then f.employeeCount else before.employeeCount)
      && after.workerLimit == (if f.workerLimit.Some? then f.workerLimit else before.workerLimit)
      && after.powerCapacityHP == (if f.powerCapacityHP.Some? then f.powerCapacityHP else before.powerCapacityHP)
      && after.licenseExpiry == (if f.licenseExpiry.Some? then f.licenseExpiry else before.licenseExpiry)
      && (f.registeredAddress.None? ==> after.registeredAddress == before.registeredAddress)
      && (f.registeredAddress.Some? && before.registeredAddress.None? ==>
        after.registeredAddress == f.registeredAddress)
      && (f.registeredAddress.Some? && before.registeredAddress.Some? ==>
        var older, newer, a := before.registeredAddress.value, f.registeredAddress.value, after.registeredAddress;
        && a.Some? && a.value.line1 == newer.line1 && a.value.city == newer.city && a.value.state == newer.state
        && a.value.postalCode == newer.postalCode
        && a.value.line2 == (if newer.line2.Some? then newer.line2 else older.line2)
        && a.value.district == (if newer.district.Some? then newer.district else older.district))
  {
    assert (entries + [last])[..|entries|] == entries;
  }
}
