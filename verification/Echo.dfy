/** Polling after K-Sync's own write: when the echo is recognised, and exactly when it is not. */
module Echo {
  import opened Domain
  import opened CanonicalJson
  import opened JsonText
  import opened Diff
  import opened Polling
  import opened PollingLaws
  import opened Adapters

  /** The record was last written for this event, and its stamps are within five seconds. */
  predicate WrittenFor(record: Record, e: Event, events: map<EventId, Event>) {
    && record.propagation.Some?
    && IsPropagationTimestampMatch(record.lastModifiedAt, record.propagation.value.appliedAt)
    && record.propagation.value == Trace(e, record.propagation.value.appliedAt.value)
    && e.id in events && events[e.id] == e
    && e.source != record.system && e.ubid == record.ubid
  }

  /** The difference is what the event announced: its service type, and its payload or its one field. */
  predicate Announced(d: DiffEntry, e: Event) {
    && d.mapping.serviceType == Some(e.serviceType)
    && (e.payloadHash == PayloadHash(MergeFragments([d])) || e.changedFields == [d.mapping.changedField])
  }

  lemma SingleFields(d: DiffEntry)
    ensures ChangedFieldsOf([d]) == [d.mapping.changedField]
  {
    assert ChangedFieldsOf([d][..0]) == [];
    assert ChangedFieldsOf([d]) == [] + [d.mapping.changedField];
  }

  lemma SingletonMultiset(f: PayloadField, fields: seq<PayloadField>)
    ensures multiset([f]) == multiset(fields) <==> fields == [f]
  {
    if multiset([f]) == multiset(fields) {
      assert |fields| == |multiset(fields)| == 1;
      assert fields[0] in multiset(fields);
    }
  }

  /** A group is confirmed exactly if its one difference was announced by the event. */
  lemma ConfirmedIffAnnounced(record: Record, e: Event, events: map<EventId, Event>, g: Group)
    requires WrittenFor(record, e, events)
    requires |g.entries| == 1 && g.entries[0].mapping.serviceType == Some(g.serviceType)
    ensures ActionFor(record, g, events).PROPAGATED_CHANGE_CONFIRMED? <==> Announced(g.entries[0], e)
    ensures ActionFor(record, g, events).EVENT_CREATED? <==> !Announced(g.entries[0], e)
  {
    var d := g.entries[0];
    assert g.entries == [d];
    SingleFields(d);
    SingletonMultiset(d.mapping.changedField, e.changedFields);
  }

  predicate NoneCreated(record: Record, groups: seq<Group>, events: map<EventId, Event>) {
    forall i :: 0 <= i < |groups| ==> !ActionFor(record, groups[i], events).EVENT_CREATED?
  }

  lemma NoneCreatedLast(record: Record, front: seq<Group>, last: Group, events: map<EventId, Event>)
    ensures NoneCreated(record, front + [last], events) <==>
      NoneCreated(record, front, events) && !ActionFor(record, last, events).EVENT_CREATED?
  {
    assert forall i :: 0 <= i < |front| ==> (front + [last])[i] == front[i];
    assert (front + [last])[|front|] == last;
  }

  lemma CountCreates(s: Summary, action: Action)
    ensures Polling.Count(s, action).eventsCreated == s.eventsCreated + if action.EVENT_CREATED? then 1 else 0
  {
  }

  lemma {:induction false} CreatedCount(record: Record, groups: seq<Group>, events: map<EventId, Event>)
    ensures SummaryOf(record, groups, events).eventsCreated == 0 <==> NoneCreated(record, groups, events)
  {
    if groups == [] {
    } else {
      var front, last := groups[..|groups| - 1], groups[|groups| - 1];
      CreatedCount(record, front, events);
      assert groups == front + [last];
      NoneCreatedLast(record, front, last, events);
      CountCreates(SummaryOf(record, front, events), ActionFor(record, last, events));
    }
  }

  lemma SupportedIsGrouped(entries: seq<DiffEntry>, d: DiffEntry) returns (g: Group)
    requires d in entries && d.mapping.serviceType.Some?
    ensures g in GroupEntries(entries) && d in g.entries
  {
    var t := d.mapping.serviceType.value;
    GroupingPartitions(entries, t);
    assert d in GroupOf(GroupEntries(entries), t);
    g := GroupWith(GroupEntries(entries), t);
  }

  lemma {:induction false} GroupWith(groups: seq<Group>, t: ServiceType) returns (g: Group)
    requires GroupOf(groups, t) != []
    ensures g in groups && g.entries == GroupOf(groups, t)
  {
    if groups[0].serviceType == t { g := groups[0]; } else { g := GroupWith(groups[1..], t); }
  }

  predicate Supported(d: DiffEntry) { d.mapping.serviceType.Some? }

  predicate AllAnnounced(entries: seq<DiffEntry>, e: Event) {
    forall d :: d in entries && Supported(d) ==> Announced(d, e)
  }

  /** In the poll of this record, a group becomes an event exactly if its one entry was not announced. */
  lemma GroupVerdict(before: Snapshot, record: Record, e: Event, events: map<EventId, Event>, g: Group)
    requires WrittenFor(record, e, events)
    requires g in GroupEntries(DiffSnapshots(before, record.snapshot, record.system))
    ensures |g.entries| == 1 && g.entries[0] in DiffSnapshots(before, record.snapshot, record.system)
    ensures Supported(g.entries[0])
    ensures ActionFor(record, g, events).EVENT_CREATED? <==> !Announced(g.entries[0], e)
  {
    GroupsAreSingletons(before, record.snapshot, record.system, g);
    ConfirmedIffAnnounced(record, e, events, g);
  }

  lemma AnnouncedAreConfirmed(before: Snapshot, record: Record, e: Event, events: map<EventId, Event>)
    requires WrittenFor(record, e, events)
    requires AllAnnounced(DiffSnapshots(before, record.snapshot, record.system), e)
    ensures NoneCreated(record, GroupEntries(DiffSnapshots(before, record.snapshot, record.system)), events)
  {
    var groups := GroupEntries(DiffSnapshots(before, record.snapshot, record.system));
    forall i | 0 <= i < |groups| ensures !ActionFor(record, groups[i], events).EVENT_CREATED? {
      GroupVerdict(before, record, e, events, groups[i]);
    }
  }

  lemma NotCreated(record: Record, groups: seq<Group>, events: map<EventId, Event>, g: Group)
    requires NoneCreated(record, groups, events) && g in groups
    ensures !ActionFor(record, g, events).EVENT_CREATED?
  {
    var i :| 0 <= i < |groups| && groups[i] == g;
  }

  predicate InSomeGroup(groups: seq<Group>, d: DiffEntry) {
    exists g :: g in groups && d in g.entries
  }

  lemma SupportedAreInGroups(entries: seq<DiffEntry>, d: DiffEntry)
    requires d in entries && Supported(d)
    ensures InSomeGroup(GroupEntries(entries), d)
  {
    var g := SupportedIsGrouped(entries, d);
  }

  predicate Decided(record: Record, e: Event, events: map<EventId, Event>, g: Group) {
    |g.entries| == 1 && (ActionFor(record, g, events).EVENT_CREATED? <==> !Announced(g.entries[0], e))
  }

  lemma DecidedGroupsAnnounce(record: Record, e: Event, events: map<EventId, Event>, groups: seq<Group>, d: DiffEntry)
    requires forall g :: g in groups ==> Decided(record, e, events, g)
    requires NoneCreated(record, groups, events) && InSomeGroup(groups, d)
    ensures Announced(d, e)
  {
    var g :| g in groups && d in g.entries;
    assert Decided(record, e, events, g);
    NotCreated(record, groups, events, g);
  }

  lemma ConfirmedAreAnnounced(before: Snapshot, record: Record, e: Event, events: map<EventId, Event>)
    requires WrittenFor(record, e, events)
    requires NoneCreated(record, GroupEntries(DiffSnapshots(before, record.snapshot, record.system)), events)
    ensures AllAnnounced(DiffSnapshots(before, record.snapshot, record.system), e)
  {
    var entries := DiffSnapshots(before, record.snapshot, record.system);
    var groups := GroupEntries(entries);
    forall g | g in groups ensures Decided(record, e, events, g) {
      GroupVerdict(before, record, e, events, g);
    }
    forall d | d in entries && Supported(d) ensures Announced(d, e) {
      SupportedAreInGroups(entries, d);
      DecidedGroupsAnnounce(record, e, events, groups, d);
    }
  }

  /**
   * The poll after a write creates no event exactly if every supported difference it finds was
   * announced by the written event.
   */
  lemma NoEventIffAllAnnounced(previous: Stored, record: Record, e: Event, events: map<EventId, Event>)
    requires StoredSound(previous, record.system) && IsSnapshot(record.snapshot, record.system)
    requires WrittenFor(record, e, events)
    ensures Poll(Some(previous), record, events).eventsCreated == 0 <==>
      AllAnnounced(DiffSnapshots(previous.payload, record.snapshot, record.system), e)
  {
    var groups := GroupEntries(DiffSnapshots(previous.payload, record.snapshot, record.system));
    NoChangeMeansNoDiff(previous, record, events);
    CreatedCount(record, groups, events);
    if NoneCreated(record, groups, events) {
      ConfirmedAreAnnounced(previous.payload, record, e, events);
    } else if AllAnnounced(DiffSnapshots(previous.payload, record.snapshot, record.system), e) {
      AnnouncedAreConfirmed(previous.payload, record, e, events);
    }
  }

  // ---- Writes for one field ----

  /** The fields an SWS change to one field announces, with the service type it must carry. */
  predicate OneFieldChange(e: Event) {
    || (e.changedFields == [RegisteredAddress] && e.serviceType == REGISTERED_ADDRESS_CHANGE)
    || (e.changedFields == [AuthorizedSignatory] && e.serviceType == AUTHORIZED_SIGNATORY_CHANGE)
  }

  lemma PutKeepsSnapshot(s: Snapshot, f: SourceField, value: Option<Json>, system: SystemName)
    requires IsSnapshot(s, system) && f in SnapshotFields(system)
    requires value.Some? ==> value.value.Str? || (value.value.Num? && IsNumber(value.value.text))
    ensures IsSnapshot(Put(s, f, value), system)
  {
  }

  lemma FactorySnapshotIsSound(row: FactoryRow)
    ensures IsSnapshot(FactorySnapshot(row), ESURAKSHATE)
  {
    var fields := SnapshotFields(ESURAKSHATE);
    assert fields[0] in fields && fields[1] in fields && fields[2] in fields && fields[3] in fields
      && fields[4] in fields;
    var expiry := Or(TextField(Field(row.raw, "licenseExpiry")), TextField(Field(row.raw, "LicenseExpiry")));
    var s0 := Put(map[], FACTORY_ADDRESS, TextJson(row.factoryAddress));
    PutKeepsSnapshot(map[], FACTORY_ADDRESS, TextJson(row.factoryAddress), ESURAKSHATE);
    var s1 := Put(s0, LICENSE_EXPIRY, expiry);
    PutKeepsSnapshot(s0, LICENSE_EXPIRY, expiry, ESURAKSHATE);
    var s2 := Put(s1, MANAGER_NAME, TextJson(row.managerName));
    PutKeepsSnapshot(s1, MANAGER_NAME, TextJson(row.managerName), ESURAKSHATE);
    var s3 := Put(s2, POWER_CAPACITY_HP, NumeralJson(row.powerCapacityHP));
    PutKeepsSnapshot(s2, POWER_CAPACITY_HP, NumeralJson(row.powerCapacityHP), ESURAKSHATE);
    PutKeepsSnapshot(s3, WORKER_LIMIT, NumeralJson(row.workerLimit), ESURAKSHATE);
  }

  lemma LabourSnapshotIsSound(row: LabourRow)
    ensures IsSnapshot(LabourSnapshot(row), EKARMIKA)
  {
    var fields := SnapshotFields(EKARMIKA);
    assert fields[0] in fields && fields[1] in fields && fields[2] in fields;
  }

  /** Two raw payloads agree on the license expiry. */
  predicate SameExpiry(a: map<string, Json>, b: map<string, Json>) {
    && ("licenseExpiry" in a <==> "licenseExpiry" in b)
    && ("licenseExpiry" in a && "licenseExpiry" in b ==> a["licenseExpiry"] == b["licenseExpiry"])
    && ("LicenseExpiry" in a <==> "LicenseExpiry" in b)
    && ("LicenseExpiry" in a && "LicenseExpiry" in b ==> a["LicenseExpiry"] == b["LicenseExpiry"])
  }

  lemma KeysDiffer(key: string)
    requires key == "licenseExpiry" || key == "LicenseExpiry"
    ensures key !in {"BusinessName", "businessName", "FactoryAddress", "factoryAddress", "ManagerName", "managerName"}
    ensures key !in {"EmployeeCount", "employeeCount", "WorkerLimit", "workerLimit"}
    ensures key !in {"PowerCapacityHP", "powerCapacityHP"}
    ensures key !in {"FactoryLicenseNo", "factoryLicenseNo", "Ubid", "ubid", "LastModified", "lastModified"}
  {
    assert |key| == 13 && key[7] == 'E';
    assert |"EmployeeCount"| == 13 && "EmployeeCount"[7] == 'e' && "employeeCount"[7] == 'e';
  }

  lemma BothKeepsExpiry(fields: map<string, Json>, changes: bool, a: string, b: string, value: Option<Json>)
    requires a !in {"licenseExpiry", "LicenseExpiry"} && b !in {"licenseExpiry", "LicenseExpiry"}
    ensures SameExpiry(WithBoth(fields, changes, a, b, value), fields)
  {
  }

  lemma OtherNumeralsKept(fields: map<string, Json>, e: Event, n: FactoryFields)
    ensures SameExpiry(WithNumerals(fields, e, n), fields)
  {
    KeysDiffer("licenseExpiry");
    KeysDiffer("LicenseExpiry");
    var f0 := WithBoth(fields, EmployeeCount in e.changedFields, "EmployeeCount", "employeeCount",
                       NumeralJson(n.employeeCount));
    BothKeepsExpiry(fields, EmployeeCount in e.changedFields, "EmployeeCount", "employeeCount",
                    NumeralJson(n.employeeCount));
    var f1 := WithBoth(f0, WorkerLimit in e.changedFields, "WorkerLimit", "workerLimit", NumeralJson(n.workerLimit));
    BothKeepsExpiry(f0, WorkerLimit in e.changedFields, "WorkerLimit", "workerLimit", NumeralJson(n.workerLimit));
    BothKeepsExpiry(f1, PowerCapacityHP in e.changedFields, "PowerCapacityHP", "powerCapacityHP",
                    NumeralJson(n.powerCapacityHP));
  }

  lemma StampKeeps(fields: map<string, Json>, row: FactoryRow, now: string)
    ensures SameExpiry(Stamped(fields, row, now), fields)
  {
    KeysDiffer("licenseExpiry");
    KeysDiffer("LicenseExpiry");
  }

  lemma BothWritesExpiry(fields: map<string, Json>, changes: bool, value: Option<Json>)
    ensures var after := WithBoth(fields, changes, "LicenseExpiry", "licenseExpiry", value);
      if changes && value.Some? then "licenseExpiry" in after && after["licenseExpiry"] == value.value
      else SameExpiry(after, fields)
  {
  }

  lemma TextsWriteExpiry(fields: map<string, Json>, e: Event, n: FactoryFields)
    ensures var after := WithTexts(fields, e, n);
      if LicenseExpiry in e.changedFields && n.licenseExpiry.Some?
      then "licenseExpiry" in after && after["licenseExpiry"] == Str(n.licenseExpiry.value)
      else SameExpiry(after, fields)
  {
    KeysDiffer("licenseExpiry");
    KeysDiffer("LicenseExpiry");
    var f0 := WithBoth(fields, BusinessName in e.changedFields, "BusinessName", "businessName",
                       TextJson(n.businessName));
    BothKeepsExpiry(fields, BusinessName in e.changedFields, "BusinessName", "businessName", TextJson(n.businessName));
    var f1 := WithBoth(f0, RegisteredAddress in e.changedFields, "FactoryAddress", "factoryAddress",
                       TextJson(n.factoryAddress));
    BothKeepsExpiry(f0, RegisteredAddress in e.changedFields, "FactoryAddress", "factoryAddress",
                    TextJson(n.factoryAddress));
    var f2 := WithBoth(f1, AuthorizedSignatory in e.changedFields, "ManagerName", "managerName",
                       TextJson(n.managerName));
    BothKeepsExpiry(f1, AuthorizedSignatory in e.changedFields, "ManagerName", "managerName", TextJson(n.managerName));
    BothWritesExpiry(f2, LicenseExpiry in e.changedFields, TextJson(n.licenseExpiry));
  }

  /** The raw payload after a write: the license expiry is the translated one, or as before. */
  lemma ExpiryWritten(row: FactoryRow, e: Event, n: FactoryFields, now: string)
    ensures var after := FactoryRawFields(row, e, n, now);
      if LicenseExpiry in e.changedFields && n.licenseExpiry.Some?
      then "licenseExpiry" in after && after["licenseExpiry"] == Str(n.licenseExpiry.value)
      else SameExpiry(after, row.raw.fields)
  {
    var f0, f1 := WithTexts(row.raw.fields, e, n), WithNumerals(WithTexts(row.raw.fields, e, n), e, n);
    TextsWriteExpiry(row.raw.fields, e, n);
    OtherNumeralsKept(f0, e, n);
    StampKeeps(f1, row, now);
  }

  /** What the snapshot of a factory row shows of one field. */
  lemma FactoryField(row: FactoryRow, f: SourceField)
    ensures Get(FactorySnapshot(row), f) == match f
      case FACTORY_ADDRESS => TextJson(row.factoryAddress)
      case MANAGER_NAME => TextJson(row.managerName)
      case POWER_CAPACITY_HP => NumeralJson(row.powerCapacityHP)
      case WORKER_LIMIT => NumeralJson(row.workerLimit)
      case LICENSE_EXPIRY =>
        Or(TextField(Field(row.raw, "licenseExpiry")), TextField(Field(row.raw, "LicenseExpiry")))
      case _ => None
  {
  }

  /** What the next snapshot should show of a field after a write. */
  function Expected(row: FactoryRow, n: FactoryFields, e: Event, f: SourceField): Option<Json> {
    match f
    case FACTORY_ADDRESS => Or(Announcing(e, RegisteredAddress, TextJson(n.factoryAddress)),
                               Get(FactorySnapshot(row), f))
    case MANAGER_NAME => Or(Announcing(e, AuthorizedSignatory, TextJson(n.managerName)), Get(FactorySnapshot(row), f))
    case POWER_CAPACITY_HP => Or(Announcing(e, PowerCapacityHP, NumeralJson(n.powerCapacityHP)),
                                 Get(FactorySnapshot(row), f))
    case WORKER_LIMIT => Or(Announcing(e, WorkerLimit, NumeralJson(n.workerLimit)), Get(FactorySnapshot(row), f))
    case LICENSE_EXPIRY => Or(Announcing(e, LicenseExpiry, TextJson(n.licenseExpiry)), Get(FactorySnapshot(row), f))
    case _ => None
  }

  function Announcing(e: Event, field: PayloadField, value: Option<Json>): Option<Json> {
    if field in e.changedFields then value else None
  }

  /** A write shows in the next snapshot exactly in the fields that the event changes and the translation gives. */
  lemma FactoryWriteShows(
    row: FactoryRow, payload: FactoryPayload, e: Event, modifiedAt: int, appliedAt: int, now: string, f: SourceField)
    ensures Get(FactorySnapshot(FactoryWritten(row, payload, e, modifiedAt, appliedAt, now)), f)
      == Expected(row, Next(payload), e, f)
  {
    var after := FactoryWritten(row, payload, e, modifiedAt, appliedAt, now);
    FactoryField(row, f);
    FactoryField(after, f);
    if f == LICENSE_EXPIRY { ExpiryWritten(row, e, Next(payload), now); }
  }

  /** The single difference, if any, is the announced one. */
  lemma OneFieldIsAnnounced(before: Snapshot, after: Snapshot, system: SystemName, e: Event, changed: SourceField)
    requires OneFieldChange(e)
    requires changed == (
      if e.changedFields == [RegisteredAddress] then if system == EKARMIKA then ADDRESS_FULL else FACTORY_ADDRESS
      else if system == EKARMIKA then EMPLOYER_NAME else MANAGER_NAME)
    requires forall f :: f != changed ==> AreValuesEqual(Get(before, f), Get(after, f))
    ensures AllAnnounced(DiffSnapshots(before, after, system), e)
  {
    var entries := DiffSnapshots(before, after, system);
    forall d | d in entries ensures Announced(d, e) {
      var m :| m in DiffMappings(system) && Changed(m, before, after) && d == EntryFor(m, before, after);
      assert m.source == changed;
    }
  }

  lemma ExpectedUnchanged(row: FactoryRow, n: FactoryFields, e: Event, f: SourceField)
    requires OneFieldChange(e)
    requires f != (if e.changedFields == [RegisteredAddress] then FACTORY_ADDRESS else MANAGER_NAME)
    ensures Expected(row, n, e, f) == Get(FactorySnapshot(row), f)
  {
    FactoryField(row, f);
  }

  lemma FactoryOthersKept(
    row: FactoryRow, payload: FactoryPayload, e: Event, modifiedAt: int, appliedAt: int, now: string, f: SourceField)
    requires OneFieldChange(e)
    requires f != (if e.changedFields == [RegisteredAddress] then FACTORY_ADDRESS else MANAGER_NAME)
    ensures Get(FactorySnapshot(FactoryWritten(row, payload, e, modifiedAt, appliedAt, now)), f)
      == Get(FactorySnapshot(row), f)
  {
    FactoryWriteShows(row, payload, e, modifiedAt, appliedAt, now, f);
    ExpectedUnchanged(row, Next(payload), e, f);
  }

  lemma FactoryDiffIsAnnounced(
    row: FactoryRow, payload: FactoryPayload, e: Event, modifiedAt: int, appliedAt: int, now: string, before: Snapshot)
    requires OneFieldChange(e) && SameFields(before, FactorySnapshot(row))
    ensures AllAnnounced(DiffSnapshots(before,
      FactorySnapshot(FactoryWritten(row, payload, e, modifiedAt, appliedAt, now)), ESURAKSHATE), e)
  {
    var after := FactorySnapshot(FactoryWritten(row, payload, e, modifiedAt, appliedAt, now));
    var changed := if e.changedFields == [RegisteredAddress] then FACTORY_ADDRESS else MANAGER_NAME;
    forall f | f != changed ensures AreValuesEqual(Get(before, f), Get(after, f)) {
      FactoryOthersKept(row, payload, e, modifiedAt, appliedAt, now, f);
      assert AreValuesEqual(Get(before, f), Get(FactorySnapshot(row), f));
    }
    OneFieldIsAnnounced(before, after, ESURAKSHATE, e, changed);
  }

  /**
   * Echo suppression on e-Surakshate: if the only change since the last snapshot is one write for an SWS
   * event changing exactly the registered address or exactly the signatory, with the matching service
   * type and stamps within five seconds, then the next poll creates no event.
   */
  lemma FactoryEchoIsSuppressed(
    row: FactoryRow, payload: FactoryPayload, e: Event, modifiedAt: int, appliedAt: int, now: string,
    previous: Stored, events: map<EventId, Event>)
    requires OneFieldChange(e) && e.source == SWS && e.ubid == row.ubid && row.licenseNo != ""
    requires e.id in events && events[e.id] == e
    requires Abs(modifiedAt - appliedAt) <= 5000
    requires StoredSound(previous, ESURAKSHATE) && SameFields(previous.payload, FactorySnapshot(row))
    ensures var record := NormalizeFactory(FactoryWritten(row, payload, e, modifiedAt, appliedAt, now));
      record.Some? && Poll(Some(previous), record.value, events).eventsCreated == 0
  {
    FactoryDiffIsAnnounced(row, payload, e, modifiedAt, appliedAt, now, previous.payload);
    FactoryCarriesTrace(row, payload, e, modifiedAt, appliedAt, now);
    AnnouncedWriteIsSuppressed(
      FactoryWritten(row, payload, e, modifiedAt, appliedAt, now), e, modifiedAt, appliedAt, previous, events);
  }

  predicate CarriesTrace(after: FactoryRow, e: Event, modifiedAt: int, appliedAt: int) {
    after.raw.lastPropagation == Some(Trace(e, appliedAt)) && after.lastModifiedAt == modifiedAt
  }

  lemma FactoryCarriesTrace(
    row: FactoryRow, payload: FactoryPayload, e: Event, modifiedAt: int, appliedAt: int, now: string)
    ensures var after := FactoryWritten(row, payload, e, modifiedAt, appliedAt, now);
      CarriesTrace(after, e, modifiedAt, appliedAt) && after.ubid == row.ubid && after.licenseNo == row.licenseNo
  {
  }

  /** For any row that carries the trace of the event, whatever the write did to its columns. */
  lemma AnnouncedWriteIsSuppressed(
    after: FactoryRow, e: Event, modifiedAt: int, appliedAt: int, previous: Stored, events: map<EventId, Event>)
    requires e.source == SWS && e.ubid == after.ubid && after.licenseNo != ""
    requires e.id in events && events[e.id] == e
    requires CarriesTrace(after, e, modifiedAt, appliedAt) && Abs(modifiedAt - appliedAt) <= 5000
    requires StoredSound(previous, ESURAKSHATE)
    requires AllAnnounced(DiffSnapshots(previous.payload, FactorySnapshot(after), ESURAKSHATE), e)
    ensures NormalizeFactory(after).Some?
    ensures Poll(Some(previous), NormalizeFactory(after).value, events).eventsCreated == 0
  {
    var record := NormalizeFactory(after).value;
    FactorySnapshotIsSound(after);
    assert WrittenFor(record, e, events);
    NoEventIffAllAnnounced(previous, record, e, events);
  }

  /** The raw employerName after a write: the business name, if it was written, or as before. */
  lemma EmployerWritten(row: LabourRow, p: LabourPayload, e: Event)
    ensures Field(Raw(LabourRawFields(row, e, p), None), "employerName") ==
      Or(Announcing(e, BusinessName, TextJson(Or(p.employerName, p.businessName))), Field(row.raw, "employerName"))
  {
    EmployerKeysDiffer();
  }

  lemma EmployerKeysDiffer()
    ensures "employerName" !in {"addressFull", "managerName", "employeeCount", "workerLimit", "powerCapacityHP"}
  {
    assert |"employerName"| == 12 && |"addressFull"| == 11 && |"managerName"| == 11;
    assert |"employeeCount"| == 13 && |"workerLimit"| == 11 && |"powerCapacityHP"| == 15;
  }

  /** A manager written by an event is invisible to polling while the raw payload holds an employerName. */
  function ExpectedEmployer(row: LabourRow, p: LabourPayload, e: Event): Option<Json> {
    var name := Announcing(e, BusinessName, TextJson(Or(p.employerName, p.businessName)));
    if name.Some? then name
    else Or(TextField(Field(row.raw, "employerName")),
            Or(Announcing(e, AuthorizedSignatory, TextJson(p.managerName)), TextJson(row.managerName)))
  }

  lemma LabourWriteShows(row: LabourRow, p: LabourPayload, e: Event, modifiedAt: int, appliedAt: int, f: SourceField)
    ensures Get(LabourSnapshot(LabourWritten(row, p, e, modifiedAt, appliedAt)), f) == match f
      case ADDRESS_FULL => Or(Announcing(e, RegisteredAddress, TextJson(p.addressFull)), Get(LabourSnapshot(row), f))
      case EMPLOYEE_COUNT => Or(Announcing(e, EmployeeCount, NumeralJson(p.employeeCount)), Get(LabourSnapshot(row), f))
      case EMPLOYER_NAME => ExpectedEmployer(row, p, e)
      case _ => None
  {
    if f == EMPLOYER_NAME { EmployerWritten(row, p, e); }
  }

  lemma LabourOthersKept(row: LabourRow, p: LabourPayload, e: Event, modifiedAt: int, appliedAt: int, f: SourceField)
    requires OneFieldChange(e)
    requires f != (if e.changedFields == [RegisteredAddress] then ADDRESS_FULL else EMPLOYER_NAME)
    ensures Get(LabourSnapshot(LabourWritten(row, p, e, modifiedAt, appliedAt)), f) == Get(LabourSnapshot(row), f)
  {
    LabourWriteShows(row, p, e, modifiedAt, appliedAt, f);
  }

  lemma LabourDiffIsAnnounced(
    row: LabourRow, p: LabourPayload, e: Event, modifiedAt: int, appliedAt: int, before: Snapshot)
    requires OneFieldChange(e) && SameFields(before, LabourSnapshot(row))
    ensures AllAnnounced(DiffSnapshots(before,
      LabourSnapshot(LabourWritten(row, p, e, modifiedAt, appliedAt)), EKARMIKA), e)
  {
    var after := LabourSnapshot(LabourWritten(row, p, e, modifiedAt, appliedAt));
    var changed := if e.changedFields == [RegisteredAddress] then ADDRESS_FULL else EMPLOYER_NAME;
    forall f | f != changed ensures AreValuesEqual(Get(before, f), Get(after, f)) {
      LabourOthersKept(row, p, e, modifiedAt, appliedAt, f);
      assert AreValuesEqual(Get(before, f), Get(LabourSnapshot(row), f));
    }
    OneFieldIsAnnounced(before, after, EKARMIKA, e, changed);
  }

  lemma AnnouncedLabourWriteIsSuppressed(
    after: LabourRow, e: Event, appliedAt: int, previous: Stored, events: map<EventId, Event>)
    requires e.source == SWS && e.ubid == after.ubid && after.labourRegNo != ""
    requires e.id in events && events[e.id] == e
    requires after.raw.lastPropagation == Some(Trace(e, appliedAt))
    requires Abs(after.lastModifiedAt - appliedAt) <= 5000
    requires StoredSound(previous, EKARMIKA)
    requires AllAnnounced(DiffSnapshots(previous.payload, LabourSnapshot(after), EKARMIKA), e)
    ensures NormalizeLabour(after).Some?
    ensures Poll(Some(previous), NormalizeLabour(after).value, events).eventsCreated == 0
  {
    var record := NormalizeLabour(after).value;
    LabourSnapshotIsSound(after);
    assert WrittenFor(record, e, events);
    NoEventIffAllAnnounced(previous, record, e, events);
  }

  /** Echo suppression on e-Karmika. */
  lemma LabourEchoIsSuppressed(
    row: LabourRow, p: LabourPayload, e: Event, modifiedAt: int, appliedAt: int,
    previous: Stored, events: map<EventId, Event>)
    requires OneFieldChange(e) && e.source == SWS && e.ubid == row.ubid && row.labourRegNo != ""
    requires e.id in events && events[e.id] == e
    requires Abs(modifiedAt - appliedAt) <= 5000
    requires StoredSound(previous, EKARMIKA) && SameFields(previous.payload, LabourSnapshot(row))
    ensures var record := NormalizeLabour(LabourWritten(row, p, e, modifiedAt, appliedAt));
      record.Some? && Poll(Some(previous), record.value, events).eventsCreated == 0
  {
    LabourDiffIsAnnounced(row, p, e, modifiedAt, appliedAt, previous.payload);
    AnnouncedLabourWriteIsSuppressed(LabourWritten(row, p, e, modifiedAt, appliedAt), e, appliedAt, previous, events);
  }

  // ---- Writes for two fields ----

  predicate TwoFieldChange(e: Event) {
    || e.changedFields == [RegisteredAddress, AuthorizedSignatory]
    || e.changedFields == [AuthorizedSignatory, RegisteredAddress]
  }

  function AddressField(system: SystemName): SourceField {
    if system == EKARMIKA then ADDRESS_FULL else FACTORY_ADDRESS
  }

  function ManagerField(system: SystemName): SourceField { if system == EKARMIKA then EMPLOYER_NAME else MANAGER_NAME }

  /** The snapshots differ in the address and the manager at most. */
  ghost predicate SameButTwo(before: Snapshot, after: Snapshot, system: SystemName) {
    forall f | f !in {AddressField(system), ManagerField(system)} :: AreValuesEqual(Get(before, f), Get(after, f))
  }

  function AddressMapping(system: SystemName): (m: DiffMapping)
    ensures m in DiffMappings(system)
  {
    assert DiffMappings(system)[0] in DiffMappings(system);
    DiffMapping(RegisteredAddressPath, RegisteredAddress, Some(REGISTERED_ADDRESS_CHANGE), AddressField(system))
  }

  function ManagerMapping(system: SystemName): (m: DiffMapping)
    ensures m in DiffMappings(system)
  {
    assert DiffMappings(system)[1] in DiffMappings(system);
    DiffMapping(SignatoryNamePath, AuthorizedSignatory, Some(AUTHORIZED_SIGNATORY_CHANGE), ManagerField(system))
  }

  lemma ServiceTypesDiffer(system: SystemName, m: DiffMapping, n: DiffMapping)
    requires m in DiffMappings(system) && n in DiffMappings(system) && m != n && m.serviceType.Some?
    ensures m.serviceType != n.serviceType
  {
  }

  lemma FoundDifference(before: Snapshot, after: Snapshot, system: SystemName, m: DiffMapping, e: Event)
    requires m in DiffMappings(system) && Changed(m, before, after) && m.serviceType.Some?
    requires AllAnnounced(DiffSnapshots(before, after, system), e)
    ensures m.serviceType == Some(e.serviceType)
  {
    assert EntryFor(m, before, after) in DiffSnapshots(before, after, system);
    assert Supported(EntryFor(m, before, after));
  }

  /** Two supported differences have two service types, and no event announces both. */
  lemma TwoDifferencesComeBack(
    previous: Stored, record: Record, e: Event, events: map<EventId, Event>, m: DiffMapping, n: DiffMapping)
    requires WrittenFor(record, e, events)
    requires StoredSound(previous, record.system) && IsSnapshot(record.snapshot, record.system)
    requires m in DiffMappings(record.system) && n in DiffMappings(record.system) && m != n
    requires m.serviceType.Some? && n.serviceType.Some?
    requires Changed(m, previous.payload, record.snapshot) && Changed(n, previous.payload, record.snapshot)
    ensures Poll(Some(previous), record, events).eventsCreated > 0
  {
    NoEventIffAllAnnounced(previous, record, e, events);
    if AllAnnounced(DiffSnapshots(previous.payload, record.snapshot, record.system), e) {
      FoundDifference(previous.payload, record.snapshot, record.system, m, e);
      FoundDifference(previous.payload, record.snapshot, record.system, n, e);
      ServiceTypesDiffer(record.system, m, n);
    }
  }

  /** On either system a write that shows both in the address and in the manager comes back as an event. */
  lemma TwoFieldWriteComesBack(previous: Stored, record: Record, e: Event, events: map<EventId, Event>)
    requires WrittenFor(record, e, events)
    requires StoredSound(previous, record.system) && IsSnapshot(record.snapshot, record.system)
    requires Changed(AddressMapping(record.system), previous.payload, record.snapshot)
    requires Changed(ManagerMapping(record.system), previous.payload, record.snapshot)
    ensures Poll(Some(previous), record, events).eventsCreated > 0
  {
    TwoDifferencesComeBack(previous, record, e, events, AddressMapping(record.system), ManagerMapping(record.system));
  }

  /** The event carries this one value as its whole payload, under the value's service type. */
  predicate Carries(e: Event, m: DiffMapping, value: Option<Json>) {
    m.serviceType == Some(e.serviceType) && e.payloadHash == PayloadHash(BuildFragment(m.changedField, value))
  }

  /** The difference, if there is one, is announced by a two-field event. */
  predicate Explained(e: Event, m: DiffMapping, before: Snapshot, after: Snapshot) {
    Changed(m, before, after) ==> Carries(e, m, Get(after, m.source))
  }

  lemma AnnouncedIffCarried(e: Event, m: DiffMapping, before: Snapshot, after: Snapshot)
    requires TwoFieldChange(e)
    ensures Announced(EntryFor(m, before, after), e) <==> Carries(e, m, Get(after, m.source))
  {
    MergingOneFragment(EntryFor(m, before, after));
  }

  lemma OnlyTwoEntries(before: Snapshot, after: Snapshot, system: SystemName, d: DiffEntry)
    requires SameButTwo(before, after, system)
    requires d in DiffSnapshots(before, after, system)
    ensures var m, n := AddressMapping(system), ManagerMapping(system);
      || (Changed(m, before, after) && d == EntryFor(m, before, after))
      || (Changed(n, before, after) && d == EntryFor(n, before, after))
  {
    var x :| x in DiffMappings(system) && Changed(x, before, after) && d == EntryFor(x, before, after);
  }

  lemma AllAnnouncedIffExplained(before: Snapshot, after: Snapshot, system: SystemName, e: Event)
    requires TwoFieldChange(e)
    requires SameButTwo(before, after, system)
    ensures AllAnnounced(DiffSnapshots(before, after, system), e) <==>
      Explained(e, AddressMapping(system), before, after) && Explained(e, ManagerMapping(system), before, after)
  {
    var entries, m, n := DiffSnapshots(before, after, system), AddressMapping(system), ManagerMapping(system);
    AnnouncedIffCarried(e, m, before, after);
    AnnouncedIffCarried(e, n, before, after);
    assert Changed(m, before, after) ==> EntryFor(m, before, after) in entries;
    assert Changed(n, before, after) ==> EntryFor(n, before, after) in entries;
    forall d | d in entries
      ensures || (Changed(m, before, after) && d == EntryFor(m, before, after))
              || (Changed(n, before, after) && d == EntryFor(n, before, after))
    {
      OnlyTwoEntries(before, after, system, d);
    }
  }

  /**
   * Exactly when the echo of a two-field event is recognised: each of the two differences that shows must be
   * the event's whole payload, under its own service type.
   */
  lemma TwoFieldEcho(previous: Stored, record: Record, e: Event, events: map<EventId, Event>)
    requires WrittenFor(record, e, events) && TwoFieldChange(e)
    requires StoredSound(previous, record.system) && IsSnapshot(record.snapshot, record.system)
    requires SameButTwo(previous.payload, record.snapshot, record.system)
    ensures Poll(Some(previous), record, events).eventsCreated == 0 <==>
      && Explained(e, AddressMapping(record.system), previous.payload, record.snapshot)
      && Explained(e, ManagerMapping(record.system), previous.payload, record.snapshot)
  {
    AllAnnouncedIffExplained(previous.payload, record.snapshot, record.system, e);
    NoEventIffAllAnnounced(previous, record, e, events);
  }

  /** A value is written, and it is not the one that polling last showed. */
  predicate News(shown: Option<Json>, written: Option<Json>) { written.Some? && !AreValuesEqual(shown, written) }

  /** Writing this value over what polling last showed gives no difference, or one that the event carries. */
  predicate Harmless(e: Event, m: DiffMapping, shown: Option<Json>, written: Option<Json>) {
    News(shown, written) ==> Carries(e, m, written)
  }

  lemma HarmlessIffExplained(
    e: Event, m: DiffMapping, before: Snapshot, after: Snapshot, shown: Option<Json>, written: Option<Json>)
    requires AreValuesEqual(Get(before, m.source), shown) && Get(after, m.source) == Or(written, shown)
    ensures Explained(e, m, before, after) <==> Harmless(e, m, shown, written)
  {
  }

  /** What a write of address and manager makes of one snapshot field. */
  function AfterTwo(shown: Snapshot, system: SystemName, address: Option<Json>, manager: Option<Json>, f: SourceField)
    : Option<Json>
  {
    if f == AddressField(system) then Or(address, Get(shown, f))
    else if f == ManagerField(system) then Or(manager, Get(shown, f))
    else Get(shown, f)
  }

  /** The snapshot after a write that can show in the address and in the manager only. */
  ghost predicate ShowsTwo(
    shown: Snapshot, after: Snapshot, system: SystemName, address: Option<Json>, manager: Option<Json>)
  {
    forall f :: Get(after, f) == AfterTwo(shown, system, address, manager, f)
  }

  ghost predicate BothHarmless(
    e: Event, shown: Snapshot, system: SystemName, address: Option<Json>, manager: Option<Json>)
  {
    && Harmless(e, AddressMapping(system), Get(shown, AddressField(system)), address)
    && Harmless(e, ManagerMapping(system), Get(shown, ManagerField(system)), manager)
  }

  lemma TwoFieldWriteEcho(
    previous: Stored, record: Record, e: Event, events: map<EventId, Event>,
    shown: Snapshot, address: Option<Json>, manager: Option<Json>)
    requires WrittenFor(record, e, events) && TwoFieldChange(e)
    requires StoredSound(previous, record.system) && IsSnapshot(record.snapshot, record.system)
    requires SameFields(previous.payload, shown)
    requires ShowsTwo(shown, record.snapshot, record.system, address, manager)
    ensures Poll(Some(previous), record, events).eventsCreated == 0
      <==> BothHarmless(e, shown, record.system, address, manager)
  {
    var before, after, system := previous.payload, record.snapshot, record.system;
    assert forall f :: AreValuesEqual(Get(before, f), Get(shown, f));
    assert Get(after, AddressField(system)) == Or(address, Get(shown, AddressField(system)));
    assert Get(after, ManagerField(system)) == Or(manager, Get(shown, ManagerField(system)));
    HarmlessIffExplained(e, AddressMapping(system), before, after, Get(shown, AddressField(system)), address);
    HarmlessIffExplained(e, ManagerMapping(system), before, after, Get(shown, ManagerField(system)), manager);
    forall f | f !in {AddressField(system), ManagerField(system)}
      ensures AreValuesEqual(Get(before, f), Get(after, f))
    {
      assert Get(after, f) == AfterTwo(shown, system, address, manager, f);
    }
    TwoFieldEcho(previous, record, e, events);
  }

  lemma ExpectedOfTwo(row: FactoryRow, n: FactoryFields, e: Event, f: SourceField)
    requires TwoFieldChange(e)
    ensures Expected(row, n, e, f)
      == AfterTwo(FactorySnapshot(row), ESURAKSHATE, TextJson(n.factoryAddress), TextJson(n.managerName), f)
  {
    FactoryField(row, f);
  }

  lemma FactoryShowsTwo(
    row: FactoryRow, payload: FactoryPayload, e: Event, modifiedAt: int, appliedAt: int, now: string)
    requires TwoFieldChange(e)
    ensures ShowsTwo(FactorySnapshot(row), FactorySnapshot(FactoryWritten(row, payload, e, modifiedAt, appliedAt, now)),
                     ESURAKSHATE, TextJson(Next(payload).factoryAddress), TextJson(Next(payload).managerName))
  {
    var after := FactorySnapshot(FactoryWritten(row, payload, e, modifiedAt, appliedAt, now));
    var address, manager := TextJson(Next(payload).factoryAddress), TextJson(Next(payload).managerName);
    forall f ensures Get(after, f) == AfterTwo(FactorySnapshot(row), ESURAKSHATE, address, manager, f) {
      FactoryWriteShows(row, payload, e, modifiedAt, appliedAt, now, f);
      ExpectedOfTwo(row, Next(payload), e, f);
    }
  }

  /** The exact condition for one write on e-Surakshate: it never holds if both values are new. */
  lemma FactoryTwoFieldEcho(
    row: FactoryRow, payload: FactoryPayload, e: Event, modifiedAt: int, appliedAt: int, now: string,
    previous: Stored, events: map<EventId, Event>)
    requires TwoFieldChange(e) && e.source == SWS && e.ubid == row.ubid && row.licenseNo != ""
    requires e.id in events && events[e.id] == e
    requires Abs(modifiedAt - appliedAt) <= 5000
    requires StoredSound(previous, ESURAKSHATE) && SameFields(previous.payload, FactorySnapshot(row))
    ensures var record := NormalizeFactory(FactoryWritten(row, payload, e, modifiedAt, appliedAt, now));
      && record.Some?
      && (Poll(Some(previous), record.value, events).eventsCreated == 0 <==>
          BothHarmless(e, FactorySnapshot(row), ESURAKSHATE,
                       TextJson(Next(payload).factoryAddress), TextJson(Next(payload).managerName)))
      && (News(Get(FactorySnapshot(row), FACTORY_ADDRESS), TextJson(Next(payload).factoryAddress))
          && News(Get(FactorySnapshot(row), MANAGER_NAME), TextJson(Next(payload).managerName)) ==>
          Poll(Some(previous), record.value, events).eventsCreated > 0)
  {
    FactoryCarriesTrace(row, payload, e, modifiedAt, appliedAt, now);
    FactoryShowsTwo(row, payload, e, modifiedAt, appliedAt, now);
    FactoryRowEcho(
      FactoryWritten(row, payload, e, modifiedAt, appliedAt, now), e, modifiedAt, appliedAt, previous, events,
      FactorySnapshot(row), TextJson(Next(payload).factoryAddress), TextJson(Next(payload).managerName));
  }

  /** For any row that carries the trace of the event and shows the two values. */
  lemma FactoryRowEcho(
    after: FactoryRow, e: Event, modifiedAt: int, appliedAt: int, previous: Stored, events: map<EventId, Event>,
    shown: Snapshot, address: Option<Json>, manager: Option<Json>)
    requires TwoFieldChange(e) && e.source == SWS && e.ubid == after.ubid && after.licenseNo != ""
    requires e.id in events && events[e.id] == e
    requires CarriesTrace(after, e, modifiedAt, appliedAt) && Abs(modifiedAt - appliedAt) <= 5000
    requires StoredSound(previous, ESURAKSHATE) && SameFields(previous.payload, shown)
    requires ShowsTwo(shown, FactorySnapshot(after), ESURAKSHATE, address, manager)
    ensures NormalizeFactory(after).Some?
    ensures Poll(Some(previous), NormalizeFactory(after).value, events).eventsCreated == 0
      <==> BothHarmless(e, shown, ESURAKSHATE, address, manager)
  {
    var record := NormalizeFactory(after).value;
    FactorySnapshotIsSound(after);
    assert WrittenFor(record, e, events);
    TwoFieldWriteEcho(previous, record, e, events, shown, address, manager);
  }

  /** While the raw employerName is a string, polling shows it in place of the manager. */
  function VisibleManager(row: LabourRow, p: LabourPayload): Option<Json> {
    if TextField(Field(row.raw, "employerName")).Some? then None else TextJson(p.managerName)
  }

  lemma LabourShowsTwo(row: LabourRow, p: LabourPayload, e: Event, modifiedAt: int, appliedAt: int)
    requires TwoFieldChange(e)
    ensures ShowsTwo(LabourSnapshot(row), LabourSnapshot(LabourWritten(row, p, e, modifiedAt, appliedAt)), EKARMIKA,
                     TextJson(p.addressFull), VisibleManager(row, p))
  {
    var after := LabourSnapshot(LabourWritten(row, p, e, modifiedAt, appliedAt));
    var address, manager := TextJson(p.addressFull), VisibleManager(row, p);
    forall f ensures Get(after, f) == AfterTwo(LabourSnapshot(row), EKARMIKA, address, manager, f) {
      LabourWriteShows(row, p, e, modifiedAt, appliedAt, f);
    }
  }

  /**
   * On e-Karmika a string employerName hides the manager: the write of both is then recognised exactly if
   * its address is no news, or the whole payload of an address change.
   */
  lemma LabourTwoFieldEcho(
    row: LabourRow, p: LabourPayload, e: Event, modifiedAt: int, appliedAt: int,
    previous: Stored, events: map<EventId, Event>)
    requires TwoFieldChange(e) && e.source == SWS && e.ubid == row.ubid && row.labourRegNo != ""
    requires e.id in events && events[e.id] == e
    requires Abs(modifiedAt - appliedAt) <= 5000
    requires StoredSound(previous, EKARMIKA) && SameFields(previous.payload, LabourSnapshot(row))
    ensures var record := NormalizeLabour(LabourWritten(row, p, e, modifiedAt, appliedAt));
      && record.Some?
      && (Poll(Some(previous), record.value, events).eventsCreated == 0 <==>
          BothHarmless(e, LabourSnapshot(row), EKARMIKA, TextJson(p.addressFull), VisibleManager(row, p)))
  {
    LabourShowsTwo(row, p, e, modifiedAt, appliedAt);
    LabourRowEcho(LabourWritten(row, p, e, modifiedAt, appliedAt), e, appliedAt, previous, events,
                  LabourSnapshot(row), TextJson(p.addressFull), VisibleManager(row, p));
  }

  lemma LabourRowEcho(
    after: LabourRow, e: Event, appliedAt: int, previous: Stored, events: map<EventId, Event>,
    shown: Snapshot, address: Option<Json>, manager: Option<Json>)
    requires TwoFieldChange(e) && e.source == SWS && e.ubid == after.ubid && after.labourRegNo != ""
    requires e.id in events && events[e.id] == e
    requires after.raw.lastPropagation == Some(Trace(e, appliedAt))
    requires Abs(after.lastModifiedAt - appliedAt) <= 5000
    requires StoredSound(previous, EKARMIKA) && SameFields(previous.payload, shown)
    requires ShowsTwo(shown, LabourSnapshot(after), EKARMIKA, address, manager)
    ensures NormalizeLabour(after).Some?
    ensures Poll(Some(previous), NormalizeLabour(after).value, events).eventsCreated == 0
      <==> BothHarmless(e, shown, EKARMIKA, address, manager)
  {
    var record := NormalizeLabour(after).value;
    LabourSnapshotIsSound(after);
    assert WrittenFor(record, e, events);
    TwoFieldWriteEcho(previous, record, e, events, shown, address, manager);
  }
}
