/** Snapshot diffing: which fields of a department record changed, and what each change means. */
module Diff {
  import opened Domain
  import opened CanonicalJson
  import opened JsonText
  import opened Address

  /** The fields of the two normalized snapshots. */
  datatype SourceField =
    | ADDRESS_FULL | EMPLOYEE_COUNT | EMPLOYER_NAME
    | FACTORY_ADDRESS | LICENSE_EXPIRY | MANAGER_NAME | POWER_CAPACITY_HP | WORKER_LIMIT

  function FieldName(field: SourceField): string {
    match field
    case ADDRESS_FULL => "addressFull"
    case EMPLOYEE_COUNT => "employeeCount"
    case EMPLOYER_NAME => "employerName"
    case FACTORY_ADDRESS => "factoryAddress"
    case LICENSE_EXPIRY => "licenseExpiry"
    case MANAGER_NAME => "managerName"
    case POWER_CAPACITY_HP => "powerCapacityHP"
    case WORKER_LIMIT => "workerLimit"
  }

  /** A normalized snapshot; an undefined field is absent. */
  type Snapshot = map<SourceField, Json>

  function Get(s: Snapshot, field: SourceField): Option<Json> {
    if field in s then Some(s[field]) else None
  }

  /** The fields of a system's snapshot, in the order the record normalizer lists them. */
  function SnapshotFields(system: SystemName): seq<SourceField> {
    if system == EKARMIKA then [ADDRESS_FULL, EMPLOYEE_COUNT, EMPLOYER_NAME]
    else [FACTORY_ADDRESS, LICENSE_EXPIRY, MANAGER_NAME, POWER_CAPACITY_HP, WORKER_LIMIT]
  }

  datatype Payload = Payload(
    businessName: Option<string>, registeredAddress: Option<PostalAddress>, signatory: Option<string>,
    employeeCount: Option<string>, workerLimit: Option<string>, powerCapacityHP: Option<string>,
    licenseExpiry: Option<string>)

  const NO_PAYLOAD := Payload(None, None, None, None, None, None, None)

  datatype DiffMapping = DiffMapping(
    path: FieldPath, changedField: PayloadField, serviceType: Option<ServiceType>, source: SourceField)

  function DiffMappings(system: SystemName): seq<DiffMapping> {
    if system == EKARMIKA then [
      DiffMapping(RegisteredAddressPath, RegisteredAddress, Some(REGISTERED_ADDRESS_CHANGE), ADDRESS_FULL),
      DiffMapping(SignatoryNamePath, AuthorizedSignatory, Some(AUTHORIZED_SIGNATORY_CHANGE), EMPLOYER_NAME),
      DiffMapping(EmployeeCountPath, EmployeeCount, Some(EMPLOYEE_COUNT_CHANGE), EMPLOYEE_COUNT)
    ] else [
      DiffMapping(RegisteredAddressPath, RegisteredAddress, Some(REGISTERED_ADDRESS_CHANGE), FACTORY_ADDRESS),
      DiffMapping(SignatoryNamePath, AuthorizedSignatory, Some(AUTHORIZED_SIGNATORY_CHANGE), MANAGER_NAME),
      DiffMapping(WorkerLimitPath, WorkerLimit, None, WORKER_LIMIT),
      DiffMapping(PowerCapacityPath, PowerCapacityHP, Some(POWER_CAPACITY_CHANGE), POWER_CAPACITY_HP),
      DiffMapping(LicenseExpiryPath, LicenseExpiry, Some(LICENSE_EXPIRY_CHANGE), LICENSE_EXPIRY)
    ]
  }

  function NumberOf(value: Option<Json>): Option<string> {
    match value case Some(Num(text)) => Some(text) case _ => None
  }

  function NonBlank(value: Option<Json>): Option<string> {
    match value case Some(Str(chars)) => if Trim(chars) == "" then None else Some(chars) case _ => None
  }

  /** The payloadBuilder of each mapping. */
  function BuildFragment(field: PayloadField, value: Option<Json>): Payload {
    match field
    case RegisteredAddress =>
      NO_PAYLOAD.(registeredAddress := match value case Some(Str(s)) => ParseFlatAddress(s) case _ => None)
    case AuthorizedSignatory => NO_PAYLOAD.(signatory := NonBlank(value))
    case EmployeeCount => NO_PAYLOAD.(employeeCount := NumberOf(value))
    case WorkerLimit => NO_PAYLOAD.(workerLimit := NumberOf(value))
    case PowerCapacityHP => NO_PAYLOAD.(powerCapacityHP := NumberOf(value))
    case LicenseExpiry =>
      NO_PAYLOAD.(licenseExpiry := match value case Some(Str(s)) => Some(s) case _ => None)
    case BusinessName => NO_PAYLOAD
  }

  datatype DiffEntry = DiffEntry(
    mapping: DiffMapping, oldValue: Option<Json>, newValue: Option<Json>, fragment: Payload)

  /** The text two values are compared by; undefined has none. */
  function TextOf(value: Option<Json>): Option<string> {
    match value case None => None case Some(v) => Some(CanonicalText(v))
  }

  predicate AreValuesEqual(left: Option<Json>, right: Option<Json>) { TextOf(left) == TextOf(right) }

  function EntryFor(mapping: DiffMapping, before: Snapshot, after: Snapshot): DiffEntry {
    var value := Get(after, mapping.source);
    DiffEntry(mapping, Get(before, mapping.source), value, BuildFragment(mapping.changedField, value))
  }

  predicate Changed(mapping: DiffMapping, before: Snapshot, after: Snapshot) {
    !AreValuesEqual(Get(before, mapping.source), Get(after, mapping.source))
  }

  function DiffOver(mappings: seq<DiffMapping>, before: Snapshot, after: Snapshot): (entries: seq<DiffEntry>)
    ensures forall entry :: entry in entries <==>
      exists m :: m in mappings && Changed(m, before, after) && entry == EntryFor(m, before, after)
  {
    if mappings == [] then []
    else
      var front, last := mappings[..|mappings| - 1], mappings[|mappings| - 1];
      assert mappings == front + [last];
      DiffOver(front, before, after)
      + if Changed(last, before, after) then [EntryFor(last, before, after)] else []
  }

  function DiffSnapshots(before: Snapshot, after: Snapshot, system: SystemName): seq<DiffEntry> {
    DiffOver(DiffMappings(system), before, after)
  }

  method DiffObjects(before: Snapshot, after: Snapshot, system: SystemName) returns (entries: seq<DiffEntry>)
    ensures entries == DiffSnapshots(before, after, system)
  {
    var mappings := DiffMappings(system);
    entries := [];
    for i := 0 to |mappings|
      invariant entries == DiffOver(mappings[..i], before, after)
    {
      var mapping := mappings[i];
      assert mappings[..i + 1][..i] == mappings[..i];
      var oldValue, newValue := Get(before, mapping.source), Get(after, mapping.source);
      if !AreValuesEqual(oldValue, newValue) {
        entries := entries + [DiffEntry(mapping, oldValue, newValue, BuildFragment(mapping.changedField, newValue))];
      }
    }
    assert mappings[..|mappings|] == mappings;
  }

  // ---- The snapshot hash sees exactly what the diff sees ----

  /** A snapshot of this system, with printable values. */
  predicate IsSnapshot(s: Snapshot, system: SystemName) {
    forall field :: field in s ==> field in SnapshotFields(system) && Proper(s[field]) && HasNumbers(s[field])
  }

  function MembersOf(s: Snapshot, fields: seq<SourceField>): seq<Member> {
    if fields == [] then []
    else (if fields[0] in s then [Member(FieldName(fields[0]), s[fields[0]])] else []) + MembersOf(s, fields[1..])
  }

  /** The object that is hashed. SHA-256 is taken as injective, so the text stands for its digest. */
  function AsObject(s: Snapshot, system: SystemName): Json { Obj(MembersOf(s, SnapshotFields(system))) }

  function SnapshotHash(s: Snapshot, system: SystemName): string { CanonicalText(AsObject(s, system)) }

  lemma FieldNameIsInjective(a: SourceField, b: SourceField)
    ensures FieldName(a) == FieldName(b) <==> a == b
    ensures FieldName(a) != PROTO
  {
    if FieldName(a) == FieldName(b) {
      assert |FieldName(a)| == |FieldName(b)|;
      assert FieldName(a)[0] == FieldName(b)[0] && FieldName(a)[4] == FieldName(b)[4];
    }
  }

  lemma {:induction false} MembersOfFields(s: Snapshot, fields: seq<SourceField>)
    requires Distinct(fields)
    ensures DistinctKeys(MembersOf(s, fields))
    ensures forall m :: m in MembersOf(s, fields) <==>
      exists f :: f in fields && f in s && m == Member(FieldName(f), s[f])
  {
    if fields == [] {
    } else {
      var rest := fields[1..];
      MembersOfFields(s, rest);
      assert fields == [fields[0]] + rest;
      forall m | m in MembersOf(s, rest) ensures m.key != FieldName(fields[0]) {
        var f :| f in rest && f in s && m == Member(FieldName(f), s[f]);
        FieldNameIsInjective(f, fields[0]);
      }
    }
  }

  lemma SnapshotIsProper(s: Snapshot, system: SystemName)
    requires IsSnapshot(s, system)
    ensures Proper(AsObject(s, system)) && HasNumbers(AsObject(s, system))
    ensures forall f :: f in s ==> Member(FieldName(f), s[f]) in AsObject(s, system).members
    ensures forall m :: m in AsObject(s, system).members ==>
      m.key != PROTO && exists f :: f in s && m == Member(FieldName(f), s[f])
  {
    MembersOfFields(s, SnapshotFields(system));
    var members := AsObject(s, system).members;
    forall i | 0 <= i < |members| ensures Proper(members[i].value) && HasNumbers(members[i].value) {
      assert members[i] in members;
    }
    forall m | m in members ensures m.key != PROTO {
      var f :| f in s && m == Member(FieldName(f), s[f]);
      FieldNameIsInjective(f, f);
    }
  }

  /** The field and its key: present together, with the same value. */
  lemma FieldLookup(s: Snapshot, system: SystemName, f: SourceField)
    requires IsSnapshot(s, system)
    ensures f in s <==> FieldName(f) in KeysOf(AsObject(s, system).members)
    ensures f in s ==> Lookup(AsObject(s, system).members, FieldName(f)) == s[f]
  {
    var members := AsObject(s, system).members;
    SnapshotIsProper(s, system);
    FieldNameIsInjective(f, f);
    if f in s {
      var i :| 0 <= i < |members| && members[i] == Member(FieldName(f), s[f]);
      LookupFinds(members, i);
    }
    if FieldName(f) in KeysOf(members) {
      var m :| m in members && m.key == FieldName(f);
      var g :| g in s && m == Member(FieldName(g), s[g]);
      FieldNameIsInjective(f, g);
    }
  }

  ghost predicate SameFields(s: Snapshot, t: Snapshot) {
    forall f :: AreValuesEqual(Get(s, f), Get(t, f))
  }

  lemma SameObjectsHaveSameFields(s: Snapshot, t: Snapshot, system: SystemName)
    requires IsSnapshot(s, system) && IsSnapshot(t, system)
    requires SameMeaning(AsObject(s, system), AsObject(t, system))
    ensures SameFields(s, t)
  {
    var a := AsObject(s, system).members;
    forall f ensures AreValuesEqual(Get(s, f), Get(t, f)) {
      FieldLookup(s, system, f);
      FieldLookup(t, system, f);
      if f in s {
        SnapshotIsProper(s, system);
        var i :| 0 <= i < |a| && a[i] == Member(FieldName(f), s[f]);
        TextDecidesMeaning(s[f], t[f]);
      }
    }
  }

  lemma SameFieldsMakeSameObjects(s: Snapshot, t: Snapshot, system: SystemName)
    requires IsSnapshot(s, system) && IsSnapshot(t, system)
    requires SameFields(s, t)
    ensures SameMeaning(AsObject(s, system), AsObject(t, system))
  {
    var a, b := AsObject(s, system).members, AsObject(t, system).members;
    forall f ensures f in s <==> f in t {
      assert AreValuesEqual(Get(s, f), Get(t, f));
    }
    KeysComeFromFields(s, t, system);
    KeysComeFromFields(t, s, system);
    forall i | 0 <= i < |a| && a[i].key in KeysOf(b)
      ensures SameMeaning(a[i].value, Lookup(b, a[i].key))
    {
      MemberAgrees(s, t, system, a[i]);
    }
  }

  lemma MemberAgrees(s: Snapshot, t: Snapshot, system: SystemName, m: Member)
    requires IsSnapshot(s, system) && IsSnapshot(t, system)
    requires SameFields(s, t) && m in AsObject(s, system).members
    ensures m.key in KeysOf(AsObject(t, system).members)
    ensures SameMeaning(m.value, Lookup(AsObject(t, system).members, m.key))
  {
    SnapshotIsProper(s, system);
    var f :| f in s && m == Member(FieldName(f), s[f]);
    assert AreValuesEqual(Get(s, f), Get(t, f));
    FieldLookup(t, system, f);
    TextDecidesMeaning(s[f], t[f]);
  }

  lemma KeysComeFromFields(s: Snapshot, t: Snapshot, system: SystemName)
    requires IsSnapshot(s, system) && IsSnapshot(t, system)
    requires forall f :: f in s ==> f in t
    ensures KeysOf(AsObject(s, system).members) <= KeysOf(AsObject(t, system).members)
  {
    SnapshotIsProper(s, system);
    forall key | key in KeysOf(AsObject(s, system).members)
      ensures key in KeysOf(AsObject(t, system).members)
    {
      var m :| m in AsObject(s, system).members && m.key == key;
      var f :| f in s && m == Member(FieldName(f), s[f]);
      FieldLookup(t, system, f);
    }
  }

  lemma FieldsAreMapped(system: SystemName)
    ensures forall f :: f in SnapshotFields(system) <==> exists m :: m in DiffMappings(system) && m.source == f
  {
    var ms := DiffMappings(system);
    forall f | f in SnapshotFields(system) ensures exists m :: m in ms && m.source == f {
      if system == EKARMIKA {
        assert ms[0] in ms && ms[1] in ms && ms[2] in ms;
      } else {
        assert ms[0] in ms && ms[1] in ms && ms[2] in ms && ms[3] in ms && ms[4] in ms;
      }
    }
  }

  lemma OneMappingPerSource(system: SystemName)
    ensures forall m, n :: m in DiffMappings(system) && n in DiffMappings(system) && m.source == n.source ==> m == n
  {
  }

  lemma OneMappingPerService(system: SystemName)
    ensures forall m, n ::
      m in DiffMappings(system) && n in DiffMappings(system) && m.serviceType == n.serviceType ==> m == n
  {
  }

  /** Every field of a system's snapshot has exactly one mapping. */
  lemma MappingsCoverSnapshots(system: SystemName)
    ensures forall f :: f in SnapshotFields(system) <==> exists m :: m in DiffMappings(system) && m.source == f
    ensures forall m, n :: m in DiffMappings(system) && n in DiffMappings(system) && m.source == n.source ==> m == n
    ensures forall m, n ::
      m in DiffMappings(system) && n in DiffMappings(system) && m.serviceType == n.serviceType ==> m == n
  {
    FieldsAreMapped(system);
    OneMappingPerSource(system);
    OneMappingPerService(system);
  }

  lemma UnmappedDifference(s: Snapshot, t: Snapshot, system: SystemName, f: SourceField)
    requires IsSnapshot(s, system) && IsSnapshot(t, system) && DiffSnapshots(s, t, system) == []
    ensures AreValuesEqual(Get(s, f), Get(t, f))
  {
    MappingsCoverSnapshots(system);
    if f in SnapshotFields(system) {
      var m :| m in DiffMappings(system) && m.source == f;
      assert EntryFor(m, s, t) !in DiffSnapshots(s, t, system);
    }
  }

  lemma EmptyDiffMeansSameFields(s: Snapshot, t: Snapshot, system: SystemName)
    requires IsSnapshot(s, system) && IsSnapshot(t, system)
    ensures DiffSnapshots(s, t, system) == [] <==> SameFields(s, t)
  {
    var entries := DiffSnapshots(s, t, system);
    if entries == [] {
      forall f ensures AreValuesEqual(Get(s, f), Get(t, f)) {
        UnmappedDifference(s, t, system, f);
      }
    } else {
      assert entries[0] in entries;
      var m :| m in DiffMappings(system) && Changed(m, s, t) && entries[0] == EntryFor(m, s, t);
      assert !AreValuesEqual(Get(s, m.source), Get(t, m.source));
    }
  }

  /** The hashes of two snapshots agree exactly when diffing them finds nothing. */
  lemma SameHashMeansNoDiff(s: Snapshot, t: Snapshot, system: SystemName)
    requires IsSnapshot(s, system) && IsSnapshot(t, system)
    ensures SnapshotHash(s, system) == SnapshotHash(t, system) <==> DiffSnapshots(s, t, system) == []
  {
    SnapshotIsProper(s, system);
    SnapshotIsProper(t, system);
    TextDecidesMeaning(AsObject(s, system), AsObject(t, system));
    EmptyDiffMeansSameFields(s, t, system);
    if SameFields(s, t) { SameFieldsMakeSameObjects(s, t, system); }
    if SameMeaning(AsObject(s, system), AsObject(t, system)) { SameObjectsHaveSameFields(s, t, system); }
  }

  // ---- Entries as a patch ----

  function Put(s: Snapshot, field: SourceField, value: Option<Json>): Snapshot {
    match value case Some(v) => s[field := v] case None => s - {field}
  }

  /** Overlay the new values of the entries, in order. */
  function Overlay(s: Snapshot, entries: seq<DiffEntry>): Snapshot {
    if entries == [] then s
    else
      var last := entries[|entries| - 1];
      Put(Overlay(s, entries[..|entries| - 1]), last.mapping.source, last.newValue)
  }

  predicate Maps(mappings: seq<DiffMapping>, f: SourceField) {
    exists m :: m in mappings && m.source == f
  }

  lemma MapsLast(front: seq<DiffMapping>, last: DiffMapping, f: SourceField)
    ensures Maps(front + [last], f) <==> Maps(front, f) || last.source == f
  {
    assert last in front + [last];
  }

  lemma DiffOverLast(front: seq<DiffMapping>, last: DiffMapping, before: Snapshot, after: Snapshot)
    ensures DiffOver(front + [last], before, after) == DiffOver(front, before, after)
      + if Changed(last, before, after) then [EntryFor(last, before, after)] else []
  {
    assert (front + [last])[..|front|] == front;
  }

  lemma PatchedField(s: Snapshot, last: DiffMapping, before: Snapshot, after: Snapshot, f: SourceField)
    ensures Get(Put(s, last.source, EntryFor(last, before, after).newValue), f)
      == if f == last.source then Get(after, f) else Get(s, f)
  {
  }

  lemma {:induction false} OverlayOver(mappings: seq<DiffMapping>, before: Snapshot, after: Snapshot, f: SourceField)
    ensures TextOf(Get(Overlay(before, DiffOver(mappings, before, after)), f)) ==
      if Maps(mappings, f) then TextOf(Get(after, f)) else TextOf(Get(before, f))
  {
    if mappings == [] {
    } else {
      var front, last := mappings[..|mappings| - 1], mappings[|mappings| - 1];
      var earlier := DiffOver(front, before, after);
      OverlayOver(front, before, after, f);
      assert mappings == front + [last];
      MapsLast(front, last, f);
      DiffOverLast(front, last, before, after);
      if Changed(last, before, after) {
        OverlayLast(before, earlier, EntryFor(last, before, after));
        PatchedField(Overlay(before, earlier), last, before, after, f);
      } else {
        assert DiffOver(mappings, before, after) == earlier;
      }
    }
  }

  lemma OverlayLast(s: Snapshot, entries: seq<DiffEntry>, last: DiffEntry)
    ensures Overlay(s, entries + [last]) == Put(Overlay(s, entries), last.mapping.source, last.newValue)
  {
    assert (entries + [last])[..|entries|] == entries;
  }

  /** Overlaying the entries' new values on the old snapshot gives the new snapshot. */
  lemma OverlayGivesTheNewSnapshot(before: Snapshot, after: Snapshot, system: SystemName)
    requires IsSnapshot(before, system) && IsSnapshot(after, system)
    ensures SameFields(Overlay(before, DiffSnapshots(before, after, system)), after)
  {
    MappingsCoverSnapshots(system);
    forall f ensures AreValuesEqual(Get(Overlay(before, DiffSnapshots(before, after, system)), f), Get(after, f)) {
      OverlayOver(DiffMappings(system), before, after, f);
      assert Maps(DiffMappings(system), f) <==> f in SnapshotFields(system);
    }
  }

  lemma {:induction false} OverlayKeepsSameFields(s: Snapshot, t: Snapshot, entries: seq<DiffEntry>)
    requires SameFields(s, t)
    ensures SameFields(Overlay(s, entries), Overlay(t, entries))
  {
    if entries == [] {
    } else {
      var front := entries[..|entries| - 1];
      OverlayKeepsSameFields(s, t, front);
      forall f ensures AreValuesEqual(Get(Overlay(s, entries), f), Get(Overlay(t, entries), f)) {
        assert AreValuesEqual(Get(Overlay(s, front), f), Get(Overlay(t, front), f));
      }
    }
  }

  lemma {:induction false} OverlayConcat(s: Snapshot, a: seq<DiffEntry>, b: seq<DiffEntry>)
    ensures Overlay(s, a + b) == Overlay(Overlay(s, a), b)
  {
    if b == [] {
      assert a + b == a;
    } else {
      OverlayConcat(s, a, b[..|b| - 1]);
      assert (a + b)[..|a + b| - 1] == a + b[..|b| - 1];
    }
  }

  // ---- What an entry carries ----

  /** The service type under which a change of the field is reported; none for the worker limit. */
  function ServiceOf(field: PayloadField): Option<ServiceType> {
    match field
    case RegisteredAddress => Some(REGISTERED_ADDRESS_CHANGE)
    case AuthorizedSignatory => Some(AUTHORIZED_SIGNATORY_CHANGE)
    case EmployeeCount => Some(EMPLOYEE_COUNT_CHANGE)
    case PowerCapacityHP => Some(POWER_CAPACITY_CHANGE)
    case LicenseExpiry => Some(LICENSE_EXPIRY_CHANGE)
    case _ => None
  }

  /** The payload field of a department's field. */
  function PayloadFieldOf(source: SourceField): PayloadField {
    match source
    case ADDRESS_FULL => RegisteredAddress
    case FACTORY_ADDRESS => RegisteredAddress
    case EMPLOYER_NAME => AuthorizedSignatory
    case MANAGER_NAME => AuthorizedSignatory
    case EMPLOYEE_COUNT => EmployeeCount
    case WORKER_LIMIT => WorkerLimit
    case POWER_CAPACITY_HP => PowerCapacityHP
    case LICENSE_EXPIRY => LicenseExpiry
  }

  /** A payload in which no field but this one is given. */
  predicate OnlyGives(p: Payload, field: PayloadField) {
    && p.businessName.None?
    && (field != RegisteredAddress ==> p.registeredAddress.None?)
    && (field != AuthorizedSignatory ==> p.signatory.None?)
    && (field != EmployeeCount ==> p.employeeCount.None?)
    && (field != WorkerLimit ==> p.workerLimit.None?)
    && (field != PowerCapacityHP ==> p.powerCapacityHP.None?)
    && (field != LicenseExpiry ==> p.licenseExpiry.None?)
  }

  /** The new value as it stands in the payload: a string, a parsed address, or a number; anything else is left out. */
  predicate Gives(p: Payload, field: PayloadField, value: Option<Json>) {
    match field
    case RegisteredAddress =>
      p.registeredAddress == (match value case Some(Str(s)) => ParseFlatAddress(s) case _ => None)
    case AuthorizedSignatory =>
      p.signatory == (match value case Some(Str(s)) => (if Trim(s) != "" then Some(s) else None) case _ => None)
    case LicenseExpiry => p.licenseExpiry == (match value case Some(Str(s)) => Some(s) case _ => None)
    case EmployeeCount => p.employeeCount == (match value case Some(Num(n)) => Some(n) case _ => None)
    case WorkerLimit => p.workerLimit == (match value case Some(Num(n)) => Some(n) case _ => None)
    case PowerCapacityHP => p.powerCapacityHP == (match value case Some(Num(n)) => Some(n) case _ => None)
    case BusinessName => true
  }

  /**
   * Every entry of a diff is of a field of that system's snapshot, under the path and service type of its payload
   * field, with the old and the new value, and carries the new value in that payload field alone.
   */
  lemma EntryCarries(before: Snapshot, after: Snapshot, system: SystemName, d: DiffEntry)
    requires d in DiffSnapshots(before, after, system)
    ensures var source, field := d.mapping.source, d.mapping.changedField;
      && source in SnapshotFields(system) && field == PayloadFieldOf(source)
      && d.mapping.path == PathOf(field) && d.mapping.serviceType == ServiceOf(field)
      && d.oldValue == Get(before, source) && d.newValue == Get(after, source)
      && TextOf(d.oldValue) != TextOf(d.newValue)
      && OnlyGives(d.fragment, field) && Gives(d.fragment, field, d.newValue)
  {
    var m :| m in DiffMappings(system) && Changed(m, before, after) && d == EntryFor(m, before, after);
    FieldsAreMapped(system);
    MappingSpelledOut(system, m);
    FragmentGives(m.changedField, Get(after, m.source));
  }

  lemma MappingSpelledOut(system: SystemName, m: DiffMapping)
    requires m in DiffMappings(system)
    ensures m == DiffMapping(PathOf(m.changedField), PayloadFieldOf(m.source), ServiceOf(m.changedField), m.source)
  {
  }

  lemma FragmentGives(field: PayloadField, value: Option<Json>)
    ensures OnlyGives(BuildFragment(field, value), field) && Gives(BuildFragment(field, value), field, value)
  {
  }
}
