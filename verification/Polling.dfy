/** Polling a department record: baseline, no change, or one action per changed field. */
module Polling {
  import opened Domain
  import opened CanonicalJson
  import opened JsonText
  import opened Address
  import opened Diff

  /** lastPropagation, as found in a record's raw payload; any part may be missing. */
  datatype Propagation = Propagation(
    appliedAt: Option<int>, eventId: Option<EventId>, source: Option<SystemName>, serviceType: Option<ServiceType>)

  datatype Record = Record(
    lastModifiedAt: int, localIdentifier: string, propagation: Option<Propagation>,
    snapshot: Snapshot, system: SystemName, ubid: string)

  datatype SnapshotKey = SnapshotKey(system: SystemName, ubid: string, localIdentifier: string)

  datatype Stored = Stored(hash: string, payload: Snapshot, lastModifiedAt: int)

  /** What polling hands to ingestRequest. */
  datatype Request = Request(
    changedFields: seq<PayloadField>, payload: Payload, serviceType: ServiceType, source: SystemName, ubid: string)

  datatype Action =
    | BASELINE_SAVED
    | NO_CHANGE
    | EVENT_CREATED(request: Request)
    | PROPAGATED_CHANGE_CONFIRMED(eventId: EventId, serviceType: ServiceType, changedFields: seq<PayloadField>)
    | UNSUPPORTED_CHANGE_SKIPPED(changedFields: seq<PayloadField>)

  datatype Summary = Summary(
    baselinesSaved: nat, eventsCreated: nat, noChanges: nat, confirmed: nat, snapshotsSaved: nat,
    actions: seq<Action>, unsupported: nat)

  const EMPTY_SUMMARY := Summary(0, 0, 0, 0, 0, [], 0)

  // ---- Merging payload fragments ----

  function Or<T>(newer: Option<T>, older: Option<T>): Option<T> { if newer.Some? then newer else older }

  function MergeAddress(older: Option<PostalAddress>, newer: Option<PostalAddress>): Option<PostalAddress> {
    match (older, newer)
    case (_, None) => older
    case (None, Some(a)) => Some(a)
    case (Some(o), Some(a)) => Some(a.(line2 := Or(a.line2, o.line2), district := Or(a.district, o.district)))
  }

  function MergeInto(merged: Payload, fragment: Payload): Payload {
    Payload(
      Or(fragment.businessName, merged.businessName),
      MergeAddress(merged.registeredAddress, fragment.registeredAddress),
      Or(fragment.signatory, merged.signatory),
      Or(fragment.employeeCount, merged.employeeCount),
      Or(fragment.workerLimit, merged.workerLimit),
      Or(fragment.powerCapacityHP, merged.powerCapacityHP),
      Or(fragment.licenseExpiry, merged.licenseExpiry))
  }

  function MergeFragments(entries: seq<DiffEntry>): Payload {
    if entries == [] then NO_PAYLOAD
    else MergeInto(MergeFragments(entries[..|entries| - 1]), entries[|entries| - 1].fragment)
  }

  // ---- Grouping by service type ----

  datatype Group = Group(serviceType: ServiceType, entries: seq<DiffEntry>)

  /** Map.set keeps the place of a key that is already there. */
  function AddToGroup(groups: seq<Group>, t: ServiceType, entry: DiffEntry): seq<Group> {
    if groups == [] then [Group(t, [entry])]
    else if groups[0].serviceType == t then [Group(t, groups[0].entries + [entry])] + groups[1..]
    else [groups[0]] + AddToGroup(groups[1..], t, entry)
  }

  function GroupEntries(entries: seq<DiffEntry>): seq<Group> {
    if entries == [] then []
    else
      var last := entries[|entries| - 1];
      var groups := GroupEntries(entries[..|entries| - 1]);
      match last.mapping.serviceType
      case None => groups
      case Some(t) => AddToGroup(groups, t, last)
  }

  function Unsupported(entries: seq<DiffEntry>): seq<DiffEntry> {
    if entries == [] then []
    else
      var last := entries[|entries| - 1];
      Unsupported(entries[..|entries| - 1]) + if last.mapping.serviceType.None? then [last] else []
  }

  function ChangedFieldsOf(entries: seq<DiffEntry>): (fields: seq<PayloadField>)
    ensures Distinct(fields)
    ensures forall f :: f in fields <==> exists e :: e in entries && e.mapping.changedField == f
  {
    if entries == [] then []
    else
      var front, last := entries[..|entries| - 1], entries[|entries| - 1];
      assert entries == front + [last];
      var fields := ChangedFieldsOf(front);
      if last.mapping.changedField in fields then fields else fields + [last.mapping.changedField]
  }

  // ---- Echoes of K-Sync's own writes ----

  predicate IsPropagationTimestampMatch(lastModifiedAt: int, appliedAt: Option<int>) {
    appliedAt.Some? && Abs(lastModifiedAt - appliedAt.value) <= 5000
  }

  /** An object literal with optional members: an undefined one is not there. */
  function Members(names: seq<string>, values: seq<Option<Json>>): seq<Member>
    requires |names| == |values|
  {
    if names == [] then []
    else
      var rest := Members(names[1..], values[1..]);
      if values[0].Some? then [Member(names[0], values[0].value)] + rest else rest
  }

  function TextOrNone(value: Option<string>): Option<Json> {
    match value case None => None case Some(s) => Some(Str(s))
  }

  function NumberOrNone(value: Option<string>): Option<Json> {
    match value case None => None case Some(s) => Some(Num(s))
  }

  const ADDRESS_KEYS := ["line1", "line2", "city", "district", "state", "postalCode"]

  function AddressValues(a: PostalAddress): (values: seq<Option<Json>>)
    ensures |values| == |ADDRESS_KEYS|
  {
    [Some(Str(a.line1)), TextOrNone(a.line2), Some(Str(a.city)), TextOrNone(a.district), Some(Str(a.state)),
     Some(Str(a.postalCode))]
  }

  function AddressJson(a: PostalAddress): Json { Obj(Members(ADDRESS_KEYS, AddressValues(a))) }

  const PAYLOAD_KEYS := ["businessName", "registeredAddress", "authorizedSignatory", "employeeCount", "workerLimit",
                         "powerCapacityHP", "licenseExpiry"]

  function PayloadValues(p: Payload): (values: seq<Option<Json>>)
    ensures |values| == |PAYLOAD_KEYS|
  {
    [TextOrNone(p.businessName),
     if p.registeredAddress.Some? then Some(AddressJson(p.registeredAddress.value)) else None,
     if p.signatory.Some? then Some(Obj([Member("name", Str(p.signatory.value))])) else None,
     NumberOrNone(p.employeeCount), NumberOrNone(p.workerLimit), NumberOrNone(p.powerCapacityHP),
     TextOrNone(p.licenseExpiry)]
  }

  function PayloadJson(p: Payload): Json { Obj(Members(PAYLOAD_KEYS, PayloadValues(p))) }

  /** computeNormalizedPayloadHash; the text stands for its digest. */
  function PayloadHash(p: Payload): string { CanonicalText(PayloadJson(p)) }

  /** confirmPropagatedChangeIfApplicable: the event this change is the echo of. */
  function ConfirmPropagatedChange(
    record: Record, serviceType: ServiceType, payload: Payload, changedFields: seq<PayloadField>,
    events: map<EventId, Event>): Option<Event>
  {
    match record.propagation
    case None => None
    case Some(p) =>
      if p.eventId.None? || p.source == Some(record.system) || p.serviceType != Some(serviceType)
         || !IsPropagationTimestampMatch(record.lastModifiedAt, p.appliedAt) then None
      else if p.eventId.value !in events then None
      else
        var e := events[p.eventId.value];
        if e.source == record.system || e.serviceType != serviceType || e.ubid != record.ubid then None
        else if e.payloadHash != PayloadHash(payload) && multiset(changedFields) != multiset(e.changedFields) then None
        else Some(e)
  }

  // ---- One poll ----

  function ActionFor(record: Record, group: Group, events: map<EventId, Event>): Action {
    var payload, fields := MergeFragments(group.entries), ChangedFieldsOf(group.entries);
    match ConfirmPropagatedChange(record, group.serviceType, payload, fields, events)
    case Some(e) => PROPAGATED_CHANGE_CONFIRMED(e.id, group.serviceType, fields)
    case None => EVENT_CREATED(Request(fields, payload, group.serviceType, record.system, record.ubid))
  }

  function Count(s: Summary, action: Action): Summary {
    var listed := s.(actions := s.actions + [action]);
    match action
    case EVENT_CREATED(_) => listed.(eventsCreated := s.eventsCreated + 1)
    case PROPAGATED_CHANGE_CONFIRMED(_, _, _) => listed.(confirmed := s.confirmed + 1)
    case _ => listed
  }

  function SummaryOf(record: Record, groups: seq<Group>, events: map<EventId, Event>): Summary {
    if groups == [] then EMPTY_SUMMARY
    else Count(SummaryOf(record, groups[..|groups| - 1], events),
               ActionFor(record, groups[|groups| - 1], events))
  }

  function WithUnsupported(s: Summary, unsupported: seq<DiffEntry>): Summary {
    if unsupported == [] then s
    else s.(unsupported := s.unsupported + |unsupported|,
            actions := s.actions + [UNSUPPORTED_CHANGE_SKIPPED(ChangedFieldsOf(unsupported))])
  }

  function Store(record: Record): Stored {
    Stored(SnapshotHash(record.snapshot, record.system), record.snapshot, record.lastModifiedAt)
  }

  /** The entries a poll finds: none for a first poll or an unchanged hash. */
  function PollEntries(previous: Option<Stored>, record: Record): seq<DiffEntry> {
    if previous.None? || previous.value.hash == SnapshotHash(record.snapshot, record.system) then []
    else DiffSnapshots(previous.value.payload, record.snapshot, record.system)
  }

  function PollStored(previous: Option<Stored>, record: Record): Stored {
    if previous.Some? && previous.value.hash == SnapshotHash(record.snapshot, record.system)
    then previous.value else Store(record)
  }

  /** pollNormalizedRecord */
  function Poll(previous: Option<Stored>, record: Record, events: map<EventId, Event>): Summary {
    if previous.None? then EMPTY_SUMMARY.(baselinesSaved := 1, snapshotsSaved := 1, actions := [BASELINE_SAVED])
    else if previous.value.hash == SnapshotHash(record.snapshot, record.system) then
      EMPTY_SUMMARY.(noChanges := 1, actions := [NO_CHANGE])
    else
      var entries := PollEntries(previous, record);
      WithUnsupported(SummaryOf(record, GroupEntries(entries), events), Unsupported(entries)).(snapshotsSaved := 1)
  }

  function Add(a: Summary, b: Summary): Summary {
    Summary(a.baselinesSaved + b.baselinesSaved, a.eventsCreated + b.eventsCreated, a.noChanges + b.noChanges,
            a.confirmed + b.confirmed, a.snapshotsSaved + b.snapshotsSaved, a.actions + b.actions,
            a.unsupported + b.unsupported)
  }

  function MergeRunSummaries(summaries: seq<Summary>): Summary {
    if summaries == [] then EMPTY_SUMMARY
    else Add(MergeRunSummaries(summaries[..|summaries| - 1]), summaries[|summaries| - 1])
  }

  class Poller {
    var snapshots: map<SnapshotKey, Stored>
    var ingested: seq<Request>

    constructor ()
      ensures snapshots == map[] && ingested == []
    {
      snapshots, ingested := map[], [];
    }

    method GetPreviousSnapshot(record: Record) returns (stored: Option<Stored>)
      ensures stored == Previous(snapshots, record)
    {
      var key := KeyOf(record);
      stored := if key in snapshots then Some(snapshots[key]) else None;
    }

    method SaveSnapshot(record: Record, hash: string)
      modifies this`snapshots
      ensures snapshots == old(snapshots)[KeyOf(record) := Stored(hash, record.snapshot, record.lastModifiedAt)]
    {
      snapshots := snapshots[KeyOf(record) := Stored(hash, record.snapshot, record.lastModifiedAt)];
    }

    method MergeCanonicalPayloadFragments(entries: seq<DiffEntry>) returns (merged: Payload)
      ensures merged == MergeFragments(entries)
    {
      merged := NO_PAYLOAD;
      for i := 0 to |entries|
        invariant merged == MergeFragments(entries[..i])
      {
        var fragment := entries[i].fragment;
        assert entries[..i + 1][..i] == entries[..i];
        merged := MergeInto(merged, fragment);
      }
      assert entries[..|entries|] == entries;
    }

    method GroupByServiceType(entries: seq<DiffEntry>) returns (groups: seq<Group>, unsupported: seq<DiffEntry>)
      ensures groups == GroupEntries(entries) && unsupported == Unsupported(entries)
    {
      groups, unsupported := [], [];
      for i := 0 to |entries|
        invariant groups == GroupEntries(entries[..i]) && unsupported == Unsupported(entries[..i])
      {
        assert entries[..i + 1][..i] == entries[..i];
        match entries[i].mapping.serviceType {
          case None => unsupported := unsupported + [entries[i]];
          case Some(t) => groups := AddToGroup(groups, t, entries[i]);
        }
      }
      assert entries[..|entries|] == entries;
    }

    method ProcessGroups(record: Record, groups: seq<Group>, events: map<EventId, Event>) returns (summary: Summary)
      modifies this`ingested
      ensures summary == SummaryOf(record, groups, events)
      ensures ingested == old(ingested) + Requests(summary.actions)
    {
      summary := EMPTY_SUMMARY;
      assert groups[..0] == [] && Requests(summary.actions) == [];
      for i := 0 to |groups|
        invariant summary == SummaryOf(record, groups[..i], events)
        invariant ingested == old(ingested) + Requests(summary.actions)
      {
        SummaryOfNext(record, groups, i, events);
        var payload := MergeCanonicalPayloadFragments(groups[i].entries);
        var fields := ChangedFieldsOf(groups[i].entries);
        var echo := ConfirmPropagatedChange(record, groups[i].serviceType, payload, fields, events);
        var action;
        match echo {
          case Some(e) =>
            action := PROPAGATED_CHANGE_CONFIRMED(e.id, groups[i].serviceType, fields);
          case None =>
            var request := Request(fields, payload, groups[i].serviceType, record.system, record.ubid);
            ingested := ingested + [request];
            action := EVENT_CREATED(request);
        }
        assert action == ActionFor(record, groups[i], events);
        CountingRequests(summary, action);
        summary := Count(summary, action);
      }
      assert groups[..|groups|] == groups;
    }

    /** The part of a poll after the hashes differ. */
    method PollChange(record: Record, previous: Stored, events: map<EventId, Event>) returns (summary: Summary)
      modifies this`ingested
      ensures var entries := DiffSnapshots(previous.payload, record.snapshot, record.system);
        summary == WithUnsupported(SummaryOf(record, GroupEntries(entries), events), Unsupported(entries))
      ensures ingested == old(ingested) + Requests(summary.actions)
      ensures summary.snapshotsSaved == 0
    {
      var entries := DiffObjects(previous.payload, record.snapshot, record.system);
      var groups, unsupported := GroupByServiceType(entries);
      var handled := ProcessGroups(record, groups, events);
      NothingSavedYet(record, groups, events);
      SkippingIngestsNothing(handled, unsupported);
      summary := WithUnsupported(handled, unsupported);
    }

    method PollNormalizedRecord(record: Record, events: map<EventId, Event>) returns (summary: Summary)
      modifies this
      ensures summary == Poll(Previous(old(snapshots), record), record, events)
      ensures snapshots == old(snapshots)[KeyOf(record) := PollStored(Previous(old(snapshots), record), record)]
      ensures ingested == old(ingested) + Requests(summary.actions)
    {
      var hash := SnapshotHash(record.snapshot, record.system);
      var previous := GetPreviousSnapshot(record);
      if previous.None? {
        SaveSnapshot(record, hash);
        return EMPTY_SUMMARY.(baselinesSaved := 1, snapshotsSaved := 1, actions := [BASELINE_SAVED]);
      }
      if previous.value.hash == hash {
        return EMPTY_SUMMARY.(noChanges := 1, actions := [NO_CHANGE]);
      }
      summary := PollChange(record, previous.value, events);
      SaveSnapshot(record, hash);
      summary := summary.(snapshotsSaved := summary.snapshotsSaved + 1);
    }
  }

  function KeyOf(record: Record): SnapshotKey { SnapshotKey(record.system, record.ubid, record.localIdentifier) }

  function Previous(snapshots: map<SnapshotKey, Stored>, record: Record): Option<Stored> {
    if KeyOf(record) in snapshots then Some(snapshots[KeyOf(record)]) else None
  }

  /** The requests a poll has ingested. */
  function Requests(actions: seq<Action>): seq<Request> {
    if actions == [] then []
    else
      var last := actions[|actions| - 1];
      Requests(actions[..|actions| - 1]) + if last.EVENT_CREATED? then [last.request] else []
  }

  lemma SummaryOfNext(record: Record, groups: seq<Group>, i: nat, events: map<EventId, Event>)
    requires i < |groups|
    ensures SummaryOf(record, groups[..i + 1], events)
      == Count(SummaryOf(record, groups[..i], events), ActionFor(record, groups[i], events))
  {
    assert groups[..i + 1][..i] == groups[..i];
  }

  lemma CountingRequests(s: Summary, action: Action)
    ensures Requests(Count(s, action).actions)
      == Requests(s.actions) + if action.EVENT_CREATED? then [action.request] else []
  {
    var actions := s.actions + [action];
    assert Count(s, action).actions == actions && actions[..|actions| - 1] == s.actions;
  }

  lemma SkippingIngestsNothing(s: Summary, unsupported: seq<DiffEntry>)
    ensures Requests(WithUnsupported(s, unsupported).actions) == Requests(s.actions)
  {
    if unsupported != [] {
      var actions := WithUnsupported(s, unsupported).actions;
      assert actions[..|actions| - 1] == s.actions;
    }
  }

  lemma {:induction false} NothingSavedYet(record: Record, groups: seq<Group>, events: map<EventId, Event>)
    ensures SummaryOf(record, groups, events).snapshotsSaved == 0
    ensures SummaryOf(record, groups, events).unsupported == 0
    ensures SummaryOf(record, groups, events).noChanges == 0
    ensures SummaryOf(record, groups, events).baselinesSaved == 0
  {
    if groups == [] {
    } else {
      NothingSavedYet(record, groups[..|groups| - 1], events);
    }
  }
}
