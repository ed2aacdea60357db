/** How the two department adapters write, and how polling normalizes what they wrote. */
module Adapters {
  import opened Domain
  import opened CanonicalJson
  import opened JsonText
  import opened Diff
  import opened Polling
  import opened FailureSimulation

  /** A raw payload; lastPropagation is one of its keys, kept apart because polling reads its parts. */
  datatype Raw = Raw(fields: map<string, Json>, lastPropagation: Option<Propagation>)

  /** The write of an event leaves this behind. */
  function Trace(e: Event, appliedAt: int): Propagation {
    Propagation(Some(appliedAt), Some(e.id), Some(e.source), Some(e.serviceType))
  }

  function TextJson(value: Option<string>): Option<Json> {
    match value case None => None case Some(s) => Some(Str(s))
  }

  function NumeralJson(value: Option<Numeral>): Option<Json> {
    match value case None => None case Some(s) => Some(Num(s))
  }

  function Field(raw: Raw, name: string): Option<Json> {
    if name in raw.fields then Some(raw.fields[name]) else None
  }

  // ---- e-Surakshate ----

  datatype FactoryRow = FactoryRow(
    ubid: string, licenseNo: string, businessName: string, factoryAddress: Option<string>,
    managerName: Option<string>, employeeCount: Option<Numeral>, workerLimit: Option<Numeral>,
    powerCapacityHP: Option<Numeral>, raw: Raw, lastModifiedAt: int)

  /** One spelling of the translated payload's keys. */
  datatype FactoryFields = FactoryFields(
    businessName: Option<string>, factoryAddress: Option<string>, managerName: Option<string>,
    employeeCount: Option<Numeral>, workerLimit: Option<Numeral>, powerCapacityHP: Option<Numeral>,
    licenseExpiry: Option<string>)

  datatype FactoryPayload = FactoryPayload(capitalized: FactoryFields, plain: FactoryFields)

  /** The capitalized key wins over the plain one. */
  function Next(p: FactoryPayload): FactoryFields {
    FactoryFields(
      Or(p.capitalized.businessName, p.plain.businessName),
      Or(p.capitalized.factoryAddress, p.plain.factoryAddress),
      Or(p.capitalized.managerName, p.plain.managerName),
      Or(p.capitalized.employeeCount, p.plain.employeeCount),
      Or(p.capitalized.workerLimit, p.plain.workerLimit),
      Or(p.capitalized.powerCapacityHP, p.plain.powerCapacityHP),
      Or(p.capitalized.licenseExpiry, p.plain.licenseExpiry))
  }

  /** The new value of a column: the translated one if the event changes the field and there is one. */
  function Updated<T>(e: Event, field: PayloadField, next: Option<T>, current: Option<T>): Option<T> {
    if field in e.changedFields && next.Some? then next else current
  }

  function WithField(fields: map<string, Json>, changes: bool, name: string, value: Option<Json>): map<string, Json> {
    if changes && value.Some? then fields[name := value.value] else fields
  }

  /** Both spellings of an updated key are written into the raw payload. */
  function WithBoth(fields: map<string, Json>, changes: bool, capitalized: string, plain: string, value: Option<Json>)
    : map<string, Json>
  {
    WithField(WithField(fields, changes, capitalized, value), changes, plain, value)
  }

  function Defaulted(fields: map<string, Json>, name: string, value: string): map<string, Json> {
    if name in fields && !fields[name].Null? then fields else fields[name := Str(value)]
  }

  function WithTexts(fields: map<string, Json>, e: Event, n: FactoryFields): map<string, Json> {
    var f0 := WithBoth(fields, BusinessName in e.changedFields, "BusinessName", "businessName",
                       TextJson(n.businessName));
    var f1 := WithBoth(f0, RegisteredAddress in e.changedFields, "FactoryAddress", "factoryAddress",
                       TextJson(n.factoryAddress));
    var f2 := WithBoth(f1, AuthorizedSignatory in e.changedFields, "ManagerName", "managerName",
                       TextJson(n.managerName));
    WithBoth(f2, LicenseExpiry in e.changedFields, "LicenseExpiry", "licenseExpiry", TextJson(n.licenseExpiry))
  }

  function WithNumerals(fields: map<string, Json>, e: Event, n: FactoryFields): map<string, Json> {
    var f0 := WithBoth(fields, EmployeeCount in e.changedFields, "EmployeeCount", "employeeCount",
                       NumeralJson(n.employeeCount));
    var f1 := WithBoth(f0, WorkerLimit in e.changedFields, "WorkerLimit", "workerLimit", NumeralJson(n.workerLimit));
    WithBoth(f1, PowerCapacityHP in e.changedFields, "PowerCapacityHP", "powerCapacityHP",
             NumeralJson(n.powerCapacityHP))
  }

  function Stamped(fields: map<string, Json>, row: FactoryRow, now: string): map<string, Json> {
    var f := Defaulted(Defaulted(fields, "FactoryLicenseNo", row.licenseNo), "factoryLicenseNo", row.licenseNo);
    Defaulted(Defaulted(f, "Ubid", row.ubid), "ubid", row.ubid)["LastModified" := Str(now)]["lastModified" := Str(now)]
  }

  function FactoryRawFields(row: FactoryRow, e: Event, n: FactoryFields, now: string): map<string, Json> {
    Stamped(WithNumerals(WithTexts(row.raw.fields, e, n), e, n), row, now)
  }

  /** The row after the write; now is appliedAt as a date string. */
  function FactoryWritten(
    row: FactoryRow, payload: FactoryPayload, e: Event, modifiedAt: int, appliedAt: int, now: string): FactoryRow {
    var n := Next(payload);
    row.(
      businessName := if BusinessName in e.changedFields && n.businessName.Some? then n.businessName.value
        else row.businessName,
      factoryAddress := Updated(e, RegisteredAddress, n.factoryAddress, row.factoryAddress),
      managerName := Updated(e, AuthorizedSignatory, n.managerName, row.managerName),
      employeeCount := Updated(e, EmployeeCount, n.employeeCount, row.employeeCount),
      workerLimit := Updated(e, WorkerLimit, n.workerLimit, row.workerLimit),
      powerCapacityHP := Updated(e, PowerCapacityHP, n.powerCapacityHP, row.powerCapacityHP),
      raw := Raw(FactoryRawFields(row, e, n, now), Some(Trace(e, appliedAt))),
      lastModifiedAt := modifiedAt)
  }

  function TextField(value: Option<Json>): Option<Json> {
    match value case Some(Str(_)) => value case _ => None
  }

  function FactorySnapshot(row: FactoryRow): Snapshot {
    var expiry := Or(TextField(Field(row.raw, "licenseExpiry")), TextField(Field(row.raw, "LicenseExpiry")));
    var s0 := Put(map[], FACTORY_ADDRESS, TextJson(row.factoryAddress));
    var s1 := Put(s0, LICENSE_EXPIRY, expiry);
    var s2 := Put(s1, MANAGER_NAME, TextJson(row.managerName));
    var s3 := Put(s2, POWER_CAPACITY_HP, NumeralJson(row.powerCapacityHP));
    Put(s3, WORKER_LIMIT, NumeralJson(row.workerLimit))
  }

  /** normalizeEsurakshateRecord; a row without a license number is not polled. */
  function NormalizeFactory(row: FactoryRow): Option<Record> {
    if row.licenseNo == "" then None
    else Some(Record(row.lastModifiedAt, row.licenseNo, row.raw.lastPropagation,
                     FactorySnapshot(row), ESURAKSHATE, row.ubid))
  }

  // ---- e-Karmika ----

  datatype LabourRow = LabourRow(
    ubid: string, labourRegNo: string, businessName: string, addressFull: Option<string>,
    managerName: Option<string>, employeeCount: Option<Numeral>, workerLimit: Option<Numeral>,
    powerCapacityHP: Option<Numeral>, raw: Raw, lastModifiedAt: int)

  datatype LabourPayload = LabourPayload(
    addressFull: Option<string>, businessName: Option<string>, employerName: Option<string>,
    managerName: Option<string>, employeeCount: Option<Numeral>, workerLimit: Option<Numeral>,
    powerCapacityHP: Option<Numeral>)

  function LabourRawFields(row: LabourRow, e: Event, p: LabourPayload): map<string, Json> {
    var name := TextJson(Or(p.employerName, p.businessName));
    var f0 := WithBoth(row.raw.fields, RegisteredAddress in e.changedFields, "addressFull", "addressFull",
                       TextJson(p.addressFull));
    var f1 := WithBoth(f0, BusinessName in e.changedFields, "businessName", "employerName", name);
    var f2 := WithBoth(f1, AuthorizedSignatory in e.changedFields, "managerName", "managerName",
                       TextJson(p.managerName));
    var f3 := WithBoth(f2, EmployeeCount in e.changedFields, "employeeCount", "employeeCount",
                       NumeralJson(p.employeeCount));
    var f4 := WithBoth(f3, WorkerLimit in e.changedFields, "workerLimit", "workerLimit", NumeralJson(p.workerLimit));
    WithBoth(f4, PowerCapacityHP in e.changedFields, "powerCapacityHP", "powerCapacityHP",
             NumeralJson(p.powerCapacityHP))
  }

  function LabourWritten(row: LabourRow, p: LabourPayload, e: Event, modifiedAt: int, appliedAt: int): LabourRow {
    var name := Or(p.employerName, p.businessName);
    row.(
      businessName := if BusinessName in e.changedFields && name.Some? then name.value else row.businessName,
      addressFull := Updated(e, RegisteredAddress, p.addressFull, row.addressFull),
      managerName := Updated(e, AuthorizedSignatory, p.managerName, row.managerName),
      employeeCount := Updated(e, EmployeeCount, p.employeeCount, row.employeeCount),
      workerLimit := Updated(e, WorkerLimit, p.workerLimit, row.workerLimit),
      powerCapacityHP := Updated(e, PowerCapacityHP, p.powerCapacityHP, row.powerCapacityHP),
      raw := Raw(LabourRawFields(row, e, p), Some(Trace(e, appliedAt))),
      lastModifiedAt := modifiedAt)
  }

  function LabourSnapshot(row: LabourRow): Snapshot {
    var employer := Or(TextField(Field(row.raw, "employerName")), TextJson(row.managerName));
    var s0 := Put(map[], ADDRESS_FULL, TextJson(row.addressFull));
    var s1 := Put(s0, EMPLOYEE_COUNT, NumeralJson(row.employeeCount));
    Put(s1, EMPLOYER_NAME, employer)
  }

  function NormalizeLabour(row: LabourRow): Option<Record> {
    if row.labourRegNo == "" then None
    else Some(Record(row.lastModifiedAt, row.labourRegNo, row.raw.lastPropagation,
                     LabourSnapshot(row), EKARMIKA, row.ubid))
  }

  function LabourFields(p: LabourPayload): FactoryFields {
    FactoryFields(Or(p.employerName, p.businessName), p.addressFull, p.managerName, p.employeeCount,
                  p.workerLimit, p.powerCapacityHP, None)
  }

  // ---- The adapters over their tables ----

  datatype WriteResult = SimulatedFailure(reason: string) | NotFound | Written(updatedFields: seq<PayloadField>)

  /** The translated payload has a value for the field. */
  predicate HasNext(n: FactoryFields, field: PayloadField) {
    match field
    case BusinessName => n.businessName.Some?
    case RegisteredAddress => n.factoryAddress.Some?
    case AuthorizedSignatory => n.managerName.Some?
    case EmployeeCount => n.employeeCount.Some?
    case WorkerLimit => n.workerLimit.Some?
    case PowerCapacityHP => n.powerCapacityHP.Some?
    case LicenseExpiry => n.licenseExpiry.Some?
  }

  const FIELD_ORDER: seq<PayloadField> :=
    [RegisteredAddress, BusinessName, AuthorizedSignatory, EmployeeCount, WorkerLimit, PowerCapacityHP, LicenseExpiry]

  /** getUpdatedFields: the changed fields the translation has a value for, in a fixed order. */
  function UpdatedFields(e: Event, n: FactoryFields, order: seq<PayloadField>): (fields: seq<PayloadField>)
    ensures forall f :: f in fields <==> f in order && f in e.changedFields && HasNext(n, f)
  {
    if order == [] then []
    else
      var rest := UpdatedFields(e, n, order[1..]);
      if order[0] in e.changedFields && HasNext(n, order[0]) then [order[0]] + rest else rest
  }

  method SetText(fields: map<string, Json>, changes: bool, capitalized: string, plain: string, value: Option<string>)
    returns (updated: map<string, Json>)
    ensures updated == WithBoth(fields, changes, capitalized, plain, TextJson(value))
  {
    updated := fields;
    if changes && value.Some? {
      updated := updated[capitalized := Str(value.value)];
      updated := updated[plain := Str(value.value)];
    }
  }

  method SetNumeral(
    fields: map<string, Json>, changes: bool, capitalized: string, plain: string, value: Option<Numeral>)
    returns (updated: map<string, Json>)
    ensures updated == WithBoth(fields, changes, capitalized, plain, NumeralJson(value))
  {
    updated := fields;
    if changes && value.Some? {
      updated := updated[capitalized := Num(value.value)];
      updated := updated[plain := Num(value.value)];
    }
  }

  class EsurakshateAdapter {
    var rows: map<string, FactoryRow>

    constructor (rows: map<string, FactoryRow>)
      ensures this.rows == rows
    {
      this.rows := rows;
    }

    method SetTexts(fields: map<string, Json>, e: Event, n: FactoryFields) returns (updated: map<string, Json>)
      ensures updated == WithTexts(fields, e, n)
    {
      updated := SetText(fields, BusinessName in e.changedFields, "BusinessName", "businessName", n.businessName);
      updated := SetText(updated, RegisteredAddress in e.changedFields, "FactoryAddress", "factoryAddress",
                         n.factoryAddress);
      updated := SetText(updated, AuthorizedSignatory in e.changedFields, "ManagerName", "managerName", n.managerName);
      updated := SetText(updated, LicenseExpiry in e.changedFields, "LicenseExpiry", "licenseExpiry", n.licenseExpiry);
    }

    method SetNumerals(fields: map<string, Json>, e: Event, n: FactoryFields) returns (updated: map<string, Json>)
      ensures updated == WithNumerals(fields, e, n)
    {
      updated := SetNumeral(fields, EmployeeCount in e.changedFields, "EmployeeCount", "employeeCount",
                            n.employeeCount);
      updated := SetNumeral(updated, WorkerLimit in e.changedFields, "WorkerLimit", "workerLimit", n.workerLimit);
      updated := SetNumeral(updated, PowerCapacityHP in e.changedFields, "PowerCapacityHP", "powerCapacityHP",
                            n.powerCapacityHP);
    }

    method Write(target: string, payload: FactoryPayload, e: Event, modifiedAt: int, appliedAt: int, now: string)
      returns (result: WriteResult)
      modifies this
      ensures result == if target in old(rows) then Written(UpdatedFields(e, Next(payload), FIELD_ORDER)) else NotFound
      ensures rows == if target in old(rows)
        then old(rows)[target := FactoryWritten(old(rows)[target], payload, e, modifiedAt, appliedAt, now)]
        else old(rows)
    {
      if target !in rows {
        return NotFound;
      }
      var row := rows[target];
      var n := Next(payload);
      var fields := SetTexts(row.raw.fields, e, n);
      fields := SetNumerals(fields, e, n);
      fields := Stamped(fields, row, now);
      var data := row.(lastModifiedAt := modifiedAt, raw := Raw(fields, Some(Trace(e, appliedAt))));
      data := data.(businessName :=
        if BusinessName in e.changedFields && n.businessName.Some? then n.businessName.value else row.businessName);
      data := data.(factoryAddress := Updated(e, RegisteredAddress, n.factoryAddress, row.factoryAddress));
      data := data.(managerName := Updated(e, AuthorizedSignatory, n.managerName, row.managerName));
      data := data.(employeeCount := Updated(e, EmployeeCount, n.employeeCount, row.employeeCount));
      data := data.(workerLimit := Updated(e, WorkerLimit, n.workerLimit, row.workerLimit));
      data := data.(powerCapacityHP := Updated(e, PowerCapacityHP, n.powerCapacityHP, row.powerCapacityHP));
      rows := rows[target := data];
      result := Written(UpdatedFields(e, n, FIELD_ORDER));
    }
  }

  class EkarmikaAdapter {
    const failures: FailureSimulator
    var rows: map<string, LabourRow>

    constructor (failures: FailureSimulator, rows: map<string, LabourRow>)
      ensures this.failures == failures && this.rows == rows
    {
      this.failures := failures;
      this.rows := rows;
    }

    method RawFields(row: LabourRow, e: Event, p: LabourPayload) returns (fields: map<string, Json>)
      ensures fields == LabourRawFields(row, e, p)
    {
      var name := Or(p.employerName, p.businessName);
      fields := row.raw.fields;
      fields := SetText(fields, RegisteredAddress in e.changedFields, "addressFull", "addressFull", p.addressFull);
      fields := SetText(fields, BusinessName in e.changedFields, "businessName", "employerName", name);
      fields := SetText(fields, AuthorizedSignatory in e.changedFields, "managerName", "managerName", p.managerName);
      fields := SetNumeral(fields, EmployeeCount in e.changedFields, "employeeCount", "employeeCount", p.employeeCount);
      fields := SetNumeral(fields, WorkerLimit in e.changedFields, "workerLimit", "workerLimit", p.workerLimit);
      fields := SetNumeral(fields, PowerCapacityHP in e.changedFields, "powerCapacityHP", "powerCapacityHP",
                           p.powerCapacityHP);
    }

    /** A simulated failure is consumed before anything else, and throws before anything is written. */
    method Write(target: string, payload: LabourPayload, e: Event, modifiedAt: int, appliedAt: int)
      returns (result: WriteResult)
      modifies this, failures
      ensures var (reason, left) := Consume(old(failures.rules), RuleKey(EKARMIKA, e.ubid));
        && failures.rules == left
        && result == (if Fires(reason) then SimulatedFailure(reason.value)
                      else if target in old(rows) then Written(UpdatedFields(e, LabourFields(payload), FIELD_ORDER))
                      else NotFound)
        && rows == if result.Written?
           then old(rows)[target := LabourWritten(old(rows)[target], payload, e, modifiedAt, appliedAt)]
           else old(rows)
    {
      var reason := failures.ConsumeFailure(EKARMIKA, e.ubid);
      if Fires(reason) {
        return SimulatedFailure(reason.value);
      }
      if target !in rows {
        return NotFound;
      }
      var row := rows[target];
      var name := Or(payload.employerName, payload.businessName);
      var fields := RawFields(row, e, payload);
      var data := row.(lastModifiedAt := modifiedAt, raw := Raw(fields, Some(Trace(e, appliedAt))));
      data := data.(businessName := if BusinessName in e.changedFields && name.Some? then name.value
        else row.businessName);
      data := data.(addressFull := Updated(e, RegisteredAddress, payload.addressFull, row.addressFull));
      data := data.(managerName := Updated(e, AuthorizedSignatory, payload.managerName, row.managerName));
      data := data.(employeeCount := Updated(e, EmployeeCount, payload.employeeCount, row.employeeCount));
      data := data.(workerLimit := Updated(e, WorkerLimit, payload.workerLimit, row.workerLimit));
      data := data.(powerCapacityHP := Updated(e, PowerCapacityHP, payload.powerCapacityHP, row.powerCapacityHP));
      rows := rows[target := data];
      result := Written(UpdatedFields(e, LabourFields(payload), FIELD_ORDER));
    }
  }
}
