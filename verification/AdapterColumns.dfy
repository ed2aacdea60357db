/** What the two department writes leave in each column and under each raw key, from the translated payload itself. */
module AdapterColumns {
  import opened Domain
  import opened CanonicalJson
  import opened JsonText
  import Diff
  import opened Polling
  import opened Adapters

  /** The value the payload gives for a field: the first key wins over the second. */
  function Read<T>(first: Option<T>, second: Option<T>): Option<T> {
    match first case Some(_) => first case None => second
  }

  /** As raw payloads and snapshots hold it: a string, or a number. */
  function AsText(value: Option<string>): Option<Json> { if value.Some? then Some(Str(value.value)) else None }

  function AsNumber(value: Option<Numeral>): Option<Json> { if value.Some? then Some(Num(value.value)) else None }

  /** A column after the write: the value read, if the event changes the field and there is one. */
  predicate Takes<T(==)>(e: Event, field: PayloadField, read: Option<T>, before: Option<T>, after: Option<T>) {
    after == if field in e.changedFields && read.Some? then read else before
  }

  // ---- Raw keys ----

  /** All raw keys that a write may touch differ in length or in their first character. */
  predicate Apart(a: string, b: string) { |a| != |b| || (a != "" && a[0] != b[0]) }

  /** The two raw keys of a field after the write. */
  ghost predicate WritesKeys(
    e: Event, field: PayloadField, value: Option<Json>, before: map<string, Json>, after: map<string, Json>,
    first: string, second: string)
  {
    if field in e.changedFields && value.Some? then
      && first in after && after[first] == value.value
      && second in after && after[second] == value.value
    else SameKey(before, after, first) && SameKey(before, after, second)
  }

  predicate SameKey(before: map<string, Json>, after: map<string, Json>, key: string) {
    && (key in before <==> key in after)
    && (key in before && key in after ==> before[key] == after[key])
  }

  /** A key that defaults to the row's own value: kept unless it is missing or null. */
  predicate DefaultsTo(before: map<string, Json>, after: map<string, Json>, key: string, value: string) {
    key in after && after[key] == if key in before && !before[key].Null? then before[key] else Str(value)
  }

  lemma SameKeyIsTransitive(a: map<string, Json>, b: map<string, Json>, c: map<string, Json>, key: string)
    requires SameKey(a, b, key) && SameKey(b, c, key)
    ensures SameKey(a, c, key)
  {
  }

  lemma TextKeysKept(fields: map<string, Json>, e: Event, n: FactoryFields, key: string)
    requires Apart(key, "BusinessName") && Apart(key, "businessName")
    requires Apart(key, "FactoryAddress") && Apart(key, "factoryAddress")
    requires Apart(key, "ManagerName") && Apart(key, "managerName")
    requires Apart(key, "LicenseExpiry") && Apart(key, "licenseExpiry")
    ensures SameKey(fields, WithTexts(fields, e, n), key)
  {
  }

  lemma NumeralKeysKept(fields: map<string, Json>, e: Event, n: FactoryFields, key: string)
    requires Apart(key, "EmployeeCount") && Apart(key, "employeeCount")
    requires Apart(key, "WorkerLimit") && Apart(key, "workerLimit")
    requires Apart(key, "PowerCapacityHP") && Apart(key, "powerCapacityHP")
    ensures SameKey(fields, WithNumerals(fields, e, n), key)
  {
  }

  lemma StampKeysKept(fields: map<string, Json>, row: FactoryRow, now: string, key: string)
    requires Apart(key, "FactoryLicenseNo") && Apart(key, "factoryLicenseNo")
    requires Apart(key, "Ubid") && Apart(key, "ubid")
    requires Apart(key, "LastModified") && Apart(key, "lastModified")
    ensures SameKey(fields, Stamped(fields, row, now), key)
  {
  }

  lemma NamesWritten(fields: map<string, Json>, e: Event, n: FactoryFields)
    ensures var after := WithTexts(fields, e, n);
      && WritesKeys(e, BusinessName, TextJson(n.businessName), fields, after, "BusinessName", "businessName")
      && WritesKeys(e, AuthorizedSignatory, TextJson(n.managerName), fields, after, "ManagerName", "managerName")
  {
  }

  lemma AddressAndExpiryWritten(fields: map<string, Json>, e: Event, n: FactoryFields)
    ensures var after := WithTexts(fields, e, n);
      && WritesKeys(e, RegisteredAddress, TextJson(n.factoryAddress), fields, after,
                    "FactoryAddress", "factoryAddress")
      && WritesKeys(e, LicenseExpiry, TextJson(n.licenseExpiry), fields, after, "LicenseExpiry", "licenseExpiry")
  {
  }

  lemma NumeralsWritten(fields: map<string, Json>, e: Event, n: FactoryFields)
    ensures var after := WithNumerals(fields, e, n);
      && WritesKeys(e, EmployeeCount, NumeralJson(n.employeeCount), fields, after, "EmployeeCount", "employeeCount")
      && WritesKeys(e, WorkerLimit, NumeralJson(n.workerLimit), fields, after, "WorkerLimit", "workerLimit")
      && WritesKeys(e, PowerCapacityHP, NumeralJson(n.powerCapacityHP), fields, after,
                    "PowerCapacityHP", "powerCapacityHP")
  {
  }

  lemma KeptBefore(
    e: Event, field: PayloadField, value: Option<Json>, before: map<string, Json>, between: map<string, Json>,
    after: map<string, Json>, first: string, second: string)
    requires SameKey(before, between, first) && SameKey(before, between, second)
    requires WritesKeys(e, field, value, between, after, first, second)
    ensures WritesKeys(e, field, value, before, after, first, second)
  {
  }

  lemma KeptAfter(
    e: Event, field: PayloadField, value: Option<Json>, before: map<string, Json>, between: map<string, Json>,
    after: map<string, Json>, first: string, second: string)
    requires WritesKeys(e, field, value, before, between, first, second)
    requires SameKey(between, after, first) && SameKey(between, after, second)
    ensures WritesKeys(e, field, value, before, after, first, second)
  {
  }

  /** The raw keys of a text field, through the later stages of the write. */
  lemma TextPairWritten(
    row: FactoryRow, e: Event, n: FactoryFields, now: string, field: PayloadField, value: Option<Json>,
    first: string, second: string)
    requires (field == BusinessName && first == "BusinessName" && second == "businessName"
              && value == TextJson(n.businessName))
      || (field == RegisteredAddress && first == "FactoryAddress" && second == "factoryAddress"
          && value == TextJson(n.factoryAddress))
      || (field == AuthorizedSignatory && first == "ManagerName" && second == "managerName"
          && value == TextJson(n.managerName))
      || (field == LicenseExpiry && first == "LicenseExpiry" && second == "licenseExpiry"
          && value == TextJson(n.licenseExpiry))
    ensures WritesKeys(e, field, value, row.raw.fields, FactoryRawFields(row, e, n, now), first, second)
  {
    var f0 := WithTexts(row.raw.fields, e, n);
    var f1 := WithNumerals(f0, e, n);
    NamesWritten(row.raw.fields, e, n);
    AddressAndExpiryWritten(row.raw.fields, e, n);
    NumeralKeysKept(f0, e, n, first);
    NumeralKeysKept(f0, e, n, second);
    KeptAfter(e, field, value, row.raw.fields, f0, f1, first, second);
    StampKeysKept(f1, row, now, first);
    StampKeysKept(f1, row, now, second);
    KeptAfter(e, field, value, row.raw.fields, f1, Stamped(f1, row, now), first, second);
  }

  lemma NumeralPairWritten(
    row: FactoryRow, e: Event, n: FactoryFields, now: string, field: PayloadField, value: Option<Json>,
    first: string, second: string)
    requires (field == EmployeeCount && first == "EmployeeCount" && second == "employeeCount"
              && value == NumeralJson(n.employeeCount))
      || (field == WorkerLimit && first == "WorkerLimit" && second == "workerLimit"
          && value == NumeralJson(n.workerLimit))
      || (field == PowerCapacityHP && first == "PowerCapacityHP" && second == "powerCapacityHP"
          && value == NumeralJson(n.powerCapacityHP))
    ensures WritesKeys(e, field, value, row.raw.fields, FactoryRawFields(row, e, n, now), first, second)
  {
    var f0 := WithTexts(row.raw.fields, e, n);
    var f1 := WithNumerals(f0, e, n);
    NumeralsWritten(f0, e, n);
    TextKeysKept(row.raw.fields, e, n, first);
    TextKeysKept(row.raw.fields, e, n, second);
    KeptBefore(e, field, value, row.raw.fields, f0, f1, first, second);
    StampKeysKept(f1, row, now, first);
    StampKeysKept(f1, row, now, second);
    KeptAfter(e, field, value, row.raw.fields, f1, Stamped(f1, row, now), first, second);
  }

  lemma DefaultsStamped(fields: map<string, Json>, row: FactoryRow, now: string)
    ensures var after := Stamped(fields, row, now);
      && DefaultsTo(fields, after, "FactoryLicenseNo", row.licenseNo)
      && DefaultsTo(fields, after, "factoryLicenseNo", row.licenseNo)
      && DefaultsTo(fields, after, "Ubid", row.ubid) && DefaultsTo(fields, after, "ubid", row.ubid)
      && "LastModified" in after && after["LastModified"] == Str(now)
      && "lastModified" in after && after["lastModified"] == Str(now)
  {
  }

  // ---- The e-Surakshate write ----

  /** The columns of the row: each takes the capitalized key of the payload if there is one, else the plain one. */
  ghost predicate FactoryColumnsWritten(row: FactoryRow, after: FactoryRow, payload: FactoryPayload, e: Event) {
    var c, p := payload.capitalized, payload.plain;
    && after.ubid == row.ubid && after.licenseNo == row.licenseNo
    && Takes(e, BusinessName, Read(c.businessName, p.businessName), Some(row.businessName), Some(after.businessName))
    && Takes(e, RegisteredAddress, Read(c.factoryAddress, p.factoryAddress), row.factoryAddress, after.factoryAddress)
    && Takes(e, AuthorizedSignatory, Read(c.managerName, p.managerName), row.managerName, after.managerName)
    && Takes(e, EmployeeCount, Read(c.employeeCount, p.employeeCount), row.employeeCount, after.employeeCount)
    && Takes(e, WorkerLimit, Read(c.workerLimit, p.workerLimit), row.workerLimit, after.workerLimit)
    && Takes(e, PowerCapacityHP, Read(c.powerCapacityHP, p.powerCapacityHP), row.powerCapacityHP, after.powerCapacityHP)
  }

  /** The raw payload: both spellings of each key get that value. */
  ghost predicate FactoryTextsWritten(
    before: map<string, Json>, after: map<string, Json>, payload: FactoryPayload, e: Event)
  {
    var c, p := payload.capitalized, payload.plain;
    && WritesKeys(e, BusinessName, AsText(Read(c.businessName, p.businessName)), before, after,
                  "BusinessName", "businessName")
    && WritesKeys(e, RegisteredAddress, AsText(Read(c.factoryAddress, p.factoryAddress)), before, after,
                  "FactoryAddress", "factoryAddress")
    && WritesKeys(e, AuthorizedSignatory, AsText(Read(c.managerName, p.managerName)), before, after,
                  "ManagerName", "managerName")
    && WritesKeys(e, LicenseExpiry, AsText(Read(c.licenseExpiry, p.licenseExpiry)), before, after,
                  "LicenseExpiry", "licenseExpiry")
  }

  ghost predicate FactoryNumeralsWritten(
    before: map<string, Json>, after: map<string, Json>, payload: FactoryPayload, e: Event)
  {
    var c, p := payload.capitalized, payload.plain;
    && WritesKeys(e, EmployeeCount, AsNumber(Read(c.employeeCount, p.employeeCount)), before, after,
                  "EmployeeCount", "employeeCount")
    && WritesKeys(e, WorkerLimit, AsNumber(Read(c.workerLimit, p.workerLimit)), before, after,
                  "WorkerLimit", "workerLimit")
    && WritesKeys(e, PowerCapacityHP, AsNumber(Read(c.powerCapacityHP, p.powerCapacityHP)), before, after,
                  "PowerCapacityHP", "powerCapacityHP")
  }

  /** Besides, the stamps are new, missing identities are filled in, and every other key stays. */
  ghost predicate FactoryRawWritten(
    row: FactoryRow, after: map<string, Json>, payload: FactoryPayload, e: Event, now: string)
  {
    var before := row.raw.fields;
    && FactoryTextsWritten(before, after, payload, e) && FactoryNumeralsWritten(before, after, payload, e)
    && DefaultsTo(before, after, "FactoryLicenseNo", row.licenseNo)
    && DefaultsTo(before, after, "factoryLicenseNo", row.licenseNo)
    && DefaultsTo(before, after, "Ubid", row.ubid) && DefaultsTo(before, after, "ubid", row.ubid)
    && "LastModified" in after && after["LastModified"] == Str(now)
    && "lastModified" in after && after["lastModified"] == Str(now)
    && forall key :: !IsFactoryKey(key) ==> SameKey(before, after, key)
  }

  predicate IsFactoryKey(key: string) {
    || key == "BusinessName" || key == "businessName" || key == "FactoryAddress" || key == "factoryAddress"
    || key == "ManagerName" || key == "managerName" || key == "LicenseExpiry" || key == "licenseExpiry"
    || key == "EmployeeCount" || key == "employeeCount" || key == "WorkerLimit" || key == "workerLimit"
    || key == "PowerCapacityHP" || key == "powerCapacityHP" || key == "FactoryLicenseNo" || key == "factoryLicenseNo"
    || key == "Ubid" || key == "ubid" || key == "LastModified" || key == "lastModified"
  }

  lemma OtherTextKeysKept(fields: map<string, Json>, e: Event, n: FactoryFields, key: string)
    requires !IsFactoryKey(key)
    ensures SameKey(fields, WithTexts(fields, e, n), key)
  {
  }

  lemma OtherNumeralKeysKept(fields: map<string, Json>, e: Event, n: FactoryFields, key: string)
    requires !IsFactoryKey(key)
    ensures SameKey(fields, WithNumerals(fields, e, n), key)
  {
  }

  lemma OtherStampKeysKept(fields: map<string, Json>, row: FactoryRow, now: string, key: string)
    requires !IsFactoryKey(key)
    ensures SameKey(fields, Stamped(fields, row, now), key)
  {
  }

  lemma OtherFactoryKeysKept(row: FactoryRow, e: Event, n: FactoryFields, now: string, key: string)
    requires !IsFactoryKey(key)
    ensures SameKey(row.raw.fields, FactoryRawFields(row, e, n, now), key)
  {
    var f0 := WithTexts(row.raw.fields, e, n);
    var f1 := WithNumerals(f0, e, n);
    OtherTextKeysKept(row.raw.fields, e, n, key);
    OtherNumeralKeysKept(f0, e, n, key);
    OtherStampKeysKept(f1, row, now, key);
    SameKeyIsTransitive(row.raw.fields, f0, f1, key);
    SameKeyIsTransitive(row.raw.fields, f1, Stamped(f1, row, now), key);
  }

  lemma DefaultsWritten(row: FactoryRow, e: Event, n: FactoryFields, now: string)
    ensures var before, after := row.raw.fields, FactoryRawFields(row, e, n, now);
      && DefaultsTo(before, after, "FactoryLicenseNo", row.licenseNo)
      && DefaultsTo(before, after, "factoryLicenseNo", row.licenseNo)
      && DefaultsTo(before, after, "Ubid", row.ubid) && DefaultsTo(before, after, "ubid", row.ubid)
      && "LastModified" in after && after["LastModified"] == Str(now)
      && "lastModified" in after && after["lastModified"] == Str(now)
  {
    var f0 := WithTexts(row.raw.fields, e, n);
    var f1 := WithNumerals(f0, e, n);
    DefaultsStamped(f1, row, now);
    DefaultSurvives(row.raw.fields, e, n, "FactoryLicenseNo");
    DefaultSurvives(row.raw.fields, e, n, "factoryLicenseNo");
    DefaultSurvives(row.raw.fields, e, n, "Ubid");
    DefaultSurvives(row.raw.fields, e, n, "ubid");
  }

  lemma DefaultSurvives(fields: map<string, Json>, e: Event, n: FactoryFields, key: string)
    requires key == "FactoryLicenseNo" || key == "factoryLicenseNo" || key == "Ubid" || key == "ubid"
    ensures SameKey(fields, WithNumerals(WithTexts(fields, e, n), e, n), key)
  {
    TextKeysKept(fields, e, n, key);
    NumeralKeysKept(WithTexts(fields, e, n), e, n, key);
  }

  /** The e-Surakshate write, column by column and key by key. */
  lemma FactoryWrite(row: FactoryRow, payload: FactoryPayload, e: Event, modifiedAt: int, appliedAt: int, now: string)
    ensures var after := FactoryWritten(row, payload, e, modifiedAt, appliedAt, now);
      && FactoryColumnsWritten(row, after, payload, e)
      && FactoryRawWritten(row, after.raw.fields, payload, e, now)
      && after.lastModifiedAt == modifiedAt
      && after.raw.lastPropagation
        == Some(Propagation(Some(appliedAt), Some(e.id), Some(e.source), Some(e.serviceType)))
  {
    var n := Next(payload);
    FactoryTextsAre(row, payload, e, now);
    FactoryNumeralsAre(row, payload, e, now);
    DefaultsWritten(row, e, n, now);
    forall key | !IsFactoryKey(key) ensures SameKey(row.raw.fields, FactoryRawFields(row, e, n, now), key) {
      OtherFactoryKeysKept(row, e, n, now, key);
    }
  }

  lemma FactoryTextsAre(row: FactoryRow, payload: FactoryPayload, e: Event, now: string)
    ensures FactoryTextsWritten(row.raw.fields, FactoryRawFields(row, e, Next(payload), now), payload, e)
  {
    var n, c, p := Next(payload), payload.capitalized, payload.plain;
    TextPairWritten(row, e, n, now, BusinessName, AsText(Read(c.businessName, p.businessName)),
                    "BusinessName", "businessName");
    TextPairWritten(row, e, n, now, RegisteredAddress, AsText(Read(c.factoryAddress, p.factoryAddress)),
                    "FactoryAddress", "factoryAddress");
    TextPairWritten(row, e, n, now, AuthorizedSignatory, AsText(Read(c.managerName, p.managerName)),
                    "ManagerName", "managerName");
    TextPairWritten(row, e, n, now, LicenseExpiry, AsText(Read(c.licenseExpiry, p.licenseExpiry)),
                    "LicenseExpiry", "licenseExpiry");
  }

  lemma FactoryNumeralsAre(row: FactoryRow, payload: FactoryPayload, e: Event, now: string)
    ensures FactoryNumeralsWritten(row.raw.fields, FactoryRawFields(row, e, Next(payload), now), payload, e)
  {
    var n, c, p := Next(payload), payload.capitalized, payload.plain;
    NumeralPairWritten(row, e, n, now, EmployeeCount, AsNumber(Read(c.employeeCount, p.employeeCount)),
                       "EmployeeCount", "employeeCount");
    NumeralPairWritten(row, e, n, now, WorkerLimit, AsNumber(Read(c.workerLimit, p.workerLimit)),
                       "WorkerLimit", "workerLimit");
    NumeralPairWritten(row, e, n, now, PowerCapacityHP, AsNumber(Read(c.powerCapacityHP, p.powerCapacityHP)),
                       "PowerCapacityHP", "powerCapacityHP");
  }

  // ---- What a write reports ----

  /** The order in which the fields are checked. */
  function Place(field: PayloadField): nat {
    match field
    case RegisteredAddress => 0
    case BusinessName => 1
    case AuthorizedSignatory => 2
    case EmployeeCount => 3
    case WorkerLimit => 4
    case PowerCapacityHP => 5
    case LicenseExpiry => 6
  }

  predicate InOrder(fields: seq<PayloadField>) {
    forall i, j :: 0 <= i < j < |fields| ==> Place(fields[i]) < Place(fields[j])
  }

  lemma {:induction false} UpdatedAreInOrder(e: Event, n: FactoryFields, order: seq<PayloadField>)
    requires InOrder(order)
    ensures InOrder(UpdatedFields(e, n, order))
  {
    if order == [] {
    } else {
      var rest := UpdatedFields(e, n, order[1..]);
      UpdatedAreInOrder(e, n, order[1..]);
      forall j | 0 <= j < |rest| ensures Place(order[0]) < Place(rest[j]) {
        assert rest[j] in rest && rest[j] in order[1..];
      }
    }
  }

  lemma OrderIsChecked()
    ensures InOrder(FIELD_ORDER)
  {
  }

  lemma EveryFieldIsChecked(field: PayloadField)
    ensures field in FIELD_ORDER
  {
    assert FIELD_ORDER[Place(field)] == field;
  }

  lemma ReportedIff(e: Event, n: FactoryFields, field: PayloadField)
    ensures field in UpdatedFields(e, n, FIELD_ORDER) <==> field in e.changedFields && HasNext(n, field)
  {
    EveryFieldIsChecked(field);
  }

  /** The payload gives a value for the field, under one of its keys. */
  predicate FactoryGives(payload: FactoryPayload, field: PayloadField) {
    var c, p := payload.capitalized, payload.plain;
    match field
    case RegisteredAddress => c.factoryAddress.Some? || p.factoryAddress.Some?
    case BusinessName => c.businessName.Some? || p.businessName.Some?
    case AuthorizedSignatory => c.managerName.Some? || p.managerName.Some?
    case EmployeeCount => c.employeeCount.Some? || p.employeeCount.Some?
    case WorkerLimit => c.workerLimit.Some? || p.workerLimit.Some?
    case PowerCapacityHP => c.powerCapacityHP.Some? || p.powerCapacityHP.Some?
    case LicenseExpiry => c.licenseExpiry.Some? || p.licenseExpiry.Some?
  }

  lemma FactoryHasNext(payload: FactoryPayload, field: PayloadField)
    ensures HasNext(Next(payload), field) <==> FactoryGives(payload, field)
  {
  }

  /** The e-Surakshate write reports the changed fields that the payload gives, in the order of the checks. */
  lemma FactoryFieldsReported(payload: FactoryPayload, e: Event)
    ensures var reported := UpdatedFields(e, Next(payload), FIELD_ORDER);
      InOrder(reported) && forall f :: f in reported <==> f in e.changedFields && FactoryGives(payload, f)
  {
    OrderIsChecked();
    UpdatedAreInOrder(e, Next(payload), FIELD_ORDER);
    forall f
      ensures f in UpdatedFields(e, Next(payload), FIELD_ORDER) <==> f in e.changedFields && FactoryGives(payload, f)
    {
      ReportedIff(e, Next(payload), f);
      FactoryHasNext(payload, f);
    }
  }

  // ---- The e-Karmika write ----

  /** The columns of the row; the business name is read from employerName first. */
  ghost predicate LabourColumnsWritten(row: LabourRow, after: LabourRow, p: LabourPayload, e: Event) {
    && after.ubid == row.ubid && after.labourRegNo == row.labourRegNo
    && Takes(e, BusinessName, Read(p.employerName, p.businessName), Some(row.businessName), Some(after.businessName))
    && Takes(e, RegisteredAddress, p.addressFull, row.addressFull, after.addressFull)
    && Takes(e, AuthorizedSignatory, p.managerName, row.managerName, after.managerName)
    && Takes(e, EmployeeCount, p.employeeCount, row.employeeCount, after.employeeCount)
    && Takes(e, WorkerLimit, p.workerLimit, row.workerLimit, after.workerLimit)
    && Takes(e, PowerCapacityHP, p.powerCapacityHP, row.powerCapacityHP, after.powerCapacityHP)
  }

  /** And its raw payload: the business name under both names, the others under their own, and the rest stays. */
  ghost predicate LabourRawWritten(before: map<string, Json>, after: map<string, Json>, p: LabourPayload, e: Event) {
    && WritesKeys(e, BusinessName, AsText(Read(p.employerName, p.businessName)), before, after,
                  "businessName", "employerName")
    && WritesKeys(e, RegisteredAddress, AsText(p.addressFull), before, after, "addressFull", "addressFull")
    && WritesKeys(e, AuthorizedSignatory, AsText(p.managerName), before, after, "managerName", "managerName")
    && WritesKeys(e, EmployeeCount, AsNumber(p.employeeCount), before, after, "employeeCount", "employeeCount")
    && WritesKeys(e, WorkerLimit, AsNumber(p.workerLimit), before, after, "workerLimit", "workerLimit")
    && WritesKeys(e, PowerCapacityHP, AsNumber(p.powerCapacityHP), before, after,
                  "powerCapacityHP", "powerCapacityHP")
    && forall key :: !IsLabourKey(key) ==> SameKey(before, after, key)
  }

  predicate IsLabourKey(key: string) {
    || key == "businessName" || key == "employerName" || key == "addressFull" || key == "managerName"
    || key == "employeeCount" || key == "workerLimit" || key == "powerCapacityHP"
  }

  lemma LabourNameWritten(row: LabourRow, p: LabourPayload, e: Event)
    ensures WritesKeys(e, BusinessName, AsText(Read(p.employerName, p.businessName)),
                       row.raw.fields, LabourRawFields(row, e, p), "businessName", "employerName")
  {
  }

  lemma LabourTextsWritten(row: LabourRow, p: LabourPayload, e: Event)
    ensures var before, after := row.raw.fields, LabourRawFields(row, e, p);
      && WritesKeys(e, RegisteredAddress, AsText(p.addressFull), before, after, "addressFull", "addressFull")
      && WritesKeys(e, AuthorizedSignatory, AsText(p.managerName), before, after, "managerName", "managerName")
  {
  }

  lemma LabourNumeralsWritten(row: LabourRow, p: LabourPayload, e: Event)
    ensures var before, after := row.raw.fields, LabourRawFields(row, e, p);
      && WritesKeys(e, EmployeeCount, AsNumber(p.employeeCount), before, after, "employeeCount", "employeeCount")
      && WritesKeys(e, WorkerLimit, AsNumber(p.workerLimit), before, after, "workerLimit", "workerLimit")
      && WritesKeys(e, PowerCapacityHP, AsNumber(p.powerCapacityHP), before, after,
                    "powerCapacityHP", "powerCapacityHP")
  {
  }

  lemma OtherLabourKeysKept(row: LabourRow, p: LabourPayload, e: Event, key: string)
    requires !IsLabourKey(key)
    ensures SameKey(row.raw.fields, LabourRawFields(row, e, p), key)
  {
  }

  /** The e-Karmika write, column by column and key by key. */
  lemma LabourWrite(row: LabourRow, p: LabourPayload, e: Event, modifiedAt: int, appliedAt: int)
    ensures var after := LabourWritten(row, p, e, modifiedAt, appliedAt);
      && LabourColumnsWritten(row, after, p, e)
      && LabourRawWritten(row.raw.fields, after.raw.fields, p, e)
      && after.lastModifiedAt == modifiedAt
      && after.raw.lastPropagation
        == Some(Propagation(Some(appliedAt), Some(e.id), Some(e.source), Some(e.serviceType)))
  {
    LabourNameWritten(row, p, e);
    LabourTextsWritten(row, p, e);
    LabourNumeralsWritten(row, p, e);
    forall key | !IsLabourKey(key) ensures SameKey(row.raw.fields, LabourRawFields(row, e, p), key) {
      OtherLabourKeysKept(row, p, e, key);
    }
  }

  predicate LabourGives(p: LabourPayload, field: PayloadField) {
    match field
    case RegisteredAddress => p.addressFull.Some?
    case BusinessName => p.employerName.Some? || p.businessName.Some?
    case AuthorizedSignatory => p.managerName.Some?
    case EmployeeCount => p.employeeCount.Some?
    case WorkerLimit => p.workerLimit.Some?
    case PowerCapacityHP => p.powerCapacityHP.Some?
    case LicenseExpiry => false
  }

  lemma LabourHasNext(p: LabourPayload, field: PayloadField)
    ensures HasNext(LabourFields(p), field) <==> LabourGives(p, field)
  {
  }

  /** The e-Karmika write reports them in the same order; it has no license expiry. */
  lemma LabourFieldsReported(p: LabourPayload, e: Event)
    ensures var reported := UpdatedFields(e, LabourFields(p), FIELD_ORDER);
      InOrder(reported) && forall f :: f in reported <==> f in e.changedFields && LabourGives(p, f)
  {
    OrderIsChecked();
    UpdatedAreInOrder(e, LabourFields(p), FIELD_ORDER);
    forall f
      ensures f in UpdatedFields(e, LabourFields(p), FIELD_ORDER) <==> f in e.changedFields && LabourGives(p, f)
    {
      ReportedIff(e, LabourFields(p), f);
      LabourHasNext(p, f);
    }
  }

  // ---- What polling reads back ----

  /** The record of an e-Surakshate row: its columns, and the raw license expiry in either spelling. */
  lemma FactoryRecord(row: FactoryRow)
    ensures row.licenseNo == "" <==> NormalizeFactory(row).None?
    ensures row.licenseNo != "" ==>
      var r := NormalizeFactory(row).value;
      && r.system == ESURAKSHATE && r.ubid == row.ubid && r.localIdentifier == row.licenseNo
      && r.lastModifiedAt == row.lastModifiedAt && r.propagation == row.raw.lastPropagation
      && Diff.Get(r.snapshot, Diff.FACTORY_ADDRESS) == AsText(row.factoryAddress)
      && Diff.Get(r.snapshot, Diff.MANAGER_NAME) == AsText(row.managerName)
      && Diff.Get(r.snapshot, Diff.POWER_CAPACITY_HP) == AsNumber(row.powerCapacityHP)
      && Diff.Get(r.snapshot, Diff.WORKER_LIMIT) == AsNumber(row.workerLimit)
      && Diff.Get(r.snapshot, Diff.LICENSE_EXPIRY)
        == Read(TextAt(row.raw, "licenseExpiry"), TextAt(row.raw, "LicenseExpiry"))
      && r.snapshot.Keys <= {Diff.FACTORY_ADDRESS, Diff.MANAGER_NAME, Diff.POWER_CAPACITY_HP, Diff.WORKER_LIMIT,
                             Diff.LICENSE_EXPIRY}
  {
  }

  /** The string under a raw key, if there is one. */
  function TextAt(raw: Raw, key: string): Option<Json> {
    if key in raw.fields && raw.fields[key].Str? then Some(raw.fields[key]) else None
  }

  /** The record of an e-Karmika row: a raw employerName, if it is a string, stands in for the manager. */
  lemma LabourRecord(row: LabourRow)
    ensures row.labourRegNo == "" <==> NormalizeLabour(row).None?
    ensures row.labourRegNo != "" ==>
      var r := NormalizeLabour(row).value;
      && r.system == EKARMIKA && r.ubid == row.ubid && r.localIdentifier == row.labourRegNo
      && r.lastModifiedAt == row.lastModifiedAt && r.propagation == row.raw.lastPropagation
      && Diff.Get(r.snapshot, Diff.ADDRESS_FULL) == AsText(row.addressFull)
      && Diff.Get(r.snapshot, Diff.EMPLOYEE_COUNT) == AsNumber(row.employeeCount)
      && Diff.Get(r.snapshot, Diff.EMPLOYER_NAME) == Read(TextAt(row.raw, "employerName"), AsText(row.managerName))
      && r.snapshot.Keys <= {Diff.ADDRESS_FULL, Diff.EMPLOYEE_COUNT, Diff.EMPLOYER_NAME}
  {
  }
}
