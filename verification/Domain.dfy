/** The vocabulary shared by every module: systems, statuses, payload fields and canonical events. */
module Domain {

  datatype Option<+T> = None | Some(value: T)

  function Min(a: int, b: int): int { if a <= b then a else b }
  function Max(a: int, b: int): int { if a >= b then a else b }
  function Abs(x: int): nat { if x < 0 then -x else x }

  datatype SystemName = SWS | EKARMIKA | ESURAKSHATE | KSYNC

  datatype ServiceType =
    | REGISTERED_ADDRESS_CHANGE
    | AUTHORIZED_SIGNATORY_CHANGE
    | EMPLOYEE_COUNT_CHANGE
    | LICENSE_EXPIRY_CHANGE
    | POWER_CAPACITY_CHANGE

  /** The statuses the backend writes on a canonical event. */
  datatype EventStatus =
    | RECEIVED
    | IDEMPOTENCY_ACCEPTED
    | DUPLICATE_DETECTED
    | CONFLICT_CHECKED
    | CONFLICT_RESOLVED
    | MANUAL_REVIEW_REQUIRED
    | SUPERSEDED
    | ROUTED
    | QUEUED
    | TARGET_NOT_APPLICABLE
    | REGISTRATION_REQUIRED
    | TARGET_MAPPING_MISSING
    | TRANSLATED
    | WRITE_ATTEMPTED
    | WRITE_SUCCEEDED
    | WRITE_FAILED
    | RETRY_SCHEDULED
    | DLQ_MOVED
    | FAILED
    | COMPLETED

  datatype PayloadField =
    | BusinessName
    | RegisteredAddress
    | AuthorizedSignatory
    | EmployeeCount
    | WorkerLimit
    | PowerCapacityHP
    | LicenseExpiry

  datatype FieldPath =
    | BusinessNamePath
    | RegisteredAddressPath
    | SignatoryNamePath
    | EmployeeCountPath
    | WorkerLimitPath
    | PowerCapacityPath
    | LicenseExpiryPath

  /** nanoid identifiers: fresh names, compared only for equality. */
  type EventId = nat

  /** The columns of a canonical event that never change after it is created. */
  datatype Event = Event(
    id: EventId,
    correlationId: string,
    source: SystemName,
    requestId: Option<string>,
    ubid: string,
    serviceType: ServiceType,
    changedFields: seq<PayloadField>,
    payloadHash: string,
    receivedAt: int)

  datatype RoutedTarget = RoutedTarget(localIdentifier: string, system: SystemName)

  /** The response of an ingest call. */
  datatype Answer = Answer(
    correlationId: string, duplicate: bool, eventId: EventId, payloadHash: string,
    status: EventStatus, targets: seq<RoutedTarget>)

  function PathOf(field: PayloadField): FieldPath {
    match field
    case BusinessName => BusinessNamePath
    case RegisteredAddress => RegisteredAddressPath
    case AuthorizedSignatory => SignatoryNamePath
    case EmployeeCount => EmployeeCountPath
    case WorkerLimit => WorkerLimitPath
    case PowerCapacityHP => PowerCapacityPath
    case LicenseExpiry => LicenseExpiryPath
  }

  /** The field paths an event touches, as a set. */
  function Paths(e: Event): set<FieldPath> {
    set field | field in e.changedFields :: PathOf(field)
  }

  ghost predicate Distinct<T>(s: seq<T>) {
    forall i, j :: 0 <= i < j < |s| ==> s[i] != s[j]
  }

  /** Array.from(new Set(...)): the first occurrences, in order. */
  function FieldPathsOf(fields: seq<PayloadField>): (paths: seq<FieldPath>)
    ensures Distinct(paths)
    ensures forall path :: path in paths <==> exists field :: field in fields && PathOf(field) == path
  {
    if fields == [] then []
    else
      var last := PathOf(fields[|fields| - 1]);
      var front := FieldPathsOf(fields[..|fields| - 1]);
      assert forall field :: field in fields <==> field in fields[..|fields| - 1] || field == fields[|fields| - 1];
      if last in front then front else front + [last]
  }

  lemma PathsOfEvent(e: Event)
    ensures Distinct(FieldPathsOf(e.changedFields))
    ensures Paths(e) == set path | path in FieldPathsOf(e.changedFields)
  {
  }

  /** Different fields have different paths. */
  lemma PathsTellFieldsApart(a: PayloadField, b: PayloadField)
    ensures PathOf(a) == PathOf(b) <==> a == b
  {
  }
}
