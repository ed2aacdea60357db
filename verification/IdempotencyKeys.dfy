/** The two idempotency key encoders, as strings, and exactly when their outputs can collide. */
module IdempotencyKeys {
  import opened Domain
  import CanonicalJson
  import JsonText

  /** Primary is absent when the request carries no sourceRequestId. */
  datatype Keys = Keys(primary: Option<string>, fallback: string)

  function SystemText(system: SystemName): (text: string)
    ensures ':' !in text && text != ""
  {
    match system
    case SWS => "SWS"
    case EKARMIKA => "EKARMIKA"
    case ESURAKSHATE => "ESURAKSHATE"
    case KSYNC => "KSYNC"
  }

  function ServiceText(service: ServiceType): (text: string)
    ensures ':' !in text && text != ""
  {
    match service
    case REGISTERED_ADDRESS_CHANGE => "REGISTERED_ADDRESS_CHANGE"
    case AUTHORIZED_SIGNATORY_CHANGE => "AUTHORIZED_SIGNATORY_CHANGE"
    case EMPLOYEE_COUNT_CHANGE => "EMPLOYEE_COUNT_CHANGE"
    case LICENSE_EXPIRY_CHANGE => "LICENSE_EXPIRY_CHANGE"
    case POWER_CAPACITY_CHANGE => "POWER_CAPACITY_CHANGE"
  }

  function PrimaryKey(system: SystemName, requestId: string): string {
    SystemText(system) + ":" + requestId
  }

  function FallbackKey(system: SystemName, ubid: string, service: ServiceType, hash: string): string {
    SystemText(system) + ":" + ubid + ":" + ServiceText(service) + ":" + hash
  }

  /** The empty request id is falsy, so it yields no primary key either. */
  function BuildKeys(e: Event): Keys {
    Keys(if e.requestId.Some? && e.requestId.value != "" then Some(PrimaryKey(e.source, e.requestId.value)) else None,
         FallbackKey(e.source, e.ubid, e.serviceType, e.payloadHash))
  }

  /** Two requests with a key in common: the table would not hold a row for each. */
  predicate Overlap(a: Keys, b: Keys) {
    a.fallback == b.fallback || (a.primary.Some? && a.primary == b.primary)
  }

  /** The Redis keys of a request: both kinds share one key space there. */
  function KeyStrings(k: Keys): set<string> {
    (if k.primary.Some? then {k.primary.value} else {}) + {k.fallback}
  }

  predicate Share(a: Keys, b: Keys) {
    exists key :: key in KeyStrings(a) && key in KeyStrings(b)
  }

  /** The length of the longest colon-free prefix. */
  function UpToColon(s: string): nat {
    if s == "" || s[0] == ':' then 0 else 1 + UpToColon(s[1..])
  }

  lemma {:induction false} UpToColonOf(a: string, rest: string)
    requires ':' !in a
    ensures UpToColon(a + ":" + rest) == |a|
  {
    if a == "" {
    } else {
      assert (a + ":" + rest)[1..] == a[1..] + ":" + rest;
      UpToColonOf(a[1..], rest);
    }
  }

  lemma SplitAtColon(a: string, rest: string, b: string, other: string)
    requires ':' !in a && ':' !in b
    requires a + ":" + rest == b + ":" + other
    ensures a == b && rest == other
  {
    UpToColonOf(a, rest);
    UpToColonOf(b, other);
    var s, t := a + ":" + rest, b + ":" + other;
    assert a == s[..|a|] == t[..|b|] == b;
    assert rest == s[|a| + 1..] == t[|b| + 1..] == other;
  }

  lemma SystemTextIsInjective(a: SystemName, b: SystemName)
    ensures SystemText(a) == SystemText(b) <==> a == b
  {
    if SystemText(a) == SystemText(b) { assert SystemText(a)[1] == SystemText(b)[1]; }
  }

  lemma ServiceTextIsInjective(a: ServiceType, b: ServiceType)
    ensures ServiceText(a) == ServiceText(b) <==> a == b
  {
    if ServiceText(a) == ServiceText(b) { assert ServiceText(a)[0] == ServiceText(b)[0]; }
  }

  lemma PrimaryKeyIsInjective(a: SystemName, r: string, b: SystemName, s: string)
    ensures PrimaryKey(a, r) == PrimaryKey(b, s) <==> a == b && r == s
  {
    SystemTextIsInjective(a, b);
    if PrimaryKey(a, r) == PrimaryKey(b, s) { SplitAtColon(SystemText(a), r, SystemText(b), s); }
  }

  function FallbackTail(ubid: string, service: ServiceType, hash: string): string {
    ubid + ":" + (ServiceText(service) + ":" + hash)
  }

  lemma FallbackByParts(system: SystemName, ubid: string, service: ServiceType, hash: string)
    ensures FallbackKey(system, ubid, service, hash)
      == SystemText(system) + ":" + FallbackTail(ubid, service, hash)
  {
  }

  /** The fallback key determines its four parts as long as UBIDs hold no colon. */
  lemma FallbackKeyIsInjective(
    a: SystemName, u: string, p: ServiceType, h: string, b: SystemName, v: string, q: ServiceType, k: string)
    requires ':' !in u && ':' !in v
    ensures FallbackKey(a, u, p, h) == FallbackKey(b, v, q, k) <==> a == b && u == v && p == q && h == k
  {
    FallbackByParts(a, u, p, h);
    FallbackByParts(b, v, q, k);
    SystemTextIsInjective(a, b);
    ServiceTextIsInjective(p, q);
    if FallbackKey(a, u, p, h) == FallbackKey(b, v, q, k) {
      SplitAtColon(SystemText(a), FallbackTail(u, p, h), SystemText(b), FallbackTail(v, q, k));
      SplitAtColon(u, ServiceText(p) + ":" + h, v, ServiceText(q) + ":" + k);
      SplitAtColon(ServiceText(p), h, ServiceText(q), k);
    }
  }

  /** The event's payload hash is the digest of this payload's canonical text. */
  ghost predicate Digests(e: Event, payload: CanonicalJson.Json, digest: string -> string) {
    && CanonicalJson.Proper(payload) && JsonText.HasNumbers(payload)
    && e.payloadHash == digest(JsonText.CanonicalText(payload))
  }

  /**
   * Requests share a fallback key exactly if they come from one system, concern one UBID and one service,
   * and their payloads mean the same, whatever the order of their members.
   */
  lemma FallbackKeyDecidesTheRequest(
    digest: string -> string, a: Event, v: CanonicalJson.Json, b: Event, w: CanonicalJson.Json)
    requires forall x, y :: digest(x) == digest(y) ==> x == y
    requires Digests(a, v, digest) && Digests(b, w, digest)
    requires ':' !in a.ubid && ':' !in b.ubid
    ensures BuildKeys(a).fallback == BuildKeys(b).fallback <==>
      a.source == b.source && a.ubid == b.ubid && a.serviceType == b.serviceType && CanonicalJson.SameMeaning(v, w)
  {
    FallbackKeyIsInjective(a.source, a.ubid, a.serviceType, a.payloadHash,
                           b.source, b.ubid, b.serviceType, b.payloadHash);
    JsonText.DigestDecidesMeaning(digest, v, w);
  }

  /** A primary key is some fallback key exactly when its request id spells out ubid:service:hash. */
  lemma KeySpacesMeet(a: SystemName, requestId: string, b: SystemName, ubid: string, service: ServiceType, hash: string)
    ensures PrimaryKey(a, requestId) == FallbackKey(b, ubid, service, hash) <==>
      a == b && requestId == FallbackTail(ubid, service, hash)
  {
    FallbackByParts(b, ubid, service, hash);
    SystemTextIsInjective(a, b);
    if PrimaryKey(a, requestId) == FallbackKey(b, ubid, service, hash) {
      SplitAtColon(SystemText(a), requestId, SystemText(b), FallbackTail(ubid, service, hash));
    }
  }

  /** Colon-free request ids therefore never reach the fallback key space. */
  lemma ColonFreeIdsStayApart(a: SystemName, requestId: string, e: Event)
    requires ':' !in requestId
    ensures PrimaryKey(a, requestId) != BuildKeys(e).fallback
  {
    KeySpacesMeet(a, requestId, e.source, e.ubid, e.serviceType, e.payloadHash);
    assert FallbackTail(e.ubid, e.serviceType, e.payloadHash)[|e.ubid|] == ':';
  }

  /** Keys of two systems never meet: both kinds begin with the system's name. */
  lemma SystemsShareNoKey(a: Event, b: Event)
    requires a.source != b.source
    ensures !Share(BuildKeys(a), BuildKeys(b))
  {
    forall key | key in KeyStrings(BuildKeys(a)) && key in KeyStrings(BuildKeys(b)) ensures false {
      var rest := KeyOfSystem(a, key);
      var other := KeyOfSystem(b, key);
      SplitAtColon(SystemText(a.source), rest, SystemText(b.source), other);
      SystemTextIsInjective(a.source, b.source);
    }
  }

  lemma KeyOfSystem(e: Event, key: string) returns (rest: string)
    requires key in KeyStrings(BuildKeys(e))
    ensures key == SystemText(e.source) + ":" + rest
  {
    if key == BuildKeys(e).fallback {
      rest := FallbackTail(e.ubid, e.serviceType, e.payloadHash);
      FallbackByParts(e.source, e.ubid, e.serviceType, e.payloadHash);
    } else {
      rest := e.requestId.value;
    }
  }

  /** The keys of a request, spelled out. */
  lemma KeysSpelledOut(e: Event)
    ensures SystemText(SWS) == "SWS" && SystemText(EKARMIKA) == "EKARMIKA" && SystemText(ESURAKSHATE) == "ESURAKSHATE"
    ensures ServiceText(REGISTERED_ADDRESS_CHANGE) == "REGISTERED_ADDRESS_CHANGE"
    ensures ServiceText(AUTHORIZED_SIGNATORY_CHANGE) == "AUTHORIZED_SIGNATORY_CHANGE"
    ensures ServiceText(EMPLOYEE_COUNT_CHANGE) == "EMPLOYEE_COUNT_CHANGE"
    ensures ServiceText(LICENSE_EXPIRY_CHANGE) == "LICENSE_EXPIRY_CHANGE"
    ensures ServiceText(POWER_CAPACITY_CHANGE) == "POWER_CAPACITY_CHANGE"
    ensures BuildKeys(e).fallback
      == SystemText(e.source) + ":" + e.ubid + ":" + ServiceText(e.serviceType) + ":" + e.payloadHash
    ensures BuildKeys(e).primary == match e.requestId
      case Some(id) => (if id == "" then None else Some(SystemText(e.source) + ":" + id))
      case None => None
  {
  }
}
