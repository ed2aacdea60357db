/** Where an event goes: the routing table and the UBID registry. */
module Routing {
  import opened Domain

  datatype ResolutionStatus = ROUTABLE | NEEDS_REGISTRATION | MAPPING_MISSING

  datatype Resolution = Resolution(
    target: SystemName, status: ResolutionStatus, localIdentifier: string, localIdentifierType: string)

  /** A registry row; the registry is listed in the order the lookup returns it. */
  datatype Mapping = Mapping(
    ubid: string, system: SystemName, localIdentifierType: string, localIdentifier: string, isActive: bool)

  type Registry = seq<Mapping>

  function RuleTargets(source: SystemName, service: ServiceType): seq<SystemName> {
    match (source, service)
    case (SWS, REGISTERED_ADDRESS_CHANGE) => [EKARMIKA, ESURAKSHATE]
    case (SWS, AUTHORIZED_SIGNATORY_CHANGE) => [EKARMIKA, ESURAKSHATE]
    case (EKARMIKA, EMPLOYEE_COUNT_CHANGE) => [SWS]
    case (ESURAKSHATE, AUTHORIZED_SIGNATORY_CHANGE) => [SWS]
    case (ESURAKSHATE, LICENSE_EXPIRY_CHANGE) => [SWS]
    case _ => []
  }

  function Without(targets: seq<SystemName>, source: SystemName): (kept: seq<SystemName>)
    ensures source !in kept
    ensures forall t :: t in kept ==> t in targets
    ensures forall t :: t in targets && t != source ==> t in kept
  {
    if targets == [] then []
    else
      var rest := Without(targets[1..], source);
      if targets[0] == source then rest else [targets[0]] + rest
  }

  /** The first active row of the system, as Array.find returns it. */
  function FindMapping(registry: Registry, ubid: string, system: SystemName): (found: Option<Mapping>)
    ensures found.Some? ==>
      found.value in registry && found.value.ubid == ubid && found.value.system == system && found.value.isActive
    ensures found.None? ==> forall m :: m in registry ==> !(m.ubid == ubid && m.system == system && m.isActive)
  {
    if registry == [] then None
    else if registry[0].ubid == ubid && registry[0].system == system && registry[0].isActive
    then Some(registry[0])
    else FindMapping(registry[1..], ubid, system)
  }

  function ResolveTarget(registry: Registry, ubid: string, target: SystemName): (r: Resolution)
    ensures r.target == target
    ensures r.status == ROUTABLE ==> r.localIdentifier != ""
  {
    match FindMapping(registry, ubid, target)
    case None => Resolution(target, NEEDS_REGISTRATION, "", "")
    case Some(m) =>
      if m.localIdentifier == "" then Resolution(target, MAPPING_MISSING, "", m.localIdentifierType)
      else Resolution(target, ROUTABLE, m.localIdentifier, m.localIdentifierType)
  }

  function ResolveTargets(registry: Registry, ubid: string, source: SystemName, service: ServiceType)
    : (rs: seq<Resolution>)
    ensures |rs| == |Without(RuleTargets(source, service), source)|
  {
    var targets := Without(RuleTargets(source, service), source);
    seq(|targets|, i requires 0 <= i < |targets| => ResolveTarget(registry, ubid, targets[i]))
  }

  function Routable(rs: seq<Resolution>): (targets: seq<Resolution>)
    ensures forall r :: r in targets <==> r in rs && r.status == ROUTABLE && r.localIdentifier != ""
  {
    if rs == [] then []
    else if rs[0].status == ROUTABLE && rs[0].localIdentifier != "" then [rs[0]] + Routable(rs[1..])
    else Routable(rs[1..])
  }

  function RoutingTargets(registry: Registry, e: Event): seq<Resolution> {
    Routable(ResolveTargets(registry, e.ubid, e.source, e.serviceType))
  }

  /** deriveRoutingStatus */
  function RoutingStatus(registry: Registry, e: Event): (status: EventStatus)
    ensures status in {ROUTED, TARGET_NOT_APPLICABLE, TARGET_MAPPING_MISSING, REGISTRATION_REQUIRED}
  {
    var rs := ResolveTargets(registry, e.ubid, e.source, e.serviceType);
    if Routable(rs) != [] then ROUTED
    else if Without(RuleTargets(e.source, e.serviceType), e.source) == [] then TARGET_NOT_APPLICABLE
    else if exists r :: r in rs && r.status == MAPPING_MISSING then TARGET_MAPPING_MISSING
    else if exists r :: r in rs && r.status == NEEDS_REGISTRATION then REGISTRATION_REQUIRED
    else TARGET_NOT_APPLICABLE
  }

  /** The targets a write job is queued for: those with an identifier and an identifier type. */
  function JobTargets(registry: Registry, e: Event): set<SystemName> {
    set r | r in RoutingTargets(registry, e) && r.localIdentifierType != "" :: r.target
  }

  /** resolveTargetOrThrow succeeds. */
  predicate Resolves(registry: Registry, e: Event, target: SystemName) {
    exists r :: r in ResolveTargets(registry, e.ubid, e.source, e.serviceType)
      && r.target == target && r.status == ROUTABLE
      && r.localIdentifier != "" && r.localIdentifierType != ""
  }

  /** A job is queued for a target exactly when, with the same registry, a worker would resolve it. */
  lemma QueuedTargetsResolve(registry: Registry, e: Event, target: SystemName)
    ensures target in JobTargets(registry, e) <==> Resolves(registry, e, target)
  {
    if target in JobTargets(registry, e) {
      var r :| r in RoutingTargets(registry, e) && r.localIdentifierType != "" && r.target == target;
      assert r in ResolveTargets(registry, e.ubid, e.source, e.serviceType);
    }
    if Resolves(registry, e, target) {
      var r :| r in ResolveTargets(registry, e.ubid, e.source, e.serviceType)
        && r.target == target && r.status == ROUTABLE
        && r.localIdentifier != "" && r.localIdentifierType != "";
      assert r in RoutingTargets(registry, e);
    }
  }

  // ---- Only the rows of the event's own UBID matter ----

  function RowsOf(registry: Registry, ubid: string): (rows: Registry)
    ensures forall m :: m in rows <==> m in registry && m.ubid == ubid
  {
    if registry == [] then []
    else if registry[0].ubid == ubid then [registry[0]] + RowsOf(registry[1..], ubid)
    else RowsOf(registry[1..], ubid)
  }

  lemma {:induction false} FoundAmongOwnRows(registry: Registry, ubid: string, system: SystemName)
    ensures FindMapping(registry, ubid, system) == FindMapping(RowsOf(registry, ubid), ubid, system)
  {
    if registry == [] {
    } else {
      FoundAmongOwnRows(registry[1..], ubid, system);
      if registry[0].ubid == ubid {
        assert RowsOf(registry, ubid)[1..] == RowsOf(registry[1..], ubid);
      }
    }
  }

  /** Two registries with the same rows for the event's UBID resolve the same targets. */
  lemma OwnRowsDecide(left: Registry, right: Registry, e: Event, target: SystemName)
    requires RowsOf(left, e.ubid) == RowsOf(right, e.ubid)
    ensures Resolves(left, e, target) == Resolves(right, e, target)
  {
    forall t: SystemName ensures ResolveTarget(left, e.ubid, t) == ResolveTarget(right, e.ubid, t) {
      FoundAmongOwnRows(left, e.ubid, t);
      FoundAmongOwnRows(right, e.ubid, t);
    }
    assert ResolveTargets(left, e.ubid, e.source, e.serviceType)
      == ResolveTargets(right, e.ubid, e.source, e.serviceType);
  }

  /** The source's own system is never a target, and no target is queued twice. */
  lemma NeverBackToTheSource(registry: Registry, e: Event)
    ensures e.source !in JobTargets(registry, e)
    ensures JobTargets(registry, e) <= (set t | t in RuleTargets(e.source, e.serviceType))
  {
    var targets := Without(RuleTargets(e.source, e.serviceType), e.source);
    var rs := ResolveTargets(registry, e.ubid, e.source, e.serviceType);
    forall r | r in rs ensures r.target in targets {
      var i :| 0 <= i < |rs| && rs[i] == r;
      assert r.target == targets[i];
    }
  }

  function Targets(e: Event): seq<SystemName> { Without(RuleTargets(e.source, e.serviceType), e.source) }

  predicate Registered(registry: Registry, e: Event, target: SystemName) {
    FindMapping(registry, e.ubid, target).Some?
  }

  predicate Mapped(registry: Registry, e: Event, target: SystemName) {
    Registered(registry, e, target) && FindMapping(registry, e.ubid, target).value.localIdentifier != ""
  }

  lemma ResolutionOf(registry: Registry, e: Event, target: SystemName)
    requires target in Targets(e)
    ensures ResolveTarget(registry, e.ubid, target) in ResolveTargets(registry, e.ubid, e.source, e.serviceType)
  {
    var rs := ResolveTargets(registry, e.ubid, e.source, e.serviceType);
    var i :| 0 <= i < |Targets(e)| && Targets(e)[i] == target;
    assert rs[i] == ResolveTarget(registry, e.ubid, target);
  }

  lemma ResolutionsAreOfTargets(registry: Registry, e: Event, r: Resolution)
    requires r in ResolveTargets(registry, e.ubid, e.source, e.serviceType)
    ensures r.target in Targets(e) && r == ResolveTarget(registry, e.ubid, r.target)
  {
    var rs := ResolveTargets(registry, e.ubid, e.source, e.serviceType);
    var i :| 0 <= i < |rs| && rs[i] == r;
    assert r == ResolveTarget(registry, e.ubid, Targets(e)[i]);
  }

  /** The routing status in terms of the registry: what is mapped, registered or missing. */
  lemma StatusExplainsRouting(registry: Registry, e: Event)
    ensures RoutingStatus(registry, e) == ROUTED <==> exists t :: t in Targets(e) && Mapped(registry, e, t)
    ensures RoutingStatus(registry, e) == TARGET_NOT_APPLICABLE <==> Targets(e) == []
    ensures RoutingStatus(registry, e) == REGISTRATION_REQUIRED <==>
      Targets(e) != [] && forall t :: t in Targets(e) ==> !Registered(registry, e, t)
  {
    var rs := ResolveTargets(registry, e.ubid, e.source, e.serviceType);
    forall t | t in Targets(e) ensures ResolveTarget(registry, e.ubid, t) in rs {
      ResolutionOf(registry, e, t);
    }
    forall r | r in rs ensures r.target in Targets(e) && r == ResolveTarget(registry, e.ubid, r.target) {
      ResolutionsAreOfTargets(registry, e, r);
    }
    if Targets(e) != [] { assert Targets(e)[0] in Targets(e); }
    if Routable(rs) != [] { assert Routable(rs)[0] in Routable(rs); }
  }
}
