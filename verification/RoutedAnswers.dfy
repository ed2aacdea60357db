/** What an ingest that is not withheld answers and stores, in terms of the registry's rows. */
module RoutedAnswers {
  import opened Domain
  import opened Conflicts
  import opened ConflictSafety
  import opened Supersessions
  import opened Delivery
  import opened Ksync
  import opened SystemRuns
  import opened RunSafety
  import opened Routing
  import ConflictTables

  // ---- The routing table and the registry, row by row ----

  /** The system takes changes of this service from that source. */
  predicate Takes(target: SystemName, source: SystemName, service: ServiceType) {
    || (source == SWS && target in {EKARMIKA, ESURAKSHATE}
        && service in {REGISTERED_ADDRESS_CHANGE, AUTHORIZED_SIGNATORY_CHANGE})
    || (source == EKARMIKA && target == SWS && service == EMPLOYEE_COUNT_CHANGE)
    || (source == ESURAKSHATE && target == SWS
        && service in {AUTHORIZED_SIGNATORY_CHANGE, LICENSE_EXPIRY_CHANGE})
  }

  predicate HasTarget(e: Event, target: SystemName) { Takes(target, e.source, e.serviceType) }

  predicate Active(m: Mapping, ubid: string, system: SystemName) {
    m.ubid == ubid && m.system == system && m.isActive
  }

  /** The i-th row is the first active one of the UBID and system. */
  predicate FirstActive(registry: Registry, ubid: string, system: SystemName, i: nat) {
    && i < |registry| && Active(registry[i], ubid, system)
    && forall j :: 0 <= j < i ==> !Active(registry[j], ubid, system)
  }

  predicate NoneActive(registry: Registry, ubid: string, system: SystemName) {
    forall j :: 0 <= j < |registry| ==> !Active(registry[j], ubid, system)
  }

  /** The target's first active row has an identifier. */
  ghost predicate Identifies(registry: Registry, e: Event, target: SystemName) {
    exists i: nat :: FirstActive(registry, e.ubid, target, i) && registry[i].localIdentifier != ""
  }

  /** And an identifier type, so that a job can be queued for it. */
  ghost predicate CanQueue(registry: Registry, e: Event, target: SystemName) {
    exists i: nat :: FirstActive(registry, e.ubid, target, i)
      && registry[i].localIdentifier != "" && registry[i].localIdentifierType != ""
  }

  lemma TargetsByTable(e: Event, target: SystemName)
    ensures target in Targets(e) <==> HasTarget(e, target)
  {
    var table := RuleTargets(e.source, e.serviceType);
    assert target in Targets(e) <==> target in table && target != e.source;
  }

  lemma {:induction false} FoundIsFirst(registry: Registry, ubid: string, system: SystemName, i: nat)
    requires FirstActive(registry, ubid, system, i)
    ensures FindMapping(registry, ubid, system) == Some(registry[i])
  {
    if i == 0 {
    } else {
      assert FirstActive(registry[1..], ubid, system, i - 1) by {
        forall j | 0 <= j < i - 1 ensures !Active(registry[1..][j], ubid, system) {
          assert !Active(registry[j + 1], ubid, system);
        }
      }
      assert !Active(registry[0], ubid, system);
      FoundIsFirst(registry[1..], ubid, system, i - 1);
    }
  }

  lemma FirstExists(registry: Registry, ubid: string, system: SystemName) returns (i: nat)
    ensures if i < |registry| then FirstActive(registry, ubid, system, i) else NoneActive(registry, ubid, system)
  {
    i := 0;
    while i < |registry| && !Active(registry[i], ubid, system)
      invariant i <= |registry| && forall j :: 0 <= j < i ==> !Active(registry[j], ubid, system)
    {
      i := i + 1;
    }
  }

  /** How a target resolves, by its first active row. */
  lemma ResolvedByRow(registry: Registry, e: Event, target: SystemName)
    ensures NoneActive(registry, e.ubid, target) <==>
      ResolveTarget(registry, e.ubid, target) == Resolution(target, NEEDS_REGISTRATION, "", "")
    ensures forall i: nat :: FirstActive(registry, e.ubid, target, i) ==>
      ResolveTarget(registry, e.ubid, target) ==
        if registry[i].localIdentifier == ""
        then Resolution(target, MAPPING_MISSING, "", registry[i].localIdentifierType)
        else Resolution(target, ROUTABLE, registry[i].localIdentifier, registry[i].localIdentifierType)
  {
    var i := FirstExists(registry, e.ubid, target);
    if i < |registry| {
      FoundIsFirst(registry, e.ubid, target, i);
    } else {
      forall m | m in registry ensures !Active(m, e.ubid, target) {
        var j :| 0 <= j < |registry| && registry[j] == m;
      }
    }
    forall k: nat | FirstActive(registry, e.ubid, target, k)
      ensures FindMapping(registry, e.ubid, target) == Some(registry[k])
    {
      FoundIsFirst(registry, e.ubid, target, k);
    }
  }

  lemma RowsDecide(registry: Registry, e: Event, target: SystemName)
    ensures var r := ResolveTarget(registry, e.ubid, target);
      && (Identifies(registry, e, target) <==> r.status == ROUTABLE)
      && (CanQueue(registry, e, target) <==> r.status == ROUTABLE && r.localIdentifierType != "")
      && (NoneActive(registry, e.ubid, target) <==> r.status == NEEDS_REGISTRATION)
  {
    ResolvedByRow(registry, e, target);
    var i := FirstExists(registry, e.ubid, target);
  }

  /** The targets that are routed to: those of the table whose first active row has an identifier. */
  lemma RoutedByRow(registry: Registry, e: Event, r: Resolution)
    ensures r in RoutingTargets(registry, e) <==>
      HasTarget(e, r.target) && Identifies(registry, e, r.target) && r == ResolveTarget(registry, e.ubid, r.target)
  {
    var rs := ResolveTargets(registry, e.ubid, e.source, e.serviceType);
    TargetsByTable(e, r.target);
    RowsDecide(registry, e, r.target);
    if r in rs { ResolutionsAreOfTargets(registry, e, r); }
    if r.target in Targets(e) { ResolutionOf(registry, e, r.target); }
  }

  lemma QueuedByRow(registry: Registry, e: Event, target: SystemName)
    ensures target in JobTargets(registry, e) <==> HasTarget(e, target) && CanQueue(registry, e, target)
  {
    var r := ResolveTarget(registry, e.ubid, target);
    RowsDecide(registry, e, target);
    RoutedByRow(registry, e, r);
    if target in JobTargets(registry, e) {
      var q :| q in RoutingTargets(registry, e) && q.localIdentifierType != "" && q.target == target;
      RoutedByRow(registry, e, q);
    }
  }

  // ---- The status ----

  /** What each status says about the targets' rows. */
  ghost predicate StatusByRows(status: EventStatus, registry: Registry, e: Event) {
    && status in {QUEUED, ROUTED, TARGET_NOT_APPLICABLE, REGISTRATION_REQUIRED, TARGET_MAPPING_MISSING}
    && (status == QUEUED <==> exists t :: HasTarget(e, t) && CanQueue(registry, e, t))
    && (status == ROUTED <==>
      && (exists t :: HasTarget(e, t) && Identifies(registry, e, t))
      && forall t :: HasTarget(e, t) ==> !CanQueue(registry, e, t))
    && (status == TARGET_NOT_APPLICABLE <==> forall t :: !HasTarget(e, t))
    && (status == REGISTRATION_REQUIRED <==>
      && (exists t :: HasTarget(e, t))
      && forall t :: HasTarget(e, t) ==> NoneActive(registry, e.ubid, t))
    && (status == TARGET_MAPPING_MISSING <==>
      && (exists t :: HasTarget(e, t) && !NoneActive(registry, e.ubid, t))
      && forall t :: HasTarget(e, t) ==> !Identifies(registry, e, t))
  }

  lemma TargetsExist(e: Event)
    ensures Targets(e) == [] <==> forall t :: !HasTarget(e, t)
  {
    forall t ensures t in Targets(e) <==> HasTarget(e, t) { TargetsByTable(e, t); }
    if Targets(e) != [] { assert HasTarget(e, Targets(e)[0]); }
  }

  lemma RoutingStatusByRows(c: Call)
    requires forall t :: !(HasTarget(c.e, t) && CanQueue(c.registry, c.e, t))
    ensures StatusByRows(RoutingStatus(c.registry, c.e), c.registry, c.e)
  {
    StatusExplainsRouting(c.registry, c.e);
    TargetsExist(c.e);
    forall t ensures t in Targets(c.e) <==> HasTarget(c.e, t)
      ensures Registered(c.registry, c.e, t) <==> !NoneActive(c.registry, c.e.ubid, t)
      ensures Mapped(c.registry, c.e, t) <==> Identifies(c.registry, c.e, t)
    {
      TargetsByTable(c.e, t);
      RowsDecide(c.registry, c.e, t);
    }
  }

  lemma RoutedStatusByRows(c: Call)
    ensures StatusByRows(RoutedStatus(c), c.registry, c.e)
  {
    forall t ensures t in JobTargets(c.registry, c.e) <==> HasTarget(c.e, t) && CanQueue(c.registry, c.e, t) {
      QueuedByRow(c.registry, c.e, t);
    }
    if exists t :: HasTarget(c.e, t) && CanQueue(c.registry, c.e, t) {
      var t :| HasTarget(c.e, t) && CanQueue(c.registry, c.e, t);
      QueueableIsRegistered(c.registry, c.e, t);
    } else {
      RoutingStatusByRows(c);
    }
  }

  lemma QueueableIsRegistered(registry: Registry, e: Event, t: SystemName)
    requires CanQueue(registry, e, t)
    ensures Identifies(registry, e, t) && !NoneActive(registry, e.ubid, t)
  {
    RowsDecide(registry, e, t);
  }

  // ---- The answer's targets ----

  /** This identifier is that of the target's first active row. */
  ghost predicate IdentifiedAs(registry: Registry, e: Event, target: SystemName, identifier: string) {
    && identifier != ""
    && exists i: nat :: FirstActive(registry, e.ubid, target, i) && registry[i].localIdentifier == identifier
  }

  lemma IdentifiedByRow(registry: Registry, e: Event, target: SystemName, identifier: string)
    ensures IdentifiedAs(registry, e, target, identifier) <==>
      var r := ResolveTarget(registry, e.ubid, target); r.status == ROUTABLE && r.localIdentifier == identifier
  {
    ResolvedByRow(registry, e, target);
    var i := FirstExists(registry, e.ubid, target);
  }

  /** The answer lists exactly the identified targets of the event, each once and with its identifier. */
  ghost predicate ListsTargets(targets: seq<RoutedTarget>, registry: Registry, e: Event) {
    && (forall target :: target in targets <==>
      HasTarget(e, target.system) && IdentifiedAs(registry, e, target.system, target.localIdentifier))
    && (forall i, j :: 0 <= i < j < |targets| ==> targets[i].system != targets[j].system)
  }

  lemma {:induction false} RoutableKeepsOrder(rs: seq<Resolution>)
    requires forall i, j :: 0 <= i < j < |rs| ==> rs[i].target != rs[j].target
    ensures forall i, j :: 0 <= i < j < |Routable(rs)| ==> Routable(rs)[i].target != Routable(rs)[j].target
  {
    if rs == [] {
    } else {
      var rest := Routable(rs[1..]);
      RoutableKeepsOrder(rs[1..]);
      forall j | 0 <= j < |rest| ensures rest[j].target != rs[0].target {
        assert rest[j] in rest;
      }
    }
  }

  lemma {:induction false} WithoutKeepsDistinct(targets: seq<SystemName>, source: SystemName)
    requires Distinct(targets)
    ensures Distinct(Without(targets, source))
  {
    if targets == [] {
    } else {
      var rest := Without(targets[1..], source);
      WithoutKeepsDistinct(targets[1..], source);
      forall j | 0 <= j < |rest| ensures rest[j] != targets[0] {
        assert rest[j] in rest && rest[j] in targets[1..];
      }
      PrependKeepsDistinct(targets[0], rest);
    }
  }

  lemma PrependKeepsDistinct(first: SystemName, rest: seq<SystemName>)
    requires Distinct(rest) && forall j :: 0 <= j < |rest| ==> rest[j] != first
    ensures Distinct([first] + rest)
  {
  }

  lemma TableIsDistinct(source: SystemName, service: ServiceType)
    ensures Distinct(RuleTargets(source, service))
  {
  }

  lemma TargetsAreDistinct(registry: Registry, e: Event)
    ensures var rs := RoutingTargets(registry, e);
      forall i, j :: 0 <= i < j < |rs| ==> rs[i].target != rs[j].target
  {
    var rs, targets := ResolveTargets(registry, e.ubid, e.source, e.serviceType), Targets(e);
    TableIsDistinct(e.source, e.serviceType);
    WithoutKeepsDistinct(RuleTargets(e.source, e.serviceType), e.source);
    assert |rs| == |targets| && forall i :: 0 <= i < |rs| ==> rs[i].target == targets[i];
    forall i, j | 0 <= i < j < |rs| ensures rs[i].target != rs[j].target {
      assert targets[i] != targets[j];
    }
    RoutableKeepsOrder(rs);
  }

  lemma SummaryOfTarget(rs: seq<Resolution>, target: RoutedTarget)
    ensures target in Summaries(rs) <==>
      exists r :: r in rs && r.target == target.system && r.localIdentifier == target.localIdentifier
  {
    if target in Summaries(rs) {
      var i :| 0 <= i < |rs| && Summaries(rs)[i] == target;
      assert rs[i] in rs;
    }
    if r :| r in rs && r.target == target.system && r.localIdentifier == target.localIdentifier {
      var i :| 0 <= i < |rs| && rs[i] == r;
      assert Summaries(rs)[i] == target;
    }
  }

  lemma SummariesListTargets(registry: Registry, e: Event)
    ensures ListsTargets(Summaries(RoutingTargets(registry, e)), registry, e)
  {
    var rs := RoutingTargets(registry, e);
    TargetsAreDistinct(registry, e);
    forall target ensures target in Summaries(rs) <==>
      HasTarget(e, target.system) && IdentifiedAs(registry, e, target.system, target.localIdentifier)
    {
      SummaryOfTarget(rs, target);
      IdentifiedByRow(registry, e, target.system, target.localIdentifier);
      RowsDecide(registry, e, target.system);
      RoutedByRow(registry, e, ResolveTarget(registry, e.ubid, target.system));
      forall r | r in rs && r.target == target.system ensures r == ResolveTarget(registry, e.ubid, target.system) {
        RoutedByRow(registry, e, r);
      }
    }
  }

  // ---- The ingest ----

  /** The columns that every first answer repeats. */
  predicate AnswersFor(answer: Answer, e: Event) {
    && answer.eventId == e.id && answer.correlationId == e.correlationId && answer.payloadHash == e.payloadHash
    && !answer.duplicate
  }

  /** The jobs of the new event are exactly the queueable targets, untouched; the others are as they were. */
  ghost predicate QueuesJobs(before: map<JobId, Job>, after: map<JobId, Job>, c: Call) {
    && (forall t :: JobId(c.e.id, t) in after <==> HasTarget(c.e, t) && CanQueue(c.registry, c.e, t))
    && (forall id :: id in after && id.eventId == c.e.id ==>
      after[id] == Job(JOB_QUEUED, 0, c.maxAttempts, 0, 0, false))
    && (forall id: JobId :: id.eventId != c.e.id ==> (id in after <==> id in before))
    && (forall id :: id in before && id.eventId != c.e.id ==> after[id] == before[id])
  }

  lemma EnqueueQueuesJobs(before: map<JobId, Job>, c: Call)
    requires forall id :: id in before ==> id.eventId != c.e.id
    ensures QueuesJobs(before, Enqueue(before, c.e.id, JobTargets(c.registry, c.e), c.maxAttempts), c)
  {
    forall t ensures t in JobTargets(c.registry, c.e) <==> HasTarget(c.e, t) && CanQueue(c.registry, c.e, t) {
      QueuedByRow(c.registry, c.e, t);
    }
  }

  /** What a continuing ingest answers and stores. */
  lemma ContinuingIngest(s: System, c: Call, order: seq<EventId>)
    requires CanIngest(s, c, order) && !Checking(s, c).1.duplicate
    requires Judging(s, c, order).Detected? && Judging(s, c, order).result.shouldContinue
    ensures var (s', answer) := Ingest(s, c, order);
      && answer == Some(AnswerOf(c.e, RoutedStatus(c), Summaries(RoutingTargets(c.registry, c.e))))
      && c.e.id in s'.world.status && s'.world.status[c.e.id] == RoutedStatus(c)
      && s'.routes == s.routes[c.e.id := Summaries(RoutingTargets(c.registry, c.e))]
      && s'.jobs == Enqueue(s.jobs, c.e.id, JobTargets(c.registry, c.e), c.maxAttempts)
  {
  }

  /** A withheld event's ingest stops there. */
  lemma StoppingIngest(s: System, c: Call, order: seq<EventId>)
    requires CanIngest(s, c, order) && !Checking(s, c).1.duplicate
    requires Judging(s, c, order).Detected? && !Judging(s, c, order).result.shouldContinue
    ensures var (s', answer) := Ingest(s, c, order);
      && answer == Some(AnswerOf(c.e, Judging(s, c, order).result.status, []))
      && s'.world == Judging(s, c, order).world && s'.routes == s.routes && s'.jobs == s.jobs
  {
  }

  /** The event ends superseded or parked. */
  predicate IsWithheld(w: World, e: EventId) { e in w.status && Withheld(w.status[e]) }

  lemma AnswerMeansDetected(s: System, c: Call, order: seq<EventId>)
    requires CanIngest(s, c, order) && !Checking(s, c).1.duplicate && LinksSound(s.world)
    requires Ingest(s, c, order).1.Some?
    ensures var d := Judging(s, c, order);
      && d.Detected? && c.e.id in d.world.status && d.world.status[c.e.id] == d.result.status
      && (d.result.shouldContinue <==> !Withheld(d.result.status))
  {
    ConflictTables.AnswerTellsThrows(s, c, order);
    JudgingKeepsLinks(s, c, order);
    EffectTellsContinuing(Accepting(s, c), c.e, Found(Accepting(s, c), c.e, c.env).Keys, Judging(s, c, order));
  }

  lemma EffectTellsContinuing(w: World, e: Event, found: set<EventId>, d: Detection)
    requires AdmissionEffect(w, e, found, d) && d.Detected?
    ensures e.id in d.world.status && d.world.status[e.id] == d.result.status
    ensures d.result.shouldContinue <==> !Withheld(d.result.status)
  {
  }

  lemma ContinuesUnlessWithheld(s: System, c: Call, order: seq<EventId>)
    requires CanIngest(s, c, order) && !Checking(s, c).1.duplicate && LinksSound(s.world)
    requires Ingest(s, c, order).1.Some?
    ensures Judging(s, c, order).Detected?
    ensures IsWithheld(Ingest(s, c, order).0.world, c.e.id) <==> !Judging(s, c, order).result.shouldContinue
  {
    AnswerMeansDetected(s, c, order);
    RoutedIsLive(c);
    if Judging(s, c, order).result.shouldContinue {
      ContinuingIngest(s, c, order);
    } else {
      StoppingIngest(s, c, order);
    }
  }

  /** What an accepted ingest leaves of an event that is not withheld. */
  ghost predicate Routes(s: System, s': System, c: Call, answer: Answer) {
    && AnswersFor(answer, c.e)
    && c.e.id in s'.world.status && s'.world.status[c.e.id] == answer.status
    && StatusByRows(answer.status, c.registry, c.e)
    && ListsTargets(answer.targets, c.registry, c.e)
    && s'.routes == s.routes[c.e.id := answer.targets]
    && QueuesJobs(s.jobs, s'.jobs, c)
  }

  /**
   * An accepted event that is not withheld: the stored status is the answered one and says what the rows of
   * its targets call for, the stored and answered targets are the identified ones, and a job with the
   * configured attempts is queued for exactly those that can be.
   */
  lemma RoutedIngest(s: System, c: Call, order: seq<EventId>)
    requires CanIngest(s, c, order) && !Checking(s, c).1.duplicate && Sturdy(s)
    requires Ingest(s, c, order).1.Some? && !IsWithheld(Ingest(s, c, order).0.world, c.e.id)
    ensures Routes(s, Ingest(s, c, order).0, c, Ingest(s, c, order).1.value)
  {
    ContinuesUnlessWithheld(s, c, order);
    ContinuingIngest(s, c, order);
    RoutedStatusByRows(c);
    SummariesListTargets(c.registry, c.e);
    NewEventHasNoJobs(s, c, order);
    EnqueueQueuesJobs(s.jobs, c);
  }

  /** What it leaves of a withheld one: its status answered without targets, and nothing queued. */
  ghost predicate Stops(s: System, s': System, c: Call, answer: Answer) {
    && AnswersFor(answer, c.e) && answer.targets == []
    && c.e.id in s'.world.status && s'.world.status[c.e.id] == answer.status
    && s'.routes == s.routes && s'.jobs == s.jobs
  }

  lemma WithheldIngest(s: System, c: Call, order: seq<EventId>)
    requires CanIngest(s, c, order) && !Checking(s, c).1.duplicate && LinksSound(s.world)
    requires Ingest(s, c, order).1.Some? && IsWithheld(Ingest(s, c, order).0.world, c.e.id)
    ensures Stops(s, Ingest(s, c, order).0, c, Ingest(s, c, order).1.value)
  {
    ContinuesUnlessWithheld(s, c, order);
    AnswerMeansDetected(s, c, order);
    StoppingIngest(s, c, order);
  }
}
