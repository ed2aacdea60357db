/** ingestRequest: idempotency, conflict detection, routing and queueing, composed into one call. */
module Ksync {
  import opened Domain
  import opened Conflicts
  import opened ConflictSafety
  import opened IdempotencyKeys
  import opened Idempotency
  import opened Delivery
  import Authority
  import Routing

  /** Every store of the backend; routes is the routeTargets column of the event table. */
  datatype System = System(
    world: World, store: Store, routes: map<EventId, seq<RoutedTarget>>,
    jobs: map<JobId, Job>, log: seq<Entry>, deadLetters: seq<JobId>, writes: seq<JobId>)

  /** One request, with what its call reads from its surroundings. */
  datatype Call = Call(
    e: Event, env: Env, registry: Routing.Registry, maxAttempts: nat, io: CacheIo, saveIo: CacheIo)

  const EMPTY := System(World(map[], map[], map[], [], [], []), Store([], map[]), map[], map[], [], [], [])

  function HubOf(s: System): Hub { Hub(s.world.status, s.jobs, s.log, s.deadLetters, s.writes) }

  function WithHub(s: System, h: Hub): System {
    s.(world := s.world.(status := h.status), jobs := h.jobs, log := h.log,
       deadLetters := h.deadLetters, writes := h.writes)
  }

  // ---- The stages of one call ----

  function Checking(s: System, c: Call): (Store, CheckResult) {
    CheckAndStore(s.store, BuildKeys(c.e), c.e.id, RECEIVED, c.io)
  }

  function Accepting(s: System, c: Call): World { Receive(s.world, c.e, IDEMPOTENCY_ACCEPTED) }

  function Judging(s: System, c: Call, order: seq<EventId>): Detection
    requires OrderFits(s, c, order)
  {
    Admit(Accepting(s, c), c.e, c.env, order)
  }

  predicate OrderFits(s: System, c: Call, order: seq<EventId>) {
    forall id :: id in order ==> id in Found(Accepting(s, c), c.e, c.env)
  }

  function Summaries(targets: seq<Routing.Resolution>): seq<RoutedTarget> {
    seq(|targets|, i requires 0 <= i < |targets| => RoutedTarget(targets[i].localIdentifier, targets[i].target))
  }

  /** QUEUED as soon as one write job was queued. */
  function RoutedStatus(c: Call): EventStatus {
    if Routing.JobTargets(c.registry, c.e) != {} then QUEUED else Routing.RoutingStatus(c.registry, c.e)
  }

  function AnswerOf(e: Event, status: EventStatus, targets: seq<RoutedTarget>): Answer {
    Answer(e.correlationId, false, e.id, e.payloadHash, status, targets)
  }

  function RouteTargetsOf(routes: map<EventId, seq<RoutedTarget>>, id: EventId): seq<RoutedTarget> {
    if id in routes then routes[id] else []
  }

  /** buildDuplicateResult: the cached answer, or one rebuilt from the original's row. */
  function DuplicateAnswer(s: System, e: Event, check: CheckResult): Answer {
    if check.cached.Some? then check.cached.value.(duplicate := true)
    else if check.existingEventId in s.world.events && check.existingEventId in s.world.status then
      var original := s.world.events[check.existingEventId];
      Answer(original.correlationId, true, original.id, original.payloadHash,
             s.world.status[check.existingEventId],
             RouteTargetsOf(s.routes, check.existingEventId))
    else Answer(e.correlationId, true, check.existingEventId, e.payloadHash, DUPLICATE_DETECTED, [])
  }

  function AcceptedAnswer(c: Call, d: Detection): Option<Answer> {
    match d
    case RuleMissing(_) => None
    case Detected(_, result) =>
      if result.shouldContinue
      then Some(AnswerOf(c.e, RoutedStatus(c), Summaries(Routing.RoutingTargets(c.registry, c.e))))
      else Some(AnswerOf(c.e, result.status, []))
  }

  /** After conflict detection: route and queue, or stop there; a missing rule is thrown to the caller. */
  function Concluded(s: System, c: Call, d: Detection): System {
    match d
    case RuleMissing(world) => s.(world := world)
    case Detected(world, result) =>
      var store := SaveUnderKeys(s.store, BuildKeys(c.e), AcceptedAnswer(c, d).value, c.saveIo);
      if !result.shouldContinue then s.(world := world, store := store)
      else s.(
        world := world.(status := world.status[c.e.id := RoutedStatus(c)]),
        store := store,
        routes := s.routes[c.e.id := Summaries(Routing.RoutingTargets(c.registry, c.e))],
        jobs := Enqueue(s.jobs, c.e.id, Routing.JobTargets(c.registry, c.e), c.maxAttempts))
  }

  function Duplicated(s: System, c: Call): System {
    s.(world := Receive(s.world, c.e, DUPLICATE_DETECTED), store := Checking(s, c).0)
  }

  /** ingestRequest; no answer means that it threw. */
  function Ingest(s: System, c: Call, order: seq<EventId>): (System, Option<Answer>)
    requires !Checking(s, c).1.duplicate ==> OrderFits(s, c, order)
  {
    if Checking(s, c).1.duplicate then
      (Duplicated(s, c), Some(DuplicateAnswer(Duplicated(s, c), c.e, Checking(s, c).1)))
    else
      var d := Judging(s, c, order);
      (Concluded(s.(store := Checking(s, c).0), c, d), AcceptedAnswer(c, d))
  }

  /** One worker run against the registry of the moment. */
  function RunJob(s: System, id: JobId, registry: Routing.Registry, adapter: Adapter): System
    requires Runnable(HubOf(s), id) && id.eventId in s.world.events
  {
    WithHub(s, ProcessWriteJob(HubOf(s), id,
                               Routing.Resolves(registry, s.world.events[id.eventId], id.target), adapter))
  }

  /** The targets that come with an identifier and its type. */
  function Identified(targets: seq<Routing.Resolution>): set<SystemName> {
    set r | r in targets && r.localIdentifier != "" && r.localIdentifierType != "" :: r.target
  }

  // ---- The service: the other services, called in sequence ----

  /** conflicts.status and worker.status are the one status column of the event table. */
  class KsyncService {
    const conflicts: ConflictService
    const idempotency: IdempotencyService
    const worker: WriteWorker
    var routes: map<EventId, seq<RoutedTarget>>

    ghost predicate Valid()
      reads this, conflicts, conflicts.pen, worker
    {
      conflicts.Valid() && worker.status == conflicts.status
    }

    ghost function Abs(): System
      reads this, conflicts, conflicts.pen, idempotency, worker
    {
      System(conflicts.Abs(), idempotency.Abs(), routes,
             worker.jobs, worker.log, worker.deadLetters, worker.writes)
    }

    constructor (windowSeconds: nat, matrix: Authority.Matrix)
      ensures Valid() && Abs() == EMPTY
      ensures fresh(conflicts) && fresh(conflicts.pen) && fresh(idempotency) && fresh(worker)
      ensures conflicts.pen.windowSeconds == windowSeconds && conflicts.matrix == matrix
    {
      conflicts := new ConflictService(windowSeconds, matrix);
      idempotency := new IdempotencyService();
      worker := new WriteWorker(map[]);
      routes := map[];
    }

    method SetStatus(id: EventId, status: EventStatus)
      requires Valid() && id in conflicts.events
      modifies conflicts`status, worker`status
      ensures Valid() && conflicts.status == old(conflicts.status)[id := status]
    {
      conflicts.status := conflicts.status[id := status];
      worker.status := conflicts.status;
    }

    method CreateEvent(e: Event)
      requires Valid() && e.id !in conflicts.events
      modifies conflicts`events, conflicts`status, worker`status
      ensures Valid() && conflicts.Abs() == Receive(old(conflicts.Abs()), e, RECEIVED)
    {
      conflicts.events := conflicts.events[e.id := e];
      conflicts.status := conflicts.status[e.id := RECEIVED];
      worker.status := conflicts.status;
    }

    method BuildDuplicateResult(e: Event, check: CheckResult) returns (answer: Answer)
      requires Valid()
      ensures answer == DuplicateAnswer(Abs(), e, check)
    {
      if check.cached.Some? {
        return check.cached.value.(duplicate := true);
      }
      var id := check.existingEventId;
      if id !in conflicts.events {
        return Answer(e.correlationId, true, id, e.payloadHash, DUPLICATE_DETECTED, []);
      }
      var original := conflicts.events[id];
      answer := Answer(original.correlationId, true, original.id, original.payloadHash,
                       conflicts.status[id], RouteTargetsOf(routes, id));
    }

    /** enqueueTargetWriteJobs: targets without an identifier or its type are skipped. */
    method EnqueueTargetWriteJobs(e: Event, targets: seq<Routing.Resolution>, maxAttempts: nat) returns (queued: nat)
      requires forall t :: JobId(e.id, t) !in worker.jobs
      modifies worker`jobs
      ensures var jobTargets := Identified(targets);
        && worker.jobs == Enqueue(old(worker.jobs), e.id, jobTargets, maxAttempts)
        && (queued > 0 <==> jobTargets != {})
    {
      queued := 0;
      ghost var done: set<SystemName> := {};
      for i := 0 to |targets|
        invariant done == Identified(targets[..i])
        invariant worker.jobs == Enqueue(old(worker.jobs), e.id, done, maxAttempts)
        invariant queued > 0 <==> done != {}
      {
        var r := targets[i];
        assert targets[..i + 1] == targets[..i] + [r];
        if r.localIdentifier != "" && r.localIdentifierType != "" {
          worker.AddJob(JobId(e.id, r.target), maxAttempts);
          queued := queued + 1;
          done := done + {r.target};
        }
      }
      assert targets[..|targets|] == targets;
    }

    /** Save the answer under both keys. */
    method Finish(c: Call, status: EventStatus, targets: seq<RoutedTarget>) returns (answer: Answer)
      modifies idempotency
      ensures answer == AnswerOf(c.e, status, targets)
      ensures idempotency.Abs() == SaveUnderKeys(old(idempotency.Abs()), BuildKeys(c.e), answer, c.saveIo)
    {
      answer := AnswerOf(c.e, status, targets);
      idempotency.SaveBoth(BuildKeys(c.e), answer, c.saveIo);
    }

    /** The part of ingestRequest after a conflict check that lets the event continue. */
    method Route(c: Call) returns (answer: Answer)
      requires Valid() && c.e.id in conflicts.events
      requires forall t :: JobId(c.e.id, t) !in worker.jobs
      modifies this`routes, conflicts`status, worker`status, worker`jobs, idempotency
      ensures Valid()
      ensures var targets := Summaries(Routing.RoutingTargets(c.registry, c.e));
        && answer == AnswerOf(c.e, RoutedStatus(c), targets)
        && conflicts.status == old(conflicts.status)[c.e.id := RoutedStatus(c)]
        && routes == old(routes)[c.e.id := targets]
        && worker.jobs == Enqueue(old(worker.jobs), c.e.id, Routing.JobTargets(c.registry, c.e), c.maxAttempts)
        && idempotency.Abs() == SaveUnderKeys(old(idempotency.Abs()), BuildKeys(c.e), answer, c.saveIo)
    {
      var targets := Routing.RoutingTargets(c.registry, c.e);
      var queued := EnqueueTargetWriteJobs(c.e, targets, c.maxAttempts);
      assert Identified(targets) == Routing.JobTargets(c.registry, c.e);
      var status := if queued > 0 then QUEUED else Routing.RoutingStatus(c.registry, c.e);
      routes := routes[c.e.id := Summaries(targets)];
      SetStatus(c.e.id, status);
      answer := Finish(c, status, Summaries(targets));
    }

    /** checkAndStore's verdict and what it leaves behind, with the event recorded accordingly. */
    method CheckRequest(c: Call) returns (check: CheckResult)
      requires Valid() && c.e.id !in conflicts.events
      modifies conflicts`events, conflicts`status, worker`status, idempotency
      ensures Valid()
      ensures check == Checking(old(Abs()), c).1
      ensures Abs() == old(Abs()).(store := Checking(old(Abs()), c).0,
        world := Receive(old(Abs()).world, c.e, if check.duplicate then DUPLICATE_DETECTED else IDEMPOTENCY_ACCEPTED))
    {
      CreateEvent(c.e);
      check := idempotency.CheckAndStoreEvent(c.e, RECEIVED, c.io);
      SetStatus(c.e.id, if check.duplicate then DUPLICATE_DETECTED else IDEMPOTENCY_ACCEPTED);
    }

    /** Ingest's own record of a clean check. */
    method RecordCheck(e: Event, outcome: Option<DetectionResult>)
      requires Valid() && e.id in conflicts.events
      modifies conflicts`status, worker`status
      ensures Valid()
      ensures Seen(outcome, conflicts.Abs()) == Recorded(e, Seen(outcome, old(conflicts.Abs())))
    {
      if outcome.Some? && outcome.value.status == CONFLICT_CHECKED {
        SetStatus(e.id, CONFLICT_CHECKED);
      }
    }

    method JudgeEvent(c: Call) returns (outcome: Option<DetectionResult>, order: seq<EventId>)
      requires Valid() && c.e.id in conflicts.events
      requires c.env.windowSeconds == conflicts.pen.windowSeconds && c.env.matrix == conflicts.matrix
      modifies conflicts`status, conflicts`conflicts, conflicts`reviewItems, conflicts`supersessions, conflicts.pen
      modifies worker`status
      ensures Valid()
      ensures Enumerates(order, Found(old(conflicts.Abs()), c.e, c.env).Keys)
      ensures Seen(outcome, conflicts.Abs()) == Admit(old(conflicts.Abs()), c.e, c.env, order)
    {
      outcome, order := conflicts.DetectAndResolve(c.e, c.env);
      worker.status := conflicts.status;
      RecordCheck(c.e, outcome);
    }

    /** What follows a conflict check. */
    method Conclude(c: Call, outcome: Option<DetectionResult>) returns (answer: Option<Answer>)
      requires Valid() && c.e.id in conflicts.events
      requires forall t :: JobId(c.e.id, t) !in worker.jobs
      modifies this`routes, conflicts`status, worker`status, worker`jobs, idempotency
      ensures Valid()
      ensures var d := Seen(outcome, old(conflicts.Abs()));
        Abs() == Concluded(old(Abs()), c, d) && answer == AcceptedAnswer(c, d)
    {
      if outcome.None? {
        return None;
      }
      var reply;
      if !outcome.value.shouldContinue {
        reply := Finish(c, outcome.value.status, []);
      } else {
        reply := Route(c);
      }
      answer := Some(reply);
    }

    method ProcessJob(id: JobId, registry: Routing.Registry, adapter: Adapter) returns (threw: bool)
      requires Valid() && Runnable(HubOf(Abs()), id) && id.eventId in conflicts.events
      modifies conflicts`status, worker
      ensures Valid()
      ensures Abs() == RunJob(old(Abs()), id, registry, adapter)
    {
      var resolved := Routing.Resolves(registry, conflicts.events[id.eventId], id.target);
      assert worker.Abs() == HubOf(Abs());
      threw := worker.Process(id, resolved, adapter);
      conflicts.status := worker.status;
    }

    method IngestRequest(c: Call) returns (answer: Option<Answer>, order: seq<EventId>)
      requires Valid() && c.e.id !in conflicts.events
      requires forall t :: JobId(c.e.id, t) !in worker.jobs
      requires c.env.windowSeconds == conflicts.pen.windowSeconds && c.env.matrix == conflicts.matrix
      modifies this`routes, conflicts, conflicts.pen, worker`status, worker`jobs, idempotency
      ensures Valid()
      ensures !Checking(old(Abs()), c).1.duplicate ==>
        Enumerates(order, Found(Accepting(old(Abs()), c), c.e, c.env).Keys)
      ensures (Abs(), answer) == Ingest(old(Abs()), c, order)
    {
      order := [];
      var check := CheckRequest(c);
      if check.duplicate {
        var rebuilt := BuildDuplicateResult(c.e, check);
        answer := Some(rebuilt);
      } else {
        ghost var checked := Abs();
        var outcome;
        outcome, order := JudgeEvent(c);
        ghost var d := Seen(outcome, conflicts.Abs());
        ghost var judged := Abs();
        answer := Conclude(c, outcome);
        ConcludingIgnoresTheWorld(checked, judged, c, d);
      }
    }
  }

  lemma ConcludingIgnoresTheWorld(s: System, t: System, c: Call, d: Detection)
    requires t == s.(world := t.world)
    ensures Concluded(t, c, d) == Concluded(s, c, d)
  {
  }
}
