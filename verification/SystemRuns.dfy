/** Whole runs of the backend: ingests and worker runs in any order, each one atomic step. */
module SystemRuns {
  import opened Domain
  import opened Conflicts
  import opened ConflictSafety
  import opened Supersessions
  import opened IdempotencyKeys
  import opened Idempotency
  import opened Delivery
  import opened Ksync
  import Routing

  datatype Step =
    | Ingesting(c: Call, order: seq<EventId>)
    | Running(id: JobId, registry: Routing.Registry, adapter: Adapter)

  ghost predicate CanTake(s: System, step: Step) {
    match step
    case Ingesting(c, order) => CanIngest(s, c, order)
    case Running(id, _, _) => Runnable(HubOf(s), id) && id.eventId in s.world.events
  }

  /** Event ids are fresh, and the database returns each competing row once. */
  ghost predicate CanIngest(s: System, c: Call, order: seq<EventId>) {
    && c.e.id !in s.world.events
    && c.maxAttempts > 0
    && (!Checking(s, c).1.duplicate ==> Enumerates(order, Found(Accepting(s, c), c.e, c.env).Keys))
  }

  ghost function Take(s: System, step: Step): System
    requires CanTake(s, step)
  {
    match step
    case Ingesting(c, order) => Ingest(s, c, order).0
    case Running(id, registry, adapter) => RunJob(s, id, registry, adapter)
  }

  ghost predicate IsRun(trace: seq<System>, steps: seq<Step>) {
    && |trace| == |steps| + 1
    && trace[0] == EMPTY
    && forall i {:trigger CanTake(trace[i], steps[i])} :: 0 <= i < |steps| ==>
      CanTake(trace[i], steps[i]) && trace[i + 1] == Take(trace[i], steps[i])
  }

  /** What one ingest does to the conflict tables, stage by stage. */
  ghost predicate IngestsTo(s: System, c: Call, order: seq<EventId>, w: World)
    requires CanIngest(s, c, order)
  {
    if Checking(s, c).1.duplicate then w == Receive(s.world, c.e, DUPLICATE_DETECTED)
    else
      var d := Judging(s, c, order);
      w == if d.Detected? && d.result.shouldContinue
        then d.world.(status := d.world.status[c.e.id := RoutedStatus(c)]) else d.world
  }

  lemma IngestWorld(s: System, c: Call, order: seq<EventId>)
    requires CanIngest(s, c, order)
    ensures IngestsTo(s, c, order, Ingest(s, c, order).0.world)
  {
  }

  /** On the store one ingest is a check, followed by a save under both keys if it answers. */
  lemma IngestSubmits(s: System, c: Call, order: seq<EventId>)
    requires CanIngest(s, c, order)
    ensures Ingest(s, c, order).0.store
      == Submit(s.store, BuildKeys(c.e), c.e.id, Ingest(s, c, order).1, c.io, c.saveIo)
  {
  }

  lemma RoutedIsLive(c: Call)
    ensures Live(RoutedStatus(c))
  {
  }

  // ---- What every run keeps, whatever Redis does ----

  ghost predicate Sturdy(s: System) {
    && LinksSound(s.world)
    && HubSound(HubOf(s))
  }

  lemma JobsBelongToEvents(s: System, id: JobId)
    requires Sturdy(s) && id in s.jobs
    ensures id.eventId in s.world.events && Deliverable(s.world.status[id.eventId])
  {
    assert JobSound(HubOf(s), id);
  }

  lemma JudgingKeepsLinks(s: System, c: Call, order: seq<EventId>)
    requires CanIngest(s, c, order) && !Checking(s, c).1.duplicate
    requires LinksSound(s.world)
    ensures LinksSound(Judging(s, c, order).world)
    ensures AdmissionEffect(Accepting(s, c), c.e, Found(Accepting(s, c), c.e, c.env).Keys, Judging(s, c, order))
  {
    var w := Accepting(s, c);
    OtherStepsKeepLinks(s.world, w);
    assert CanAdmit(w, c.e, c.env, order);
    AdmissionKeepsLinks(w, c.e, c.env, order);
    AdmissionStatuses(w, c.e, c.env, order);
  }

  /** Routing writes a live status over a status that is not SUPERSEDED. */
  lemma RoutingKeepsLinks(w: World, e: EventId, status: EventStatus)
    requires LinksSound(w) && e in w.status && w.status[e] != SUPERSEDED && status != SUPERSEDED
    ensures LinksSound(w.(status := w.status[e := status]))
  {
    OtherStepsKeepLinks(w, w.(status := w.status[e := status]));
  }

  lemma AcceptedKeepsLinks(s: System, c: Call, order: seq<EventId>, w': World)
    requires CanIngest(s, c, order) && LinksSound(s.world) && !Checking(s, c).1.duplicate
    requires IngestsTo(s, c, order, w')
    ensures LinksSound(w')
  {
    var d := Judging(s, c, order);
    JudgingKeepsLinks(s, c, order);
    RoutedIsLive(c);
    if d.Detected? && d.result.shouldContinue {
      RoutingKeepsLinks(d.world, c.e.id, RoutedStatus(c));
    }
  }

  lemma IngestKeepsLinks(s: System, c: Call, order: seq<EventId>)
    requires CanIngest(s, c, order) && LinksSound(s.world)
    ensures LinksSound(Ingest(s, c, order).0.world)
  {
    IngestWorld(s, c, order);
    if Checking(s, c).1.duplicate {
      OtherStepsKeepLinks(s.world, Receive(s.world, c.e, DUPLICATE_DETECTED));
    } else {
      AcceptedKeepsLinks(s, c, order, Ingest(s, c, order).0.world);
    }
  }

  /** Older events keep their status or become SUPERSEDED. */
  ghost predicate OldOnesSettle(w: World, w': World) {
    && w.status.Keys <= w'.status.Keys
    && forall id :: id in w.status ==> w'.status[id] == w.status[id] || w'.status[id] == SUPERSEDED
  }

  lemma JudgingSettlesOldOnes(s: System, c: Call, order: seq<EventId>)
    requires CanIngest(s, c, order) && !Checking(s, c).1.duplicate
    requires LinksSound(s.world)
    ensures OldOnesSettle(s.world, Judging(s, c, order).world)
    ensures c.e.id in Judging(s, c, order).world.status
  {
    JudgingKeepsLinks(s, c, order);
  }

  lemma NewEventHasNoJobs(s: System, c: Call, order: seq<EventId>)
    requires CanIngest(s, c, order) && Sturdy(s)
    ensures forall id :: id in s.jobs ==> id.eventId != c.e.id
  {
    forall id | id in s.jobs ensures id.eventId != c.e.id {
      JobsBelongToEvents(s, id);
    }
  }

  lemma StatusOnlyKeepsHub(s: System, w: World)
    requires HubSound(HubOf(s)) && s.world.status.Keys <= w.status.Keys
    requires OldOnesSettle(s.world, w)
    ensures HubSound(HubOf(s.(world := w)))
  {
    StatusWritesKeepHubSound(HubOf(s), HubOf(s.(world := w)));
  }

  /** Routing on the hub alone: jobs queued for the new event, and its status written. */
  lemma RoutingKeepsHub(h: Hub, h': Hub, c: Call)
    requires HubSound(h) && c.e.id in h.status && c.maxAttempts > 0
    requires forall id :: id in h.jobs ==> id.eventId != c.e.id
    requires h' == h.(status := h.status[c.e.id := RoutedStatus(c)],
      jobs := Enqueue(h.jobs, c.e.id, Routing.JobTargets(c.registry, c.e), c.maxAttempts))
    ensures HubSound(h')
  {
    var targets := Routing.JobTargets(c.registry, c.e);
    if targets != {} {
      EnqueueKeepsHubSound(h, h', c.e.id, targets, c.maxAttempts);
    } else {
      NothingQueuedKeepsHub(h, h', c.e.id, c.maxAttempts);
    }
  }

  lemma NothingQueuedKeepsHub(h: Hub, h': Hub, e: EventId, maxAttempts: nat)
    requires HubSound(h) && e in h.status && e in h'.status
    requires forall id :: id in h.jobs ==> id.eventId != e
    requires h' == h.(status := h.status[e := h'.status[e]], jobs := Enqueue(h.jobs, e, {}, maxAttempts))
    ensures HubSound(h')
  {
    assert h'.jobs == h.jobs;
    assert JobsOf(h.jobs, e) == {};
    StatusWritesKeepHubSound(h, h');
  }

  /** The hub after an ingest is the routed hub of the judged statuses. */
  ghost predicate HubAfter(s: System, c: Call, order: seq<EventId>, h': Hub)
    requires CanIngest(s, c, order)
  {
    if Checking(s, c).1.duplicate then
      h' == HubOf(s.(world := Receive(s.world, c.e, DUPLICATE_DETECTED)))
    else
      var d := Judging(s, c, order);
      var h := HubOf(s.(world := d.world));
      if d.Detected? && d.result.shouldContinue && c.e.id in h.status then
        h' == h.(status := h.status[c.e.id := RoutedStatus(c)],
                 jobs := Enqueue(h.jobs, c.e.id, Routing.JobTargets(c.registry, c.e), c.maxAttempts))
      else h' == h
  }

  lemma IngestHub(s: System, c: Call, order: seq<EventId>)
    requires CanIngest(s, c, order) && LinksSound(s.world)
    ensures HubAfter(s, c, order, HubOf(Ingest(s, c, order).0))
  {
    if !Checking(s, c).1.duplicate {
      JudgingSettlesOldOnes(s, c, order);
    }
  }

  lemma AcceptedKeepsHub(s: System, c: Call, order: seq<EventId>, h': Hub)
    requires CanIngest(s, c, order) && Sturdy(s) && !Checking(s, c).1.duplicate
    requires HubAfter(s, c, order, h')
    ensures HubSound(h')
  {
    var d := Judging(s, c, order);
    NewEventHasNoJobs(s, c, order);
    JudgingSettlesOldOnes(s, c, order);
    StatusOnlyKeepsHub(s, d.world);
    if d.Detected? && d.result.shouldContinue {
      RoutingKeepsHub(HubOf(s.(world := d.world)), h', c);
    }
  }

  lemma IngestKeepsHub(s: System, c: Call, order: seq<EventId>)
    requires CanIngest(s, c, order) && Sturdy(s)
    ensures HubSound(HubOf(Ingest(s, c, order).0))
  {
    IngestHub(s, c, order);
    if Checking(s, c).1.duplicate {
      NewEventHasNoJobs(s, c, order);
      StatusOnlyKeepsHub(s, Receive(s.world, c.e, DUPLICATE_DETECTED));
    } else {
      AcceptedKeepsHub(s, c, order, HubOf(Ingest(s, c, order).0));
    }
  }

  lemma RunStatuses(h: Hub, id: JobId, resolved: bool, adapter: Adapter)
    requires Runnable(h, id) && Deliverable(h.status[id.eventId])
    ensures MovesOneStatus(h.status, ProcessWriteJob(h, id, resolved, adapter).status, id.eventId)
  {
  }

  ghost predicate MovesOneStatus(before: map<EventId, EventStatus>, after: map<EventId, EventStatus>, e: EventId) {
    && e in before && e in after
    && after == before[e := after[e]]
    && if before[e] == SUPERSEDED then after[e] == SUPERSEDED else Live(before[e]) && Live(after[e])
  }

  /** A worker run moves only the status of its own event, and only between live statuses. */
  lemma JobRunOnWorld(s: System, id: JobId, registry: Routing.Registry, adapter: Adapter)
    requires Sturdy(s) && Runnable(HubOf(s), id) && id.eventId in s.world.events
    ensures OnlyLiveMoves(s.world, RunJob(s, id, registry, adapter).world)
  {
    var resolved := Routing.Resolves(registry, s.world.events[id.eventId], id.target);
    JobsBelongToEvents(s, id);
    RunStatuses(HubOf(s), id, resolved, adapter);
    OneMoveOnWorld(s, ProcessWriteJob(HubOf(s), id, resolved, adapter), id.eventId);
  }

  lemma OneMoveOnWorld(s: System, h': Hub, e: EventId)
    requires MovesOneStatus(s.world.status, h'.status, e)
    ensures OnlyLiveMoves(s.world, WithHub(s, h').world)
  {
  }

  lemma JobRunKeepsSturdy(s: System, id: JobId, registry: Routing.Registry, adapter: Adapter)
    requires Sturdy(s) && Runnable(HubOf(s), id) && id.eventId in s.world.events
    ensures Sturdy(RunJob(s, id, registry, adapter))
  {
    var resolved := Routing.Resolves(registry, s.world.events[id.eventId], id.target);
    JobRunOnWorld(s, id, registry, adapter);
    LiveMovesKeepLinks(s.world, RunJob(s, id, registry, adapter).world);
    RunKeepsHubSound(HubOf(s), id, resolved, adapter);
    HubOfWithHub(s, ProcessWriteJob(HubOf(s), id, resolved, adapter));
  }

  lemma LiveMovesKeepLinks(w: World, w': World)
    requires LinksSound(w) && OnlyLiveMoves(w, w')
    ensures LinksSound(w')
  {
    OtherStepsKeepLinks(w, w');
  }

  lemma HubOfWithHub(s: System, h: Hub)
    ensures HubOf(WithHub(s, h)) == h
  {
  }

  lemma StepKeepsSturdy(s: System, step: Step)
    requires Sturdy(s) && CanTake(s, step)
    ensures Sturdy(Take(s, step))
  {
    match step
    case Ingesting(c, order) =>
      IngestKeepsLinks(s, c, order);
      IngestKeepsHub(s, c, order);
    case Running(id, registry, adapter) => JobRunKeepsSturdy(s, id, registry, adapter);
  }

  lemma EmptyIsSturdy()
    ensures Sturdy(EMPTY)
  {
  }

  lemma NextIsSturdy(trace: seq<System>, steps: seq<Step>, n: nat)
    requires IsRun(trace, steps) && n < |steps| && Sturdy(trace[n])
    ensures Sturdy(trace[n + 1])
  {
    assert CanTake(trace[n], steps[n]);
    StepKeepsSturdy(trace[n], steps[n]);
  }

  lemma {:induction false} RunIsSturdy(trace: seq<System>, steps: seq<Step>, n: nat)
    requires IsRun(trace, steps) && n <= |steps|
    ensures Sturdy(trace[n])
  {
    if n == 0 {
      EmptyIsSturdy();
    } else {
      RunIsSturdy(trace, steps, n - 1);
      NextIsSturdy(trace, steps, n - 1);
    }
  }

  /** Supersession is well founded in every reachable state, even if Redis calls fail. */
  lemma SupersessionIsWellFounded(trace: seq<System>, steps: seq<Step>, n: nat, id: EventId)
    returns (chain: seq<EventId>)
    requires IsRun(trace, steps) && n <= |steps|
    requires id in trace[n].world.events
    ensures IsChain(trace[n].world, chain) && chain[0] == id && Distinct(chain)
    ensures chain[|chain| - 1] in trace[n].world.status
    ensures trace[n].world.status[chain[|chain| - 1]] != SUPERSEDED
  {
    RunIsSturdy(trace, steps, n);
    chain := SurvivorExists(trace[n].world, id);
    ChainsAreFinite(trace[n].world, chain);
  }

  lemma IngestSettlesOldOnes(s: System, c: Call, order: seq<EventId>)
    requires CanIngest(s, c, order) && LinksSound(s.world)
    ensures OldOnesSettle(s.world, Ingest(s, c, order).0.world)
  {
    IngestWorld(s, c, order);
    if !Checking(s, c).1.duplicate {
      JudgingSettlesOldOnes(s, c, order);
    }
  }

  /** Every chain of supersededBy links is finite, and goes on exactly until an event that is not superseded. */
  lemma EveryChainEndsAtASurvivor(trace: seq<System>, steps: seq<Step>, n: nat, chain: seq<EventId>)
    requires IsRun(trace, steps) && n <= |steps|
    requires IsChain(trace[n].world, chain) && chain[|chain| - 1] in trace[n].world.status
    ensures Distinct(chain) && |chain| <= |trace[n].world.supersessions| + 1
    ensures (exists next :: IsChain(trace[n].world, chain + [next])) <==>
      trace[n].world.status[chain[|chain| - 1]] == SUPERSEDED
  {
    RunIsSturdy(trace, steps, n);
    ChainsAreFinite(trace[n].world, chain);
    ChainsStopAtSurvivors(trace[n].world, chain);
  }

  lemma IngestAddsTheEvent(s: System, c: Call, order: seq<EventId>)
    requires CanIngest(s, c, order) && LinksSound(s.world)
    ensures Ingest(s, c, order).0.world.events == s.world.events[c.e.id := c.e]
  {
    IngestWorld(s, c, order);
    if !Checking(s, c).1.duplicate { JudgingKeepsLinks(s, c, order); }
  }

  lemma TakeKeepsEvents(s: System, step: Step, id: EventId)
    requires CanTake(s, step) && Sturdy(s) && id in s.world.events
    ensures id in Take(s, step).world.events && Take(s, step).world.events[id] == s.world.events[id]
  {
    match step
    case Ingesting(c, order) => IngestAddsTheEvent(s, c, order);
    case Running(job, registry, adapter) => JobRunOnWorld(s, job, registry, adapter);
  }

  ghost predicate KeepsEvent(s: System, e: Event) { e.id in s.world.events && s.world.events[e.id] == e }

  lemma NextKeepsEvent(trace: seq<System>, steps: seq<Step>, n: nat, e: Event)
    requires IsRun(trace, steps) && n < |steps| && KeepsEvent(trace[n], e)
    ensures KeepsEvent(trace[n + 1], e)
  {
    RunIsSturdy(trace, steps, n);
    assert CanTake(trace[n], steps[n]);
    TakeKeepsEvents(trace[n], steps[n], e.id);
  }

  lemma StepKeepsSuperseded(s: System, step: Step, id: EventId)
    requires Sturdy(s) && CanTake(s, step)
    requires id in s.world.status && s.world.status[id] == SUPERSEDED
    ensures id in Take(s, step).world.status && Take(s, step).world.status[id] == SUPERSEDED
  {
    match step
    case Ingesting(c, order) => IngestSettlesOldOnes(s, c, order);
    case Running(job, registry, adapter) => JobRunOnWorld(s, job, registry, adapter);
  }

  lemma NextKeepsSuperseded(trace: seq<System>, steps: seq<Step>, n: nat, id: EventId)
    requires IsRun(trace, steps) && n < |steps|
    requires id in trace[n].world.status && trace[n].world.status[id] == SUPERSEDED
    ensures id in trace[n + 1].world.status && trace[n + 1].world.status[id] == SUPERSEDED
  {
    RunIsSturdy(trace, steps, n);
    StepKeepsSuperseded(trace[n], steps[n], id);
  }

  /** SUPERSEDED is never left. */
  lemma {:induction false} SupersededForGood(trace: seq<System>, steps: seq<Step>, n: nat, m: nat, id: EventId)
    requires IsRun(trace, steps) && n <= m <= |steps|
    requires id in trace[n].world.status && trace[n].world.status[id] == SUPERSEDED
    ensures id in trace[m].world.status && trace[m].world.status[id] == SUPERSEDED
  {
    if n == m {
    } else {
      SupersededForGood(trace, steps, n, m - 1, id);
      NextKeepsSuperseded(trace, steps, m - 1, id);
    }
  }

  /** Conflict resolution supersedes each event at most once, and the log of links only grows. */
  lemma SupersededOnce(trace: seq<System>, steps: seq<Step>, n: nat, i: nat, j: nat)
    requires IsRun(trace, steps) && n <= |steps|
    requires i < j < |trace[n].world.supersessions|
    ensures trace[n].world.supersessions[i].loser != trace[n].world.supersessions[j].loser
    ensures trace[n].world.supersessions[i].loser in trace[n].world.status
    ensures trace[n].world.status[trace[n].world.supersessions[i].loser] == SUPERSEDED
  {
    RunIsSturdy(trace, steps, n);
    assert IsLoser(trace[n].world.supersessions, trace[n].world.supersessions[i].loser);
  }
}
