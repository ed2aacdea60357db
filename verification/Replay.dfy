/** Resubmitting an answered request, in whole runs of the backend. */
module Replay {
  import opened Domain
  import opened IdempotencyKeys
  import opened Idempotency
  import opened CacheRefinement
  import opened CachedAnswers
  import opened Ksync
  import opened SystemRuns
  import RunSafety

  /** All requests of the run are from one closed universe of keys. */
  ghost predicate Within(steps: seq<Step>, universe: set<Keys>) {
    && Closed(universe)
    && forall i :: 0 <= i < |steps| && steps[i].Ingesting? ==> BuildKeys(steps[i].c.e) in universe
  }

  // ---- The store of a run ----

  lemma StepKeepsStore(s: System, step: Step, universe: set<Keys>)
    requires CanTake(s, step) && Sound(s.store, universe)
    requires step.Ingesting? ==> BuildKeys(step.c.e) in universe
    ensures Sound(Take(s, step).store, universe)
  {
    match step
    case Ingesting(c, order) =>
      IngestSubmits(s, c, order);
      SubmitKeepsSound(s.store, universe, BuildKeys(c.e), c.e.id, Ingest(s, c, order).1, c.io, c.saveIo);
    case Running(_, _, _) =>
  }

  lemma NextKeepsStore(trace: seq<System>, steps: seq<Step>, n: nat, universe: set<Keys>)
    requires IsRun(trace, steps) && n < |steps| && Within(steps, universe) && Sound(trace[n].store, universe)
    ensures Sound(trace[n + 1].store, universe)
  {
    assert CanTake(trace[n], steps[n]);
    StepKeepsStore(trace[n], steps[n], universe);
  }

  lemma {:induction false} StoreStaysSound(trace: seq<System>, steps: seq<Step>, n: nat, universe: set<Keys>)
    requires IsRun(trace, steps) && n <= |steps| && Within(steps, universe)
    ensures Sound(trace[n].store, universe)
  {
    if n == 0 {
    } else {
      StoreStaysSound(trace, steps, n - 1, universe);
      NextKeepsStore(trace, steps, n - 1, universe);
    }
  }

  lemma StepKeepsCopies(s: System, step: Step, universe: set<Keys>, row: Row, exact: bool)
    requires CanTake(s, step) && Closed(universe) && Sound(s.store, universe)
    requires step.Ingesting? ==> BuildKeys(step.c.e) in universe
    requires GoodCopies(s.store, row, exact)
    ensures GoodCopies(Take(s, step).store, row, exact)
  {
    match step
    case Ingesting(c, order) =>
      IngestSubmits(s, c, order);
      SubmitKeepsCopies(s.store, universe, BuildKeys(c.e), c.e.id, Ingest(s, c, order).1, c.io, c.saveIo, row, exact);
    case Running(_, _, _) =>
  }

  lemma NextKeepsCopies(
    trace: seq<System>, steps: seq<Step>, n: nat, universe: set<Keys>, row: Row, exact: bool)
    requires IsRun(trace, steps) && n < |steps| && Within(steps, universe)
    requires GoodCopies(trace[n].store, row, exact)
    ensures GoodCopies(trace[n + 1].store, row, exact)
  {
    StoreStaysSound(trace, steps, n, universe);
    assert CanTake(trace[n], steps[n]);
    StepKeepsCopies(trace[n], steps[n], universe, row, exact);
  }

  lemma {:induction false} CopiesStayGood(
    trace: seq<System>, steps: seq<Step>, n: nat, m: nat, universe: set<Keys>, row: Row, exact: bool)
    requires IsRun(trace, steps) && n <= m <= |steps| && Within(steps, universe)
    requires GoodCopies(trace[n].store, row, exact)
    ensures GoodCopies(trace[m].store, row, exact)
  {
    if n == m {
    } else {
      CopiesStayGood(trace, steps, n, m - 1, universe, row, exact);
      NextKeepsCopies(trace, steps, m - 1, universe, row, exact);
    }
  }

  // ---- The columns of the original event ----

  /** The event's own row and its route targets; routes are recorded for known events only. */
  ghost predicate Origin(s: System, e: Event, targets: seq<RoutedTarget>) {
    KeepsEvent(s, e) && e.id in s.world.status && RouteTargetsOf(s.routes, e.id) == targets
  }

  lemma IngestRoutes(s: System, c: Call, order: seq<EventId>)
    requires CanIngest(s, c, order)
    ensures var routes := Ingest(s, c, order).0.routes;
      routes == s.routes || (c.e.id in routes && routes == s.routes[c.e.id := routes[c.e.id]])
  {
  }

  lemma IngestKeepsRoutes(s: System, c: Call, order: seq<EventId>)
    requires CanIngest(s, c, order) && Sturdy(s) && s.routes.Keys <= s.world.events.Keys
    ensures Ingest(s, c, order).0.routes.Keys <= Ingest(s, c, order).0.world.events.Keys
    ensures forall id :: id in s.world.events ==>
      RouteTargetsOf(Ingest(s, c, order).0.routes, id) == RouteTargetsOf(s.routes, id)
  {
    IngestRoutes(s, c, order);
    IngestAddsTheEvent(s, c, order);
  }

  lemma StepKeepsRoutes(s: System, step: Step)
    requires CanTake(s, step) && Sturdy(s) && s.routes.Keys <= s.world.events.Keys
    ensures Take(s, step).routes.Keys <= Take(s, step).world.events.Keys
    ensures forall id :: id in s.world.events ==>
      RouteTargetsOf(Take(s, step).routes, id) == RouteTargetsOf(s.routes, id)
  {
    match step
    case Ingesting(c, order) => IngestKeepsRoutes(s, c, order);
    case Running(id, registry, adapter) => JobRunOnWorld(s, id, registry, adapter);
  }

  lemma NextKeepsRoutes(trace: seq<System>, steps: seq<Step>, n: nat)
    requires IsRun(trace, steps) && n < |steps| && trace[n].routes.Keys <= trace[n].world.events.Keys
    ensures trace[n + 1].routes.Keys <= trace[n + 1].world.events.Keys
    ensures forall id :: id in trace[n].world.events ==>
      RouteTargetsOf(trace[n + 1].routes, id) == RouteTargetsOf(trace[n].routes, id)
  {
    RunIsSturdy(trace, steps, n);
    assert CanTake(trace[n], steps[n]);
    StepKeepsRoutes(trace[n], steps[n]);
  }

  lemma {:induction false} RoutesAreOfEvents(trace: seq<System>, steps: seq<Step>, n: nat)
    requires IsRun(trace, steps) && n <= |steps|
    ensures trace[n].routes.Keys <= trace[n].world.events.Keys
  {
    if n == 0 {
    } else {
      RoutesAreOfEvents(trace, steps, n - 1);
      NextKeepsRoutes(trace, steps, n - 1);
    }
  }

  lemma NextKeepsOrigin(trace: seq<System>, steps: seq<Step>, n: nat, e: Event, targets: seq<RoutedTarget>)
    requires IsRun(trace, steps) && n < |steps| && Origin(trace[n], e, targets)
    ensures Origin(trace[n + 1], e, targets)
  {
    RoutesAreOfEvents(trace, steps, n);
    NextKeepsRoutes(trace, steps, n);
    NextKeepsEvent(trace, steps, n, e);
    RunIsSturdy(trace, steps, n + 1);
  }

  lemma {:induction false} OriginStays(
    trace: seq<System>, steps: seq<Step>, n: nat, m: nat, e: Event, targets: seq<RoutedTarget>)
    requires IsRun(trace, steps) && n <= m <= |steps| && Origin(trace[n], e, targets)
    ensures Origin(trace[m], e, targets)
  {
    if n == m {
    } else {
      OriginStays(trace, steps, n, m - 1, e, targets);
      NextKeepsOrigin(trace, steps, m - 1, e, targets);
    }
  }

  // ---- The first answer ----

  /** The i-th step accepted a request and returned this answer. */
  ghost predicate AnsweredAt(trace: seq<System>, steps: seq<Step>, i: nat, answer: Answer)
    requires IsRun(trace, steps) && i < |steps|
  {
    && steps[i].Ingesting? && CanTake(trace[i], steps[i])
    && !Checking(trace[i], steps[i].c).1.duplicate
    && Ingest(trace[i], steps[i].c, steps[i].order).1 == Some(answer)
  }

  function AnswerRow(e: Event, answer: Answer): Row { WithAnswer(BareRow(BuildKeys(e), e.id), answer) }

  lemma AnswerIsStored(s: System, c: Call, order: seq<EventId>, universe: set<Keys>, answer: Answer)
    requires CanIngest(s, c, order) && !Checking(s, c).1.duplicate && Ingest(s, c, order).1 == Some(answer)
    requires Closed(universe) && Sound(s.store, universe) && BuildKeys(c.e) in universe
    ensures GoodCopies(Ingest(s, c, order).0.store, AnswerRow(c.e, answer), SaveReaches(BuildKeys(c.e), c.io, c.saveIo))
  {
    IngestSubmits(s, c, order);
    CheckRefinesTable(s.store, universe, BuildKeys(c.e), c.e.id, RECEIVED, c.io);
    NewRowIsExact(s.store, universe, BuildKeys(c.e), c.e.id, answer, c.io, c.saveIo);
  }

  /** The answer repeats the columns that the event row will hold. */
  lemma AnswerShowsTheRow(s: System, c: Call, order: seq<EventId>, answer: Answer)
    requires CanIngest(s, c, order) && !Checking(s, c).1.duplicate && Ingest(s, c, order).1 == Some(answer)
    requires s.routes.Keys <= s.world.events.Keys
    ensures answer == AnswerOf(c.e, answer.status, RouteTargetsOf(Ingest(s, c, order).0.routes, c.e.id))
  {
  }

  lemma FirstAnswerIsStored(trace: seq<System>, steps: seq<Step>, i: nat, universe: set<Keys>, answer: Answer)
    requires IsRun(trace, steps) && i < |steps| && Within(steps, universe) && AnsweredAt(trace, steps, i, answer)
    ensures var c := steps[i].c;
      GoodCopies(trace[i + 1].store, AnswerRow(c.e, answer), SaveReaches(BuildKeys(c.e), c.io, c.saveIo))
  {
    StoreStaysSound(trace, steps, i, universe);
    AnswerIsStored(trace[i], steps[i].c, steps[i].order, universe, answer);
  }

  lemma FirstAnswerIsRecorded(trace: seq<System>, steps: seq<Step>, i: nat, answer: Answer)
    requires IsRun(trace, steps) && i < |steps| && AnsweredAt(trace, steps, i, answer)
    ensures answer == AnswerOf(steps[i].c.e, answer.status, answer.targets)
    ensures Origin(trace[i + 1], steps[i].c.e, answer.targets)
  {
    RunIsSturdy(trace, steps, i);
    RoutesAreOfEvents(trace, steps, i);
    AnswerIsRecorded(trace[i], steps[i].c, steps[i].order, answer);
  }

  lemma AnswerIsRecorded(s: System, c: Call, order: seq<EventId>, answer: Answer)
    requires CanIngest(s, c, order) && !Checking(s, c).1.duplicate && Ingest(s, c, order).1 == Some(answer)
    requires Sturdy(s) && s.routes.Keys <= s.world.events.Keys
    ensures answer == AnswerOf(c.e, answer.status, answer.targets)
    ensures Origin(Ingest(s, c, order).0, c.e, answer.targets)
  {
    AnswerShowsTheRow(s, c, order, answer);
    IngestAddsTheEvent(s, c, order);
    StepKeepsSturdy(s, Ingesting(c, order));
  }

  // ---- The repeated answer ----

  /** All that a duplicate leaves behind: its own event record, and cache traffic. */
  ghost predicate OnlyRecords(s: System, s': System, e: Event) {
    && s'.world == s.world.(events := s.world.events[e.id := e],
                            status := s.world.status[e.id := DUPLICATE_DETECTED])
    && s' == s.(world := s'.world, store := s'.store)
    && s'.store.table == s.store.table
  }

  /** The j-th step answers like this, as a duplicate. */
  ghost predicate RepeatedAt(trace: seq<System>, steps: seq<Step>, j: nat, answer: Answer)
    requires IsRun(trace, steps) && j < |steps|
  {
    && steps[j].Ingesting? && CanTake(trace[j], steps[j])
    && Ingest(trace[j], steps[j].c, steps[j].order).1 == Some(answer.(duplicate := true))
    && OnlyRecords(trace[j], trace[j + 1], steps[j].c.e)
  }

  /** The cached answer, or one rebuilt from the original's row, which differs at most in its status. */
  lemma DuplicateIngest(
    s: System, c: Call, order: seq<EventId>, universe: set<Keys>, e: Event, answer: Answer, exact: bool)
    returns (status: EventStatus)
    requires CanIngest(s, c, order)
    requires Closed(universe) && Sound(s.store, universe) && BuildKeys(c.e) in universe
    requires GoodCopies(s.store, AnswerRow(e, answer), exact) && Overlap(BuildKeys(e), BuildKeys(c.e))
    requires answer == AnswerOf(e, answer.status, answer.targets) && Origin(s, e, answer.targets)
    ensures Ingest(s, c, order).1 == Some(answer.(duplicate := true, status := status))
    ensures status in {answer.status, s.world.status[e.id]} && (exact ==> status == answer.status)
    ensures OnlyRecords(s, Ingest(s, c, order).0, c.e)
  {
    ResubmissionGetsTheAnswer(s.store, universe, BuildKeys(c.e), c.e.id, c.io, AnswerRow(e, answer), exact);
    status := if Checking(s, c).1.cached.Some? then answer.status else s.world.status[e.id];
  }

  /**
   * Replay, whatever happened to the save: a later request with a key in common is answered like the
   * first, as a duplicate. At most the status differs, and then it is the original's current one. It adds
   * no job, conflict, pen entry or table row and changes no other event's status.
   */
  lemma ResubmissionNamesTheOriginal(
    trace: seq<System>, steps: seq<Step>, i: nat, j: nat, universe: set<Keys>, answer: Answer)
    returns (status: EventStatus)
    requires IsRun(trace, steps) && i < j < |steps| && Within(steps, universe)
    requires AnsweredAt(trace, steps, i, answer)
    requires steps[j].Ingesting? && Overlap(BuildKeys(steps[i].c.e), BuildKeys(steps[j].c.e))
    ensures RepeatedAt(trace, steps, j, answer.(status := status)) && !answer.duplicate
    ensures KeepsEvent(trace[j], steps[i].c.e) && steps[i].c.e.id in trace[j].world.status
    ensures status in {answer.status, trace[j].world.status[steps[i].c.e.id]}
    ensures SaveReaches(BuildKeys(steps[i].c.e), steps[i].c.io, steps[i].c.saveIo) ==> status == answer.status
  {
    var c := steps[i].c;
    var exact := SaveReaches(BuildKeys(c.e), c.io, c.saveIo);
    FirstAnswerIsStored(trace, steps, i, universe, answer);
    FirstAnswerIsRecorded(trace, steps, i, answer);
    CopiesStayGood(trace, steps, i + 1, j, universe, AnswerRow(c.e, answer), exact);
    OriginStays(trace, steps, i + 1, j, c.e, answer.targets);
    StoreStaysSound(trace, steps, j, universe);
    assert CanTake(trace[j], steps[j]);
    status := DuplicateIngest(trace[j], steps[j].c, steps[j].order, universe, c.e, answer, exact);
  }

  /** If the save of the first answer reached Redis, the duplicate's answer is the first one, unchanged. */
  lemma ResubmissionRepeatsTheAnswer(
    trace: seq<System>, steps: seq<Step>, i: nat, j: nat, universe: set<Keys>, answer: Answer)
    requires IsRun(trace, steps) && i < j < |steps| && Within(steps, universe)
    requires AnsweredAt(trace, steps, i, answer)
    requires SaveReaches(BuildKeys(steps[i].c.e), steps[i].c.io, steps[i].c.saveIo)
    requires steps[j].Ingesting? && Overlap(BuildKeys(steps[i].c.e), BuildKeys(steps[j].c.e))
    ensures !answer.duplicate && RepeatedAt(trace, steps, j, answer)
  {
    var status := ResubmissionNamesTheOriginal(trace, steps, i, j, universe, answer);
    assert answer.(status := status) == answer;
  }

  // ---- A request whose detection threw ----

  /** The i-th step accepted a request, and conflict detection threw. */
  ghost predicate ThrewAt(trace: seq<System>, steps: seq<Step>, i: nat)
    requires IsRun(trace, steps) && i < |steps|
  {
    && steps[i].Ingesting? && CanTake(trace[i], steps[i])
    && !Checking(trace[i], steps[i].c).1.duplicate
    && Ingest(trace[i], steps[i].c, steps[i].order).1 == None
  }

  lemma ThrownRequestIsStored(trace: seq<System>, steps: seq<Step>, i: nat, universe: set<Keys>)
    requires IsRun(trace, steps) && i < |steps| && Within(steps, universe) && ThrewAt(trace, steps, i)
    ensures GoodCopies(trace[i + 1].store, BareRow(BuildKeys(steps[i].c.e), steps[i].c.e.id), true)
  {
    var s, c := trace[i], steps[i].c;
    StoreStaysSound(trace, steps, i, universe);
    IngestSubmits(s, c, steps[i].order);
    CheckRefinesTable(s.store, universe, BuildKeys(c.e), c.e.id, RECEIVED, c.io);
    UnansweredRowIsExact(s.store, universe, BuildKeys(c.e), c.e.id, c.io, c.saveIo);
  }

  lemma ThrownIngestRoutesNothing(s: System, c: Call, order: seq<EventId>)
    requires CanIngest(s, c, order) && !Checking(s, c).1.duplicate && Ingest(s, c, order).1 == None
    ensures Ingest(s, c, order).0.routes == s.routes
  {
  }

  lemma ThrownRequestIsRecorded(trace: seq<System>, steps: seq<Step>, i: nat, j: nat)
    requires IsRun(trace, steps) && i < j <= |steps| && ThrewAt(trace, steps, i)
    ensures Origin(trace[j], steps[i].c.e, [])
    ensures trace[j].world.status[steps[i].c.e.id] == IDEMPOTENCY_ACCEPTED
  {
    var e := steps[i].c.e;
    assert RunSafety.IngestedAt(trace, steps, i, e, false, true);
    RunSafety.IngestRecordsItsVerdict(trace, steps, i, e, false, true);
    RunSafety.VerdictIsForGood(trace, steps, i + 1, j, e, false, true);
    RoutesAreOfEvents(trace, steps, i);
    ThrownIngestRoutesNothing(trace[i], steps[i].c, steps[i].order);
    OriginStays(trace, steps, i + 1, j, e, []);
  }

  lemma RebuiltIngest(s: System, c: Call, order: seq<EventId>, universe: set<Keys>, e: Event)
    requires CanIngest(s, c, order)
    requires Closed(universe) && Sound(s.store, universe) && BuildKeys(c.e) in universe
    requires GoodCopies(s.store, BareRow(BuildKeys(e), e.id), true) && Overlap(BuildKeys(e), BuildKeys(c.e))
    requires Origin(s, e, [])
    ensures Ingest(s, c, order).1 == Some(AnswerOf(e, s.world.status[e.id], []).(duplicate := true))
    ensures OnlyRecords(s, Ingest(s, c, order).0, c.e)
  {
    ResubmissionGetsTheAnswer(s.store, universe, BuildKeys(c.e), c.e.id, c.io, BareRow(BuildKeys(e), e.id), true);
  }

  /**
   * A request whose detection threw is spent: every later request with a key in common is turned away as
   * its duplicate, with the status IDEMPOTENCY_ACCEPTED and no targets, even if the rule exists by then.
   */
  lemma ThrownRequestIsNeverRetried(
    trace: seq<System>, steps: seq<Step>, i: nat, j: nat, universe: set<Keys>)
    requires IsRun(trace, steps) && i < j < |steps| && Within(steps, universe) && ThrewAt(trace, steps, i)
    requires steps[j].Ingesting? && Overlap(BuildKeys(steps[i].c.e), BuildKeys(steps[j].c.e))
    ensures RepeatedAt(trace, steps, j, AnswerOf(steps[i].c.e, IDEMPOTENCY_ACCEPTED, []))
  {
    var e := steps[i].c.e;
    ThrownRequestIsStored(trace, steps, i, universe);
    CopiesStayGood(trace, steps, i + 1, j, universe, BareRow(BuildKeys(e), e.id), true);
    ThrownRequestIsRecorded(trace, steps, i, j);
    StoreStaysSound(trace, steps, j, universe);
    assert CanTake(trace[j], steps[j]);
    RebuiltIngest(trace[j], steps[j].c, steps[j].order, universe, e);
  }
}
