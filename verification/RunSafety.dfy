/** Conflict safety over whole runs: of two clashing accepted events, at most one stays deliverable. */
module RunSafety {
  import opened Domain
  import opened HoldingPen
  import opened Conflicts
  import opened ConflictSafety
  import opened Supersessions
  import opened Delivery
  import opened Ksync
  import opened SystemRuns
  import Routing

  /** One ingest is in time: its clocks are close, Redis answers, and the window is the configured one. */
  ghost predicate OnTime(c: Call, windowSeconds: nat) {
    TimelyFor(c.e, c.env) && c.env.windowSeconds == windowSeconds
  }

  /** Received-at stamps and wall clocks do not run backwards. */
  ghost predicate Timely(steps: seq<Step>, windowSeconds: nat) {
    && (forall i :: 0 <= i < |steps| && steps[i].Ingesting? ==> OnTime(steps[i].c, windowSeconds))
    && (forall i, j :: 0 <= i < j < |steps| && steps[i].Ingesting? && steps[j].Ingesting? ==>
      && steps[i].c.e.receivedAt <= steps[j].c.e.receivedAt
      && steps[i].c.env.addNow <= steps[j].c.env.checkNow)
  }

  /** Later than every ingest among the first n steps. */
  ghost predicate After(steps: seq<Step>, n: nat, latest: int, wall: int)
    requires n <= |steps|
  {
    forall i :: 0 <= i < n && steps[i].Ingesting? ==>
      steps[i].c.e.receivedAt <= latest && steps[i].c.env.addNow <= wall
  }

  ghost predicate Guarded(s: System, latest: int, wall: int, windowSeconds: nat) {
    PenInvariant(s.world, latest, wall, windowSeconds) && Safe(s.world, windowSeconds)
  }

  lemma JudgingIsGuarded(s: System, c: Call, order: seq<EventId>)
    requires CanIngest(s, c, order) && !Checking(s, c).1.duplicate
    requires TimelyFor(c.e, c.env)
    requires Guarded(s, c.e.receivedAt, c.env.checkNow, c.env.windowSeconds)
    ensures var d := Judging(s, c, order);
      && PenInvariant(d.world, c.e.receivedAt, c.env.addNow, c.env.windowSeconds)
      && Safe(d.world, c.env.windowSeconds)
      && AdmissionEffect(Accepting(s, c), c.e, Found(Accepting(s, c), c.e, c.env).Keys, d)
  {
    var w, d := Accepting(s, c), Judging(s, c, order);
    ReceivingKeepsInvariants(s.world, c.e, IDEMPOTENCY_ACCEPTED, c.e.receivedAt, c.env.checkNow,
                             c.env.checkNow, c.env.windowSeconds);
    assert CanAdmit(w, c.e, c.env, order);
    AdmitIsAnAdmission(w, c.e, c.env, order);
    AdmissionKeepsPenInvariant(w, c.e, c.env, d, c.e.receivedAt, c.env.checkNow);
    AdmissionKeepsSafety(w, c.e, c.env, d, c.e.receivedAt, c.env.checkNow);
  }

  lemma IngestIsGuarded(s: System, c: Call, order: seq<EventId>)
    requires CanIngest(s, c, order) && TimelyFor(c.e, c.env)
    requires Guarded(s, c.e.receivedAt, c.env.checkNow, c.env.windowSeconds)
    ensures Guarded(Ingest(s, c, order).0, c.e.receivedAt, c.env.addNow, c.env.windowSeconds)
  {
    var w' := Ingest(s, c, order).0.world;
    IngestWorld(s, c, order);
    if Checking(s, c).1.duplicate {
      ReceivingKeepsInvariants(s.world, c.e, DUPLICATE_DETECTED, c.e.receivedAt, c.env.checkNow,
                               c.env.addNow, c.env.windowSeconds);
    } else {
      AcceptedIsGuarded(s, c, order, w');
    }
  }

  lemma AcceptedIsGuarded(s: System, c: Call, order: seq<EventId>, w': World)
    requires CanIngest(s, c, order) && TimelyFor(c.e, c.env) && !Checking(s, c).1.duplicate
    requires Guarded(s, c.e.receivedAt, c.env.checkNow, c.env.windowSeconds)
    requires IngestsTo(s, c, order, w')
    ensures PenInvariant(w', c.e.receivedAt, c.env.addNow, c.env.windowSeconds) && Safe(w', c.env.windowSeconds)
  {
    JudgingIsGuarded(s, c, order);
    RoutedIsLive(c);
    JudgedMovesLive(s, c, order, w');
    LiveMovesKeepInvariants(Judging(s, c, order).world, w', c.e.receivedAt, c.env.addNow, c.env.windowSeconds);
  }

  lemma JudgedMovesLive(s: System, c: Call, order: seq<EventId>, w': World)
    requires CanIngest(s, c, order) && !Checking(s, c).1.duplicate && IngestsTo(s, c, order, w')
    requires AdmissionEffect(Accepting(s, c), c.e, Found(Accepting(s, c), c.e, c.env).Keys, Judging(s, c, order))
    ensures OnlyLiveMoves(Judging(s, c, order).world, w')
  {
    RoutedIsLive(c);
    RoutedMoveIsLive(Accepting(s, c), c.e, Found(Accepting(s, c), c.e, c.env).Keys, Judging(s, c, order),
                     RoutedStatus(c), w');
  }

  lemma RoutedMoveIsLive(w: World, e: Event, found: set<EventId>, d: Detection, status: EventStatus, w': World)
    requires AdmissionEffect(w, e, found, d) && Live(status)
    requires w' == if d.Detected? && d.result.shouldContinue
      then d.world.(status := d.world.status[e.id := status]) else d.world
    ensures OnlyLiveMoves(d.world, w')
  {
  }

  lemma TimePasses(w: World, latest: int, wall: int, later: int, now: int, windowSeconds: nat)
    requires PenInvariant(w, latest, wall, windowSeconds) && latest <= later && wall <= now
    ensures PenInvariant(w, later, now, windowSeconds)
  {
  }

  /** The times up to which the pen must be sound for the step to find everything. */
  function TimeBefore(step: Step, latest: int, wall: int): (int, int) {
    match step
    case Ingesting(c, _) => (c.e.receivedAt, c.env.checkNow)
    case Running(_, _, _) => (latest, wall)
  }

  lemma JobRunIsGuarded(
    s: System, id: JobId, registry: Routing.Registry, adapter: Adapter, latest: int, wall: int, windowSeconds: nat)
    requires Sturdy(s) && Runnable(HubOf(s), id) && id.eventId in s.world.events
    requires Guarded(s, latest, wall, windowSeconds)
    ensures Guarded(RunJob(s, id, registry, adapter), latest, wall, windowSeconds)
  {
    JobRunOnWorld(s, id, registry, adapter);
    LiveMovesKeepInvariants(s.world, RunJob(s, id, registry, adapter).world, latest, wall, windowSeconds);
  }

  lemma StepIsGuarded(s: System, step: Step, latest: int, wall: int, windowSeconds: nat)
    requires CanTake(s, step) && Sturdy(s)
    requires step.Ingesting? ==>
      OnTime(step.c, windowSeconds) && step.c.e.receivedAt <= latest && step.c.env.addNow <= wall
    requires var (l, w) := TimeBefore(step, latest, wall); Guarded(s, l, w, windowSeconds)
    ensures Guarded(Take(s, step), latest, wall, windowSeconds)
  {
    match step
    case Ingesting(c, order) =>
      IngestIsGuarded(s, c, order);
      TimePasses(Ingest(s, c, order).0.world, c.e.receivedAt, c.env.addNow, latest, wall, windowSeconds);
    case Running(id, registry, adapter) =>
      JobRunIsGuarded(s, id, registry, adapter, latest, wall, windowSeconds);
  }

  lemma NextIsGuarded(trace: seq<System>, steps: seq<Step>, n: nat, latest: int, wall: int, windowSeconds: nat)
    requires IsRun(trace, steps) && n < |steps|
    requires steps[n].Ingesting? ==>
      OnTime(steps[n].c, windowSeconds) && steps[n].c.e.receivedAt <= latest && steps[n].c.env.addNow <= wall
    requires var (l, w) := TimeBefore(steps[n], latest, wall); Guarded(trace[n], l, w, windowSeconds)
    ensures Guarded(trace[n + 1], latest, wall, windowSeconds)
  {
    RunIsSturdy(trace, steps, n);
    StepIsGuarded(trace[n], steps[n], latest, wall, windowSeconds);
  }

  lemma {:induction false} RunIsGuarded(
    trace: seq<System>, steps: seq<Step>, n: nat, latest: int, wall: int, windowSeconds: nat)
    requires IsRun(trace, steps) && n <= |steps| && Timely(steps, windowSeconds)
    requires After(steps, n, latest, wall)
    ensures Guarded(trace[n], latest, wall, windowSeconds)
  {
    if n == 0 {
    } else {
      var (l, w) := TimeBefore(steps[n - 1], latest, wall);
      RunIsGuarded(trace, steps, n - 1, l, w, windowSeconds);
      NextIsGuarded(trace, steps, n - 1, latest, wall, windowSeconds);
    }
  }

  lemma LaterTimeExists(steps: seq<Step>, n: nat) returns (latest: int, wall: int)
    requires n <= |steps|
    ensures After(steps, n, latest, wall)
  {
    latest, wall := 0, 0;
    for i := 0 to n
      invariant After(steps, i, latest, wall)
    {
      if steps[i].Ingesting? {
        latest := Max(latest, steps[i].c.e.receivedAt);
        wall := Max(wall, steps[i].c.env.addNow);
      }
    }
  }

  /** In a guarded state a timely detection finds exactly the declarative competitors. */
  lemma GuardedDetectionIsExact(s: System, c: Call)
    requires c.e.id !in s.world.events && TimelyFor(c.e, c.env)
    requires Guarded(s, c.e.receivedAt, c.env.checkNow, c.env.windowSeconds)
    ensures WellFormed(Accepting(s, c))
    ensures Found(Accepting(s, c), c.e, c.env) == Competitors(Accepting(s, c), c.e, c.env.windowSeconds)
  {
    var w := Accepting(s, c);
    ReceivingKeepsInvariants(s.world, c.e, IDEMPOTENCY_ACCEPTED, c.e.receivedAt, c.env.checkNow,
                             c.env.checkNow, c.env.windowSeconds);
    InvariantGivesCompletePen(w, c.e, c.env, c.e.receivedAt, c.env.checkNow);
    FoundAreExactlyTheCompetitors(w, c.e, c.env);
  }

  lemma IngestFindsGuarded(trace: seq<System>, steps: seq<Step>, n: nat, windowSeconds: nat)
    requires IsRun(trace, steps) && n < |steps| && Timely(steps, windowSeconds) && steps[n].Ingesting?
    ensures var c := steps[n].c;
      && CanIngest(trace[n], c, steps[n].order) && OnTime(c, windowSeconds)
      && Guarded(trace[n], c.e.receivedAt, c.env.checkNow, windowSeconds)
  {
    assert CanTake(trace[n], steps[n]);
    RunIsGuarded(trace, steps, n, steps[n].c.e.receivedAt, steps[n].c.env.checkNow, windowSeconds);
  }

  /**
   * Lazy pruning is invisible, in every reachable state: the detection of a timely ingest finds exactly
   * the earlier admitted, unsuperseded events of other systems inside the window, each with exactly the
   * paths that the two events share.
   */
  lemma CandidatesAreRefined(trace: seq<System>, steps: seq<Step>, n: nat, windowSeconds: nat)
    requires IsRun(trace, steps) && n < |steps| && Timely(steps, windowSeconds) && steps[n].Ingesting?
    ensures var c := steps[n].c; var w := Accepting(trace[n], c);
      WellFormed(w) && Found(w, c.e, c.env) == Competitors(w, c.e, windowSeconds)
  {
    IngestFindsGuarded(trace, steps, n, windowSeconds);
    GuardedDetectionIsExact(trace[n], steps[n].c);
  }

  // ---- Which accepted events are admitted ----

  lemma FoundAreAdmitted(w: World, e: Event, env: Env, id: EventId)
    requires WellFormed(w) && PenSound(w)
    requires id in Found(w, e, env)
    ensures !Unadmitted(w.status[id])
  {
    var raw := CheckForConflicts(w.pen, e, env.windowSeconds, env.checkNow, env.faults).1;
    var path :| Candidate(id, path) in raw;
    assert EntrySound(w, PenKey(e.ubid, path), id, w.pen[PenKey(e.ubid, path)].scores[id]);
  }

  /** The status of an event, as far as its own ingest decided it. */
  ghost predicate Admissible(status: EventStatus, duplicate: bool, threw: bool) {
    && status != RECEIVED
    && (status == DUPLICATE_DETECTED <==> duplicate)
    && (status == IDEMPOTENCY_ACCEPTED <==> !duplicate && threw)
  }

  lemma IngestSettlesTheNewEvent(s: System, c: Call, order: seq<EventId>)
    requires CanIngest(s, c, order) && LinksSound(s.world)
    ensures var (s', answer) := Ingest(s, c, order);
      && c.e.id in s'.world.status
      && Admissible(s'.world.status[c.e.id], Checking(s, c).1.duplicate, answer.None?)
  {
    IngestWorld(s, c, order);
    RoutedIsLive(c);
    if !Checking(s, c).1.duplicate {
      JudgingKeepsLinks(s, c, order);
    }
  }

  lemma UnadmittedAreNotFound(s: System, c: Call, id: EventId)
    requires WellFormed(s.world) && PenSound(s.world) && c.e.id !in s.world.events
    requires id in s.world.events && Unadmitted(s.world.status[id])
    ensures id !in Found(Accepting(s, c), c.e, c.env)
  {
    ReceivingKeepsPenSound(s.world, c.e, IDEMPOTENCY_ACCEPTED);
    if id in Found(Accepting(s, c), c.e, c.env) {
      FoundAreAdmitted(Accepting(s, c), c.e, c.env, id);
    }
  }

  lemma JudgingLeavesTheUnadmittedAlone(s: System, c: Call, order: seq<EventId>, id: EventId)
    requires CanIngest(s, c, order) && !Checking(s, c).1.duplicate
    requires LinksSound(s.world) && PenSound(s.world)
    requires id in s.world.events && Unadmitted(s.world.status[id])
    ensures id in Judging(s, c, order).world.status
    ensures Judging(s, c, order).world.status[id] == s.world.status[id]
  {
    JudgingKeepsLinks(s, c, order);
    UnadmittedAreNotFound(s, c, id);
  }

  lemma IngestLeavesTheUnadmittedAlone(s: System, c: Call, order: seq<EventId>, id: EventId)
    requires CanIngest(s, c, order) && LinksSound(s.world) && PenSound(s.world)
    requires id in s.world.events && Unadmitted(s.world.status[id])
    ensures id in Ingest(s, c, order).0.world.status
    ensures Ingest(s, c, order).0.world.status[id] == s.world.status[id]
  {
    IngestWorld(s, c, order);
    if !Checking(s, c).1.duplicate {
      JudgingLeavesTheUnadmittedAlone(s, c, order, id);
    }
  }

  /** No later step changes whether an event is unadmitted, and an unadmitted one keeps its status. */
  lemma StepKeepsAdmission(s: System, step: Step, id: EventId)
    requires CanTake(s, step) && Sturdy(s) && PenSound(s.world)
    requires id in s.world.events
    ensures id in Take(s, step).world.status
    ensures Unadmitted(s.world.status[id]) || Unadmitted(Take(s, step).world.status[id]) ==>
      Take(s, step).world.status[id] == s.world.status[id]
  {
    match step
    case Ingesting(c, order) =>
      IngestSettlesOldOnes(s, c, order);
      if Unadmitted(s.world.status[id]) {
        IngestLeavesTheUnadmittedAlone(s, c, order, id);
      }
    case Running(job, registry, adapter) => JobRunOnWorld(s, job, registry, adapter);
  }

  /** The i-th step ingested the event, with this verdict. */
  ghost predicate IngestedAt(trace: seq<System>, steps: seq<Step>, i: nat, x: Event, duplicate: bool, threw: bool)
    requires IsRun(trace, steps) && i < |steps|
  {
    && steps[i].Ingesting? && steps[i].c.e == x
    && CanTake(trace[i], steps[i])
    && duplicate == Checking(trace[i], steps[i].c).1.duplicate
    && threw == Ingest(trace[i], steps[i].c, steps[i].order).1.None?
  }

  ghost predicate Shows(s: System, x: Event, duplicate: bool, threw: bool) {
    && x.id in s.world.events && s.world.events[x.id] == x
    && x.id in s.world.status && Admissible(s.world.status[x.id], duplicate, threw)
  }

  // ---- The pen stays sound whatever Redis and the clocks do ----

  lemma JudgingKeepsPenSound(s: System, c: Call, order: seq<EventId>)
    requires CanIngest(s, c, order) && !Checking(s, c).1.duplicate
    requires LinksSound(s.world) && PenSound(s.world)
    ensures var d := Judging(s, c, order);
      && d.world.status.Keys == d.world.events.Keys && PenSound(d.world)
      && AdmissionEffect(Accepting(s, c), c.e, Found(Accepting(s, c), c.e, c.env).Keys, d)
  {
    var w := Accepting(s, c);
    ReceivingKeepsPenSound(s.world, c.e, IDEMPOTENCY_ACCEPTED);
    assert CanAdmit(w, c.e, c.env, order);
    AdmitIsAnAdmission(w, c.e, c.env, order);
    AdmissionKeepsPenSound(w, c.e, c.env, Judging(s, c, order));
  }

  lemma AcceptedKeepsPenSound(s: System, c: Call, order: seq<EventId>, w': World)
    requires CanIngest(s, c, order) && !Checking(s, c).1.duplicate && IngestsTo(s, c, order, w')
    requires LinksSound(s.world) && PenSound(s.world)
    ensures w'.status.Keys == w'.events.Keys && PenSound(w')
  {
    JudgingKeepsPenSound(s, c, order);
    JudgedMovesLive(s, c, order, w');
    LiveMovesKeepPenSound(Judging(s, c, order).world, w');
  }

  lemma IngestKeepsPenSound(s: System, c: Call, order: seq<EventId>)
    requires CanIngest(s, c, order) && LinksSound(s.world) && PenSound(s.world)
    ensures var w' := Ingest(s, c, order).0.world; w'.status.Keys == w'.events.Keys && PenSound(w')
  {
    IngestWorld(s, c, order);
    if Checking(s, c).1.duplicate {
      ReceivingKeepsPenSound(s.world, c.e, DUPLICATE_DETECTED);
    } else {
      AcceptedKeepsPenSound(s, c, order, Ingest(s, c, order).0.world);
    }
  }

  lemma JobRunKeepsPenSound(s: System, id: JobId, registry: Routing.Registry, adapter: Adapter)
    requires Sturdy(s) && PenSound(s.world) && Runnable(HubOf(s), id) && id.eventId in s.world.events
    ensures var w' := RunJob(s, id, registry, adapter).world; w'.status.Keys == w'.events.Keys && PenSound(w')
  {
    JobRunOnWorld(s, id, registry, adapter);
    LiveMovesKeepPenSound(s.world, RunJob(s, id, registry, adapter).world);
  }

  lemma NextPenIsSound(trace: seq<System>, steps: seq<Step>, n: nat)
    requires IsRun(trace, steps) && n < |steps|
    requires trace[n].world.status.Keys == trace[n].world.events.Keys && PenSound(trace[n].world)
    ensures trace[n + 1].world.status.Keys == trace[n + 1].world.events.Keys && PenSound(trace[n + 1].world)
  {
    RunIsSturdy(trace, steps, n);
    assert CanTake(trace[n], steps[n]);
    match steps[n]
    case Ingesting(c, order) => IngestKeepsPenSound(trace[n], c, order);
    case Running(id, registry, adapter) => JobRunKeepsPenSound(trace[n], id, registry, adapter);
  }

  lemma {:induction false} PenStaysSound(trace: seq<System>, steps: seq<Step>, n: nat)
    requires IsRun(trace, steps) && n <= |steps|
    ensures trace[n].world.status.Keys == trace[n].world.events.Keys && PenSound(trace[n].world)
  {
    if n == 0 {
    } else {
      PenStaysSound(trace, steps, n - 1);
      NextPenIsSound(trace, steps, n - 1);
    }
  }

  lemma StepKeepsShown(s: System, step: Step, s': System, x: Event, duplicate: bool, threw: bool)
    requires CanTake(s, step) && s' == Take(s, step) && Sturdy(s) && PenSound(s.world)
    requires Shows(s, x, duplicate, threw)
    ensures Shows(s', x, duplicate, threw)
  {
    StepKeepsAdmission(s, step, x.id);
    TakeKeepsEvents(s, step, x.id);
  }

  lemma NextShows(trace: seq<System>, steps: seq<Step>, n: nat, x: Event, duplicate: bool, threw: bool)
    requires IsRun(trace, steps) && n < |steps|
    requires Shows(trace[n], x, duplicate, threw)
    ensures Shows(trace[n + 1], x, duplicate, threw)
  {
    PenStaysSound(trace, steps, n);
    RunIsSturdy(trace, steps, n);
    assert CanTake(trace[n], steps[n]);
    StepKeepsShown(trace[n], steps[n], trace[n + 1], x, duplicate, threw);
  }

  /** The verdict of an event's own ingest stays readable in its status for good, whatever Redis does. */
  lemma {:induction false} VerdictIsForGood(
    trace: seq<System>, steps: seq<Step>, m: nat, n: nat, x: Event, duplicate: bool, threw: bool)
    requires IsRun(trace, steps) && m <= n <= |steps|
    requires Shows(trace[m], x, duplicate, threw)
    ensures Shows(trace[n], x, duplicate, threw)
  {
    if m == n {
    } else {
      VerdictIsForGood(trace, steps, m, n - 1, x, duplicate, threw);
      NextShows(trace, steps, n - 1, x, duplicate, threw);
    }
  }

  /** After its ingest the status of an event tells duplicates, thrown detections and admissions apart. */
  lemma IngestRecordsItsVerdict(trace: seq<System>, steps: seq<Step>, i: nat, x: Event, duplicate: bool, threw: bool)
    requires IsRun(trace, steps) && i < |steps|
    requires IngestedAt(trace, steps, i, x, duplicate, threw)
    ensures Shows(trace[i + 1], x, duplicate, threw)
  {
    RunIsSturdy(trace, steps, i);
    IngestSettlesTheNewEvent(trace[i], steps[i].c, steps[i].order);
    IngestAddsTheEvent(trace[i], steps[i].c, steps[i].order);
  }

  /** What conflict detection has taken out of delivery. */
  predicate Withheld(status: EventStatus) {
    status in {SUPERSEDED, MANUAL_REVIEW_REQUIRED}
  }

  lemma GuardedPairIsWithheld(s: System, latest: int, wall: int, windowSeconds: nat, a: Event, b: Event)
    requires Guarded(s, latest, wall, windowSeconds)
    requires Shows(s, a, false, false) && Shows(s, b, false, false)
    requires Clash(a, b, windowSeconds)
    ensures Withheld(s.world.status[a.id]) || Withheld(s.world.status[b.id])
  {
  }

  /**
   * Conflict safety, for every reachable state: of two admitted events on one UBID, from different
   * systems, sharing a field path and received within the window, one is superseded or parked.
   */
  lemma OneOfTwoClashingEventsIsWithheld(
    trace: seq<System>, steps: seq<Step>, n: nat, windowSeconds: nat, a: Event, b: Event)
    requires IsRun(trace, steps) && n <= |steps| && Timely(steps, windowSeconds)
    requires Shows(trace[n], a, false, false) && Shows(trace[n], b, false, false)
    requires Clash(a, b, windowSeconds)
    ensures Withheld(trace[n].world.status[a.id]) || Withheld(trace[n].world.status[b.id])
  {
    var latest, wall := LaterTimeExists(steps, n);
    RunIsGuarded(trace, steps, n, latest, wall, windowSeconds);
    GuardedPairIsWithheld(trace[n], latest, wall, windowSeconds, a, b);
  }

  lemma ResolveThrowsIffUncovered(
    v: World, e: Event, env: Env, groups: map<EventId, set<FieldPath>>, order: seq<EventId>)
    requires groups.Keys <= v.events.Keys && forall id :: id in order ==> id in groups
    ensures Recorded(e, Resolve(v, e, env, groups, order)).RuleMissing? <==> !AllCovered(env.matrix, groups)
  {
  }

  /** An accepted ingest throws exactly when some competing event shares a field without a rule. */
  lemma ThrowsIffARuleIsMissing(s: System, c: Call, order: seq<EventId>)
    requires CanIngest(s, c, order) && !Checking(s, c).1.duplicate
    ensures Ingest(s, c, order).1.None? <==>
      !AllCovered(c.env.matrix, Found(Accepting(s, c), c.e, c.env))
  {
    var w := Accepting(s, c);
    ResolveThrowsIffUncovered(Checked(w, c.e, c.env), c.e, c.env, Found(w, c.e, c.env), order);
  }
}
