/** How far conflict safety reaches: exactly which ingests leave two clashing accepted events both standing. */
module SafetyLimits {
  import opened Domain
  import opened HoldingPen
  import opened Conflicts
  import opened ConflictSafety
  import opened Supersessions
  import opened IdempotencyKeys
  import opened Idempotency
  import opened CacheRefinement
  import opened CachedAnswers
  import opened Ksync
  import opened SystemRuns
  import opened RunSafety
  import Authority

  /** Accepted and neither superseded nor parked: deliverable, or left behind by a detection that threw. */
  predicate Standing(status: EventStatus) { Live(status) || status == IDEMPOTENCY_ACCEPTED }

  /** Of any two accepted events that clash, one is withheld. */
  ghost predicate AllSafe(w: World, windowSeconds: nat)
    requires w.status.Keys == w.events.Keys
  {
    forall a, b :: a in w.events && b in w.events && Standing(w.status[a]) && Standing(w.status[b]) ==>
      !Clash(w.events[a], w.events[b], windowSeconds)
  }

  predicate OneWithheld(status: map<EventId, EventStatus>, a: EventId, b: EventId) {
    (a in status && Withheld(status[a])) || (b in status && Withheld(status[b]))
  }

  /** Every event that stood before and clashes with the new one is withheld after, or the new one is. */
  ghost predicate ClashesWithheld(before: World, e: Event, after: World, windowSeconds: nat) {
    forall id | id in before.events && id in before.status
      && Standing(before.status[id]) && Clash(e, before.events[id], windowSeconds) ::
      OneWithheld(after.status, id, e.id)
  }

  // ---- The condition, on what there is before the ingest ----

  /** The detection parks or supersedes the new event: all rules are there, and against some event it does not win. */
  predicate EndsWithheld(
    events: map<EventId, Event>, e: Event, matrix: Authority.Matrix, found: map<EventId, set<FieldPath>>)
  {
    && AllCovered(matrix, found)
    && exists id | id in found && id in events ::
      Authority.Outcome(matrix, e, events[id], found[id]) != Authority.CURRENT_WINS
  }

  /** Every found event has rules for the fields it shares with the new one, or none of them is deliverable. */
  predicate Decidable(
    status: map<EventId, EventStatus>, matrix: Authority.Matrix, found: map<EventId, set<FieldPath>>)
  {
    AllCovered(matrix, found) || forall id :: id in found && id in status ==> !Live(status[id])
  }

  /** The new event clashes with one whose own detection threw; no detection finds such an event. */
  ghost predicate MeetsThrown(w: World, e: Event, windowSeconds: nat) {
    exists id :: id in w.events && id in w.status
      && w.status[id] == IDEMPOTENCY_ACCEPTED && Clash(e, w.events[id], windowSeconds)
  }

  ghost predicate SafeToIngest(
    w: World, e: Event, matrix: Authority.Matrix, found: map<EventId, set<FieldPath>>, windowSeconds: nat)
  {
    || EndsWithheld(w.events, e, matrix, found)
    || (Decidable(w.status, matrix, found) && !MeetsThrown(w, e, windowSeconds))
  }

  // ---- What one ingest decides ----

  lemma VerdictOfOutcomes(v: World, e: Event, env: Env, groups: map<EventId, set<FieldPath>>, order: seq<EventId>)
    requires groups.Keys <= v.events.Keys && e.id in v.status
    requires forall id :: id in order ==> id in groups
    ensures var a := Recorded(e, Resolve(v, e, env, groups, order));
      && (a.Detected? <==> AllCovered(env.matrix, groups))
      && (a.Detected? ==> (Withheld(a.result.status) <==> EndsWithheld(v.events, e, env.matrix, groups)))
      && (a.Detected? && !Withheld(a.result.status) && groups != map[] ==> a.result.status == CONFLICT_RESOLVED)
  {
    ResolveThrowsIffUncovered(v, e, env, groups, order);
    if AllCovered(env.matrix, groups) {
      VerdictFromEnds(v, e, env, groups, order);
      EndsOfOutcomes(v, e, env.matrix, groups);
    }
  }

  lemma EndsOfOutcomes(v: World, e: Event, matrix: Authority.Matrix, groups: map<EventId, set<FieldPath>>)
    requires groups.Keys <= v.events.Keys && AllCovered(matrix, groups)
    ensures EndsWithheld(v.events, e, matrix, groups) <==>
      Ends(v, e, matrix, groups, Authority.NEEDS_REVIEW) || Ends(v, e, matrix, groups, Authority.CURRENT_LOSES)
  {
  }

  /** Which events an ingest withholds. */
  ghost predicate Decides(
    before: World, e: Event, after: World, matrix: Authority.Matrix, found: map<EventId, set<FieldPath>>)
  {
    && e.id in after.status
    && (Withheld(after.status[e.id]) <==> EndsWithheld(before.events, e, matrix, found))
    && forall id | id in before.status && id != e.id ::
      && id in after.status
      && after.status[id] ==
        if AllCovered(matrix, found) && !EndsWithheld(before.events, e, matrix, found) && id in found then SUPERSEDED
        else before.status[id]
  }

  lemma EffectDecides(w: World, e: Event, matrix: Authority.Matrix, found: map<EventId, set<FieldPath>>, a: Detection)
    requires AdmissionEffect(w, e, found.Keys, a)
    requires e.id in w.status && w.status[e.id] == IDEMPOTENCY_ACCEPTED && e.id !in found
    requires a.Detected? <==> AllCovered(matrix, found)
    requires a.Detected? ==> (Withheld(a.result.status) <==> EndsWithheld(w.events, e, matrix, found))
    requires a.Detected? && !Withheld(a.result.status) && found != map[] ==> a.result.status == CONFLICT_RESOLVED
    ensures Decides(w, e, a.world, matrix, found)
  {
  }

  /** Receiving before and routing after the detection change none of this. */
  lemma RoutingDecidesTheSame(
    before: World, e: Event, judged: World, after: World, matrix: Authority.Matrix,
    found: map<EventId, set<FieldPath>>)
    requires e.id !in before.events && e.id !in before.status && found.Keys <= before.events.Keys
    requires Decides(Receive(before, e, IDEMPOTENCY_ACCEPTED), e, judged, matrix, found)
    requires OnlyLiveMoves(judged, after)
    requires forall id :: id in before.status ==> id in judged.status && after.status[id] == judged.status[id]
    ensures Decides(before, e, after, matrix, found)
  {
    assert EndsWithheld(Receive(before, e, IDEMPOTENCY_ACCEPTED).events, e, matrix, found)
      == EndsWithheld(before.events, e, matrix, found);
  }

  lemma FoundAreOlder(s: System, c: Call)
    requires WellFormed(s.world) && c.e.id !in s.world.events
    ensures c.e.id !in Found(Accepting(s, c), c.e, c.env)
    ensures Found(Accepting(s, c), c.e, c.env).Keys <= s.world.events.Keys
  {
  }

  lemma JudgingDecides(s: System, c: Call, order: seq<EventId>)
    requires CanIngest(s, c, order) && !Checking(s, c).1.duplicate && LinksSound(s.world)
    ensures Decides(Accepting(s, c), c.e, Judging(s, c, order).world, c.env.matrix, Found(Accepting(s, c), c.e, c.env))
  {
    var w, found := Accepting(s, c), Found(Accepting(s, c), c.e, c.env);
    JudgingKeepsLinks(s, c, order);
    FoundAreOlder(s, c);
    VerdictOfOutcomes(Checked(w, c.e, c.env), c.e, c.env, found, order);
    EffectDecides(w, c.e, c.env.matrix, found, Judging(s, c, order));
  }

  lemma RoutedWorld(judged: Detection, e: EventId, status: EventStatus, w': World, known: set<EventId>)
    requires w' == if judged.Detected? && judged.result.shouldContinue
      then judged.world.(status := judged.world.status[e := status]) else judged.world
    requires known <= judged.world.status.Keys && e !in known
    ensures forall id :: id in known ==> w'.status[id] == judged.world.status[id]
  {
  }

  lemma OnlyTheNewIsRouted(s: System, c: Call, order: seq<EventId>, w': World)
    requires CanIngest(s, c, order) && !Checking(s, c).1.duplicate && LinksSound(s.world)
    requires IngestsTo(s, c, order, w')
    ensures OnlyLiveMoves(Judging(s, c, order).world, w')
    ensures forall id :: id in s.world.status ==>
      id in Judging(s, c, order).world.status && w'.status[id] == Judging(s, c, order).world.status[id]
  {
    JudgingSettlesOldOnes(s, c, order);
    JudgingKeepsLinks(s, c, order);
    JudgedMovesLive(s, c, order, w');
    RoutedWorld(Judging(s, c, order), c.e.id, RoutedStatus(c), w', s.world.status.Keys);
  }

  lemma IngestDecides(s: System, c: Call, order: seq<EventId>)
    requires CanIngest(s, c, order) && !Checking(s, c).1.duplicate && LinksSound(s.world)
    ensures Decides(s.world, c.e, Ingest(s, c, order).0.world, c.env.matrix, Found(Accepting(s, c), c.e, c.env))
  {
    var w' := Ingest(s, c, order).0.world;
    IngestWorld(s, c, order);
    JudgingDecides(s, c, order);
    OnlyTheNewIsRouted(s, c, order, w');
    FoundAreOlder(s, c);
    RoutingDecidesTheSame(s.world, c.e, Judging(s, c, order).world, w', c.env.matrix,
                          Found(Accepting(s, c), c.e, c.env));
  }

  // ---- The exact condition, for one ingest ----

  /** What a detection finds, on the events before it: the admitted, unsuperseded ones that clash. */
  ghost predicate FindsClashes(w: World, e: Event, found: map<EventId, set<FieldPath>>, windowSeconds: nat)
    requires w.status.Keys == w.events.Keys
  {
    forall id | id in w.events :: id in found <==> Settled(w.status[id]) && Clash(e, w.events[id], windowSeconds)
  }

  lemma CompetitorsClash(before: World, e: Event, windowSeconds: nat)
    requires WellFormed(before) && e.id !in before.events
    requires forall id :: id in before.events ==> before.events[id].receivedAt <= e.receivedAt
    ensures var found := Competitors(Receive(before, e, IDEMPOTENCY_ACCEPTED), e, windowSeconds);
      FindsClashes(before, e, found, windowSeconds)
  {
    forall id | id in before.events ensures Paths(before.events[id]) * Paths(e) == Paths(e) * Paths(before.events[id]) {
    }
  }

  /** Safety of one ingest, in terms of what it found and decided. */
  lemma WithheldIff(
    before: World, e: Event, after: World, matrix: Authority.Matrix, found: map<EventId, set<FieldPath>>,
    windowSeconds: nat)
    requires before.status.Keys == before.events.Keys && e.id !in before.events
    requires found.Keys <= before.events.Keys
    requires Decides(before, e, after, matrix, found) && FindsClashes(before, e, found, windowSeconds)
    ensures ClashesWithheld(before, e, after, windowSeconds)
      <==> SafeToIngest(before, e, matrix, found, windowSeconds)
  {
    if !EndsWithheld(before.events, e, matrix, found) {
      if MeetsThrown(before, e, windowSeconds) {
        var id :| id in before.events && before.status[id] == IDEMPOTENCY_ACCEPTED
          && Clash(e, before.events[id], windowSeconds);
        assert !OneWithheld(after.status, id, e.id);
      } else if !Decidable(before.status, matrix, found) {
        var id :| id in found && id in before.status && Live(before.status[id]);
        assert !OneWithheld(after.status, id, e.id);
      }
    }
  }

  /**
   * Exactly when safety holds, for any guarded state and any matrix: a timely accepted ingest leaves one of
   * each clashing accepted pair withheld if and only if it ends with the new event withheld, or the new
   * event clashes with none whose detection threw and all found events have rules for all shared fields
   * unless none of them is deliverable.
   */
  lemma SafetyOfAnIngest(s: System, c: Call, order: seq<EventId>)
    requires CanIngest(s, c, order) && !Checking(s, c).1.duplicate && TimelyFor(c.e, c.env)
    requires LinksSound(s.world) && Guarded(s, c.e.receivedAt, c.env.checkNow, c.env.windowSeconds)
    ensures ClashesWithheld(s.world, c.e, Ingest(s, c, order).0.world, c.env.windowSeconds)
      <==> SafeToIngest(s.world, c.e, c.env.matrix, Found(Accepting(s, c), c.e, c.env), c.env.windowSeconds)
  {
    GuardedDetectionIsExact(s, c);
    CompetitorsClash(s.world, c.e, c.env.windowSeconds);
    FoundAreOlder(s, c);
    IngestDecides(s, c, order);
    WithheldIff(s.world, c.e, Ingest(s, c, order).0.world, c.env.matrix, Found(Accepting(s, c), c.e, c.env),
                c.env.windowSeconds);
  }

  // ---- And over whole runs ----

  /** The step is a worker run, a duplicate, or safe to ingest; all given by the event table alone. */
  ghost predicate SafeStep(s: System, step: Step, windowSeconds: nat) {
    step.Ingesting? && !Checking(s, step.c).1.duplicate ==>
      && WellFormed(s.world) && WellFormed(Accepting(s, step.c))
      && SafeToIngest(s.world, step.c.e, step.c.env.matrix,
                      Competitors(Accepting(s, step.c), step.c.e, windowSeconds), windowSeconds)
  }

  lemma SafeAfterIngest(before: World, e: Event, after: World, windowSeconds: nat)
    requires WellFormed(before) && AllSafe(before, windowSeconds) && e.id !in before.events
    requires after.events == before.events[e.id := e] && after.status.Keys == after.events.Keys
    requires OldOnesSettle(before, after)
    requires Standing(after.status[e.id]) || Withheld(after.status[e.id])
    ensures AllSafe(after, windowSeconds) <==> ClashesWithheld(before, e, after, windowSeconds)
  {
    if ClashesWithheld(before, e, after, windowSeconds) {
      forall a, b | a in after.events && b in after.events && Standing(after.status[a]) && Standing(after.status[b])
        ensures !Clash(after.events[a], after.events[b], windowSeconds)
      {
        ClashIsSymmetric(after.events[a], after.events[b], windowSeconds);
      }
    }
  }

  lemma DuplicateKeepsAllSafe(w: World, e: Event, windowSeconds: nat)
    requires WellFormed(w) && e.id !in w.events
    ensures AllSafe(Receive(w, e, DUPLICATE_DETECTED), windowSeconds) <==> AllSafe(w, windowSeconds)
  {
    var w' := Receive(w, e, DUPLICATE_DETECTED);
    assert forall id :: id in w.events ==>
      id in w'.events && w'.events[id] == w.events[id] && w'.status[id] == w.status[id];
  }

  lemma LiveMovesKeepAllSafe(w: World, w': World, windowSeconds: nat)
    requires WellFormed(w) && OnlyLiveMoves(w, w')
    ensures AllSafe(w', windowSeconds) <==> AllSafe(w, windowSeconds)
  {
    assert forall id :: id in w.status ==> (Standing(w'.status[id]) <==> Standing(w.status[id]));
  }

  /** What an accepted ingest leaves, as far as it concerns pairs of events. */
  lemma AcceptedIngest(s: System, c: Call, order: seq<EventId>)
    requires CanIngest(s, c, order) && LinksSound(s.world) && !Checking(s, c).1.duplicate
    ensures var w' := Ingest(s, c, order).0.world;
      && WellFormed(w') && w'.events == s.world.events[c.e.id := c.e]
      && OldOnesSettle(s.world, w')
      && (Standing(w'.status[c.e.id]) || Withheld(w'.status[c.e.id]))
  {
    IngestKeepsLinks(s, c, order);
    IngestAddsTheEvent(s, c, order);
    IngestSettlesOldOnes(s, c, order);
    IngestSettlesTheNewEvent(s, c, order);
  }

  lemma AcceptedIsSafeIff(s: System, c: Call, order: seq<EventId>)
    requires CanIngest(s, c, order) && TimelyFor(c.e, c.env) && LinksSound(s.world)
    requires Guarded(s, c.e.receivedAt, c.env.checkNow, c.env.windowSeconds)
    requires AllSafe(s.world, c.env.windowSeconds) && !Checking(s, c).1.duplicate
    ensures WellFormed(Ingest(s, c, order).0.world) && WellFormed(Accepting(s, c))
    ensures AllSafe(Ingest(s, c, order).0.world, c.env.windowSeconds)
      <==> SafeToIngest(s.world, c.e, c.env.matrix, Competitors(Accepting(s, c), c.e, c.env.windowSeconds),
                        c.env.windowSeconds)
  {
    AcceptedIngest(s, c, order);
    GuardedDetectionIsExact(s, c);
    SafetyOfAnIngest(s, c, order);
    SafeAfterIngest(s.world, c.e, Ingest(s, c, order).0.world, c.env.windowSeconds);
  }

  lemma DuplicateIsSafe(s: System, c: Call, order: seq<EventId>, windowSeconds: nat)
    requires CanIngest(s, c, order) && WellFormed(s.world) && Checking(s, c).1.duplicate
    ensures WellFormed(Ingest(s, c, order).0.world)
    ensures AllSafe(Ingest(s, c, order).0.world, windowSeconds) <==> AllSafe(s.world, windowSeconds)
  {
    IngestWorld(s, c, order);
    DuplicateKeepsAllSafe(s.world, c.e, windowSeconds);
  }

  lemma IngestIsSafeIff(s: System, c: Call, order: seq<EventId>)
    requires CanIngest(s, c, order) && TimelyFor(c.e, c.env) && LinksSound(s.world)
    requires Guarded(s, c.e.receivedAt, c.env.checkNow, c.env.windowSeconds)
    requires AllSafe(s.world, c.env.windowSeconds)
    ensures WellFormed(Ingest(s, c, order).0.world)
    ensures AllSafe(Ingest(s, c, order).0.world, c.env.windowSeconds)
      <==> SafeStep(s, Ingesting(c, order), c.env.windowSeconds)
  {
    if Checking(s, c).1.duplicate {
      DuplicateIsSafe(s, c, order, c.env.windowSeconds);
    } else {
      AcceptedIsSafeIff(s, c, order);
    }
  }

  lemma NextIsSafeIff(trace: seq<System>, steps: seq<Step>, n: nat, windowSeconds: nat)
    requires IsRun(trace, steps) && n < |steps| && Timely(steps, windowSeconds)
    requires WellFormed(trace[n].world) && AllSafe(trace[n].world, windowSeconds)
    ensures WellFormed(trace[n + 1].world)
    ensures AllSafe(trace[n + 1].world, windowSeconds) <==> SafeStep(trace[n], steps[n], windowSeconds)
  {
    RunIsSturdy(trace, steps, n);
    RunIsSturdy(trace, steps, n + 1);
    assert CanTake(trace[n], steps[n]);
    match steps[n]
    case Ingesting(c, order) =>
      IngestFindsGuarded(trace, steps, n, windowSeconds);
      IngestIsSafeIff(trace[n], c, order);
    case Running(id, registry, adapter) =>
      JobRunOnWorld(trace[n], id, registry, adapter);
      LiveMovesKeepAllSafe(trace[n].world, trace[n + 1].world, windowSeconds);
  }

  /** The same for one ingest of a run, with what its detection finds given by the event table alone. */
  lemma SafetyOfARun(trace: seq<System>, steps: seq<Step>, n: nat, windowSeconds: nat)
    requires IsRun(trace, steps) && n < |steps| && Timely(steps, windowSeconds) && steps[n].Ingesting?
    requires !Checking(trace[n], steps[n].c).1.duplicate
    ensures ClashesWithheld(trace[n].world, steps[n].c.e, trace[n + 1].world, windowSeconds)
      <==> SafeStep(trace[n], steps[n], windowSeconds)
  {
    IngestFindsGuarded(trace, steps, n, windowSeconds);
    RunIsSturdy(trace, steps, n);
    GuardedDetectionIsExact(trace[n], steps[n].c);
    assert CanTake(trace[n], steps[n]);
    SafetyOfAnIngest(trace[n], steps[n].c, steps[n].order);
  }

  ghost predicate StaysSafe(trace: seq<System>, n: nat, windowSeconds: nat)
    requires n < |trace|
  {
    forall i :: 0 <= i <= n ==> WellFormed(trace[i].world) && AllSafe(trace[i].world, windowSeconds)
  }

  ghost predicate SafeSteps(trace: seq<System>, steps: seq<Step>, n: nat, windowSeconds: nat)
    requires n <= |steps| < |trace|
  {
    forall i :: 0 <= i < n ==> SafeStep(trace[i], steps[i], windowSeconds)
  }

  /**
   * A run of timely ingests and worker runs stays safe, in every state so far and for every two accepted
   * events, if and only if each of its steps was.
   */
  lemma {:induction false} RunIsSafeIff(trace: seq<System>, steps: seq<Step>, n: nat, windowSeconds: nat)
    requires IsRun(trace, steps) && n <= |steps| && Timely(steps, windowSeconds)
    ensures StaysSafe(trace, n, windowSeconds) <==> SafeSteps(trace, steps, n, windowSeconds)
  {
    if n == 0 {
    } else {
      RunIsSafeIff(trace, steps, n - 1, windowSeconds);
      if StaysSafe(trace, n - 1, windowSeconds) {
        NextIsSafeIff(trace, steps, n - 1, windowSeconds);
      }
    }
  }

  // ---- Human review ----

  /** No other event in such a status clashes with this one. */
  ghost predicate ClashesWithNone(w: World, e: EventId, among: EventStatus -> bool, windowSeconds: nat)
    requires w.status.Keys == w.events.Keys && e in w.events
  {
    forall id :: id in w.events && id != e && among(w.status[id]) ==> !Clash(w.events[e], w.events[id], windowSeconds)
  }

  lemma OneStatusMoves(w: World, w': World, e: EventId, windowSeconds: nat)
    requires w.status.Keys == w.events.Keys && e in w.events
    requires w'.events == w.events && w'.status == w.status[e := CONFLICT_RESOLVED]
    ensures Safe(w, windowSeconds) ==> (Safe(w', windowSeconds) <==> ClashesWithNone(w, e, Live, windowSeconds))
    ensures AllSafe(w, windowSeconds) ==>
      (AllSafe(w', windowSeconds) <==> ClashesWithNone(w, e, Standing, windowSeconds))
  {
    forall a, b | a in w.events && b in w.events
      ensures Clash(w.events[a], w.events[b], windowSeconds) == Clash(w.events[b], w.events[a], windowSeconds)
    {
      ClashIsSymmetric(w.events[a], w.events[b], windowSeconds);
    }
  }

  lemma OneEventWithdraws(w: World, w': World, e: EventId, windowSeconds: nat)
    requires w.status.Keys == w.events.Keys && e in w.events
    requires w'.events == w.events && w'.status == w.status[e := SUPERSEDED]
    ensures Safe(w, windowSeconds) ==> Safe(w', windowSeconds)
    ensures AllSafe(w, windowSeconds) ==> AllSafe(w', windowSeconds)
  {
  }

  /**
   * An accepted rejection always keeps both kinds of safety. An approval keeps them exactly if the approved
   * event clashes with no other deliverable, respectively no other standing event.
   */
  lemma ReviewIsSafeIff(w: World, conflictId: nat, input: ReviewInput, windowSeconds: nat)
    requires w.status.Keys == w.events.Keys && Review(w, conflictId, input).Reviewed?
    requires conflictId < |w.conflicts| && w.conflicts[conflictId].eventId in w.events
    ensures var w', e := Review(w, conflictId, input).world, w.conflicts[conflictId].eventId;
      var rejected := NormalizeReviewAction(input) == Some(REJECT);
      && w'.status.Keys == w'.events.Keys
      && (Safe(w, windowSeconds) ==>
          (Safe(w', windowSeconds) <==> rejected || ClashesWithNone(w, e, Live, windowSeconds)))
      && (AllSafe(w, windowSeconds) ==>
          (AllSafe(w', windowSeconds) <==> rejected || ClashesWithNone(w, e, Standing, windowSeconds)))
  {
    var w', e := Review(w, conflictId, input).world, w.conflicts[conflictId].eventId;
    if NormalizeReviewAction(input) == Some(REJECT) {
      OneEventWithdraws(w, w', e, windowSeconds);
    } else {
      OneStatusMoves(w, w', e, windowSeconds);
    }
  }

  /** So approving an event that was parked against a deliverable one makes both deliverable. */
  lemma ApprovalRevivesTheClash(w: World, conflictId: nat, reviewer: string, windowSeconds: nat)
    requires w.status.Keys == w.events.Keys && conflictId < |w.conflicts| && reviewer != ""
    requires AwaitsReview(w.conflicts[conflictId])
    requires var conflict := w.conflicts[conflictId];
      && conflict.eventId in w.events && conflict.competingId in w.events
      && Clash(w.events[conflict.eventId], w.events[conflict.competingId], windowSeconds)
      && Live(w.status[conflict.competingId])
    ensures var result := Review(w, conflictId, ReviewInput(Some(APPROVE), None, Some(reviewer), None));
      && result.Reviewed?
      && result.world.status.Keys == result.world.events.Keys && !Safe(result.world, windowSeconds)
  {
  }

  // ---- A pair without rules ----

  /** Two requests that clash, one of their shared paths having no active rule. */
  ghost predicate UnruledPair(c: Call, d: Call, windowSeconds: nat) {
    && OnTime(c, windowSeconds) && OnTime(d, windowSeconds)
    && c.e.receivedAt <= d.e.receivedAt && c.env.addNow <= d.env.checkNow
    && c.e.id != d.e.id && c.maxAttempts > 0 && d.maxAttempts > 0
    && Clash(c.e, d.e, windowSeconds)
    && exists path :: path in Paths(c.e) * Paths(d.e) && Unruled(d.env.matrix, path)
  }

  predicate Unruled(matrix: Authority.Matrix, path: FieldPath) { Authority.GetAuthorityRule(matrix, path).None? }

  lemma FirstIsChecked(c: Call)
    requires c.maxAttempts > 0
    ensures CanIngest(EMPTY, c, []) && !Checking(EMPTY, c).1.duplicate
    ensures var d := Judging(EMPTY, c, []);
      && d.Detected? && d.result.shouldContinue
      && d.world.status == map[c.e.id := CONFLICT_CHECKED] && d.world.events == map[c.e.id := c.e]
  {
    assert Found(Accepting(EMPTY, c), c.e, c.env) == map[];
  }

  lemma FirstIngest(c: Call)
    requires c.maxAttempts > 0
    ensures CanIngest(EMPTY, c, [])
    ensures var w := Ingest(EMPTY, c, []).0.world;
      w.status == map[c.e.id := RoutedStatus(c)] && w.events == map[c.e.id := c.e]
  {
    FirstIsChecked(c);
    IngestWorld(EMPTY, c, []);
  }

  lemma UnsharedKeysAreClosed(universe: set<Keys>)
    requires forall a, b :: a in universe && b in universe && a != b ==> !Share(a, b)
    ensures Closed(universe)
  {
    forall x, y, z | x in universe && y in universe && z in universe ensures Chained(x, y, z) {
      if Overlap(x, y) { OverlapMeansShare(x, y); }
    }
  }

  lemma FirstStore(c: Call, answer: Answer, universe: set<Keys>)
    requires Closed(universe) && BuildKeys(c.e) in universe
    ensures var st := Submit(EMPTY.store, BuildKeys(c.e), c.e.id, Some(answer), c.io, c.saveIo);
      && Sound(st, universe)
      && st.table == [WithAnswer(BareRow(BuildKeys(c.e), c.e.id), answer)]
  {
    SubmitKeepsSound(EMPTY.store, universe, BuildKeys(c.e), c.e.id, Some(answer), c.io, c.saveIo);
    SubmittedAnswer(EMPTY.store, universe, BuildKeys(c.e), c.e.id, answer, c.io, c.saveIo);
  }

  lemma FirstIngestStore(c: Call, universe: set<Keys>)
    requires c.maxAttempts > 0 && CanIngest(EMPTY, c, [])
    requires Closed(universe) && BuildKeys(c.e) in universe
    ensures var st := Ingest(EMPTY, c, []).0.store;
      Sound(st, universe) && |st.table| == 1 && RowKeys(st.table[0]) == BuildKeys(c.e)
  {
    FirstIsChecked(c);
    IngestSubmits(EMPTY, c, []);
    FirstStore(c, Ingest(EMPTY, c, []).1.value, universe);
  }

  lemma SecondIsNoDuplicate(s: System, c: Call, d: Call, universe: set<Keys>)
    requires Closed(universe) && Sound(s.store, universe) && BuildKeys(d.e) in universe
    requires |s.store.table| == 1 && RowKeys(s.store.table[0]) == BuildKeys(c.e)
    requires c.e.source != d.e.source
    ensures !Checking(s, d).1.duplicate
  {
    SystemsShareNoKey(c.e, d.e);
    if Overlap(BuildKeys(c.e), BuildKeys(d.e)) { OverlapMeansShare(BuildKeys(c.e), BuildKeys(d.e)); }
    CheckRefinesTable(s.store, universe, BuildKeys(d.e), d.e.id, RECEIVED, d.io);
  }

  lemma OnlyCompetitor(w: World, x: Event, e: Event, windowSeconds: nat)
    requires w.status.Keys == w.events.Keys == {x.id, e.id} && w.events[x.id] == x && w.events[e.id] == e
    requires x.id != e.id && Settled(w.status[x.id])
    requires x.receivedAt <= e.receivedAt && Clash(x, e, windowSeconds)
    ensures Competitors(w, e, windowSeconds) == map[x.id := Paths(x) * Paths(e)]
  {
  }

  lemma ReceivedAmongOne(w: World, x: Event, e: Event, windowSeconds: nat)
    requires WellFormed(w) && w.events == map[x.id := x] && Live(w.status[x.id])
    requires x.id != e.id && x.receivedAt <= e.receivedAt && Clash(x, e, windowSeconds)
    ensures var w' := Receive(w, e, IDEMPOTENCY_ACCEPTED);
      WellFormed(w') && Competitors(w', e, windowSeconds) == map[x.id := Paths(x) * Paths(e)]
  {
    OnlyCompetitor(Receive(w, e, IDEMPOTENCY_ACCEPTED), x, e, windowSeconds);
  }

  lemma SecondFindsTheFirst(s: System, c: Call, d: Call, windowSeconds: nat)
    requires UnruledPair(c, d, windowSeconds)
    requires Guarded(s, d.e.receivedAt, d.env.checkNow, windowSeconds)
    requires s.world.events == map[c.e.id := c.e] && Live(s.world.status[c.e.id])
    ensures Found(Accepting(s, d), d.e, d.env) == map[c.e.id := Paths(c.e) * Paths(d.e)]
  {
    SecondIsFresh(s, c, d, windowSeconds);
    GuardedDetectionIsExact(s, d);
    ReceivedAmongOne(s.world, c.e, d.e, windowSeconds);
  }

  lemma IngestOfThrow(s: System, c: Call, order: seq<EventId>)
    requires CanIngest(s, c, order) && !Checking(s, c).1.duplicate && Judging(s, c, order).RuleMissing?
    ensures Ingest(s, c, order).1 == None
    ensures Ingest(s, c, order).0.world == Judging(s, c, order).world
  {
  }

  lemma UnruledDetectionThrows(w: World, e: Event, env: Env, x: EventId, shared: set<FieldPath>)
    requires Found(w, e, env) == map[x := shared]
    requires exists path :: path in shared && Unruled(env.matrix, path)
    ensures Admit(w, e, env, [x]).RuleMissing?
    ensures Admit(w, e, env, [x]).world.status == w.status
  {
    assert !Authority.Covers(env.matrix, Found(w, e, env)[x]);
    assert !AllCovered(env.matrix, Found(w, e, env));
  }

  lemma SecondCanIngest(s: System, c: Call, d: Call, windowSeconds: nat)
    requires UnruledPair(c, d, windowSeconds)
    requires Guarded(s, d.e.receivedAt, d.env.checkNow, windowSeconds)
    requires s.world.events == map[c.e.id := c.e] && Live(s.world.status[c.e.id])
    ensures CanIngest(s, d, [c.e.id])
    ensures Found(Accepting(s, d), d.e, d.env) == map[c.e.id := Paths(c.e) * Paths(d.e)]
  {
    SecondIsFresh(s, c, d, windowSeconds);
    SecondFindsTheFirst(s, c, d, windowSeconds);
    SingletonEnumerates(c.e.id, Found(Accepting(s, d), d.e, d.env));
  }

  lemma SecondIsFresh(s: System, c: Call, d: Call, windowSeconds: nat)
    requires UnruledPair(c, d, windowSeconds) && s.world.events == map[c.e.id := c.e]
    ensures d.e.id !in s.world.events && d.maxAttempts > 0 && TimelyFor(d.e, d.env)
    ensures d.env.windowSeconds == windowSeconds && Clash(c.e, d.e, windowSeconds)
  {
  }

  lemma SingletonEnumerates(id: EventId, groups: map<EventId, set<FieldPath>>)
    requires groups.Keys == {id}
    ensures Enumerates([id], groups.Keys) && id in groups
  {
  }

  lemma SecondIngestThrows(s: System, c: Call, d: Call, windowSeconds: nat, universe: set<Keys>)
    requires UnruledPair(c, d, windowSeconds)
    requires Guarded(s, d.e.receivedAt, d.env.checkNow, windowSeconds)
    requires s.world.events == map[c.e.id := c.e] && Live(s.world.status[c.e.id])
    requires Closed(universe) && Sound(s.store, universe) && BuildKeys(d.e) in universe
    requires |s.store.table| == 1 && RowKeys(s.store.table[0]) == BuildKeys(c.e)
    ensures CanIngest(s, d, [c.e.id])
    ensures Ingest(s, d, [c.e.id]).1 == None
    ensures Ingest(s, d, [c.e.id]).0.world.status == s.world.status[d.e.id := IDEMPOTENCY_ACCEPTED]
  {
    SecondIsNoDuplicate(s, c, d, universe);
    SecondCanIngest(s, c, d, windowSeconds);
    UnruledDetectionThrows(Accepting(s, d), d.e, d.env, c.e.id, Paths(c.e) * Paths(d.e));
    IngestOfThrow(s, d, [c.e.id]);
  }

  lemma EmptyIsGuarded(c: Call, windowSeconds: nat)
    ensures Guarded(EMPTY, c.e.receivedAt, c.env.checkNow, windowSeconds)
  {
  }

  lemma FirstIngestIsGuarded(c: Call, d: Call, windowSeconds: nat)
    requires UnruledPair(c, d, windowSeconds) && CanIngest(EMPTY, c, [])
    ensures Guarded(Ingest(EMPTY, c, []).0, d.e.receivedAt, d.env.checkNow, windowSeconds)
  {
    EmptyIsGuarded(c, windowSeconds);
    IngestIsGuarded(EMPTY, c, []);
    TimePasses(Ingest(EMPTY, c, []).0.world, c.e.receivedAt, c.env.addNow, d.e.receivedAt, d.env.checkNow,
               windowSeconds);
  }

  /** The state after the first request. */
  ghost predicate LeftFirst(s: System, c: Call, universe: set<Keys>) {
    && s.world.events == map[c.e.id := c.e] && s.world.status == map[c.e.id := RoutedStatus(c)]
    && Live(RoutedStatus(c))
    && Sound(s.store, universe) && |s.store.table| == 1 && RowKeys(s.store.table[0]) == BuildKeys(c.e)
  }

  lemma FirstIsLeft(c: Call, universe: set<Keys>)
    requires c.maxAttempts > 0 && Closed(universe) && BuildKeys(c.e) in universe
    ensures CanIngest(EMPTY, c, []) && LeftFirst(Ingest(EMPTY, c, []).0, c, universe)
  {
    FirstIngest(c);
    FirstIngestStore(c, universe);
    RoutedIsLive(c);
  }

  lemma PairKeys(c: Call, d: Call, windowSeconds: nat) returns (universe: set<Keys>)
    requires UnruledPair(c, d, windowSeconds)
    ensures Closed(universe) && BuildKeys(c.e) in universe && BuildKeys(d.e) in universe
  {
    universe := {BuildKeys(c.e), BuildKeys(d.e)};
    SystemsShareNoKey(c.e, d.e);
    SystemsShareNoKey(d.e, c.e);
    UnsharedKeysAreClosed(universe);
  }

  /** A missing rule leaves both events of a clashing pair neither superseded nor parked. */
  lemma MissingRuleLeavesBoth(c: Call, d: Call, windowSeconds: nat)
    requires UnruledPair(c, d, windowSeconds)
    ensures CanIngest(EMPTY, c, [])
    ensures var s := Ingest(EMPTY, c, []).0;
      && CanIngest(s, d, [c.e.id])
      && var (t, answer) := Ingest(s, d, [c.e.id]);
         && answer == None
         && t.world.status == map[c.e.id := RoutedStatus(c), d.e.id := IDEMPOTENCY_ACCEPTED]
         && Live(RoutedStatus(c))
  {
    var universe := PairKeys(c, d, windowSeconds);
    FirstIsLeft(c, universe);
    FirstIngestIsGuarded(c, d, windowSeconds);
    SecondIngestThrows(Ingest(EMPTY, c, []).0, c, d, windowSeconds, universe);
  }

  // ---- An event whose detection threw is not found by later ones ----

  /** A third request, of the first one's system, that clashes with the second. */
  ghost predicate UnruledTriple(c: Call, d: Call, y: Call, windowSeconds: nat) {
    && UnruledPair(c, d, windowSeconds) && OnTime(y, windowSeconds)
    && d.e.receivedAt <= y.e.receivedAt && d.env.addNow <= y.env.checkNow
    && y.e.id != c.e.id && y.e.id != d.e.id && y.maxAttempts > 0
    && y.e.source == c.e.source && !Share(BuildKeys(c.e), BuildKeys(y.e))
    && Clash(y.e, d.e, windowSeconds)
  }

  /** The state after the first two requests. */
  ghost predicate LeftBoth(t: System, c: Call, d: Call, universe: set<Keys>) {
    && t.world.events == map[c.e.id := c.e, d.e.id := d.e]
    && t.world.status == map[c.e.id := RoutedStatus(c), d.e.id := IDEMPOTENCY_ACCEPTED]
    && Sound(t.store, universe) && |t.store.table| == 2
    && RowKeys(t.store.table[0]) == BuildKeys(c.e) && RowKeys(t.store.table[1]) == BuildKeys(d.e)
  }

  lemma SecondStore(s: System, c: Call, d: Call, order: seq<EventId>, universe: set<Keys>)
    requires CanIngest(s, d, order) && Ingest(s, d, order).1 == None
    requires c.e.source != d.e.source
    requires Closed(universe) && Sound(s.store, universe) && BuildKeys(d.e) in universe
    requires |s.store.table| == 1 && RowKeys(s.store.table[0]) == BuildKeys(c.e)
    ensures var st := Ingest(s, d, order).0.store;
      && Sound(st, universe) && |st.table| == 2
      && RowKeys(st.table[0]) == BuildKeys(c.e) && RowKeys(st.table[1]) == BuildKeys(d.e)
  {
    SystemsShareNoKey(c.e, d.e);
    if Overlap(BuildKeys(c.e), BuildKeys(d.e)) { OverlapMeansShare(BuildKeys(c.e), BuildKeys(d.e)); }
    IngestSubmits(s, d, order);
    CheckedUnknown(s.store, universe, BuildKeys(d.e), d.e.id, d.io);
    SubmitKeepsSound(s.store, universe, BuildKeys(d.e), d.e.id, None, d.io, d.saveIo);
  }

  lemma TripleKeys(c: Call, d: Call, y: Call, windowSeconds: nat)
    requires UnruledTriple(c, d, y, windowSeconds)
    ensures Closed({BuildKeys(c.e), BuildKeys(d.e), BuildKeys(y.e)})
  {
    SystemsShareNoKey(c.e, d.e);
    SystemsShareNoKey(d.e, c.e);
    SystemsShareNoKey(y.e, d.e);
    SystemsShareNoKey(d.e, y.e);
    assert !Share(BuildKeys(y.e), BuildKeys(c.e));
    UnsharedKeysAreClosed({BuildKeys(c.e), BuildKeys(d.e), BuildKeys(y.e)});
  }

  lemma SecondLeavesBoth(s: System, c: Call, d: Call, windowSeconds: nat, universe: set<Keys>)
    requires UnruledPair(c, d, windowSeconds) && LeftFirst(s, c, universe) && LinksSound(s.world)
    requires Guarded(s, d.e.receivedAt, d.env.checkNow, windowSeconds)
    requires Closed(universe) && BuildKeys(d.e) in universe
    ensures CanIngest(s, d, [c.e.id]) && Ingest(s, d, [c.e.id]).1 == None
    ensures LeftBoth(Ingest(s, d, [c.e.id]).0, c, d, universe)
  {
    SecondIngestThrows(s, c, d, windowSeconds, universe);
    SecondStore(s, c, d, [c.e.id], universe);
    IngestAddsTheEvent(s, d, [c.e.id]);
  }

  lemma PairLeavesBoth(s: System, c: Call, d: Call, windowSeconds: nat, universe: set<Keys>)
    requires UnruledPair(c, d, windowSeconds)
    requires Closed(universe) && BuildKeys(c.e) in universe && BuildKeys(d.e) in universe
    requires CanIngest(EMPTY, c, []) && s == Ingest(EMPTY, c, []).0
    ensures CanIngest(s, d, [c.e.id]) && Ingest(s, d, [c.e.id]).1 == None
    ensures LeftBoth(Ingest(s, d, [c.e.id]).0, c, d, universe)
    ensures LinksSound(s.world)
  {
    FirstIsLeft(c, universe);
    FirstIngestIsGuarded(c, d, windowSeconds);
    IngestKeepsLinks(EMPTY, c, []);
    SecondLeavesBoth(s, c, d, windowSeconds, universe);
  }

  lemma PairIsGuarded(c: Call, d: Call, latest: int, wall: int, windowSeconds: nat)
    requires UnruledPair(c, d, windowSeconds) && d.e.receivedAt <= latest && d.env.addNow <= wall
    requires CanIngest(EMPTY, c, []) && CanIngest(Ingest(EMPTY, c, []).0, d, [c.e.id])
    ensures Guarded(Ingest(Ingest(EMPTY, c, []).0, d, [c.e.id]).0, latest, wall, windowSeconds)
  {
    FirstIngestIsGuarded(c, d, windowSeconds);
    IngestIsGuarded(Ingest(EMPTY, c, []).0, d, [c.e.id]);
    TimePasses(Ingest(Ingest(EMPTY, c, []).0, d, [c.e.id]).0.world, d.e.receivedAt, d.env.addNow, latest, wall,
               windowSeconds);
  }

  lemma ThirdIsNoDuplicate(t: System, c: Call, d: Call, y: Call, windowSeconds: nat, universe: set<Keys>)
    requires UnruledTriple(c, d, y, windowSeconds) && LeftBoth(t, c, d, universe)
    requires Closed(universe) && BuildKeys(y.e) in universe
    ensures !Checking(t, y).1.duplicate
  {
    SystemsShareNoKey(d.e, y.e);
    forall row | row in t.store.table ensures !Matches(row, BuildKeys(y.e)) {
      if Matches(row, BuildKeys(y.e)) { OverlapMeansShare(RowKeys(row), BuildKeys(y.e)); }
    }
    CheckRefinesTable(t.store, universe, BuildKeys(y.e), y.e.id, RECEIVED, y.io);
  }

  lemma ThirdFindsNothing(t: System, c: Call, d: Call, y: Call, windowSeconds: nat, universe: set<Keys>)
    requires UnruledTriple(c, d, y, windowSeconds) && LeftBoth(t, c, d, universe)
    requires Guarded(t, y.e.receivedAt, y.env.checkNow, windowSeconds)
    ensures y.e.id !in t.world.events && Found(Accepting(t, y), y.e, y.env) == map[]
  {
    GuardedDetectionIsExact(t, y);
    assert Competitors(Accepting(t, y), y.e, windowSeconds) == map[];
  }

  /** What a detection that finds nothing does to an event it clashes with. */
  lemma NothingFoundIsAdmitted(s: System, c: Call)
    requires c.e.id !in s.world.events && c.maxAttempts > 0 && LinksSound(s.world)
    requires !Checking(s, c).1.duplicate && Found(Accepting(s, c), c.e, c.env) == map[]
    ensures CanIngest(s, c, []) && Ingest(s, c, []).1.Some?
    ensures var status := Ingest(s, c, []).0.world.status;
      && c.e.id in status && Live(status[c.e.id])
      && forall id :: id in s.world.status ==> id in status && status[id] == s.world.status[id]
  {
    ThrowsIffARuleIsMissing(s, c, []);
    IngestDecides(s, c, []);
    IngestSettlesTheNewEvent(s, c, []);
  }

  lemma ThirdIsAdmitted(t: System, c: Call, d: Call, y: Call, windowSeconds: nat, universe: set<Keys>)
    requires UnruledTriple(c, d, y, windowSeconds) && LeftBoth(t, c, d, universe) && LinksSound(t.world)
    requires Closed(universe) && BuildKeys(y.e) in universe
    requires Guarded(t, y.e.receivedAt, y.env.checkNow, windowSeconds)
    ensures MissedBy(t, d, y)
  {
    ThirdIsNoDuplicate(t, c, d, y, windowSeconds, universe);
    ThirdFindsNothing(t, c, d, y, windowSeconds, universe);
    NothingFoundIsAdmitted(t, y);
  }

  /** The ingest of y finds nothing and delivers, and d is left as its own detection left it. */
  ghost predicate MissedBy(t: System, d: Call, y: Call) {
    && CanIngest(t, y, []) && Found(Accepting(t, y), y.e, y.env) == map[]
    && var (u, answer) := Ingest(t, y, []);
       && answer.Some?
       && d.e.id in u.world.status && u.world.status[d.e.id] == IDEMPOTENCY_ACCEPTED
       && y.e.id in u.world.status && Live(u.world.status[y.e.id])
  }

  lemma PairIsReady(s: System, c: Call, d: Call, y: Call, windowSeconds: nat, universe: set<Keys>)
    requires UnruledTriple(c, d, y, windowSeconds) && CanIngest(EMPTY, c, []) && s == Ingest(EMPTY, c, []).0
    requires Closed(universe) && BuildKeys(c.e) in universe && BuildKeys(d.e) in universe
    ensures CanIngest(s, d, [c.e.id])
    ensures var t := Ingest(s, d, [c.e.id]).0;
      && LeftBoth(t, c, d, universe) && LinksSound(t.world)
      && Guarded(t, y.e.receivedAt, y.env.checkNow, windowSeconds)
  {
    PairLeavesBoth(s, c, d, windowSeconds, universe);
    PairIsGuarded(c, d, y.e.receivedAt, y.env.checkNow, windowSeconds);
    IngestKeepsLinks(s, d, [c.e.id]);
  }

  /**
   * The other order of such a pair is missed even though every rule is there: the thrown event d is in no
   * holding pen, so a later y finds nothing, is delivered, and both stand although they clash.
   */
  lemma ThrownEventIsMissed(c: Call, d: Call, y: Call, windowSeconds: nat)
    requires UnruledTriple(c, d, y, windowSeconds)
    ensures CanIngest(EMPTY, c, []) && CanIngest(Ingest(EMPTY, c, []).0, d, [c.e.id])
    ensures MissedBy(Ingest(Ingest(EMPTY, c, []).0, d, [c.e.id]).0, d, y)
  {
    var universe := {BuildKeys(c.e), BuildKeys(d.e), BuildKeys(y.e)};
    TripleKeys(c, d, y, windowSeconds);
    FirstIngest(c);
    PairIsReady(Ingest(EMPTY, c, []).0, c, d, y, windowSeconds, universe);
    ThirdIsAdmitted(Ingest(Ingest(EMPTY, c, []).0, d, [c.e.id]).0, c, d, y, windowSeconds, universe);
  }

  /** A rule for the registered address that is no longer active. */
  const RETIRED_RULE := Authority.MatrixRow(RegisteredAddressPath, 1, Authority.DEPRECATED,
                                            Authority.Rule(SWS, None, false))

  const UNRULED := Env([RETIRED_RULE], 10, 0, 0, NO_FAULTS)

  /** Such a pair of receivable requests: two systems change the registered address in the same instant. */
  lemma AnUnruledPair() returns (c: Call, d: Call)
    ensures UnruledPair(c, d, 10) && Receivable(c.e) && Receivable(d.e)
    ensures c == Call(Sample("REQ-1", "h").(id := 1), UNRULED, [], 3, RELIABLE, RELIABLE)
    ensures d == c.(e := c.e.(id := 2, source := EKARMIKA, requestId := None))
  {
    var e := Sample("REQ-1", "h").(id := 1);
    var x := e.(id := 2, source := EKARMIKA, requestId := None);
    c, d := Call(e, UNRULED, [], 3, RELIABLE, RELIABLE), Call(x, UNRULED, [], 3, RELIABLE, RELIABLE);
    SampleIsReceivable("REQ-1", "h");
    assert RegisteredAddress in e.changedFields && RegisteredAddress in x.changedFields by {
      assert e.changedFields[0] == RegisteredAddress == x.changedFields[0];
    }
    assert PathOf(RegisteredAddress) in Paths(e) && PathOf(RegisteredAddress) in Paths(x);
    assert RegisteredAddressPath in Paths(e) * Paths(x) && Unruled(UNRULED.matrix, RegisteredAddressPath);
  }

  lemma SameKeys(e: Event, x: Event)
    requires e == x.(id := e.id)
    ensures BuildKeys(e) == BuildKeys(x)
  {
  }

  /** And such a triple: the first system then changes the address once more, under another request id. */
  lemma AnUnruledTriple() returns (c: Call, d: Call, y: Call)
    ensures UnruledTriple(c, d, y, 10) && Receivable(c.e) && Receivable(d.e) && Receivable(y.e)
  {
    c, d := AnUnruledPair();
    var e := Sample("REQ-2", "k").(id := 3);
    y := Call(e, UNRULED, [], 3, RELIABLE, RELIABLE);
    SampleIsReceivable("REQ-2", "k");
    SampleKeysOverlap("REQ-1", "h", "REQ-2", "k");
    SampleKeysOverlap("REQ-2", "k", "REQ-1", "h");
    SameKeys(c.e, Sample("REQ-1", "h"));
    SameKeys(e, Sample("REQ-2", "k"));
    assert e.changedFields == c.e.changedFields && Paths(e) == Paths(c.e);
  }
}
