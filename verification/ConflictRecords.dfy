/** Every recorded conflict is a real one: two clashing events, and exactly the fields they share. */
module ConflictRecords {
  import opened Domain
  import opened Conflicts
  import opened ConflictSafety
  import opened Ksync
  import opened SystemRuns
  import opened RunSafety
  import ReviewDiscipline

  ghost predicate RealConflict(events: map<EventId, Event>, conflict: Conflict, windowSeconds: nat) {
    && conflict.eventId in events && conflict.competingId in events
    && Clash(events[conflict.eventId], events[conflict.competingId], windowSeconds)
    && conflict.fields == Paths(events[conflict.competingId]) * Paths(events[conflict.eventId])
  }

  ghost predicate AllReal(w: World, windowSeconds: nat) {
    forall k :: 0 <= k < |w.conflicts| ==> RealConflict(w.events, w.conflicts[k], windowSeconds)
  }

  lemma CompetitorClashes(w: World, e: Event, windowSeconds: nat, id: EventId)
    requires WellFormed(w) && id in Competitors(w, e, windowSeconds)
    requires e.id in w.events && w.events[e.id] == e && w.events[id].receivedAt <= e.receivedAt
    ensures Clash(e, w.events[id], windowSeconds)
    ensures Competitors(w, e, windowSeconds)[id] == Paths(w.events[id]) * Paths(e)
  {
    assert Paths(w.events[id]) * Paths(e) == Paths(e) * Paths(w.events[id]);
  }

  /** Conflicts recorded against exactly the competitors are real. */
  lemma AppendingKeepsReal(w: World, w': World, e: Event, windowSeconds: nat, order: seq<EventId>)
    requires WellFormed(w) && AllReal(w, windowSeconds) && w'.events == w.events
    requires e.id in w.events && w.events[e.id] == e
    requires forall id :: id in w.events ==> w.events[id].receivedAt <= e.receivedAt
    requires forall id :: id in order ==> id in Competitors(w, e, windowSeconds)
    requires ReviewDiscipline.Appended(w, w', e, Competitors(w, e, windowSeconds), order)
    ensures AllReal(w', windowSeconds)
  {
    forall k | 0 <= k < |w'.conflicts| ensures RealConflict(w'.events, w'.conflicts[k], windowSeconds) {
      if k < |w.conflicts| {
        assert RealConflict(w.events, w.conflicts[k], windowSeconds);
      } else {
        var id := order[k - |w.conflicts|];
        assert id in order;
        CompetitorClashes(w, e, windowSeconds, id);
      }
    }
  }

  lemma AdmissionAppends(w: World, e: Event, env: Env, order: seq<EventId>)
    requires CanAdmit(w, e, env, order)
    ensures Admit(w, e, env, order).world.events == w.events
    ensures ReviewDiscipline.Appended(w, Admit(w, e, env, order).world, e, Found(w, e, env), order)
  {
    AdmissionStatuses(w, e, env, order);
    ReviewDiscipline.ResolutionAppends(Checked(w, e, env), e, env, Found(w, e, env), order);
  }

  lemma AdmissionKeepsReal(w: World, e: Event, env: Env, order: seq<EventId>)
    requires CanAdmit(w, e, env, order) && TimelyFor(e, env)
    requires PenInvariant(w, e.receivedAt, env.checkNow, env.windowSeconds)
    requires AllReal(w, env.windowSeconds)
    ensures AllReal(Admit(w, e, env, order).world, env.windowSeconds)
  {
    InvariantGivesCompletePen(w, e, env, e.receivedAt, env.checkNow);
    FoundAreExactlyTheCompetitors(w, e, env);
    AdmissionAppends(w, e, env, order);
    AppendingKeepsReal(w, Admit(w, e, env, order).world, e, env.windowSeconds, order);
  }

  /** Receiving an event and writing statuses record no conflict. */
  lemma SameConflictsStayReal(w: World, w': World, windowSeconds: nat)
    requires AllReal(w, windowSeconds) && w'.conflicts == w.conflicts
    requires forall id :: id in w.events ==> id in w'.events && w'.events[id] == w.events[id]
    ensures AllReal(w', windowSeconds)
  {
    forall k | 0 <= k < |w'.conflicts| ensures RealConflict(w'.events, w'.conflicts[k], windowSeconds) {
      assert RealConflict(w.events, w.conflicts[k], windowSeconds);
    }
  }

  lemma JudgingKeepsReal(s: System, c: Call, order: seq<EventId>)
    requires CanIngest(s, c, order) && !Checking(s, c).1.duplicate && TimelyFor(c.e, c.env)
    requires Guarded(s, c.e.receivedAt, c.env.checkNow, c.env.windowSeconds)
    requires AllReal(s.world, c.env.windowSeconds)
    ensures AllReal(Judging(s, c, order).world, c.env.windowSeconds)
  {
    var w := Accepting(s, c);
    ReceivingKeepsInvariants(s.world, c.e, IDEMPOTENCY_ACCEPTED, c.e.receivedAt, c.env.checkNow,
                             c.env.checkNow, c.env.windowSeconds);
    SameConflictsStayReal(s.world, w, c.env.windowSeconds);
    AdmissionKeepsReal(w, c.e, c.env, order);
  }

  lemma IngestKeepsReal(s: System, c: Call, order: seq<EventId>)
    requires CanIngest(s, c, order) && TimelyFor(c.e, c.env)
    requires Guarded(s, c.e.receivedAt, c.env.checkNow, c.env.windowSeconds)
    requires AllReal(s.world, c.env.windowSeconds)
    ensures AllReal(Ingest(s, c, order).0.world, c.env.windowSeconds)
  {
    IngestWorld(s, c, order);
    if Checking(s, c).1.duplicate {
      SameConflictsStayReal(s.world, Ingest(s, c, order).0.world, c.env.windowSeconds);
    } else {
      JudgingKeepsReal(s, c, order);
      SameConflictsStayReal(Judging(s, c, order).world, Ingest(s, c, order).0.world, c.env.windowSeconds);
    }
  }

  lemma NextKeepsReal(trace: seq<System>, steps: seq<Step>, n: nat, windowSeconds: nat)
    requires IsRun(trace, steps) && n < |steps|
    requires steps[n].Ingesting? ==>
      && OnTime(steps[n].c, windowSeconds)
      && Guarded(trace[n], steps[n].c.e.receivedAt, steps[n].c.env.checkNow, windowSeconds)
    requires AllReal(trace[n].world, windowSeconds)
    ensures AllReal(trace[n + 1].world, windowSeconds)
  {
    assert CanTake(trace[n], steps[n]);
    match steps[n]
    case Ingesting(c, order) => IngestKeepsReal(trace[n], c, order);
    case Running(_, _, _) => SameConflictsStayReal(trace[n].world, trace[n + 1].world, windowSeconds);
  }

  /**
   * In every state reachable by timely ingests and worker runs, each recorded conflict is between two
   * events of one UBID and different systems inside the window, and names exactly the fields they share.
   */
  lemma {:induction false} RecordedConflictsAreReal(trace: seq<System>, steps: seq<Step>, n: nat, windowSeconds: nat)
    requires IsRun(trace, steps) && n <= |steps| && Timely(steps, windowSeconds)
    ensures AllReal(trace[n].world, windowSeconds)
  {
    if n == 0 {
    } else {
      RecordedConflictsAreReal(trace, steps, n - 1, windowSeconds);
      if steps[n - 1].Ingesting? {
        var c := steps[n - 1].c;
        RunIsGuarded(trace, steps, n - 1, c.e.receivedAt, c.env.checkNow, windowSeconds);
      }
      NextKeepsReal(trace, steps, n - 1, windowSeconds);
    }
  }
}
