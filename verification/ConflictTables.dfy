/** What an ingest writes to the conflict tables: a record per competitor, an item per record to be reviewed. */
module ConflictTables {
  import opened Domain
  import opened Conflicts
  import opened ConflictSafety
  import opened Supersessions
  import opened Ksync
  import opened SystemRuns
  import opened RunSafety
  import Authority

  /** The record of a conflict between the event and one competitor, on the paths that they share. */
  predicate IsRecordOf(
    conflict: Conflict, e: EventId, competitors: map<EventId, set<FieldPath>>,
    resolution: ResolutionStatus, review: Option<ReviewStatus>)
  {
    && conflict.eventId == e && conflict.competingId in competitors
    && conflict.fields == competitors[conflict.competingId]
    && conflict.resolution == resolution && conflict.reviewStatus == review && conflict.reviewedBy == None
  }

  /** Exactly one new record for each competitor, after all the old ones. */
  ghost predicate Records(
    before: seq<Conflict>, after: seq<Conflict>, e: EventId, competitors: map<EventId, set<FieldPath>>,
    resolution: ResolutionStatus, review: Option<ReviewStatus>)
  {
    && before <= after
    && (forall k :: |before| <= k < |after| ==> IsRecordOf(after[k], e, competitors, resolution, review))
    && (forall j, k :: |before| <= j < k < |after| ==> after[j].competingId != after[k].competingId)
    && (forall id :: id in competitors ==> HasRecord(after, |before|, id))
  }

  ghost predicate HasRecord(conflicts: seq<Conflict>, first: nat, competitor: EventId) {
    exists k :: first <= k < |conflicts| && conflicts[k].competingId == competitor
  }

  /** Exactly one new open item for each record from first to last. */
  ghost predicate OpensItems(before: seq<ReviewItem>, after: seq<ReviewItem>, e: EventId, first: nat, last: nat) {
    && before <= after
    && (forall i :: |before| <= i < |after| ==>
      after[i].eventId == e && after[i].status == OPEN && first <= after[i].conflictId < last)
    && (forall i, j :: |before| <= i < j < |after| ==> after[i].conflictId != after[j].conflictId)
    && (forall k :: first <= k < last ==> HasOpenItem(after, |before|, k))
  }

  ghost predicate HasOpenItem(items: seq<ReviewItem>, from: nat, conflictId: nat) {
    exists i :: from <= i < |items| && items[i].conflictId == conflictId
  }

  /** The ids from first to last, each once. */
  ghost predicate Lists(ids: seq<nat>, first: nat, last: nat) {
    Distinct(ids) && forall k :: k in ids <==> first <= k < last
  }

  // ---- What a resolution appends ----

  lemma OneRecordEach(
    before: seq<Conflict>, e: Event, groups: map<EventId, set<FieldPath>>, order: seq<EventId>,
    resolution: ResolutionStatus, review: Option<ReviewStatus>)
    requires Enumerates(order, groups.Keys)
    ensures Records(before, before + ConflictsWith(e, groups, order, resolution, review), e.id, groups,
                    resolution, review)
  {
    var after := before + ConflictsWith(e, groups, order, resolution, review);
    forall k | |before| <= k < |after| ensures IsRecordOf(after[k], e.id, groups, resolution, review) {
      assert order[k - |before|] in order;
    }
    forall id | id in groups ensures HasRecord(after, |before|, id) {
      assert id in order;
      var i :| 0 <= i < |order| && order[i] == id;
      assert after[|before| + i].competingId == id;
    }
  }

  lemma OneItemEach(before: seq<ReviewItem>, e: Event, first: nat, count: nat)
    ensures OpensItems(before, before + ItemsFor(e, first, count), e.id, first, first + count)
  {
    var after := before + ItemsFor(e, first, count);
    forall k | first <= k < first + count ensures HasOpenItem(after, |before|, k) {
      assert after[|before| + (k - first)].conflictId == k;
    }
  }

  lemma IdsAreListed(first: nat, count: nat)
    ensures Lists(Ids(first, count), first, first + count)
  {
    forall k | first <= k < first + count ensures k in Ids(first, count) {
      assert Ids(first, count)[k - first] == k;
    }
  }

  /** A result flags its event as superseded exactly if its status says so. */
  predicate FlagsSuperseded(d: Detection) {
    d.Detected? ==> (d.result.superseded <==> d.result.status == SUPERSEDED)
  }

  /** The tables after a detection, by the status that it ends with. */
  ghost predicate Filed(v: World, a: Detection, e: Event, found: map<EventId, set<FieldPath>>) {
    var first, last := |v.conflicts|, |a.world.conflicts|;
    FlagsSuperseded(a) &&
    if a.RuleMissing? || found == map[] then
      && a.world.conflicts == v.conflicts && a.world.reviewItems == v.reviewItems
      && (a.Detected? ==> a.result.conflictIds == [])
    else
      && Lists(a.result.conflictIds, first, last)
      && match a.result.status
         case MANUAL_REVIEW_REQUIRED =>
           && Records(v.conflicts, a.world.conflicts, e.id, found, REVIEW_REQUIRED, Some(OPEN))
           && OpensItems(v.reviewItems, a.world.reviewItems, e.id, first, last)
         case SUPERSEDED =>
           && Records(v.conflicts, a.world.conflicts, e.id, found, LOST, None)
           && a.world.reviewItems == v.reviewItems
         case CONFLICT_RESOLVED =>
           && Records(v.conflicts, a.world.conflicts, e.id, found, AUTO_RESOLVED, None)
           && a.world.reviewItems == v.reviewItems
         case _ => false
  }

  lemma ParkingFiles(v: World, e: Event, env: Env, groups: map<EventId, set<FieldPath>>, order: seq<EventId>)
    requires Enumerates(order, groups.Keys) && groups != map[]
    ensures Filed(v, Recorded(e, Park(v, e, env, groups, order)), e, groups)
  {
    OneRecordEach(v.conflicts, e, groups, order, REVIEW_REQUIRED, Some(OPEN));
    OneItemEach(v.reviewItems, e, |v.conflicts|, |order|);
    IdsAreListed(|v.conflicts|, |order|);
  }

  lemma LosingFiles(v: World, e: Event, groups: map<EventId, set<FieldPath>>, order: seq<EventId>)
    requires Enumerates(order, groups.Keys) && groups != map[]
    ensures Filed(v, Recorded(e, Lose(v, e, groups, order)), e, groups)
  {
    OneRecordEach(v.conflicts, e, groups, order, LOST, None);
    IdsAreListed(|v.conflicts|, |order|);
  }

  lemma WinningFiles(v: World, e: Event, env: Env, groups: map<EventId, set<FieldPath>>, order: seq<EventId>)
    requires Enumerates(order, groups.Keys) && groups != map[]
    ensures Filed(v, Recorded(e, Win(v, e, env, groups, order)), e, groups)
  {
    OneRecordEach(v.conflicts, e, groups, order, AUTO_RESOLVED, None);
    IdsAreListed(|v.conflicts|, |order|);
  }

  lemma VerdictFiles(
    v: World, e: Event, env: Env, groups: map<EventId, set<FieldPath>>, order: seq<EventId>, d: Detection)
    requires Enumerates(order, groups.Keys) && groups != map[] && e.id in v.status
    requires IsVerdict(v, e, env, groups, order, d)
    ensures Filed(v, Recorded(e, d), e, groups)
  {
    ParkingFiles(v, e, env, groups, order);
    LosingFiles(v, e, groups, order);
    WinningFiles(v, e, env, groups, order);
  }

  lemma ResolvingFiles(v: World, e: Event, env: Env, groups: map<EventId, set<FieldPath>>, order: seq<EventId>)
    requires Enumerates(order, groups.Keys) && groups.Keys <= v.events.Keys && e.id in v.status
    ensures Filed(v, Recorded(e, Resolve(v, e, env, groups, order)), e, groups)
  {
    if groups == map[] || !AllCovered(env.matrix, groups) {
    } else {
      VerdictFiles(v, e, env, groups, order, Resolve(v, e, env, groups, order));
    }
  }

  lemma JudgingFiles(s: System, c: Call, order: seq<EventId>)
    requires CanIngest(s, c, order) && !Checking(s, c).1.duplicate
    ensures Filed(s.world, Judging(s, c, order), c.e, Found(Accepting(s, c), c.e, c.env))
  {
    var w := Accepting(s, c);
    ResolvingFiles(Checked(w, c.e, c.env), c.e, c.env, Found(w, c.e, c.env), order);
  }

  // ---- The tables after an ingest ----

  /** The conflict and review tables, by the status in which the ingest leaves its event. */
  ghost predicate ConflictsFiled(
    before: World, after: World, e: EventId, competitors: map<EventId, set<FieldPath>>, threw: bool)
  {
    && e in after.status
    && if threw || competitors == map[] then
         after.conflicts == before.conflicts && after.reviewItems == before.reviewItems
       else if after.status[e] == MANUAL_REVIEW_REQUIRED then
         && Records(before.conflicts, after.conflicts, e, competitors, REVIEW_REQUIRED, Some(OPEN))
         && OpensItems(before.reviewItems, after.reviewItems, e, |before.conflicts|, |after.conflicts|)
       else
         && after.reviewItems == before.reviewItems
         && Records(before.conflicts, after.conflicts, e, competitors,
                    if after.status[e] == SUPERSEDED then LOST else AUTO_RESOLVED, None)
  }

  lemma FilingSurvivesRouting(
    before: World, a: Detection, e: Event, found: map<EventId, set<FieldPath>>, status: EventStatus, after: World)
    requires Filed(before, a, e, found) && e.id in a.world.status && Live(status)
    requires a.Detected? ==> a.world.status[e.id] == a.result.status
    requires a.Detected? ==> (a.result.shouldContinue <==> Live(a.result.status))
    requires after == if a.Detected? && a.result.shouldContinue
      then a.world.(status := a.world.status[e.id := status]) else a.world
    ensures ConflictsFiled(before, after, e.id, found, a.RuleMissing?)
  {
  }

  lemma AnswerTellsThrows(s: System, c: Call, order: seq<EventId>)
    requires CanIngest(s, c, order) && !Checking(s, c).1.duplicate
    ensures Ingest(s, c, order).1.None? <==> Judging(s, c, order).RuleMissing?
  {
  }

  lemma IngestFiles(s: System, c: Call, order: seq<EventId>)
    requires CanIngest(s, c, order) && !Checking(s, c).1.duplicate && LinksSound(s.world)
    ensures ConflictsFiled(s.world, Ingest(s, c, order).0.world, c.e.id, Found(Accepting(s, c), c.e, c.env),
                           Ingest(s, c, order).1.None?)
  {
    JudgingFiles(s, c, order);
    JudgingKeepsLinks(s, c, order);
    IngestWorld(s, c, order);
    RoutedIsLive(c);
    AnswerTellsThrows(s, c, order);
    FilingSurvivesRouting(s.world, Judging(s, c, order), c.e, Found(Accepting(s, c), c.e, c.env), RoutedStatus(c),
                          Ingest(s, c, order).0.world);
  }

  /**
   * Completeness of the conflict tables, at every ingest of a run: an accepted event that meets competitors
   * leaves exactly one record for each, on exactly the shared paths. A parked event's records are open and have
   * one open review item each, a superseded event's are lost, and otherwise they are resolved. A thrown
   * detection, or one without competitors, records nothing.
   */
  lemma ConflictsAreComplete(trace: seq<System>, steps: seq<Step>, n: nat, windowSeconds: nat)
    requires IsRun(trace, steps) && n < |steps| && Timely(steps, windowSeconds) && steps[n].Ingesting?
    requires !Checking(trace[n], steps[n].c).1.duplicate
    ensures CanTake(trace[n], steps[n])
    ensures var c := steps[n].c; var w := Accepting(trace[n], c);
      && WellFormed(w)
      && ConflictsFiled(trace[n].world, trace[n + 1].world, c.e.id, Competitors(w, c.e, windowSeconds),
                        Ingest(trace[n], c, steps[n].order).1.None?)
  {
    RunIsSturdy(trace, steps, n);
    IngestFindsGuarded(trace, steps, n, windowSeconds);
    GuardedDetectionIsExact(trace[n], steps[n].c);
    assert CanTake(trace[n], steps[n]);
    IngestFiles(trace[n], steps[n].c, steps[n].order);
  }

  /** The result of the detection lists exactly the new records, and flags a superseded event. */
  lemma ResultListsTheRecords(s: System, c: Call, order: seq<EventId>)
    requires CanIngest(s, c, order) && !Checking(s, c).1.duplicate && LinksSound(s.world)
    requires Judging(s, c, order).Detected?
    ensures Lists(Judging(s, c, order).result.conflictIds, |s.world.conflicts|,
                  |Ingest(s, c, order).0.world.conflicts|)
    ensures FlagsSuperseded(Judging(s, c, order))
  {
    JudgingFiles(s, c, order);
    IngestWorld(s, c, order);
  }

  // ---- Which of the three it is ----

  /** The new event wins, loses or draws against one competitor. */
  predicate Against(
    events: map<EventId, Event>, e: Event, matrix: Authority.Matrix, competitors: map<EventId, set<FieldPath>>,
    outcome: Authority.CandidateOutcome)
    requires AllCovered(matrix, competitors)
  {
    exists id | id in competitors && id in events ::
      Authority.Outcome(matrix, e, events[id], competitors[id]) == outcome
  }

  /** What the status says: parked on any draw or on mixed outcomes, superseded if all are lost. */
  ghost predicate VerdictShows(
    status: EventStatus, events: map<EventId, Event>, e: Event, matrix: Authority.Matrix,
    competitors: map<EventId, set<FieldPath>>)
  {
    if !AllCovered(matrix, competitors) then status == IDEMPOTENCY_ACCEPTED
    else
      var wins := Against(events, e, matrix, competitors, Authority.CURRENT_WINS);
      var loses := Against(events, e, matrix, competitors, Authority.CURRENT_LOSES);
      var draws := Against(events, e, matrix, competitors, Authority.NEEDS_REVIEW);
      && (status == MANUAL_REVIEW_REQUIRED <==> draws || (wins && loses))
      && (status == SUPERSEDED <==> loses && !wins && !draws)
  }

  lemma ResolutionVerdict(v: World, e: Event, env: Env, groups: map<EventId, set<FieldPath>>, order: seq<EventId>)
    requires groups.Keys <= v.events.Keys && e.id in v.status && v.status[e.id] == IDEMPOTENCY_ACCEPTED
    requires forall id :: id in order ==> id in groups
    ensures var a := Recorded(e, Resolve(v, e, env, groups, order));
      VerdictShows(if a.Detected? then a.result.status else IDEMPOTENCY_ACCEPTED, v.events, e, env.matrix, groups)
  {
    ResolveThrowsIffUncovered(v, e, env, groups, order);
    if AllCovered(env.matrix, groups) { VerdictFromEnds(v, e, env, groups, order); }
  }

  lemma RoutedVerdict(
    w: World, a: Detection, e: Event, found: set<EventId>, status: EventStatus, after: World,
    matrix: Authority.Matrix, groups: map<EventId, set<FieldPath>>)
    requires AdmissionEffect(w, e, found, a) && Live(status) && e.id in w.status
    requires w.status[e.id] == IDEMPOTENCY_ACCEPTED
    requires VerdictShows(if a.Detected? then a.result.status else IDEMPOTENCY_ACCEPTED, w.events, e, matrix, groups)
    requires a.Detected? <==> AllCovered(matrix, groups)
    requires after == if a.Detected? && a.result.shouldContinue
      then a.world.(status := a.world.status[e.id := status]) else a.world
    ensures e.id in after.status && VerdictShows(after.status[e.id], w.events, e, matrix, groups)
  {
  }

  /** The verdict of an accepted ingest is the one that the outcomes against its competitors call for. */
  lemma VerdictOfAnIngest(s: System, c: Call, order: seq<EventId>)
    requires CanIngest(s, c, order) && !Checking(s, c).1.duplicate && LinksSound(s.world)
    ensures var w := Accepting(s, c);
      && c.e.id in Ingest(s, c, order).0.world.status
      && VerdictShows(Ingest(s, c, order).0.world.status[c.e.id], w.events, c.e, c.env.matrix, Found(w, c.e, c.env))
  {
    var w, found := Accepting(s, c), Found(Accepting(s, c), c.e, c.env);
    JudgingKeepsLinks(s, c, order);
    ResolutionVerdict(Checked(w, c.e, c.env), c.e, c.env, found, order);
    ResolveThrowsIffUncovered(Checked(w, c.e, c.env), c.e, c.env, found, order);
    IngestWorld(s, c, order);
    RoutedIsLive(c);
    RoutedVerdict(w, Judging(s, c, order), c.e, found.Keys, RoutedStatus(c), Ingest(s, c, order).0.world,
                  c.env.matrix, found);
  }
}
