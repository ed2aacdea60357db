/** What conflict detection keeps: the pen mirrors the event table, and no two clashing events stay deliverable. */
module ConflictSafety {
  import opened Domain
  import opened Authority
  import opened HoldingPen
  import opened Conflicts

  /** Statuses of events that never got through conflict detection. */
  predicate Unadmitted(status: EventStatus) {
    status in {RECEIVED, IDEMPOTENCY_ACCEPTED, DUPLICATE_DETECTED}
  }

  /** Admitted by detection and not superseded. */
  predicate Settled(status: EventStatus) {
    !Unadmitted(status) && status != SUPERSEDED
  }

  /** Admitted, not superseded and not parked: the event may be delivered. */
  predicate Live(status: EventStatus) {
    Settled(status) && status != MANUAL_REVIEW_REQUIRED
  }

  /** Two events that must not both be delivered. */
  predicate Clash(a: Event, b: Event, windowSeconds: nat) {
    && a.ubid == b.ubid
    && a.source != b.source
    && Paths(a) * Paths(b) != {}
    && Abs(a.receivedAt - b.receivedAt) <= 1000 * windowSeconds
  }

  ghost predicate Safe(w: World, windowSeconds: nat)
    requires w.status.Keys == w.events.Keys
  {
    forall a, b :: a in w.events && b in w.events && Live(w.status[a]) && Live(w.status[b]) ==>
      !Clash(w.events[a], w.events[b], windowSeconds)
  }

  // ---- The pen mirrors the event table ----

  /** The pen entry is an admitted event, under its own UBID, path and score. */
  ghost predicate EntrySound(w: World, key: PenKey, id: EventId, score: int)
    requires w.status.Keys == w.events.Keys
  {
    && id in w.events
    && w.events[id].ubid == key.ubid
    && key.path in Paths(w.events[id])
    && score == w.events[id].receivedAt
    && !Unadmitted(w.status[id])
  }

  ghost predicate PenSound(w: World)
    requires w.status.Keys == w.events.Keys
  {
    forall key, id :: key in w.pen && id in w.pen[key].scores ==> EntrySound(w, key, id, w.pen[key].scores[id])
  }

  /** The event is in the pen under each of its paths, and its keys outlive its window by the grace. */
  ghost predicate InPen(pen: Pen, x: Event, windowSeconds: nat) {
    forall path :: path in Paths(x) ==>
      && PenKey(x.ubid, path) in pen
      && x.id in pen[PenKey(x.ubid, path)].scores
      && x.receivedAt + TtlMs(windowSeconds) <= pen[PenKey(x.ubid, path)].expiresAt
  }

  /** Nothing that a detection of e should see has been pruned or has expired. */
  ghost predicate PenComplete(w: World, e: Event, windowSeconds: nat)
    requires w.status.Keys == w.events.Keys
  {
    forall id | id in w.events && Settled(w.status[id]) && w.events[id].ubid == e.ubid
      && WindowStart(windowSeconds, e) <= w.events[id].receivedAt ::
      InPen(w.pen, w.events[id], windowSeconds)
  }

  /** A detection of e reads its clock inside the grace and its Redis calls succeed. */
  ghost predicate TimelyFor(e: Event, env: Env) {
    && e.receivedAt <= env.checkNow < e.receivedAt + GRACE_MS
    && env.checkNow <= env.addNow
    && env.faults == NO_FAULTS
  }

  /** The declarative answer: earlier admitted, unsuperseded events of other systems inside the window. */
  function Competitors(w: World, e: Event, windowSeconds: nat): map<EventId, set<FieldPath>>
    requires w.status.Keys == w.events.Keys
  {
    map id | id in w.events
      && Settled(w.status[id])
      && w.events[id].ubid == e.ubid
      && w.events[id].source != e.source
      && e.receivedAt - 1000 * windowSeconds <= w.events[id].receivedAt
      && Paths(w.events[id]) * Paths(e) != {}
      :: Paths(w.events[id]) * Paths(e)
  }

  lemma FoundFieldIsShared(w: World, e: Event, env: Env, id: EventId, path: FieldPath)
    requires WellFormed(w) && PenSound(w)
    requires Candidate(id, path) in CheckForConflicts(w.pen, e, env.windowSeconds, env.checkNow, env.faults).1
    requires id in w.events && w.events[id].source != e.source && w.status[id] != SUPERSEDED
    ensures id in Competitors(w, e, env.windowSeconds) && path in Paths(w.events[id]) * Paths(e)
  {
    var key := PenKey(e.ubid, path);
    assert id in w.pen[key].scores && EntrySound(w, key, id, w.pen[key].scores[id]);
    assert path in Paths(w.events[id]) * Paths(e);
  }

  lemma SharedFieldIsFound(w: World, e: Event, env: Env, id: EventId, path: FieldPath)
    requires WellFormed(w) && PenSound(w) && TimelyFor(e, env)
    requires PenComplete(w, e, env.windowSeconds)
    requires e.id in w.events && w.events[e.id] == e
    requires id in Competitors(w, e, env.windowSeconds) && path in Paths(w.events[id]) * Paths(e)
    ensures Candidate(id, path) in CheckForConflicts(w.pen, e, env.windowSeconds, env.checkNow, env.faults).1
  {
    var x, key := w.events[id], PenKey(e.ubid, path);
    var start := WindowStart(env.windowSeconds, e);
    assert InPen(w.pen, x, env.windowSeconds);
    assert Paths(e) - {} == Paths(e);
    assert start + TtlMs(env.windowSeconds) == e.receivedAt + GRACE_MS;
    assert EntrySound(w, key, id, w.pen[key].scores[id]);
    assert id in InRange(Visible(w.pen, key, env.checkNow), start, e.id);
  }

  lemma FoundFieldsAreShared(w: World, e: Event, env: Env, id: EventId)
    requires WellFormed(w) && PenSound(w) && TimelyFor(e, env)
    requires PenComplete(w, e, env.windowSeconds)
    requires e.id in w.events && w.events[e.id] == e
    requires id in w.events && w.events[id].source != e.source
    requires w.status[id] != SUPERSEDED
    ensures FieldsOf(CheckForConflicts(w.pen, e, env.windowSeconds, env.checkNow, env.faults).1, id)
      == if id in Competitors(w, e, env.windowSeconds) then Paths(w.events[id]) * Paths(e) else {}
  {
    var raw := CheckForConflicts(w.pen, e, env.windowSeconds, env.checkNow, env.faults).1;
    forall path | path in FieldsOf(raw, id)
      ensures id in Competitors(w, e, env.windowSeconds) && path in Paths(w.events[id]) * Paths(e)
    {
      FoundFieldIsShared(w, e, env, id, path);
    }
    if id in Competitors(w, e, env.windowSeconds) {
      forall path | path in Paths(w.events[id]) * Paths(e) ensures path in FieldsOf(raw, id) {
        SharedFieldIsFound(w, e, env, id, path);
      }
    }
  }

  /**
   * Candidate refinement: the pruned per-field pen followed by the grouping map returns exactly the
   * declarative set, each event paired with exactly the intersection of the two events' paths.
   */
  lemma FoundAreExactlyTheCompetitors(w: World, e: Event, env: Env)
    requires WellFormed(w) && PenSound(w) && TimelyFor(e, env)
    requires PenComplete(w, e, env.windowSeconds)
    requires e.id in w.events && w.events[e.id] == e
    ensures Found(w, e, env) == Competitors(w, e, env.windowSeconds)
  {
    forall id | id in Found(w, e, env)
      ensures id in Competitors(w, e, env.windowSeconds)
      ensures Found(w, e, env)[id] == Competitors(w, e, env.windowSeconds)[id]
    {
      FoundCompetes(w, e, env, id);
    }
    forall id | id in Competitors(w, e, env.windowSeconds) ensures id in Found(w, e, env) {
      CompetitorIsFound(w, e, env, id);
    }
  }

  lemma FoundCompetes(w: World, e: Event, env: Env, id: EventId)
    requires WellFormed(w) && PenSound(w) && TimelyFor(e, env)
    requires PenComplete(w, e, env.windowSeconds)
    requires e.id in w.events && w.events[e.id] == e && id in Found(w, e, env)
    ensures id in Competitors(w, e, env.windowSeconds)
    ensures Found(w, e, env)[id] == Competitors(w, e, env.windowSeconds)[id]
  {
    FoundFieldsAreShared(w, e, env, id);
  }

  lemma CompetitorIsFound(w: World, e: Event, env: Env, id: EventId)
    requires WellFormed(w) && PenSound(w) && TimelyFor(e, env)
    requires PenComplete(w, e, env.windowSeconds)
    requires e.id in w.events && w.events[e.id] == e && id in Competitors(w, e, env.windowSeconds)
    ensures id in Found(w, e, env)
  {
    var path :| path in Paths(w.events[id]) * Paths(e);
    SharedFieldIsFound(w, e, env, id, path);
    CandidateIsGrouped(w, e, CheckForConflicts(w.pen, e, env.windowSeconds, env.checkNow, env.faults).1, id, path);
  }

  lemma CandidateIsGrouped(w: World, e: Event, raw: set<Candidate>, id: EventId, path: FieldPath)
    requires Candidate(id, path) in raw && Competes(w, e, id)
    ensures id in Groups(w, e, raw)
  {
    var c := Candidate(id, path);
    assert c in raw && Competes(w, e, c.eventId);
  }

  // ---- One admission ----

  /** Ingest records a clean check as CONFLICT_CHECKED. */
  function Recorded(e: Event, d: Detection): Detection {
    if d.Detected? && d.result.status == CONFLICT_CHECKED
    then d.(world := d.world.(status := d.world.status[e.id := CONFLICT_CHECKED]))
    else d
  }

  function Admit(w: World, e: Event, env: Env, order: seq<EventId>): Detection
    requires forall id :: id in order ==> id in Found(w, e, env)
  {
    Recorded(e, Detect(w, e, env, order))
  }

  ghost predicate CanAdmit(w: World, e: Event, env: Env, order: seq<EventId>) {
    && WellFormed(w)
    && e.id in w.events && w.events[e.id] == e
    && w.status[e.id] == IDEMPOTENCY_ACCEPTED
    && Enumerates(order, Found(w, e, env).Keys)
  }

  /** Which events an admission supersedes, and how it leaves the current event. */
  ghost predicate AdmissionEffect(w: World, e: Event, found: set<EventId>, a: Detection) {
    && a.world.events == w.events
    && a.world.status.Keys == w.status.Keys
    && e.id in a.world.status
    && (a.RuleMissing? ==> a.world.status == w.status)
    && (a.Detected? ==>
      && a.world.status[e.id] == a.result.status
      && a.result.status in {CONFLICT_CHECKED, CONFLICT_RESOLVED, MANUAL_REVIEW_REQUIRED, SUPERSEDED}
      && (a.result.shouldContinue <==> Live(a.result.status)))
    && (forall id :: id in w.status && id != e.id ==>
      a.world.status[id] ==
        if a.Detected? && a.result.status == CONFLICT_RESOLVED && id in found then SUPERSEDED
        else w.status[id])
    && (a.Detected? && a.result.status == CONFLICT_CHECKED ==> found == {})
  }

  lemma ResolutionStatuses(v: World, e: Event, env: Env, groups: map<EventId, set<FieldPath>>, order: seq<EventId>)
    requires groups.Keys <= v.events.Keys
    requires forall id :: id in order ==> id in groups
    requires e.id in v.status && e.id !in groups
    ensures AdmissionEffect(v, e, groups.Keys, Recorded(e, Resolve(v, e, env, groups, order)))
  {
  }

  lemma AdmissionStatuses(w: World, e: Event, env: Env, order: seq<EventId>)
    requires CanAdmit(w, e, env, order)
    ensures AdmissionEffect(w, e, Found(w, e, env).Keys, Admit(w, e, env, order))
  {
    var groups := Found(w, e, env);
    assert e.id !in groups;
    ResolutionStatuses(Checked(w, e, env), e, env, groups, order);
  }

  /** The verdict in terms of the outcomes that occur among the found events. */
  lemma VerdictFromEnds(v: World, e: Event, env: Env, groups: map<EventId, set<FieldPath>>, order: seq<EventId>)
    requires groups.Keys <= v.events.Keys && e.id in v.status
    requires forall id :: id in order ==> id in groups
    requires AllCovered(env.matrix, groups)
    ensures Recorded(e, Resolve(v, e, env, groups, order)).Detected?
    ensures Recorded(e, Resolve(v, e, env, groups, order)).result.status ==
      if groups == map[] then CONFLICT_CHECKED
      else if Ends(v, e, env.matrix, groups, NEEDS_REVIEW) then MANUAL_REVIEW_REQUIRED
      else if Ends(v, e, env.matrix, groups, CURRENT_LOSES) then
        if Ends(v, e, env.matrix, groups, CURRENT_WINS) then MANUAL_REVIEW_REQUIRED else SUPERSEDED
      else CONFLICT_RESOLVED
  {
  }

  /** The pen after an admission, whatever Redis does: pruned, and with e added unless it was superseded or failed. */
  ghost predicate PenEffect(w: World, e: Event, env: Env, a: Detection)
    requires e.id in a.world.status
  {
    var pruned := PrunedPen(w.pen, e, env.windowSeconds, Paths(e) - env.faults.prune);
    a.world.pen == if Settled(a.world.status[e.id])
      then AddedPen(pruned, e, env.windowSeconds, env.addNow, Paths(e) - env.faults.add) else pruned
  }

  /** Everything the invariants need to know about one admission. */
  ghost predicate Admission(w: World, e: Event, env: Env, a: Detection) {
    && WellFormed(w)
    && e.id in w.events && w.events[e.id] == e
    && w.status[e.id] == IDEMPOTENCY_ACCEPTED
    && AdmissionEffect(w, e, Found(w, e, env).Keys, a)
    && PenEffect(w, e, env, a)
  }

  /** The pen after each outcome of a resolution. */
  predicate PenFollows(v: World, e: Event, env: Env, a: Detection) {
    && e.id in a.world.status
    && a.world.pen == if Settled(a.world.status[e.id])
      then AddedPen(v.pen, e, env.windowSeconds, env.addNow, Paths(e) - env.faults.add) else v.pen
  }

  lemma VerdictPen(v: World, e: Event, env: Env, groups: map<EventId, set<FieldPath>>, order: seq<EventId>)
    requires groups.Keys <= v.events.Keys
    requires forall id :: id in order ==> id in groups
    requires e.id in v.status && v.status[e.id] == IDEMPOTENCY_ACCEPTED
    ensures PenFollows(v, e, env, Park(v, e, env, groups, order))
    ensures PenFollows(v, e, env, Lose(v, e, groups, order))
    ensures PenFollows(v, e, env, Win(v, e, env, groups, order))
  {
  }

  predicate IsVerdict(
    v: World, e: Event, env: Env, groups: map<EventId, set<FieldPath>>, order: seq<EventId>, d: Detection)
    requires forall id :: id in order ==> id in groups
  {
    d in {Park(v, e, env, groups, order), Lose(v, e, groups, order), Win(v, e, env, groups, order)}
  }

  lemma ResolutionPen(v: World, e: Event, env: Env, groups: map<EventId, set<FieldPath>>, order: seq<EventId>)
    requires groups.Keys <= v.events.Keys
    requires forall id :: id in order ==> id in groups
    requires e.id in v.status && v.status[e.id] == IDEMPOTENCY_ACCEPTED
    ensures PenFollows(v, e, env, Recorded(e, Resolve(v, e, env, groups, order)))
  {
    if groups == map[] || !AllCovered(env.matrix, groups) {
    } else {
      assert IsVerdict(v, e, env, groups, order, Resolve(v, e, env, groups, order));
      RecordedVerdictPen(v, e, env, groups, order, Resolve(v, e, env, groups, order));
    }
  }

  lemma RecordedVerdictPen(
    v: World, e: Event, env: Env, groups: map<EventId, set<FieldPath>>, order: seq<EventId>, d: Detection)
    requires forall id :: id in order ==> id in groups
    requires groups.Keys <= v.events.Keys && IsVerdict(v, e, env, groups, order, d)
    requires e.id in v.status && v.status[e.id] == IDEMPOTENCY_ACCEPTED
    ensures Recorded(e, d) == d && PenFollows(v, e, env, d)
  {
    VerdictPen(v, e, env, groups, order);
  }

  lemma AdmitIsAnAdmission(w: World, e: Event, env: Env, order: seq<EventId>)
    requires CanAdmit(w, e, env, order)
    ensures Admission(w, e, env, Admit(w, e, env, order))
  {
    AdmissionStatuses(w, e, env, order);
    ResolutionPen(Checked(w, e, env), e, env, Found(w, e, env), order);
  }

  /** Failing Redis calls may lose entries, but never invent one. */
  lemma AdmissionKeepsPenSound(w: World, e: Event, env: Env, a: Detection)
    requires Admission(w, e, env, a)
    requires PenSound(w)
    ensures PenSound(a.world)
  {
    var pruned := PrunedPen(w.pen, e, env.windowSeconds, Paths(e) - env.faults.prune);
    forall key, id | key in a.world.pen && id in a.world.pen[key].scores
      ensures EntrySound(a.world, key, id, a.world.pen[key].scores[id])
    {
      if key in pruned && id in pruned[key].scores && a.world.pen[key].scores[id] == pruned[key].scores[id] {
        assert EntrySound(w, key, id, w.pen[key].scores[id]);
      } else {
        assert id == e.id && key.path in Paths(e);
      }
    }
  }

  /** An entry inside the current window survives, unless its key had already expired. */
  lemma AdmissionKeepsEntries(w: World, e: Event, env: Env, a: Detection, x: Event)
    requires Admission(w, e, env, a) && PenSound(w) && env.faults == NO_FAULTS
    requires x.id in w.events && w.events[x.id] == x && x.id != e.id
    requires InPen(w.pen, x, env.windowSeconds)
    requires x.receivedAt <= env.addNow
    requires x.ubid == e.ubid ==> WindowStart(env.windowSeconds, e) <= x.receivedAt
    ensures InPen(a.world.pen, x, env.windowSeconds)
      || x.receivedAt + TtlMs(env.windowSeconds) < env.addNow
  {
    assert Paths(e) - {} == Paths(e);
    var pruned := PrunedPen(w.pen, e, env.windowSeconds, Paths(e));
    if x.receivedAt + TtlMs(env.windowSeconds) >= env.addNow {
      forall path | path in Paths(x)
        ensures PenKey(x.ubid, path) in a.world.pen && x.id in a.world.pen[PenKey(x.ubid, path)].scores
        ensures x.receivedAt + TtlMs(env.windowSeconds) <= a.world.pen[PenKey(x.ubid, path)].expiresAt
      {
        var key := PenKey(x.ubid, path);
        assert x.id in pruned[key].scores && env.addNow <= pruned[key].expiresAt;
      }
    }
  }

  // ---- The invariant of a run of ingests ----

  /** Every settled event is in the pen, or too old for any later window, or past its key's expiry. */
  ghost predicate PenInvariant(w: World, latest: int, wall: int, windowSeconds: nat) {
    && WellFormed(w)
    && PenSound(w)
    && (forall id :: id in w.events ==> w.events[id].receivedAt <= latest && w.events[id].receivedAt <= wall)
    && (forall id :: id in w.events && Settled(w.status[id]) ==>
      || InPen(w.pen, w.events[id], windowSeconds)
      || w.events[id].receivedAt + WindowMs(windowSeconds) < latest
      || w.events[id].receivedAt + TtlMs(windowSeconds) < wall)
  }

  lemma InvariantGivesCompletePen(w: World, e: Event, env: Env, latest: int, wall: int)
    requires PenInvariant(w, latest, wall, env.windowSeconds)
    requires latest <= e.receivedAt && wall <= env.checkNow && TimelyFor(e, env)
    ensures PenComplete(w, e, env.windowSeconds)
  {
  }

  lemma AdmissionKeepsPenInvariant(w: World, e: Event, env: Env, a: Detection, latest: int, wall: int)
    requires Admission(w, e, env, a) && TimelyFor(e, env)
    requires PenInvariant(w, latest, wall, env.windowSeconds)
    requires latest <= e.receivedAt && wall <= env.checkNow
    ensures PenInvariant(a.world, e.receivedAt, env.addNow, env.windowSeconds)
  {
    AdmissionKeepsPenSound(w, e, env, a);
    assert Paths(e) - {} == Paths(e);
    forall id | id in w.events && Settled(a.world.status[id])
      ensures InPen(a.world.pen, w.events[id], env.windowSeconds)
        || w.events[id].receivedAt + WindowMs(env.windowSeconds) < e.receivedAt
        || w.events[id].receivedAt + TtlMs(env.windowSeconds) < env.addNow
    {
      var x := w.events[id];
      if id != e.id && InPen(w.pen, x, env.windowSeconds) && WindowStart(env.windowSeconds, e) <= x.receivedAt {
        AdmissionKeepsEntries(w, e, env, a, x);
      }
    }
  }

  lemma CompetitorsAreSuperseded(w: World, e: Event, env: Env, a: Detection, other: EventId)
    requires Admission(w, e, env, a)
    requires Found(w, e, env) == Competitors(w, e, env.windowSeconds)
    requires Live(a.world.status[e.id])
    requires other in w.events && other != e.id && Live(w.status[other])
    requires w.events[other].receivedAt <= e.receivedAt
    requires Clash(e, w.events[other], env.windowSeconds)
    ensures a.world.status[other] == SUPERSEDED
  {
    assert Paths(w.events[other]) * Paths(e) == Paths(e) * Paths(w.events[other]);
    assert other in Competitors(w, e, env.windowSeconds);
  }

  lemma ClashIsSymmetric(a: Event, b: Event, windowSeconds: nat)
    ensures Clash(a, b, windowSeconds) == Clash(b, a, windowSeconds)
  {
    assert Paths(a) * Paths(b) == Paths(b) * Paths(a);
  }

  /** An admitted event that stays live has superseded every live event it clashes with. */
  lemma AdmissionKeepsSafety(w: World, e: Event, env: Env, a: Detection, latest: int, wall: int)
    requires Admission(w, e, env, a) && TimelyFor(e, env)
    requires PenInvariant(w, latest, wall, env.windowSeconds)
    requires latest <= e.receivedAt && wall <= env.checkNow
    requires Safe(w, env.windowSeconds)
    ensures Safe(a.world, env.windowSeconds)
  {
    InvariantGivesCompletePen(w, e, env, latest, wall);
    FoundAreExactlyTheCompetitors(w, e, env);
    forall x, y | x in w.events && y in w.events && Live(a.world.status[x]) && Live(a.world.status[y])
      ensures !Clash(w.events[x], w.events[y], env.windowSeconds)
    {
      ClashIsSymmetric(w.events[x], w.events[y], env.windowSeconds);
      if Clash(w.events[x], w.events[y], env.windowSeconds) {
        if x == e.id {
          CompetitorsAreSuperseded(w, e, env, a, y);
        } else if y == e.id {
          CompetitorsAreSuperseded(w, e, env, a, x);
        }
      }
    }
  }

  /** Delivery only moves live events between live statuses. */
  ghost predicate OnlyLiveMoves(w: World, w': World) {
    && w' == w.(status := w'.status)
    && w'.status.Keys == w.status.Keys
    && (forall id :: id in w.status ==>
      w'.status[id] == w.status[id] || (Live(w.status[id]) && Live(w'.status[id])))
  }

  lemma LiveMovesKeepInvariants(w: World, w': World, latest: int, wall: int, windowSeconds: nat)
    requires OnlyLiveMoves(w, w')
    requires PenInvariant(w, latest, wall, windowSeconds) && Safe(w, windowSeconds)
    ensures PenInvariant(w', latest, wall, windowSeconds) && Safe(w', windowSeconds)
  {
  }

  lemma LiveMovesKeepPenSound(w: World, w': World)
    requires w.status.Keys == w.events.Keys && PenSound(w) && OnlyLiveMoves(w, w')
    ensures PenSound(w')
  {
    forall key, id | key in w'.pen && id in w'.pen[key].scores
      ensures EntrySound(w', key, id, w'.pen[key].scores[id])
    {
      assert EntrySound(w, key, id, w.pen[key].scores[id]);
    }
  }

  /** A newly received event, still to be checked. */
  function Receive(w: World, e: Event, status: EventStatus): World {
    w.(events := w.events[e.id := e], status := w.status[e.id := status])
  }

  lemma ReceivingKeepsPenSound(w: World, e: Event, status: EventStatus)
    requires WellFormed(w) && PenSound(w) && e.id !in w.events
    ensures PenSound(Receive(w, e, status)) && WellFormed(Receive(w, e, status))
  {
    var w' := Receive(w, e, status);
    forall key, id | key in w'.pen && id in w'.pen[key].scores
      ensures EntrySound(w', key, id, w'.pen[key].scores[id])
    {
      assert EntrySound(w, key, id, w.pen[key].scores[id]);
    }
  }

  lemma ReceivingKeepsInvariants(
    w: World, e: Event, status: EventStatus, latest: int, wall: int, now: int, windowSeconds: nat)
    requires PenInvariant(w, latest, wall, windowSeconds) && Safe(w, windowSeconds)
    requires e.id !in w.events && Unadmitted(status)
    requires latest <= e.receivedAt <= now && wall <= now
    ensures PenInvariant(Receive(w, e, status), e.receivedAt, now, windowSeconds)
    ensures Safe(Receive(w, e, status), windowSeconds)
  {
    var w' := Receive(w, e, status);
    ReceivingKeepsPenSound(w, e, status);
    forall id | id in w'.events && Settled(w'.status[id])
      ensures id != e.id && w'.events[id] == w.events[id]
    {
    }
  }
}
