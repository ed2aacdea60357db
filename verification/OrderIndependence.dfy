/** Authority decides, not arrival order: which events of a clashing batch survive is the same in every order. */
module OrderIndependence {
  import opened Domain
  import opened Authority
  import opened HoldingPen
  import opened Conflicts
  import opened ConflictSafety

  /** One call of detectAndResolve in a batch. */
  datatype Arrival = Arrival(e: Event, env: Env, order: seq<EventId>)

  /** trace[i] is the world before the i-th arrival is processed. */
  ghost predicate IsRun(trace: seq<World>, arrivals: seq<Arrival>) {
    && |trace| == |arrivals| + 1
    && forall i :: 0 <= i < |arrivals| ==> IsStep(trace[i], arrivals[i], trace[i + 1])
  }

  ghost predicate IsStep(w: World, a: Arrival, w': World) {
    CanAdmit(w, a.e, a.env, a.order) && w' == Admit(w, a.e, a.env, a.order).world
  }

  /** Events on one UBID with the same paths, all inside one window, judged by one matrix. */
  datatype Batch = Batch(
    arrivals: seq<Arrival>, ubid: string, paths: set<FieldPath>, matrix: Matrix,
    owner: SystemName, windowSeconds: nat)

  ghost predicate IsBatch(b: Batch) {
    && b.paths != {}
    && (forall i :: 0 <= i < |b.arrivals| ==>
      && b.arrivals[i].e.ubid == b.ubid
      && Paths(b.arrivals[i].e) == b.paths
      && b.arrivals[i].env.matrix == b.matrix
      && b.arrivals[i].env.windowSeconds == b.windowSeconds
      && TimelyFor(b.arrivals[i].e, b.arrivals[i].env))
    && (forall i, j :: 0 <= i < |b.arrivals| && 0 <= j < |b.arrivals| ==>
      Abs(b.arrivals[i].e.receivedAt - b.arrivals[j].e.receivedAt) <= WindowMs(b.windowSeconds))
    && (forall i, j :: 0 <= i < j < |b.arrivals| ==> b.arrivals[i].env.addNow <= b.arrivals[j].env.checkNow)
    && OwnedBy(b.matrix, b.paths, b.owner)
  }

  /** Every field's rule names the same owner and asks for no manual review. */
  ghost predicate OwnedBy(matrix: Matrix, paths: set<FieldPath>, owner: SystemName) {
    forall path :: path in paths ==>
      && GetAuthorityRule(matrix, path).Some?
      && !GetAuthorityRule(matrix, path).value.manualReviewRequired
      && GetAuthorityRule(matrix, path).value.authoritative == owner
  }

  /** Admitted on the batch's UBID. */
  ghost predicate Admitted(w: World, b: Batch, id: EventId) {
    id in w.events && id in w.status && w.events[id].ubid == b.ubid && !Unadmitted(w.status[id])
  }

  /** Nothing on this UBID has been admitted yet. */
  ghost predicate Untouched(w: World, b: Batch) {
    && WellFormed(w) && PenSound(w)
    && forall id :: id in w.events ==> !Admitted(w, b, id)
  }

  ghost predicate Arrived(b: Batch, k: nat, x: Event)
    requires k <= |b.arrivals|
  {
    exists i :: 0 <= i < k && b.arrivals[i].e == x
  }

  ghost predicate OwnerSeen(b: Batch, k: nat)
    requires k <= |b.arrivals|
  {
    exists i :: 0 <= i < k && b.arrivals[i].e.source == b.owner
  }

  ghost predicate Fate(w: World, b: Batch, k: nat, wall: int, id: EventId)
    requires k <= |b.arrivals| && id in w.events && id in w.status
  {
    && Arrived(b, k, w.events[id])
    && w.events[id].receivedAt <= wall
    && (w.events[id].source == b.owner ==> Live(w.status[id]))
    && (w.events[id].source != b.owner && OwnerSeen(b, k) ==> w.status[id] == SUPERSEDED)
    && (Settled(w.status[id]) ==>
      || InPen(w.pen, w.events[id], b.windowSeconds)
      || w.events[id].receivedAt + TtlMs(b.windowSeconds) < wall)
  }

  ghost predicate BatchInvariant(w: World, b: Batch, k: nat, wall: int)
    requires k <= |b.arrivals|
  {
    && WellFormed(w) && PenSound(w)
    && (forall i :: 0 <= i < k ==>
      var x := b.arrivals[i].e; x.id in w.events && w.events[x.id] == x && Admitted(w, b, x.id))
    && (forall id :: id in w.events && Admitted(w, b, id) ==> Fate(w, b, k, wall, id))
  }

  // ---- One verdict ----

  lemma OwnerWinsAll(matrix: Matrix, owned: Event, other: Event, paths: set<FieldPath>)
    requires OwnedBy(matrix, paths, owned.source) && paths != {}
    requires owned.source != other.source
    ensures Covers(matrix, paths)
    ensures Outcome(matrix, owned, other, paths) == CURRENT_WINS
    ensures Outcome(matrix, other, owned, paths) == CURRENT_LOSES
  {
    OutcomeIsUnanimity(matrix, owned, other, paths);
    OutcomeIsUnanimity(matrix, other, owned, paths);
  }

  lemma UnanimousEnds(
    v: World, e: Event, matrix: Authority.Matrix, groups: map<EventId, set<FieldPath>>,
    outcome: CandidateOutcome, other: CandidateOutcome)
    requires groups.Keys <= v.events.Keys && AllCovered(matrix, groups)
    requires forall id :: id in groups ==> Outcome(matrix, e, v.events[id], groups[id]) == outcome
    ensures Ends(v, e, matrix, groups, other) <==> groups != map[] && other == outcome
  {
    if groups != map[] {
      var id :| id in groups;
      assert Outcome(matrix, e, v.events[id], groups[id]) == outcome;
    }
  }

  lemma UnanimousVerdict(
    v: World, e: Event, env: Env, groups: map<EventId, set<FieldPath>>, order: seq<EventId>, outcome: CandidateOutcome)
    requires groups.Keys <= v.events.Keys && e.id in v.status
    requires forall id :: id in order ==> id in groups
    requires AllCovered(env.matrix, groups) && outcome != NEEDS_REVIEW
    requires forall id :: id in groups ==> Outcome(env.matrix, e, v.events[id], groups[id]) == outcome
    ensures Recorded(e, Resolve(v, e, env, groups, order)).Detected?
    ensures Recorded(e, Resolve(v, e, env, groups, order)).result.status ==
      if groups == map[] then CONFLICT_CHECKED
      else if outcome == CURRENT_WINS then CONFLICT_RESOLVED else SUPERSEDED
  {
    UnanimousEnds(v, e, env.matrix, groups, outcome, NEEDS_REVIEW);
    UnanimousEnds(v, e, env.matrix, groups, outcome, CURRENT_WINS);
    UnanimousEnds(v, e, env.matrix, groups, outcome, CURRENT_LOSES);
    VerdictFromEnds(v, e, env, groups, order);
  }

  /** The recorded status as a function of which outcomes occur. */
  /** The k-th arrival sees every earlier, unsuperseded arrival of the other systems, on every path. */
  ghost predicate SeesEarlier(w: World, b: Batch, e: Event, found: map<EventId, set<FieldPath>>) {
    && (forall id :: id in found ==>
      id in w.events && Admitted(w, b, id) && found[id] == b.paths
      && w.events[id].source != e.source && w.status[id] != SUPERSEDED)
    && (forall id | id in w.events && Admitted(w, b, id) ::
      w.events[id].source != e.source && w.status[id] != SUPERSEDED ==> id in found)
  }

  ghost predicate ReadyFor(w: World, b: Batch, k: nat, wall: int)
    requires k < |b.arrivals|
  {
    && IsBatch(b)
    && BatchInvariant(w, b, k, wall)
    && wall <= b.arrivals[k].env.checkNow
    && CanAdmit(w, b.arrivals[k].e, b.arrivals[k].env, b.arrivals[k].order)
  }

  lemma ArrivalsAreClose(w: World, b: Batch, k: nat, wall: int, id: EventId)
    requires k < |b.arrivals| && IsBatch(b)
    requires id in w.events && id in w.status && Fate(w, b, k, wall, id)
    ensures Abs(w.events[id].receivedAt - b.arrivals[k].e.receivedAt) <= WindowMs(b.windowSeconds)
    ensures Paths(w.events[id]) == b.paths
  {
  }

  lemma BatchSeesItself(w: World, b: Batch, k: nat, wall: int)
    requires k < |b.arrivals| && ReadyFor(w, b, k, wall)
    ensures SeesEarlier(w, b, b.arrivals[k].e, Found(w, b.arrivals[k].e, b.arrivals[k].env))
  {
    var e, env := b.arrivals[k].e, b.arrivals[k].env;
    forall id | id in w.events && Admitted(w, b, id)
      ensures Abs(w.events[id].receivedAt - e.receivedAt) <= WindowMs(b.windowSeconds)
      ensures Paths(w.events[id]) == b.paths
      ensures Settled(w.status[id]) ==> InPen(w.pen, w.events[id], b.windowSeconds)
    {
      ArrivalsAreClose(w, b, k, wall, id);
    }
    FoundAreExactlyTheCompetitors(w, e, env);
    assert b.paths * b.paths == b.paths;
    forall id | id in Competitors(w, e, b.windowSeconds)
      ensures Admitted(w, b, id)
    {
    }
  }

  lemma OwnerIsAdmitted(w: World, b: Batch, a: Arrival)
    requires IsBatch(b) && a.e.source == b.owner
    requires a.env.matrix == b.matrix && CanAdmit(w, a.e, a.env, a.order)
    requires SeesEarlier(w, b, a.e, Found(w, a.e, a.env))
    ensures Admit(w, a.e, a.env, a.order).Detected?
    ensures Admit(w, a.e, a.env, a.order).result.status ==
      if Found(w, a.e, a.env) == map[] then CONFLICT_CHECKED else CONFLICT_RESOLVED
  {
    var found := Found(w, a.e, a.env);
    forall id | id in found
      ensures Covers(b.matrix, found[id]) && Outcome(b.matrix, a.e, w.events[id], found[id]) == CURRENT_WINS
    {
      OwnerWinsAll(b.matrix, a.e, w.events[id], b.paths);
    }
    UnanimousVerdict(Checked(w, a.e, a.env), a.e, a.env, found, a.order, CURRENT_WINS);
  }

  lemma OthersLoseToTheOwner(w: World, b: Batch, a: Arrival)
    requires IsBatch(b) && a.e.source != b.owner
    requires a.env.matrix == b.matrix && CanAdmit(w, a.e, a.env, a.order)
    requires SeesEarlier(w, b, a.e, Found(w, a.e, a.env))
    requires Found(w, a.e, a.env) != map[]
    requires forall id :: id in Found(w, a.e, a.env) ==> w.events[id].source == b.owner
    ensures Admit(w, a.e, a.env, a.order).Detected?
    ensures Admit(w, a.e, a.env, a.order).result.status == SUPERSEDED
  {
    var found := Found(w, a.e, a.env);
    forall id | id in found
      ensures Covers(b.matrix, found[id]) && Outcome(b.matrix, a.e, w.events[id], found[id]) == CURRENT_LOSES
    {
      OwnerWinsAll(b.matrix, w.events[id], a.e, b.paths);
    }
    UnanimousVerdict(Checked(w, a.e, a.env), a.e, a.env, found, a.order, CURRENT_LOSES);
  }

  lemma RulesAreThere(w: World, b: Batch, a: Arrival)
    requires IsBatch(b)
    requires a.env.matrix == b.matrix && CanAdmit(w, a.e, a.env, a.order)
    requires SeesEarlier(w, b, a.e, Found(w, a.e, a.env))
    ensures Admit(w, a.e, a.env, a.order).Detected?
  {
    assert AllCovered(b.matrix, Found(w, a.e, a.env));
  }

  /** The owner's event is always admitted; once it has been seen, every other system's event loses. */
  ghost predicate VerdictInBatch(w: World, b: Batch, k: nat, a: Detection)
    requires k < |b.arrivals|
  {
    && a.Detected?
    && (b.arrivals[k].e.source == b.owner ==>
      a.result.status == if Found(w, b.arrivals[k].e, b.arrivals[k].env) == map[]
        then CONFLICT_CHECKED else CONFLICT_RESOLVED)
    && (b.arrivals[k].e.source != b.owner && OwnerSeen(b, k) ==> a.result.status == SUPERSEDED)
  }

  lemma BatchVerdict(w: World, b: Batch, k: nat, wall: int)
    requires k < |b.arrivals| && ReadyFor(w, b, k, wall)
    ensures VerdictInBatch(w, b, k, Admit(w, b.arrivals[k].e, b.arrivals[k].env, b.arrivals[k].order))
  {
    var a := b.arrivals[k];
    BatchSeesItself(w, b, k, wall);
    RulesAreThere(w, b, a);
    if a.e.source == b.owner {
      OwnerIsAdmitted(w, b, a);
    } else if OwnerSeen(b, k) {
      var i :| 0 <= i < k && b.arrivals[i].e.source == b.owner;
      assert Fate(w, b, k, wall, b.arrivals[i].e.id);
      assert b.arrivals[i].e.id in Found(w, a.e, a.env);
      forall id | id in Found(w, a.e, a.env) ensures w.events[id].source == b.owner {
        assert Fate(w, b, k, wall, id);
      }
      OthersLoseToTheOwner(w, b, a);
    }
  }

  ghost predicate Acted(w: World, b: Batch, k: nat, wall: int, a: Detection)
    requires k < |b.arrivals|
  {
    && ReadyFor(w, b, k, wall)
    && Admission(w, b.arrivals[k].e, b.arrivals[k].env, a)
    && SeesEarlier(w, b, b.arrivals[k].e, Found(w, b.arrivals[k].e, b.arrivals[k].env))
    && VerdictInBatch(w, b, k, a)
  }

  lemma SeenNext(b: Batch, k: nat)
    requires k < |b.arrivals|
    ensures OwnerSeen(b, k + 1) <==> OwnerSeen(b, k) || b.arrivals[k].e.source == b.owner
    ensures Arrived(b, k + 1, b.arrivals[k].e)
    ensures forall x :: Arrived(b, k, x) ==> Arrived(b, k + 1, x)
  {
  }

  lemma StatusFate(w: World, b: Batch, k: nat, wall: int, a: Detection, id: EventId)
    requires k < |b.arrivals| && Acted(w, b, k, wall, a)
    requires id in w.events && id != b.arrivals[k].e.id && Admitted(w, b, id)
    ensures w.events[id].source == b.owner ==> Live(a.world.status[id])
    ensures w.events[id].source != b.owner && OwnerSeen(b, k + 1) ==> a.world.status[id] == SUPERSEDED
  {
    SeenNext(b, k);
    assert Fate(w, b, k, wall, id);
    if w.events[id].source == b.owner && id in Found(w, b.arrivals[k].e, b.arrivals[k].env) {
      assert OwnerSeen(b, k);
    }
  }

  lemma PenFate(w: World, b: Batch, k: nat, wall: int, a: Detection, id: EventId)
    requires k < |b.arrivals| && Acted(w, b, k, wall, a)
    requires id in w.events && id != b.arrivals[k].e.id && Admitted(w, b, id)
    requires Settled(a.world.status[id])
    ensures InPen(a.world.pen, w.events[id], b.windowSeconds)
      || w.events[id].receivedAt + TtlMs(b.windowSeconds) < b.arrivals[k].env.addNow
  {
    assert Fate(w, b, k, wall, id);
    if InPen(w.pen, w.events[id], b.windowSeconds) {
      ArrivalsAreClose(w, b, k, wall, id);
      AdmissionKeepsEntries(w, b.arrivals[k].e, b.arrivals[k].env, a, w.events[id]);
    }
  }

  lemma OlderKeepsFate(w: World, b: Batch, k: nat, wall: int, a: Detection, id: EventId)
    requires k < |b.arrivals| && Acted(w, b, k, wall, a)
    requires id in w.events && id != b.arrivals[k].e.id && Admitted(w, b, id)
    ensures id in a.world.events && id in a.world.status
    ensures Fate(a.world, b, k + 1, b.arrivals[k].env.addNow, id)
  {
    SeenNext(b, k);
    assert Fate(w, b, k, wall, id);
    StatusFate(w, b, k, wall, a, id);
    if Settled(a.world.status[id]) {
      PenFate(w, b, k, wall, a, id);
    }
  }

  lemma OlderWereAdmitted(w: World, b: Batch, e: Event, found: map<EventId, set<FieldPath>>, a: Detection, id: EventId)
    requires WellFormed(w) && AdmissionEffect(w, e, found.Keys, a) && id in w.events && id != e.id
    requires SeesEarlier(w, b, e, found)
    requires Admitted(a.world, b, id)
    ensures Admitted(w, b, id)
  {
  }

  lemma NewIsInPen(w: World, e: Event, env: Env, a: Detection)
    requires Admission(w, e, env, a) && TimelyFor(e, env) && Settled(a.world.status[e.id])
    ensures InPen(a.world.pen, e, env.windowSeconds)
  {
    assert Paths(e) - {} == Paths(e);
  }

  lemma NewStatus(w: World, b: Batch, k: nat, wall: int, a: Detection)
    requires k < |b.arrivals| && Acted(w, b, k, wall, a)
    ensures var e := b.arrivals[k].e;
      && e.id in a.world.events && e.id in a.world.status && a.world.events[e.id] == e
      && (e.source == b.owner ==> Live(a.world.status[e.id]))
      && (e.source != b.owner && OwnerSeen(b, k + 1) ==> a.world.status[e.id] == SUPERSEDED)
  {
    SeenNext(b, k);
  }

  lemma NewFate(w: World, b: Batch, k: nat, wall: int, a: Detection)
    requires k < |b.arrivals| && Acted(w, b, k, wall, a)
    ensures var e := b.arrivals[k].e;
      e.id in a.world.events && e.id in a.world.status && Fate(a.world, b, k + 1, b.arrivals[k].env.addNow, e.id)
  {
    SeenNext(b, k);
    NewStatus(w, b, k, wall, a);
    if Settled(a.world.status[b.arrivals[k].e.id]) {
      NewIsInPen(w, b.arrivals[k].e, b.arrivals[k].env, a);
    }
  }

  lemma EffectKeepsFate(w: World, b: Batch, k: nat, wall: int, a: Detection, id: EventId)
    requires k < |b.arrivals| && Acted(w, b, k, wall, a)
    requires id in w.events && Admitted(a.world, b, id)
    ensures Fate(a.world, b, k + 1, b.arrivals[k].env.addNow, id)
  {
    if id == b.arrivals[k].e.id {
      NewFate(w, b, k, wall, a);
    } else {
      OlderWereAdmitted(w, b, b.arrivals[k].e, Found(w, b.arrivals[k].e, b.arrivals[k].env), a, id);
      OlderKeepsFate(w, b, k, wall, a, id);
    }
  }

  lemma StepKeepsBatchInvariant(w: World, b: Batch, k: nat, wall: int)
    requires k < |b.arrivals| && ReadyFor(w, b, k, wall)
    ensures BatchInvariant(Admit(w, b.arrivals[k].e, b.arrivals[k].env, b.arrivals[k].order).world,
                           b, k + 1, b.arrivals[k].env.addNow)
  {
    var e, env := b.arrivals[k].e, b.arrivals[k].env;
    var a := Admit(w, e, env, b.arrivals[k].order);
    AdmitIsAnAdmission(w, e, env, b.arrivals[k].order);
    BatchSeesItself(w, b, k, wall);
    BatchVerdict(w, b, k, wall);
    KeepsBatchInvariant(w, b, k, wall, a);
  }

  lemma AdmissionKeepsAdmitted(w: World, b: Batch, e: Event, found: set<EventId>, a: Detection, id: EventId)
    requires WellFormed(w) && e.id in w.events && w.events[e.id] == e
    requires AdmissionEffect(w, e, found, a) && a.Detected?
    requires if id == e.id then e.ubid == b.ubid else Admitted(w, b, id)
    ensures Admitted(a.world, b, id)
  {
  }

  lemma ArrivalsStayAdmitted(w: World, b: Batch, k: nat, wall: int, a: Detection, i: nat)
    requires k < |b.arrivals| && Acted(w, b, k, wall, a)
    requires i <= k
    ensures var x := b.arrivals[i].e;
      x.id in a.world.events && a.world.events[x.id] == x && Admitted(a.world, b, x.id)
  {
    if i < k { assert Admitted(w, b, b.arrivals[i].e.id); }
    AdmissionKeepsAdmitted(w, b, b.arrivals[k].e, Found(w, b.arrivals[k].e, b.arrivals[k].env).Keys, a,
                           b.arrivals[i].e.id);
  }

  lemma KeepsBatchInvariant(w: World, b: Batch, k: nat, wall: int, a: Detection)
    requires k < |b.arrivals| && Acted(w, b, k, wall, a)
    ensures BatchInvariant(a.world, b, k + 1, b.arrivals[k].env.addNow)
  {
    AdmissionKeepsPenSound(w, b.arrivals[k].e, b.arrivals[k].env, a);
    forall id | id in a.world.events && Admitted(a.world, b, id)
      ensures Fate(a.world, b, k + 1, b.arrivals[k].env.addNow, id)
    {
      EffectKeepsFate(w, b, k, wall, a, id);
    }
    forall i | 0 <= i < k + 1
      ensures var x := b.arrivals[i].e;
        x.id in a.world.events && a.world.events[x.id] == x && Admitted(a.world, b, x.id)
    {
      ArrivalsStayAdmitted(w, b, k, wall, a, i);
    }
  }

  lemma {:induction false} RunKeepsBatchInvariant(trace: seq<World>, b: Batch, k: nat)
    requires IsRun(trace, b.arrivals) && IsBatch(b) && Untouched(trace[0], b)
    requires 0 < k <= |b.arrivals|
    ensures BatchInvariant(trace[k], b, k, b.arrivals[k - 1].env.addNow)
  {
    assert IsStep(trace[k - 1], b.arrivals[k - 1], trace[k]);
    var wall := if k == 1 then b.arrivals[0].env.checkNow else b.arrivals[k - 2].env.addNow;
    if k == 1 {
    } else {
      RunKeepsBatchInvariant(trace, b, k - 1);
    }
    StepKeepsBatchInvariant(trace[k - 1], b, k - 1, wall);
  }

  /**
   * Order independence: whatever the order of arrival, exactly the owner's events stay unsuperseded.
   * The order of the received-at stamps is not constrained either.
   */
  lemma OnlyTheOwnersEventsSurvive(trace: seq<World>, b: Batch, x: Event)
    requires IsRun(trace, b.arrivals) && IsBatch(b) && Untouched(trace[0], b)
    requires OwnerSeen(b, |b.arrivals|)
    requires Arrived(b, |b.arrivals|, x)
    ensures x.id in trace[|b.arrivals|].status
    ensures trace[|b.arrivals|].status[x.id] == SUPERSEDED <==> x.source != b.owner
    ensures x.source == b.owner ==> Live(trace[|b.arrivals|].status[x.id])
  {
    var n := |b.arrivals|;
    RunKeepsBatchInvariant(trace, b, n);
    assert Fate(trace[n], b, n, b.arrivals[n - 1].env.addNow, x.id);
  }

  function Events(arrivals: seq<Arrival>): (events: seq<Event>)
    ensures |events| == |arrivals|
  {
    seq(|arrivals|, i requires 0 <= i < |arrivals| => arrivals[i].e)
  }

  /** Two processing orders of the same events agree on every one of them. */
  lemma ArrivalOrderDoesNotMatter(left: seq<World>, first: Batch, right: seq<World>, second: Batch, x: Event)
    requires IsRun(left, first.arrivals) && IsBatch(first) && Untouched(left[0], first)
    requires IsRun(right, second.arrivals) && IsBatch(second) && Untouched(right[0], second)
    requires first.owner == second.owner
    requires multiset(Events(first.arrivals)) == multiset(Events(second.arrivals))
    requires OwnerSeen(first, |first.arrivals|)
    requires Arrived(first, |first.arrivals|, x)
    ensures x.id in left[|first.arrivals|].status && x.id in right[|second.arrivals|].status
    ensures left[|first.arrivals|].status[x.id] == SUPERSEDED
      <==> right[|second.arrivals|].status[x.id] == SUPERSEDED
  {
    var a, c := Events(first.arrivals), Events(second.arrivals);
    forall y | Arrived(first, |first.arrivals|, y)
      ensures Arrived(second, |second.arrivals|, y)
    {
      var i :| 0 <= i < |a| && first.arrivals[i].e == y;
      assert a[i] in multiset(a) && y in multiset(c);
      var j :| 0 <= j < |c| && c[j] == y;
      assert second.arrivals[j].e == y;
    }
    var n :| 0 <= n < |a| && first.arrivals[n].e.source == first.owner;
    assert Arrived(second, |second.arrivals|, first.arrivals[n].e);
    OnlyTheOwnersEventsSurvive(left, first, x);
    OnlyTheOwnersEventsSurvive(right, second, x);
  }
}
