/** The holding pen: per (UBID, field path) sorted sets in Redis, pruned lazily and expired by key. */
module HoldingPen {
  import opened Domain

  datatype PenKey = PenKey(ubid: string, path: FieldPath)

  /** A sorted set with its key expiry, in milliseconds. */
  datatype Bucket = Bucket(scores: map<EventId, int>, expiresAt: int)

  type Pen = map<PenKey, Bucket>

  datatype Candidate = Candidate(eventId: EventId, path: FieldPath)

  /** The field paths whose Redis call fails in one operation; the source logs and goes on. */
  datatype Faults = Faults(prune: set<FieldPath>, range: set<FieldPath>, add: set<FieldPath>)

  const NO_FAULTS := Faults({}, {}, {})

  /** The 30 seconds by which a key outlives the conflict window. */
  const GRACE_MS: nat := 30000

  function WindowMs(windowSeconds: nat): nat { windowSeconds * 1000 }

  function TtlMs(windowSeconds: nat): nat { (windowSeconds + 30) * 1000 }

  function WindowStart(windowSeconds: nat, e: Event): int { e.receivedAt - WindowMs(windowSeconds) }

  /** Redis answers from an expired key as from a missing one. */
  function Visible(pen: Pen, key: PenKey, now: int): map<EventId, int> {
    if key in pen && now <= pen[key].expiresAt then pen[key].scores else map[]
  }

  /** zremrangebyscore key -inf (start */
  function Pruned(bucket: Bucket, start: int): Bucket {
    bucket.(scores := map id | id in bucket.scores && start <= bucket.scores[id] :: bucket.scores[id])
  }

  /** zrangebyscore key start +inf, without the event itself. */
  function InRange(scores: map<EventId, int>, start: int, self: EventId): set<EventId> {
    set id | id in scores && start <= scores[id] && id != self
  }

  function PrunedPen(pen: Pen, e: Event, windowSeconds: nat, paths: set<FieldPath>): Pen {
    map key | key in pen ::
      if key.ubid == e.ubid && key.path in paths
      then Pruned(pen[key], WindowStart(windowSeconds, e))
      else pen[key]
  }

  function RawCandidates(pen: Pen, e: Event, windowSeconds: nat, now: int, paths: set<FieldPath>)
    : set<Candidate>
  {
    set path, id | path in paths
      && id in InRange(Visible(pen, PenKey(e.ubid, path), now), WindowStart(windowSeconds, e), e.id)
      :: Candidate(id, path)
  }

  function WithEntry(pen: Pen, key: PenKey, e: Event, windowSeconds: nat, now: int): Pen {
    pen[key := Bucket(Visible(pen, key, now)[e.id := e.receivedAt], now + TtlMs(windowSeconds))]
  }

  function AddedPen(pen: Pen, e: Event, windowSeconds: nat, now: int, paths: set<FieldPath>): Pen {
    map key | key in pen.Keys + (set path | path in paths :: PenKey(e.ubid, path)) ::
      if key.ubid == e.ubid && key.path in paths
      then WithEntry(pen, key, e, windowSeconds, now)[key]
      else pen[key]
  }

  /** checkForConflicts: prune, then read, each field on its own. */
  function CheckForConflicts(pen: Pen, e: Event, windowSeconds: nat, now: int, faults: Faults)
    : (Pen, set<Candidate>)
  {
    (PrunedPen(pen, e, windowSeconds, Paths(e) - faults.prune),
     RawCandidates(pen, e, windowSeconds, now, Paths(e) - faults.range))
  }

  function AddToHoldingPen(pen: Pen, e: Event, windowSeconds: nat, now: int, faults: Faults): Pen {
    AddedPen(pen, e, windowSeconds, now, Paths(e) - faults.add)
  }

  /** Reading from the window start on sees the same before and after pruning. */
  lemma SamePruned(before: Pen, after: Pen, key: PenKey, start: int, now: int, self: EventId)
    requires key in before <==> key in after
    requires key in before ==> after[key] == before[key] || after[key] == Pruned(before[key], start)
    ensures InRange(Visible(after, key, now), start, self) == InRange(Visible(before, key, now), start, self)
  {
  }

  class RedisPen {
    const windowSeconds: nat
    var buckets: Pen

    constructor (windowSeconds: nat)
      ensures this.windowSeconds == windowSeconds && buckets == map[]
    {
      this.windowSeconds := windowSeconds;
      buckets := map[];
    }

    method RemoveExpiredEntries(ubid: string, path: FieldPath, start: int)
      modifies this
      ensures buckets == map key | key in old(buckets) ::
        if key == PenKey(ubid, path) then Pruned(old(buckets)[key], start) else old(buckets)[key]
    {
      var key := PenKey(ubid, path);
      if key in buckets {
        buckets := buckets[key := Pruned(buckets[key], start)];
      }
    }

    /** Prune and read one field; a failing call is skipped. */
    method CheckField(e: Event, path: FieldPath, now: int, faults: Faults) returns (ids: set<EventId>)
      modifies this
      ensures buckets == map key | key in old(buckets) ::
        if key == PenKey(e.ubid, path) && path !in faults.prune
        then Pruned(old(buckets)[key], WindowStart(windowSeconds, e)) else old(buckets)[key]
      ensures ids == if path in faults.range then {}
        else InRange(Visible(old(buckets), PenKey(e.ubid, path), now), WindowStart(windowSeconds, e), e.id)
    {
      var key, start := PenKey(e.ubid, path), WindowStart(windowSeconds, e);
      ghost var before := buckets;
      if path !in faults.prune {
        RemoveExpiredEntries(e.ubid, path, start);
      }
      SamePruned(before, buckets, key, start, now, e.id);
      ids := if path in faults.range then {} else InRange(Visible(buckets, key, now), start, e.id);
    }

    method Check(e: Event, now: int, faults: Faults) returns (candidates: set<Candidate>)
      modifies this
      ensures (buckets, candidates) == CheckForConflicts(old(buckets), e, windowSeconds, now, faults)
    {
      var paths := FieldPathsOf(e.changedFields);
      PathsOfEvent(e);
      ghost var start := WindowStart(windowSeconds, e);
      candidates := {};
      ghost var before := buckets;
      for i := 0 to |paths|
        invariant forall key :: key in before <==> key in buckets
        invariant forall key :: key in before ==>
          buckets[key] ==
            if key.ubid == e.ubid && key.path in paths[..i] && key.path !in faults.prune
            then Pruned(before[key], start) else before[key]
        invariant forall c :: c in candidates <==>
          c.path in paths[..i] && c.path !in faults.range
          && c.eventId in InRange(Visible(before, PenKey(e.ubid, c.path), now), start, e.id)
      {
        var path := paths[i];
        assert path !in paths[..i];
        SamePruned(before, buckets, PenKey(e.ubid, path), start, now, e.id);
        var ids := CheckField(e, path, now, faults);
        candidates := candidates + set id | id in ids :: Candidate(id, path);
        assert paths[..i + 1] == paths[..i] + [path];
      }
      assert paths[..|paths|] == paths;
      assert candidates == RawCandidates(before, e, windowSeconds, now, Paths(e) - faults.range);
      assert buckets == PrunedPen(before, e, windowSeconds, Paths(e) - faults.prune);
    }

    method Add(e: Event, now: int, faults: Faults)
      modifies this
      ensures buckets == AddToHoldingPen(old(buckets), e, windowSeconds, now, faults)
    {
      var paths := FieldPathsOf(e.changedFields);
      PathsOfEvent(e);
      ghost var before := buckets;
      for i := 0 to |paths|
        invariant forall key :: key in buckets <==>
          key in before || (key.ubid == e.ubid && key.path in paths[..i] && key.path !in faults.add)
        invariant forall key :: key in buckets ==>
          buckets[key] ==
            if key.ubid == e.ubid && key.path in paths[..i] && key.path !in faults.add
            then WithEntry(before, key, e, windowSeconds, now)[key] else before[key]
      {
        var path := paths[i];
        assert path !in paths[..i];
        if path !in faults.add {
          buckets := WithEntry(buckets, PenKey(e.ubid, path), e, windowSeconds, now);
        }
        assert paths[..i + 1] == paths[..i] + [path];
      }
      assert paths[..|paths|] == paths;
    }
  }

  // ---- Expiry bound: a pen whose keys expire answers like one whose keys never do ----

  datatype PenOp = Check(e: Event, now: int) | Add(e: Event, now: int)

  /** A pen without expiry: the same commands, but no key is ever treated as missing. */
  function Unexpired(pen: Pen, key: PenKey): map<EventId, int> {
    if key in pen then pen[key].scores else map[]
  }

  function EternalCandidates(pen: Pen, e: Event, windowSeconds: nat): set<Candidate> {
    set path, id | path in Paths(e)
      && id in InRange(Unexpired(pen, PenKey(e.ubid, path)), WindowStart(windowSeconds, e), e.id)
      :: Candidate(id, path)
  }

  function EternalAdd(pen: Pen, e: Event): Pen {
    map key | key in pen.Keys + (set path | path in Paths(e) :: PenKey(e.ubid, path)) ::
      if key.ubid == e.ubid && key.path in Paths(e)
      then Bucket(Unexpired(pen, key)[e.id := e.receivedAt], 0)
      else pen[key]
  }

  function StepPen(pen: Pen, op: PenOp, windowSeconds: nat): Pen {
    match op
    case Check(e, now) => CheckForConflicts(pen, e, windowSeconds, now, NO_FAULTS).0
    case Add(e, now) => AddToHoldingPen(pen, e, windowSeconds, now, NO_FAULTS)
  }

  function StepEternal(pen: Pen, op: PenOp, windowSeconds: nat): Pen {
    match op
    case Check(e, _) => PrunedPen(pen, e, windowSeconds, Paths(e))
    case Add(e, _) => EternalAdd(pen, e)
  }

  function RunPen(pen: Pen, ops: seq<PenOp>, windowSeconds: nat): Pen {
    if ops == [] then pen
    else StepPen(RunPen(pen, ops[..|ops| - 1], windowSeconds), ops[|ops| - 1], windowSeconds)
  }

  function RunEternal(pen: Pen, ops: seq<PenOp>, windowSeconds: nat): Pen {
    if ops == [] then pen
    else StepEternal(RunEternal(pen, ops[..|ops| - 1], windowSeconds), ops[|ops| - 1], windowSeconds)
  }

  /** Wall clocks do not run backwards, nothing is added before it is received, checks lag under 30 s. */
  ghost predicate TimelyOps(ops: seq<PenOp>) {
    && (forall i, j :: 0 <= i < j < |ops| ==> ops[i].now <= ops[j].now)
    && (forall i :: 0 <= i < |ops| && ops[i].Add? ==> ops[i].e.receivedAt <= ops[i].now)
    && (forall i :: 0 <= i < |ops| && ops[i].Check? ==> ops[i].now < ops[i].e.receivedAt + GRACE_MS)
  }

  /** What expiry may have dropped is already out of every window still to be checked. */
  ghost predicate ExpiryBounded(pen: Pen, eternal: Pen, now: int, windowSeconds: nat) {
    && (forall key, id :: key in pen && id in pen[key].scores ==>
      && id in Unexpired(eternal, key)
      && Unexpired(eternal, key)[id] == pen[key].scores[id]
      && pen[key].scores[id] <= now
      && pen[key].scores[id] + TtlMs(windowSeconds) <= pen[key].expiresAt)
    && (forall key, id :: key in eternal && id in eternal[key].scores ==>
      || (key in pen && id in pen[key].scores)
      || eternal[key].scores[id] + TtlMs(windowSeconds) < now)
  }

  lemma TimelyPrefix(ops: seq<PenOp>)
    requires ops != [] && TimelyOps(ops)
    ensures TimelyOps(ops[..|ops| - 1])
    ensures |ops| > 1 ==> ops[|ops| - 2].now <= ops[|ops| - 1].now
  {
  }

  lemma StepKeepsBound(pen: Pen, eternal: Pen, op: PenOp, windowSeconds: nat)
    requires ExpiryBounded(pen, eternal, op.now, windowSeconds)
    requires op.Add? ==> op.e.receivedAt <= op.now
    ensures ExpiryBounded(StepPen(pen, op, windowSeconds), StepEternal(eternal, op, windowSeconds),
                          op.now, windowSeconds)
  {
    assert Paths(op.e) - {} == Paths(op.e);
    match op
    case Check(e, now) => CheckKeepsBound(pen, eternal, e, now, windowSeconds);
    case Add(e, now) => AddKeepsBound(pen, eternal, e, now, windowSeconds);
  }

  lemma {:induction false} ExpiryStaysBounded(ops: seq<PenOp>, now: int, windowSeconds: nat)
    requires TimelyOps(ops)
    requires ops != [] ==> ops[|ops| - 1].now <= now
    ensures ExpiryBounded(RunPen(map[], ops, windowSeconds), RunEternal(map[], ops, windowSeconds),
                          now, windowSeconds)
  {
    if ops == [] {
    } else {
      var front, op := ops[..|ops| - 1], ops[|ops| - 1];
      TimelyPrefix(ops);
      ExpiryStaysBounded(front, op.now, windowSeconds);
      StepKeepsBound(RunPen(map[], front, windowSeconds), RunEternal(map[], front, windowSeconds),
                     op, windowSeconds);
    }
  }

  lemma CheckKeepsBound(pen: Pen, eternal: Pen, e: Event, now: int, windowSeconds: nat)
    requires ExpiryBounded(pen, eternal, now, windowSeconds)
    ensures ExpiryBounded(PrunedPen(pen, e, windowSeconds, Paths(e)),
                          PrunedPen(eternal, e, windowSeconds, Paths(e)), now, windowSeconds)
  {
  }

  lemma AddKeepsBound(pen: Pen, eternal: Pen, e: Event, now: int, windowSeconds: nat)
    requires ExpiryBounded(pen, eternal, now, windowSeconds)
    requires e.receivedAt <= now
    ensures ExpiryBounded(AddedPen(pen, e, windowSeconds, now, Paths(e)),
                          EternalAdd(eternal, e), now, windowSeconds)
  {
    var pen', eternal' := AddedPen(pen, e, windowSeconds, now, Paths(e)), EternalAdd(eternal, e);
    forall key, id | key in pen' && id in pen'[key].scores
      ensures id in Unexpired(eternal', key) && Unexpired(eternal', key)[id] == pen'[key].scores[id]
      ensures pen'[key].scores[id] <= now
      ensures pen'[key].scores[id] + TtlMs(windowSeconds) <= pen'[key].expiresAt
    {
      if key.ubid == e.ubid && key.path in Paths(e) {
        assert pen'[key] == WithEntry(pen, key, e, windowSeconds, now)[key];
        if id != e.id {
          assert key in pen && id in pen[key].scores;
        }
      } else {
        assert key in pen && pen'[key] == pen[key];
      }
    }
    forall key, id | key in eternal' && id in eternal'[key].scores
      ensures (key in pen' && id in pen'[key].scores) || eternal'[key].scores[id] + TtlMs(windowSeconds) < now
    {
      if key.ubid == e.ubid && key.path in Paths(e) {
        assert pen'[key] == WithEntry(pen, key, e, windowSeconds, now)[key];
        if id != e.id {
          assert key in eternal && id in eternal[key].scores;
        }
      } else {
        assert key in eternal && eternal'[key] == eternal[key];
      }
    }
  }

  /**
   * With the key TTL at window + 30 s, key expiry never hides an entry inside the conflict window:
   * after any timely run, a timely check reads exactly what it would read if keys never expired.
   */
  lemma ExpiryIsInvisible(ops: seq<PenOp>, e: Event, now: int, windowSeconds: nat)
    requires TimelyOps(ops + [Check(e, now)])
    ensures RawCandidates(RunPen(map[], ops, windowSeconds), e, windowSeconds, now, Paths(e))
      == EternalCandidates(RunEternal(map[], ops, windowSeconds), e, windowSeconds)
  {
    var all := ops + [Check(e, now)];
    assert all[..|all| - 1] == ops;
    TimelyPrefix(all);
    ExpiryStaysBounded(ops, now, windowSeconds);
    assert all[|ops|].now < e.receivedAt + GRACE_MS;
    assert WindowStart(windowSeconds, e) + TtlMs(windowSeconds) == e.receivedAt + GRACE_MS;
  }

  /** The bound is tight: a check 30 s and a millisecond late misses an entry still in its window. */
  lemma LateCheckMissesAnEntry()
    ensures exists x: Event, e: Event, now ::
      && now == e.receivedAt + 30001
      && x.receivedAt == e.receivedAt - 10000
      && var pen := AddToHoldingPen(map[], x, 10, x.receivedAt, NO_FAULTS);
         RawCandidates(pen, e, 10, now, Paths(e)) == {}
         && Candidate(x.id, BusinessNamePath) in EternalCandidates(EternalAdd(map[], x), e, 10)
  {
    var x := Event(1, "", SWS, None, "U", EMPLOYEE_COUNT_CHANGE, [BusinessName], "", 0);
    var e := x.(id := 2, source := EKARMIKA, receivedAt := 10000);
    var pen := AddToHoldingPen(map[], x, 10, x.receivedAt, NO_FAULTS);
    assert x.changedFields[0] == BusinessName == e.changedFields[0];
    assert PathOf(x.changedFields[0]) in Paths(x) && PathOf(e.changedFields[0]) in Paths(e);
    assert forall path :: path in Paths(x) ==> path == BusinessNamePath;
    assert forall path :: path in Paths(e) ==> path == BusinessNamePath;
    var key := PenKey("U", BusinessNamePath);
    assert 1 in Unexpired(EternalAdd(map[], x), key);
    assert WindowStart(10, e) == x.receivedAt;
    assert RawCandidates(pen, e, 10, 40001, Paths(e)) == {};
  }

  // ---- Pruning ----

  /** After a check, the sets of the event's paths hold exactly what lies inside its window, to the millisecond. */
  lemma PruningIsExact(pen: Pen, e: Event, windowSeconds: nat, now: int, key: PenKey, id: EventId)
    ensures var after := CheckForConflicts(pen, e, windowSeconds, now, NO_FAULTS).0;
      key in after && id in after[key].scores <==>
        && key in pen && id in pen[key].scores
        && (key.ubid == e.ubid && key.path in Paths(e) ==> pen[key].scores[id] >= e.receivedAt - 1000 * windowSeconds)
    ensures var after := CheckForConflicts(pen, e, windowSeconds, now, NO_FAULTS).0;
      after.Keys == pen.Keys && forall k :: k in pen ==> after[k].expiresAt == pen[k].expiresAt
  {
    assert Paths(e) - {} == Paths(e);
  }

  /** A check finds exactly the other entries of the event's paths that lie inside its window and have not expired. */
  lemma ReadingIsExact(pen: Pen, e: Event, windowSeconds: nat, now: int, c: Candidate)
    ensures c in CheckForConflicts(pen, e, windowSeconds, now, NO_FAULTS).1 <==>
      var key := PenKey(e.ubid, c.path);
      && c.path in Paths(e) && key in pen && now <= pen[key].expiresAt
      && c.eventId in pen[key].scores && pen[key].scores[c.eventId] >= e.receivedAt - 1000 * windowSeconds
      && c.eventId != e.id
  {
    assert Paths(e) - {} == Paths(e);
  }

  /** Adding stores the event's receivedAt under each of its paths, for the window and 30 seconds more. */
  lemma AddingIsExact(pen: Pen, e: Event, windowSeconds: nat, now: int, key: PenKey)
    ensures var after := AddToHoldingPen(pen, e, windowSeconds, now, NO_FAULTS);
      if key.ubid == e.ubid && key.path in Paths(e) then
        && key in after && e.id in after[key].scores && after[key].scores[e.id] == e.receivedAt
        && after[key].expiresAt == now + 1000 * windowSeconds + 30000
        && forall id :: id != e.id ==>
          (id in after[key].scores <==> key in pen && now <= pen[key].expiresAt && id in pen[key].scores)
      else (key in after <==> key in pen) && (key in pen ==> after[key] == pen[key])
  {
    assert Paths(e) - {} == Paths(e);
  }
}
