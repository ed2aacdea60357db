/** The cache refines the table: for which requests, over every run of checks and saves. */
module CacheRefinement {
  import opened Domain
  import opened IdempotencyKeys
  import opened Idempotency

  /** A version of checkAndStore that only reads the table. */
  function TableVerdict(table: seq<Row>, keys: Keys, eventId: EventId): (bool, EventId) {
    match Find(table, keys)
    case Some(row) => (true, row.eventId)
    case None => (false, eventId)
  }

  predicate Agrees(st: Store, keys: Keys, eventId: EventId, status: EventStatus, io: CacheIo) {
    var result := CheckAndStore(st, keys, eventId, status, io).1;
    (result.duplicate, result.existingEventId) == TableVerdict(st.table, keys, eventId)
  }

  // ---- Runs ----

  datatype Op =
    | Check(keys: Keys, eventId: EventId, status: EventStatus, io: CacheIo)
    | Save(key: string, answer: Answer, io: CacheIo)

  function Step(st: Store, op: Op): Store {
    match op
    case Check(keys, eventId, status, io) => CheckAndStore(st, keys, eventId, status, io).0
    case Save(key, answer, io) => SaveResponse(st, key, answer, io)
  }

  function Run(ops: seq<Op>): Store {
    if ops == [] then Store([], map[]) else Step(Run(ops[..|ops| - 1]), ops[|ops| - 1])
  }

  ghost predicate Uses(ops: seq<Op>, universe: set<Keys>) {
    forall op :: op in ops && op.Check? ==> op.keys in universe
  }

  /**
   * After any run of checks and saves in any interleaving, with a cache that may forget entries and miss
   * reads and writes at any time, the verdict is the one the table gives.
   */
  ghost predicate Refines(universe: set<Keys>) {
    forall ops, keys, eventId, status, io :: Uses(ops, universe) && keys in universe ==>
      Agrees(Run(ops), keys, eventId, status, io)
  }

  /** Whoever shares a Redis key with a duplicate of a request is a duplicate of it too. */
  ghost predicate Closed(universe: set<Keys>) {
    forall a, b, c :: a in universe && b in universe && c in universe ==> Chained(a, b, c)
  }

  predicate Chained(a: Keys, b: Keys, c: Keys) { Overlap(a, b) && Share(b, c) ==> Overlap(a, c) }

  lemma OverlapMeansShare(a: Keys, b: Keys)
    requires Overlap(a, b)
    ensures Overlap(b, a) && Share(a, b)
  {
    var key := if a.fallback == b.fallback then a.fallback else a.primary.value;
    assert key in KeyStrings(a) && key in KeyStrings(b);
  }

  lemma ClosedAt(universe: set<Keys>, a: Keys, b: Keys, c: Keys)
    requires Closed(universe) && a in universe && b in universe && c in universe
    requires Overlap(a, b) && Share(b, c)
    ensures Overlap(a, c)
  {
    assert Chained(a, b, c);
  }

  // ---- What every run keeps ----

  /** The rows are requests of the universe without a key in common. */
  ghost predicate TableSound(table: seq<Row>, universe: set<Keys>) {
    && (forall i :: 0 <= i < |table| ==> RowKeys(table[i]) in universe)
    && (forall i, j :: 0 <= i < j < |table| ==> !Overlap(RowKeys(table[i]), RowKeys(table[j])))
  }

  /** A copy of a row may be out of date in its answer and status only. */
  predicate CopyOf(row: Row, payload: Payload) {
    payload == row.(cached := payload.cached, status := payload.status)
  }

  /** The copy under a Redis key is of a row that some request with this key overlaps. */
  predicate Backs(row: Row, u: Keys, key: string, payload: Payload) {
    key in KeyStrings(u) && Overlap(RowKeys(row), u) && CopyOf(row, payload)
  }

  ghost predicate Backed(table: seq<Row>, universe: set<Keys>, key: string, payload: Payload) {
    exists i, u :: 0 <= i < |table| && u in universe && Backs(table[i], u, key, payload)
  }

  ghost predicate Sound(st: Store, universe: set<Keys>) {
    && TableSound(st.table, universe)
    && forall key :: key in st.cache ==> Backed(st.table, universe, key, st.cache[key])
  }

  /** The row with which a request overlaps is the one that the lookup finds. */
  lemma OneRowPerKeys(table: seq<Row>, universe: set<Keys>, keys: Keys, i: nat)
    requires Closed(universe) && TableSound(table, universe) && keys in universe
    requires i < |table| && Overlap(RowKeys(table[i]), keys)
    ensures Find(table, keys) == Some(table[i])
  {
    assert table[i] in table && Matches(table[i], keys);
    var row := Find(table, keys).value;
    var j :| 0 <= j < |table| && table[j] == row;
    OverlapMeansShare(RowKeys(table[i]), keys);
    OverlapMeansShare(RowKeys(row), keys);
    ClosedAt(universe, RowKeys(row), keys, RowKeys(table[i]));
    OverlapMeansShare(RowKeys(row), RowKeys(table[i]));
  }

  lemma BackedByTheFoundRow(table: seq<Row>, universe: set<Keys>, keys: Keys, key: string, payload: Payload)
    requires Closed(universe) && TableSound(table, universe) && keys in universe
    requires Backed(table, universe, key, payload) && key in KeyStrings(keys)
    ensures Find(table, keys).Some? && CopyOf(Find(table, keys).value, payload)
  {
    var i, u :| 0 <= i < |table| && u in universe && Backs(table[i], u, key, payload);
    assert Share(u, keys);
    ClosedAt(universe, RowKeys(table[i]), u, keys);
    OneRowPerKeys(table, universe, keys, i);
  }

  lemma HitIsACopyOfTheRow(st: Store, universe: set<Keys>, keys: Keys, io: CacheIo)
    requires Closed(universe) && Sound(st, universe) && keys in universe
    requires RedisDuplicate(Forget(st.cache, io), keys, io).Some?
    ensures Find(st.table, keys).Some?
    ensures CopyOf(Find(st.table, keys).value, RedisDuplicate(Forget(st.cache, io), keys, io).value)
  {
    var cache := Forget(st.cache, io);
    var key := if keys.primary.Some? && keys.primary.value in cache then keys.primary.value else keys.fallback;
    BackedByTheFoundRow(st.table, universe, keys, key, cache[key]);
  }

  /** One call: the cached verdict is the table's verdict, and so is its effect on the table. */
  lemma CheckRefinesTable(
    st: Store, universe: set<Keys>, keys: Keys, eventId: EventId, status: EventStatus, io: CacheIo)
    requires Closed(universe) && Sound(st, universe) && keys in universe
    ensures Agrees(st, keys, eventId, status, io)
    ensures CheckAndStore(st, keys, eventId, status, io).0.table == st.table +
      if Find(st.table, keys).Some? then [] else [Row(keys.primary, keys.fallback, eventId, None, status)]
  {
    if RedisDuplicate(Forget(st.cache, io), keys, io).Some? {
      HitIsACopyOfTheRow(st, universe, keys, io);
    }
  }

  lemma SettingKeepsSound(
    table: seq<Row>, cache: map<string, Payload>, universe: set<Keys>, keys: Keys, i: nat,
    payload: Payload, io: CacheIo)
    requires Sound(Store(table, cache), universe) && keys in universe
    requires i < |table| && Overlap(RowKeys(table[i]), keys) && CopyOf(table[i], payload)
    ensures Sound(Store(table, SetPayload(cache, keys, payload, io)), universe)
  {
    var cache' := SetPayload(cache, keys, payload, io);
    forall key | key in cache' ensures Backed(table, universe, key, cache'[key]) {
      if key in cache && cache'[key] == cache[key] {
        assert Backed(table, universe, key, cache[key]);
      } else {
        assert Backs(table[i], keys, key, payload);
      }
    }
  }

  lemma AppendingKeepsSound(st: Store, universe: set<Keys>, row: Row)
    requires Sound(st, universe) && RowKeys(row) in universe && Find(st.table, RowKeys(row)).None?
    ensures Sound(Store(st.table + [row], st.cache), universe)
  {
    var table' := st.table + [row];
    forall i | 0 <= i < |st.table| ensures !Overlap(RowKeys(table'[i]), RowKeys(row)) {
      assert st.table[i] in st.table;
    }
    forall key | key in st.cache ensures Backed(table', universe, key, st.cache[key]) {
      assert Backed(st.table, universe, key, st.cache[key]);
      var i, u :| 0 <= i < |st.table| && u in universe && Backs(st.table[i], u, key, st.cache[key]);
      assert Backs(table'[i], u, key, st.cache[key]);
    }
  }

  lemma CheckKeepsSound(
    st: Store, universe: set<Keys>, keys: Keys, eventId: EventId, status: EventStatus, io: CacheIo)
    requires Sound(st, universe) && keys in universe
    ensures Sound(CheckAndStore(st, keys, eventId, status, io).0, universe)
  {
    var cache := Forget(st.cache, io);
    assert Sound(Store(st.table, cache), universe);
    if RedisDuplicate(cache, keys, io).None? {
      var found := Find(st.table, keys);
      if found.Some? {
        var i :| 0 <= i < |st.table| && st.table[i] == found.value;
        SettingKeepsSound(st.table, cache, universe, keys, i, found.value, io);
      } else {
        var row := Row(keys.primary, keys.fallback, eventId, None, status);
        AppendingKeepsSound(Store(st.table, cache), universe, row);
        SettingKeepsSound(st.table + [row], cache, universe, keys, |st.table|, row, io);
      }
    }
  }

  function WithAnswer(row: Row, answer: Answer): Row { row.(cached := Some(answer), status := answer.status) }

  /** updateMany touches the one row it was asked for. */
  lemma AnsweredOneRow(table: seq<Row>, universe: set<Keys>, i: nat, answer: Answer)
    requires TableSound(table, universe) && i < |table|
    ensures Answered(table, table[i], answer) == table[i := WithAnswer(table[i], answer)]
    ensures TableSound(Answered(table, table[i], answer), universe)
  {
    forall j | 0 <= j < |table| && j != i ensures !Matches(table[j], RowKeys(table[i])) {
      if Overlap(RowKeys(table[j]), RowKeys(table[i])) { OverlapMeansShare(RowKeys(table[j]), RowKeys(table[i])); }
    }
  }

  lemma AnsweringKeepsSound(st: Store, universe: set<Keys>, i: nat, answer: Answer)
    requires Sound(st, universe) && i < |st.table|
    ensures Sound(Store(Answered(st.table, st.table[i], answer), st.cache), universe)
  {
    AnsweredOneRow(st.table, universe, i, answer);
    var table' := Answered(st.table, st.table[i], answer);
    forall key | key in st.cache ensures Backed(table', universe, key, st.cache[key]) {
      assert Backed(st.table, universe, key, st.cache[key]);
      var j, u :| 0 <= j < |st.table| && u in universe && Backs(st.table[j], u, key, st.cache[key]);
      assert Backs(table'[j], u, key, st.cache[key]);
    }
  }

  lemma SaveKeepsSound(st: Store, universe: set<Keys>, key: string, answer: Answer, io: CacheIo)
    requires Sound(st, universe)
    ensures Sound(SaveResponse(st, key, answer, io), universe)
  {
    var cache := Forget(st.cache, io);
    var found := Find(st.table, Keys(Some(key), key));
    assert Sound(Store(st.table, cache), universe);
    if found.Some? {
      var i :| 0 <= i < |st.table| && st.table[i] == found.value;
      AnsweringKeepsSound(Store(st.table, cache), universe, i, answer);
      AnsweredOneRow(st.table, universe, i, answer);
      SettingKeepsSound(Answered(st.table, found.value, answer), cache, universe,
                        RowKeys(found.value), i, WithAnswer(found.value, answer), io);
    }
  }

  lemma {:induction false} RunIsSound(ops: seq<Op>, universe: set<Keys>)
    requires Uses(ops, universe)
    ensures Sound(Run(ops), universe)
  {
    if ops == [] {
    } else {
      var front, op := ops[..|ops| - 1], ops[|ops| - 1];
      assert op in ops;
      RunIsSound(front, universe);
      match op
      case Check(keys, eventId, status, io) => CheckKeepsSound(Run(front), universe, keys, eventId, status, io);
      case Save(key, answer, io) => SaveKeepsSound(Run(front), universe, key, answer, io);
    }
  }

  lemma ClosedUniversesRefine(universe: set<Keys>)
    requires Closed(universe)
    ensures Refines(universe)
  {
    forall ops, keys, eventId, status, io | Uses(ops, universe) && keys in universe
      ensures Agrees(Run(ops), keys, eventId, status, io)
    {
      RunIsSound(ops, universe);
      CheckRefinesTable(Run(ops), universe, keys, eventId, status, io);
    }
  }

  // ---- And only closed universes do ----

  /** The run that breaks it: a is stored, b is its duplicate and cached under its own keys. */
  function BreakingRun(a: Keys, b: Keys): seq<Op> {
    [Check(a, 1, RECEIVED, RELIABLE), Check(b, 2, RECEIVED, CacheIo(KeyStrings(a), true, true))]
  }

  lemma BreakingRunState(a: Keys, b: Keys)
    requires Overlap(a, b)
    ensures var row := Row(a.primary, a.fallback, 1, None, RECEIVED);
      && Run(BreakingRun(a, b)).table == [row]
      && forall key :: key in KeyStrings(b) ==>
        key in Run(BreakingRun(a, b)).cache && Run(BreakingRun(a, b)).cache[key] == row
  {
    var ops := BreakingRun(a, b);
    var row := Row(a.primary, a.fallback, 1, None, RECEIVED);
    var one := [ops[0]];
    assert ops[..|ops| - 1] == one && one[..|one| - 1] == [];
    var first := Run(one);
    assert Run([]) == Store([], map[]);
    assert first == Step(Store([], map[]), ops[0]);
    assert first.table == [row];
    var cache := Forget(first.cache, ops[1].io);
    assert cache == map[];
    assert Matches(row, b);
    assert Run(ops) == Step(first, ops[1]);
    assert Find([row], b) == Some(row);
  }

  lemma BreakingRunDisagrees(a: Keys, b: Keys, c: Keys)
    requires !Chained(a, b, c)
    ensures !Agrees(Run(BreakingRun(a, b)), c, 3, RECEIVED, RELIABLE)
  {
    BreakingRunState(a, b);
    var st := Run(BreakingRun(a, b));
    var key :| key in KeyStrings(b) && key in KeyStrings(c);
    assert Forget(st.cache, RELIABLE) == st.cache;
    assert RedisDuplicate(st.cache, c, RELIABLE).Some?;
    assert !Matches(st.table[0], c);
    assert Find(st.table, c).None?;
  }

  /**
   * Cache refines table, exactly: over all runs of requests from a universe the cached verdict is the
   * table's verdict if and only if the universe is closed.
   */
  lemma CacheRefinesTable(universe: set<Keys>)
    ensures Refines(universe) <==> Closed(universe)
  {
    if Closed(universe) {
      ClosedUniversesRefine(universe);
    } else {
      var a, b, c :| a in universe && b in universe && c in universe && !Chained(a, b, c);
      BreakingRunDisagrees(a, b, c);
      assert Uses(BreakingRun(a, b), universe);
    }
  }

  // ---- Universes of requests ----

  /** A request id is never reused with another fallback key, and the two key spaces stay apart. */
  ghost predicate Consistent(universe: set<Keys>) {
    forall a, b :: a in universe && b in universe ==> NoReuse(a, b)
  }

  predicate NoReuse(a: Keys, b: Keys) {
    && (a.primary.Some? && a.primary == b.primary ==> a.fallback == b.fallback)
    && a.primary != Some(b.fallback)
  }

  lemma ConsistentUniversesAreClosed(universe: set<Keys>)
    requires Consistent(universe)
    ensures Closed(universe)
  {
    forall a, b, c | a in universe && b in universe && c in universe ensures Chained(a, b, c) {
      assert NoReuse(a, b) && NoReuse(b, c) && NoReuse(c, b);
    }
  }

  predicate HasRequestId(e: Event) { e.requestId.Some? && e.requestId.value != "" }

  predicate SameRequestId(a: Event, b: Event) {
    HasRequestId(a) && a.requestId == b.requestId && a.source == b.source
  }

  function KeysOf(events: set<Event>): set<Keys> { set e | e in events :: BuildKeys(e) }

  /** Requests whose ids hold no colon and are never reused with other content form such a universe. */
  lemma RequestsAreConsistent(events: set<Event>)
    requires forall e :: e in events && HasRequestId(e) ==> ':' !in e.requestId.value
    requires forall a, b :: a in events && b in events && SameRequestId(a, b) ==>
      BuildKeys(a).fallback == BuildKeys(b).fallback
    ensures Consistent(KeysOf(events))
  {
    forall a, b | a in events && b in events ensures NoReuse(BuildKeys(a), BuildKeys(b)) {
      PairIsConsistent(a, b);
    }
  }

  lemma PairIsConsistent(a: Event, b: Event)
    requires HasRequestId(a) ==> ':' !in a.requestId.value
    requires SameRequestId(a, b) ==> BuildKeys(a).fallback == BuildKeys(b).fallback
    ensures NoReuse(BuildKeys(a), BuildKeys(b))
  {
    if BuildKeys(a).primary.Some? {
      ColonFreeIdsStayApart(a.source, a.requestId.value, b);
      if BuildKeys(b).primary.Some? {
        PrimaryKeyIsInjective(a.source, a.requestId.value, b.source, b.requestId.value);
      }
    }
  }

  /** A request that the ingest schema accepts, as far as its keys go. */
  ghost predicate Receivable(e: Event) {
    && (e.source == SWS ==> HasRequestId(e))
    && |e.ubid| == 17 && e.ubid[..8] == "UBID-KA-" && e.ubid[12] == '-'
    && (forall i :: 8 <= i < 17 && i != 12 ==> '0' <= e.ubid[i] <= '9')
    && e.changedFields != [] && Distinct(e.changedFields)
  }

  function Sample(requestId: string, hash: string): Event {
    Event(0, "", SWS, Some(requestId), "UBID-KA-2026-0001", REGISTERED_ADDRESS_CHANGE, [RegisteredAddress], hash, 0)
  }

  lemma SampleIsReceivable(requestId: string, hash: string)
    requires requestId != ""
    ensures Receivable(Sample(requestId, hash))
  {
  }

  lemma SampleKeysOverlap(r: string, h: string, s: string, k: string)
    requires r != "" && s != "" && ':' !in r && ':' !in s
    ensures var a, b := BuildKeys(Sample(r, h)), BuildKeys(Sample(s, k));
      (Overlap(a, b) <==> r == s || h == k) && (Share(a, b) <==> r == s || h == k)
  {
    var x, y := Sample(r, h), Sample(s, k);
    var a, b := BuildKeys(x), BuildKeys(y);
    assert ':' !in x.ubid;
    PrimaryKeyIsInjective(SWS, r, SWS, s);
    FallbackKeyIsInjective(SWS, x.ubid, x.serviceType, h, SWS, y.ubid, y.serviceType, k);
    ColonFreeIdsStayApart(SWS, r, y);
    ColonFreeIdsStayApart(SWS, s, x);
    if Overlap(a, b) { OverlapMeansShare(a, b); }
  }

  /**
   * A request id reused with other content breaks the refinement as soon as a third request has that
   * content under an id of its own; the two alone do no harm.
   */
  lemma ReusedRequestIdBreaksTheRefinement(r: string, h: string, k: string, other: string)
    requires r != "" && other != "" && ':' !in r && ':' !in other && r != other && h != k
    ensures var a, b, c := Sample(r, h), Sample(r, k), Sample(other, k);
      && Receivable(a) && Receivable(b) && Receivable(c) && SameRequestId(a, b)
      && !Refines(KeysOf({a, b, c})) && Refines(KeysOf({a, b}))
  {
    var a, b, c := Sample(r, h), Sample(r, k), Sample(other, k);
    SampleIsReceivable(r, h);
    SampleIsReceivable(r, k);
    SampleIsReceivable(other, k);
    SamplesAreUnchained(r, h, k, other);
    UnchainedBreaks({a, b, c}, a, b, c);
    PairRefines(a, b);
  }

  lemma SamplesAreUnchained(r: string, h: string, k: string, other: string)
    requires r != "" && other != "" && ':' !in r && ':' !in other && r != other && h != k
    ensures var a, b, c := BuildKeys(Sample(r, h)), BuildKeys(Sample(r, k)), BuildKeys(Sample(other, k));
      Overlap(a, b) && Overlap(b, a) && !Chained(a, b, c)
  {
    SampleKeysOverlap(r, h, r, k);
    SampleKeysOverlap(r, k, r, h);
    SampleKeysOverlap(r, k, other, k);
    SampleKeysOverlap(r, h, other, k);
  }

  lemma UnchainedBreaks(events: set<Event>, a: Event, b: Event, c: Event)
    requires a in events && b in events && c in events
    requires !Chained(BuildKeys(a), BuildKeys(b), BuildKeys(c))
    ensures !Refines(KeysOf(events))
  {
    CacheRefinesTable(KeysOf(events));
    assert BuildKeys(a) in KeysOf(events) && BuildKeys(b) in KeysOf(events) && BuildKeys(c) in KeysOf(events);
  }

  lemma PairRefines(a: Event, b: Event)
    requires Overlap(BuildKeys(a), BuildKeys(b)) && Overlap(BuildKeys(b), BuildKeys(a))
    ensures Refines(KeysOf({a, b}))
  {
    forall x, y | x in KeysOf({a, b}) && y in KeysOf({a, b}) ensures Overlap(x, y) {
    }
    CacheRefinesTable(KeysOf({a, b}));
  }
}
