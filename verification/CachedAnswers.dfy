/** Whole submissions, one after the other: when the cache holds the answer, and what it holds otherwise. */
module CachedAnswers {
  import opened Domain
  import opened IdempotencyKeys
  import opened Idempotency
  import opened CacheRefinement

  /** Every cached copy is up to date, answer included. */
  ghost predicate Exact(st: Store) {
    forall key :: key in st.cache ==> st.cache[key] in st.table
  }

  /** The copies of one row: up to date if exact, and otherwise at worst without the answer. */
  predicate GoodCopy(row: Row, payload: Payload, exact: bool) {
    payload.fallback == row.fallback ==>
      (exact ==> payload == row) && payload.cached in {None, row.cached}
  }

  ghost predicate GoodCopies(st: Store, row: Row, exact: bool) {
    row in st.table && forall key :: key in st.cache ==> GoodCopy(row, st.cache[key], exact)
  }

  // ---- One accepted, answered submission ----

  /** A row is found again under each of its own key strings. */
  lemma FoundByString(table: seq<Row>, universe: set<Keys>, i: nat, key: string)
    requires Closed(universe) && TableSound(table, universe)
    requires i < |table| && key in KeyStrings(RowKeys(table[i]))
    ensures Find(table, Keys(Some(key), key)) == Some(table[i])
  {
    var wanted := Keys(Some(key), key);
    assert table[i] in table && Matches(table[i], wanted);
    var row := Find(table, wanted).value;
    var j :| 0 <= j < |table| && table[j] == row;
    assert key in KeyStrings(RowKeys(row));
    assert Share(RowKeys(row), RowKeys(table[i]));
    ClosedAt(universe, RowKeys(row), RowKeys(row), RowKeys(table[i]));
    OverlapMeansShare(RowKeys(row), RowKeys(table[i]));
  }

  lemma SavedUnderOneKey(
    table: seq<Row>, cache: map<string, Payload>, universe: set<Keys>, row: Row, key: string,
    answer: Answer, io: CacheIo)
    requires Closed(universe) && TableSound(table + [row], universe) && key in KeyStrings(RowKeys(row))
    ensures SaveResponse(Store(table + [row], cache), key, answer, io)
      == Store(table + [WithAnswer(row, answer)],
               SetPayload(Forget(cache, io), RowKeys(row), WithAnswer(row, answer), io))
  {
    var all := table + [row];
    assert all[|table|] == row;
    FoundByString(all, universe, |table|, key);
    AnsweredOneRow(all, universe, |table|, answer);
    assert all[|table| := WithAnswer(row, answer)] == table + [WithAnswer(row, answer)];
  }

  lemma SameKeysStaySound(table: seq<Row>, universe: set<Keys>, row: Row, row': Row)
    requires TableSound(table + [row], universe) && RowKeys(row') == RowKeys(row)
    ensures TableSound(table + [row'], universe)
  {
    var before, after := table + [row], table + [row'];
    forall i | 0 <= i < |after| ensures RowKeys(after[i]) == RowKeys(before[i]) {}
  }

  /** What saving under both keys leaves in the table and under each Redis key. */
  lemma SavedUnderKeys(
    table: seq<Row>, cache: map<string, Payload>, universe: set<Keys>, bare: Row, answer: Answer, io: CacheIo)
    requires Closed(universe) && TableSound(table + [bare], universe)
    ensures var saved := SaveUnderKeys(Store(table + [bare], cache), RowKeys(bare), answer, io);
      && saved.table == table + [WithAnswer(bare, answer)]
      && forall key :: EntryAfterSave(cache, saved.cache, RowKeys(bare), WithAnswer(bare, answer), io, key)
  {
    var row, keys := WithAnswer(bare, answer), RowKeys(bare);
    if bare.primary.Some? {
      SavedUnderOneKey(table, cache, universe, bare, bare.primary.value, answer, io);
      SameKeysStaySound(table, universe, bare, row);
      var cache' := SetPayload(Forget(cache, io), keys, row, io);
      SavedUnderOneKey(table, cache', universe, row, bare.fallback, answer, io);
    } else {
      SavedUnderOneKey(table, cache, universe, bare, bare.fallback, answer, io);
    }
  }

  predicate EntryAfterSave(
    before: map<string, Payload>, after: map<string, Payload>, keys: Keys, row: Row, io: CacheIo, key: string)
  {
    if io.writable && key in KeyStrings(keys) then key in after && after[key] == row
    else if key in before && key !in io.forgotten then key in after && after[key] == before[key]
    else key !in after
  }

  /** Nothing is cached yet under the keys of a request that the table does not know. */
  lemma NoCopyOfTheUnknown(st: Store, universe: set<Keys>, keys: Keys, key: string)
    requires Closed(universe) && Sound(st, universe) && keys in universe
    requires Find(st.table, keys).None? && key in KeyStrings(keys)
    ensures key !in st.cache
  {
    if key in st.cache { BackedByTheFoundRow(st.table, universe, keys, key, st.cache[key]); }
  }

  /** The save overwrites or outlives the copy that the check has cached. */
  predicate SaveReaches(keys: Keys, io: CacheIo, saveIo: CacheIo) {
    saveIo.writable || !io.writable || KeyStrings(keys) <= saveIo.forgotten
  }

  /** The entry under one Redis key after an accepted, answered submission. */
  predicate EntryAfterSubmit(
    before: map<string, Payload>, after: map<string, Payload>, bare: Row, row: Row, io: CacheIo, saveIo: CacheIo,
    key: string)
  {
    if key in KeyStrings(RowKeys(bare)) then
      if saveIo.writable then key in after && after[key] == row
      else if io.writable && key !in saveIo.forgotten then key in after && after[key] == bare
      else key !in after
    else key in after ==> key in before && after[key] == before[key]
  }

  function BareRow(keys: Keys, eventId: EventId): Row { Row(keys.primary, keys.fallback, eventId, None, RECEIVED) }

  /** The cache after the check of an unknown request. */
  lemma CheckedUnknown(st: Store, universe: set<Keys>, keys: Keys, eventId: EventId, io: CacheIo)
    requires Closed(universe) && Sound(st, universe) && keys in universe && Find(st.table, keys).None?
    ensures var (st', result) := CheckAndStore(st, keys, eventId, RECEIVED, io);
      && !result.duplicate
      && st'.table == st.table + [BareRow(keys, eventId)]
      && st'.cache == SetPayload(Forget(st.cache, io), keys, BareRow(keys, eventId), io)
      && TableSound(st'.table, universe)
  {
    CheckRefinesTable(st, universe, keys, eventId, RECEIVED, io);
    CheckKeepsSound(st, universe, keys, eventId, RECEIVED, io);
  }

  lemma SubmittedAnswer(
    st: Store, universe: set<Keys>, keys: Keys, eventId: EventId, answer: Answer, io: CacheIo, saveIo: CacheIo)
    requires Closed(universe) && Sound(st, universe) && keys in universe && Find(st.table, keys).None?
    ensures var bare, row := BareRow(keys, eventId), WithAnswer(BareRow(keys, eventId), answer);
      var st' := Submit(st, keys, eventId, Some(answer), io, saveIo);
      && st'.table == st.table + [row]
      && forall key :: EntryAfterSubmit(st.cache, st'.cache, bare, row, io, saveIo, key)
  {
    var bare, row := BareRow(keys, eventId), WithAnswer(BareRow(keys, eventId), answer);
    CheckedUnknown(st, universe, keys, eventId, io);
    var checked := CheckAndStore(st, keys, eventId, RECEIVED, io).0;
    SavedUnderKeys(st.table, checked.cache, universe, bare, answer, saveIo);
    var saved := SaveUnderKeys(checked, keys, answer, saveIo);
    forall key ensures EntryAfterSubmit(st.cache, saved.cache, bare, row, io, saveIo, key) {
      assert EntryAfterSave(checked.cache, saved.cache, keys, row, saveIo, key);
      if key in KeyStrings(keys) { NoCopyOfTheUnknown(st, universe, keys, key); }
    }
  }

  lemma LastRow(table: seq<Row>, row: Row)
    ensures row in table + [row]
    ensures forall r :: r in table + [row] <==> r in table || r == row
  {
    assert (table + [row])[|table|] == row;
  }

  /**
   * From an exact store, an accepted and answered submission keeps every copy exact if and only if its
   * save overwrites or outlives the copy that its check has cached.
   */
  lemma SubmissionStaysExact(
    st: Store, universe: set<Keys>, keys: Keys, eventId: EventId, answer: Answer, io: CacheIo, saveIo: CacheIo)
    requires Closed(universe) && Sound(st, universe) && keys in universe && Find(st.table, keys).None?
    requires Exact(st)
    ensures Exact(Submit(st, keys, eventId, Some(answer), io, saveIo)) <==> SaveReaches(keys, io, saveIo)
  {
    var bare, row := BareRow(keys, eventId), WithAnswer(BareRow(keys, eventId), answer);
    SubmittedAnswer(st, universe, keys, eventId, answer, io, saveIo);
    var st' := Submit(st, keys, eventId, Some(answer), io, saveIo);
    LastRow(st.table, row);
    assert Matches(bare, keys);
    if SaveReaches(keys, io, saveIo) {
      forall key | key in st'.cache ensures st'.cache[key] in st'.table {
        assert EntryAfterSubmit(st.cache, st'.cache, bare, row, io, saveIo, key);
      }
    } else {
      var key :| key in KeyStrings(keys) && key !in saveIo.forgotten;
      assert EntryAfterSubmit(st.cache, st'.cache, bare, row, io, saveIo, key);
    }
  }

  /** A copy with the fallback of a request that the table does not know cannot be there. */
  lemma CopiesAreOfKnownRows(st: Store, universe: set<Keys>, keys: Keys, key: string)
    requires Sound(st, universe) && Find(st.table, keys).None? && key in st.cache
    ensures st.cache[key].fallback != keys.fallback
  {
    assert Backed(st.table, universe, key, st.cache[key]);
    var i, u :| 0 <= i < |st.table| && u in universe && Backs(st.table[i], u, key, st.cache[key]);
    assert st.table[i] in st.table && !Matches(st.table[i], keys);
  }

  /** The same for the copies of the new row alone, whatever else the cache holds. */
  lemma NewRowIsExact(
    st: Store, universe: set<Keys>, keys: Keys, eventId: EventId, answer: Answer, io: CacheIo, saveIo: CacheIo)
    requires Closed(universe) && Sound(st, universe) && keys in universe && Find(st.table, keys).None?
    ensures var row := WithAnswer(BareRow(keys, eventId), answer);
      var st' := Submit(st, keys, eventId, Some(answer), io, saveIo);
      GoodCopies(st', row, false) && (GoodCopies(st', row, true) <==> SaveReaches(keys, io, saveIo))
  {
    var bare, row := BareRow(keys, eventId), WithAnswer(BareRow(keys, eventId), answer);
    SubmittedAnswer(st, universe, keys, eventId, answer, io, saveIo);
    var st' := Submit(st, keys, eventId, Some(answer), io, saveIo);
    LastRow(st.table, row);
    forall key | key in st'.cache
      ensures GoodCopy(row, st'.cache[key], false)
      ensures SaveReaches(keys, io, saveIo) ==> GoodCopy(row, st'.cache[key], true)
    {
      assert EntryAfterSubmit(st.cache, st'.cache, bare, row, io, saveIo, key);
      if key !in KeyStrings(keys) { CopiesAreOfKnownRows(st, universe, keys, key); }
    }
    if !SaveReaches(keys, io, saveIo) {
      var key :| key in KeyStrings(keys) && key !in saveIo.forgotten;
      assert EntryAfterSubmit(st.cache, st'.cache, bare, row, io, saveIo, key);
      assert !GoodCopy(row, st'.cache[key], true);
    }
  }

  /** A submission that ends without an answer leaves its bare row, and no other copy of it. */
  lemma UnansweredRowIsExact(
    st: Store, universe: set<Keys>, keys: Keys, eventId: EventId, io: CacheIo, saveIo: CacheIo)
    requires Closed(universe) && Sound(st, universe) && keys in universe && Find(st.table, keys).None?
    ensures GoodCopies(Submit(st, keys, eventId, None, io, saveIo), BareRow(keys, eventId), true)
  {
    var row := BareRow(keys, eventId);
    var st' := Submit(st, keys, eventId, None, io, saveIo);
    CheckedUnknown(st, universe, keys, eventId, io);
    LastRow(st.table, row);
    forall key | key in st'.cache ensures GoodCopy(row, st'.cache[key], true) {
      if key in st.cache && st'.cache[key] == st.cache[key] {
        CopiesAreOfKnownRows(st, universe, keys, key);
      }
    }
  }

  // ---- Later submissions leave a row and its copies alone ----

  /** Rows with the same fallback key are the same row. */
  lemma SameFallbackSameRow(table: seq<Row>, universe: set<Keys>, r: Row, q: Row)
    requires TableSound(table, universe) && r in table && q in table && r.fallback == q.fallback
    ensures r == q
  {
    var i :| 0 <= i < |table| && table[i] == r;
    var j :| 0 <= j < |table| && table[j] == q;
    assert Overlap(RowKeys(r), RowKeys(q)) && Overlap(RowKeys(q), RowKeys(r));
  }

  lemma CheckKeepsCopies(
    st: Store, universe: set<Keys>, keys: Keys, eventId: EventId, io: CacheIo, row: Row, exact: bool)
    requires Closed(universe) && Sound(st, universe) && keys in universe && GoodCopies(st, row, exact)
    ensures GoodCopies(CheckAndStore(st, keys, eventId, RECEIVED, io).0, row, exact)
    ensures st.table <= CheckAndStore(st, keys, eventId, RECEIVED, io).0.table
  {
    var st' := CheckAndStore(st, keys, eventId, RECEIVED, io).0;
    CheckRefinesTable(st, universe, keys, eventId, RECEIVED, io);
    LastRow(st.table, BareRow(keys, eventId));
    var found := Find(st.table, keys);
    forall key | key in st'.cache ensures GoodCopy(row, st'.cache[key], exact) {
      if key in st.cache && st'.cache[key] == st.cache[key] {
        assert GoodCopy(row, st.cache[key], exact);
      } else if found.Some? {
        if found.value.fallback == row.fallback { SameFallbackSameRow(st.table, universe, found.value, row); }
      } else {
        assert !Matches(row, keys);
      }
    }
  }

  /** A submission keeps the table as it is, or adds its own row at the end; it keeps every row's copies good. */
  lemma SubmitKeepsCopies(
    st: Store, universe: set<Keys>, keys: Keys, eventId: EventId, answer: Option<Answer>,
    io: CacheIo, saveIo: CacheIo, row: Row, exact: bool)
    requires Closed(universe) && Sound(st, universe) && keys in universe && GoodCopies(st, row, exact)
    ensures GoodCopies(Submit(st, keys, eventId, answer, io, saveIo), row, exact)
  {
    CheckKeepsCopies(st, universe, keys, eventId, io, row, exact);
    CheckRefinesTable(st, universe, keys, eventId, RECEIVED, io);
    if Find(st.table, keys).None? && answer.Some? {
      var bare, new_ := BareRow(keys, eventId), WithAnswer(BareRow(keys, eventId), answer.value);
      SubmittedAnswer(st, universe, keys, eventId, answer.value, io, saveIo);
      var st' := Submit(st, keys, eventId, answer, io, saveIo);
      LastRow(st.table, new_);
      assert !Matches(row, keys);
      forall key | key in st'.cache ensures GoodCopy(row, st'.cache[key], exact) {
        assert EntryAfterSubmit(st.cache, st'.cache, bare, new_, io, saveIo, key);
        if key in st.cache && st'.cache[key] == st.cache[key] { assert GoodCopy(row, st.cache[key], exact); }
      }
    }
  }

  lemma SubmitKeepsSound(
    st: Store, universe: set<Keys>, keys: Keys, eventId: EventId, answer: Option<Answer>, io: CacheIo, saveIo: CacheIo)
    requires Sound(st, universe) && keys in universe
    ensures Sound(Submit(st, keys, eventId, answer, io, saveIo), universe)
  {
    var (st', result) := CheckAndStore(st, keys, eventId, RECEIVED, io);
    CheckKeepsSound(st, universe, keys, eventId, RECEIVED, io);
    if !result.duplicate && answer.Some? {
      if keys.primary.Some? {
        SaveKeepsSound(st', universe, keys.primary.value, answer.value, saveIo);
        var saved := SaveResponse(st', keys.primary.value, answer.value, saveIo);
        SaveKeepsSound(saved, universe, keys.fallback, answer.value, saveIo);
      } else {
        SaveKeepsSound(st', universe, keys.fallback, answer.value, saveIo);
      }
    }
  }

  /** A request that overlaps a row is a duplicate of it, and gets its answer, or none from a stale copy. */
  lemma ResubmissionGetsTheAnswer(
    st: Store, universe: set<Keys>, keys: Keys, eventId: EventId, io: CacheIo, row: Row, exact: bool)
    requires Closed(universe) && Sound(st, universe) && keys in universe
    requires GoodCopies(st, row, exact) && Overlap(RowKeys(row), keys)
    ensures var (st', result) := CheckAndStore(st, keys, eventId, RECEIVED, io);
      && result.duplicate && result.existingEventId == row.eventId
      && result.cached in {None, row.cached} && (exact ==> result.cached == row.cached)
      && st'.table == st.table
  {
    var i :| 0 <= i < |st.table| && st.table[i] == row;
    OneRowPerKeys(st.table, universe, keys, i);
    CheckRefinesTable(st, universe, keys, eventId, RECEIVED, io);
    var cache := Forget(st.cache, io);
    if RedisDuplicate(cache, keys, io).Some? {
      HitIsACopyOfTheRow(st, universe, keys, io);
      var key := if keys.primary.Some? && keys.primary.value in cache then keys.primary.value else keys.fallback;
      assert GoodCopy(row, st.cache[key], exact);
    }
  }

  /** If Redis has kept just one of two keys, the lookup serves its copy. */
  lemma SingleCopyIsServed(st: Store, keys: Keys, eventId: EventId, key: string, later: CacheIo)
    requires key in KeyStrings(keys) && key in st.cache
    requires later == CacheIo(st.cache.Keys - {key}, true, true)
    ensures CheckAndStore(st, keys, eventId, RECEIVED, later).1.cached == st.cache[key].cached
  {
    assert Forget(st.cache, later) == map[key := st.cache[key]];
  }

  lemma UnreachedCopyIsStale(
    st: Store, universe: set<Keys>, keys: Keys, eventId: EventId, answer: Answer, io: CacheIo, saveIo: CacheIo)
    returns (key: string)
    requires Closed(universe) && Sound(st, universe) && keys in universe && Find(st.table, keys).None?
    requires !SaveReaches(keys, io, saveIo)
    ensures var st' := Submit(st, keys, eventId, Some(answer), io, saveIo);
      key in KeyStrings(keys) && key in st'.cache && st'.cache[key].cached == None
  {
    var bare, row := BareRow(keys, eventId), WithAnswer(BareRow(keys, eventId), answer);
    SubmittedAnswer(st, universe, keys, eventId, answer, io, saveIo);
    key :| key in KeyStrings(keys) && key !in saveIo.forgotten;
    assert EntryAfterSubmit(st.cache, Submit(st, keys, eventId, Some(answer), io, saveIo).cache,
                            bare, row, io, saveIo, key);
  }

  /** The table has the answer in any case. */
  lemma TableHasTheAnswer(
    st: Store, universe: set<Keys>, keys: Keys, eventId: EventId, answer: Answer, io: CacheIo, saveIo: CacheIo)
    requires Closed(universe) && Sound(st, universe) && keys in universe && Find(st.table, keys).None?
    ensures Find(Submit(st, keys, eventId, Some(answer), io, saveIo).table, keys)
      == Some(WithAnswer(BareRow(keys, eventId), answer))
  {
    var st' := Submit(st, keys, eventId, Some(answer), io, saveIo);
    SubmittedAnswer(st, universe, keys, eventId, answer, io, saveIo);
    SubmitKeepsSound(st, universe, keys, eventId, Some(answer), io, saveIo);
    assert Overlap(RowKeys(st'.table[|st.table|]), keys);
    OneRowPerKeys(st'.table, universe, keys, |st.table|);
  }

  predicate LosesTheAnswer(st: Store, keys: Keys, eventId: EventId, later: CacheIo) {
    CheckAndStore(st, keys, eventId, RECEIVED, later).1.cached == None
  }

  /** The next duplicate can miss the answer, for some behaviour of the cache, exactly if the save did not reach it. */
  lemma MissedSaveLosesTheAnswer(
    st: Store, universe: set<Keys>, keys: Keys, eventId: EventId, answer: Answer, io: CacheIo, saveIo: CacheIo,
    again: EventId)
    requires Closed(universe) && Sound(st, universe) && keys in universe && Find(st.table, keys).None?
    ensures (exists later :: LosesTheAnswer(Submit(st, keys, eventId, Some(answer), io, saveIo), keys, again, later))
      <==> !SaveReaches(keys, io, saveIo)
  {
    var st' := Submit(st, keys, eventId, Some(answer), io, saveIo);
    if SaveReaches(keys, io, saveIo) {
      var row := WithAnswer(BareRow(keys, eventId), answer);
      NewRowIsExact(st, universe, keys, eventId, answer, io, saveIo);
      SubmitKeepsSound(st, universe, keys, eventId, Some(answer), io, saveIo);
      forall later ensures !LosesTheAnswer(st', keys, again, later) {
        ResubmissionGetsTheAnswer(st', universe, keys, again, later, row, true);
      }
    } else {
      var key := UnreachedCopyIsStale(st, universe, keys, eventId, answer, io, saveIo);
      var later := CacheIo(st'.cache.Keys - {key}, true, true);
      SingleCopyIsServed(st', keys, again, key, later);
      assert LosesTheAnswer(st', keys, again, later);
    }
  }
}
