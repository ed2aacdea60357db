/** The idempotency table behind its lossy Redis cache. */
module Idempotency {
  import opened Domain
  import opened IdempotencyKeys

  datatype Row = Row(
    primary: Option<string>, fallback: string, eventId: EventId,
    cached: Option<Answer>, status: EventStatus)

  /** What Redis holds under a key: a copy of a row. */
  type Payload = Row

  datatype Store = Store(table: seq<Row>, cache: map<string, Payload>)

  /** How Redis behaves during one call: keys it has dropped since, and whether it answers. */
  datatype CacheIo = CacheIo(forgotten: set<string>, readable: bool, writable: bool)

  datatype CheckResult = CheckResult(
    cached: Option<Answer>, duplicate: bool, existingEventId: EventId, keys: Keys, status: EventStatus)

  function RowKeys(row: Row): Keys { Keys(row.primary, row.fallback) }

  predicate Matches(row: Row, keys: Keys) { Overlap(RowKeys(row), keys) }

  /** findFirst by fallback or primary key. */
  function Find(table: seq<Row>, keys: Keys): (row: Option<Row>)
    ensures row.None? <==> forall r :: r in table ==> !Matches(r, keys)
    ensures row.Some? ==> row.value in table && Matches(row.value, keys)
  {
    if table == [] then None
    else if Matches(table[0], keys) then Some(table[0])
    else Find(table[1..], keys)
  }

  function Forget(cache: map<string, Payload>, io: CacheIo): map<string, Payload> {
    cache - io.forgotten
  }

  /** mget primary, fallback: the first hit, if Redis answers. */
  function RedisDuplicate(cache: map<string, Payload>, keys: Keys, io: CacheIo): Option<Payload> {
    if !io.readable then None
    else if keys.primary.Some? && keys.primary.value in cache then Some(cache[keys.primary.value])
    else if keys.fallback in cache then Some(cache[keys.fallback])
    else None
  }

  function SetPayload(cache: map<string, Payload>, keys: Keys, payload: Payload, io: CacheIo): map<string, Payload> {
    if !io.writable then cache
    else
      var cache' := if keys.primary.Some? then cache[keys.primary.value := payload] else cache;
      cache'[keys.fallback := payload]
  }

  function Duplicate(keys: Keys, row: Row): CheckResult {
    CheckResult(row.cached, true, row.eventId, keys, row.status)
  }

  function CheckAndStore(st: Store, keys: Keys, eventId: EventId, status: EventStatus, io: CacheIo)
    : (Store, CheckResult)
  {
    var cache := Forget(st.cache, io);
    match RedisDuplicate(cache, keys, io)
    case Some(payload) => (Store(st.table, cache), Duplicate(keys, payload))
    case None =>
      match Find(st.table, keys)
      case Some(row) => (Store(st.table, SetPayload(cache, keys, row, io)), Duplicate(keys, row))
      case None =>
        var row := Row(keys.primary, keys.fallback, eventId, None, status);
        (Store(st.table + [row], SetPayload(cache, keys, row, io)),
         CheckResult(None, false, eventId, keys, status))
  }

  /** updateMany on the matched row's keys. */
  function Answered(table: seq<Row>, matched: Row, answer: Answer): (updated: seq<Row>)
    ensures |updated| == |table|
  {
    seq(|table|, i requires 0 <= i < |table| =>
      if Matches(table[i], RowKeys(matched))
      then table[i].(cached := Some(answer), status := answer.status)
      else table[i])
  }

  function SaveResponse(st: Store, key: string, answer: Answer, io: CacheIo): Store {
    var cache := Forget(st.cache, io);
    match Find(st.table, Keys(Some(key), key))
    case None => Store(st.table, cache)
    case Some(row) =>
      Store(Answered(st.table, row, answer),
            SetPayload(cache, Keys(row.primary, row.fallback),
                       row.(cached := Some(answer), status := answer.status), io))
  }

  /** Ingest saves its answer under the primary key, if any, and under the fallback key. */
  function SaveUnderKeys(st: Store, keys: Keys, answer: Answer, io: CacheIo): Store {
    var st' := if keys.primary.Some? then SaveResponse(st, keys.primary.value, answer, io) else st;
    SaveResponse(st', keys.fallback, answer, io)
  }

  class IdempotencyService {
    var table: seq<Row>
    var cache: map<string, Payload>

    ghost function Abs(): Store
      reads this
    {
      Store(table, cache)
    }

    constructor ()
      ensures Abs() == Store([], map[])
    {
      table, cache := [], map[];
    }

    method GetRedisDuplicate(keys: Keys, io: CacheIo) returns (payload: Option<Payload>)
      ensures payload == RedisDuplicate(cache, keys, io)
    {
      if !io.readable {
        return None;
      }
      var redisKeys := if keys.primary.Some? then [keys.primary.value, keys.fallback] else [keys.fallback];
      for i := 0 to |redisKeys|
        invariant forall k :: 0 <= k < i ==> redisKeys[k] !in cache
      {
        if redisKeys[i] in cache {
          assert i > 0 ==> redisKeys[0] !in cache;
          return Some(cache[redisKeys[i]]);
        }
      }
      assert redisKeys[0] !in cache && redisKeys[|redisKeys| - 1] !in cache;
      payload := None;
    }

    method SetRedisPayload(keys: Keys, payload: Payload, io: CacheIo)
      modifies this`cache
      ensures cache == SetPayload(old(cache), keys, payload, io)
    {
      if !io.writable {
        return;
      }
      var redisKeys := if keys.primary.Some? then [keys.primary.value, keys.fallback] else [keys.fallback];
      for i := 0 to |redisKeys|
        invariant forall key :: key in cache <==> key in old(cache) || key in redisKeys[..i]
        invariant forall key :: key in cache ==>
          cache[key] == if key in redisKeys[..i] then payload else old(cache)[key]
      {
        cache := cache[redisKeys[i] := payload];
        assert redisKeys[..i + 1] == redisKeys[..i] + [redisKeys[i]];
      }
      assert redisKeys[..|redisKeys|] == redisKeys;
    }

    method CheckAndStoreEvent(e: Event, status: EventStatus, io: CacheIo) returns (result: CheckResult)
      modifies this
      ensures (Abs(), result) == CheckAndStore(old(Abs()), BuildKeys(e), e.id, status, io)
    {
      var keys := BuildKeys(e);
      cache := Forget(cache, io);
      var hit := GetRedisDuplicate(keys, io);
      if hit.Some? {
        return Duplicate(keys, hit.value);
      }
      var row := Find(table, keys);
      if row.Some? {
        SetRedisPayload(keys, row.value, io);
        return Duplicate(keys, row.value);
      }
      var created := Row(keys.primary, keys.fallback, e.id, None, status);
      table := table + [created];
      SetRedisPayload(keys, created, io);
      result := CheckResult(None, false, e.id, keys, status);
    }

    method Save(key: string, answer: Answer, io: CacheIo)
      modifies this
      ensures Abs() == SaveResponse(old(Abs()), key, answer, io)
    {
      cache := Forget(cache, io);
      var row := Find(table, Keys(Some(key), key));
      if row.None? {
        return;
      }
      var keys := Keys(row.value.primary, row.value.fallback);
      UpdateMany(row.value, answer);
      SetRedisPayload(keys, row.value.(cached := Some(answer), status := answer.status), io);
    }

    method UpdateMany(matched: Row, answer: Answer)
      modifies this`table
      ensures table == Answered(old(table), matched, answer)
    {
      ghost var updated := Answered(table, matched, answer);
      for i := 0 to |table|
        invariant |table| == |updated|
        invariant forall k :: 0 <= k < i ==> table[k] == updated[k]
        invariant forall k :: i <= k < |table| ==> table[k] == old(table)[k]
      {
        if Matches(table[i], RowKeys(matched)) {
          table := table[i := table[i].(cached := Some(answer), status := answer.status)];
        }
      }
    }

    method SaveBoth(keys: Keys, answer: Answer, io: CacheIo)
      modifies this
      ensures Abs() == SaveUnderKeys(old(Abs()), keys, answer, io)
    {
      if keys.primary.Some? {
        Save(keys.primary.value, answer, io);
      }
      Save(keys.fallback, answer, io);
    }
  }

  const RELIABLE := CacheIo({}, true, true)

  // ---- Whole submissions: check, then answer, before the next one starts ----

  /** The store after one ingest; no answer is saved for a duplicate or when the ingest throws. */
  function Submit(st: Store, keys: Keys, eventId: EventId, answer: Option<Answer>, io: CacheIo, saveIo: CacheIo)
    : Store
  {
    var (st', result) := CheckAndStore(st, keys, eventId, RECEIVED, io);
    if result.duplicate || answer.None? then st' else SaveUnderKeys(st', keys, answer.value, saveIo)
  }

  // ---- What a check hands to its caller ----

  /** If both copies are there, the one under the primary key is served. */
  lemma PrimaryCopyIsServed(st: Store, keys: Keys, eventId: EventId, status: EventStatus, io: CacheIo)
    requires io.readable && keys.primary.Some? && keys.primary.value in st.cache
    requires keys.primary.value !in io.forgotten
    ensures var (st', result) := CheckAndStore(st, keys, eventId, status, io);
      && st' == Store(st.table, st.cache - io.forgotten)
      && result == CheckResult(st.cache[keys.primary.value].cached, true, st.cache[keys.primary.value].eventId, keys,
                               st.cache[keys.primary.value].status)
  {
  }

  /** A check that the cache does not answer gives the row's own answer, event and status, or the new row's. */
  lemma TableIsServed(st: Store, keys: Keys, eventId: EventId, status: EventStatus, io: CacheIo)
    requires !io.readable
    ensures var (st', result) := CheckAndStore(st, keys, eventId, status, io);
      match Find(st.table, keys)
      case Some(row) => result == CheckResult(row.cached, true, row.eventId, keys, row.status) && st'.table == st.table
      case None =>
        && result == CheckResult(None, false, eventId, keys, status)
        && st'.table == st.table + [Row(keys.primary, keys.fallback, eventId, None, status)]
  {
  }

  /** Unless the cache answers, or cannot be written, a check leaves the copy of its row under both keys. */
  lemma CopiesAreRefilled(st: Store, keys: Keys, eventId: EventId, status: EventStatus, io: CacheIo)
    requires io.writable && RedisDuplicate(Forget(st.cache, io), keys, io).None?
    ensures var cache, found := CheckAndStore(st, keys, eventId, status, io).0.cache, Find(st.table, keys);
      var row := if found.Some? then found.value else Row(keys.primary, keys.fallback, eventId, None, status);
      && keys.fallback in cache && cache[keys.fallback] == row
      && (keys.primary.Some? ==> keys.primary.value in cache && cache[keys.primary.value] == row)
      && (forall key :: key !in KeyStrings(keys) ==>
        (key in cache <==> key in st.cache && key !in io.forgotten)
        && (key in cache && key in st.cache ==> cache[key] == st.cache[key]))
  {
  }
}
