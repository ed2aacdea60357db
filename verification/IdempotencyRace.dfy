/** Concurrent submissions: lookups, creates and cache traffic interleave freely. */
module IdempotencyRace {
  import opened Domain
  import opened IdempotencyKeys
  import opened Idempotency

  /** Where a submission stands between the awaits of checkAndStore. */
  datatype Phase =
    | Started
    | CacheMissed
    | TableMissed
    | Collided            // the unique constraint refused its row (P2002)
    | Accepted
    | DuplicateOf(eventId: EventId)
    | Crashed             // the collision was rethrown

  datatype Submission = Submission(keys: Keys, phase: Phase)

  datatype Race = Race(store: Store, submissions: map<EventId, Submission>)

  datatype Move =
    | Arrive(id: EventId, keys: Keys)
    | AskCache(id: EventId, io: CacheIo)
    | AskTable(id: EventId, io: CacheIo)
    | Create(id: EventId, io: CacheIo)
    | AskAgain(id: EventId, io: CacheIo)
    | SaveAnswer(key: string, answer: Answer, io: CacheIo)

  predicate Enabled(r: Race, move: Move) {
    match move
    case Arrive(id, _) => id !in r.submissions
    case AskCache(id, _) => id in r.submissions && r.submissions[id].phase == Started
    case AskTable(id, _) => id in r.submissions && r.submissions[id].phase == CacheMissed
    case Create(id, _) => id in r.submissions && r.submissions[id].phase == TableMissed
    case AskAgain(id, _) => id in r.submissions && r.submissions[id].phase == Collided
    case SaveAnswer(_, _, _) => true
  }

  function To(r: Race, id: EventId, phase: Phase, store: Store): Race
    requires id in r.submissions
  {
    Race(store, r.submissions[id := r.submissions[id].(phase := phase)])
  }

  function Next(r: Race, move: Move): Race
    requires Enabled(r, move)
  {
    match move
    case Arrive(id, keys) => r.(submissions := r.submissions[id := Submission(keys, Started)])
    case AskCache(id, io) =>
      var cache := Forget(r.store.cache, io);
      (match RedisDuplicate(cache, r.submissions[id].keys, io)
       case Some(payload) => To(r, id, DuplicateOf(payload.eventId), r.store.(cache := cache))
       case None => To(r, id, CacheMissed, r.store.(cache := cache)))
    case AskTable(id, io) => Lookup(r, id, io, TableMissed)
    case Create(id, io) =>
      var keys := r.submissions[id].keys;
      var row := Row(keys.primary, keys.fallback, id, None, RECEIVED);
      if exists other :: other in r.store.table && Matches(other, keys)
      then To(r, id, Collided, r.store)
      else To(r, id, Accepted,
              Store(r.store.table + [row], SetPayload(Forget(r.store.cache, io), keys, row, io)))
    case AskAgain(id, io) => Lookup(r, id, io, Crashed)
    case SaveAnswer(key, answer, io) => r.(store := SaveResponse(r.store, key, answer, io))
  }

  function Lookup(r: Race, id: EventId, io: CacheIo, miss: Phase): Race
    requires id in r.submissions
  {
    var keys := r.submissions[id].keys;
    var cache := Forget(r.store.cache, io);
    match Find(r.store.table, keys)
    case Some(row) => To(r, id, DuplicateOf(row.eventId), Store(r.store.table, SetPayload(cache, keys, row, io)))
    case None => To(r, id, miss, r.store.(cache := cache))
  }

  ghost predicate IsRun(trace: seq<Race>, moves: seq<Move>) {
    && |trace| == |moves| + 1
    && trace[0] == Race(Store([], map[]), map[])
    && forall i {:trigger moves[i]} :: 0 <= i < |moves| ==>
      Enabled(trace[i], moves[i]) && trace[i + 1] == Next(trace[i], moves[i])
  }

  predicate IsAccepted(r: Race, id: EventId) {
    id in r.submissions && r.submissions[id].phase == Accepted
  }

  ghost predicate RowsAreAccepted(r: Race) {
    && (forall i :: 0 <= i < |r.store.table| ==>
      IsAccepted(r, r.store.table[i].eventId)
      && r.submissions[r.store.table[i].eventId].keys == RowKeys(r.store.table[i]))
    && (forall i, j :: 0 <= i < j < |r.store.table| ==>
      !Overlap(RowKeys(r.store.table[i]), RowKeys(r.store.table[j])))
    && (forall id :: IsAccepted(r, id) ==> HasRow(r, id))
  }

  ghost predicate HasRow(r: Race, id: EventId) {
    exists i :: 0 <= i < |r.store.table| && r.store.table[i].eventId == id
  }

  ghost predicate CopiesAreAccepted(r: Race) {
    forall key :: key in r.store.cache ==> IsAccepted(r, r.store.cache[key].eventId)
  }

  ghost predicate PhaseSound(r: Race, id: EventId)
    requires id in r.submissions
  {
    match r.submissions[id].phase
    case DuplicateOf(original) => IsAccepted(r, original)
    case Collided => Find(r.store.table, r.submissions[id].keys).Some?
    case Crashed => false
    case _ => true
  }

  ghost predicate Invariant(r: Race) {
    && RowsAreAccepted(r)
    && CopiesAreAccepted(r)
    && forall id :: id in r.submissions ==> PhaseSound(r, id)
  }

  // ---- Each move keeps it ----

  lemma FindGrows(table: seq<Row>, longer: seq<Row>, keys: Keys)
    requires Find(table, keys).Some?
    requires |table| <= |longer|
    requires forall i :: 0 <= i < |table| ==> RowKeys(table[i]) == RowKeys(longer[i])
    ensures Find(longer, keys).Some?
  {
    var i :| 0 <= i < |table| && table[i] == Find(table, keys).value;
    assert longer[i] in longer && Matches(longer[i], keys);
  }

  /** Moves that leave rows, keys and acceptances alone. */
  lemma QuietMoveKeepsInvariant(r: Race, r': Race)
    requires Invariant(r)
    requires r'.store.table == r.store.table
    requires r.submissions.Keys <= r'.submissions.Keys
    requires forall id :: id in r.submissions ==> r'.submissions[id].keys == r.submissions[id].keys
    requires forall id :: IsAccepted(r, id) <==> IsAccepted(r', id)
    requires forall id :: id in r'.submissions ==>
      PhaseSound(r', id) || (id in r.submissions && r'.submissions[id] == r.submissions[id])
    requires CopiesAreAccepted(r')
    ensures Invariant(r')
  {
    forall id | IsAccepted(r', id) ensures HasRow(r', id) {
      assert HasRow(r, id);
    }
    forall id | id in r'.submissions ensures PhaseSound(r', id) {
      if id in r.submissions { assert PhaseSound(r, id); }
    }
  }

  lemma LookupKeepsInvariant(r: Race, id: EventId, io: CacheIo, miss: Phase)
    requires Invariant(r) && id in r.submissions && r.submissions[id].phase != Accepted
    requires miss == TableMissed || (miss == Crashed && r.submissions[id].phase == Collided)
    ensures Invariant(Lookup(r, id, io, miss))
  {
    var r' := Lookup(r, id, io, miss);
    assert PhaseSound(r, id);
    var found := Find(r.store.table, r.submissions[id].keys);
    if found.Some? {
      var i :| 0 <= i < |r.store.table| && r.store.table[i] == found.value;
      assert IsAccepted(r, found.value.eventId);
    }
    QuietMoveKeepsInvariant(r, r');
  }

  lemma ReadsKeepInvariant(r: Race, move: Move)
    requires Invariant(r) && Enabled(r, move)
    requires move.Arrive? || move.AskCache? || move.AskTable? || move.AskAgain?
    ensures Invariant(Next(r, move))
  {
    match move
    case Arrive(_, _) => QuietMoveKeepsInvariant(r, Next(r, move));
    case AskCache(_, _) => QuietMoveKeepsInvariant(r, Next(r, move));
    case AskTable(id, io) => LookupKeepsInvariant(r, id, io, TableMissed);
    case AskAgain(id, io) => LookupKeepsInvariant(r, id, io, Crashed);
  }

  /** The accepted submission's row goes to the end of the table. */
  ghost predicate Accepts(r: Race, r': Race, id: EventId) {
    && id in r.submissions && r.submissions[id].phase == TableMissed
    && Find(r.store.table, r.submissions[id].keys).None?
    && r'.submissions == r.submissions[id := r.submissions[id].(phase := Accepted)]
    && |r'.store.table| == |r.store.table| + 1
    && (forall i :: 0 <= i < |r.store.table| ==> r'.store.table[i] == r.store.table[i])
    && RowKeys(r'.store.table[|r.store.table|]) == r.submissions[id].keys
    && r'.store.table[|r.store.table|].eventId == id
    && (forall key :: key in r'.store.cache ==>
      r'.store.cache[key].eventId == id || (key in r.store.cache && r'.store.cache[key] == r.store.cache[key]))
  }

  lemma AcceptingKeepsRows(r: Race, r': Race, id: EventId)
    requires Invariant(r) && Accepts(r, r', id)
    ensures RowsAreAccepted(r')
  {
    var n := |r.store.table|;
    forall i | 0 <= i < |r'.store.table|
      ensures IsAccepted(r', r'.store.table[i].eventId)
      ensures r'.submissions[r'.store.table[i].eventId].keys == RowKeys(r'.store.table[i])
    {
      if i < n { assert IsAccepted(r, r.store.table[i].eventId); }
    }
    forall i, j | 0 <= i < j < |r'.store.table|
      ensures !Overlap(RowKeys(r'.store.table[i]), RowKeys(r'.store.table[j]))
    {
      assert r.store.table[i] in r.store.table;
    }
    forall other | IsAccepted(r', other) ensures HasRow(r', other) {
      if other == id {
        assert r'.store.table[n].eventId == id;
      } else {
        assert HasRow(r, other);
        var i :| 0 <= i < n && r.store.table[i].eventId == other;
        assert r'.store.table[i].eventId == other;
      }
    }
  }

  lemma AcceptingKeepsPhases(r: Race, r': Race, id: EventId, other: EventId)
    requires Invariant(r) && Accepts(r, r', id)
    requires other in r'.submissions
    ensures PhaseSound(r', other)
  {
    assert PhaseSound(r, other);
    if r.submissions[other].phase == Collided {
      FindGrows(r.store.table, r'.store.table, r.submissions[other].keys);
    }
  }

  lemma CreateKeepsInvariant(r: Race, id: EventId, io: CacheIo)
    requires Invariant(r) && Enabled(r, Create(id, io))
    ensures Invariant(Next(r, Create(id, io)))
  {
    var r' := Next(r, Create(id, io));
    if Find(r.store.table, r.submissions[id].keys).Some? {
      assert Find(r.store.table, r.submissions[id].keys).value in r.store.table;
      QuietMoveKeepsInvariant(r, r');
    } else {
      assert Accepts(r, r', id);
      AcceptingKeepsRows(r, r', id);
      forall other | other in r'.submissions ensures PhaseSound(r', other) {
        AcceptingKeepsPhases(r, r', id, other);
      }
    }
  }

  /** A saved answer changes no keys and no ids. */
  ghost predicate Answers(r: Race, r': Race) {
    && r'.submissions == r.submissions
    && |r'.store.table| == |r.store.table|
    && (forall i :: 0 <= i < |r.store.table| ==>
      RowKeys(r'.store.table[i]) == RowKeys(r.store.table[i])
      && r'.store.table[i].eventId == r.store.table[i].eventId)
    && CopiesAreAccepted(r')
  }

  lemma AnsweringKeepsInvariant(r: Race, r': Race)
    requires Invariant(r) && Answers(r, r')
    ensures Invariant(r')
  {
    forall id | IsAccepted(r', id) ensures HasRow(r', id) {
      assert HasRow(r, id);
      var i :| 0 <= i < |r.store.table| && r.store.table[i].eventId == id;
      assert r'.store.table[i].eventId == id;
    }
    forall id | id in r'.submissions ensures PhaseSound(r', id) {
      assert PhaseSound(r, id);
      if r.submissions[id].phase == Collided {
        FindGrows(r.store.table, r'.store.table, r.submissions[id].keys);
      }
    }
  }

  lemma SavedCopies(r: Race, key: string, answer: Answer, io: CacheIo)
    requires RowsAreAccepted(r) && CopiesAreAccepted(r)
    ensures CopiesAreAccepted(Next(r, SaveAnswer(key, answer, io)))
  {
    var r' := Next(r, SaveAnswer(key, answer, io));
    var found := Find(r.store.table, Keys(Some(key), key));
    if found.Some? {
      var i :| 0 <= i < |r.store.table| && r.store.table[i] == found.value;
      assert IsAccepted(r, found.value.eventId);
    }
    forall k | k in r'.store.cache ensures IsAccepted(r, r'.store.cache[k].eventId) {
    }
  }

  lemma SavingAnswers(r: Race, key: string, answer: Answer, io: CacheIo)
    requires RowsAreAccepted(r) && CopiesAreAccepted(r)
    ensures Answers(r, Next(r, SaveAnswer(key, answer, io)))
  {
    SavedCopies(r, key, answer, io);
  }

  lemma SaveKeepsInvariant(r: Race, key: string, answer: Answer, io: CacheIo)
    requires Invariant(r)
    ensures Invariant(Next(r, SaveAnswer(key, answer, io)))
  {
    var r' := Next(r, SaveAnswer(key, answer, io));
    SavingAnswers(r, key, answer, io);
    AnsweringKeepsInvariant(r, r');
  }

  lemma {:induction false} RunKeepsInvariant(trace: seq<Race>, moves: seq<Move>, n: nat)
    requires IsRun(trace, moves) && n <= |moves|
    ensures Invariant(trace[n])
  {
    if n == 0 {
    } else {
      RunKeepsInvariant(trace, moves, n - 1);
      var r, move := trace[n - 1], moves[n - 1];
      match move
      case Create(id, io) => CreateKeepsInvariant(r, id, io);
      case SaveAnswer(key, answer, io) => SaveKeepsInvariant(r, key, answer, io);
      case _ => ReadsKeepInvariant(r, move);
    }
  }

  // ---- What it means ----

  /** Exactly-once acceptance: accepted submissions never share a primary or a fallback key. */
  lemma AcceptedSubmissionsShareNoKey(trace: seq<Race>, moves: seq<Move>, n: nat, a: EventId, b: EventId)
    requires IsRun(trace, moves) && n <= |moves|
    requires a != b && IsAccepted(trace[n], a) && IsAccepted(trace[n], b)
    ensures !Overlap(trace[n].submissions[a].keys, trace[n].submissions[b].keys)
  {
    RunKeepsInvariant(trace, moves, n);
    assert HasRow(trace[n], a) && HasRow(trace[n], b);
    var i :| 0 <= i < |trace[n].store.table| && trace[n].store.table[i].eventId == a;
    var j :| 0 <= j < |trace[n].store.table| && trace[n].store.table[j].eventId == b;
    assert i < j || j < i;
  }

  /** The second lookup after a collision always finds the other row, so nothing is rethrown. */
  lemma CollisionsNeverCrash(trace: seq<Race>, moves: seq<Move>, n: nat, id: EventId)
    requires IsRun(trace, moves) && n <= |moves|
    requires id in trace[n].submissions
    ensures trace[n].submissions[id].phase != Crashed
  {
    RunKeepsInvariant(trace, moves, n);
    assert PhaseSound(trace[n], id);
  }

  /** A duplicate verdict always names an accepted submission: no request is dropped by both sides. */
  lemma DuplicatesNameAnAcceptedSubmission(trace: seq<Race>, moves: seq<Move>, n: nat, id: EventId)
    requires IsRun(trace, moves) && n <= |moves|
    requires id in trace[n].submissions && trace[n].submissions[id].phase.DuplicateOf?
    ensures IsAccepted(trace[n], trace[n].submissions[id].phase.eventId)
  {
    RunKeepsInvariant(trace, moves, n);
    assert PhaseSound(trace[n], id);
  }
}
