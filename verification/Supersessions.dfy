/** Supersession is well founded: following supersededBy links always ends at a surviving event. */
module Supersessions {
  import opened Domain
  import opened Conflicts
  import opened ConflictSafety

  ghost predicate IsLoser(log: seq<Supersession>, id: EventId) {
    exists i :: 0 <= i < |log| && log[i].loser == id
  }

  /** Whoever beats an event has itself not been superseded up to then. */
  ghost predicate BeatenBySurvivors(w: World, i: nat)
    requires i < |w.supersessions|
  {
    && w.supersessions[i].winners != {}
    && forall winner | winner in w.supersessions[i].winners ::
      winner in w.events && !IsLoser(w.supersessions[..i + 1], winner)
  }

  /** SUPERSEDED is written once per event, always in favour of events that still survived. */
  ghost predicate LinksSound(w: World) {
    && WellFormed(w)
    && (forall i, j :: 0 <= i < j < |w.supersessions| ==>
      w.supersessions[i].loser != w.supersessions[j].loser)
    && (forall id :: id in w.status ==> (w.status[id] == SUPERSEDED <==> IsLoser(w.supersessions, id)))
    && (forall i :: 0 <= i < |w.supersessions| ==> w.supersessions[i].loser in w.events)
    && (forall i :: 0 <= i < |w.supersessions| ==> BeatenBySurvivors(w, i))
  }

  // ---- Every run of admissions and deliveries keeps it, whatever Redis does ----

  ghost predicate LogEffect(w: World, e: Event, found: set<EventId>, order: seq<EventId>, a: Detection) {
    a.world.supersessions == w.supersessions +
      if a.RuleMissing? then []
      else match a.result.status
        case SUPERSEDED => [Supersession(e.id, found)]
        case CONFLICT_RESOLVED => SupersededBy(order, e.id)
        case _ => []
  }

  lemma ResolutionLog(v: World, e: Event, env: Env, groups: map<EventId, set<FieldPath>>, order: seq<EventId>)
    requires groups.Keys <= v.events.Keys
    requires forall id :: id in order ==> id in groups
    ensures var a := Recorded(e, Resolve(v, e, env, groups, order));
      && LogEffect(v, e, groups.Keys, order, a)
      && (a.Detected? && a.result.status == SUPERSEDED ==> groups.Keys != {})
  {
    if groups.Keys == {} { assert groups == map[]; }
  }

  lemma LosingKeepsLinks(w: World, w': World, e: EventId, found: set<EventId>)
    requires LinksSound(w) && WellFormed(w') && w'.events == w.events
    requires e in w.events && w.status[e] != SUPERSEDED
    requires w'.status == w.status[e := SUPERSEDED]
    requires found != {} && e !in found
    requires forall id :: id in found ==> id in w.status && w.status[id] != SUPERSEDED
    requires w'.supersessions == w.supersessions + [Supersession(e, found)]
    ensures LinksSound(w')
  {
    var n := |w.supersessions|;
    assert w'.supersessions[n].loser == e;
    forall i | 0 <= i < |w'.supersessions| ensures BeatenBySurvivors(w', i) {
      if i < n {
        assert BeatenBySurvivors(w, i);
        assert w'.supersessions[..i + 1] == w.supersessions[..i + 1];
      } else {
        assert w'.supersessions[..i + 1] == w'.supersessions;
      }
    }
    forall id | id in w'.status ensures w'.status[id] == SUPERSEDED <==> IsLoser(w'.supersessions, id) {
      if IsLoser(w.supersessions, id) {
        var i :| 0 <= i < n && w.supersessions[i].loser == id;
        assert w'.supersessions[i].loser == id;
      }
    }
  }

  lemma WinningKeepsLinks(w: World, w': World, e: EventId, order: seq<EventId>)
    requires LinksSound(w) && WellFormed(w') && w'.events == w.events
    requires e in w.events && w.status[e] != SUPERSEDED
    requires Distinct(order) && e !in order
    requires forall id :: id in order ==> id in w.status && w.status[id] != SUPERSEDED
    requires w'.status.Keys == w.status.Keys && w'.status[e] != SUPERSEDED
    requires forall id :: id in w.status && id != e ==>
      w'.status[id] == if id in order then SUPERSEDED else w.status[id]
    requires w'.supersessions == w.supersessions + SupersededBy(order, e)
    ensures LinksSound(w')
  {
    var n := |w.supersessions|;
    forall i | 0 <= i < |w'.supersessions|
      ensures BeatenBySurvivors(w', i) && w'.supersessions[i].loser in w'.events
    {
      if i < n {
        assert BeatenBySurvivors(w, i);
        assert w'.supersessions[..i + 1] == w.supersessions[..i + 1];
      } else {
        assert w'.supersessions[i] == Supersession(order[i - n], {e});
        forall j | 0 <= j <= i ensures w'.supersessions[j].loser != e {
          if j >= n { assert order[j - n] in order; }
        }
      }
    }
    forall id | id in w'.status ensures w'.status[id] == SUPERSEDED <==> IsLoser(w'.supersessions, id) {
      if IsLoser(w.supersessions, id) {
        var i :| 0 <= i < n && w.supersessions[i].loser == id;
        assert w'.supersessions[i].loser == id;
      }
      if id in order {
        var k :| 0 <= k < |order| && order[k] == id;
        assert w'.supersessions[n + k].loser == id;
      }
    }
    forall i, j | 0 <= i < j < |w'.supersessions|
      ensures w'.supersessions[i].loser != w'.supersessions[j].loser
    {
      if j >= n {
        assert order[j - n] in order;
        if i < n { assert IsLoser(w.supersessions, w.supersessions[i].loser); }
      }
    }
  }

  lemma EffectsKeepLinks(w: World, e: Event, found: set<EventId>, order: seq<EventId>, a: Detection)
    requires LinksSound(w) && e.id in w.events && w.status[e.id] == IDEMPOTENCY_ACCEPTED
    requires AdmissionEffect(w, e, found, a) && LogEffect(w, e, found, order, a)
    requires Enumerates(order, found) && e.id !in found
    requires forall id :: id in found ==> id in w.status && w.status[id] != SUPERSEDED
    requires a.Detected? && a.result.status == SUPERSEDED ==> found != {}
    ensures LinksSound(a.world)
  {
    if a.Detected? && a.result.status == SUPERSEDED {
      assert a.world.status == w.status[e.id := SUPERSEDED];
      LosingKeepsLinks(w, a.world, e.id, found);
    } else {
      var beaten := if a.Detected? && a.result.status == CONFLICT_RESOLVED then order else [];
      WinningKeepsLinks(w, a.world, e.id, beaten);
    }
  }

  /** An admission keeps the links sound even when its Redis calls fail. */
  lemma AdmissionKeepsLinks(w: World, e: Event, env: Env, order: seq<EventId>)
    requires LinksSound(w) && CanAdmit(w, e, env, order)
    ensures LinksSound(Admit(w, e, env, order).world)
  {
    AdmissionStatuses(w, e, env, order);
    ResolutionLog(Checked(w, e, env), e, env, Found(w, e, env), order);
    EffectsKeepLinks(w, e, Found(w, e, env).Keys, order, Admit(w, e, env, order));
  }

  lemma OtherStepsKeepLinks(w: World, w': World)
    requires LinksSound(w)
    requires WellFormed(w') && w'.supersessions == w.supersessions && w.events.Keys <= w'.events.Keys
    requires forall id :: id in w'.status ==>
      (w'.status[id] == SUPERSEDED <==> id in w.status && w.status[id] == SUPERSEDED)
    ensures LinksSound(w')
  {
    forall i | 0 <= i < |w'.supersessions| ensures BeatenBySurvivors(w', i) {
      assert BeatenBySurvivors(w, i);
    }
  }

  // ---- What soundness means: chains of links are finite and end at a survivor ----

  ghost predicate Beat(w: World, loser: EventId, winner: EventId) {
    exists i :: 0 <= i < |w.supersessions|
      && w.supersessions[i].loser == loser && winner in w.supersessions[i].winners
  }

  ghost predicate IsChain(w: World, chain: seq<EventId>) {
    chain != [] && forall k :: 0 <= k < |chain| - 1 ==> Beat(w, chain[k], chain[k + 1])
  }

  /** How many supersessions happened after the event was itself superseded. */
  ghost function Later(w: World, id: EventId): nat {
    if i :| 0 <= i < |w.supersessions| && w.supersessions[i].loser == id
    then |w.supersessions| - i
    else 0
  }

  lemma LoserInPrefix(log: seq<Supersession>, n: nat, j: nat)
    requires j < n <= |log|
    ensures IsLoser(log[..n], log[j].loser)
  {
    assert log[..n][j] == log[j];
  }

  lemma LinksMoveForward(w: World, loser: EventId, winner: EventId)
    requires LinksSound(w) && Beat(w, loser, winner)
    ensures Later(w, winner) < Later(w, loser)
  {
    var i :| 0 <= i < |w.supersessions|
      && w.supersessions[i].loser == loser && winner in w.supersessions[i].winners;
    assert BeatenBySurvivors(w, i);
    if IsLoser(w.supersessions, winner) {
      var j :| 0 <= j < |w.supersessions| && w.supersessions[j].loser == winner;
      if j <= i { LoserInPrefix(w.supersessions, i + 1, j); }
    }
  }

  /** No event occurs twice in a chain, and no chain is longer than the log of supersessions. */
  lemma {:induction false} ChainsAreFinite(w: World, chain: seq<EventId>)
    requires LinksSound(w) && IsChain(w, chain)
    ensures |chain| <= Later(w, chain[0]) + 1 <= |w.supersessions| + 1
    ensures forall k :: 0 < k < |chain| ==> Later(w, chain[k]) < Later(w, chain[0])
    ensures Distinct(chain)
  {
    if |chain| == 1 {
    } else {
      var rest := chain[1..];
      assert IsChain(w, rest) by {
        forall k | 0 <= k < |rest| - 1 ensures Beat(w, rest[k], rest[k + 1]) {
          assert Beat(w, chain[k + 1], chain[k + 2]);
        }
      }
      assert Beat(w, chain[0], chain[1]);
      LinksMoveForward(w, chain[0], chain[1]);
      ChainsAreFinite(w, rest);
      forall k | 0 < k < |chain| ensures Later(w, chain[k]) < Later(w, chain[0]) {
        assert chain[k] == rest[k - 1];
      }
      forall i, j | 0 <= i < j < |chain| ensures chain[i] != chain[j] {
        if i > 0 { assert rest[i - 1] != rest[j - 1]; }
      }
    }
  }

  /** A chain can be continued exactly while its last event is superseded. */
  lemma ChainsStopAtSurvivors(w: World, chain: seq<EventId>)
    requires LinksSound(w) && IsChain(w, chain) && chain[|chain| - 1] in w.events
    ensures (exists next :: IsChain(w, chain + [next])) <==> w.status[chain[|chain| - 1]] == SUPERSEDED
  {
    var last := chain[|chain| - 1];
    if w.status[last] == SUPERSEDED {
      var i :| 0 <= i < |w.supersessions| && w.supersessions[i].loser == last;
      assert BeatenBySurvivors(w, i);
      var next :| next in w.supersessions[i].winners;
      var longer := chain + [next];
      forall k | 0 <= k < |longer| - 1 ensures Beat(w, longer[k], longer[k + 1]) {
        if k < |chain| - 1 { assert Beat(w, chain[k], chain[k + 1]); }
      }
      assert IsChain(w, longer);
    }
    if next :| IsChain(w, chain + [next]) {
      assert Beat(w, (chain + [next])[|chain| - 1], (chain + [next])[|chain|]);
      assert IsLoser(w.supersessions, last);
    }
  }

  /** Following the links from any event ends at an event that is not superseded. */
  lemma {:induction false} SurvivorExists(w: World, id: EventId) returns (chain: seq<EventId>)
    requires LinksSound(w) && id in w.events
    ensures IsChain(w, chain) && chain[0] == id
    ensures chain[|chain| - 1] in w.events && w.status[chain[|chain| - 1]] != SUPERSEDED
    decreases Later(w, id)
  {
    chain := [id];
    if w.status[id] == SUPERSEDED {
      var i :| 0 <= i < |w.supersessions| && w.supersessions[i].loser == id;
      assert BeatenBySurvivors(w, i);
      var winner :| winner in w.supersessions[i].winners;
      LinksMoveForward(w, id, winner);
      var rest := SurvivorExists(w, winner);
      chain := [id] + rest;
      forall k | 0 <= k < |chain| - 1 ensures Beat(w, chain[k], chain[k + 1]) {
        if k > 0 { assert Beat(w, rest[k - 1], rest[k]); }
      }
    }
  }
}
