/** Manual review: one item per parked conflict, in step with it, and at most one verdict. */
module ReviewDiscipline {
  import opened Domain
  import opened Conflicts
  import opened ConflictSafety

  datatype Step =
    | Detecting(e: Event, env: Env, order: seq<EventId>)
    | Reviewing(conflictId: nat, input: ReviewInput)
    | Elsewhere

  /** Everything else the backend does leaves conflicts and review items alone. */
  ghost predicate IsStep(w: World, step: Step, w': World) {
    match step
    case Detecting(e, env, order) => CanAdmit(w, e, env, order) && w' == Admit(w, e, env, order).world
    case Reviewing(id, input) =>
      w' == (match Review(w, id, input) case Reviewed(world) => world case Refused(_) => w)
    case Elsewhere => w'.conflicts == w.conflicts && w'.reviewItems == w.reviewItems
  }

  ghost predicate IsRun(trace: seq<World>, steps: seq<Step>) {
    && |trace| == |steps| + 1
    && forall i :: 0 <= i < |steps| ==> StepAt(trace, steps, i)
  }

  ghost predicate StepAt(trace: seq<World>, steps: seq<Step>, i: nat)
    requires i < |steps| && |trace| == |steps| + 1
  {
    IsStep(trace[i], steps[i], trace[i + 1])
  }

  predicate WasParked(conflict: Conflict) {
    conflict.resolution in {REVIEW_REQUIRED, REJECTED_AFTER_REVIEW}
  }

  ghost predicate ItemMatches(w: World, k: nat)
    requires k < |w.reviewItems|
  {
    var item := w.reviewItems[k];
    && item.conflictId < |w.conflicts|
    && WasParked(w.conflicts[item.conflictId])
    && w.conflicts[item.conflictId].reviewStatus == Some(item.status)
    && w.conflicts[item.conflictId].eventId == item.eventId
  }

  ghost predicate HasItem(w: World, id: nat) {
    exists k :: 0 <= k < |w.reviewItems| && w.reviewItems[k].conflictId == id
  }

  /** Parked conflicts and review items are in one-to-one correspondence, with equal statuses. */
  ghost predicate InStep(w: World) {
    && (forall j, k :: 0 <= j < k < |w.reviewItems| ==>
      w.reviewItems[j].conflictId != w.reviewItems[k].conflictId)
    && (forall k :: 0 <= k < |w.reviewItems| ==> ItemMatches(w, k))
    && (forall id :: 0 <= id < |w.conflicts| && WasParked(w.conflicts[id]) ==> HasItem(w, id))
  }

  // ---- Each step keeps it ----

  /** A detection appends conflicts, and items for exactly those it parks. */
  ghost predicate Appended(w: World, w': World, e: Event, groups: map<EventId, set<FieldPath>>, order: seq<EventId>)
    requires forall id :: id in order ==> id in groups
  {
    || (w'.conflicts == w.conflicts && w'.reviewItems == w.reviewItems)
    || (w'.conflicts == w.conflicts + ConflictsWith(e, groups, order, REVIEW_REQUIRED, Some(OPEN))
        && w'.reviewItems == w.reviewItems + ItemsFor(e, |w.conflicts|, |order|))
    || (w'.conflicts == w.conflicts + ConflictsWith(e, groups, order, LOST, None)
        && w'.reviewItems == w.reviewItems)
    || (w'.conflicts == w.conflicts + ConflictsWith(e, groups, order, AUTO_RESOLVED, None)
        && w'.reviewItems == w.reviewItems)
  }

  lemma ResolutionAppends(v: World, e: Event, env: Env, groups: map<EventId, set<FieldPath>>, order: seq<EventId>)
    requires groups.Keys <= v.events.Keys
    requires forall id :: id in order ==> id in groups
    ensures Appended(v, Recorded(e, Resolve(v, e, env, groups, order)).world, e, groups, order)
  {
  }

  lemma AppendingKeepsInStep(w: World, w': World, e: Event, groups: map<EventId, set<FieldPath>>, order: seq<EventId>)
    requires forall id :: id in order ==> id in groups
    requires InStep(w) && Appended(w, w', e, groups, order)
    ensures InStep(w')
    ensures |w'.conflicts| >= |w.conflicts|
    ensures forall id :: 0 <= id < |w.conflicts| ==> w'.conflicts[id] == w.conflicts[id]
  {
    var n, m := |w.conflicts|, |w.reviewItems|;
    forall k | 0 <= k < |w'.reviewItems| ensures ItemMatches(w', k) {
      if k < m { assert ItemMatches(w, k); }
    }
    forall j, k | 0 <= j < k < |w'.reviewItems|
      ensures w'.reviewItems[j].conflictId != w'.reviewItems[k].conflictId
    {
      if j < m { assert ItemMatches(w, j); }
    }
    forall id | 0 <= id < |w'.conflicts| && WasParked(w'.conflicts[id]) ensures HasItem(w', id) {
      if id < n {
        assert HasItem(w, id);
        var k :| 0 <= k < m && w.reviewItems[k].conflictId == id;
        assert w'.reviewItems[k].conflictId == id;
      } else {
        assert w'.reviewItems[m + (id - n)].conflictId == id;
      }
    }
  }

  lemma ReviewingKeepsInStep(w: World, id: nat, input: ReviewInput)
    requires InStep(w) && Review(w, id, input).Reviewed?
    ensures InStep(Review(w, id, input).world)
  {
    var w' := Review(w, id, input).world;
    forall k | 0 <= k < |w'.reviewItems| ensures ItemMatches(w', k) {
      assert ItemMatches(w, k);
    }
    forall other | 0 <= other < |w'.conflicts| && WasParked(w'.conflicts[other]) ensures HasItem(w', other) {
      assert HasItem(w, other);
      var k :| 0 <= k < |w.reviewItems| && w.reviewItems[k].conflictId == other;
      assert w'.reviewItems[k].conflictId == other;
    }
  }

  lemma StepKeepsInStep(w: World, step: Step, w': World)
    requires InStep(w) && IsStep(w, step, w')
    ensures InStep(w')
    ensures |w'.conflicts| >= |w.conflicts|
    ensures forall id :: 0 <= id < |w.conflicts| ==>
      w'.conflicts[id] == w.conflicts[id]
      || (step.Reviewing? && step.conflictId == id && Review(w, id, step.input).Reviewed?)
  {
    match step
    case Detecting(e, env, order) =>
      ResolutionAppends(Checked(w, e, env), e, env, Found(w, e, env), order);
      AppendingKeepsInStep(w, w', e, Found(w, e, env), order);
    case Reviewing(id, input) =>
      if Review(w, id, input).Reviewed? {
        ReviewingKeepsInStep(w, id, input);
      }
    case Elsewhere =>
      forall k | 0 <= k < |w'.reviewItems| ensures ItemMatches(w', k) {
        assert ItemMatches(w, k);
      }
      forall id | 0 <= id < |w'.conflicts| && WasParked(w'.conflicts[id]) ensures HasItem(w', id) {
        assert HasItem(w, id);
      }
  }

  /** In every reachable state each parked conflict has exactly one item, and their statuses agree. */
  lemma {:induction false} ItemsStayInStep(trace: seq<World>, steps: seq<Step>, n: nat)
    requires IsRun(trace, steps) && n <= |steps|
    requires trace[0].conflicts == [] && trace[0].reviewItems == []
    ensures InStep(trace[n])
  {
    if n == 0 {
    } else {
      ItemsStayInStep(trace, steps, n - 1);
      assert StepAt(trace, steps, n - 1);
      StepKeepsInStep(trace[n - 1], steps[n - 1], trace[n]);
    }
  }

  // ---- At most one verdict ----

  ghost predicate Accepted(trace: seq<World>, steps: seq<Step>, i: nat, id: nat)
    requires i < |steps| && i < |trace|
  {
    steps[i].Reviewing? && steps[i].conflictId == id && Review(trace[i], id, steps[i].input).Reviewed?
  }

  ghost function Verdicts(trace: seq<World>, steps: seq<Step>, from: nat, to: nat, id: nat): nat
    requires from <= to <= |steps| && |trace| == |steps| + 1
  {
    if from == to then 0
    else Verdicts(trace, steps, from, to - 1, id) + if Accepted(trace, steps, to - 1, id) then 1 else 0
  }

  /** A recorded verdict: no later review of this conflict can be accepted. */
  predicate Closed(conflict: Conflict) {
    conflict.reviewStatus in {Some(APPROVED), Some(REJECTED)}
  }

  /** One step leaves a conflict alone, or gives it the one verdict it was awaiting. */
  lemma NextVerdict(trace: seq<World>, steps: seq<Step>, n: nat, id: nat)
    requires IsRun(trace, steps) && n < |steps| && InStep(trace[n]) && id < |trace[n].conflicts|
    ensures InStep(trace[n + 1]) && id < |trace[n + 1].conflicts|
    ensures if Accepted(trace, steps, n, id)
      then AwaitsReview(trace[n].conflicts[id]) && Closed(trace[n + 1].conflicts[id])
      else trace[n + 1].conflicts[id] == trace[n].conflicts[id]
  {
    assert StepAt(trace, steps, n);
    StepKeepsInStep(trace[n], steps[n], trace[n + 1]);
  }

  /**
   * From the moment it is recorded, a conflict accepts at most one review: none unless it was parked
   * and awaiting one, and exactly one if it ends with a verdict.
   */
  lemma {:induction false} AtMostOneVerdict(trace: seq<World>, steps: seq<Step>, from: nat, to: nat, id: nat)
    requires IsRun(trace, steps) && from <= to <= |steps|
    requires InStep(trace[from]) && id < |trace[from].conflicts|
    ensures InStep(trace[to]) && id < |trace[to].conflicts|
    ensures Verdicts(trace, steps, from, to, id) <= 1
    ensures Verdicts(trace, steps, from, to, id) == 0 ==> trace[to].conflicts[id] == trace[from].conflicts[id]
    ensures Verdicts(trace, steps, from, to, id) == 1 ==>
      AwaitsReview(trace[from].conflicts[id]) && Closed(trace[to].conflicts[id])
    ensures !Closed(trace[from].conflicts[id]) ==>
      (Verdicts(trace, steps, from, to, id) == 1 <==> Closed(trace[to].conflicts[id]))
  {
    if from == to {
    } else {
      AtMostOneVerdict(trace, steps, from, to - 1, id);
      NextVerdict(trace, steps, to - 1, id);
    }
  }

  /** The review answers: what is accepted, and which error is reported otherwise. */
  lemma ReviewAnswers(w: World, id: nat, input: ReviewInput)
    ensures Review(w, id, input).Reviewed? <==>
      && id < |w.conflicts| && AwaitsReview(w.conflicts[id])
      && NormalizeReviewAction(input).Some? && Reviewer(input) != ""
    ensures id < |w.conflicts| && Closed(w.conflicts[id]) ==>
      Review(w, id, input) == Refused(NOT_AWAITING_REVIEW)
    ensures id >= |w.conflicts| ==> Review(w, id, input) == Refused(NOT_FOUND)
  {
  }

  /** What an accepted verdict changes, and that it changes nothing else. */
  lemma VerdictTakesEffect(w: World, id: nat, input: ReviewInput)
    requires InStep(w) && Review(w, id, input).Reviewed?
    requires id < |w.conflicts| && w.conflicts[id].eventId in w.status
    ensures var w' := Review(w, id, input).world;
      var rejected := NormalizeReviewAction(input) == Some(REJECT);
      var e := w.conflicts[id].eventId;
      && w'.status == w.status[e := if rejected then SUPERSEDED else CONFLICT_RESOLVED]
      && |w'.conflicts| == |w.conflicts|
      && w'.conflicts[id].reviewStatus == Some(if rejected then REJECTED else APPROVED)
      && w'.conflicts[id].resolution == (if rejected then REJECTED_AFTER_REVIEW else REVIEW_REQUIRED)
      && w'.conflicts[id].reviewedBy == Some(Reviewer(input))
      && (forall k :: 0 <= k < |w.conflicts| && k != id ==> w'.conflicts[k] == w.conflicts[k])
      && w'.events == w.events && w'.pen == w.pen && w'.supersessions == w.supersessions
  {
  }

  /** The whole effect of an accepted review, for each action and way of naming the reviewer. */
  lemma ReviewSpelledOut(w: World, id: nat, approve: bool, name: string)
    requires id < |w.conflicts| && name != ""
    requires w.conflicts[id].resolution == REVIEW_REQUIRED
    requires w.conflicts[id].reviewStatus in {None, Some(OPEN), Some(IN_REVIEW)}
    ensures var action := Some(if approve then APPROVE else REJECT);
      var outcome := Some(if approve then SOURCE_ACCEPTED else REJECTED_OUTCOME);
      var conflict, e := w.conflicts[id], w.conflicts[id].eventId;
      var verdict := if approve then APPROVED else REJECTED;
      var result := Review(w, id, ReviewInput(action, None, Some(name), None));
      && Review(w, id, ReviewInput(action, None, None, Some(name))) == result
      && Review(w, id, ReviewInput(None, outcome, Some(name), Some("other"))) == result
      && result.Reviewed?
      && result.world.conflicts == w.conflicts[id := Conflict(
           e, conflict.competingId, conflict.fields, if approve then REVIEW_REQUIRED else REJECTED_AFTER_REVIEW,
           Some(verdict), Some(name))]
      && result.world.status == w.status[e := if approve then CONFLICT_RESOLVED else SUPERSEDED]
      && (forall k :: 0 <= k < |w.reviewItems| ==>
        result.world.reviewItems[k] == if w.reviewItems[k].conflictId == id
          then ReviewItem(id, w.reviewItems[k].eventId, verdict) else w.reviewItems[k])
      && result.world == w.(conflicts := result.world.conflicts, reviewItems := result.world.reviewItems,
                            status := result.world.status)
  {
  }

  /** Parked, and not yet approved or rejected. */
  predicate Undecided(conflict: Conflict) {
    conflict.resolution == REVIEW_REQUIRED && conflict.reviewStatus in {None, Some(OPEN), Some(IN_REVIEW)}
  }

  /** And the refusals, in the order of the checks. */
  lemma RefusalsSpelledOut(w: World, id: nat, input: ReviewInput)
    ensures id >= |w.conflicts| ==> Review(w, id, input) == Refused(NOT_FOUND)
    ensures id < |w.conflicts| && !Undecided(w.conflicts[id]) ==> Review(w, id, input) == Refused(NOT_AWAITING_REVIEW)
    ensures id < |w.conflicts| && Undecided(w.conflicts[id]) ==>
      && (input.action.None? && input.outcome in {None, Some(PENDING_REVIEW)} ==>
        Review(w, id, input) == Refused(NO_ACTION))
      && (input.action.Some? && input.reviewedBy.None? && input.reviewerId.None? ==>
        Review(w, id, input) == Refused(NO_REVIEWER))
      && (input.action.Some? && input.reviewedBy == Some("") ==> Review(w, id, input) == Refused(NO_REVIEWER))
  {
  }
}
