/** Conflict detection, authority-based resolution and manual review. */
module Conflicts {
  import opened Domain
  import opened Authority
  import opened HoldingPen

  datatype ResolutionStatus = AUTO_RESOLVED | LOST | REVIEW_REQUIRED | REJECTED_AFTER_REVIEW

  datatype ReviewStatus = OPEN | IN_REVIEW | APPROVED | REJECTED

  datatype Conflict = Conflict(
    eventId: EventId, competingId: EventId, fields: set<FieldPath>,
    resolution: ResolutionStatus, reviewStatus: Option<ReviewStatus>, reviewedBy: Option<string>)

  datatype ReviewItem = ReviewItem(conflictId: nat, eventId: EventId, status: ReviewStatus)

  /** One SUPERSEDED write of conflict resolution, with the supersededBy ids it stores. */
  datatype Supersession = Supersession(loser: EventId, winners: set<EventId>)

  /** The tables the conflict service reads and writes. A conflict's id is its position. */
  datatype World = World(
    events: map<EventId, Event>,
    status: map<EventId, EventStatus>,
    pen: Pen,
    conflicts: seq<Conflict>,
    reviewItems: seq<ReviewItem>,
    supersessions: seq<Supersession>)

  /** What a detection reads from its surroundings: configuration, clocks and Redis failures. */
  datatype Env = Env(matrix: Matrix, windowSeconds: nat, checkNow: int, addNow: int, faults: Faults)

  datatype DetectionResult = DetectionResult(
    conflictIds: seq<nat>, shouldContinue: bool, status: EventStatus, superseded: bool)

  /** A missing authority rule is an exception: nothing after the pen check has happened. */
  datatype Detection =
    | RuleMissing(world: World)
    | Detected(world: World, result: DetectionResult)

  ghost predicate Enumerates<T(!new)>(order: seq<T>, keys: set<T>) {
    Distinct(order) && forall x :: x in order <==> x in keys
  }

  ghost predicate WellFormed(w: World) {
    && w.status.Keys == w.events.Keys
    && (forall id :: id in w.events ==> w.events[id].id == id)
  }

  // ---- Candidates ----

  predicate Competes(w: World, e: Event, id: EventId) {
    && id in w.events && id in w.status
    && w.events[id].source != e.source
    && w.status[id] != SUPERSEDED
  }

  function FieldsOf(raw: set<Candidate>, id: EventId): set<FieldPath> {
    set c | c in raw && c.eventId == id :: c.path
  }

  /** getConflictCandidateGroups: candidates grouped by event, without own-system and superseded ones. */
  function Groups(w: World, e: Event, raw: set<Candidate>): (groups: map<EventId, set<FieldPath>>)
    ensures groups.Keys <= w.events.Keys * w.status.Keys
    ensures forall id :: id in groups ==> groups[id] != {}
  {
    assert forall c :: c in raw ==> c.path in FieldsOf(raw, c.eventId);
    map id | id in (set c | c in raw && Competes(w, e, c.eventId) :: c.eventId) :: FieldsOf(raw, id)
  }

  predicate AllCovered(matrix: Matrix, groups: map<EventId, set<FieldPath>>) {
    forall id :: id in groups ==> Covers(matrix, groups[id])
  }

  /** Some competing event ends in the given outcome. */
  predicate Ends(w: World, e: Event, matrix: Matrix, groups: map<EventId, set<FieldPath>>, outcome: CandidateOutcome)
    requires groups.Keys <= w.events.Keys && AllCovered(matrix, groups)
  {
    exists id :: id in groups && Outcome(matrix, e, w.events[id], groups[id]) == outcome
  }

  // ---- Resolution ----

  function ConflictsWith(
    e: Event, groups: map<EventId, set<FieldPath>>, order: seq<EventId>,
    resolution: ResolutionStatus, review: Option<ReviewStatus>): (conflicts: seq<Conflict>)
    requires forall id :: id in order ==> id in groups
    ensures |conflicts| == |order|
  {
    seq(|order|, i requires 0 <= i < |order| =>
      Conflict(e.id, order[i], groups[order[i]], resolution, review, None))
  }

  function ItemsFor(e: Event, first: nat, count: nat): (items: seq<ReviewItem>)
    ensures |items| == count
  {
    seq(count, i requires 0 <= i < count => ReviewItem(first + i, e.id, OPEN))
  }

  function Ids(first: nat, count: nat): seq<nat> {
    seq(count, i requires 0 <= i < count => first + i)
  }

  function SupersededBy(order: seq<EventId>, winner: EventId): (log: seq<Supersession>)
    ensures |log| == |order|
  {
    seq(|order|, i requires 0 <= i < |order| => Supersession(order[i], {winner}))
  }

  function Park(w: World, e: Event, env: Env, groups: map<EventId, set<FieldPath>>, order: seq<EventId>): Detection
    requires forall id :: id in order ==> id in groups
  {
    var first := |w.conflicts|;
    Detected(
      w.(conflicts := w.conflicts + ConflictsWith(e, groups, order, REVIEW_REQUIRED, Some(OPEN)),
         reviewItems := w.reviewItems + ItemsFor(e, first, |order|),
         status := w.status[e.id := MANUAL_REVIEW_REQUIRED],
         pen := AddToHoldingPen(w.pen, e, env.windowSeconds, env.addNow, env.faults)),
      DetectionResult(Ids(first, |order|), false, MANUAL_REVIEW_REQUIRED, false))
  }

  function Lose(w: World, e: Event, groups: map<EventId, set<FieldPath>>, order: seq<EventId>): Detection
    requires forall id :: id in order ==> id in groups
  {
    Detected(
      w.(conflicts := w.conflicts + ConflictsWith(e, groups, order, LOST, None),
         status := w.status[e.id := SUPERSEDED],
         supersessions := w.supersessions + [Supersession(e.id, groups.Keys)]),
      DetectionResult(Ids(|w.conflicts|, |order|), false, SUPERSEDED, true))
  }

  function Superseding(status: map<EventId, EventStatus>, losers: set<EventId>): map<EventId, EventStatus> {
    map id | id in status :: if id in losers then SUPERSEDED else status[id]
  }

  function Win(w: World, e: Event, env: Env, groups: map<EventId, set<FieldPath>>, order: seq<EventId>): Detection
    requires forall id :: id in order ==> id in groups
  {
    Detected(
      w.(conflicts := w.conflicts + ConflictsWith(e, groups, order, AUTO_RESOLVED, None),
         status := Superseding(w.status, groups.Keys)[e.id := CONFLICT_RESOLVED],
         supersessions := w.supersessions + SupersededBy(order, e.id),
         pen := AddToHoldingPen(w.pen, e, env.windowSeconds, env.addNow, env.faults)),
      DetectionResult(Ids(|w.conflicts|, |order|), true, CONFLICT_RESOLVED, false))
  }

  function Resolve(w: World, e: Event, env: Env, groups: map<EventId, set<FieldPath>>, order: seq<EventId>): Detection
    requires groups.Keys <= w.events.Keys
    requires forall id :: id in order ==> id in groups
  {
    if groups == map[] then
      Detected(w.(pen := AddToHoldingPen(w.pen, e, env.windowSeconds, env.addNow, env.faults)),
               DetectionResult([], true, CONFLICT_CHECKED, false))
    else if !AllCovered(env.matrix, groups) then RuleMissing(w)
    else
      var wins := Ends(w, e, env.matrix, groups, CURRENT_WINS);
      var loses := Ends(w, e, env.matrix, groups, CURRENT_LOSES);
      if Ends(w, e, env.matrix, groups, NEEDS_REVIEW) || (wins && loses) then Park(w, e, env, groups, order)
      else if loses then Lose(w, e, groups, order)
      else Win(w, e, env, groups, order)
  }

  function Checked(w: World, e: Event, env: Env): World {
    w.(pen := CheckForConflicts(w.pen, e, env.windowSeconds, env.checkNow, env.faults).0)
  }

  /** The competing events this detection will find. */
  function Found(w: World, e: Event, env: Env): (groups: map<EventId, set<FieldPath>>)
    ensures groups.Keys <= w.events.Keys * w.status.Keys
    ensures forall id :: id in groups ==> groups[id] != {}
  {
    Groups(w, e, CheckForConflicts(w.pen, e, env.windowSeconds, env.checkNow, env.faults).1)
  }

  /** detectAndResolve; order is the order in which the database returned the competing rows. */
  function Detect(w: World, e: Event, env: Env, order: seq<EventId>): Detection
    requires forall id :: id in order ==> id in Found(w, e, env)
  {
    Resolve(Checked(w, e, env), e, env, Found(w, e, env), order)
  }

  /** What the caller of detectAndResolve sees: a result, or the exception of a missing rule. */
  function Seen(outcome: Option<DetectionResult>, world: World): Detection {
    match outcome case None => RuleMissing(world) case Some(result) => Detected(world, result)
  }

  // ---- Manual review ----

  datatype ReviewAction = APPROVE | REJECT

  datatype ReviewOutcome = PENDING_REVIEW | SOURCE_ACCEPTED | TARGET_ACCEPTED | MERGED | REJECTED_OUTCOME

  datatype ReviewInput = ReviewInput(
    action: Option<ReviewAction>, outcome: Option<ReviewOutcome>,
    reviewedBy: Option<string>, reviewerId: Option<string>)

  datatype ReviewError = NOT_FOUND | NOT_AWAITING_REVIEW | NO_ACTION | NO_REVIEWER

  datatype ReviewResult = Reviewed(world: World) | Refused(error: ReviewError)

  function NormalizeReviewAction(input: ReviewInput): (action: Option<ReviewAction>)
    ensures action.None? <==> input.action.None? && input.outcome in {None, Some(PENDING_REVIEW)}
    ensures input.action.None? ==> (action == Some(REJECT) <==> input.outcome == Some(REJECTED_OUTCOME))
    ensures input.action.Some? ==> action == input.action
  {
    if input.action.Some? then input.action
    else match input.outcome
      case Some(REJECTED_OUTCOME) => Some(REJECT)
      case Some(MERGED) => Some(APPROVE)
      case Some(SOURCE_ACCEPTED) => Some(APPROVE)
      case Some(TARGET_ACCEPTED) => Some(APPROVE)
      case _ => None
  }

  function Reviewer(input: ReviewInput): string {
    match (input.reviewedBy, input.reviewerId)
    case (Some(name), _) => name
    case (None, Some(name)) => name
    case _ => ""
  }

  predicate AwaitsReview(conflict: Conflict) {
    conflict.resolution == REVIEW_REQUIRED && conflict.reviewStatus in {None, Some(OPEN), Some(IN_REVIEW)}
  }

  function StatusFor(action: ReviewAction): ReviewStatus {
    if action == REJECT then REJECTED else APPROVED
  }

  function ReviewedConflict(conflict: Conflict, action: ReviewAction, reviewer: string): Conflict {
    conflict.(resolution := if action == REJECT then REJECTED_AFTER_REVIEW else conflict.resolution,
              reviewStatus := Some(StatusFor(action)),
              reviewedBy := Some(reviewer))
  }

  function ReviewedItems(items: seq<ReviewItem>, conflictId: nat, status: ReviewStatus): (updated: seq<ReviewItem>)
    ensures |updated| == |items|
  {
    seq(|items|, i requires 0 <= i < |items| =>
      if items[i].conflictId == conflictId then items[i].(status := status) else items[i])
  }

  function Review(w: World, conflictId: nat, input: ReviewInput): ReviewResult {
    if conflictId >= |w.conflicts| then Refused(NOT_FOUND)
    else
      var conflict := w.conflicts[conflictId];
      var action := NormalizeReviewAction(input);
      if !AwaitsReview(conflict) then Refused(NOT_AWAITING_REVIEW)
      else if action.None? then Refused(NO_ACTION)
      else if Reviewer(input) == "" then Refused(NO_REVIEWER)
      else
        Reviewed(w.(
          conflicts := w.conflicts[conflictId := ReviewedConflict(conflict, action.value, Reviewer(input))],
          reviewItems := ReviewedItems(w.reviewItems, conflictId, StatusFor(action.value)),
          status := w.status[conflict.eventId :=
            if action.value == REJECT then SUPERSEDED else CONFLICT_RESOLVED]))
  }

  // ---- The service: step by step over its tables ----

  class ConflictService {
    const pen: RedisPen
    const matrix: Matrix
    var events: map<EventId, Event>
    var status: map<EventId, EventStatus>
    var conflicts: seq<Conflict>
    var reviewItems: seq<ReviewItem>
    var supersessions: seq<Supersession>

    ghost function Abs(): World
      reads this, pen
    {
      World(events, status, pen.buckets, conflicts, reviewItems, supersessions)
    }

    ghost predicate Valid()
      reads this, pen
    {
      WellFormed(Abs())
    }

    constructor (windowSeconds: nat, matrix: Matrix)
      ensures Valid() && fresh(pen)
      ensures pen.windowSeconds == windowSeconds && this.matrix == matrix
      ensures Abs() == World(map[], map[], map[], [], [], [])
    {
      pen := new RedisPen(windowSeconds);
      this.matrix := matrix;
      events, status, conflicts, reviewItems, supersessions := map[], map[], [], [], [];
    }

    /** findMany by id: the rows come back in an order the caller cannot rely on. */
    method FindMany(ids: set<EventId>) returns (rows: seq<EventId>)
      ensures Enumerates(rows, ids * events.Keys)
    {
      var todo := ids;
      rows := [];
      while todo != {}
        invariant todo <= ids
        invariant Enumerates(rows, (ids - todo) * events.Keys)
        decreases todo
      {
        var id :| id in todo;
        ghost var done := ids - todo;
        todo := todo - {id};
        assert ids - todo == done + {id};
        assert id !in rows;
        if id in events {
          rows := rows + [id];
        }
      }
    }

    /** The candidates grouped by event id, each with its set of field paths. */
    method GroupCandidates(raw: set<Candidate>) returns (grouped: map<EventId, set<FieldPath>>)
      ensures forall id :: id in grouped <==> exists c :: c in raw && c.eventId == id
      ensures forall id :: id in grouped ==> grouped[id] == FieldsOf(raw, id)
    {
      grouped := map[];
      var todo := raw;
      while todo != {}
        invariant todo <= raw
        invariant forall id :: id in grouped <==> exists c :: c in raw - todo && c.eventId == id
        invariant forall id :: id in grouped ==> grouped[id] == FieldsOf(raw - todo, id)
        decreases todo
      {
        var c :| c in todo;
        ghost var done := raw - todo;
        var fields := if c.eventId in grouped then grouped[c.eventId] else {};
        grouped := grouped[c.eventId := fields + {c.path}];
        todo := todo - {c};
        assert raw - todo == done + {c};
        GroupOneMore(done, c, grouped);
      }
      assert raw - {} == raw;
    }

    /** The rows of other systems that are not superseded, in the order the database returned them. */
    method KeepCompeting(e: Event, grouped: map<EventId, set<FieldPath>>, rows: seq<EventId>)
      returns (groups: map<EventId, set<FieldPath>>, order: seq<EventId>)
      requires Valid() && Distinct(rows)
      requires forall id :: id in rows ==> id in grouped && id in events
      ensures forall id :: id in groups <==> id in rows && Competes(Abs(), e, id)
      ensures forall id :: id in groups ==> groups[id] == grouped[id]
      ensures Enumerates(order, groups.Keys)
    {
      groups, order := map[], [];
      for i := 0 to |rows|
        invariant forall id :: id in groups <==> id in rows[..i] && Competes(Abs(), e, id)
        invariant forall id :: id in groups ==> groups[id] == grouped[id]
        invariant Enumerates(order, groups.Keys)
      {
        assert rows[..i + 1] == rows[..i] + [rows[i]];
        assert rows[i] !in rows[..i];
        assert rows[i] in rows;
        if events[rows[i]].source != e.source && status[rows[i]] != SUPERSEDED {
          groups := groups[rows[i] := grouped[rows[i]]];
          order := order + [rows[i]];
        }
      }
      assert rows[..|rows|] == rows;
    }

    method GetConflictCandidateGroups(e: Event, now: int, faults: Faults)
      returns (groups: map<EventId, set<FieldPath>>, order: seq<EventId>)
      requires Valid()
      modifies pen
      ensures Abs() == old(Abs()).(pen := CheckForConflicts(old(pen.buckets), e, pen.windowSeconds, now, faults).0)
      ensures groups == Groups(Abs(), e, CheckForConflicts(old(pen.buckets), e, pen.windowSeconds, now, faults).1)
      ensures Enumerates(order, groups.Keys)
    {
      var raw := pen.Check(e, now, faults);
      assert pen.buckets == CheckForConflicts(old(pen.buckets), e, pen.windowSeconds, now, faults).0;
      assert raw == CheckForConflicts(old(pen.buckets), e, pen.windowSeconds, now, faults).1;
      var grouped := GroupCandidates(raw);
      var rows := FindMany(grouped.Keys);
      groups, order := KeepCompeting(e, grouped, rows);
      assert groups == Groups(Abs(), e, raw);
    }

    /** buildFieldDecisions and deriveCandidateOutcome for one competing event. */
    method Evaluate(e: Event, competing: Event, paths: set<FieldPath>) returns (outcome: Option<CandidateOutcome>)
      ensures outcome.None? <==> !Covers(matrix, paths)
      ensures outcome.Some? ==> outcome.value == Outcome(matrix, e, competing, paths)
    {
      var winners: set<Winner> := {};
      var todo := paths;
      while todo != {}
        invariant todo <= paths
        invariant Covers(matrix, paths - todo)
        invariant winners == Winners(matrix, e, competing, paths - todo)
        decreases todo
      {
        var path :| path in todo;
        var rule := GetAuthorityRule(matrix, path);
        if rule.None? {
          return None;
        }
        ghost var done := paths - todo;
        winners := winners + {ResolveFieldDecision(e, competing, rule.value)};
        todo := todo - {path};
        assert paths - todo == done + {path};
      }
      assert paths - {} == paths;
      outcome := Some(DeriveCandidateOutcome(winners));
    }

    method EvaluateAll(e: Event, groups: map<EventId, set<FieldPath>>, order: seq<EventId>)
      returns (verdicts: Option<set<CandidateOutcome>>)
      requires groups.Keys <= events.Keys
      requires Enumerates(order, groups.Keys)
      ensures verdicts.None? <==> !AllCovered(matrix, groups)
      ensures verdicts.Some? ==> forall outcome ::
        outcome in verdicts.value <==> Ends(Abs(), e, matrix, groups, outcome)
    {
      var found: set<CandidateOutcome> := {};
      ghost var cause: map<CandidateOutcome, EventId> := map[];
      for i := 0 to |order|
        invariant forall k :: 0 <= k < i ==> Covers(matrix, groups[order[k]])
        invariant forall k :: 0 <= k < i ==> Outcome(matrix, e, events[order[k]], groups[order[k]]) in found
        invariant forall outcome | outcome in found ::
          && outcome in cause && cause[outcome] in groups
          && Covers(matrix, groups[cause[outcome]])
          && Outcome(matrix, e, events[cause[outcome]], groups[cause[outcome]]) == outcome
      {
        var verdict := Evaluate(e, events[order[i]], groups[order[i]]);
        if verdict.None? {
          assert order[i] in groups;
          return None;
        }
        found := found + {verdict.value};
        cause := cause[verdict.value := order[i]];
      }
      assert AllCovered(matrix, groups) by {
        forall id | id in groups ensures Covers(matrix, groups[id]) { assert id in order; }
      }
      forall id | id in groups
        ensures Outcome(matrix, e, events[id], groups[id]) in found
      {
        assert id in order;
      }
      verdicts := Some(found);
    }

    /** The verdict over all competing events, and what follows from it. */
    method ResolveGroups(e: Event, env: Env, groups: map<EventId, set<FieldPath>>, order: seq<EventId>)
      returns (outcome: Option<DetectionResult>)
      requires Valid() && e.id in events && groups.Keys <= events.Keys
      requires Enumerates(order, groups.Keys)
      requires env.windowSeconds == pen.windowSeconds && env.matrix == matrix
      modifies this`status, this`conflicts, this`reviewItems, this`supersessions, pen
      ensures Valid()
      ensures Seen(outcome, Abs()) == Resolve(old(Abs()), e, env, groups, order)
    {
      if |order| == 0 {
        assert groups == map[] by { assert forall id :: id in groups ==> id in order; }
        pen.Add(e, env.addNow, env.faults);
        return Some(DetectionResult([], true, CONFLICT_CHECKED, false));
      }
      assert order[0] in groups;
      var verdicts := EvaluateAll(e, groups, order);
      if verdicts.None? {
        return None;
      }
      var review, wins, loses := NEEDS_REVIEW in verdicts.value,
        CURRENT_WINS in verdicts.value, CURRENT_LOSES in verdicts.value;
      var result;
      if review || (wins && loses) {
        result := ParkEvent(e, env, groups, order);
      } else if loses {
        result := LoseEvent(e, groups, order);
      } else {
        result := WinEvent(e, env, groups, order);
      }
      outcome := Some(result);
    }

    method DetectAndResolve(e: Event, env: Env)
      returns (outcome: Option<DetectionResult>, order: seq<EventId>)
      requires Valid() && e.id in events
      requires env.windowSeconds == pen.windowSeconds && env.matrix == matrix
      modifies this`status, this`conflicts, this`reviewItems, this`supersessions, pen
      ensures Valid()
      ensures Enumerates(order, Found(old(Abs()), e, env).Keys)
      ensures Seen(outcome, Abs()) == Detect(old(Abs()), e, env, order)
    {
      var groups;
      groups, order := GetConflictCandidateGroups(e, env.checkNow, env.faults);
      assert Abs() == Checked(old(Abs()), e, env) && groups == Found(old(Abs()), e, env);
      outcome := ResolveGroups(e, env, groups, order);
    }

    method ParkEvent(e: Event, env: Env, groups: map<EventId, set<FieldPath>>, order: seq<EventId>)
      returns (result: DetectionResult)
      requires forall id :: id in order ==> id in groups
      requires env.windowSeconds == pen.windowSeconds
      requires e.id in status
      modifies this`status, this`conflicts, this`reviewItems, this`supersessions, pen
      ensures Detected(Abs(), result) == Park(old(Abs()), e, env, groups, order)
      ensures status.Keys == old(status.Keys)
    {
      var conflictIds := CreateManualReviewArtifacts(e, groups, order);
      status := status[e.id := MANUAL_REVIEW_REQUIRED];
      pen.Add(e, env.addNow, env.faults);
      result := DetectionResult(conflictIds, false, MANUAL_REVIEW_REQUIRED, false);
    }

    method LoseEvent(e: Event, groups: map<EventId, set<FieldPath>>, order: seq<EventId>)
      returns (result: DetectionResult)
      requires Enumerates(order, groups.Keys)
      requires e.id in status
      modifies this`status, this`conflicts, this`supersessions
      ensures Detected(Abs(), result) == Lose(old(Abs()), e, groups, order)
      ensures status.Keys == old(status.Keys)
    {
      var conflictIds := CreateLostArtifacts(e, groups, order);
      var winners := set id | id in order;
      assert winners == groups.Keys;
      status := status[e.id := SUPERSEDED];
      supersessions := supersessions + [Supersession(e.id, winners)];
      result := DetectionResult(conflictIds, false, SUPERSEDED, true);
    }

    method WinEvent(e: Event, env: Env, groups: map<EventId, set<FieldPath>>, order: seq<EventId>)
      returns (result: DetectionResult)
      requires Enumerates(order, groups.Keys) && groups.Keys <= status.Keys
      requires env.windowSeconds == pen.windowSeconds
      requires e.id in status
      modifies this`status, this`conflicts, this`reviewItems, this`supersessions, pen
      ensures Detected(Abs(), result) == Win(old(Abs()), e, env, groups, order)
      ensures status.Keys == old(status.Keys)
    {
      var conflictIds := SupersedeCompetitors(e, groups, order);
      assert (set id | id in order) == groups.Keys;
      status := status[e.id := CONFLICT_RESOLVED];
      assert status == Superseding(old(status), groups.Keys)[e.id := CONFLICT_RESOLVED];
      pen.Add(e, env.addNow, env.faults);
      result := DetectionResult(conflictIds, true, CONFLICT_RESOLVED, false);
    }

    method CreateManualReviewArtifacts(e: Event, groups: map<EventId, set<FieldPath>>, order: seq<EventId>)
      returns (conflictIds: seq<nat>)
      requires forall id :: id in order ==> id in groups
      modifies this`conflicts, this`reviewItems
      ensures conflictIds == Ids(|old(conflicts)|, |order|)
      ensures conflicts == old(conflicts) + ConflictsWith(e, groups, order, REVIEW_REQUIRED, Some(OPEN))
      ensures reviewItems == old(reviewItems) + ItemsFor(e, |old(conflicts)|, |order|)
    {
      conflictIds := [];
      for i := 0 to |order|
        invariant conflictIds == Ids(|old(conflicts)|, i)
        invariant conflicts == old(conflicts) + ConflictsWith(e, groups, order, REVIEW_REQUIRED, Some(OPEN))[..i]
        invariant reviewItems == old(reviewItems) + ItemsFor(e, |old(conflicts)|, i)
      {
        var conflictId := |conflicts|;
        conflicts := conflicts + [Conflict(e.id, order[i], groups[order[i]], REVIEW_REQUIRED, Some(OPEN), None)];
        reviewItems := reviewItems + [ReviewItem(conflictId, e.id, OPEN)];
        conflictIds := conflictIds + [conflictId];
      }
    }

    method CreateLostArtifacts(e: Event, groups: map<EventId, set<FieldPath>>, order: seq<EventId>)
      returns (conflictIds: seq<nat>)
      requires forall id :: id in order ==> id in groups
      modifies this`conflicts
      ensures conflictIds == Ids(|old(conflicts)|, |order|)
      ensures conflicts == old(conflicts) + ConflictsWith(e, groups, order, LOST, None)
    {
      conflictIds := [];
      for i := 0 to |order|
        invariant conflictIds == Ids(|old(conflicts)|, i)
        invariant conflicts == old(conflicts) + ConflictsWith(e, groups, order, LOST, None)[..i]
      {
        conflictIds := conflictIds + [|conflicts|];
        conflicts := conflicts + [Conflict(e.id, order[i], groups[order[i]], LOST, None, None)];
      }
    }

    method SupersedeCompetitors(e: Event, groups: map<EventId, set<FieldPath>>, order: seq<EventId>)
      returns (conflictIds: seq<nat>)
      requires forall id :: id in order ==> id in groups && id in status
      modifies this`conflicts, this`status, this`supersessions
      ensures conflictIds == Ids(|old(conflicts)|, |order|)
      ensures conflicts == old(conflicts) + ConflictsWith(e, groups, order, AUTO_RESOLVED, None)
      ensures status == Superseding(old(status), set id | id in order)
      ensures status.Keys == old(status.Keys)
      ensures supersessions == old(supersessions) + SupersededBy(order, e.id)
    {
      conflictIds := [];
      for i := 0 to |order|
        invariant conflictIds == Ids(|old(conflicts)|, i)
        invariant conflicts == old(conflicts) + ConflictsWith(e, groups, order, AUTO_RESOLVED, None)[..i]
        invariant status == Superseding(old(status), set id | id in order[..i])
        invariant supersessions == old(supersessions) + SupersededBy(order, e.id)[..i]
      {
        conflictIds := conflictIds + [|conflicts|];
        conflicts := conflicts + [Conflict(e.id, order[i], groups[order[i]], AUTO_RESOLVED, None, None)];
        status := status[order[i] := SUPERSEDED];
        supersessions := supersessions + [Supersession(order[i], {e.id})];
        assert order[..i + 1] == order[..i] + [order[i]];
      }
      assert order[..|order|] == order;
    }

    method UpdateReviewItems(conflictId: nat, status: ReviewStatus)
      modifies this`reviewItems
      ensures reviewItems == ReviewedItems(old(reviewItems), conflictId, status)
    {
      ghost var updated := ReviewedItems(reviewItems, conflictId, status);
      for i := 0 to |reviewItems|
        invariant |reviewItems| == |updated|
        invariant forall k :: 0 <= k < i ==> reviewItems[k] == updated[k]
        invariant forall k :: i <= k < |reviewItems| ==> reviewItems[k] == old(reviewItems)[k]
      {
        if reviewItems[i].conflictId == conflictId {
          reviewItems := reviewItems[i := reviewItems[i].(status := status)];
        }
      }
    }

    method ReviewConflict(conflictId: nat, input: ReviewInput) returns (error: Option<ReviewError>)
      requires Valid()
      modifies this
      ensures match Review(old(Abs()), conflictId, input)
        case Reviewed(world) => error == None && Abs() == world
        case Refused(why) => error == Some(why) && Abs() == old(Abs())
    {
      if conflictId >= |conflicts| {
        return Some(NOT_FOUND);
      }
      var conflict := conflicts[conflictId];
      if !AwaitsReview(conflict) {
        return Some(NOT_AWAITING_REVIEW);
      }
      var action := NormalizeReviewAction(input);
      if action.None? {
        return Some(NO_ACTION);
      }
      if Reviewer(input) == "" {
        return Some(NO_REVIEWER);
      }
      conflicts := conflicts[conflictId := ReviewedConflict(conflict, action.value, Reviewer(input))];
      UpdateReviewItems(conflictId, StatusFor(action.value));
      status := status[conflict.eventId := if action.value == REJECT then SUPERSEDED else CONFLICT_RESOLVED];
      error := None;
    }
  }

  lemma GroupOneMore(done: set<Candidate>, c: Candidate, grouped: map<EventId, set<FieldPath>>)
    ensures FieldsOf(done + {c}, c.eventId) == FieldsOf(done, c.eventId) + {c.path}
    ensures forall id :: id != c.eventId ==> FieldsOf(done + {c}, id) == FieldsOf(done, id)
  {
    forall id | id != c.eventId
      ensures FieldsOf(done + {c}, id) == FieldsOf(done, id)
    {
    }
  }
}
