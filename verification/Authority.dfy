/** The Authority Matrix: which system owns a field, and who wins when two events touch it. */
module Authority {
  import opened Domain

  datatype MappingStatus = ACTIVE | INACTIVE | DEPRECATED

  datatype MatrixRow = MatrixRow(
    path: FieldPath, version: nat, status: MappingStatus, rule: Rule)

  datatype Rule = Rule(
    authoritative: SystemName, fallback: Option<SystemName>, manualReviewRequired: bool)

  type Matrix = seq<MatrixRow>

  datatype Winner = CURRENT | OTHER | MANUAL

  datatype CandidateOutcome = CURRENT_WINS | CURRENT_LOSES | NEEDS_REVIEW

  predicate Applies(row: MatrixRow, path: FieldPath) {
    row.path == path && row.status == ACTIVE
  }

  function BestRow(matrix: Matrix, path: FieldPath): (best: Option<MatrixRow>)
    ensures best.None? <==> forall row :: row in matrix ==> !(row.path == path && row.status == ACTIVE)
    ensures best.Some? ==> best.value in matrix && best.value.path == path && best.value.status == ACTIVE
    ensures best.Some? ==>
      forall row :: row in matrix && row.path == path && row.status == ACTIVE ==> row.version <= best.value.version
  {
    if matrix == [] then None
    else
      var rest := BestRow(matrix[1..], path);
      if Applies(matrix[0], path) && (rest.None? || rest.value.version <= matrix[0].version)
      then Some(matrix[0])
      else rest
  }

  /** (fieldPath, version) is a unique key of the matrix table. */
  ghost predicate UniqueVersions(matrix: Matrix) {
    forall i, j ::
      0 <= i < j < |matrix| && matrix[i].path == matrix[j].path ==>
        matrix[i].version != matrix[j].version
  }

  /** The rule with the highest active version; None is the source's NOT_FOUND error. */
  function GetAuthorityRule(matrix: Matrix, path: FieldPath): Option<Rule> {
    match BestRow(matrix, path)
    case None => None
    case Some(row) => Some(row.rule)
  }

  /** The rule of a path is that of its active row of the highest version. */
  lemma RuleOfTheHighestVersion(matrix: Matrix, row: MatrixRow)
    requires UniqueVersions(matrix) && row in matrix && row.status == ACTIVE
    requires forall other :: other in matrix && other.path == row.path && other.status == ACTIVE ==>
      other.version <= row.version
    ensures GetAuthorityRule(matrix, row.path) == Some(row.rule)
  {
    var best := BestRow(matrix, row.path).value;
    var i :| 0 <= i < |matrix| && matrix[i] == best;
    var j :| 0 <= j < |matrix| && matrix[j] == row;
  }

  /** The lookup does not depend on the order in which the table stores its rows. */
  lemma RuleIgnoresRowOrder(left: Matrix, right: Matrix, path: FieldPath)
    requires UniqueVersions(left)
    requires forall row :: row in left <==> row in right
    ensures GetAuthorityRule(left, path) == GetAuthorityRule(right, path)
  {
    var l, r := BestRow(left, path), BestRow(right, path);
    if l.Some? && r.Some? {
      var i :| 0 <= i < |left| && left[i] == l.value;
      var j :| 0 <= j < |left| && left[j] == r.value;
      assert l.value.version == r.value.version;
    }
  }

  function ResolveFieldDecision(current: Event, competing: Event, rule: Rule): Winner {
    if rule.manualReviewRequired then MANUAL
    else if current.source == competing.source then
      if current.receivedAt >= competing.receivedAt then CURRENT else OTHER
    else if current.source == rule.authoritative then CURRENT
    else if competing.source == rule.authoritative then OTHER
    else if rule.fallback.Some? && current.source == rule.fallback.value then CURRENT
    else if rule.fallback.Some? && competing.source == rule.fallback.value then OTHER
    else MANUAL
  }

  /** deriveCandidateOutcome folds the set of winners over the shared fields. */
  function DeriveCandidateOutcome(winners: set<Winner>): CandidateOutcome {
    if MANUAL in winners then NEEDS_REVIEW
    else if |winners| > 1 then NEEDS_REVIEW
    else if OTHER in winners then CURRENT_LOSES
    else CURRENT_WINS
  }

  predicate Covers(matrix: Matrix, paths: set<FieldPath>) {
    forall path :: path in paths ==> GetAuthorityRule(matrix, path).Some?
  }

  function Winners(matrix: Matrix, current: Event, competing: Event, paths: set<FieldPath>): set<Winner>
    requires Covers(matrix, paths)
  {
    set path | path in paths ::
      ResolveFieldDecision(current, competing, GetAuthorityRule(matrix, path).value)
  }

  function Outcome(matrix: Matrix, current: Event, competing: Event, paths: set<FieldPath>): CandidateOutcome
    requires Covers(matrix, paths)
  {
    DeriveCandidateOutcome(Winners(matrix, current, competing, paths))
  }

  // ---- What the decision means: systems are ranked by each rule ----

  /** Owner above fallback above everyone else. */
  function Rank(rule: Rule, system: SystemName): nat {
    if system == rule.authoritative then 2
    else if rule.fallback == Some(system) then 1
    else 0
  }

  ghost predicate Beats(rule: Rule, a: Event, b: Event) {
    a.source != b.source && ResolveFieldDecision(a, b, rule) == CURRENT
  }

  lemma DecisionComparesRanks(rule: Rule, a: Event, b: Event)
    requires a.source != b.source
    ensures ResolveFieldDecision(a, b, rule) ==
      if rule.manualReviewRequired || Rank(rule, a.source) == Rank(rule, b.source) then MANUAL
      else if Rank(rule, a.source) > Rank(rule, b.source) then CURRENT
      else OTHER
  {
  }

  /** Between events of one system the rule does not matter: the later one wins, and a tie goes to the current one. */
  lemma LatestOfOneSystemWins(rule: Rule, a: Event, b: Event)
    requires a.source == b.source && !rule.manualReviewRequired
    ensures ResolveFieldDecision(a, b, rule) == OTHER <==> b.receivedAt > a.receivedAt
    ensures a.receivedAt != b.receivedAt ==>
      ResolveFieldDecision(b, a, rule) == Mirror(ResolveFieldDecision(a, b, rule))
  {
  }

  /** "Beats" is a strict partial order: irreflexive, antisymmetric and transitive. */
  lemma BeatsIsAStrictOrder(rule: Rule, a: Event, b: Event, c: Event)
    ensures !Beats(rule, a, a)
    ensures !(Beats(rule, a, b) && Beats(rule, b, a))
    ensures Beats(rule, a, b) && Beats(rule, b, c) ==> Beats(rule, a, c)
    ensures a.source != b.source ==>
      (Beats(rule, b, a) <==> ResolveFieldDecision(a, b, rule) == OTHER)
  {
  }

  function Mirror(winner: Winner): Winner {
    match winner case CURRENT => OTHER case OTHER => CURRENT case MANUAL => MANUAL
  }

  function MirrorOutcome(outcome: CandidateOutcome): CandidateOutcome {
    match outcome
    case CURRENT_WINS => CURRENT_LOSES
    case CURRENT_LOSES => CURRENT_WINS
    case NEEDS_REVIEW => NEEDS_REVIEW
  }

  lemma OneWinner(winners: set<Winner>)
    ensures |winners| > 1 <==> exists v, w :: v in winners && w in winners && v != w
  {
    if v, w :| v in winners && w in winners && v != w {
      assert |winners - {v}| >= 1 by { assert w in winners - {v}; }
    }
    if |winners| > 1 {
      var v :| v in winners;
      assert |winners - {v}| >= 1;
      var w :| w in winners - {v};
    }
  }

  /** The outcome is decided exactly when every shared field agrees on the same side. */
  lemma OutcomeIsUnanimity(matrix: Matrix, a: Event, b: Event, paths: set<FieldPath>)
    requires Covers(matrix, paths)
    ensures Outcome(matrix, a, b, paths) == CURRENT_WINS <==>
      forall path :: path in paths ==>
        ResolveFieldDecision(a, b, GetAuthorityRule(matrix, path).value) == CURRENT
    ensures Outcome(matrix, a, b, paths) == CURRENT_LOSES <==>
      paths != {} && forall path :: path in paths ==>
        ResolveFieldDecision(a, b, GetAuthorityRule(matrix, path).value) == OTHER
  {
    var winners := Winners(matrix, a, b, paths);
    OneWinner(winners);
    forall path | path in paths
      ensures ResolveFieldDecision(a, b, GetAuthorityRule(matrix, path).value) in winners
    {
    }
    if winners == {} { assert paths == {}; }
  }

  /** Swapping the two events mirrors the verdict, for every non-empty list of shared fields. */
  lemma SwappingEventsMirrorsTheOutcome(matrix: Matrix, a: Event, b: Event, paths: set<FieldPath>)
    requires a.source != b.source
    requires paths != {}
    requires Covers(matrix, paths)
    ensures Outcome(matrix, b, a, paths) == MirrorOutcome(Outcome(matrix, a, b, paths))
  {
    OutcomeIsUnanimity(matrix, a, b, paths);
    OutcomeIsUnanimity(matrix, b, a, paths);
    forall path | path in paths
      ensures ResolveFieldDecision(b, a, GetAuthorityRule(matrix, path).value)
        == Mirror(ResolveFieldDecision(a, b, GetAuthorityRule(matrix, path).value))
    {
      DecisionComparesRanks(GetAuthorityRule(matrix, path).value, a, b);
      DecisionComparesRanks(GetAuthorityRule(matrix, path).value, b, a);
    }
  }

  /** A rule that asks for review never decides; otherwise the owner beats everyone, and the fallback the rest. */
  lemma OwnerThenFallback(rule: Rule, a: Event, b: Event)
    requires a.source != b.source
    ensures rule.manualReviewRequired ==> ResolveFieldDecision(a, b, rule) == MANUAL
    ensures !rule.manualReviewRequired && a.source == rule.authoritative ==>
      ResolveFieldDecision(a, b, rule) == CURRENT
    ensures !rule.manualReviewRequired && b.source == rule.authoritative ==>
      ResolveFieldDecision(a, b, rule) == OTHER
    ensures !rule.manualReviewRequired && rule.authoritative !in {a.source, b.source} ==>
      ResolveFieldDecision(a, b, rule) ==
        if rule.fallback == Some(a.source) then CURRENT
        else if rule.fallback == Some(b.source) then OTHER else MANUAL
  {
  }
}
