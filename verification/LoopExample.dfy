/** A run in which a delivered change of SWS comes back as an event. */
module LoopExample {
  import opened Domain
  import opened Conflicts
  import opened IdempotencyKeys
  import opened Idempotency
  import opened CacheRefinement
  import opened Delivery
  import opened Ksync
  import opened Adapters
  import opened Echo
  import opened LoopFreedom
  import Diff
  import HoldingPen
  import Polling
  import SystemRuns
  import RunDelivery
  import SafetyLimits
  import Routing

  // ---- An ingest that finds nothing queues a job that can be delivered ----

  /** The job is queued, its event is known and not superseded. */
  ghost predicate Ready(s: System, c: Call, target: SystemName) {
    && Runnable(HubOf(s), JobId(c.e.id, target))
    && c.e.id in s.world.events && s.world.events[c.e.id] == c.e
    && c.e.id in s.world.status && s.world.status[c.e.id] != SUPERSEDED
  }

  lemma NothingFoundContinues(s: System, c: Call)
    requires SystemRuns.CanIngest(s, c, []) && Found(Accepting(s, c), c.e, c.env) == map[]
    ensures Judging(s, c, []).Detected? && Judging(s, c, []).result.shouldContinue
  {
  }

  lemma QueuedIsRunnable(s: System, s': System, c: Call, target: SystemName)
    requires s'.jobs == RunDelivery.JobsAfter(s, c, true) && target in Routing.JobTargets(c.registry, c.e)
    requires forall id :: id in s.jobs ==> id.eventId != c.e.id
    requires c.e.id in s'.world.status
    ensures Runnable(HubOf(s'), JobId(c.e.id, target))
  {
  }

  lemma IngestedIsReady(s: System, c: Call, target: SystemName)
    requires c.e.id !in s.world.events && c.maxAttempts > 0 && SystemRuns.Sturdy(s)
    requires !Checking(s, c).1.duplicate && Found(Accepting(s, c), c.e, c.env) == map[]
    requires target in Routing.JobTargets(c.registry, c.e)
    ensures SystemRuns.CanIngest(s, c, []) && Ready(Ingest(s, c, []).0, c, target)
  {
    SafetyLimits.NothingFoundIsAdmitted(s, c);
    NothingFoundContinues(s, c);
    var routed := RunDelivery.IngestJobs(s, c, []);
    SystemRuns.IngestAddsTheEvent(s, c, []);
    SystemRuns.NewEventHasNoJobs(s, c, []);
    QueuedIsRunnable(s, Ingest(s, c, []).0, c, target);
  }

  /** Events of its own system are never found. */
  lemma OwnSystemIsNotFound(s: System, c: Call)
    requires forall id :: id in s.world.events ==> s.world.events[id].source == c.e.source
    ensures Found(Accepting(s, c), c.e, c.env) == map[]
  {
    assert forall id :: !Competes(Accepting(s, c), c.e, id);
  }

  // ---- The run ----

  const LICENSE := RowId(ESURAKSHATE, "L")

  const ROW := FactoryRow("UBID-KA-2026-0001", "L", "B", None, None, None, None, None, Raw(map[], None), 0)

  const REGISTRY: Routing.Registry :=
    [Routing.Mapping("UBID-KA-2026-0001", ESURAKSHATE, "FACTORY_LICENSE_NO", "L", true)]

  const NO_FIELDS := FactoryFields(None, None, None, None, None, None, None)

  /** SWS changes the address. */
  function AddressCall(): Call { CallFor(Sample("REQ-1", "h").(id := 1)) }

  /** And then the signatory. */
  function SignatoryCall(): Call {
    CallFor(Sample("REQ-2", "k").(id := 2, serviceType := AUTHORIZED_SIGNATORY_CHANGE,
                                  changedFields := [AuthorizedSignatory]))
  }

  function CallFor(e: Event): Call {
    Call(e, Env([], 10, 0, 0, HoldingPen.NO_FAULTS), REGISTRY, 3, RELIABLE, RELIABLE)
  }

  function WriteFor(e: EventId, fields: FactoryFields): Move {
    Writing(JobId(e, ESURAKSHATE), REGISTRY, ForFactory(FactoryPayload(fields, fields), "now"), 0, 0)
  }

  lemma RoutedToTheRow(c: Call)
    requires c == AddressCall() || c == SignatoryCall()
    ensures ESURAKSHATE in Routing.JobTargets(REGISTRY, c.e)
    ensures Routing.ResolveTarget(REGISTRY, c.e.ubid, ESURAKSHATE).localIdentifier == "L"
  {
    assert Routing.FindMapping(REGISTRY, c.e.ubid, ESURAKSHATE) == Some(REGISTRY[0]);
    var targets := Routing.Without(Routing.RuleTargets(c.e.source, c.e.serviceType), c.e.source);
    assert Routing.RuleTargets(c.e.source, c.e.serviceType)[1..] == [ESURAKSHATE];
    assert Routing.Without([ESURAKSHATE], SWS) == [ESURAKSHATE];
    assert targets == [EKARMIKA] + [ESURAKSHATE];
    var r := Routing.ResolveTarget(REGISTRY, c.e.ubid, ESURAKSHATE);
    assert Routing.ResolveTargets(REGISTRY, c.e.ubid, c.e.source, c.e.serviceType)[1] == r;
    assert r in Routing.RoutingTargets(REGISTRY, c.e);
  }

  lemma ReadyIsDelivered(w: Network, c: Call, fields: FactoryFields)
    requires c == AddressCall() || c == SignatoryCall()
    requires Ready(w.sys, c, ESURAKSHATE) && LICENSE in w.rows && w.rows[LICENSE].Factory?
    ensures CanMove(w, WriteFor(c.e.id, fields)) && TargetRow(w, JobId(c.e.id, ESURAKSHATE), REGISTRY) == LICENSE
  {
    RoutedToTheRow(c);
    Routing.QueuedTargetsResolve(REGISTRY, c.e, ESURAKSHATE);
  }

  lemma AddressRequest()
    ensures var c := AddressCall();
      && SystemRuns.CanIngest(EMPTY, c, []) && Ready(Ingest(EMPTY, c, []).0, c, ESURAKSHATE)
      && LeftBehind(Ingest(EMPTY, c, []).0)
  {
    var c := AddressCall();
    RoutedToTheRow(c);
    OwnSystemIsNotFound(EMPTY, c);
    SystemRuns.EmptyIsSturdy();
    SafetyLimits.FirstIsChecked(c);
    IngestedIsReady(EMPTY, c, ESURAKSHATE);
    BothKeys();
    SafetyLimits.FirstIsLeft(c, {BuildKeys(c.e), BuildKeys(SignatoryCall().e)});
  }

  /** The two requests have no key in common. */
  lemma BothKeys()
    ensures var a, b := BuildKeys(AddressCall().e), BuildKeys(SignatoryCall().e);
      !Overlap(a, b) && Closed({a, b})
  {
    var x, y := AddressCall().e, SignatoryCall().e;
    assert ':' !in x.ubid;
    PrimaryKeyIsInjective(SWS, "REQ-1", SWS, "REQ-2");
    FallbackKeyIsInjective(SWS, x.ubid, x.serviceType, "h", SWS, y.ubid, y.serviceType, "k");
    ColonFreeIdsStayApart(SWS, "REQ-1", y);
    ColonFreeIdsStayApart(SWS, "REQ-2", x);
    var a, b := BuildKeys(x), BuildKeys(y);
    assert !Share(a, b) && !Share(b, a);
    SafetyLimits.UnsharedKeysAreClosed({a, b});
    if Overlap(a, b) { OverlapMeansShare(a, b); }
  }

  /** The event table and the idempotency table hold the first request alone. */
  ghost predicate LeftBehind(s: System) {
    && s.world.events == map[1 := AddressCall().e]
    && Sound(s.store, {BuildKeys(AddressCall().e), BuildKeys(SignatoryCall().e)})
    && |s.store.table| == 1 && RowKeys(s.store.table[0]) == BuildKeys(AddressCall().e)
  }

  lemma SignatoryIsNoDuplicate(s: System)
    requires LeftBehind(s)
    ensures !Checking(s, SignatoryCall()).1.duplicate
  {
    var c := SignatoryCall();
    BothKeys();
    CheckRefinesTable(s.store, {BuildKeys(AddressCall().e), BuildKeys(c.e)}, BuildKeys(c.e), c.e.id, RECEIVED, c.io);
  }

  lemma SignatoryRequest(s: System)
    requires LeftBehind(s) && SystemRuns.Sturdy(s)
    ensures SystemRuns.CanIngest(s, SignatoryCall(), [])
    ensures Ready(Ingest(s, SignatoryCall(), []).0, SignatoryCall(), ESURAKSHATE)
  {
    var c := SignatoryCall();
    SignatoryIsNoDuplicate(s);
    RoutedToTheRow(c);
    NewAmongSws(s, c);
    IngestedIsReady(s, c, ESURAKSHATE);
  }

  lemma NewAmongSws(s: System, c: Call)
    requires LeftBehind(s) && c == SignatoryCall()
    ensures c.e.id !in s.world.events && c.maxAttempts > 0
    ensures Found(Accepting(s, c), c.e, c.env) == map[]
  {
    OwnSystemIsNotFound(s, c);
  }

  lemma WriteKeepsTables(s: System)
    requires LeftBehind(s) && Ready(s, AddressCall(), ESURAKSHATE)
    ensures LeftBehind(RunJob(s, JobId(1, ESURAKSHATE), REGISTRY, SUCCEEDS))
  {
  }

  /** The second request after the first one's delivery. */
  lemma SecondRequest(s: System, s': System)
    requires LeftBehind(s) && Ready(s, AddressCall(), ESURAKSHATE) && SystemRuns.Sturdy(s)
    requires s' == RunJob(s, JobId(1, ESURAKSHATE), REGISTRY, SUCCEEDS)
    ensures SystemRuns.CanIngest(s', SignatoryCall(), [])
    ensures Ready(Ingest(s', SignatoryCall(), []).0, SignatoryCall(), ESURAKSHATE)
  {
    WriteKeepsTables(s);
    SystemRuns.JobRunKeepsSturdy(s, JobId(1, ESURAKSHATE), REGISTRY, SUCCEEDS);
    SignatoryRequest(s');
  }

  // ---- The row along the run ----

  const FIRST_FIELDS := NO_FIELDS.(factoryAddress := Some("A"))

  function WrittenRow(): FactoryRow {
    FactoryWritten(ROW, FactoryPayload(FIRST_FIELDS, FIRST_FIELDS), AddressCall().e, 0, 0, "now")
  }

  /** The row has been polled, and nothing has happened to it since. */
  predicate Primed(w: Network) {
    && LICENSE in w.rows && w.rows[LICENSE] == Factory(ROW) && HistoryOf(w, LICENSE) == Since(None, {})
    && ShownIsOld(w, Factory(ROW))
  }

  /** The stored snapshot is that of the original row. */
  predicate ShownIsOld(w: Network, row: DeptRow) {
    RecordOf(row).Some? && var stored := Polling.Previous(w.snapshots, RecordOf(row).value);
      stored.Some? && stored.value.payload == FactorySnapshot(ROW)
  }

  /** The address has been delivered. */
  predicate AddressDelivered(w: Network) {
    && LICENSE in w.rows && w.rows[LICENSE] == Factory(WrittenRow()) && HistoryOf(w, LICENSE).Since?
    && ShownIsOld(w, Factory(WrittenRow()))
  }

  lemma WritingDelivers(v: Network)
    requires Primed(v)
    ensures var p := ForFactory(FactoryPayload(FIRST_FIELDS, FIRST_FIELDS), "now");
      AddressDelivered(WithWrite(v, LICENSE, p, AddressCall().e, 0, 0))
  {
    SameRecordKey();
  }

  lemma SameBackendIsPrimed(w: Network, v: Network)
    requires Primed(w) && v == w.(sys := v.sys)
    ensures Primed(v)
  {
  }

  lemma FirstWrite(w: Network)
    requires Primed(w) && Ready(w.sys, AddressCall(), ESURAKSHATE)
    ensures CanMove(w, WriteFor(1, FIRST_FIELDS))
    ensures var w' := AfterMove(w, WriteFor(1, FIRST_FIELDS));
      AddressDelivered(w') && w'.sys == RunJob(w.sys, JobId(1, ESURAKSHATE), REGISTRY, SUCCEEDS)
  {
    ReadyIsDelivered(w, AddressCall(), FIRST_FIELDS);
    var v := w.(sys := RunJob(w.sys, JobId(1, ESURAKSHATE), REGISTRY, SUCCEEDS));
    SameBackendIsPrimed(w, v);
    WritingDelivers(v);
  }

  lemma SameRecordKey()
    ensures RecordOf(Factory(ROW)).Some? && RecordOf(Factory(WrittenRow())).Some?
    ensures Polling.KeyOf(RecordOf(Factory(ROW)).value) == Polling.KeyOf(RecordOf(Factory(WrittenRow())).value)
  {
  }

  /** The delivered address is not the one that the last poll showed. */
  lemma AddressIsNews(w: Network)
    requires AddressDelivered(w)
    ensures !Shows(w, LICENSE, Diff.FACTORY_ADDRESS)
  {
    FactoryField(ROW, Diff.FACTORY_ADDRESS);
    FactoryField(WrittenRow(), Diff.FACTORY_ADDRESS);
  }

  lemma SecondWriteIsClean(w: Network)
    requires AddressDelivered(w)
    ensures CleanFor(w.rows[LICENSE], SignatoryCall().e, 0, 0)
  {
  }

  lemma RowIsPolled()
    ensures CanMove(START, Editing(Factory(ROW))) && CanMove(WITH_ROW, Polling(LICENSE))
    ensures AfterMove(START, Editing(Factory(ROW))) == WITH_ROW
    ensures Primed(AfterMove(WITH_ROW, Polling(LICENSE))) && AfterMove(WITH_ROW, Polling(LICENSE)).sys == EMPTY
  {
  }

  const START := Network(EMPTY, map[], map[], map[])

  const WITH_ROW := Network(EMPTY, map[LICENSE := Factory(ROW)], map[], map[LICENSE := Disturbed])

  ghost predicate Reaches(w: Network, m: Move, w': Network) { CanMove(w, m) && w' == AfterMove(w, m) }

  lemma IngestReaches(w: Network, c: Call)
    requires SystemRuns.CanIngest(w.sys, c, [])
    ensures Reaches(w, Inside(SystemRuns.Ingesting(c, [])), w.(sys := Ingest(w.sys, c, []).0))
  {
  }

  lemma SameBackendIsDelivered(w: Network, v: Network)
    requires AddressDelivered(w) && v == w.(sys := v.sys)
    ensures AddressDelivered(v)
  {
  }

  lemma FirstRequestReaches(w2: Network) returns (w3: Network)
    requires Primed(w2) && w2.sys == EMPTY
    ensures Reaches(w2, Inside(SystemRuns.Ingesting(AddressCall(), [])), w3) && Primed(w3)
    ensures LeftBehind(w3.sys) && Ready(w3.sys, AddressCall(), ESURAKSHATE) && SystemRuns.Sturdy(w3.sys)
  {
    AddressRequest();
    IngestReaches(w2, AddressCall());
    w3 := w2.(sys := Ingest(EMPTY, AddressCall(), []).0);
    SameBackendIsPrimed(w2, w3);
    SystemRuns.EmptyIsSturdy();
    SystemRuns.StepKeepsSturdy(EMPTY, SystemRuns.Ingesting(AddressCall(), []));
  }

  lemma SecondRequestReaches(w3: Network, w4: Network) returns (w5: Network)
    requires LeftBehind(w3.sys) && Ready(w3.sys, AddressCall(), ESURAKSHATE) && SystemRuns.Sturdy(w3.sys)
    requires w4.sys == RunJob(w3.sys, JobId(1, ESURAKSHATE), REGISTRY, SUCCEEDS) && AddressDelivered(w4)
    ensures Reaches(w4, Inside(SystemRuns.Ingesting(SignatoryCall(), [])), w5)
    ensures AddressDelivered(w5) && Ready(w5.sys, SignatoryCall(), ESURAKSHATE)
  {
    SecondRequest(w3.sys, w4.sys);
    IngestReaches(w4, SignatoryCall());
    w5 := w4.(sys := Ingest(w4.sys, SignatoryCall(), []).0);
    SameBackendIsDelivered(w4, w5);
  }

  // ---- The run ----

  ghost predicate EndsIn(trace: seq<Network>, moves: seq<Move>, w: Network) {
    IsRun(trace, moves) && trace[|moves|] == w
  }

  lemma RunOfMoves(trace: seq<Network>, moves: seq<Move>)
    requires |trace| == |moves| + 1 && trace[0] == START
    requires forall i :: 0 <= i < |moves| ==> Reaches(trace[i], moves[i], trace[i + 1])
    ensures IsRun(trace, moves)
  {
    assert forall i {:trigger CanMove(trace[i], moves[i])} :: 0 <= i < |moves| ==>
      Reaches(trace[i], moves[i], trace[i + 1]);
  }

  lemma OneMoreMove(trace: seq<Network>, moves: seq<Move>, w: Network, m: Move, w': Network)
    requires EndsIn(trace, moves, w) && Reaches(w, m, w')
    ensures EndsIn(trace + [w'], moves + [m], w')
    ensures (trace + [w'])[|moves|] == w && (moves + [m])[|moves|] == m
  {
    var longer, all := trace + [w'], moves + [m];
    forall i | 0 <= i < |all| ensures Reaches(longer[i], all[i], longer[i + 1]) {
      if i < |moves| { assert CanMove(trace[i], moves[i]); }
    }
    RunOfMoves(longer, all);
  }

  lemma PolledRun() returns (trace: seq<Network>, moves: seq<Move>, w: Network)
    ensures EndsIn(trace, moves, w) && Primed(w) && w.sys == EMPTY
    ensures moves == [Editing(Factory(ROW)), Polling(LICENSE)]
  {
    RowIsPolled();
    w := WithPoll(WITH_ROW, LICENSE);
    OneMoreMove([START], [], START, Editing(Factory(ROW)), WITH_ROW);
    OneMoreMove([START, WITH_ROW], [Editing(Factory(ROW))], WITH_ROW, Polling(LICENSE), w);
    trace, moves := [START, WITH_ROW, w], [Editing(Factory(ROW)), Polling(LICENSE)];
    assert [START] + [WITH_ROW] == [START, WITH_ROW] && [START, WITH_ROW] + [w] == trace;
    assert [] + [Editing(Factory(ROW))] == [Editing(Factory(ROW))];
    assert [Editing(Factory(ROW))] + [Polling(LICENSE)] == moves;
  }

  /** Any run that leaves the row polled, continued by the first request and its delivery, and the second request. */
  lemma BothRequests(trace: seq<Network>, moves: seq<Move>, w2: Network)
    returns (trace': seq<Network>, moves': seq<Move>, w5: Network)
    requires EndsIn(trace, moves, w2) && Primed(w2) && w2.sys == EMPTY
    ensures EndsIn(trace', moves', w5) && AddressDelivered(w5) && Ready(w5.sys, SignatoryCall(), ESURAKSHATE)
    ensures moves' == moves + [Inside(SystemRuns.Ingesting(AddressCall(), []))] + [WriteFor(1, FIRST_FIELDS)]
      + [Inside(SystemRuns.Ingesting(SignatoryCall(), []))]
  {
    var w3 := FirstRequestReaches(w2);
    OneMoreMove(trace, moves, w2, Inside(SystemRuns.Ingesting(AddressCall(), [])), w3);
    FirstWrite(w3);
    var w4 := AfterMove(w3, WriteFor(1, FIRST_FIELDS));
    trace', moves' := trace + [w3], moves + [Inside(SystemRuns.Ingesting(AddressCall(), []))];
    OneMoreMove(trace', moves', w3, WriteFor(1, FIRST_FIELDS), w4);
    trace', moves' := trace' + [w4], moves' + [WriteFor(1, FIRST_FIELDS)];
    w5 := SecondRequestReaches(w3, w4);
    OneMoreMove(trace', moves', w4, Inside(SystemRuns.Ingesting(SignatoryCall(), [])), w5);
    trace', moves' := trace' + [w5], moves' + [Inside(SystemRuns.Ingesting(SignatoryCall(), []))];
  }

  /** The second write hides the first. */
  ghost predicate Hides(w: Network, m: Move) {
    HidesTheFirst(w, m) && TargetRow(w, m.id, m.registry) == LICENSE
  }

  lemma SecondWriteHides(w5: Network, m: Move)
    requires AddressDelivered(w5) && Ready(w5.sys, SignatoryCall(), ESURAKSHATE)
    requires m == WriteFor(2, NO_FIELDS.(managerName := Some("M")))
    ensures Hides(w5, m)
  {
    ReadyIsDelivered(w5, SignatoryCall(), NO_FIELDS.(managerName := Some("M")));
    AddressIsNews(w5);
    SecondWriteIsClean(w5);
  }

  predicate ComesBack(w: Network) { LICENSE in w.rows && Created(w, LICENSE) > 0 }

  lemma HidingComesBack(trace: seq<Network>, moves: seq<Move>, n: nat, w: Network, m: Move, w': Network)
    requires IsRun(trace, moves) && n < |moves| && Hides(w, m)
    requires trace[n] == w && moves[n] == m && trace[n + 1] == w'
    ensures ComesBack(w')
  {
    SecondWriteHidesTheFirst(trace, moves, n);
  }

  /** The second delivery, and the poll after it. */
  lemma SecondDelivery(trace: seq<Network>, moves: seq<Move>, w5: Network, m: Move, w6: Network)
    requires EndsIn(trace, moves, w5) && Hides(w5, m) && w6 == AfterMove(w5, m)
    ensures EndsIn(trace + [w6], moves + [m], w6) && ComesBack(w6)
  {
    OneMoreMove(trace, moves, w5, m, w6);
    HidingComesBack(trace + [w6], moves + [m], |moves|, w5, m, w6);
  }

  /**
   * A row is polled; SWS changes its address and then its signatory, each in a request of its own, and both
   * are delivered before the next poll. That poll creates an event.
   */
  lemma ADeliveredChangeComesBack() returns (trace: seq<Network>, moves: seq<Move>)
    ensures IsRun(trace, moves)
    ensures moves == [Editing(Factory(ROW)), Polling(LICENSE)]
      + [Inside(SystemRuns.Ingesting(AddressCall(), []))] + [WriteFor(1, FIRST_FIELDS)]
      + [Inside(SystemRuns.Ingesting(SignatoryCall(), []))] + [WriteFor(2, NO_FIELDS.(managerName := Some("M")))]
    ensures ComesBack(trace[|moves|])
  {
    var w2, w5;
    trace, moves, w2 := PolledRun();
    trace, moves, w5 := BothRequests(trace, moves, w2);
    var m := WriteFor(2, NO_FIELDS.(managerName := Some("M")));
    SecondWriteHides(w5, m);
    var w6 := AfterMove(w5, m);
    SecondDelivery(trace, moves, w5, m, w6);
    trace, moves := trace + [w6], moves + [m];
  }

  /** The ingest schema accepts both requests. */
  lemma BothAreReceivable()
    ensures Receivable(AddressCall().e) && Receivable(SignatoryCall().e)
  {
    SampleIsReceivable("REQ-1", "h");
    SampleIsReceivable("REQ-2", "k");
  }
}
