# K-Sync backend: a Dafny model

K-Sync takes change requests about registered businesses from several government systems, decides
conflicts between them, and delivers the surviving changes to the other systems. This project models the
protocol part of its backend and proves properties of the model. It is written for Dafny 4.11 and has no
dependencies: `dafny verify dfyconfig.toml`.

## The model

Every store is a map or a sequence (events and their statuses, the Redis holding pen, idempotency rows and
their Redis cache, conflicts and review items, job records, dead letters, the audit entries of delivery,
department snapshots). Time is an integer number of milliseconds. What a call reads from outside (clocks,
the registry, the order in which the database returns rows, which Redis calls fail, what an adapter does)
is a parameter of the call.

The services that change state are classes whose methods follow the source step by step; each method is
proved to leave exactly the state that a specification function gives. The theorems are about those
functions, and about runs: sequences of calls in which every state is the result of the step before it.

| module | content |
|---|---|
| Domain, Authority | events, statuses, field paths; authority rules and field decisions |
| HoldingPen | the per-field sorted sets, pruning and key expiry |
| Conflicts, ConflictSafety | detection, resolution and review; what one detection keeps |
| ConflictTables | the records and review items that each ingest leaves |
| Supersessions, OrderIndependence, ReviewDiscipline | properties of runs of detections and reviews |
| IdempotencyKeys, Idempotency | the two key encoders; the table behind its cache |
| CacheRefinement, CachedAnswers, IdempotencyRace | when the cache agrees with the table, and holds the answers; free interleaving |
| Routing, Delivery, FailureSimulation | targets; jobs, retries, dead letters; scheduled failures |
| Ksync, SystemRuns | one ingest composed of all of these; runs of ingests and worker runs |
| RoutedAnswers, JobBudgets | what an ingest answers, stores and queues by the registry's rows; worker runs and their attempts |
| RunSafety, SafetyLimits, ConflictRecords, RunDelivery, Replay | the main results about those runs |
| CanonicalJson, JsonText, Address | canonical JSON and its text; the flat-address parser and printer |
| Diff, Polling, PollingLaws, Adapters, Echo | snapshot diffing, polling, adapter writes, echo suppression |
| EchoChecks, PayloadHashes, AdapterColumns | exactly when a poll confirms an echo; what a department write leaves in each column |
| LoopFreedom, LoopExample | runs that also write to and poll the departments: when a delivered change comes back |

## Assumptions of the run theorems

- Each ingest and each worker run is one atomic step. (Ingest writes QUEUED after it has enqueued the jobs,
  and a worker looks for SUPERSEDED only when it starts; the source does not guard those windows.)
- Human review is not part of runs of ingests and worker runs, because approving a conflict can revive an
  event that clashes with a deliverable one: exactly when, in `SafetyLimits.ReviewIsSafeIff`. Review has its
  own run theorems in ReviewDiscipline.
- Conflict safety, candidate refinement and order independence assume that Redis calls succeed and that a
  check runs less than 30 s after the event was received; safety and refinement over runs also assume that
  receivedAt and the wall clock do not run backwards. The supersession, delivery, idempotency-verdict and
  detection-verdict theorems hold whatever Redis does.
- Replay is stated for runs whose requests have keys on which the cache agrees with the table:
  `CacheRefinement.Closed`, which is exactly what that agreement needs.
- In the theorems about attempts, `c.maxAttempts` is the configured QUEUE_MAX_ATTEMPTS at the time of the ingest.
- No theorem about delivery assumes a fixed registry. Jobs are characterised by whether their last run
  resolved its target, and that follows while the rows of the event's own UBID stay as they were.
- SHA-256 is injective, so a canonical text stands for its digest.

## Where the code does less than it intends

- A field without an active authority rule makes detection throw after the event was accepted. The event
  stays IDEMPOTENCY_ACCEPTED for good, has no jobs and is not in the holding pen, so later detections do not
  find it, and resubmitting it never checks it again: `Replay.ThrownRequestIsNeverRetried`. Exactly when two
  clashing accepted events both stay neither superseded nor parked: `SafetyLimits.SafetyOfAnIngest` for one
  ingest and `SafetyLimits.RunIsSafeIff` for whole runs, with receivable requests for both ways it fails in
  `SafetyLimits.AnUnruledPair` and `SafetyLimits.AnUnruledTriple`.
- Approving a parked event while the event it clashes with is deliverable makes both deliverable:
  `SafetyLimits.ApprovalRevivesTheClash`.
- Reusing a request id with other content can break the agreement between cache and table:
  `CacheRefinement.ReusedRequestIdBreaksTheRefinement`. The exact condition is on all requests together:
  `CacheRefinement.CacheRefinesTable`.
- A save that misses Redis can make a duplicate lose its answer: exactly when, in
  `CachedAnswers.SubmissionStaysExact` and `CachedAnswers.MissedSaveLosesTheAnswer`. The rebuilt answer then
  differs from the first one in its status at most: `Replay.ResubmissionNamesTheOriginal`.
- A primary key can equal a fallback key if the request id spells out the rest: `IdempotencyKeys.KeySpacesMeet`.
- Target resolution throws outside the try block, so BullMQ can give a job up without a dead letter, and
  recorded attempts fall behind. Exactly when: `Delivery.GivenUpIsRecordedIffResolved`,
  `JobBudgets.JobsEndWithinTheirBudget` and `RunDelivery.RecordsAgreeWithTheQueue`.
- A failure scheduled with an empty reason never fails a write: `FailureSimulation.EmptyReasonNeverFails`.
- Addresses with fewer than four parts, or without a six-digit code at the end, do not survive parsing and
  printing, with two small exceptions: `Address.PrintingTheParse`. The payload schema accepts postal codes
  that are not six digits, and those do not survive printing and parsing: `Address.ParsingThePrint`.
- Echo suppression only recognises what the written event announced, so a write of two fields that shows in
  both comes back as a new event. Exactly when it does not: `Echo.TwoFieldEcho`, and for the two systems'
  writes `Echo.FactoryTwoFieldEcho` and `Echo.LabourTwoFieldEcho`. On e-Karmika a written manager name stays
  invisible to polling while the raw payload holds an employerName: `Echo.LabourWriteShows`.
- A delivered change of one field can come back although echo suppression recognises it: if another field of
  the row is delivered before the next poll, that write replaces the trace of the first. Exactly when, in
  every reachable state: `LoopFreedom.ChangesComeBackIff`, with a run in `LoopExample.ADeliveredChangeComesBack`.

## Model

| member | source | states |
|---|---|---|
| `RunSafety.OneOfTwoClashingEventsIsWithheld` | backend/src/modules/conflicts/conflict.service.ts:652-841 | In every state reachable by ingests and worker runs, of two admitted events on one UBID from different systems that share a field path and were received within the window, at least one is SUPERSEDED or MANUAL_REVIEW_REQUIRED |
| `RunSafety.IngestRecordsItsVerdict` | backend/src/modules/ksync/ksync.service.ts:353-424 | After its ingest the status of an event tells three cases apart: DUPLICATE_DETECTED exactly for a duplicate, IDEMPOTENCY_ACCEPTED exactly if conflict detection threw, and otherwise admitted |
| `RunSafety.VerdictIsForGood` | backend/src/modules/conflicts/conflict.service.ts:278-304 | No later ingest or worker run turns an admitted event into one of the other two cases or back, whatever Redis and the clocks do |
| `RunSafety.ThrowsIffARuleIsMissing` | backend/src/modules/conflicts/conflict.service.ts:439-453 | An accepted ingest throws exactly if some found competitor shares a field path that no active authority rule covers |
| `SafetyLimits.SafetyOfAnIngest` | backend/src/modules/conflicts/conflict.service.ts:439-453 | Exactly when an ingest is safe, for every guarded state and every matrix: a timely accepted ingest leaves one of each clashing pair of accepted events withheld if and only if it ends with the new event withheld, or the new event clashes with none whose own detection threw and every found event has rules for all the fields it shares unless none of them is deliverable |
| `SafetyLimits.SafetyOfARun` | backend/src/modules/conflicts/conflict.service.ts:652-841 | The same at every ingest of a run, with the found events given by the event table alone |
| `SafetyLimits.RunIsSafeIff` | backend/src/modules/conflicts/conflict.service.ts:652-841 | A run of timely ingests and worker runs keeps one of any two clashing accepted events withheld, in every state so far, if and only if every ingest so far met that condition |
| `SafetyLimits.MissingRuleLeavesBoth` | backend/src/modules/conflicts/conflict.service.ts:652-841 | From the empty backend: two timely requests of different systems, with any ids and any matrix without an active rule for one shared path, both stay neither superseded nor parked, the second one as IDEMPOTENCY_ACCEPTED without an answer |
| `SafetyLimits.AnUnruledPair` | backend/src/modules/conflicts/conflict.service.ts:652-841 | A concrete pair for which that happens, both requests with the ids, UBID and fields that the ingest schema asks for |
| `SafetyLimits.ThrownEventIsMissed` | backend/src/modules/conflicts/conflict.service.ts:306-357 | The event whose detection threw is in no holding pen: a third request that clashes with it finds nothing and is delivered, and both stand |
| `SafetyLimits.AnUnruledTriple` | backend/src/modules/conflicts/conflict.service.ts:306-357 | Three concrete requests for which that happens, all accepted by the ingest schema |
| `RunSafety.CandidatesAreRefined` | backend/src/modules/conflicts/conflict.service.ts:306-357 | Lazy pruning is invisible in every reachable state: the pruned per-field pen followed by the grouping map finds for each timely ingest exactly the earlier admitted, unsuperseded events of other systems on the UBID inside the window, each with exactly the intersection of the two sets of field paths |
| `ConflictSafety.FoundAreExactlyTheCompetitors` | backend/src/modules/conflicts/conflict.service.ts:306-357 | The same for one detection on any pen that has lost nothing from the window |
| `ConflictSafety.AdmissionKeepsPenInvariant` | backend/src/modules/conflicts/conflict.service.ts:652-841 | After each detection every settled event is in the pen under all its paths, or too old for any later window, or past its key expiry |
| `ConflictSafety.AdmissionKeepsPenSound` | backend/src/modules/conflicts/holding-pen.service.ts:92-109 | Every pen entry stays an admitted event under its own UBID and path, scored by its receivedAt |
| `ConflictSafety.AdmissionKeepsSafety` | backend/src/modules/conflicts/conflict.service.ts:721-840 | One detection keeps conflict safety: an event that stays deliverable has superseded every deliverable event it clashes with |
| `ConflictSafety.AdmissionStatuses` | backend/src/modules/conflicts/conflict.service.ts:652-841 | Which statuses one detection writes, even if Redis calls fail: the competitors become SUPERSEDED exactly if the event wins, nobody else moves, and shouldContinue holds exactly if the event stays deliverable |
| `ConflictSafety.ReceivingKeepsInvariants` | backend/src/modules/ksync/ksync.service.ts:341-353 | Recording a received event disturbs neither the pen nor conflict safety |
| `ConflictSafety.LiveMovesKeepInvariants` | backend/src/modules/queues/processors/processor.shared.ts:183-197 | Moving events between deliverable statuses disturbs neither |
| `ConflictRecords.RecordedConflictsAreReal` | backend/src/modules/conflicts/conflict.service.ts:469-528 | In every reachable state each recorded conflict is between two clashing events and names exactly the field paths they share |
| `ConflictTables.ConflictsAreComplete` | backend/src/modules/conflicts/conflict.service.ts:469-650 | At every timely ingest of a run, an accepted event that meets competitors leaves exactly one new conflict for each of them, on exactly the shared paths: REVIEW_REQUIRED and OPEN with one OPEN review item each if the event ends parked, LOST if it ends superseded, AUTO_RESOLVED otherwise; a thrown detection, or one without competitors, records nothing |
| `ConflictTables.ResultListsTheRecords` | backend/src/modules/conflicts/conflict.service.ts:695-718 | The result of a detection lists the ids of exactly those new conflicts, each once, and flags a superseded event |
| `ConflictTables.VerdictOfAnIngest` | backend/src/modules/conflicts/conflict.service.ts:684-841 | The stored status after an accepted ingest is the one its outcomes call for: parked on any draw or on mixed outcomes, superseded if it only loses, IDEMPOTENCY_ACCEPTED if a rule is missing |
| `HoldingPen.ExpiryIsInvisible` | backend/src/modules/conflicts/holding-pen.service.ts:15-24 | With a key lifetime of window plus 30 s, any timely sequence of adds and checks reads exactly what it would read if keys never expired |
| `HoldingPen.LateCheckMissesAnEntry` | backend/src/modules/conflicts/holding-pen.service.ts:15-24 | The 30 s are tight: one millisecond later an entry inside the window is missed |
| `HoldingPen.PruningIsExact` | backend/src/modules/conflicts/holding-pen.service.ts:37-51 | After a check the sets of the paths of the event hold exactly what lies inside its window, to the millisecond, and no other set or expiry has changed |
| `HoldingPen.ReadingIsExact` | backend/src/modules/conflicts/holding-pen.service.ts:53-90 | A check finds exactly the other entries under the paths of the event that lie inside its window and have not expired |
| `HoldingPen.AddingIsExact` | backend/src/modules/conflicts/holding-pen.service.ts:92-109 | Adding stores receivedAt under each path, sets the expiry to the window and 30 s from now, keeps what had not expired, and touches no other key |
| `HoldingPen.RedisPen.RemoveExpiredEntries` | backend/src/modules/conflicts/holding-pen.service.ts:37-51 | Removes exactly the entries of one sorted set that lie before the window start |
| `HoldingPen.RedisPen.Check` | backend/src/modules/conflicts/holding-pen.service.ts:53-90 | The field-by-field loop prunes and reads as CheckForConflicts says, each field on its own and failing Redis calls skipped |
| `HoldingPen.RedisPen.Add` | backend/src/modules/conflicts/holding-pen.service.ts:92-109 | The loop adds the event to the set of each of its paths and renews those keys, and touches no other key |
| `OrderIndependence.OnlyTheOwnersEventsSurvive` | backend/src/modules/conflicts/conflict.service.ts:359-467 | In a batch on one UBID with equal fields inside one window, where every rule names one owner, exactly the events of the owner end unsuperseded, in whatever order they arrive |
| `OrderIndependence.ArrivalOrderDoesNotMatter` | backend/src/modules/conflicts/conflict.service.ts:652-841 | Two processing orders of the same batch supersede the same events |
| `Authority.RuleIgnoresRowOrder` | backend/src/modules/conflicts/authority-matrix.service.ts:55-88 | The highest active version is found whatever the order of the rows |
| `Authority.BestRow` | backend/src/modules/conflicts/authority-matrix.service.ts:55-75 | The row returned is active, for this path, and of the highest version; none is returned only if there is none |
| `Authority.RuleOfTheHighestVersion` | backend/src/modules/conflicts/authority-matrix.service.ts:55-88 | The rule of a path is that of its active row of the highest version |
| `Authority.DecisionComparesRanks` | backend/src/modules/conflicts/conflict.service.ts:359-437 | Between systems a field decision compares two ranks: owner over fallback over the rest, equal ranks and manual rules going to review |
| `Authority.LatestOfOneSystemWins` | backend/src/modules/conflicts/conflict.service.ts:374-386 | Between events of one system the later one wins |
| `Authority.BeatsIsAStrictOrder` | backend/src/modules/conflicts/conflict.service.ts:359-437 | For each rule "beats" is irreflexive, antisymmetric and transitive |
| `Authority.OutcomeIsUnanimity` | backend/src/modules/conflicts/conflict.service.ts:455-467 | An event wins or loses against another exactly if every shared field says so; anything mixed goes to review |
| `Authority.SwappingEventsMirrorsTheOutcome` | backend/src/modules/conflicts/conflict.service.ts:359-467 | Swapping the current and the competing event mirrors the outcome for every non-empty set of paths, review staying review |
| `Domain.FieldPathsOf` | backend/src/modules/conflicts/canonical-field-paths.ts:28-35 | The paths of an event are the images of its changed fields, without repetition |
| `Conflicts.ConflictService.GetConflictCandidateGroups` | backend/src/modules/conflicts/conflict.service.ts:306-357 | Grouping the raw candidates and dropping own-system and superseded rows gives the groups the specification names, and their order enumerates them |
| `Conflicts.ConflictService.KeepCompeting` | backend/src/modules/conflicts/conflict.service.ts:346-357 | Keeps exactly the returned rows of other systems that are not superseded, with their fields |
| `Conflicts.ConflictService.Evaluate` | backend/src/modules/conflicts/conflict.service.ts:439-467 | The verdict over one competing event, or none if a shared field has no rule |
| `Conflicts.ConflictService.EvaluateAll` | backend/src/modules/conflicts/conflict.service.ts:668-692 | The set of outcomes that occur among the competing events, or none if a rule is missing |
| `Conflicts.ConflictService.DetectAndResolve` | backend/src/modules/conflicts/conflict.service.ts:652-841 | The step-by-step service leaves the tables and the result that Detect specifies, and an event table of the same events |
| `Conflicts.ConflictService.CreateManualReviewArtifacts` | backend/src/modules/conflicts/conflict.service.ts:601-632 | One OPEN conflict and one OPEN review item per competing event, under the same id |
| `Conflicts.ConflictService.SupersedeCompetitors` | backend/src/modules/conflicts/conflict.service.ts:634-650 | One AUTO_RESOLVED conflict and one supersession in favour of the event per competitor |
| `Conflicts.ConflictService.ReviewConflict` | backend/src/modules/conflicts/conflict.service.ts:907-1055 | A review applies or is refused as Review specifies; a refused one changes nothing |
| `Supersessions.AdmissionKeepsLinks` | backend/src/modules/conflicts/conflict.service.ts:721-840 | A detection supersedes only events that were not superseded, always in favour of events that survive that moment, even if Redis fails |
| `Supersessions.ChainsAreFinite` | backend/src/modules/conflicts/conflict.service.ts:278-304 | No event occurs twice in a chain of supersededBy links and no chain is longer than the log of supersessions |
| `Supersessions.ChainsStopAtSurvivors` | backend/src/modules/conflicts/conflict.service.ts:278-304 | A chain can be continued exactly while its last event is superseded |
| `SystemRuns.SupersessionIsWellFounded` | backend/src/modules/conflicts/conflict.service.ts:721-840 | In every reachable state, from any event a chain of supersededBy links leads to an event that is not superseded |
| `SystemRuns.EveryChainEndsAtASurvivor` | backend/src/modules/conflicts/conflict.service.ts:721-840 | In every reachable state every chain of such links is free of repetition, bounded by the number of supersessions, and can be continued exactly while it ends in a superseded event |
| `SystemRuns.SupersededForGood` | backend/src/modules/queues/processors/processor.shared.ts:231-255 | SUPERSEDED is never left by ingests or worker runs |
| `SystemRuns.SupersededOnce` | backend/src/modules/conflicts/conflict.service.ts:721-840 | Conflict resolution supersedes each event at most once |
| `ReviewDiscipline.AtMostOneVerdict` | backend/src/modules/conflicts/conflict.service.ts:907-1019 | Over any run a conflict accepts at most one review, and only if it was parked and awaiting one |
| `ReviewDiscipline.ItemsStayInStep` | backend/src/modules/conflicts/conflict.service.ts:530-555 | In every reachable state each parked conflict has exactly one review item and their statuses agree |
| `ReviewDiscipline.ReviewSpelledOut` | backend/src/modules/conflicts/conflict.service.ts:907-1055 | The whole effect of an accepted review, the same for every way to give the action and the name of the person: one conflict, its items and the status of its event change, and nothing else |
| `SafetyLimits.ReviewIsSafeIff` | backend/src/modules/conflicts/conflict.service.ts:961-1035 | An accepted rejection always keeps conflict safety; an approval keeps it if and only if the approved event clashes with no other event that stands |
| `SafetyLimits.ApprovalRevivesTheClash` | backend/src/modules/conflicts/conflict.service.ts:961-1035 | Approving an event that was parked against a still deliverable one makes both deliverable |
| `Conflicts.NormalizeReviewAction` | backend/src/modules/conflicts/conflict.service.ts:580-599 | An explicit action wins; otherwise exactly a REJECTED outcome rejects, and a missing or pending one is no action |
| `CacheRefinement.CacheRefinesTable` | backend/src/modules/idempotency/idempotency.service.ts:189-263 | Over all runs of checks and saves of requests with keys from a given set, in any interleaving and with a cache that may forget entries and miss reads and writes, the verdict and existing event id are those of a version that reads only the table, if and only if in that set whoever shares a key string with a duplicate of a request is a duplicate of it too |
| `CacheRefinement.ReusedRequestIdBreaksTheRefinement` | backend/src/modules/idempotency/idempotency.service.ts:202-235 | Three receivable requests break it: one request id with two contents, and the second content again under an id of its own; the first two alone do not |
| `CachedAnswers.ResubmissionGetsTheAnswer` | backend/src/modules/idempotency/idempotency.service.ts:189-263 | A request with a key in common with a row is a duplicate of its event and gets its answer, or none from a stale copy; with exact copies it gets the answer |
| `CachedAnswers.SubmissionStaysExact` | backend/src/modules/idempotency/idempotency.service.ts:265-316 | From an exact cache, an accepted and answered submission leaves every copy equal to its row if and only if its save is written, or its check cached nothing, or Redis has forgotten all its keys by then |
| `CachedAnswers.MissedSaveLosesTheAnswer` | backend/src/modules/idempotency/idempotency.service.ts:265-316 | From any sound store, some behaviour of Redis makes the next duplicate miss the answer if and only if that is not so |
| `CachedAnswers.TableHasTheAnswer` | backend/src/modules/idempotency/idempotency.service.ts:265-316 | The table has the answer in any case |
| `Idempotency.IdempotencyService.GetRedisDuplicate` | backend/src/modules/idempotency/idempotency.service.ts:91-113 | The first hit among primary and fallback key, or none if Redis does not answer |
| `Idempotency.IdempotencyService.SetRedisPayload` | backend/src/modules/idempotency/idempotency.service.ts:115-143 | Writes the payload under both keys and nothing else |
| `Idempotency.IdempotencyService.CheckAndStoreEvent` | backend/src/modules/idempotency/idempotency.service.ts:189-263 | Cache, then table, then create, with the cache refreshed under the keys of the incoming request |
| `Idempotency.CopiesAreRefilled` | backend/src/modules/idempotency/idempotency.service.ts:189-263 | Unless the cache answers or cannot be written, a check leaves the copy of the row it found or created under both keys, and no other key changes |
| `Idempotency.IdempotencyService.Save` | backend/src/modules/idempotency/idempotency.service.ts:265-316 | Saves the answer in every row that matches the found row, and in the cache |
| `Idempotency.Find` | backend/src/modules/idempotency/idempotency.service.ts:145-161 | Returns a matching row, and none only if no row matches |
| `IdempotencyRace.AcceptedSubmissionsShareNoKey` | backend/src/modules/idempotency/idempotency.service.ts:189-316 | When lookups, creates, saves and cache loss interleave freely, accepted submissions share neither a primary nor a fallback key |
| `IdempotencyRace.CollisionsNeverCrash` | backend/src/modules/idempotency/idempotency.service.ts:237-262 | The lookup after a unique-key violation always finds the other row, so it is never rethrown |
| `IdempotencyRace.DuplicatesNameAnAcceptedSubmission` | backend/src/modules/idempotency/idempotency.service.ts:189-263 | A duplicate verdict always names a submission that was accepted |
| `IdempotencyKeys.PrimaryKeyIsInjective` | backend/src/modules/idempotency/idempotency.keys.ts:3-5 | A primary key determines its system and request id |
| `IdempotencyKeys.FallbackKeyIsInjective` | backend/src/modules/idempotency/idempotency.keys.ts:7-14 | A fallback key determines its four parts as long as UBIDs hold no colon |
| `IdempotencyKeys.FallbackKeyDecidesTheRequest` | backend/src/modules/ksync/canonical-event.factory.ts:36-58 | Two requests share a fallback key exactly if they agree in system, UBID and service and their payloads mean the same, whatever the order of their members |
| `IdempotencyKeys.SystemsShareNoKey` | backend/src/modules/idempotency/idempotency.keys.ts:3-14 | Requests of two systems have no key in common |
| `IdempotencyKeys.KeySpacesMeet` | backend/src/modules/idempotency/idempotency.keys.ts:3-14 | A primary key equals some fallback key exactly if its request id spells out ubid, service and hash |
| `Replay.ResubmissionNamesTheOriginal` | backend/src/modules/ksync/ksync.service.ts:220-279 | At any later time in a run, and whatever happened to any save, a request with a key in common with an answered one gets the first answer with duplicate set; at most the status differs, and then it is the current one of the original event. It adds no job, conflict, pen entry or table row and changes no other event |
| `Replay.ResubmissionRepeatsTheAnswer` | backend/src/modules/ksync/ksync.service.ts:220-279 | If the save of the first answer reached the copies of its check, the status is the first one too |
| `Replay.ThrownRequestIsNeverRetried` | backend/src/modules/ksync/ksync.service.ts:404-424 | A request whose detection threw is spent: every later request with a key in common is answered as its duplicate with IDEMPOTENCY_ACCEPTED and no targets, even if the rule exists by then |
| `CacheRefinement.RequestsAreConsistent` | backend/src/modules/idempotency/idempotency.service.ts:70-85 | Requests with colon-free ids that are never reused with other content have consistent keys |
| `CacheRefinement.ConsistentUniversesAreClosed` | backend/src/modules/idempotency/idempotency.service.ts:189-263 | Consistent keys meet that condition |
| `Ksync.KsyncService.IngestRequest` | backend/src/modules/ksync/ksync.service.ts:338-502 | The composed services leave the stores and the answer that Ingest specifies; an exception leaves no answer |
| `Ksync.KsyncService.EnqueueTargetWriteJobs` | backend/src/modules/ksync/ksync.service.ts:281-325 | One fresh job per target with an identifier and its type; the count is positive exactly if there is one |
| `Ksync.KsyncService.Route` | backend/src/modules/ksync/ksync.service.ts:438-501 | Queues the jobs, writes the routed targets and status, and saves the answer under both keys |
| `Ksync.KsyncService.ProcessJob` | backend/src/modules/queues/processors/processor.shared.ts:225-269 | A worker run on the shared event table, with the target resolved against the registry of the moment |
| `RoutedAnswers.RoutedIngest` | backend/src/modules/ksync/ksync.service.ts:438-501 | An accepted event that is not withheld, by routing table and registry rows alone: stored and answered status agree; it is QUEUED exactly if the first active row of some target has identifier and type, ROUTED exactly if some has an identifier but none a type besides, TARGET_NOT_APPLICABLE exactly without targets, REGISTRATION_REQUIRED exactly if no target has an active row, TARGET_MAPPING_MISSING exactly in the rest; the stored and answered targets are the identified ones with their identifiers, each once; exactly the queueable ones get an untouched job with the configured attempts, and no other job changes |
| `RoutedAnswers.WithheldIngest` | backend/src/modules/ksync/ksync.service.ts:426-436 | A parked or superseded event is answered with its stored status and no targets, and nothing is routed or queued |
| `Routing.QueuedTargetsResolve` | backend/src/modules/queues/processors/processor.shared.ts:124-154 | A job is queued for a target exactly if, with the same registry, a worker resolves it |
| `Routing.OwnRowsDecide` | backend/src/modules/ubid-registry/ubid.service.ts:106-157 | Two registries with the same rows for the UBID of an event resolve the same targets |
| `Routing.NeverBackToTheSource` | backend/src/modules/routing/routing.rules.ts:5-15 | No event is routed back to its source, and only to targets of its routing rule |
| `Routing.StatusExplainsRouting` | backend/src/modules/routing/routing.service.ts:12-59 | ROUTED exactly if some target has an active row with an identifier, TARGET_NOT_APPLICABLE exactly if there is no target, REGISTRATION_REQUIRED exactly if no target is registered, TARGET_MAPPING_MISSING otherwise |
| `Routing.FindMapping` | backend/src/modules/ubid-registry/ubid.service.ts:106-157 | The registry lookup returns an active row of the UBID and system, and none only if there is none |
| `RunDelivery.JobsEndWithinTheirAttempts` | backend/src/modules/queues/processors/processor.shared.ts:225-454 | Every job is given up within maxAttempts runs, and its record then says COMPLETED or DLQ_MOVED if and only if its last run resolved its target; before that it says neither |
| `RunDelivery.UnchangedRowsEndInARecord` | backend/src/modules/queues/processors/processor.shared.ts:124-154 | While the registry rows of its own UBID stay as routing saw them, a job can be run again exactly until it is COMPLETED or DLQ_MOVED, maxAttempts runs always get it there, and its recorded attempts are its runs, whatever happens to other rows |
| `RunDelivery.EveryJobWasQueued` | backend/src/modules/ksync/ksync.service.ts:281-325 | Every job of a reachable state was queued by one ingest of the run |
| `JobBudgets.WorkerRun` | backend/src/modules/queues/processors/processor.shared.ts:225-453 | One worker run, write by write and in every state: job record, event status, audit entries, dead letters and target writes for a superseded event, an unresolved target, a success, a failed write and a failed translation, with the target resolved by the registry rows of the moment |
| `JobBudgets.JobsKeepTheirBudget` | backend/src/modules/queues/queue.service.ts:66-78 | A job has, for good, the maximum of attempts that the ingest which queued it was configured with |
| `JobBudgets.FailingJobsUseTheirBudget` | backend/src/modules/queues/processors/processor.shared.ts:371-453 | A job all of whose runs resolve and fail is dead-lettered exactly by the run whose number is that maximum, with DLQ_MOVED on its event, and every run before reschedules it 5, 15 and then 30 seconds later with RETRY_SCHEDULED |
| `JobBudgets.JobsEndWithinTheirBudget` | backend/src/modules/queues/processors/processor.shared.ts:225-454 | Every job is given up within the attempts of its ingest, and its record then says COMPLETED or DLQ_MOVED if and only if its last run resolved its target |
| `JobBudgets.UnchangedRowsEndWithinTheBudget` | backend/src/modules/queues/processors/processor.shared.ts:124-154 | While the registry rows of its own UBID stay as routing saw them, those attempts always bring it to COMPLETED or DLQ_MOVED, and its recorded attempts are its runs |
| `RunDelivery.BooksBalance` | backend/src/modules/queues/queue.service.ts:299-348 | In every reachable state WRITE_FAILED entries equal RETRY_SCHEDULED plus DLQ_MOVED entries, there is one dead letter exactly for a DLQ_MOVED job, and, unless its event is superseded, one write exactly for a COMPLETED job |
| `RunDelivery.RecordsAgreeWithTheQueue` | backend/src/modules/queues/queue.service.ts:224-348 | The recorded attempts of a job are its runs so far if and only if the last of them resolved its target, and the recorded delay of a waiting retry is then the backoff that the worker applies |
| `RunDelivery.CompletedMeansAllJobs` | backend/src/modules/queues/processors/processor.shared.ts:199-223 | An event with jobs that was never superseded is COMPLETED exactly if all its job records are |
| `RunDelivery.DeadLetterExcludesCompleted` | backend/src/modules/queues/processors/processor.shared.ts:327-381 | A dead-lettered job keeps its event from COMPLETED for good, in whatever order its siblings finish |
| `RunDelivery.FinishedForGood` | backend/src/modules/queues/queue.service.ts:224-348 | The record of a finished job never changes again |
| `RunDelivery.OnlyAdmittedEventsHaveJobs` | backend/src/modules/ksync/ksync.service.ts:426-480 | Duplicates, parked events and events whose detection threw never have a write job |
| `Delivery.GivenUpIsRecordedIffResolved` | backend/src/modules/queues/processors/processor.shared.ts:257-269 | When BullMQ gives a job up, its record says so exactly if the last attempt resolved its target, because resolution throws outside the try block |
| `Delivery.RunsShrinkTheMeasure` | backend/src/modules/queues/processors/processor.shared.ts:371-380 | Every run finishes the job or uses up one attempt |
| `Delivery.RunKeepsHubSound` | backend/src/modules/queues/processors/processor.shared.ts:225-454 | One worker run keeps the books of every job balanced and the status of every event in line with its jobs |
| `Delivery.WriteWorker.Process` | backend/src/modules/queues/processors/processor.shared.ts:225-454 | The step-by-step run leaves what ProcessWriteJob specifies, and throws exactly if the target was not resolved or the attempt failed |
| `Delivery.WriteWorker.Deliver` | backend/src/modules/queues/processors/processor.shared.ts:277-370 | The successful path: write, completed record, aggregate status and three audit entries |
| `Delivery.WriteWorker.GiveUpOrRetry` | backend/src/modules/queues/processors/processor.shared.ts:371-453 | The failure path: retry with its delay, or dead letter and DLQ_MOVED at the last attempt |
| `Delivery.GetRetryDelayMs` | backend/src/modules/queues/queue.service.ts:84-91 | 5 s, then 15 s, then 30 s |
| `Delivery.BackoffStrategy` | backend/src/config/queues.ts:39-50 | The same delays for the staged strategy, none for any other |
| `FailureSimulation.JobWithScheduledFailures` | backend/src/modules/scenarios/failure-simulation.service.ts:14-46 | With k failures scheduled and n attempts an otherwise sound job completes exactly if k < n, fails min(k, n) times and leaves k - min(k, n); for k >= n >= 3 its whole backoff is 30000*(n-1) - 40000 ms |
| `FailureSimulation.RunOutCounts` | backend/src/modules/scenarios/failure-simulation.service.ts:26-46 | The same from any attempt on, with every other rule untouched |
| `FailureSimulation.RecordedDelayIsTheWorkers` | backend/src/modules/queues/queue.service.ts:261-279 | The recorded delay of a rescheduled job is the backoff the worker applies |
| `FailureSimulation.EmptyReasonNeverFails` | backend/src/modules/adapters/ekarmika.adapter.ts:118-122 | A rule scheduled with an empty reason is used up without failing a write |
| `FailureSimulation.ConsumingTakesOne` | backend/src/modules/scenarios/failure-simulation.service.ts:26-46 | One consumption takes exactly one due failure of its own key, if there is one, gives its reason, and touches no other rule |
| `FailureSimulation.ScheduledFailuresAreDue` | backend/src/modules/scenarios/failure-simulation.service.ts:14-46 | A schedule of n failures gives its reason to exactly the next n writes under its key, however the writes under other keys come in between |
| `FailureSimulation.FailureSimulator.RunToTheEnd` | backend/src/modules/queues/processors/processor.shared.ts:371-453 | A single consumer running the job until it is finished computes RunOut |
| `CanonicalJson.SortedFormDecidesMeaning` | backend/src/modules/polling/diff.service.ts:29-44 | sortValue gives identical results exactly for values equal up to the order of object keys at every depth, members named __proto__ aside |
| `CanonicalJson.SortValueIsIdempotent` | backend/src/modules/ksync/canonical-event.factory.ts:19-34 | Sorting again changes nothing, and sorting keeps the meaning |
| `CanonicalJson.KeyOrderIsTotal` | backend/src/modules/ksync/canonical-event.factory.ts:25-30 | The order in which a sorted object enumerates its keys, index keys first, is a strict total order |
| `CanonicalJson.KeysComeOutInOrder` | backend/src/modules/ksync/canonical-event.factory.ts:25-30 | Index keys come out in the order of the numbers they spell, before all others, which come out in the order of their characters |
| `CanonicalJson.IndexKeysAreSmall` | backend/src/modules/ksync/canonical-event.factory.ts:25-30 | Index keys are exactly the decimal numbers below 2^32 - 1 |
| `JsonText.PrintIsInjective` | backend/src/modules/ksync/canonical-event.factory.ts:37-37 | JSON.stringify, with its escapes, never gives two values one text |
| `JsonText.StringsAreReadBack` | backend/src/modules/ksync/canonical-event.factory.ts:37-37 | Undoing the escapes of a printed string gives the string back |
| `JsonText.TextDecidesMeaning` | backend/src/modules/polling/diff.service.ts:46-48 | areValuesEqual holds exactly for values with the same meaning |
| `JsonText.DigestDecidesMeaning` | backend/src/modules/ksync/canonical-event.factory.ts:36-40 | So the payload hash and the snapshot hash depend on meaning only, for any injective digest |
| `Address.PrintingTheParse` | backend/src/modules/polling/diff.service.ts:50-81 | Printing the parse of an address gives its parts joined by ", " exactly if there are at least four ending in a six-digit code, or one that is not a code, or the same one twice |
| `Address.PrintingTheParseAgain` | backend/src/modules/polling/diff.service.ts:50-81 | Doing it again then changes nothing |
| `Address.ParsingThePrint` | backend/src/modules/mock-ekarmika/mockEkarmika.service.ts:81-85 | An address with clean fields is read back from its print exactly if it has no line2 and no district and a six-digit code |
| `Address.JoinedPartsAreReadBack` | backend/src/modules/polling/diff.service.ts:55-58 | Splitting, trimming and filtering reads clean joined parts back exactly |
| `Address.PartsAreClean` | backend/src/modules/polling/diff.service.ts:55-58 | Every part is trimmed, not blank and free of commas |
| `Address.FieldsOfParts` | backend/src/modules/polling/diff.service.ts:50-81 | Which part becomes which field, counted from the end, with and without a postal code |
| `Address.SplittingLosesNothing` | backend/src/modules/polling/diff.service.ts:55-58 | The segments with their commas put back are the address |
| `Address.TrimmingCutsSpace` | backend/src/modules/polling/diff.service.ts:55-58 | Trimming takes all the white space off both ends and nothing else |
| `Diff.DiffObjects` | backend/src/modules/polling/diff.service.ts:172-199 | The loop over the mapping table finds what DiffSnapshots specifies |
| `Diff.DiffOver` | backend/src/modules/polling/diff.service.ts:179-196 | An entry is found exactly for each mapping whose two values differ in meaning |
| `Diff.EntryCarries` | backend/src/modules/polling/diff.service.ts:83-164 | Each entry is of a field of that system, has the old and the new value, which differ in meaning, and the canonical path and service type of one payload field; its fragment gives the new value in that field and nothing in any other |
| `Diff.MappingsCoverSnapshots` | backend/src/modules/polling/diff.service.ts:83-164 | Every field of a snapshot has exactly one mapping, and no two mappings of a system share a service type |
| `Diff.SameHashMeansNoDiff` | backend/src/modules/polling/snapshot.service.ts:89-93 | Two snapshots have the same hash exactly if diffing them finds nothing |
| `PayloadHashes.HashTellsPayloadsApart` | backend/src/modules/ksync/canonical-event.factory.ts:36-40 | Two payloads have one hash exactly if they are equal in every field, so an echo with the payload of its event has its very values |
| `Diff.OverlayGivesTheNewSnapshot` | backend/src/modules/polling/diff.service.ts:172-199 | Overlaying the new values of the entries on the old snapshot gives the new snapshot |
| `PollingLaws.NoChangeMeansNoDiff` | backend/src/modules/polling/polling.service.ts:460-471 | A poll reports NO_CHANGE exactly if diffing would find nothing |
| `PollingLaws.DiffsAddUp` | backend/src/modules/polling/polling.service.ts:417-584 | Over any run of polls the baseline overlaid with all entries in order equals the last saved snapshot, which equals the last polled one |
| `PollingLaws.GroupingPartitions` | backend/src/modules/polling/polling.service.ts:479-493 | Each entry is in the group of its own service type, in order, or among the unsupported ones |
| `PollingLaws.GroupsAreSingletons` | backend/src/modules/polling/polling.service.ts:485-502 | In a poll every group holds exactly one entry |
| `PollingLaws.PollIgnoresOtherEvents` | backend/src/modules/polling/polling.service.ts:246-306 | Events recorded during a poll, under other ids than the one that the record names, do not change what it reports |
| `PollingLaws.EveryDifferenceIsCountedOnce` | backend/src/modules/polling/polling.service.ts:495-571 | Events created, echoes confirmed and unsupported changes together count each differing field once |
| `EchoChecks.PollReports` | backend/src/modules/polling/polling.service.ts:211-306 | A poll confirms a difference exactly if the record carries the trace of a known event of another system, same UBID and same service type, applied within 5000 ms of its last change, which has the payload of the difference or changes exactly its field; it ingests exactly one request with the new value for every other supported difference |
| `EchoChecks.EventsPerDifference` | backend/src/modules/polling/polling.service.ts:495-555 | So it creates one event for each supported difference that is no such echo, and none besides |
| `EchoChecks.UntracedChangesAreEvents` | backend/src/modules/polling/polling.service.ts:211-222 | If the trace is missing, names an unknown event or is more than 5000 ms off, every supported difference comes back as an event of its own |
| `EchoChecks.UnsupportedIsSkipped` | backend/src/modules/polling/polling.service.ts:556-571 | The worker limit of e-Surakshate, which has no service type, is skipped and named when it changed, and nothing else ever is |
| `EchoChecks.QuietPolls` | backend/src/modules/polling/polling.service.ts:430-471 | A first poll and one that finds nothing new report just that; what is stored afterwards is the last snapshot that differed |
| `PollingLaws.MergingAddsUp` | backend/src/modules/polling/polling.service.ts:586-608 | Merging run summaries adds every total and concatenates actions, and one summary stays itself |
| `PollingLaws.LaterFragmentsWin` | backend/src/modules/polling/polling.service.ts:98-140 | Of several fragments the later wins field by field, and an address keeps the optional lines that the later one does not give |
| `Polling.Poller.PollNormalizedRecord` | backend/src/modules/polling/polling.service.ts:417-584 | The poll returns the summary, stores the snapshot and ingests the requests that Poll specifies |
| `Polling.Poller.ProcessGroups` | backend/src/modules/polling/polling.service.ts:495-555 | One action per group; exactly the created ones are ingested |
| `Polling.Poller.GroupByServiceType` | backend/src/modules/polling/polling.service.ts:479-493 | Groups in order of first appearance, and the unsupported rest |
| `Polling.Poller.MergeCanonicalPayloadFragments` | backend/src/modules/polling/polling.service.ts:98-140 | Merges the fragments in order |
| `PollingLaws.PollsDoNotInterfere` | backend/src/modules/polling/snapshot.service.ts:95-170 | In a run of polls of any records in any order, the next poll of a record starts from what the polls of that record alone have left |
| `Echo.NoEventIffAllAnnounced` | backend/src/modules/polling/polling.service.ts:224-306 | The poll after a write creates no event exactly if every supported difference was announced by the written event: its service type, and its payload or its one changed field |
| `Echo.FactoryEchoIsSuppressed` | backend/src/modules/adapters/esurakshate.adapter.ts:150-264 | On e-Surakshate, if the only change since the last snapshot is one write for an SWS event of exactly the registered address or exactly the signatory, with matching service type and stamps within 5 s, the next poll creates no event |
| `Echo.LabourEchoIsSuppressed` | backend/src/modules/adapters/ekarmika.adapter.ts:113-209 | The same on e-Karmika |
| `Echo.TwoDifferencesComeBack` | backend/src/modules/polling/polling.service.ts:224-306 | On either system, a record written for an event that differs in two supported fields always comes back as an event |
| `Echo.TwoFieldEcho` | backend/src/modules/polling/polling.service.ts:275-280 | Exactly when the echo of an event changing address and manager is recognised: each of the two that differs must be the whole payload of the event, under its own service type |
| `Echo.FactoryTwoFieldEcho` | backend/src/modules/adapters/esurakshate.adapter.ts:150-264 | The same for one write on e-Surakshate, in terms of the row and the translated payload; it never holds if both values are new |
| `Echo.LabourTwoFieldEcho` | backend/src/modules/adapters/ekarmika.adapter.ts:113-209 | The same on e-Karmika, where a string employerName hides the manager, so that only the address has to pass |
| `Echo.FactoryWriteShows` | backend/src/modules/adapters/esurakshate.adapter.ts:179-249 | A write shows in the next snapshot exactly in the fields that the event changes and the translation gives |
| `Echo.LabourWriteShows` | backend/src/modules/adapters/ekarmika.adapter.ts:148-194 | The same on e-Karmika, where a written manager stays invisible while the raw payload holds an employerName |
| `LoopFreedom.ChangesComeBackIff` | backend/src/modules/polling/polling.service.ts:224-306 | Over runs of ingests, worker runs with the writes they make, polls and edits of the departments: in every reachable state, for a row that since its last poll has changed by writes of one-field SWS changes only, if at all, the next poll creates no event if and only if there was no such write or the field that the last one did not change shows as that poll left it |
| `LoopFreedom.OneFieldNeverComesBack` | backend/src/modules/polling/polling.service.ts:224-306 | Changes of one and the same field, delivered any number of times since the last poll of the row, do not come back as an event |
| `LoopFreedom.SecondWriteHidesTheFirst` | backend/src/modules/adapters/esurakshate.adapter.ts:235-249 | A write of one field, while the row shows an unpolled change of the other, makes the next poll create an event |
| `LoopFreedom.UntracedChangesComeBack` | backend/src/modules/polling/polling.service.ts:211-222 | In every reachable state, a polled row without a trace within 5000 ms of its last change comes back with one event for each supported field that shows differently |
| `LoopFreedom.LateEditComesBack` | backend/src/modules/polling/polling.service.ts:211-222 | So does the edit of a department that keeps the trace of the last write but is stamped more than 5000 ms after it |
| `LoopExample.ADeliveredChangeComesBack` | backend/src/modules/adapters/esurakshate.adapter.ts:235-249 | A run from the empty backend in which that happens: a row is polled, SWS changes its address and then its signatory, both are delivered, and the next poll creates an event |
| `LoopExample.BothAreReceivable` | backend/src/validation/ksync.schemas.ts:7-164 | The ingest schema accepts both requests of that run |
| `Adapters.EsurakshateAdapter.Write` | backend/src/modules/adapters/esurakshate.adapter.ts:150-264 | Updates the row of the target only, as FactoryWritten specifies, or reports it missing |
| `Adapters.EkarmikaAdapter.Write` | backend/src/modules/adapters/ekarmika.adapter.ts:113-209 | Consumes a due simulated failure first and then writes nothing; otherwise updates the row of the target only |
| `AdapterColumns.FactoryWrite` | backend/src/modules/adapters/esurakshate.adapter.ts:179-249 | The e-Surakshate write in terms of the translated payload: each of the six columns, and both raw spellings of each of the seven keys, take the capitalized key if there is one, else the plain one, if the event changes the field, and else stay; stamps, trace and defaulted identities as written; no other raw key changes |
| `AdapterColumns.FactoryFieldsReported` | backend/src/modules/adapters/esurakshate.adapter.ts:37-100 | It reports exactly the changed fields that the payload gives under either key, in the order of the checks |
| `AdapterColumns.FactoryRecord` | backend/src/modules/polling/polling.service.ts:349-391 | What polling reads from an e-Surakshate row: each snapshot field, the identity, the stamp and the trace; a row without license number is not polled |
| `AdapterColumns.LabourWrite` | backend/src/modules/adapters/ekarmika.adapter.ts:148-194 | The same for the e-Karmika write, with the business name and the raw employerName taken from employerName before businessName, and no other raw key changed |
| `AdapterColumns.LabourFieldsReported` | backend/src/modules/adapters/ekarmika.adapter.ts:30-80 | And what it reports; never a license expiry |
| `AdapterColumns.LabourRecord` | backend/src/modules/polling/polling.service.ts:308-347 | The same of an e-Karmika row, where a string employerName stands in for the manager |
| `Adapters.UpdatedFields` | backend/src/modules/adapters/esurakshate.adapter.ts:37-100 | Exactly the changed fields the translation has a value for |

## Left out

- The frontend, HTTP routes and controllers, middleware, seeding, scenario scripts, dashboards and audit
  queries: plumbing and read-only views.
- Prisma, ioredis and BullMQ internals: only unique keys, sorted-set commands, key expiry, attempts and a
  single consumer per queue are modelled.
- The text and metadata of audit entries, and the audit entries of ingest, conflicts and polling: only the
  entries written by a worker run are modelled.
- Races inside one ingest or one worker run, and two ingests overlapping; only the idempotency calls are
  modelled with free interleaving (IdempotencyRace).
- Idempotency.IdempotencyService.CheckAndStoreEvent: does not model the unique-key violation on create, which
  cannot happen in one atomic call; IdempotencyRace models it.
- Human review together with ingests and worker runs: a review is a step of ReviewDiscipline only.
- JSONata translation and XML building: the translated payload of a write is a parameter. The sws adapter.
- clearExpired in the holding pen, replayConflict, getCachedResponse and the polling and retry workers: unused
  or placeholders.
- Identifiers: event ids are fresh numbers, a conflict's id is its position, Redis key prefixes and the
  `target:ubid` rule key are pairs.
- CanonicalJson.KeyOrderIsTotal: compares Unicode scalar values where JavaScript compares UTF-16 code units;
  the two orders differ only on keys with characters above U+FFFF, and every property holds for either.
- JSON numbers are their printed text, undefined is an absent field, and NaN, dates and functions are not JSON
  values of the model.
- Polling.Poller.PollNormalizedRecord: takes the event table as it was before the poll; the events that the
  poll itself ingests have fresh ids, and PollingLaws.PollIgnoresOtherEvents says that those change nothing.
- Members named `__proto__`, which sorting drops: the payload schema and the snapshots have fixed field names,
  so neither hash receives one. CanonicalJson states its results with such members set aside.
- Writes to SWS, and what a poll ingests: in LoopFreedom the requests of a poll arrive as later ingests, which
  may be any, and a write to SWS is a worker run without a row.
- Polling.Poller.SaveSnapshot: stores the snapshot itself; the database may reorder object keys, which no
  comparison of the model can see.
- Adapters.EsurakshateAdapter.Write: does not write the snapshotXml column, which nothing modelled reads; keeps
  lastPropagation apart from the other raw keys, and takes the time stamps and their printed form as parameters.
