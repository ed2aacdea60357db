/** Write jobs: attempts, retries, dead letters and the aggregate status of their event. */
module Delivery {
  import opened Domain

  /** queueName:eventId:target; the queue follows from the target. */
  datatype JobId = JobId(eventId: EventId, target: SystemName)

  datatype JobStatus = JOB_QUEUED | JOB_PROCESSING | JOB_COMPLETED | JOB_FAILED | JOB_RETRY | JOB_DEAD

  /** The job record, with BullMQ's own view: failures so far and whether it will run again. */
  datatype Job = Job(
    status: JobStatus, recordedAttempts: nat, maxAttempts: nat, retryDelayMs: nat,
    attemptsMade: nat, finished: bool)

  /** An audit entry written while a job is processed. */
  datatype Entry = Entry(job: JobId, status: EventStatus)

  datatype Hub = Hub(
    status: map<EventId, EventStatus>,
    jobs: map<JobId, Job>,
    log: seq<Entry>,
    deadLetters: seq<JobId>,
    writes: seq<JobId>)

  /** What the adapter does in one attempt. */
  datatype Adapter = TRANSLATION_FAILS | WRITE_FAILS | SUCCEEDS

  // ---- Retry delays, as recorded and as the worker applies them ----

  const RECORDED_DELAYS_MS: seq<nat> := [5000, 15000, 30000]
  const WORKER_DELAYS_MS: seq<nat> := [5000, 15000, 30000]

  function GetRetryDelayMs(failedAttempt: nat): (ms: nat)
    ensures ms == if failedAttempt <= 1 then 5000 else if failedAttempt == 2 then 15000 else 30000
  {
    RECORDED_DELAYS_MS[Min(Max(failedAttempt - 1, 0), |RECORDED_DELAYS_MS| - 1)]
  }

  /** The worker's backoff; BullMQ passes the number of failures including the current one. */
  function BackoffStrategy(attemptsMade: nat, staged: bool): (ms: nat)
    ensures staged ==> ms == if attemptsMade <= 1 then 5000 else if attemptsMade == 2 then 15000 else 30000
    ensures !staged ==> ms == 0
  {
    if !staged then 0 else WORKER_DELAYS_MS[Min(Max(attemptsMade - 1, 0), |WORKER_DELAYS_MS| - 1)]
  }

  // ---- One run of a job ----

  function JobsOf(jobs: map<JobId, Job>, e: EventId): set<JobId> {
    set id | id in jobs && id.eventId == e
  }

  /** getPostSuccessEventStatus */
  function PostSuccessStatus(jobs: map<JobId, Job>, e: EventId): EventStatus {
    if JobsOf(jobs, e) == {} then WRITE_SUCCEEDED
    else if exists id :: id in jobs && id.eventId == e && jobs[id].status in {JOB_DEAD, JOB_FAILED} then FAILED
    else if AllCompleted(jobs, e) then COMPLETED
    else WRITE_SUCCEEDED
  }

  predicate AllCompleted(jobs: map<JobId, Job>, e: EventId) {
    forall id :: id in jobs && id.eventId == e ==> jobs[id].status == JOB_COMPLETED
  }

  function Complete(job: Job): Job {
    job.(status := JOB_COMPLETED, recordedAttempts := job.attemptsMade + 1, finished := true)
  }

  /** BullMQ after a throw: one more failure, and the end once the attempts are used up. */
  function Thrown(job: Job): Job {
    job.(attemptsMade := job.attemptsMade + 1, finished := job.attemptsMade + 1 >= job.maxAttempts)
  }

  function Fail(job: Job): Job {
    var recorded := if job.attemptsMade + 1 >= job.maxAttempts
      then job.(status := JOB_DEAD, recordedAttempts := job.attemptsMade + 1)
      else job.(status := JOB_RETRY, recordedAttempts := job.attemptsMade + 1,
                retryDelayMs := GetRetryDelayMs(job.attemptsMade + 1));
    Thrown(recorded)
  }

  predicate Runnable(h: Hub, id: JobId) {
    id in h.jobs && !h.jobs[id].finished && id.eventId in h.status
  }

  function Succeeded(h: Hub, id: JobId): Hub
    requires Runnable(h, id)
  {
    var jobs := h.jobs[id := Complete(h.jobs[id])];
    var status := if PostSuccessStatus(jobs, id.eventId) == COMPLETED then COMPLETED else WRITE_SUCCEEDED;
    h.(jobs := jobs,
       status := h.status[id.eventId := status],
       writes := h.writes + [id],
       log := h.log + [Entry(id, TRANSLATED), Entry(id, WRITE_ATTEMPTED), Entry(id, status)])
  }

  function Failed(h: Hub, id: JobId, attempted: bool): Hub
    requires Runnable(h, id)
  {
    var job := Fail(h.jobs[id]);
    var status := if job.finished then DLQ_MOVED else RETRY_SCHEDULED;
    var before := if attempted then [Entry(id, TRANSLATED), Entry(id, WRITE_ATTEMPTED)] else [];
    h.(jobs := h.jobs[id := job],
       status := h.status[id.eventId := status],
       deadLetters := if job.finished then h.deadLetters + [id] else h.deadLetters,
       log := h.log + before + [Entry(id, WRITE_FAILED), Entry(id, status)])
  }

  /** processWriteJob: resolved says whether the registry still maps the target. */
  function ProcessWriteJob(h: Hub, id: JobId, resolved: bool, adapter: Adapter): Hub
    requires Runnable(h, id)
  {
    if h.status[id.eventId] == SUPERSEDED then h.(jobs := h.jobs[id := Complete(h.jobs[id])])
    else if !resolved then h.(jobs := h.jobs[id := Thrown(h.jobs[id])])
    else match adapter
      case SUCCEEDS => Succeeded(h, id)
      case WRITE_FAILS => Failed(h, id, true)
      case TRANSLATION_FAILS => Failed(h, id, false)
  }

  function NewJob(maxAttempts: nat): Job { Job(JOB_QUEUED, 0, maxAttempts, 0, 0, false) }

  /** enqueueTargetWriteJobs for a new event. */
  function Enqueue(jobs: map<JobId, Job>, e: EventId, targets: set<SystemName>, maxAttempts: nat): map<JobId, Job> {
    map id | id in jobs.Keys + (set t | t in targets :: JobId(e, t)) ::
      if id in jobs then jobs[id] else NewJob(maxAttempts)
  }

  class WriteWorker {
    var status: map<EventId, EventStatus>
    var jobs: map<JobId, Job>
    var log: seq<Entry>
    var deadLetters: seq<JobId>
    var writes: seq<JobId>

    ghost function Abs(): Hub
      reads this
    {
      Hub(status, jobs, log, deadLetters, writes)
    }

    constructor (status: map<EventId, EventStatus>)
      ensures Abs() == Hub(status, map[], [], [], [])
    {
      this.status := status;
      jobs, log, deadLetters, writes := map[], [], [], [];
    }

    /** Adding under a job id that is still untouched changes nothing. */
    method AddJob(id: JobId, maxAttempts: nat)
      requires id in jobs ==> jobs[id] == NewJob(maxAttempts)
      modifies this`jobs
      ensures jobs == old(jobs)[id := NewJob(maxAttempts)]
    {
      jobs := jobs[id := NewJob(maxAttempts)];
    }

    method Note(id: JobId, s: EventStatus)
      modifies this`log, this`status
      ensures log == old(log) + [Entry(id, s)]
      ensures status == old(status)[id.eventId := s]
    {
      status := status[id.eventId := s];
      log := log + [Entry(id, s)];
    }

    /** The part of a run after a successful translation and write. */
    method Deliver(id: JobId)
      requires Runnable(Abs(), id)
      modifies this
      ensures Abs() == Succeeded(old(Abs()), id)
    {
      ghost var h := Abs();
      var job := jobs[id];
      Note(id, TRANSLATED);
      Note(id, WRITE_ATTEMPTED);
      writes := writes + [id];
      jobs := jobs[id := Complete(job)];
      var next := if PostSuccessStatus(jobs, id.eventId) == COMPLETED then COMPLETED else WRITE_SUCCEEDED;
      Note(id, next);
      assert status == h.status[id.eventId := next];
      assert log == h.log + [Entry(id, TRANSLATED), Entry(id, WRITE_ATTEMPTED), Entry(id, next)];
    }

    /** The catch block of a run, and BullMQ's own bookkeeping of the throw. */
    method GiveUpOrRetry(id: JobId)
      requires Runnable(Abs(), id)
      modifies this
      ensures Abs() == Failed(old(Abs()), id, false)
    {
      ghost var h := Abs();
      var job := jobs[id];
      var failedAttempt := job.attemptsMade + 1;
      var last := failedAttempt >= job.maxAttempts;
      status := status[id.eventId := if last then DLQ_MOVED else RETRY_SCHEDULED];
      log := log + [Entry(id, WRITE_FAILED)];
      if last {
        deadLetters := deadLetters + [id];
        jobs := jobs[id := job.(status := JOB_DEAD, recordedAttempts := failedAttempt)];
        log := log + [Entry(id, DLQ_MOVED)];
      } else {
        jobs := jobs[id := job.(status := JOB_RETRY, recordedAttempts := failedAttempt,
                                retryDelayMs := GetRetryDelayMs(failedAttempt))];
        log := log + [Entry(id, RETRY_SCHEDULED)];
      }
      jobs := jobs[id := Thrown(jobs[id])];
      assert jobs == h.jobs[id := Fail(job)];
      assert log == h.log + [] + [Entry(id, WRITE_FAILED), Entry(id, if last then DLQ_MOVED else RETRY_SCHEDULED)];
    }

    /** One worker run; threw says that the job function threw. */
    method Process(id: JobId, resolved: bool, adapter: Adapter) returns (threw: bool)
      requires Runnable(Abs(), id)
      modifies this
      ensures Abs() == ProcessWriteJob(old(Abs()), id, resolved, adapter)
      ensures threw <==>
        old(status[id.eventId]) != SUPERSEDED && (!resolved || adapter != SUCCEEDS)
    {
      var job := jobs[id];
      threw := false;
      if status[id.eventId] == SUPERSEDED {
        jobs := jobs[id := Complete(job)];
      } else if !resolved {
        jobs := jobs[id := Thrown(job)];
        threw := true;
      } else if adapter == SUCCEEDS {
        Deliver(id);
      } else {
        ghost var h := Abs();
        if adapter == WRITE_FAILS {
          Note(id, TRANSLATED);
          Note(id, WRITE_ATTEMPTED);
        }
        ghost var g := Abs();
        GiveUpOrRetry(id);
        AttemptThenFail(h, g, id, adapter == WRITE_FAILS);
        threw := true;
      }
    }
  }

  /** Failing after the two progress notes is failing with those notes in the log. */
  lemma AttemptThenFail(h: Hub, g: Hub, id: JobId, attempted: bool)
    requires Runnable(h, id) && Runnable(g, id)
    requires g == if !attempted then h else
      h.(status := h.status[id.eventId := TRANSLATED][id.eventId := WRITE_ATTEMPTED],
         log := h.log + [Entry(id, TRANSLATED)] + [Entry(id, WRITE_ATTEMPTED)])
    ensures Failed(g, id, false) == Failed(h, id, attempted)
  {
    var last := [Entry(id, WRITE_FAILED), Entry(id, Failed(h, id, false).status[id.eventId])];
    if attempted {
      assert h.log + [Entry(id, TRANSLATED)] + [Entry(id, WRITE_ATTEMPTED)] + [] + last
        == h.log + [Entry(id, TRANSLATED), Entry(id, WRITE_ATTEMPTED)] + last;
    }
  }

  // ---- What every run keeps ----

  function Count<T(==)>(s: seq<T>, x: T): nat { multiset(s)[x] }

  /** Statuses a job's event can have: on its way to delivery, or superseded meanwhile. */
  predicate Deliverable(s: EventStatus) {
    s in {QUEUED, TRANSLATED, WRITE_ATTEMPTED, WRITE_SUCCEEDED, RETRY_SCHEDULED, DLQ_MOVED, COMPLETED, SUPERSEDED}
  }

  /** What the logs hold about one job, by number of entries. */
  datatype Tally = Tally(deadLetters: nat, writes: nat, failures: nat, retries: nat, burials: nat)

  function TallyOf(log: seq<Entry>, deadLetters: seq<JobId>, writes: seq<JobId>, id: JobId): Tally {
    Tally(Count(deadLetters, id), Count(writes, id), Count(log, Entry(id, WRITE_FAILED)),
          Count(log, Entry(id, RETRY_SCHEDULED)), Count(log, Entry(id, DLQ_MOVED)))
  }

  datatype Account = Account(job: Job, eventStatus: EventStatus, tally: Tally)

  function AccountOf(h: Hub, id: JobId): Account
    requires id in h.jobs && id.eventId in h.status
  {
    Account(h.jobs[id], h.status[id.eventId], HubTally(h, id))
  }

  /** The books of a job balance. */
  predicate Balanced(a: Account) {
    var job, t := a.job, a.tally;
    && Deliverable(a.eventStatus)
    && job.attemptsMade <= job.maxAttempts
    && job.status in {JOB_QUEUED, JOB_RETRY, JOB_COMPLETED, JOB_DEAD}
    && (!job.finished ==> job.attemptsMade < job.maxAttempts && job.status in {JOB_QUEUED, JOB_RETRY})
    && (job.status in {JOB_COMPLETED, JOB_DEAD} ==> job.finished)
    && (job.status == JOB_COMPLETED ==> job.attemptsMade < job.maxAttempts)
    && t.deadLetters == (if job.status == JOB_DEAD then 1 else 0)
    && t.writes <= 1
    && (t.writes == 1 ==> job.status == JOB_COMPLETED)
    && (job.status == JOB_COMPLETED && t.writes == 0 ==> a.eventStatus == SUPERSEDED)
    && t.failures == t.retries + t.burials
    && t.burials == t.deadLetters
    && t.failures <= job.attemptsMade
    && (job.status == JOB_RETRY ==> job.retryDelayMs == BackoffStrategy(job.recordedAttempts, true))
  }

  /** The record of a job agrees with the queue exactly if its last attempt was recorded. */
  predicate RecordFollows(job: Job, last: bool) {
    var attempts := job.attemptsMade + if job.status == JOB_COMPLETED then 1 else 0;
    && job.recordedAttempts <= attempts
    && (job.recordedAttempts == attempts <==> last)
    && (job.status in {JOB_COMPLETED, JOB_DEAD} <==> job.finished && last)
  }

  ghost predicate JobSound(h: Hub, id: JobId)
    requires id in h.jobs
  {
    id.eventId in h.status && Balanced(AccountOf(h, id))
  }

  /** An event with jobs that is not superseded is COMPLETED exactly when all its jobs are. */
  ghost predicate AggregateSound(h: Hub, e: EventId)
    requires e in h.status
  {
    JobsOf(h.jobs, e) != {} && h.status[e] != SUPERSEDED ==>
      (h.status[e] == COMPLETED <==> AllCompleted(h.jobs, e))
  }

  ghost predicate HubSound(h: Hub) {
    && (forall id :: id in h.jobs ==> JobSound(h, id))
    && (forall e :: e in h.status ==> AggregateSound(h, e))
    && (forall id :: id in h.deadLetters || id in h.writes ==> id in h.jobs)
    && (forall entry :: entry in h.log ==> entry.job in h.jobs)
  }

  lemma CountAppend<T>(s: seq<T>, t: seq<T>, x: T)
    ensures Count(s + t, x) == Count(s, x) + Count(t, x)
  {
    assert multiset(s + t) == multiset(s) + multiset(t);
  }

  lemma NotCounted<T>(s: seq<T>, x: T)
    requires x !in s
    ensures Count(s, x) == 0
  {
  }

  lemma PairCount<T>(a: T, b: T, x: T)
    ensures Count([a, b], x) == (if a == x then 1 else 0) + if b == x then 1 else 0
  {
    assert [a, b] == [a] + [b];
    CountAppend([a], [b], x);
  }

  /** The entries of a successful attempt count for none of the failure totals. */
  lemma ProgressIsNotCounted(log: seq<Entry>, entries: seq<Entry>, x: Entry)
    requires x.status in {WRITE_FAILED, RETRY_SCHEDULED, DLQ_MOVED}
    requires forall e :: e in entries ==> e.status in {TRANSLATED, WRITE_ATTEMPTED, WRITE_SUCCEEDED, COMPLETED}
    ensures Count(log + entries, x) == Count(log, x)
  {
    CountAppend(log, entries, x);
    NotCounted(entries, x);
  }

  lemma SuccessTally(
    log: seq<Entry>, dead: seq<JobId>, writes: seq<JobId>, id: JobId, entries: seq<Entry>, other: JobId)
    requires forall e :: e in entries ==> e.status in {TRANSLATED, WRITE_ATTEMPTED, WRITE_SUCCEEDED, COMPLETED}
    ensures var t := TallyOf(log, dead, writes, other);
      TallyOf(log + entries, dead, writes + [id], other) == if other == id then t.(writes := t.writes + 1) else t
  {
    ProgressIsNotCounted(log, entries, Entry(other, WRITE_FAILED));
    ProgressIsNotCounted(log, entries, Entry(other, RETRY_SCHEDULED));
    ProgressIsNotCounted(log, entries, Entry(other, DLQ_MOVED));
    CountAppend(writes, [id], other);
  }

  function FailTally(t: Tally, last: bool): Tally {
    if last then t.(deadLetters := t.deadLetters + 1, failures := t.failures + 1, burials := t.burials + 1)
    else t.(failures := t.failures + 1, retries := t.retries + 1)
  }

  lemma FailureEntries(log: seq<Entry>, before: seq<Entry>, id: JobId, next: EventStatus, x: Entry)
    requires x.status in {WRITE_FAILED, RETRY_SCHEDULED, DLQ_MOVED}
    requires forall e :: e in before ==> e.status in {TRANSLATED, WRITE_ATTEMPTED, WRITE_SUCCEEDED, COMPLETED}
    ensures Count(log + before + [Entry(id, WRITE_FAILED), Entry(id, next)], x) == Count(log, x)
      + (if x == Entry(id, WRITE_FAILED) then 1 else 0) + if x == Entry(id, next) then 1 else 0
  {
    ProgressIsNotCounted(log, before, x);
    CountAppend(log + before, [Entry(id, WRITE_FAILED), Entry(id, next)], x);
    PairCount(Entry(id, WRITE_FAILED), Entry(id, next), x);
  }

  lemma FailureTally(log: seq<Entry>, dead: seq<JobId>, writes: seq<JobId>, id: JobId, before: seq<Entry>,
                     last: bool, other: JobId)
    requires forall e :: e in before ==> e.status in {TRANSLATED, WRITE_ATTEMPTED, WRITE_SUCCEEDED, COMPLETED}
    ensures var t := TallyOf(log, dead, writes, other);
      var next := if last then DLQ_MOVED else RETRY_SCHEDULED;
      TallyOf(log + before + [Entry(id, WRITE_FAILED), Entry(id, next)],
              if last then dead + [id] else dead, writes, other)
        == if other == id then FailTally(t, last) else t
  {
    var next := if last then DLQ_MOVED else RETRY_SCHEDULED;
    FailureEntries(log, before, id, next, Entry(other, WRITE_FAILED));
    FailureEntries(log, before, id, next, Entry(other, RETRY_SCHEDULED));
    FailureEntries(log, before, id, next, Entry(other, DLQ_MOVED));
    CountAppend(dead, [id], other);
  }

  /** How one attempt changes the account of its own job. */
  function After(a: Account, resolved: bool, adapter: Adapter, next: EventStatus): Account {
    if a.eventStatus == SUPERSEDED then a.(job := Complete(a.job))
    else if !resolved then a.(job := Thrown(a.job))
    else if adapter == SUCCEEDS then
      Account(Complete(a.job), next, a.tally.(writes := a.tally.writes + 1))
    else
      var job := Fail(a.job);
      Account(job, if job.finished then DLQ_MOVED else RETRY_SCHEDULED, FailTally(a.tally, job.finished))
  }

  function HubTally(h: Hub, id: JobId): Tally { TallyOf(h.log, h.deadLetters, h.writes, id) }

  lemma SuccessMovesTallies(h: Hub, id: JobId, other: JobId)
    requires Runnable(h, id)
    ensures var t := HubTally(h, other);
      HubTally(Succeeded(h, id), other) == if other == id then t.(writes := t.writes + 1) else t
  {
    var next := Succeeded(h, id).status[id.eventId];
    var entries := [Entry(id, TRANSLATED), Entry(id, WRITE_ATTEMPTED), Entry(id, next)];
    SuccessTally(h.log, h.deadLetters, h.writes, id, entries, other);
  }

  lemma FailureMovesTallies(h: Hub, id: JobId, attempted: bool, other: JobId)
    requires Runnable(h, id)
    ensures var t := HubTally(h, other);
      HubTally(Failed(h, id, attempted), other)
        == if other == id then FailTally(t, Fail(h.jobs[id]).finished) else t
  {
    var before := if attempted then [Entry(id, TRANSLATED), Entry(id, WRITE_ATTEMPTED)] else [];
    FailureTally(h.log, h.deadLetters, h.writes, id, before, Fail(h.jobs[id]).finished, other);
  }

  /** One attempt moves the tallies of its own job and of no other. */
  lemma RunTallies(h: Hub, id: JobId, resolved: bool, adapter: Adapter, other: JobId)
    requires Runnable(h, id)
    ensures HubTally(ProcessWriteJob(h, id, resolved, adapter), other) ==
      if other == id then After(AccountOf(h, id), resolved, adapter, QUEUED).tally else HubTally(h, other)
  {
    if h.status[id.eventId] == SUPERSEDED || !resolved {
    } else if adapter == SUCCEEDS {
      SuccessMovesTallies(h, id, other);
    } else {
      FailureMovesTallies(h, id, adapter == WRITE_FAILS, other);
    }
  }

  lemma RunUpdatesTheAccount(h: Hub, id: JobId, resolved: bool, adapter: Adapter)
    requires Runnable(h, id)
    ensures var h' := ProcessWriteJob(h, id, resolved, adapter);
      AccountOf(h', id) == After(AccountOf(h, id), resolved, adapter, h'.status[id.eventId])
    ensures var h' := ProcessWriteJob(h, id, resolved, adapter);
      resolved && adapter == SUCCEEDS && h.status[id.eventId] != SUPERSEDED ==>
        h'.status[id.eventId] in {COMPLETED, WRITE_SUCCEEDED}
  {
    RunTallies(h, id, resolved, adapter, id);
  }

  /** A run of one job leaves every other job's account alone but for a sibling's event status. */
  lemma OthersKeepTheirAccount(h: Hub, id: JobId, resolved: bool, adapter: Adapter, other: JobId)
    requires Runnable(h, id) && other in h.jobs && other != id && other.eventId in h.status
    ensures var h' := ProcessWriteJob(h, id, resolved, adapter);
      AccountOf(h', other) == AccountOf(h, other).(eventStatus := h'.status[other.eventId])
  {
    RunTallies(h, id, resolved, adapter, other);
  }

  /** A sibling's status is not turned into or out of SUPERSEDED, and stays deliverable. */
  lemma SiblingStaysBalanced(a: Account, status: EventStatus)
    requires Balanced(a) && Deliverable(status)
    requires a.eventStatus == SUPERSEDED <==> status == SUPERSEDED
    ensures Balanced(a.(eventStatus := status))
  {
  }

  lemma StatusStaysDeliverable(h: Hub, id: JobId, resolved: bool, adapter: Adapter, e: EventId)
    requires Runnable(h, id) && e in h.status && Deliverable(h.status[e])
    ensures var status := ProcessWriteJob(h, id, resolved, adapter).status;
      e in status && Deliverable(status[e]) && (h.status[e] == SUPERSEDED <==> status[e] == SUPERSEDED)
  {
  }

  lemma OthersKeepSound(h: Hub, id: JobId, resolved: bool, adapter: Adapter, other: JobId)
    requires Runnable(h, id)
    requires other in h.jobs && other != id && JobSound(h, other)
    ensures other in ProcessWriteJob(h, id, resolved, adapter).jobs
    ensures JobSound(ProcessWriteJob(h, id, resolved, adapter), other)
  {
    var h' := ProcessWriteJob(h, id, resolved, adapter);
    StatusStaysDeliverable(h, id, resolved, adapter, other.eventId);
    OthersKeepTheirAccount(h, id, resolved, adapter, other);
    SiblingStaysBalanced(AccountOf(h, other), h'.status[other.eventId]);
  }

  /** One attempt keeps the books of its own job balanced. */
  lemma AttemptKeepsBalance(a: Account, resolved: bool, adapter: Adapter, next: EventStatus)
    requires Balanced(a) && !a.job.finished
    requires next in {COMPLETED, WRITE_SUCCEEDED}
    ensures Balanced(After(a, resolved, adapter, next))
  {
  }

  /** An attempt is recorded exactly if it resolved its target, or found its event superseded. */
  lemma AttemptIsRecorded(a: Account, resolved: bool, adapter: Adapter, next: EventStatus, last: bool)
    requires Balanced(a) && RecordFollows(a.job, last) && !a.job.finished
    ensures RecordFollows(After(a, resolved, adapter, next).job, resolved || a.eventStatus == SUPERSEDED)
  {
  }

  lemma RunJobSound(h: Hub, id: JobId, resolved: bool, adapter: Adapter)
    requires HubSound(h) && Runnable(h, id)
    ensures JobSound(ProcessWriteJob(h, id, resolved, adapter), id)
  {
    assert JobSound(h, id);
    RunUpdatesTheAccount(h, id, resolved, adapter);
    var status := ProcessWriteJob(h, id, resolved, adapter).status[id.eventId];
    AttemptKeepsBalance(AccountOf(h, id), resolved, adapter,
                        if status == COMPLETED then COMPLETED else WRITE_SUCCEEDED);
  }

  /** What a run does to the jobs and status of its event. */
  lemma RunEffect(h: Hub, id: JobId, resolved: bool, adapter: Adapter)
    requires Runnable(h, id)
    ensures var h' := ProcessWriteJob(h, id, resolved, adapter);
      && h'.jobs == h.jobs[id := h'.jobs[id]]
      && h'.status == h.status[id.eventId := h'.status[id.eventId]]
      && (h.status[id.eventId] == SUPERSEDED <==> h'.status[id.eventId] == SUPERSEDED)
      && (h.status[id.eventId] != SUPERSEDED && h'.jobs[id].status != JOB_COMPLETED ==>
        h'.status[id.eventId] == h.status[id.eventId] || h'.status[id.eventId] in {RETRY_SCHEDULED, DLQ_MOVED})
      && (h.status[id.eventId] != SUPERSEDED && h.jobs[id].status != JOB_COMPLETED
          && h'.jobs[id].status == JOB_COMPLETED ==>
        (h'.status[id.eventId] == COMPLETED <==> PostSuccessStatus(h'.jobs, id.eventId) == COMPLETED))
  {
  }

  lemma PostSuccessMeansAll(jobs: map<JobId, Job>, id: JobId)
    requires id in jobs
    ensures PostSuccessStatus(jobs, id.eventId) == COMPLETED <==> AllCompleted(jobs, id.eventId)
  {
    assert id in JobsOf(jobs, id.eventId);
  }

  lemma UnfinishedJobExcludesCompleted(h: Hub, id: JobId)
    requires id in h.jobs && id.eventId in h.status && AggregateSound(h, id.eventId)
    requires h.status[id.eventId] != SUPERSEDED && h.jobs[id].status != JOB_COMPLETED
    ensures h.status[id.eventId] != COMPLETED
  {
    assert id in JobsOf(h.jobs, id.eventId);
  }

  lemma OwnAggregateStaysSound(h: Hub, id: JobId, resolved: bool, adapter: Adapter)
    requires HubSound(h) && Runnable(h, id)
    ensures AggregateSound(ProcessWriteJob(h, id, resolved, adapter), id.eventId)
  {
    var h' := ProcessWriteJob(h, id, resolved, adapter);
    RunEffect(h, id, resolved, adapter);
    if h.status[id.eventId] != SUPERSEDED {
      assert AggregateSound(h, id.eventId) && JobSound(h, id);
      UnfinishedJobExcludesCompleted(h, id);
      PostSuccessMeansAll(h'.jobs, id);
    }
  }

  lemma OtherAggregatesStaySound(h: Hub, h': Hub, e: EventId)
    requires e in h.status && AggregateSound(h, e)
    requires e in h'.status && h'.status[e] == h.status[e]
    requires forall id: JobId :: id.eventId == e ==> (id in h'.jobs <==> id in h.jobs)
    requires forall id: JobId :: id.eventId == e && id in h.jobs ==> h'.jobs[id] == h.jobs[id]
    ensures AggregateSound(h', e)
  {
    assert JobsOf(h'.jobs, e) == JobsOf(h.jobs, e);
    assert AllCompleted(h'.jobs, e) == AllCompleted(h.jobs, e);
  }

  lemma AggregateStaysSound(h: Hub, id: JobId, resolved: bool, adapter: Adapter, e: EventId)
    requires HubSound(h) && Runnable(h, id) && e in h.status
    ensures AggregateSound(ProcessWriteJob(h, id, resolved, adapter), e)
  {
    if e == id.eventId {
      OwnAggregateStaysSound(h, id, resolved, adapter);
    } else {
      RunEffect(h, id, resolved, adapter);
      OtherAggregatesStaySound(h, ProcessWriteJob(h, id, resolved, adapter), e);
    }
  }

  lemma RunKeepsHubSound(h: Hub, id: JobId, resolved: bool, adapter: Adapter)
    requires HubSound(h) && Runnable(h, id)
    ensures HubSound(ProcessWriteJob(h, id, resolved, adapter))
  {
    var h' := ProcessWriteJob(h, id, resolved, adapter);
    forall other | other in h'.jobs ensures JobSound(h', other) {
      if other == id {
        RunJobSound(h, id, resolved, adapter);
      } else {
        OthersKeepSound(h, id, resolved, adapter, other);
      }
    }
    forall e | e in h'.status ensures AggregateSound(h', e) {
      AggregateStaysSound(h, id, resolved, adapter, e);
    }
  }

  lemma NewJobIsSound(h: Hub, id: JobId)
    requires id in h.jobs && id.eventId in h.status && h.status[id.eventId] == QUEUED
    requires h.jobs[id].maxAttempts > 0 && h.jobs[id] == NewJob(h.jobs[id].maxAttempts)
    requires id !in h.deadLetters && id !in h.writes
    requires forall entry :: entry in h.log ==> entry.job != id
    ensures JobSound(h, id)
  {
    NotCounted(h.deadLetters, id);
    NotCounted(h.writes, id);
    NotCounted(h.log, Entry(id, WRITE_FAILED));
    NotCounted(h.log, Entry(id, RETRY_SCHEDULED));
    NotCounted(h.log, Entry(id, DLQ_MOVED));
  }

  lemma EnqueueKeepsJobSound(h: Hub, h': Hub, e: EventId, targets: set<SystemName>, maxAttempts: nat,
                             id: JobId)
    requires HubSound(h) && e in h.status && maxAttempts > 0
    requires forall id :: id in h.jobs ==> id.eventId != e
    requires h' == h.(jobs := Enqueue(h.jobs, e, targets, maxAttempts), status := h.status[e := QUEUED])
    requires id in h'.jobs
    ensures JobSound(h', id)
  {
    if id in h.jobs {
      assert JobSound(h, id);
      assert AccountOf(h', id) == AccountOf(h, id);
    } else {
      NewJobIsSound(h', id);
    }
  }

  lemma NewJobsAreNotCompleted(jobs: map<JobId, Job>, e: EventId, targets: set<SystemName>, maxAttempts: nat)
    requires targets != {} && forall id :: id in jobs ==> id.eventId != e
    ensures !AllCompleted(Enqueue(jobs, e, targets, maxAttempts), e)
  {
    var t :| t in targets;
    assert Enqueue(jobs, e, targets, maxAttempts)[JobId(e, t)].status == JOB_QUEUED;
  }

  /** Queueing a new event's jobs; its status is then QUEUED. */
  lemma EnqueueKeepsHubSound(h: Hub, h': Hub, e: EventId, targets: set<SystemName>, maxAttempts: nat)
    requires HubSound(h) && e in h.status
    requires forall id :: id in h.jobs ==> id.eventId != e
    requires maxAttempts > 0 && targets != {}
    requires h' == h.(jobs := Enqueue(h.jobs, e, targets, maxAttempts), status := h.status[e := QUEUED])
    ensures HubSound(h')
  {
    forall id | id in h'.jobs ensures JobSound(h', id) {
      EnqueueKeepsJobSound(h, h', e, targets, maxAttempts, id);
    }
    forall x | x in h'.status ensures AggregateSound(h', x) {
      if x == e {
        assert h'.status[e] == QUEUED;
        NewJobsAreNotCompleted(h.jobs, e, targets, maxAttempts);
      } else {
        OtherAggregatesStaySound(h, h', x);
      }
    }
  }

  /** Ingest writes statuses of events without jobs; conflict resolution may supersede any event. */
  lemma StatusWritesKeepHubSound(h: Hub, h': Hub)
    requires HubSound(h)
    requires h' == h.(status := h'.status) && h.status.Keys <= h'.status.Keys
    requires forall e :: e in h.status && JobsOf(h.jobs, e) != {} ==>
      h'.status[e] == h.status[e] || h'.status[e] == SUPERSEDED
    ensures HubSound(h')
  {
    forall id | id in h'.jobs ensures JobSound(h', id) {
      assert JobSound(h, id) && id in JobsOf(h.jobs, id.eventId);
    }
    forall e | e in h'.status ensures AggregateSound(h', e) {
      if JobsOf(h.jobs, e) != {} {
        var id :| id in JobsOf(h.jobs, e);
        assert JobSound(h, id);
        assert AggregateSound(h, e);
      }
    }
  }

  // ---- Termination ----

  /** Every run either finishes the job or uses up an attempt. */
  lemma RunsShrinkTheMeasure(h: Hub, id: JobId, resolved: bool, adapter: Adapter)
    requires HubSound(h) && Runnable(h, id)
    ensures var h' := ProcessWriteJob(h, id, resolved, adapter);
      h'.jobs[id].finished || h'.jobs[id].attemptsMade == h.jobs[id].attemptsMade + 1
    ensures ProcessWriteJob(h, id, resolved, adapter).jobs[id].maxAttempts == h.jobs[id].maxAttempts
  {
  }

  /** When BullMQ gives a job up, its record says so exactly if the last attempt resolved its target. */
  lemma GivenUpIsRecordedIffResolved(h: Hub, id: JobId, resolved: bool, adapter: Adapter)
    requires HubSound(h) && Runnable(h, id)
    requires h.status[id.eventId] != SUPERSEDED
    requires ProcessWriteJob(h, id, resolved, adapter).jobs[id].finished
    ensures ProcessWriteJob(h, id, resolved, adapter).jobs[id].status in {JOB_COMPLETED, JOB_DEAD} <==> resolved
  {
    assert JobSound(h, id);
  }

  /** A dead-lettered sibling keeps the event from ever being COMPLETED. */
  lemma DeadSiblingExcludesCompleted(h: Hub, id: JobId)
    requires HubSound(h) && id in h.jobs && h.jobs[id].status == JOB_DEAD
    ensures h.status[id.eventId] != COMPLETED
    ensures !Runnable(h, id)
  {
    assert JobSound(h, id);
    assert id in JobsOf(h.jobs, id.eventId) && AggregateSound(h, id.eventId);
  }
}
