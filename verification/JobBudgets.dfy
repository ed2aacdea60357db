/** What each worker run writes, and how many of them a job gets: the attempts that its ingest was configured with. */
module JobBudgets {
  import opened Domain
  import opened Conflicts
  import opened Delivery
  import opened Ksync
  import opened SystemRuns
  import opened RunDelivery
  import opened RoutedAnswers
  import Routing

  // ---- One worker run, in full ----

  /** The registry identifies the job's target for its event, and the routing table still has it. */
  ghost predicate Reachable(s: System, id: JobId, registry: Routing.Registry)
    requires id.eventId in s.world.events
  {
    HasTarget(s.world.events[id.eventId], id.target) && CanQueue(registry, s.world.events[id.eventId], id.target)
  }

  /** 5 s after the first failure, 15 s after the second, 30 s after any later one. */
  function DelayAfter(failures: nat): nat {
    if failures <= 1 then 5000 else if failures == 2 then 15000 else 30000
  }

  function Finished(job: Job): Job {
    Job(JOB_COMPLETED, job.attemptsMade + 1, job.maxAttempts, job.retryDelayMs, job.attemptsMade, true)
  }

  /** A failure that the worker recorded: dead-lettered at the last attempt, rescheduled before. */
  function FailedOnce(job: Job): Job {
    var n := job.attemptsMade + 1;
    if n >= job.maxAttempts then Job(JOB_DEAD, n, job.maxAttempts, job.retryDelayMs, n, true)
    else Job(JOB_RETRY, n, job.maxAttempts, DelayAfter(n), n, false)
  }

  /** A throw that the worker did not record. */
  function UsedUp(job: Job): Job {
    job.(attemptsMade := job.attemptsMade + 1, finished := job.attemptsMade + 1 >= job.maxAttempts)
  }

  /** The state of the backend after one worker run, write by write; everything not named stays as it is. */
  ghost predicate RunWrites(s: System, s': System, id: JobId, registry: Routing.Registry, adapter: Adapter)
    requires id in s.jobs && id.eventId in s.world.events && id.eventId in s.world.status
  {
    var e, job := id.eventId, s.jobs[id];
    if s.world.status[e] == SUPERSEDED then s' == s.(jobs := s.jobs[id := Finished(job)])
    else if !Reachable(s, id, registry) then s' == s.(jobs := s.jobs[id := UsedUp(job)])
    else if adapter == SUCCEEDS then
      var jobs := s.jobs[id := Finished(job)];
      var status := if forall other :: other in jobs && other.eventId == e ==> jobs[other].status == JOB_COMPLETED
        then COMPLETED else WRITE_SUCCEEDED;
      s' == s.(
        world := s.world.(status := s.world.status[e := status]), jobs := jobs, writes := s.writes + [id],
        log := s.log + [Entry(id, TRANSLATED), Entry(id, WRITE_ATTEMPTED), Entry(id, status)])
    else
      var last := job.attemptsMade + 1 >= job.maxAttempts;
      var status := if last then DLQ_MOVED else RETRY_SCHEDULED;
      var progress := if adapter == WRITE_FAILS then [Entry(id, TRANSLATED), Entry(id, WRITE_ATTEMPTED)] else [];
      s' == s.(
        world := s.world.(status := s.world.status[e := status]), jobs := s.jobs[id := FailedOnce(job)],
        deadLetters := if last then s.deadLetters + [id] else s.deadLetters,
        log := s.log + progress + [Entry(id, WRITE_FAILED), Entry(id, status)])
  }

  lemma ResolvedIsReachable(s: System, id: JobId, registry: Routing.Registry)
    requires id.eventId in s.world.events
    ensures Routing.Resolves(registry, s.world.events[id.eventId], id.target) <==> Reachable(s, id, registry)
  {
    Routing.QueuedTargetsResolve(registry, s.world.events[id.eventId], id.target);
    QueuedByRow(registry, s.world.events[id.eventId], id.target);
  }

  lemma SuccessStatus(jobs: map<JobId, Job>, id: JobId)
    requires id in jobs
    ensures PostSuccessStatus(jobs, id.eventId) == COMPLETED <==>
      forall other :: other in jobs && other.eventId == id.eventId ==> jobs[other].status == JOB_COMPLETED
  {
    PostSuccessMeansAll(jobs, id);
  }

  lemma SuccessWrites(s: System, id: JobId, registry: Routing.Registry)
    requires Runnable(HubOf(s), id) && id.eventId in s.world.events
    requires s.world.status[id.eventId] != SUPERSEDED && Reachable(s, id, registry)
    ensures RunWrites(s, WithHub(s, Succeeded(HubOf(s), id)), id, registry, SUCCEEDS)
  {
    SuccessStatus(s.jobs[id := Complete(s.jobs[id])], id);
  }

  lemma FailureWrites(s: System, id: JobId, registry: Routing.Registry, adapter: Adapter)
    requires Runnable(HubOf(s), id) && id.eventId in s.world.events && adapter != SUCCEEDS
    requires s.world.status[id.eventId] != SUPERSEDED && Reachable(s, id, registry)
    ensures RunWrites(s, WithHub(s, Failed(HubOf(s), id, adapter == WRITE_FAILS)), id, registry, adapter)
  {
  }

  lemma QuietWrites(s: System, id: JobId, registry: Routing.Registry, adapter: Adapter)
    requires Runnable(HubOf(s), id) && id.eventId in s.world.events
    requires s.world.status[id.eventId] == SUPERSEDED || !Reachable(s, id, registry)
    ensures RunWrites(s, RunJob(s, id, registry, adapter), id, registry, adapter)
  {
    ResolvedIsReachable(s, id, registry);
  }

  /** Whatever the state, a worker run writes exactly that. */
  lemma WorkerRun(s: System, id: JobId, registry: Routing.Registry, adapter: Adapter)
    requires Runnable(HubOf(s), id) && id.eventId in s.world.events
    ensures RunWrites(s, RunJob(s, id, registry, adapter), id, registry, adapter)
  {
    if s.world.status[id.eventId] == SUPERSEDED || !Reachable(s, id, registry) {
      QuietWrites(s, id, registry, adapter);
    } else {
      ResolvedIsReachable(s, id, registry);
      if adapter == SUCCEEDS {
        SuccessWrites(s, id, registry);
      } else {
        FailureWrites(s, id, registry, adapter);
      }
    }
  }

  // ---- The attempts of a job are those of its ingest ----

  lemma IngestedJob(s: System, c: Call, order: seq<EventId>, id: JobId)
    requires CanIngest(s, c, order) && Sturdy(s) && id !in s.jobs && id in Ingest(s, c, order).0.jobs
    ensures Ingest(s, c, order).0.jobs[id] == Job(JOB_QUEUED, 0, c.maxAttempts, 0, 0, false)
  {
    var routed := IngestJobs(s, c, order);
  }

  lemma QueuedWithItsBudget(trace: seq<System>, steps: seq<Step>, m: nat, id: JobId)
    requires IsRun(trace, steps) && m < |steps| && QueuedAt(trace, steps, m, id)
    ensures trace[m + 1].jobs[id] == Job(JOB_QUEUED, 0, steps[m].c.maxAttempts, 0, 0, false)
  {
    RunIsSturdy(trace, steps, m);
    assert CanTake(trace[m], steps[m]);
    IngestedJob(trace[m], steps[m].c, steps[m].order, id);
  }

  lemma NextKeepsBudget(trace: seq<System>, steps: seq<Step>, n: nat, id: JobId)
    requires IsRun(trace, steps) && n < |steps| && id in trace[n].jobs
    ensures id in trace[n + 1].jobs && trace[n + 1].jobs[id].maxAttempts == trace[n].jobs[id].maxAttempts
  {
    RunIsSturdy(trace, steps, n);
    RunsAreCounted(trace, steps, n, id);
    assert CanTake(trace[n], steps[n]);
    StepCounts(trace[n], steps[n], id, Runs(steps, n, id));
  }

  /** A job keeps the attempts that the ingest which queued it was configured with. */
  lemma {:induction false} JobsKeepTheirBudget(trace: seq<System>, steps: seq<Step>, m: nat, n: nat, id: JobId)
    requires IsRun(trace, steps) && m < n <= |steps| && QueuedAt(trace, steps, m, id)
    ensures id in trace[n].jobs && trace[n].jobs[id].maxAttempts == steps[m].c.maxAttempts
  {
    if n == m + 1 {
      QueuedWithItsBudget(trace, steps, m, id);
    } else {
      JobsKeepTheirBudget(trace, steps, m, n - 1, id);
      NextKeepsBudget(trace, steps, n - 1, id);
    }
  }

  // ---- A job that keeps failing ----

  /** The step, if it runs the job, fails it in a way that the worker records. */
  ghost predicate FailsIfRun(s: System, step: Step, id: JobId) {
    step.Running? && step.id == id ==>
      && id.eventId in s.world.events && id.eventId in s.world.status
      && s.world.status[id.eventId] != SUPERSEDED
      && Reachable(s, id, step.registry) && step.adapter != SUCCEEDS
  }

  ghost predicate KeepsFailing(trace: seq<System>, steps: seq<Step>, m: nat, n: nat, id: JobId)
    requires n <= |steps| < |trace|
  {
    forall i :: m < i < n ==> FailsIfRun(trace[i], steps[i], id)
  }

  /** The record of a job that has failed this often, out of its attempts. */
  predicate HasFailed(job: Job, failures: nat, attempts: nat) {
    && failures <= attempts && attempts > 0 && job.maxAttempts == attempts
    && job.attemptsMade == failures && job.recordedAttempts == failures
    && (job.finished <==> failures == attempts)
    && job.status == (if failures == 0 then JOB_QUEUED else if failures < attempts then JOB_RETRY else JOB_DEAD)
    && (job.status == JOB_RETRY ==> job.retryDelayMs == DelayAfter(failures))
  }

  lemma OneMoreFailure(
    s: System, s': System, id: JobId, registry: Routing.Registry, adapter: Adapter, failures: nat, attempts: nat)
    requires id in s.jobs && id.eventId in s.world.events && id.eventId in s.world.status
    requires !s.jobs[id].finished && HasFailed(s.jobs[id], failures, attempts)
    requires s.world.status[id.eventId] != SUPERSEDED && Reachable(s, id, registry) && adapter != SUCCEEDS
    requires RunWrites(s, s', id, registry, adapter)
    ensures id in s'.jobs && HasFailed(s'.jobs[id], failures + 1, attempts)
    ensures id.eventId in s'.world.status
    ensures s'.world.status[id.eventId] == if failures + 1 == attempts then DLQ_MOVED else RETRY_SCHEDULED
  {
  }

  lemma OtherStepLeavesJob(s: System, step: Step, id: JobId)
    requires CanTake(s, step) && id in s.jobs && !(step.Running? && step.id == id)
    ensures id in Take(s, step).jobs && Take(s, step).jobs[id] == s.jobs[id]
  {
    match step
    case Ingesting(c, order) =>
      var routed := IngestJobs(s, c, order);
    case Running(job, registry, adapter) => WorkerRun(s, job, registry, adapter);
  }

  /** What the failing run itself leaves on its event. */
  ghost predicate FailureShows(s: System, step: Step, id: JobId, failures: nat, attempts: nat) {
    step.Running? && step.id == id ==>
      && id.eventId in s.world.status
      && s.world.status[id.eventId] == if failures == attempts then DLQ_MOVED else RETRY_SCHEDULED
  }

  lemma StepFails(s: System, step: Step, id: JobId, failures: nat, attempts: nat)
    requires CanTake(s, step) && id in s.jobs && HasFailed(s.jobs[id], failures, attempts)
    requires FailsIfRun(s, step, id)
    ensures var now := failures + if step.Running? && step.id == id then 1 else 0;
      && id in Take(s, step).jobs && HasFailed(Take(s, step).jobs[id], now, attempts)
      && FailureShows(Take(s, step), step, id, now, attempts)
  {
    if step.Running? && step.id == id {
      WorkerRun(s, id, step.registry, step.adapter);
      OneMoreFailure(s, Take(s, step), id, step.registry, step.adapter, failures, attempts);
    } else {
      OtherStepLeavesJob(s, step, id);
    }
  }

  lemma NextFails(trace: seq<System>, steps: seq<Step>, n: nat, id: JobId, attempts: nat)
    requires IsRun(trace, steps) && n < |steps| && FailsIfRun(trace[n], steps[n], id)
    requires id in trace[n].jobs && HasFailed(trace[n].jobs[id], Runs(steps, n, id), attempts)
    ensures id in trace[n + 1].jobs && HasFailed(trace[n + 1].jobs[id], Runs(steps, n + 1, id), attempts)
    ensures FailureShows(trace[n + 1], steps[n], id, Runs(steps, n + 1, id), attempts)
  {
    assert CanTake(trace[n], steps[n]);
    StepFails(trace[n], steps[n], id, Runs(steps, n, id), attempts);
  }

  lemma FreshJob(trace: seq<System>, steps: seq<Step>, m: nat, id: JobId)
    requires IsRun(trace, steps) && m < |steps| && QueuedAt(trace, steps, m, id)
    ensures HasFailed(trace[m + 1].jobs[id], Runs(steps, m + 1, id), steps[m].c.maxAttempts)
  {
    QueuedWithItsBudget(trace, steps, m, id);
    RunsAreCounted(trace, steps, m, id);
    assert CanTake(trace[m], steps[m]);
  }

  /**
   * A job all of whose runs resolve their target and fail is dead-lettered exactly by the run whose number is
   * the attempts that its ingest was configured with, and rescheduled with the staged delay by each run
   * before; the run leaves its event DLQ_MOVED or RETRY_SCHEDULED accordingly.
   */
  lemma {:induction false} FailingJobsUseTheirBudget(
    trace: seq<System>, steps: seq<Step>, m: nat, n: nat, id: JobId)
    requires IsRun(trace, steps) && m < n <= |steps| && QueuedAt(trace, steps, m, id)
    requires KeepsFailing(trace, steps, m, n, id)
    ensures id in trace[n].jobs && HasFailed(trace[n].jobs[id], Runs(steps, n, id), steps[m].c.maxAttempts)
    ensures n > m + 1 ==> FailureShows(trace[n], steps[n - 1], id, Runs(steps, n, id), steps[m].c.maxAttempts)
  {
    if n == m + 1 {
      FreshJob(trace, steps, m, id);
    } else {
      FailingJobsUseTheirBudget(trace, steps, m, n - 1, id);
      NextFails(trace, steps, n - 1, id, steps[m].c.maxAttempts);
    }
  }

  // ---- The end of every job, in terms of its ingest ----

  /**
   * Every job is given up within the attempts that its ingest was configured with, and its record then says
   * COMPLETED or DLQ_MOVED exactly if its last run resolved its target; before that it says neither.
   */
  lemma JobsEndWithinTheirBudget(trace: seq<System>, steps: seq<Step>, m: nat, n: nat, id: JobId)
    requires IsRun(trace, steps) && m < n <= |steps| && QueuedAt(trace, steps, m, id)
    ensures id in trace[n].jobs
    ensures var job, attempts := trace[n].jobs[id], steps[m].c.maxAttempts;
      && Runs(steps, n, id) <= attempts
      && (Runs(steps, n, id) == attempts ==> !Runnable(HubOf(trace[n]), id))
      && (job.status in {JOB_COMPLETED, JOB_DEAD} <==>
          !Runnable(HubOf(trace[n]), id) && LastResolved(trace, steps, n, id))
  {
    JobsKeepTheirBudget(trace, steps, m, n, id);
    JobsEndWithinTheirAttempts(trace, steps, n, id);
  }

  /**
   * While the registry rows of its own UBID stay as routing saw them, a job reaches COMPLETED or DLQ_MOVED
   * within those attempts and its recorded attempts are its runs, whatever happens to other rows.
   */
  lemma UnchangedRowsEndWithinTheBudget(trace: seq<System>, steps: seq<Step>, m: nat, n: nat, id: JobId)
    requires IsRun(trace, steps) && m < n <= |steps| && QueuedAt(trace, steps, m, id)
    requires RowsUnchanged(steps, m, n, id)
    ensures id in trace[n].jobs
    ensures var job, attempts := trace[n].jobs[id], steps[m].c.maxAttempts;
      && job.recordedAttempts == Runs(steps, n, id) <= attempts
      && (Runs(steps, n, id) == attempts ==> job.status in {JOB_COMPLETED, JOB_DEAD})
      && (Runnable(HubOf(trace[n]), id) <==> job.status !in {JOB_COMPLETED, JOB_DEAD})
  {
    JobsKeepTheirBudget(trace, steps, m, n, id);
    UnchangedRowsEndInARecord(trace, steps, m, n, id);
  }
}
