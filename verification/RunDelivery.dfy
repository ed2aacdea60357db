/** Delivery over whole runs: every job ends in a recorded state, and the books balance throughout. */
module RunDelivery {
  import opened Domain
  import opened ConflictSafety
  import opened Supersessions
  import opened Delivery
  import opened Ksync
  import opened SystemRuns
  import Routing

  /** How often the job was run among the first n steps. */
  function Runs(steps: seq<Step>, n: nat, id: JobId): nat
    requires n <= |steps|
  {
    if n == 0 then 0
    else Runs(steps, n - 1, id) + if steps[n - 1].Running? && steps[n - 1].id == id then 1 else 0
  }

  // ---- The jobs of a run ----

  function JobsAfter(s: System, c: Call, routed: bool): map<JobId, Job> {
    if routed then Enqueue(s.jobs, c.e.id, Routing.JobTargets(c.registry, c.e), c.maxAttempts) else s.jobs
  }

  lemma IngestJobs(s: System, c: Call, order: seq<EventId>) returns (routed: bool)
    requires CanIngest(s, c, order)
    ensures Ingest(s, c, order).0.jobs == JobsAfter(s, c, routed)
    ensures routed <==>
      && !Checking(s, c).1.duplicate
      && Judging(s, c, order).Detected? && Judging(s, c, order).result.shouldContinue
  {
    routed := !Checking(s, c).1.duplicate
      && Judging(s, c, order).Detected? && Judging(s, c, order).result.shouldContinue;
  }

  /** One run changes its own job only: it completes it or uses up an attempt. */
  ghost predicate JobMoves(before: map<JobId, Job>, after: map<JobId, Job>, id: JobId) {
    && id in before && id in after
    && after == before[id := after[id]]
    && !before[id].finished
    && after[id].maxAttempts == before[id].maxAttempts
    && if after[id].status == JOB_COMPLETED && before[id].status != JOB_COMPLETED
       then after[id].attemptsMade == before[id].attemptsMade && after[id].finished
       else after[id].attemptsMade == before[id].attemptsMade + 1
  }

  lemma RunMovesItsJob(h: Hub, id: JobId, resolved: bool, adapter: Adapter)
    requires Runnable(h, id) && h.jobs[id].status != JOB_COMPLETED
    ensures JobMoves(h.jobs, ProcessWriteJob(h, id, resolved, adapter).jobs, id)
  {
  }

  lemma RunJobMovesItsJob(s: System, id: JobId, registry: Routing.Registry, adapter: Adapter)
    requires Sturdy(s) && Runnable(HubOf(s), id) && id.eventId in s.world.events
    ensures JobMoves(s.jobs, RunJob(s, id, registry, adapter).jobs, id)
  {
    assert JobSound(HubOf(s), id);
    RunMovesItsJob(HubOf(s), id, Routing.Resolves(registry, s.world.events[id.eventId], id.target), adapter);
  }

  /** The record of a job counts its runs. */
  ghost predicate Counted(jobs: map<JobId, Job>, id: JobId, runs: nat) {
    if id in jobs then runs == jobs[id].attemptsMade + if jobs[id].status == JOB_COMPLETED then 1 else 0
    else runs == 0
  }

  lemma StepCounts(s: System, step: Step, id: JobId, runs: nat)
    requires CanTake(s, step) && Sturdy(s) && Counted(s.jobs, id, runs)
    ensures Counted(Take(s, step).jobs, id, runs + if step.Running? && step.id == id then 1 else 0)
    ensures id in s.jobs ==> id in Take(s, step).jobs && Take(s, step).jobs[id].maxAttempts == s.jobs[id].maxAttempts
    ensures id in s.jobs && s.jobs[id].finished ==> Take(s, step).jobs[id] == s.jobs[id]
  {
    match step
    case Ingesting(c, order) =>
      var routed := IngestJobs(s, c, order);
    case Running(job, registry, adapter) =>
      assert JobSound(HubOf(s), job);
      RunJobMovesItsJob(s, job, registry, adapter);
  }

  lemma NextCounts(trace: seq<System>, steps: seq<Step>, n: nat, id: JobId, runs: nat)
    requires IsRun(trace, steps) && n < |steps|
    requires Counted(trace[n].jobs, id, runs)
    ensures Counted(trace[n + 1].jobs, id, runs + if steps[n].Running? && steps[n].id == id then 1 else 0)
    ensures id in trace[n].jobs ==> id in trace[n + 1].jobs
    ensures id in trace[n].jobs && trace[n].jobs[id].finished ==> trace[n + 1].jobs[id] == trace[n].jobs[id]
  {
    RunIsSturdy(trace, steps, n);
    StepCounts(trace[n], steps[n], id, runs);
  }

  lemma {:induction false} RunsAreCounted(trace: seq<System>, steps: seq<Step>, n: nat, id: JobId)
    requires IsRun(trace, steps) && n <= |steps|
    ensures Counted(trace[n].jobs, id, Runs(steps, n, id))
  {
    if n == 0 {
    } else {
      RunsAreCounted(trace, steps, n - 1, id);
      NextCounts(trace, steps, n - 1, id, Runs(steps, n - 1, id));
    }
  }

  // ---- The record of a job follows its last attempt ----

  /** The step resolves the job's target, or finds its event superseded. */
  ghost predicate Resolved(s: System, step: Step)
    requires CanTake(s, step) && step.Running?
  {
    || s.world.status[step.id.eventId] == SUPERSEDED
    || Routing.Resolves(step.registry, s.world.events[step.id.eventId], step.id.target)
  }

  /** The last run of the job among the first n steps resolved its target; so does a job never run. */
  ghost predicate LastResolved(trace: seq<System>, steps: seq<Step>, n: nat, id: JobId)
    requires IsRun(trace, steps) && n <= |steps|
  {
    if n == 0 then true
    else
      assert CanTake(trace[n - 1], steps[n - 1]);
      if steps[n - 1].Running? && steps[n - 1].id == id then Resolved(trace[n - 1], steps[n - 1])
      else LastResolved(trace, steps, n - 1, id)
  }

  ghost predicate Follows(jobs: map<JobId, Job>, id: JobId, last: bool) {
    if id in jobs then RecordFollows(jobs[id], last) else last
  }

  lemma OwnRunIsRecorded(h: Hub, id: JobId, resolved: bool, adapter: Adapter, last: bool)
    requires HubSound(h) && Runnable(h, id) && RecordFollows(h.jobs[id], last)
    ensures Follows(ProcessWriteJob(h, id, resolved, adapter).jobs, id,
                    resolved || h.status[id.eventId] == SUPERSEDED)
  {
    assert JobSound(h, id);
    RunUpdatesTheAccount(h, id, resolved, adapter);
    AttemptIsRecorded(AccountOf(h, id), resolved, adapter,
                      ProcessWriteJob(h, id, resolved, adapter).status[id.eventId], last);
  }

  lemma JobRunIsRecorded(s: System, step: Step, id: JobId, last: bool)
    requires CanTake(s, step) && step.Running? && step.id == id && Sturdy(s) && Follows(s.jobs, id, last)
    ensures Follows(Take(s, step).jobs, id, Resolved(s, step))
  {
    var resolved := Routing.Resolves(step.registry, s.world.events[id.eventId], id.target);
    OwnRunIsRecorded(HubOf(s), id, resolved, step.adapter, last);
  }

  lemma OtherStepsLeaveJobs(s: System, step: Step, id: JobId, last: bool)
    requires CanTake(s, step) && !(step.Running? && step.id == id) && Follows(s.jobs, id, last)
    ensures Follows(Take(s, step).jobs, id, last)
  {
    match step
    case Ingesting(c, order) => IngestLeavesJobs(s, c, order, id, last);
    case Running(job, registry, adapter) =>
      var resolved := Routing.Resolves(registry, s.world.events[job.eventId], job.target);
      OtherRunLeavesJob(HubOf(s), job, resolved, adapter, id);
  }

  lemma IngestLeavesJobs(s: System, c: Call, order: seq<EventId>, id: JobId, last: bool)
    requires CanIngest(s, c, order) && Follows(s.jobs, id, last)
    ensures Follows(Ingest(s, c, order).0.jobs, id, last)
  {
    var routed := IngestJobs(s, c, order);
    QueueingLeavesJobs(s, c, routed, id, last);
  }

  lemma QueueingLeavesJobs(s: System, c: Call, routed: bool, id: JobId, last: bool)
    requires Follows(s.jobs, id, last)
    ensures Follows(JobsAfter(s, c, routed), id, last)
  {
  }

  lemma OtherRunLeavesJob(h: Hub, job: JobId, resolved: bool, adapter: Adapter, id: JobId)
    requires Runnable(h, job) && job != id
    ensures var jobs := ProcessWriteJob(h, job, resolved, adapter).jobs;
      (id in jobs <==> id in h.jobs) && (id in h.jobs ==> jobs[id] == h.jobs[id])
  {
  }

  lemma StepIsRecorded(s: System, step: Step, id: JobId, last: bool)
    requires CanTake(s, step) && Sturdy(s) && Follows(s.jobs, id, last)
    ensures Follows(Take(s, step).jobs, id, if step.Running? && step.id == id then Resolved(s, step) else last)
  {
    if step.Running? && step.id == id {
      JobRunIsRecorded(s, step, id, last);
    } else {
      OtherStepsLeaveJobs(s, step, id, last);
    }
  }

  lemma NextIsRecorded(trace: seq<System>, steps: seq<Step>, n: nat, id: JobId)
    requires IsRun(trace, steps) && n < |steps|
    requires Follows(trace[n].jobs, id, LastResolved(trace, steps, n, id))
    ensures Follows(trace[n + 1].jobs, id, LastResolved(trace, steps, n + 1, id))
  {
    RunIsSturdy(trace, steps, n);
    assert CanTake(trace[n], steps[n]);
    StepIsRecorded(trace[n], steps[n], id, LastResolved(trace, steps, n, id));
  }

  lemma {:induction false} RecordsFollow(trace: seq<System>, steps: seq<Step>, n: nat, id: JobId)
    requires IsRun(trace, steps) && n <= |steps|
    ensures Follows(trace[n].jobs, id, LastResolved(trace, steps, n, id))
  {
    if n == 0 {
    } else {
      RecordsFollow(trace, steps, n - 1, id);
      NextIsRecorded(trace, steps, n - 1, id);
    }
  }

  // ---- Unchanged rows of its own UBID resolve every run of a job ----

  /** Step m queued the job. */
  ghost predicate QueuedAt(trace: seq<System>, steps: seq<Step>, m: nat, id: JobId)
    requires IsRun(trace, steps) && m < |steps|
  {
    steps[m].Ingesting? && id !in trace[m].jobs && id in trace[m + 1].jobs
  }

  /** Since step m every run of the job saw the rows of its UBID that routing saw. */
  ghost predicate RowsUnchanged(steps: seq<Step>, m: nat, n: nat, id: JobId)
    requires m < |steps| && n <= |steps| && steps[m].Ingesting?
  {
    forall i :: m < i < n && steps[i].Running? && steps[i].id == id ==>
      SameRows(steps[i].registry, steps[m].c)
  }

  predicate SameRows(registry: Routing.Registry, c: Call) {
    Routing.RowsOf(registry, c.e.ubid) == Routing.RowsOf(c.registry, c.e.ubid)
  }

  lemma QueueingStep(s: System, c: Call, order: seq<EventId>, id: JobId)
    requires CanIngest(s, c, order) && LinksSound(s.world)
    requires id !in s.jobs && id in Ingest(s, c, order).0.jobs
    ensures id.eventId == c.e.id && id.target in Routing.JobTargets(c.registry, c.e)
    ensures KeepsEvent(Ingest(s, c, order).0, c.e)
  {
    var routed := IngestJobs(s, c, order);
    IngestAddsTheEvent(s, c, order);
  }

  lemma QueuedJob(trace: seq<System>, steps: seq<Step>, m: nat, id: JobId)
    requires IsRun(trace, steps) && m < |steps| && QueuedAt(trace, steps, m, id)
    ensures var c := steps[m].c;
      && id.eventId == c.e.id && id.target in Routing.JobTargets(c.registry, c.e)
      && KeepsEvent(trace[m + 1], c.e)
  {
    RunIsSturdy(trace, steps, m);
    assert CanTake(trace[m], steps[m]);
    QueueingStep(trace[m], steps[m].c, steps[m].order, id);
  }

  lemma SameRowsResolve(s: System, step: Step, c: Call)
    requires CanTake(s, step) && step.Running? && step.id.eventId == c.e.id && KeepsEvent(s, c.e)
    requires step.id.target in Routing.JobTargets(c.registry, c.e) && SameRows(step.registry, c)
    ensures Resolved(s, step)
  {
    Routing.QueuedTargetsResolve(c.registry, c.e, step.id.target);
    Routing.OwnRowsDecide(c.registry, step.registry, c.e, step.id.target);
  }

  lemma NextStaysResolved(trace: seq<System>, steps: seq<Step>, m: nat, n: nat, id: JobId)
    requires IsRun(trace, steps) && m < n < |steps| && QueuedAt(trace, steps, m, id)
    requires steps[n].Running? && steps[n].id == id ==> SameRows(steps[n].registry, steps[m].c)
    requires LastResolved(trace, steps, n, id) && KeepsEvent(trace[n], steps[m].c.e)
    ensures LastResolved(trace, steps, n + 1, id)
  {
    assert CanTake(trace[n], steps[n]);
    if steps[n].Running? && steps[n].id == id {
      QueuedJob(trace, steps, m, id);
      SameRowsResolve(trace[n], steps[n], steps[m].c);
    }
  }

  lemma {:induction false} NeverRunIsResolved(trace: seq<System>, steps: seq<Step>, n: nat, id: JobId)
    requires IsRun(trace, steps) && n <= |steps| && Runs(steps, n, id) == 0
    ensures LastResolved(trace, steps, n, id)
  {
    if n == 0 {
    } else {
      NeverRunIsResolved(trace, steps, n - 1, id);
    }
  }

  lemma StartsResolved(trace: seq<System>, steps: seq<Step>, m: nat, id: JobId)
    requires IsRun(trace, steps) && m < |steps| && QueuedAt(trace, steps, m, id)
    ensures LastResolved(trace, steps, m + 1, id) && KeepsEvent(trace[m + 1], steps[m].c.e)
  {
    RunsAreCounted(trace, steps, m, id);
    NeverRunIsResolved(trace, steps, m, id);
    QueuedJob(trace, steps, m, id);
  }

  lemma {:induction false} StaysResolved(trace: seq<System>, steps: seq<Step>, m: nat, n: nat, id: JobId)
    requires IsRun(trace, steps) && m < n <= |steps| && QueuedAt(trace, steps, m, id)
    requires RowsUnchanged(steps, m, n, id)
    ensures LastResolved(trace, steps, n, id) && KeepsEvent(trace[n], steps[m].c.e)
  {
    if n == m + 1 {
      StartsResolved(trace, steps, m, id);
    } else {
      StaysResolved(trace, steps, m, n - 1, id);
      NextStaysResolved(trace, steps, m, n - 1, id);
      NextKeepsEvent(trace, steps, n - 1, steps[m].c.e);
    }
  }

  // ---- The results ----

  lemma JobIsBalanced(trace: seq<System>, steps: seq<Step>, n: nat, id: JobId)
    requires IsRun(trace, steps) && n <= |steps| && id in trace[n].jobs
    ensures id.eventId in trace[n].world.status
    ensures Balanced(AccountOf(HubOf(trace[n]), id))
  {
    RunIsSturdy(trace, steps, n);
    assert JobSound(HubOf(trace[n]), id);
  }

  /**
   * Every job is given up within maxAttempts runs, and its record then says COMPLETED or DLQ_MOVED exactly
   * if its last run resolved its target; while it is unfinished it says neither.
   */
  lemma JobsEndWithinTheirAttempts(trace: seq<System>, steps: seq<Step>, n: nat, id: JobId)
    requires IsRun(trace, steps) && n <= |steps| && id in trace[n].jobs
    ensures var job := trace[n].jobs[id];
      && Runs(steps, n, id) <= job.maxAttempts
      && (Runs(steps, n, id) == job.maxAttempts ==> !Runnable(HubOf(trace[n]), id))
      && (job.status in {JOB_COMPLETED, JOB_DEAD} <==>
          !Runnable(HubOf(trace[n]), id) && LastResolved(trace, steps, n, id))
  {
    JobIsBalanced(trace, steps, n, id);
    RunsAreCounted(trace, steps, n, id);
    RecordsFollow(trace, steps, n, id);
  }

  /**
   * The recorded attempts are the runs so far exactly if the last of them resolved its target, and the
   * recorded delay of a job waiting for a retry is then the backoff that the worker applies to it.
   */
  lemma RecordsAgreeWithTheQueue(trace: seq<System>, steps: seq<Step>, n: nat, id: JobId)
    requires IsRun(trace, steps) && n <= |steps| && id in trace[n].jobs
    ensures var job := trace[n].jobs[id];
      && (job.recordedAttempts == Runs(steps, n, id) <==> LastResolved(trace, steps, n, id))
      && (job.status == JOB_RETRY ==> job.retryDelayMs == BackoffStrategy(job.recordedAttempts, true))
      && (job.status == JOB_RETRY && LastResolved(trace, steps, n, id) ==>
          job.retryDelayMs == BackoffStrategy(job.attemptsMade, true))
  {
    JobIsBalanced(trace, steps, n, id);
    RunsAreCounted(trace, steps, n, id);
    RecordsFollow(trace, steps, n, id);
  }

  /**
   * While the registry rows of its own UBID stay as routing saw them, a job reaches COMPLETED or DLQ_MOVED
   * within maxAttempts runs and its recorded attempts are its runs, whatever happens to other rows.
   */
  lemma UnchangedRowsEndInARecord(trace: seq<System>, steps: seq<Step>, m: nat, n: nat, id: JobId)
    requires IsRun(trace, steps) && m < n <= |steps| && QueuedAt(trace, steps, m, id)
    requires RowsUnchanged(steps, m, n, id)
    ensures id in trace[n].jobs
    ensures var job := trace[n].jobs[id];
      && job.recordedAttempts == Runs(steps, n, id) <= job.maxAttempts
      && (Runs(steps, n, id) == job.maxAttempts ==> job.status in {JOB_COMPLETED, JOB_DEAD})
      && (Runnable(HubOf(trace[n]), id) <==> job.status !in {JOB_COMPLETED, JOB_DEAD})
  {
    JobsStay(trace, steps, m + 1, n, id);
    StaysResolved(trace, steps, m, n, id);
    JobsEndWithinTheirAttempts(trace, steps, n, id);
    RecordsAgreeWithTheQueue(trace, steps, n, id);
    JobIsBalanced(trace, steps, n, id);
  }

  lemma {:induction false} JobsStay(trace: seq<System>, steps: seq<Step>, m: nat, n: nat, id: JobId)
    requires IsRun(trace, steps) && m <= n <= |steps| && id in trace[m].jobs
    ensures id in trace[n].jobs
  {
    if n == m {
    } else {
      JobsStay(trace, steps, m, n - 1, id);
      RunsAreCounted(trace, steps, n - 1, id);
      NextCounts(trace, steps, n - 1, id, Runs(steps, n - 1, id));
    }
  }

  /** Every job was queued by such a step. */
  lemma {:induction false} EveryJobWasQueued(trace: seq<System>, steps: seq<Step>, n: nat, id: JobId) returns (m: nat)
    requires IsRun(trace, steps) && n <= |steps| && id in trace[n].jobs
    ensures m < n && QueuedAt(trace, steps, m, id)
  {
    m := 0;
    if n == 0 {
      assert false;
    } else if id in trace[n - 1].jobs {
      m := EveryJobWasQueued(trace, steps, n - 1, id);
    } else {
      m := n - 1;
      NewJobWasQueued(trace, steps, m, id);
    }
  }

  lemma NewJobWasQueued(trace: seq<System>, steps: seq<Step>, m: nat, id: JobId)
    requires IsRun(trace, steps) && m < |steps| && id !in trace[m].jobs && id in trace[m + 1].jobs
    ensures QueuedAt(trace, steps, m, id)
  {
    assert CanTake(trace[m], steps[m]);
    if steps[m].Running? { JobRunAddsNoJob(trace[m], steps[m]); }
  }

  lemma JobRunAddsNoJob(s: System, step: Step)
    requires CanTake(s, step) && step.Running?
    ensures Take(s, step).jobs.Keys == s.jobs.Keys
  {
  }

  /** Conservation, in every reachable state and whatever the registry does. */
  lemma BooksBalance(trace: seq<System>, steps: seq<Step>, n: nat, id: JobId)
    requires IsRun(trace, steps) && n <= |steps| && id in trace[n].jobs
    ensures var s := trace[n];
      && Count(s.log, Entry(id, WRITE_FAILED))
        == Count(s.log, Entry(id, RETRY_SCHEDULED)) + Count(s.log, Entry(id, DLQ_MOVED))
      && Count(s.deadLetters, id) == (if s.jobs[id].status == JOB_DEAD then 1 else 0)
      && id.eventId in s.world.status
      && (s.world.status[id.eventId] != SUPERSEDED ==>
        Count(s.writes, id) == if s.jobs[id].status == JOB_COMPLETED then 1 else 0)
  {
    JobIsBalanced(trace, steps, n, id);
  }

  /** Duplicates, parked events and events whose detection threw never have a write job. */
  lemma OnlyAdmittedEventsHaveJobs(trace: seq<System>, steps: seq<Step>, n: nat, id: JobId)
    requires IsRun(trace, steps) && n <= |steps| && id in trace[n].jobs
    ensures id.eventId in trace[n].world.status
    ensures !Unadmitted(trace[n].world.status[id.eventId])
    ensures trace[n].world.status[id.eventId] != MANUAL_REVIEW_REQUIRED
  {
    JobIsBalanced(trace, steps, n, id);
  }

  /** An event with jobs that was never superseded is COMPLETED exactly when all its jobs are. */
  lemma CompletedMeansAllJobs(trace: seq<System>, steps: seq<Step>, n: nat, e: EventId)
    requires IsRun(trace, steps) && n <= |steps|
    requires e in trace[n].world.status && trace[n].world.status[e] != SUPERSEDED
    requires exists id :: id in trace[n].jobs && id.eventId == e
    ensures trace[n].world.status[e] == COMPLETED <==>
      forall id :: id in trace[n].jobs && id.eventId == e ==> trace[n].jobs[id].status == JOB_COMPLETED
  {
    RunIsSturdy(trace, steps, n);
    AllJobsDecide(HubOf(trace[n]), e);
  }

  lemma AllJobsDecide(h: Hub, e: EventId)
    requires HubSound(h) && e in h.status && h.status[e] != SUPERSEDED
    requires exists id :: id in h.jobs && id.eventId == e
    ensures h.status[e] == COMPLETED <==> AllCompleted(h.jobs, e)
  {
    var id :| id in h.jobs && id.eventId == e;
    assert id in JobsOf(h.jobs, e);
    assert AggregateSound(h, e);
  }

  lemma {:induction false} FinishedForGood(trace: seq<System>, steps: seq<Step>, n: nat, m: nat, id: JobId)
    requires IsRun(trace, steps) && n <= m <= |steps|
    requires id in trace[n].jobs && trace[n].jobs[id].finished
    ensures id in trace[m].jobs && trace[m].jobs[id] == trace[n].jobs[id]
  {
    if n == m {
    } else {
      FinishedForGood(trace, steps, n, m - 1, id);
      RunsAreCounted(trace, steps, m - 1, id);
      NextCounts(trace, steps, m - 1, id, Runs(steps, m - 1, id));
    }
  }

  /** A dead-lettered job keeps its event from COMPLETED for good, in whatever order the siblings finish. */
  lemma DeadLetterExcludesCompleted(trace: seq<System>, steps: seq<Step>, n: nat, m: nat, id: JobId)
    requires IsRun(trace, steps) && n <= m <= |steps|
    requires id in trace[n].jobs && trace[n].jobs[id].status == JOB_DEAD
    ensures id.eventId in trace[m].world.status && trace[m].world.status[id.eventId] != COMPLETED
  {
    JobIsBalanced(trace, steps, n, id);
    FinishedForGood(trace, steps, n, m, id);
    RunIsSturdy(trace, steps, m);
    DeadSiblingExcludesCompleted(HubOf(trace[m]), id);
  }
}
