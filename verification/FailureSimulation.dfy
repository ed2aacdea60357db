/** Scheduled write failures, and how many attempts and how much backoff they cost an e-Karmika job. */
module FailureSimulation {
  import opened Domain
  import opened Delivery

  datatype Rule = Rule(reason: string, remainingFailures: int)

  datatype RuleKey = RuleKey(target: SystemName, ubid: string)

  type Rules = map<RuleKey, Rule>

  /** consumeSimulatedWriteFailure: the reason of a failure that is still due, and what is left. */
  function Consume(rules: Rules, key: RuleKey): (Option<string>, Rules) {
    if key !in rules || rules[key].remainingFailures <= 0 then (None, rules)
    else
      var rule := rules[key].(remainingFailures := rules[key].remainingFailures - 1);
      (Some(rule.reason), if rule.remainingFailures <= 0 then rules - {key} else rules[key := rule])
  }

  class FailureSimulator {
    var rules: Rules

    constructor ()
      ensures rules == map[]
    {
      rules := map[];
    }

    method Schedule(
      target: SystemName, ubid: string, reason: Option<string>, remainingFailures: Option<int>, otherwise: string)
      modifies this
      ensures rules == Scheduled(old(rules), RuleKey(target, ubid),
                                 if reason.Some? then reason.value else otherwise,
                                 if remainingFailures.Some? then remainingFailures.value else 1)
    {
      var text := if reason.Some? then reason.value else otherwise;
      var count := if remainingFailures.Some? then remainingFailures.value else 1;
      rules := rules[RuleKey(target, ubid) := Rule(text, count)];
    }

    method ConsumeFailure(target: SystemName, ubid: string) returns (reason: Option<string>)
      modifies this
      ensures (reason, rules) == Consume(old(rules), RuleKey(target, ubid))
    {
      var key := RuleKey(target, ubid);
      if key !in rules || rules[key].remainingFailures <= 0 {
        return None;
      }
      var rule := rules[key].(remainingFailures := rules[key].remainingFailures - 1);
      if rule.remainingFailures <= 0 {
        rules := rules - {key};
      } else {
        rules := rules[key := rule];
      }
      reason := Some(rule.reason);
    }

    /** BullMQ's single consumer, running one otherwise sound e-Karmika job until it is finished. */
    method RunToTheEnd(worker: WriteWorker, id: JobId, ubid: string) returns (waited: nat)
      requires CanRun(worker.Abs(), id)
      modifies this, worker
      ensures RunOut(old(worker.Abs()), old(rules), id, ubid) == Outcome(worker.Abs(), rules, waited)
    {
      waited := 0;
      var done := false;
      ghost var begin := RunOut(worker.Abs(), rules, id, ubid);
      while !done
        invariant done ==> begin == Outcome(worker.Abs(), rules, waited)
        invariant !done ==> CanRun(worker.Abs(), id)
        invariant !done ==> begin == Delayed(RunOut(worker.Abs(), rules, id, ubid), waited)
        decreases if done then 0 else 1 + AttemptsLeft(worker.Abs(), id)
      {
        ghost var h, r := worker.Abs(), rules;
        var reason := ConsumeFailure(EKARMIKA, ubid);
        var threw := worker.Process(id, true, if Fires(reason) then WRITE_FAILS else SUCCEEDS);
        AttemptProgress(h, r, id, ubid);
        done := worker.jobs[id].finished;
        if !done {
          waited := waited + worker.jobs[id].retryDelayMs;
        }
      }
    }
  }

  /** The adapter throws on a truthy reason only: an empty one is consumed without failing. */
  predicate Fires(reason: Option<string>) { reason.Some? && reason.value != "" }

  ghost predicate CanRun(h: Hub, id: JobId) {
    Runnable(h, id) && h.status[id.eventId] != SUPERSEDED && h.jobs[id].attemptsMade < h.jobs[id].maxAttempts
  }

  ghost function AttemptsLeft(h: Hub, id: JobId): nat
    requires CanRun(h, id)
  {
    h.jobs[id].maxAttempts - h.jobs[id].attemptsMade
  }

  function Attempt(h: Hub, rules: Rules, id: JobId, ubid: string): (Hub, Rules)
    requires Runnable(h, id)
  {
    var (reason, rules') := Consume(rules, RuleKey(EKARMIKA, ubid));
    (ProcessWriteJob(h, id, true, if Fires(reason) then WRITE_FAILS else SUCCEEDS), rules')
  }

  lemma AttemptProgress(h: Hub, rules: Rules, id: JobId, ubid: string)
    requires CanRun(h, id)
    ensures var h' := Attempt(h, rules, id, ubid).0;
      id in h'.jobs && (!h'.jobs[id].finished ==>
        CanRun(h', id) && AttemptsLeft(h', id) == AttemptsLeft(h, id) - 1)
  {
  }

  /** waited: the backoff between the attempts. */
  datatype Outcome = Outcome(hub: Hub, rules: Rules, waited: nat)

  function Delayed(o: Outcome, ms: nat): Outcome { o.(waited := o.waited + ms) }

  ghost function RunOut(h: Hub, rules: Rules, id: JobId, ubid: string): Outcome
    requires CanRun(h, id)
    decreases AttemptsLeft(h, id)
  {
    AttemptProgress(h, rules, id, ubid);
    var (h', rules') := Attempt(h, rules, id, ubid);
    if h'.jobs[id].finished then Outcome(h', rules', 0)
    else Delayed(RunOut(h', rules', id, ubid), h'.jobs[id].retryDelayMs)
  }

  // ---- What k scheduled failures cost ----

  /** Failures still due under a key. */
  function Due(rules: Rules, key: RuleKey): nat {
    if key in rules && rules[key].remainingFailures > 0 then rules[key].remainingFailures else 0
  }

  /** Every rule under the key has a reason to throw. */
  predicate Reasoned(rules: Rules, key: RuleKey) { key in rules ==> rules[key].reason != "" }

  predicate SameElsewhere(rules: Rules, rules': Rules, key: RuleKey) {
    rules - {key} == rules' - {key}
  }

  lemma ConsumingTakesOne(rules: Rules, key: RuleKey)
    ensures var (reason, rules') := Consume(rules, key);
      && (reason.Some? <==> Due(rules, key) > 0)
      && Due(rules', key) == (if reason.Some? then Due(rules, key) - 1 else 0)
      && SameElsewhere(rules, rules', key)
      && (Reasoned(rules, key) ==> Reasoned(rules', key) && (reason.Some? ==> Fires(reason)))
  {
  }

  /** The rules after a run of consumptions, for any writes in any order. */
  function RulesAfter(rules: Rules, keys: seq<RuleKey>): Rules {
    if keys == [] then rules else Consume(RulesAfter(rules, keys[..|keys| - 1]), keys[|keys| - 1]).1
  }

  function Uses(keys: seq<RuleKey>, key: RuleKey): nat {
    if keys == [] then 0
    else Uses(keys[..|keys| - 1], key) + if keys[|keys| - 1] == key then 1 else 0
  }

  /** What Schedule leaves under a key. */
  function Scheduled(rules: Rules, key: RuleKey, reason: string, n: int): Rules { rules[key := Rule(reason, n)] }

  /**
   * A schedule of n failures fails exactly the next n writes under its key with its reason, however the
   * writes under other keys come in between.
   */
  lemma {:induction false} ScheduledFailuresAreDue(
    rules: Rules, key: RuleKey, reason: string, n: int, keys: seq<RuleKey>)
    ensures var left := RulesAfter(Scheduled(rules, key, reason, n), keys);
      && Due(left, key) == Max(n - Uses(keys, key), 0)
      && Consume(left, key).0 == if Uses(keys, key) < n then Some(reason) else None
  {
    if keys == [] {
    } else {
      ScheduledFailuresAreDue(rules, key, reason, n, keys[..|keys| - 1]);
      ConsumingTakesOne(RulesAfter(Scheduled(rules, key, reason, n), keys[..|keys| - 1]), keys[|keys| - 1]);
    }
  }

  function Failures(h: Hub, id: JobId): nat { Count(h.log, Entry(id, WRITE_FAILED)) }

  lemma AttemptEffect(h: Hub, rules: Rules, id: JobId, ubid: string)
    requires CanRun(h, id) && Reasoned(rules, RuleKey(EKARMIKA, ubid))
    ensures var h' := Attempt(h, rules, id, ubid).0;
      && id in h'.jobs
      && var fails := Due(rules, RuleKey(EKARMIKA, ubid)) > 0;
         && h'.jobs[id] == (if fails then Fail(h.jobs[id]) else Complete(h.jobs[id]))
         && Failures(h', id) == Failures(h, id) + if fails then 1 else 0
  {
    ConsumingTakesOne(rules, RuleKey(EKARMIKA, ubid));
    if Due(rules, RuleKey(EKARMIKA, ubid)) > 0 {
      FailureMovesTallies(h, id, true, id);
    } else {
      SuccessMovesTallies(h, id, id);
    }
  }

  /** The worker's backoff over the failures number first + 1 to first + count. */
  function Backoff(first: nat, count: nat): nat
    decreases count
  {
    if count == 0 then 0 else BackoffStrategy(first + 1, true) + Backoff(first + 1, count - 1)
  }

  /** The recorded delay of a rescheduled job is the worker's backoff for the same failure. */
  lemma RecordedDelayIsTheWorkers(job: Job)
    requires !Fail(job).finished
    ensures Fail(job).retryDelayMs == BackoffStrategy(Fail(job).attemptsMade, true)
  {
  }

  /** What a run of attempts leaves, with k failures due and some attempts left. */
  ghost predicate RunCounts(h: Hub, rules: Rules, id: JobId, key: RuleKey, o: Outcome)
    requires CanRun(h, id)
  {
    var k, left := Due(rules, key), AttemptsLeft(h, id);
    && id in o.hub.jobs
    && o.hub.jobs[id].status == (if k < left then JOB_COMPLETED else JOB_DEAD)
    && Failures(o.hub, id) == Failures(h, id) + Min(k, left)
    && Due(o.rules, key) == k - Min(k, left)
    && SameElsewhere(rules, o.rules, key)
    && o.waited == Backoff(h.jobs[id].attemptsMade, Min(k, left - 1))
  }

  lemma LastAttemptCounts(h: Hub, rules: Rules, id: JobId, ubid: string)
    requires CanRun(h, id) && Reasoned(rules, RuleKey(EKARMIKA, ubid))
    requires Due(rules, RuleKey(EKARMIKA, ubid)) == 0 || AttemptsLeft(h, id) == 1
    ensures RunCounts(h, rules, id, RuleKey(EKARMIKA, ubid), RunOut(h, rules, id, ubid))
  {
    AttemptEffect(h, rules, id, ubid);
    ConsumingTakesOne(rules, RuleKey(EKARMIKA, ubid));
  }

  /** One more failed attempt in front of a run. */
  lemma FailedAttemptCounts(h: Hub, rules: Rules, id: JobId, key: RuleKey, h': Hub, rules': Rules, o: Outcome)
    requires CanRun(h, id) && CanRun(h', id) && Due(rules, key) > 0 && AttemptsLeft(h, id) > 1
    requires h'.jobs[id] == Fail(h.jobs[id]) && Failures(h', id) == Failures(h, id) + 1
    requires Due(rules', key) == Due(rules, key) - 1 && SameElsewhere(rules, rules', key)
    requires RunCounts(h', rules', id, key, o)
    ensures RunCounts(h, rules, id, key, Delayed(o, h'.jobs[id].retryDelayMs))
  {
    RecordedDelayIsTheWorkers(h.jobs[id]);
  }

  /** The run of an otherwise sound job with the attempts it has left, and k failures due. */
  lemma {:induction false} RunOutCounts(h: Hub, rules: Rules, id: JobId, ubid: string)
    requires CanRun(h, id) && Reasoned(rules, RuleKey(EKARMIKA, ubid))
    ensures RunCounts(h, rules, id, RuleKey(EKARMIKA, ubid), RunOut(h, rules, id, ubid))
    decreases AttemptsLeft(h, id)
  {
    if Due(rules, RuleKey(EKARMIKA, ubid)) == 0 || AttemptsLeft(h, id) == 1 {
      LastAttemptCounts(h, rules, id, ubid);
    } else {
      AttemptProgress(h, rules, id, ubid);
      AttemptEffect(h, rules, id, ubid);
      ConsumingTakesOne(rules, RuleKey(EKARMIKA, ubid));
      var (h', rules') := Attempt(h, rules, id, ubid);
      RunOutCounts(h', rules', id, ubid);
      FailedAttemptCounts(h, rules, id, RuleKey(EKARMIKA, ubid), h', rules', RunOut(h', rules', id, ubid));
    }
  }

  /** With k failures scheduled and n attempts a fresh job completes iff k < n, after min(k, n) failures. */
  lemma JobWithScheduledFailures(h: Hub, rules: Rules, id: JobId, ubid: string, k: nat, n: nat)
    requires Runnable(h, id) && h.status[id.eventId] != SUPERSEDED
    requires n > 0 && h.jobs[id] == NewJob(n)
    requires k == Due(rules, RuleKey(EKARMIKA, ubid)) && Reasoned(rules, RuleKey(EKARMIKA, ubid))
    requires Failures(h, id) == 0
    ensures var o := RunOut(h, rules, id, ubid);
      && id in o.hub.jobs
      && (o.hub.jobs[id].status == JOB_COMPLETED <==> k < n)
      && Failures(o.hub, id) == Min(k, n)
      && Due(o.rules, RuleKey(EKARMIKA, ubid)) == k - Min(k, n)
      && (k >= n >= 3 ==> o.waited == 30000 * (n - 1) - 40000)
  {
    RunOutCounts(h, rules, id, ubid);
    if k >= n >= 3 { TotalBackoff(n); }
  }

  lemma {:induction false} FlatBackoff(first: nat, count: nat)
    requires first >= 2
    ensures Backoff(first, count) == 30000 * count
    decreases count
  {
    if count == 0 {
    } else {
      FlatBackoff(first + 1, count - 1);
    }
  }

  /** 5 s, 15 s, then 30 s each: the whole backoff before a job is dead-lettered. */
  lemma TotalBackoff(n: nat)
    requires n >= 3
    ensures Backoff(0, n - 1) == 30000 * (n - 1) - 40000
  {
    FlatBackoff(2, n - 3);
    assert Backoff(1, n - 2) == 15000 + Backoff(2, n - 3);
  }

  /** A rule scheduled with an empty reason is used up without ever failing a write. */
  lemma EmptyReasonNeverFails(h: Hub, rules: Rules, id: JobId, ubid: string)
    requires CanRun(h, id)
    requires RuleKey(EKARMIKA, ubid) in rules && rules[RuleKey(EKARMIKA, ubid)].reason == ""
    ensures var o := RunOut(h, rules, id, ubid);
      var k := Due(rules, RuleKey(EKARMIKA, ubid));
      && id in o.hub.jobs && o.hub.jobs[id].status == JOB_COMPLETED
      && Failures(o.hub, id) == Failures(h, id) && o.waited == 0
      && Due(o.rules, RuleKey(EKARMIKA, ubid)) == if k > 0 then k - 1 else 0
  {
    ConsumingTakesOne(rules, RuleKey(EKARMIKA, ubid));
    SuccessMovesTallies(h, id, id);
  }
}
