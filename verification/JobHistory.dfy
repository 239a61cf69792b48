/** What every transaction keeps of a job: its lease and timestamps, its counters, and an event
    log from which status and counters can be replayed. And what every status change uses up. */
module JobHistory {
  import opened Ordering
  import opened Jobs

  /** Status and counters, as told by the log alone. */
  datatype Tally = Tally(status: Status, claims: nat, manualRetries: nat, attempts: nat)

  /** A cancellation request records the status it found, every other event the status it left. */
  function Replay(events: seq<Event>): Tally
  {
    if events == [] then Tally(Queued, 0, 0, 0)
    else
      var before, e := Replay(events[..|events| - 1]), events[|events| - 1];
      var status :=
        if e.kind.JobCancellationRequested? then (if e.status.Running? then CancelRequested else before.status)
        else e.status;
      match e.kind
      case JobClaimed => Tally(status, before.claims + 1, before.manualRetries, before.attempts + 1)
      case JobManualRetryRequested => Tally(status, before.claims, before.manualRetries + 1, 0)
      case _ => before.(status := status)
  }

  ghost predicate Numbered(events: seq<Event>)
  {
    forall i :: 0 <= i < |events| ==> events[i].sequence == i + 1
  }

  /** Lease fields are set exactly while a worker may be at it; completed_at exactly when terminal. */
  ghost predicate Stamped(job: Job)
  {
    && (job.claimedBy.Some? <==> job.Active())
    && (job.heartbeatAt.Some? <==> job.Active())
    && (job.deadlineAt.Some? <==> job.Active())
    && (job.Active() ==> job.startedAt.Some? && job.deadlineAt == Some(job.startedAt.value + job.timeoutSeconds))
    && (job.completedAt.Some? <==> job.Terminal())
    && (job.status.CancelRequested? || job.status.Cancelled? ==> job.cancellationRequestedAt.Some?)
  }

  /** A queued job always has attempts left, and claims are bounded per manual retry. */
  ghost predicate Counted(job: Job)
  {
    && 1 <= job.maxAttempts
    && job.attemptCount <= job.maxAttempts
    && (job.status.Queued? ==> job.attemptCount < job.maxAttempts)
    && job.totalAttemptCount <= job.maxAttempts * job.manualRetryCount + job.attemptCount
  }

  ghost predicate Logged(job: Job)
  {
    && Numbered(job.events)
    && Replay(job.events) == Tally(job.status, job.totalAttemptCount, job.manualRetryCount, job.attemptCount)
  }

  ghost predicate JobOk(job: Job)
  {
    Stamped(job) && Counted(job) && Logged(job)
  }

  lemma {:induction false} LastSequenceIsLength(events: seq<Event>)
    requires Numbered(events)
    ensures LastSequence(events) == |events|
  {
    if events != [] {
      LastSequenceIsLength(events[..|events| - 1]);
    }
  }

  /** Appending an event extends the numbering and the replay by that event. */
  lemma LogAppends(job: Job, kind: EventKind, at: int)
    requires Numbered(job.events)
    ensures Numbered(job.Log(kind, at).events)
    ensures job.Log(kind, at).events == job.events + [Event(|job.events| + 1, kind, job.status, at)]
    ensures job.Log(kind, at).events[..|job.events|] == job.events
  {
    LastSequenceIsLength(job.events);
  }

  lemma NewJobIsOk(
      organization: nat, runId: nat, priority: Priority, maxAttempts: nat, timeoutSeconds: nat,
      scheduledAt: int, now: int)
    requires maxAttempts >= 1
    ensures JobOk(NewJob(organization, runId, priority, maxAttempts, timeoutSeconds, scheduledAt, now))
  {
    var job := NewJob(organization, runId, priority, maxAttempts, timeoutSeconds, scheduledAt, now);
    assert job.events[..0] == [];
  }

  lemma ClaimKeepsOk(job: Job, worker: nat, at: int)
    requires JobOk(job) && job.status.Queued?
    ensures JobOk(Claimed(job, worker, at))
  {
    LogAppends(job.(status := Running), JobClaimed, at);
  }

  lemma HeartbeatKeepsOk(job: Job, worker: nat, at: int)
    requires JobOk(job) && Heartbeat(job, worker, at).Ok?
    ensures JobOk(Heartbeat(job, worker, at).value)
  {
  }

  lemma ProgressKeepsOk(job: Job, percentage: nat, at: int)
    requires JobOk(job) && UpdateProgress(job, percentage, at).Ok?
    ensures JobOk(UpdateProgress(job, percentage, at).value)
  {
    LogAppends(job, JobProgressUpdated, at);
  }

  lemma RecoverKeepsOk(job: Job, at: int)
    requires JobOk(job) && job.Active()
    ensures JobOk(Recovered(job, at))
  {
    LogAppends(job.(status := Recovered(job, at).status), JobRecovered, at);
  }

  lemma CancelKeepsOk(job: Job, at: int)
    requires JobOk(job) && RequestCancellation(job, at).Ok?
    ensures JobOk(RequestCancellation(job, at).value)
  {
    LogAppends(job, JobCancellationRequested, at);
    var asked := job.Log(JobCancellationRequested, at);
    assert Replay(asked.events).claims == job.totalAttemptCount;
    if job.status.Queued? {
      LogAppends(asked.(status := Cancelled), JobCancelled, at);
    }
  }

  lemma CompleteKeepsOk(job: Job, target: Status, at: int, retryAt: Option<int>, code: Option<FailureCode>)
    requires JobOk(job) && Completed(job, target, at, retryAt, code).Ok?
    ensures JobOk(Completed(job, target, at, retryAt, code).value)
  {
    var after := Completed(job, target, at, retryAt, code).value;
    LogAppends(job.(status := after.status), after.events[|job.events|].kind, at);
  }

  lemma RequeueKeepsOk(job: Job, at: int)
    requires JobOk(job) && job.status.Failed?
    ensures JobOk(Requeued(job, at))
  {
    LogAppends(job.(status := Queued), JobManualRetryRequested, at);
    var m, k := job.maxAttempts, job.manualRetryCount;
    assert m * (k + 1) == m * k + m;
  }

  /** The lifetime attempts of a job: at most maxAttempts for the first cycle and each manual retry. */
  lemma AttemptsAreBounded(job: Job)
    requires JobOk(job)
    ensures job.totalAttemptCount <= job.maxAttempts * (1 + job.manualRetryCount)
  {
    var m, k := job.maxAttempts, job.manualRetryCount;
    assert m * (1 + k) == m * k + m;
  }

  /** A cancelled job has its completion stamp, so the retention fallback on the request stamp is dead. */
  predicate RetentionFallback(job: Job, cutoff: int)
  {
    && job.status.Cancelled? && job.completedAt.None?
    && job.cancellationRequestedAt.Some? && job.cancellationRequestedAt.value <= cutoff
  }

  // Termination.

  function Phase(status: Status): nat
  {
    match status
    case Running => 3
    case CancelRequested => 2
    case Queued => 1
    case _ => 0
  }

  /** Manual retries left, then attempts left, then phase: one number for the lexicographic triple. */
  function Measure(job: Job, maxManualRetries: nat): int
  {
    ((maxManualRetries - job.manualRetryCount) * (job.maxAttempts + 1) + (job.maxAttempts - job.attemptCount)) * 4
    + Phase(job.status)
  }

  ghost predicate Moved(before: Job, after: Job)
  {
    before.status != after.status || before.totalAttemptCount != after.totalAttemptCount
  }

  /** What a transaction may do to a job: nothing visible, or use up some measure. */
  ghost predicate UsesUp(before: Job, after: Job, maxManualRetries: nat)
  {
    && Measure(after, maxManualRetries) <= Measure(before, maxManualRetries)
    && (Moved(before, after) ==> Measure(after, maxManualRetries) < Measure(before, maxManualRetries))
  }

  lemma MeasureIsBounded(job: Job, maxManualRetries: nat)
    requires JobOk(job) && job.manualRetryCount <= maxManualRetries
    ensures 0 <= Measure(job, maxManualRetries)
  {
    var left, m := maxManualRetries - job.manualRetryCount, job.maxAttempts + 1;
    assert left * m >= 0;
  }

  lemma ClaimUsesUp(job: Job, worker: nat, at: int, cap: nat)
    requires JobOk(job) && job.status.Queued?
    ensures UsesUp(job, Claimed(job, worker, at), cap)
  {
  }

  lemma RecoverUsesUp(job: Job, at: int, cap: nat)
    requires JobOk(job) && job.Active()
    ensures UsesUp(job, Recovered(job, at), cap)
  {
  }

  lemma CancelUsesUp(job: Job, at: int, cap: nat)
    requires JobOk(job) && RequestCancellation(job, at).Ok?
    ensures UsesUp(job, RequestCancellation(job, at).value, cap)
  {
  }

  lemma CompleteUsesUp(job: Job, target: Status, at: int, retryAt: Option<int>, code: Option<FailureCode>, cap: nat)
    requires JobOk(job) && Completed(job, target, at, retryAt, code).Ok?
    ensures UsesUp(job, Completed(job, target, at, retryAt, code).value, cap)
  {
  }

  lemma RequeueUsesUp(job: Job, at: int, cap: nat)
    requires JobOk(job) && job.status.Failed? && job.manualRetryCount < cap
    ensures UsesUp(job, Requeued(job, at), cap)
  {
    var left, m := cap - job.manualRetryCount, job.maxAttempts + 1;
    assert left * m == (left - 1) * m + m;
  }
}
