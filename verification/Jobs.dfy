/** The background-job table: what each repository transaction does to a job and its run. */
module Jobs {
  import opened Ordering

  datatype Status = Queued | Running | Succeeded | Failed | CancelRequested | Cancelled

  datatype Priority = Low | Normal | High

  datatype EventKind =
    | JobQueued
    | JobClaimed
    | JobProgressUpdated
    | JobRetryScheduled
    | JobManualRetryRequested
    | JobCancellationRequested
    | JobCancelled
    | JobTimedOut
    | JobSucceeded
    | JobFailed
    | JobRecovered

  /** One line of a job's history; `status` is the status recorded in its details. */
  datatype Event = Event(sequence: nat, kind: EventKind, status: Status, occurredAt: int)

  datatype FailureCode = WorkerInterrupted | JobTimeout | WorkerProcessingFailed

  datatype Job = Job(
    organization: nat,
    runId: nat,
    status: Status,
    priority: Priority,
    progress: nat,
    attemptCount: nat,
    totalAttemptCount: nat,
    manualRetryCount: nat,
    maxAttempts: nat,
    timeoutSeconds: nat,
    createdAt: int,
    scheduledAt: int,
    startedAt: Option<int>,
    completedAt: Option<int>,
    deadlineAt: Option<int>,
    cancellationRequestedAt: Option<int>,
    retryAt: Option<int>,
    claimedBy: Option<nat>,
    heartbeatAt: Option<int>,
    failureCode: Option<FailureCode>,
    events: seq<Event>)
  {
    predicate Active()
    {
      status.Running? || status.CancelRequested?
    }

    predicate Terminal()
    {
      status.Succeeded? || status.Failed? || status.Cancelled?
    }

    /** `coalesce(retry_at, scheduled_at)`. */
    function EligibleSince(): int
    {
      if retryAt.Some? then retryAt.value else scheduledAt
    }

    /** Append one event carrying the current status, numbered one past the largest so far. */
    function Log(kind: EventKind, at: int): Job
    {
      this.(events := events + [Event(LastSequence(events) + 1, kind, status, at)])
    }
  }

  function LastSequence(events: seq<Event>): nat
  {
    if events == [] then 0
    else
      var before, last := LastSequence(events[..|events| - 1]), events[|events| - 1].sequence;
      if before < last then last else before
  }

  datatype RunStatus = Pending | RunningRun | SucceededRun | FailedRun

  datatype AuditKind =
    | RunStarted
    | BankIngested
    | ErpIngested
    | GatewayIngested
    | GatewaySkipped
    | ReconciliationCompleted
    | RunSucceeded
    | RunFailed

  datatype RunError = ExecutionCancelled | ExecutionTimeout | ExecutionFailed

  /** A run with every result batch ever added to it and its audit events; a batch lists its rows. */
  datatype Run = Run(
    organization: nat,
    status: RunStatus,
    startedAt: Option<int>,
    finishedAt: Option<int>,
    error: Option<RunError>,
    batches: seq<seq<nat>>,
    audit: seq<AuditKind>)

  datatype Database = Database(jobs: map<nat, Job>, runs: map<nat, Run>)

  datatype Error = NotFound | InvalidTransition | Conflict | BadValue

  datatype Answer<+T> = Ok(value: T) | Err(error: Error)

  /** `_TRANSITIONS`. */
  predicate RunMayBecome(current: RunStatus, target: RunStatus)
  {
    match current
    case Pending => target.RunningRun? || target.FailedRun?
    case RunningRun => target.SucceededRun? || target.FailedRun?
    case _ => false
  }

  /** `transition`. */
  function TransitionRun(run: Run, target: RunStatus, at: int, error: Option<RunError>): Answer<Run>
  {
    if !RunMayBecome(run.status, target) then Err(InvalidTransition)
    else if target.RunningRun? then Ok(run.(status := target, startedAt := Some(at)))
    else Ok(run.(status := target, finishedAt := Some(at), error := if target.FailedRun? then error else None))
  }

  /** A freshly queued job. */
  function NewJob(
      organization: nat, runId: nat, priority: Priority, maxAttempts: nat, timeoutSeconds: nat,
      scheduledAt: int, now: int): Job
  {
    Job(organization, runId, Queued, priority, 0, 0, 0, 0, maxAttempts, timeoutSeconds, now, scheduledAt,
        None, None, None, None, None, None, None, None, []).Log(JobQueued, now)
  }

  /** The update at the end of `claim_next`. */
  function Claimed(job: Job, worker: nat, at: int): Job
  {
    job.(status := Running,
         attemptCount := job.attemptCount + 1,
         totalAttemptCount := job.totalAttemptCount + 1,
         startedAt := Some(at),
         claimedBy := Some(worker),
         heartbeatAt := Some(at),
         completedAt := None,
         deadlineAt := Some(at + job.timeoutSeconds),
         retryAt := None,
         failureCode := None).Log(JobClaimed, at)
  }

  function Heartbeat(job: Job, worker: nat, at: int): Answer<Job>
  {
    if !job.Active() || job.claimedBy != Some(worker) then Err(InvalidTransition)
    else Ok(job.(heartbeatAt := Some(at)))
  }

  function UpdateProgress(job: Job, percentage: nat, at: int): Answer<Job>
  {
    if percentage > 100 then Err(BadValue)
    else if !job.Active() then Err(InvalidTransition)
    else Ok(job.(progress := percentage).Log(JobProgressUpdated, at))
  }

  predicate Stale(job: Job, cutoff: int)
  {
    job.Active() && job.heartbeatAt.Some? && job.heartbeatAt.value <= cutoff
  }

  /** What `recover_stale` does to one interrupted job. */
  function Recovered(job: Job, at: int): Job
  {
    var moved :=
      if job.status.CancelRequested? then job.(status := Cancelled, completedAt := Some(at))
      else if job.attemptCount < job.maxAttempts then job.(status := Queued, retryAt := Some(at), startedAt := None)
      else job.(status := Failed, completedAt := Some(at), failureCode := Some(WorkerInterrupted));
    moved.(claimedBy := None, heartbeatAt := None, deadlineAt := None).Log(JobRecovered, at)
  }

  function RequestCancellation(job: Job, at: int): Answer<Job>
  {
    if !job.status.Queued? && !job.status.Running? then Err(InvalidTransition)
    else
      var asked := job.Log(JobCancellationRequested, at).(cancellationRequestedAt := Some(at));
      if job.status.Queued?
      then Ok(asked.(status := Cancelled, completedAt := Some(at), deadlineAt := None).Log(JobCancelled, at))
      else Ok(asked.(status := CancelRequested))
  }

  predicate MayComplete(job: Job, target: Status)
  {
    || (job.status.Running? && (target.Succeeded? || target.Failed?))
    || (job.status.CancelRequested? && (target.Cancelled? || target.Failed?))
  }

  /** `complete`: note that nothing asks who holds the lease. */
  function Completed(job: Job, target: Status, at: int, retryAt: Option<int>, code: Option<FailureCode>): Answer<Job>
  {
    if !MayComplete(job, target) then Err(InvalidTransition)
    else
      var released := job.(claimedBy := None, heartbeatAt := None, deadlineAt := None,
                           failureCode := if target.Failed? then code else job.failureCode);
      if target.Failed? && retryAt.Some? then
        if job.attemptCount >= job.maxAttempts then Err(InvalidTransition)
        else Ok(released.(status := Queued, retryAt := retryAt).Log(JobRetryScheduled, at))
      else
        var kind := match target
          case Succeeded => JobSucceeded
          case Cancelled => JobCancelled
          case _ => if code == Some(JobTimeout) then JobTimedOut else JobFailed;
        Ok(released.(status := target, completedAt := Some(at),
                     progress := if target.Succeeded? then 100 else job.progress).Log(kind, at))
  }

  /** The job half of `retry_failed`. */
  function Requeued(job: Job, at: int): Job
  {
    job.(status := Queued, progress := 0, attemptCount := 0, manualRetryCount := job.manualRetryCount + 1,
         scheduledAt := at, startedAt := None, completedAt := None, deadlineAt := None,
         cancellationRequestedAt := None, retryAt := None, claimedBy := None, heartbeatAt := None,
         failureCode := None).Log(JobManualRetryRequested, at)
  }

  /** The run half of `retry_failed`. */
  function Reopened(run: Run): Run
  {
    run.(status := Pending, startedAt := None, finishedAt := None, error := None)
  }

  function ResultCount(run: Run): nat
  {
    RowCount(run.batches)
  }

  function RowCount(batches: seq<seq<nat>>): nat
  {
    if batches == [] then 0 else |batches[0]| + RowCount(batches[1..])
  }

  // Transactions on the database.

  function CreateJob(
      db: Database, id: nat, organization: nat, runId: nat, priority: Priority, maxAttempts: nat,
      timeoutSeconds: nat, scheduledAt: int, now: int): Answer<Database>
  {
    if maxAttempts < 1 || timeoutSeconds < 30 then Err(BadValue)
    else if runId !in db.runs || db.runs[runId].organization != organization then Err(NotFound)
    else if exists other :: other in db.jobs && db.jobs[other].runId == runId then Err(Conflict)
    else Ok(db.(jobs := db.jobs[id := NewJob(organization, runId, priority, maxAttempts, timeoutSeconds, scheduledAt, now)]))
  }

  /** The record with this id, if it belongs to this organization. */
  predicate Visible(db: Database, id: nat, organization: nat)
  {
    id in db.jobs && db.jobs[id].organization == organization
  }

  /** Put back a job answered by one of the functions above. */
  function Store(db: Database, id: nat, answer: Answer<Job>): Answer<Database>
  {
    if answer.Ok? then Ok(db.(jobs := db.jobs[id := answer.value])) else Err(answer.error)
  }

  function CompleteJob(
      db: Database, id: nat, organization: nat, target: Status, at: int, retryAt: Option<int>,
      code: Option<FailureCode>): Answer<Database>
  {
    if !Visible(db, id, organization) then Err(NotFound)
    else Store(db, id, Completed(db.jobs[id], target, at, retryAt, code))
  }

  function CancelJob(db: Database, id: nat, organization: nat, at: int): Answer<Database>
  {
    if !Visible(db, id, organization) then Err(NotFound)
    else Store(db, id, RequestCancellation(db.jobs[id], at))
  }

  /** `retry_failed` without its look at persisted results. */
  function RetryUnguarded(db: Database, id: nat, organization: nat, maxManualRetries: nat, at: int): Answer<Database>
  {
    if maxManualRetries < 1 then Err(BadValue)
    else if !Visible(db, id, organization) then Err(NotFound)
    else
      var job := db.jobs[id];
      if !job.status.Failed? || job.manualRetryCount >= maxManualRetries then Err(InvalidTransition)
      else if job.runId !in db.runs || db.runs[job.runId].organization != organization
        || !db.runs[job.runId].status.FailedRun? then Err(InvalidTransition)
      else Ok(Database(db.jobs[id := Requeued(job, at)], db.runs[job.runId := Reopened(db.runs[job.runId])]))
  }

  function RetryFailed(db: Database, id: nat, organization: nat, maxManualRetries: nat, at: int): Answer<Database>
  {
    if maxManualRetries >= 1 && Visible(db, id, organization) && db.jobs[id].runId in db.runs
      && ResultCount(db.runs[db.jobs[id].runId]) > 0
    then Err(InvalidTransition)
    else RetryUnguarded(db, id, organization, maxManualRetries, at)
  }

  function RecoverStale(db: Database, cutoff: int, at: int): Database
  {
    db.(jobs := map id | id in db.jobs :: if Stale(db.jobs[id], cutoff) then Recovered(db.jobs[id], at) else db.jobs[id])
  }

  // The claim queue.

  predicate Claimable(job: Job, at: int, organization: Option<nat>)
  {
    && job.status.Queued?
    && job.scheduledAt <= at
    && (job.retryAt.Some? ==> job.retryAt.value <= at)
    && job.attemptCount < job.maxAttempts
    && (organization.Some? ==> job.organization == organization.value)
  }

  function EffectivePriority(job: Job, at: int, aging: int): nat
  {
    match job.priority
    case High => 2
    case Normal => if job.EligibleSince() <= at - aging then 2 else 1
    case Low =>
      if job.EligibleSince() <= at - 2 * aging then 2
      else if job.EligibleSince() <= at - aging then 1
      else 0
  }

  /** First by (eligible_since, created_at, id). */
  predicate KeyBefore(a: nat, x: Job, b: nat, y: Job)
  {
    || x.EligibleSince() < y.EligibleSince()
    || (x.EligibleSince() == y.EligibleSince()
        && (x.createdAt < y.createdAt || (x.createdAt == y.createdAt && a < b)))
  }

  /** The ORDER BY of `claim_next`. */
  predicate ClaimedBefore(a: nat, x: Job, b: nat, y: Job, at: int, aging: int)
  {
    var p, q := EffectivePriority(x, at, aging), EffectivePriority(y, at, aging);
    p > q || (p == q && KeyBefore(a, x, b, y))
  }

  function ClaimableIds(jobs: map<nat, Job>, at: int, organization: Option<nat>): set<nat>
  {
    set id | id in jobs && Claimable(jobs[id], at, organization)
  }

  /** id is what ORDER BY ... LIMIT 1 selects from ids. */
  predicate FirstOf(jobs: map<nat, Job>, ids: set<nat>, id: nat, at: int, aging: int)
    requires ids <= jobs.Keys
  {
    id in ids && forall other :: other in ids && other != id ==> ClaimedBefore(id, jobs[id], other, jobs[other], at, aging)
  }

  lemma {:induction false} FirstExists(jobs: map<nat, Job>, ids: set<nat>, at: int, aging: int)
    requires ids <= jobs.Keys && ids != {}
    ensures exists id :: FirstOf(jobs, ids, id, at, aging)
    decreases ids
  {
    var some :| some in ids;
    if ids == {some} {
      assert FirstOf(jobs, ids, some, at, aging);
    } else {
      FirstExists(jobs, ids - {some}, at, aging);
      var rest :| FirstOf(jobs, ids - {some}, rest, at, aging);
      var id := if ClaimedBefore(some, jobs[some], rest, jobs[rest], at, aging) then some else rest;
      forall other | other in ids && other != id
        ensures ClaimedBefore(id, jobs[id], other, jobs[other], at, aging)
      {
        assert other == some || other in ids - {some};
      }
      assert FirstOf(jobs, ids, id, at, aging);
    }
  }

  /** The ORDER BY leaves no ties, so LIMIT 1 has one answer. */
  lemma FirstIsUnique(jobs: map<nat, Job>, ids: set<nat>, a: nat, b: nat, at: int, aging: int)
    requires ids <= jobs.Keys && FirstOf(jobs, ids, a, at, aging) && FirstOf(jobs, ids, b, at, aging)
    ensures a == b
  {
  }

  /** The job `claim_next` takes, if any. */
  ghost function NextJob(jobs: map<nat, Job>, at: int, organization: Option<nat>, aging: int): (next: Option<nat>)
    ensures next.None? <==> ClaimableIds(jobs, at, organization) == {}
    ensures next.Some? ==> FirstOf(jobs, ClaimableIds(jobs, at, organization), next.value, at, aging)
  {
    var ids := ClaimableIds(jobs, at, organization);
    if ids == {} then None
    else
      FirstExists(jobs, ids, at, aging);
      var id :| FirstOf(jobs, ids, id, at, aging);
      Some(id)
  }

  ghost function ClaimNext(db: Database, worker: nat, at: int, organization: Option<nat>, aging: int): Database
  {
    var next := NextJob(db.jobs, at, organization, aging);
    if next.None? then db else db.(jobs := db.jobs[next.value := Claimed(db.jobs[next.value], worker, at)])
  }
}
