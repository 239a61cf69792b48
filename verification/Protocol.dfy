/** The background-job protocol: any number of worker processes, each somewhere between claiming a
    job and finishing it, and the API, every database transaction one atomic step. A process may
    stall for any time, crash, or go on after its lease was taken over. A disabled action is a
    stutter, so every sequence of actions is a run. */
module Protocol {
  import opened Ordering
  import opened Jobs

  datatype Settings = Settings(maxManualRetries: nat, staleTimeout: nat, retryDelay: nat, aging: nat)

  /** `WorkerJob`: what a process remembers of the job it claimed. */
  datatype Snapshot = Snapshot(jobId: nat, organization: nat, runId: nat, attemptCount: nat, maxAttempts: nat)

  /** How the processor came back to `run_once`. */
  datatype Ending = Returned | SawCancellation | SawDeadline | Raised

  /** Where a process is. `stage` counts the checkpoints passed, `trail` the audit events collected. */
  datatype Pc =
    | Idle
    | Beginning(job: Snapshot)
    | Processing(job: Snapshot, stage: nat, trail: seq<AuditKind>)
    | MarkingRun(job: Snapshot, trail: seq<AuditKind>, error: RunError, ending: Ending)
    | Finishing(job: Snapshot, ending: Ending)

  datatype Process = Process(worker: nat, organization: Option<nat>, pc: Pc)

  /** `usedIds` are the job ids ever given out; ids are fresh. */
  datatype World = World(db: Database, processes: map<nat, Process>, clock: int, usedIds: set<nat>)

  datatype Action =
    | Tick(elapsed: nat)
    | SubmitRun(runId: nat, organization: nat)
    | Execute(id: nat, organization: nat, runId: nat, priority: Priority, maxAttempts: nat, timeoutSeconds: nat,
              scheduledAt: int)
    | Cancel(id: nat, organization: nat)
    | Retry(id: nat, organization: nat)
    | Purge(ids: set<nat>)
    | Launch(p: nat, worker: nat, servedOrganization: Option<nat>)
    | Poll(p: nat)
    | Begin(p: nat)
    | BreakEarly(p: nat)
    | Work(p: nat, kind: AuditKind)
    | Checkpoint(p: nat)
    | Break(p: nat)
    | WriteResults(p: nat, batch: seq<nat>, raises: bool)
    | MarkRunFailed(p: nat)
    | BreakMarking(p: nat)
    | Finish(p: nat)

  /** The audit events a stage may add before its checkpoint. */
  predicate StageEmits(stage: nat, kind: AuditKind)
  {
    match stage
    case 0 => kind.RunStarted?
    case 1 => kind.BankIngested?
    case 2 => kind.ErpIngested?
    case 3 => kind.GatewayIngested? || kind.GatewaySkipped?
    case 4 => kind.ReconciliationCompleted?
    case 5 => kind.RunSucceeded?
    case _ => false
  }

  /** There are six checkpoints, the last one right before the results are written. */
  const CHECKPOINTS: nat := 6

  function ProgressAt(stage: nat): nat
  {
    match stage
    case 0 => 10
    case 1 => 35
    case 2 => 60
    case 3 => 75
    case 4 => 95
    case _ => 99
  }

  /** The `except` clauses of the processor. */
  function AfterRaise(s: Snapshot, trail: seq<AuditKind>, ending: Ending): Pc
  {
    if ending.SawCancellation? then MarkingRun(s, trail, ExecutionCancelled, ending)
    else if s.attemptCount >= s.maxAttempts then
      MarkingRun(s, trail, if ending.SawDeadline? then ExecutionTimeout else ExecutionFailed, ending)
    else Finishing(s, ending)
  }

  function At(w: World, p: nat): Pc
  {
    if p in w.processes then w.processes[p].pc else Idle
  }

  function Move(w: World, p: nat, pc: Pc): World
  {
    if p in w.processes then w.(processes := w.processes[p := w.processes[p].(pc := pc)]) else w
  }

  function Commit(w: World, answer: Answer<Database>): World
  {
    if answer.Ok? then w.(db := answer.value) else w
  }

  // The API.

  function PerformSubmit(w: World, runId: nat, organization: nat): World
  {
    if runId in w.db.runs then w
    else w.(db := w.db.(runs := w.db.runs[runId := Run(organization, Pending, None, None, None, [], [])]))
  }

  /** `execute_run`: a pending run, a schedule that is not in the past. */
  function PerformExecute(
      w: World, id: nat, organization: nat, runId: nat, priority: Priority, maxAttempts: nat, timeoutSeconds: nat,
      scheduledAt: int): World
  {
    if id in w.usedIds || scheduledAt < w.clock || runId !in w.db.runs || !w.db.runs[runId].status.Pending? then w
    else
      var answer := CreateJob(
        w.db, id, organization, runId, priority, maxAttempts, timeoutSeconds, scheduledAt, w.clock);
      if answer.Ok? then w.(db := answer.value, usedIds := w.usedIds + {id}) else w
  }

  /** Retention removes terminal jobs with their events. */
  function PerformPurge(w: World, ids: set<nat>): World
  {
    w.(db := w.db.(jobs := map id | id in w.db.jobs && !(id in ids && w.db.jobs[id].Terminal()) :: w.db.jobs[id]))
  }

  // The worker.

  function PerformRecover(st: Settings, w: World): World
  {
    w.(db := RecoverStale(w.db, w.clock - st.staleTimeout, w.clock))
  }

  function SnapshotOf(id: nat, job: Job): Snapshot
  {
    Snapshot(id, job.organization, job.runId, job.attemptCount, job.maxAttempts)
  }

  ghost function PerformClaim(st: Settings, w: World, p: nat): World
    requires p in w.processes
  {
    var process := w.processes[p];
    var next := NextJob(w.db.jobs, w.clock, process.organization, st.aging);
    if next.None? then w
    else
      var job := Claimed(w.db.jobs[next.value], process.worker, w.clock);
      Move(w.(db := w.db.(jobs := w.db.jobs[next.value := job])), p, Beginning(SnapshotOf(next.value, job)))
  }

  /** The transaction at the head of `run_once`: recover stale leases, then claim. */
  ghost function PerformPoll(st: Settings, w: World, p: nat): World
  {
    if p !in w.processes || !w.processes[p].pc.Idle? then w else PerformClaim(st, PerformRecover(st, w), p)
  }

  /** `runs.get` finds the run within the job's organization. */
  predicate Reaches(w: World, s: Snapshot)
  {
    s.runId in w.db.runs && w.db.runs[s.runId].organization == s.organization
  }

  /** The first transaction of the processor. */
  function PerformBegin(w: World, p: nat): World
  {
    if !At(w, p).Beginning? then w
    else
      var s := At(w, p).job;
      if !Reaches(w, s) then Move(w, p, Finishing(s, Raised))
      else
        var run := w.db.runs[s.runId];
        match run.status
        case SucceededRun => Move(w, p, Finishing(s, Returned))
        case FailedRun => Move(w, p, Finishing(s, Raised))
        case RunningRun => Move(w, p, Processing(s, 0, []))
        case Pending =>
          var started := TransitionRun(run, RunningRun, w.clock, None).value;
          Move(w.(db := w.db.(runs := w.db.runs[s.runId := started])), p, Processing(s, 0, []))
  }

  /** Any exception before the processor's `try`. */
  function PerformBreakEarly(w: World, p: nat): World
  {
    var pc := At(w, p);
    if pc.Beginning? || (pc.Processing? && pc.stage == 0 && pc.trail == []) then Move(w, p, Finishing(pc.job, Raised))
    else w
  }

  function PerformWork(w: World, p: nat, kind: AuditKind): World
  {
    var pc := At(w, p);
    if pc.Processing? && |pc.trail| == pc.stage && StageEmits(pc.stage, kind)
    then Move(w, p, Processing(pc.job, pc.stage, pc.trail + [kind]))
    else w
  }

  /** `WorkerContext.checkpoint`: renew the lease, report progress, notice cancellation and deadline. */
  function PerformCheckpoint(w: World, p: nat): World
  {
    var pc := At(w, p);
    if !pc.Processing? || pc.stage >= CHECKPOINTS || |pc.trail| != pc.stage + 1 then w
    else
      var s := pc.job;
      var renewed :=
        if !Visible(w.db, s.jobId, s.organization) then Err(NotFound)
        else Heartbeat(w.db.jobs[s.jobId], w.processes[p].worker, w.clock);
      if renewed.Err? then Move(w, p, AfterRaise(s, pc.trail, Raised))
      else
        var reported := UpdateProgress(renewed.value, ProgressAt(pc.stage), w.clock);
        if reported.Err? then Move(w, p, AfterRaise(s, pc.trail, Raised))
        else
          var job := reported.value;
          var next :=
            if job.status.CancelRequested? then AfterRaise(s, pc.trail, SawCancellation)
            else if job.deadlineAt.Some? && w.clock >= job.deadlineAt.value then AfterRaise(s, pc.trail, SawDeadline)
            else Processing(s, pc.stage + 1, pc.trail);
          Move(w.(db := w.db.(jobs := w.db.jobs[s.jobId := job])), p, next)
  }

  /** Any other exception inside the `try`. */
  function PerformBreak(w: World, p: nat): World
  {
    var pc := At(w, p);
    if pc.Processing? then Move(w, p, AfterRaise(pc.job, pc.trail, Raised)) else w
  }

  /** The transaction that writes the results; `raises` when the commit went through but its caller
      saw an error. */
  function PerformWrite(w: World, p: nat, batch: seq<nat>, raises: bool): World
  {
    var pc := At(w, p);
    if !pc.Processing? || pc.stage != CHECKPOINTS then w
    else
      var s := pc.job;
      if !Reaches(w, s) then Move(w, p, AfterRaise(s, pc.trail, Raised))
      else
        var run := w.db.runs[s.runId];
        if run.status.SucceededRun? then Move(w, p, Finishing(s, Returned))
        else if !run.status.RunningRun? then Move(w, p, AfterRaise(s, pc.trail, Raised))
        else
          var written := TransitionRun(
            run.(batches := run.batches + [batch], audit := run.audit + pc.trail), SucceededRun, w.clock, None).value;
          Move(w.(db := w.db.(runs := w.db.runs[s.runId := written])), p,
               if raises then AfterRaise(s, pc.trail, Raised) else Finishing(s, Returned))
  }

  function WithoutSuccess(trail: seq<AuditKind>): seq<AuditKind>
  {
    if trail == [] then []
    else
      var before, last := WithoutSuccess(trail[..|trail| - 1]), trail[|trail| - 1];
      if last.RunSucceeded? then before else before + [last]
  }

  /** `_fail_run`. */
  function PerformMark(w: World, p: nat): World
  {
    var pc := At(w, p);
    if !pc.MarkingRun? then w
    else
      var s := pc.job;
      if !Reaches(w, s) then Move(w, p, Finishing(s, Raised))
      else
        var run := w.db.runs[s.runId];
        if !run.status.RunningRun? then Move(w, p, Finishing(s, pc.ending))
        else
          var events := if pc.trail == [] then [] else WithoutSuccess(pc.trail + [RunFailed]);
          var failed := TransitionRun(run.(audit := run.audit + events), FailedRun, w.clock, Some(pc.error)).value;
          Move(w.(db := w.db.(runs := w.db.runs[s.runId := failed])), p, Finishing(s, pc.ending))
  }

  /** The status `_finish_successfully`, `_finish_cancelled`, `_finish_failed` and `_finish_timed_out`
      ask for; `asked` tells whether a cancellation is pending. */
  function FinishingStatus(ending: Ending, asked: bool): Status
  {
    match ending
    case Returned => if asked then Cancelled else Succeeded
    case SawCancellation => Cancelled
    case Raised => Failed
    case SawDeadline => if asked then Cancelled else Failed
  }

  function RetryTime(st: Settings, w: World, s: Snapshot, target: Status): Option<int>
  {
    if target.Failed? && s.attemptCount < s.maxAttempts then Some(w.clock + st.retryDelay) else None
  }

  function CodeFor(ending: Ending, target: Status): Option<FailureCode>
  {
    if !target.Failed? then None else if ending.SawDeadline? then Some(JobTimeout) else Some(WorkerProcessingFailed)
  }

  function FinishingAnswer(st: Settings, w: World, s: Snapshot, ending: Ending): Answer<Database>
  {
    var asked := Visible(w.db, s.jobId, s.organization) && w.db.jobs[s.jobId].status.CancelRequested?;
    var target := FinishingStatus(ending, asked);
    CompleteJob(w.db, s.jobId, s.organization, target, w.clock, RetryTime(st, w, s, target), CodeFor(ending, target))
  }

  function PerformFinish(st: Settings, w: World, p: nat): World
  {
    var pc := At(w, p);
    if !pc.Finishing? then w else Move(Commit(w, FinishingAnswer(st, w, pc.job, pc.ending)), p, Idle)
  }

  ghost function Perform(st: Settings, w: World, a: Action): World
  {
    match a
    case Tick(elapsed) => w.(clock := w.clock + elapsed)
    case SubmitRun(runId, organization) => PerformSubmit(w, runId, organization)
    case Execute(id, organization, runId, priority, maxAttempts, timeoutSeconds, scheduledAt) =>
      PerformExecute(w, id, organization, runId, priority, maxAttempts, timeoutSeconds, scheduledAt)
    case Cancel(id, organization) => Commit(w, CancelJob(w.db, id, organization, w.clock))
    case Retry(id, organization) => Commit(w, RetryFailed(w.db, id, organization, st.maxManualRetries, w.clock))
    case Purge(ids) => PerformPurge(w, ids)
    case Launch(p, worker, served) => w.(processes := w.processes[p := Process(worker, served, Idle)])
    case Poll(p) => PerformPoll(st, w, p)
    case Begin(p) => PerformBegin(w, p)
    case BreakEarly(p) => PerformBreakEarly(w, p)
    case Work(p, kind) => PerformWork(w, p, kind)
    case Checkpoint(p) => PerformCheckpoint(w, p)
    case Break(p) => PerformBreak(w, p)
    case WriteResults(p, batch, raises) => PerformWrite(w, p, batch, raises)
    case MarkRunFailed(p) => PerformMark(w, p)
    case BreakMarking(p) => if At(w, p).MarkingRun? then Move(w, p, Finishing(At(w, p).job, Raised)) else w
    case Finish(p) => PerformFinish(st, w, p)
  }

  ghost function After(st: Settings, w: World, actions: seq<Action>): World
  {
    if actions == [] then w else Perform(st, After(st, w, actions[..|actions| - 1]), actions[|actions| - 1])
  }

  function Initial(clock: int): World
  {
    World(Database(map[], map[]), map[], clock, {})
  }
}
