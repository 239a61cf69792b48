/** The steps of the protocol on the records: what each transaction of a worker does to the job, to the run
    and to the worker's own course, told by statuses, stamps and attempts. */
module Steps {
  import opened Ordering
  import opened Jobs
  import opened Protocol
  import opened ClaimOrder
  import opened JobStore

  /** The processor was stopped by an error or by the deadline: the run is given up with the last attempt. */
  function GivesUp(s: Snapshot, trail: seq<AuditKind>, ending: Ending): Pc
  {
    if s.attemptCount < s.maxAttempts then Finishing(s, ending)
    else MarkingRun(s, trail, if ending == SawDeadline then ExecutionTimeout else ExecutionFailed, ending)
  }

  /** The run exists within the organization of the job. */
  predicate RunIsThere(w: World, s: Snapshot)
  {
    s.runId in w.db.runs && w.db.runs[s.runId].organization == s.organization
  }

  /** Only process p moves, to pc. */
  ghost predicate Goes(w: World, v: World, p: nat, pc: Pc)
    requires p in w.processes
  {
    && v.processes == w.processes[p := w.processes[p].(pc := pc)]
    && v.clock == w.clock && v.usedIds == w.usedIds
  }

  /** An exception outside the transactions: before the processor's stages the job just failed, during them the
      processor was stopped, and while it was marking the run it goes on to end the job. */
  lemma BreakOnRecords(st: Settings, w: World, p: nat)
    requires p in w.processes
    ensures var pc, early, during, marking :=
        w.processes[p].pc, Perform(st, w, BreakEarly(p)), Perform(st, w, Break(p)), Perform(st, w, BreakMarking(p));
      && early.db == during.db == marking.db == w.db
      && (pc.Beginning? ==> Goes(w, early, p, Finishing(pc.job, Raised)))
      && (pc.Processing? ==> Goes(w, during, p, GivesUp(pc.job, pc.trail, Raised)))
      && (pc.MarkingRun? ==> Goes(w, marking, p, Finishing(pc.job, Raised)))
  {
  }

  lemma BeginOnRecords(w: World, p: nat)
    requires p in w.processes && w.processes[p].pc.Beginning?
    ensures var v, s := PerformBegin(w, p), w.processes[p].pc.job;
      var status := if RunIsThere(w, s) then w.db.runs[s.runId].status else FailedRun;
      && Goes(w, v, p, if status == FailedRun then Finishing(s, Raised)
                       else if status == SucceededRun then Finishing(s, Returned)
                       else Processing(s, 0, []))
      && v.db.jobs == w.db.jobs
      && v.db.runs == if status != Pending then w.db.runs
           else w.db.runs[s.runId := w.db.runs[s.runId].(status := RunningRun, startedAt := Some(w.clock))]
  {
  }

  const PERCENTAGES: seq<nat> := [10, 35, 60, 75, 95, 99]

  /** The job is in the hands of this worker. */
  predicate Holds(w: World, worker: nat, s: Snapshot)
  {
    && s.jobId in w.db.jobs && w.db.jobs[s.jobId].organization == s.organization
    && (w.db.jobs[s.jobId].status == Running || w.db.jobs[s.jobId].status == CancelRequested)
    && w.db.jobs[s.jobId].claimedBy == Some(worker)
  }

  /** A checkpoint renews the lease and reports progress, and lets the processor go on unless the job was
      taken away, is to be cancelled, or has reached its deadline. */
  lemma CheckpointOnRecords(w: World, p: nat)
    requires p in w.processes && w.processes[p].pc.Processing?
    requires w.processes[p].pc.stage < 6 && |w.processes[p].pc.trail| == w.processes[p].pc.stage + 1
    ensures var v, s := PerformCheckpoint(w, p), w.processes[p].pc.job;
      var stage, trail := w.processes[p].pc.stage, w.processes[p].pc.trail;
      if !Holds(w, w.processes[p].worker, s) then v.db == w.db && Goes(w, v, p, GivesUp(s, trail, Raised))
      else
        var job := w.db.jobs[s.jobId];
        && v.db.runs == w.db.runs
        && v.db.jobs == w.db.jobs[s.jobId := job.(heartbeatAt := Some(w.clock), progress := PERCENTAGES[stage])
                                                .Log(JobProgressUpdated, w.clock)]
        && Goes(w, v, p, if job.status == CancelRequested then MarkingRun(s, trail, ExecutionCancelled, SawCancellation)
                         else if job.deadlineAt.Some? && job.deadlineAt.value <= w.clock then GivesUp(s, trail, SawDeadline)
                         else Processing(s, stage + 1, trail))
  {
    hide LastSequence;
  }

  /** The results are written exactly while the run is RUNNING: batch, trail and success in one. */
  lemma WriteOnRecords(w: World, p: nat, batch: seq<nat>, raises: bool)
    requires p in w.processes && w.processes[p].pc.Processing? && w.processes[p].pc.stage == 6
    ensures var v, s, trail := PerformWrite(w, p, batch, raises), w.processes[p].pc.job, w.processes[p].pc.trail;
      && v.db.jobs == w.db.jobs
      && if RunIsThere(w, s) && w.db.runs[s.runId].status == RunningRun then
           var run := w.db.runs[s.runId];
           && v.db.runs == w.db.runs[s.runId := run.(
                status := SucceededRun, finishedAt := Some(w.clock), error := None,
                batches := run.batches + [batch], audit := run.audit + trail)]
           && Goes(w, v, p, if raises then GivesUp(s, trail, Raised) else Finishing(s, Returned))
         else
           && v.db.runs == w.db.runs
           && Goes(w, v, p, if RunIsThere(w, s) && w.db.runs[s.runId].status == SucceededRun then Finishing(s, Returned)
                            else GivesUp(s, trail, Raised))
  {
  }

  /** A run is marked failed exactly while it is RUNNING. */
  lemma MarkOnRecords(w: World, p: nat)
    requires p in w.processes && w.processes[p].pc.MarkingRun?
    ensures var v, pc := PerformMark(w, p), w.processes[p].pc;
      && v.db.jobs == w.db.jobs
      && Goes(w, v, p, Finishing(pc.job, if RunIsThere(w, pc.job) then pc.ending else Raised))
      && v.db.runs ==
           if !RunIsThere(w, pc.job) || w.db.runs[pc.job.runId].status != RunningRun then w.db.runs
           else
             var run := w.db.runs[pc.job.runId];
             w.db.runs[pc.job.runId := run.(
               status := FailedRun, finishedAt := Some(w.clock), error := Some(pc.error),
               audit := run.audit + if pc.trail == [] then [] else WithoutSuccess(pc.trail) + [RunFailed])]
  {
    if w.processes[p].pc.trail != [] {
      assert (w.processes[p].pc.trail + [RunFailed])[..|w.processes[p].pc.trail|] == w.processes[p].pc.trail;
    }
  }

  /** How a job ends for the way its processor came back, whoever holds it now: a requested cancellation is
      honoured unless the processor failed, a failure is retried after the delay while attempts are left. */
  ghost predicate FinishedAs(st: Settings, s: Snapshot, ending: Ending, was: Job, now: Job, at: int)
  {
    var again := s.attemptCount < s.maxAttempts;
    var retryAt := if again then Some(at + st.retryDelay) else None;
    match (was.status, ending)
    case (Running, Returned) => Ended(was, now, Succeeded, at, None, None)
    case (Running, SawCancellation) => now == was
    case (Running, SawDeadline) =>
      if again && was.attemptCount >= was.maxAttempts then now == was
      else Ended(was, now, Failed, at, retryAt, Some(JobTimeout))
    case (CancelRequested, Returned) => Ended(was, now, Cancelled, at, None, None)
    case (CancelRequested, SawCancellation) => Ended(was, now, Cancelled, at, None, None)
    case (CancelRequested, SawDeadline) => Ended(was, now, Cancelled, at, None, None)
    case (_, Raised) =>
      if !was.Active() || (again && was.attemptCount >= was.maxAttempts) then now == was
      else Ended(was, now, Failed, at, retryAt, Some(WorkerProcessingFailed))
    case _ => now == was
  }

  lemma FinishOnRecords(st: Settings, w: World, p: nat)
    requires p in w.processes && w.processes[p].pc.Finishing?
    ensures var v, s, ending := PerformFinish(st, w, p), w.processes[p].pc.job, w.processes[p].pc.ending;
      && Goes(w, v, p, Idle) && v.db.runs == w.db.runs && v.db.jobs.Keys == w.db.jobs.Keys
      && forall id :: id in w.db.jobs ==>
           if id == s.jobId && w.db.jobs[id].organization == s.organization
           then FinishedAs(st, s, ending, w.db.jobs[id], v.db.jobs[id], w.clock)
           else v.db.jobs[id] == w.db.jobs[id]
  {
    hide LastSequence;
  }

  /** A poll settles the stale jobs of all workers first, then hands this worker the job that comes first. */
  lemma PollOnRecords(st: Settings, w: World, p: nat) returns (jobs: map<nat, Job>)
    requires st.aging >= 30 && p in w.processes && w.processes[p].pc == Idle
    ensures jobs.Keys == w.db.jobs.Keys
    ensures forall id :: id in jobs ==> Resolved(w.db.jobs[id], jobs[id], w.clock - st.staleTimeout, w.clock)
    ensures var v, served := PerformPoll(st, w, p), w.processes[p].organization;
      && v.db.runs == w.db.runs
      && if forall id :: id in jobs ==> !MayBeClaimed(jobs[id], w.clock, served) then
           v.db.jobs == jobs && Goes(w, v, p, Idle)
         else
           var pc := v.processes[p].pc;
           && pc.Beginning? && Goes(w, v, p, pc) && pc.job.jobId in jobs
           && ComesFirst(jobs, pc.job.jobId, w.clock, served, st.aging)
           && var job := jobs[pc.job.jobId];
              && pc.job == Snapshot(pc.job.jobId, job.organization, job.runId, job.attemptCount + 1, job.maxAttempts)
              && v.db.jobs == jobs[pc.job.jobId := Claimed(job, w.processes[p].worker, w.clock)]
  {
    jobs := PerformRecover(st, w).db.jobs;
    forall id | id in jobs ensures Resolved(w.db.jobs[id], jobs[id], w.clock - st.staleTimeout, w.clock) {
      RecoveryResolves(w.db.jobs[id], w.clock - st.staleTimeout, w.clock);
    }
    NextComesFirst(jobs, w.clock, w.processes[p].organization, st.aging);
    hide Recovered, Resolved, Stale, MayBeClaimed, ComesFirst, LastSequence;
  }

  /** A job is created exactly for a PENDING run without a job, with a schedule that is not in the past. */
  lemma ExecuteOnRecords(
      w: World, id: nat, organization: nat, runId: nat, priority: Priority, maxAttempts: nat, timeoutSeconds: nat,
      scheduledAt: int)
    requires id !in w.usedIds && id !in w.db.jobs
    ensures var v := PerformExecute(w, id, organization, runId, priority, maxAttempts, timeoutSeconds, scheduledAt);
      && v.db.runs == w.db.runs
      && (id in v.db.jobs <==>
            && w.clock <= scheduledAt && maxAttempts >= 1 && timeoutSeconds >= 30
            && runId in w.db.runs && w.db.runs[runId].organization == organization && w.db.runs[runId].status == Pending
            && forall other :: other in w.db.jobs ==> w.db.jobs[other].runId != runId)
      && (id !in v.db.jobs ==> v == w)
      && forall other :: other in w.db.jobs ==> other in v.db.jobs && v.db.jobs[other] == w.db.jobs[other]
  {
  }

  /** Retention takes only jobs that are over, and leaves every other job and every run as they are. */
  lemma PurgeOnRecords(w: World, ids: set<nat>)
    ensures var v := PerformPurge(w, ids);
      && v == w.(db := w.db.(jobs := v.db.jobs))
      && (forall id :: id in v.db.jobs ==> id in w.db.jobs && v.db.jobs[id] == w.db.jobs[id])
      && forall id :: id in w.db.jobs && id !in v.db.jobs <==>
           id in w.db.jobs && id in ids && w.db.jobs[id].status in {Succeeded, Failed, Cancelled}
  {
  }
}
