/** Execution is at least once, the effect exactly once: under every interleaving of workers, late
    workers, crashes, recoveries, cancellations, deadlines and manual retries. */
module ExactlyOnce {
  import opened Ordering
  import opened Jobs
  import opened JobHistory
  import opened Protocol

  function Successes(audit: seq<AuditKind>): nat
  {
    if audit == [] then 0
    else Successes(audit[..|audit| - 1]) + if audit[|audit| - 1].RunSucceeded? then 1 else 0
  }

  /** A run has its one result batch and its one RUN_SUCCEEDED event exactly when it has succeeded, and its
      stamps exactly when it was started and is over. */
  ghost predicate RunOk(run: Run)
  {
    && (run.startedAt.None? <==> run.status.Pending?)
    && (run.finishedAt.Some? <==> run.status.SucceededRun? || run.status.FailedRun?)
    && if run.status.SucceededRun? then |run.batches| == 1 && Successes(run.audit) == 1
       else run.batches == [] && Successes(run.audit) == 0
  }

  /** A remembered job is, while it exists, still the job of that run. */
  ghost predicate SnapshotFits(w: World, s: Snapshot)
  {
    && s.runId in w.db.runs && s.jobId in w.usedIds
    && (s.jobId in w.db.jobs ==> w.db.jobs[s.jobId].runId == s.runId)
  }

  ghost predicate PcFits(w: World, pc: Pc)
  {
    match pc
    case Idle => true
    case Beginning(s) => SnapshotFits(w, s)
    case Processing(s, stage, trail) =>
      && SnapshotFits(w, s) && stage <= CHECKPOINTS && stage <= |trail| <= stage + 1 && |trail| <= CHECKPOINTS
      && Successes(trail) == if |trail| == CHECKPOINTS then 1 else 0
    case MarkingRun(s, _, _, ending) => SnapshotFits(w, s) && !ending.Returned?
    case Finishing(s, ending) =>
      SnapshotFits(w, s) && (ending.Returned? ==> w.db.runs[s.runId].status.SucceededRun?)
  }

  /** What the clock and the schedule of a job have to do with each other. */
  ghost predicate Timely(job: Job, clock: int)
  {
    && (job.Active() ==> job.scheduledAt <= clock)
    && (job.retryAt.Some? ==> job.scheduledAt <= job.retryAt.value)
    && job.createdAt <= clock
  }

  ghost predicate JobFits(st: Settings, w: World, id: nat)
    requires id in w.db.jobs
  {
    var job := w.db.jobs[id];
    && JobOk(job) && id in w.usedIds && job.runId in w.db.runs
    && w.db.runs[job.runId].organization == job.organization
    && job.manualRetryCount <= st.maxManualRetries
    && Timely(job, w.clock)
    && (job.status.Succeeded? ==> w.db.runs[job.runId].status.SucceededRun?)
  }

  ghost predicate Inv(st: Settings, w: World)
  {
    && (forall runId :: runId in w.db.runs ==> RunOk(w.db.runs[runId]))
    && (forall id :: id in w.db.jobs ==> JobFits(st, w, id))
    && (forall p :: p in w.processes ==> PcFits(w, w.processes[p].pc))
  }

  /** What the world never takes back: runs stay with their organization, a succeeded run is frozen with its
      results and audit trail, ids are not reused and keep their run, the clock does not run backwards. */
  ghost predicate Evolves(w: World, v: World)
  {
    && w.clock <= v.clock && w.usedIds <= v.usedIds
    && (forall runId :: runId in w.db.runs ==>
          && runId in v.db.runs && v.db.runs[runId].organization == w.db.runs[runId].organization
          && (w.db.runs[runId].status.SucceededRun? ==> v.db.runs[runId] == w.db.runs[runId]))
    && (forall id :: id in v.db.jobs && id in w.usedIds ==>
          id in w.db.jobs && v.db.jobs[id].runId == w.db.jobs[id].runId)
  }

  lemma EvolvesTransitively(u: World, v: World, w: World)
    requires Evolves(u, v) && Evolves(v, w)
    ensures Evolves(u, w)
  {
  }

  /** Bystanders: a process that did not move still fits an evolved world, */
  lemma PcStillFits(w: World, v: World, pc: Pc)
    requires Evolves(w, v) && PcFits(w, pc)
    ensures PcFits(v, pc)
  {
  }

  /** and so does a job that did not change. */
  lemma JobStillFits(st: Settings, w: World, v: World, id: nat)
    requires Evolves(w, v) && id in w.db.jobs && id in v.db.jobs && v.db.jobs[id] == w.db.jobs[id]
    requires JobFits(st, w, id)
    ensures JobFits(st, v, id)
  {
  }

  /** What changed fits, and the rest are bystanders. */
  lemma InvAfterMove(st: Settings, w: World, v: World)
    requires Inv(st, w) && Evolves(w, v)
    requires forall runId :: runId in v.db.runs ==> RunOk(v.db.runs[runId])
    requires forall id :: id in v.db.jobs ==>
      JobFits(st, v, id) || (id in w.db.jobs && v.db.jobs[id] == w.db.jobs[id])
    requires forall q :: q in v.processes ==>
      PcFits(v, v.processes[q].pc) || (q in w.processes && v.processes[q].pc == w.processes[q].pc)
    ensures Inv(st, v)
  {
    forall id | id in v.db.jobs ensures JobFits(st, v, id) {
      if id in w.db.jobs && v.db.jobs[id] == w.db.jobs[id] {
        JobStillFits(st, w, v, id);
      }
    }
    forall q | q in v.processes ensures PcFits(v, v.processes[q].pc) {
      if q in w.processes && v.processes[q].pc == w.processes[q].pc {
        PcStillFits(w, v, w.processes[q].pc);
      }
    }
  }

  lemma {:induction false} SuccessesConcat(a: seq<AuditKind>, b: seq<AuditKind>)
    ensures Successes(a + b) == Successes(a) + Successes(b)
  {
    if b == [] {
      assert a + b == a;
    } else {
      assert (a + b)[..|a + b| - 1] == a + b[..|b| - 1];
      SuccessesConcat(a, b[..|b| - 1]);
    }
  }

  lemma {:induction false} WithoutSuccessHasNone(trail: seq<AuditKind>)
    ensures Successes(WithoutSuccess(trail)) == 0
  {
    if trail != [] {
      var before := WithoutSuccess(trail[..|trail| - 1]);
      WithoutSuccessHasNone(trail[..|trail| - 1]);
      assert (before + [trail[|trail| - 1]])[..|before|] == before;
    }
  }

  // One lemma per kind of action.

  lemma SubmitStep(st: Settings, w: World, runId: nat, organization: nat)
    requires Inv(st, w)
    ensures var v := PerformSubmit(w, runId, organization); Evolves(w, v) && Inv(st, v)
  {
    InvAfterMove(st, w, PerformSubmit(w, runId, organization));
  }

  lemma ExecuteStep(
      st: Settings, w: World, id: nat, organization: nat, runId: nat, priority: Priority, maxAttempts: nat,
      timeoutSeconds: nat, scheduledAt: int)
    requires Inv(st, w)
    ensures var v := PerformExecute(w, id, organization, runId, priority, maxAttempts, timeoutSeconds, scheduledAt);
      Evolves(w, v) && Inv(st, v)
  {
    var v := PerformExecute(w, id, organization, runId, priority, maxAttempts, timeoutSeconds, scheduledAt);
    if v != w {
      NewJobIsOk(organization, runId, priority, maxAttempts, timeoutSeconds, scheduledAt, w.clock);
      InvAfterMove(st, w, v);
    }
  }

  lemma CancelStep(st: Settings, w: World, id: nat, organization: nat)
    requires Inv(st, w)
    ensures var v := Commit(w, CancelJob(w.db, id, organization, w.clock)); Evolves(w, v) && Inv(st, v)
  {
    hide JobOk, RunOk, PcFits;
    var answer := CancelJob(w.db, id, organization, w.clock);
    if answer.Ok? {
      CancelKeepsOk(w.db.jobs[id], w.clock);
      InvAfterMove(st, w, Commit(w, answer));
    }
  }

  lemma RetryStep(st: Settings, w: World, id: nat, organization: nat)
    requires Inv(st, w)
    ensures var v := Commit(w, RetryFailed(w.db, id, organization, st.maxManualRetries, w.clock));
      Evolves(w, v) && Inv(st, v)
  {
    hide JobOk, PcFits, LastSequence;
    var answer := RetryFailed(w.db, id, organization, st.maxManualRetries, w.clock);
    if answer.Ok? {
      var job := w.db.jobs[id];
      assert JobFits(st, w, id);
      RequeueKeepsOk(job, w.clock);
      var u := w.(db := w.db.(runs := w.db.runs[job.runId := Reopened(w.db.runs[job.runId])]));
      InvAfterMove(st, w, u);
      var v := u.(db := u.db.(jobs := u.db.jobs[id := Requeued(job, w.clock)]));
      InvAfterMove(st, u, v);
      EvolvesTransitively(w, u, v);
    }
  }

  lemma PurgeStep(st: Settings, w: World, ids: set<nat>)
    requires Inv(st, w)
    ensures Evolves(w, PerformPurge(w, ids)) && Inv(st, PerformPurge(w, ids))
  {
    InvAfterMove(st, w, PerformPurge(w, ids));
  }

  lemma MoveStep(st: Settings, w: World, p: nat, pc: Pc)
    requires Inv(st, w) && PcFits(w, pc)
    ensures Evolves(w, Move(w, p, pc)) && Inv(st, Move(w, p, pc))
  {
    InvAfterMove(st, w, Move(w, p, pc));
  }

  /** A job transaction together with a move. */
  lemma JobStep(st: Settings, w: World, id: nat, job: Job, p: nat, pc: Pc)
    requires Inv(st, w) && id in w.db.jobs && job.runId == w.db.jobs[id].runId
    requires var u := w.(db := w.db.(jobs := w.db.jobs[id := job])); JobFits(st, u, id) && PcFits(u, pc)
    ensures var v := Move(w.(db := w.db.(jobs := w.db.jobs[id := job])), p, pc); Evolves(w, v) && Inv(st, v)
  {
    assert JobFits(st, w, id);
    var u := w.(db := w.db.(jobs := w.db.jobs[id := job]));
    InvAfterMove(st, w, u);
    MoveStep(st, u, p, pc);
    EvolvesTransitively(w, u, Move(u, p, pc));
  }

  /** A run transaction together with a move. */
  lemma RunStep(st: Settings, w: World, runId: nat, run: Run, p: nat, pc: Pc)
    requires Inv(st, w) && runId in w.db.runs && !w.db.runs[runId].status.SucceededRun? && RunOk(run)
    requires run.organization == w.db.runs[runId].organization
    requires PcFits(w.(db := w.db.(runs := w.db.runs[runId := run])), pc)
    ensures var v := Move(w.(db := w.db.(runs := w.db.runs[runId := run])), p, pc); Evolves(w, v) && Inv(st, v)
  {
    var u := w.(db := w.db.(runs := w.db.runs[runId := run]));
    InvAfterMove(st, w, u);
    MoveStep(st, u, p, pc);
    EvolvesTransitively(w, u, Move(u, p, pc));
  }

  lemma RecoveredFits(st: Settings, w: World, v: World, id: nat)
    requires id in w.db.jobs && JobFits(st, w, id) && w.db.jobs[id].Active()
    requires id in v.db.jobs && v.db.jobs[id] == Recovered(w.db.jobs[id], w.clock)
    requires v.clock == w.clock && v.db.runs == w.db.runs && v.usedIds == w.usedIds
    ensures JobFits(st, v, id)
  {
    hide JobOk;
    RecoverKeepsOk(w.db.jobs[id], w.clock);
  }

  lemma RecoverStep(st: Settings, w: World)
    requires Inv(st, w)
    ensures Evolves(w, PerformRecover(st, w)) && Inv(st, PerformRecover(st, w))
  {
    hide JobFits, PcFits, RunOk;
    var v := PerformRecover(st, w);
    forall id | id in v.db.jobs && v.db.jobs[id] != w.db.jobs[id] ensures JobFits(st, v, id) {
      RecoveredFits(st, w, v, id);
    }
    InvAfterMove(st, w, v);
  }

  lemma ClaimStep(st: Settings, w: World, p: nat)
    requires Inv(st, w) && p in w.processes
    ensures Evolves(w, PerformClaim(st, w, p)) && Inv(st, PerformClaim(st, w, p))
  {
    var process := w.processes[p];
    var next := NextJob(w.db.jobs, w.clock, process.organization, st.aging);
    if next.Some? {
      var before := w.db.jobs[next.value];
      var job := Claimed(before, process.worker, w.clock);
      assert JobFits(st, w, next.value);
      ClaimKeepsOk(before, process.worker, w.clock);
      JobStep(st, w, next.value, job, p, Beginning(SnapshotOf(next.value, job)));
    }
  }

  lemma PollStep(st: Settings, w: World, p: nat)
    requires Inv(st, w)
    ensures Evolves(w, PerformPoll(st, w, p)) && Inv(st, PerformPoll(st, w, p))
  {
    if p in w.processes && w.processes[p].pc.Idle? {
      var u := PerformRecover(st, w);
      RecoverStep(st, w);
      ClaimStep(st, u, p);
      EvolvesTransitively(w, u, PerformClaim(st, u, p));
    }
  }

  lemma BeginStep(st: Settings, w: World, p: nat)
    requires Inv(st, w)
    ensures Evolves(w, PerformBegin(w, p)) && Inv(st, PerformBegin(w, p))
  {
    if At(w, p).Beginning? {
      var s := At(w, p).job;
      assert PcFits(w, w.processes[p].pc);
      var run := w.db.runs[s.runId];
      assert RunOk(run);
      if !Reaches(w, s) || run.status.FailedRun? {
        MoveStep(st, w, p, Finishing(s, Raised));
      } else if run.status.SucceededRun? {
        MoveStep(st, w, p, Finishing(s, Returned));
      } else if run.status.RunningRun? {
        MoveStep(st, w, p, Processing(s, 0, []));
      } else {
        RunStep(st, w, s.runId, TransitionRun(run, RunningRun, w.clock, None).value, p, Processing(s, 0, []));
      }
    }
  }

  lemma AfterRaiseFits(w: World, s: Snapshot, trail: seq<AuditKind>, ending: Ending)
    requires SnapshotFits(w, s) && !ending.Returned?
    ensures PcFits(w, AfterRaise(s, trail, ending))
  {
  }

  lemma WorkStep(st: Settings, w: World, p: nat, kind: AuditKind)
    requires Inv(st, w)
    ensures Evolves(w, PerformWork(w, p, kind)) && Inv(st, PerformWork(w, p, kind))
  {
    var pc := At(w, p);
    if PerformWork(w, p, kind) != w {
      assert PcFits(w, w.processes[p].pc);
      assert (pc.trail + [kind])[..|pc.trail|] == pc.trail;
      MoveStep(st, w, p, Processing(pc.job, pc.stage, pc.trail + [kind]));
    }
  }

  lemma CheckpointStep(st: Settings, w: World, p: nat)
    requires Inv(st, w)
    ensures Evolves(w, PerformCheckpoint(w, p)) && Inv(st, PerformCheckpoint(w, p))
  {
    hide JobOk, RunOk;
    var v, pc := PerformCheckpoint(w, p), At(w, p);
    if v != w {
      var s := pc.job;
      assert PcFits(w, w.processes[p].pc);
      AfterRaiseFits(w, s, pc.trail, Raised);
      if v.db == w.db {
        MoveStep(st, w, p, v.processes[p].pc);
      } else {
        var job := w.db.jobs[s.jobId];
        assert JobFits(st, w, s.jobId);
        HeartbeatKeepsOk(job, w.processes[p].worker, w.clock);
        var renewed := Heartbeat(job, w.processes[p].worker, w.clock).value;
        ProgressKeepsOk(renewed, ProgressAt(pc.stage), w.clock);
        var u := w.(db := v.db);
        AfterRaiseFits(u, s, pc.trail, SawCancellation);
        AfterRaiseFits(u, s, pc.trail, SawDeadline);
        JobStep(st, w, s.jobId, v.db.jobs[s.jobId], p, v.processes[p].pc);
      }
    }
  }

  lemma BreakStep(st: Settings, w: World, p: nat)
    requires Inv(st, w)
    ensures Evolves(w, PerformBreak(w, p)) && Inv(st, PerformBreak(w, p))
    ensures Evolves(w, PerformBreakEarly(w, p)) && Inv(st, PerformBreakEarly(w, p))
  {
    if p in w.processes && !At(w, p).Idle? {
      assert PcFits(w, w.processes[p].pc);
      var s := At(w, p).job;
      MoveStep(st, w, p, Finishing(s, Raised));
      if At(w, p).Processing? {
        AfterRaiseFits(w, s, At(w, p).trail, Raised);
        MoveStep(st, w, p, AfterRaise(s, At(w, p).trail, Raised));
      }
    }
  }

  lemma WriteStep(st: Settings, w: World, p: nat, batch: seq<nat>, raises: bool)
    requires Inv(st, w)
    ensures Evolves(w, PerformWrite(w, p, batch, raises)) && Inv(st, PerformWrite(w, p, batch, raises))
  {
    var v, pc := PerformWrite(w, p, batch, raises), At(w, p);
    if v != w {
      var s := pc.job;
      assert PcFits(w, w.processes[p].pc);
      AfterRaiseFits(w, s, pc.trail, Raised);
      if v.db == w.db {
        MoveStep(st, w, p, v.processes[p].pc);
      } else {
        var run := w.db.runs[s.runId];
        assert RunOk(run);
        SuccessesConcat(run.audit, pc.trail);
        AfterRaiseFits(w.(db := v.db), s, pc.trail, Raised);
        RunStep(st, w, s.runId, v.db.runs[s.runId], p, v.processes[p].pc);
      }
    }
  }

  lemma MarkStep(st: Settings, w: World, p: nat)
    requires Inv(st, w)
    ensures Evolves(w, PerformMark(w, p)) && Inv(st, PerformMark(w, p))
  {
    var v, pc := PerformMark(w, p), At(w, p);
    if v != w {
      var s := pc.job;
      assert PcFits(w, w.processes[p].pc);
      if v.db == w.db {
        MoveStep(st, w, p, v.processes[p].pc);
      } else {
        var run := w.db.runs[s.runId];
        assert RunOk(run);
        WithoutSuccessHasNone(pc.trail + [RunFailed]);
        SuccessesConcat(run.audit, WithoutSuccess(pc.trail + [RunFailed]));
        SuccessesConcat(run.audit, []);
        RunStep(st, w, s.runId, v.db.runs[s.runId], p, v.processes[p].pc);
      }
    }
  }

  lemma FinishStep(st: Settings, w: World, p: nat)
    requires Inv(st, w)
    ensures Evolves(w, PerformFinish(st, w, p)) && Inv(st, PerformFinish(st, w, p))
  {
    hide JobOk;
    var pc := At(w, p);
    if pc.Finishing? {
      var s, answer := pc.job, FinishingAnswer(st, w, pc.job, pc.ending);
      assert PcFits(w, w.processes[p].pc);
      if answer.Ok? {
        var job := answer.value.jobs[s.jobId];
        assert JobFits(st, w, s.jobId);
        FinishedJobFits(st, w, s, pc.ending);
        JobStep(st, w, s.jobId, job, p, Idle);
      } else {
        MoveStep(st, w, p, Idle);
      }
    }
  }

  /** Whatever the ending, the finished job fits again. */
  lemma FinishedJobFits(st: Settings, w: World, s: Snapshot, ending: Ending)
    requires FinishingAnswer(st, w, s, ending).Ok? && PcFits(w, Finishing(s, ending))
    requires s.jobId in w.db.jobs && JobFits(st, w, s.jobId)
    ensures var db := FinishingAnswer(st, w, s, ending).value;
      && s.jobId in db.jobs && db == w.db.(jobs := w.db.jobs[s.jobId := db.jobs[s.jobId]])
      && db.jobs[s.jobId].runId == w.db.jobs[s.jobId].runId
      && JobFits(st, w.(db := db), s.jobId)
  {
    var job := w.db.jobs[s.jobId];
    var target := FinishingStatus(ending, job.status.CancelRequested?);
    CompleteKeepsOk(job, target, w.clock, RetryTime(st, w, s, target), CodeFor(ending, target));
  }

  /** Time passes, a process starts over, or the marking of a run fails. */
  lemma SmallStep(st: Settings, w: World, a: Action)
    requires Inv(st, w) && (a.Tick? || a.Launch? || a.BreakMarking?)
    ensures Evolves(w, Perform(st, w, a)) && Inv(st, Perform(st, w, a))
  {
    if a.BreakMarking? {
      if At(w, a.p).MarkingRun? {
        assert PcFits(w, w.processes[a.p].pc);
        MoveStep(st, w, a.p, Finishing(At(w, a.p).job, Raised));
      }
    } else {
      InvAfterMove(st, w, Perform(st, w, a));
    }
  }

  /** Every action keeps the invariant and takes nothing back. */
  lemma PerformKeepsInv(st: Settings, w: World, a: Action)
    requires Inv(st, w)
    ensures Evolves(w, Perform(st, w, a)) && Inv(st, Perform(st, w, a))
  {
    hide Inv, Evolves;
    match a
    case SubmitRun(runId, organization) => SubmitStep(st, w, runId, organization);
    case Execute(id, organization, runId, priority, maxAttempts, timeoutSeconds, scheduledAt) =>
      ExecuteStep(st, w, id, organization, runId, priority, maxAttempts, timeoutSeconds, scheduledAt);
    case Cancel(id, organization) => CancelStep(st, w, id, organization);
    case Retry(id, organization) => RetryStep(st, w, id, organization);
    case Purge(ids) => PurgeStep(st, w, ids);
    case Poll(p) => PollStep(st, w, p);
    case Begin(p) => BeginStep(st, w, p);
    case BreakEarly(p) => BreakStep(st, w, p);
    case Work(p, kind) => WorkStep(st, w, p, kind);
    case Checkpoint(p) => CheckpointStep(st, w, p);
    case Break(p) => BreakStep(st, w, p);
    case WriteResults(p, batch, raises) => WriteStep(st, w, p, batch, raises);
    case MarkRunFailed(p) => MarkStep(st, w, p);
    case Finish(p) => FinishStep(st, w, p);
    case _ => SmallStep(st, w, a);
  }

  /** The invariant holds along every run. */
  lemma {:induction false} AlwaysInv(st: Settings, w: World, actions: seq<Action>)
    requires Inv(st, w)
    ensures Inv(st, After(st, w, actions)) && Evolves(w, After(st, w, actions))
  {
    if actions != [] {
      var before := actions[..|actions| - 1];
      AlwaysInv(st, w, before);
      PerformKeepsInv(st, After(st, w, before), actions[|actions| - 1]);
      EvolvesTransitively(w, After(st, w, before), After(st, w, actions));
    }
  }

  /** Main result: in every reachable world each run's results were written at most once, the batch
      and the one RUN_SUCCEEDED event are there exactly when the run has succeeded, its stamps tell whether
      it was started and is over, and a job that succeeded belongs to a run that did. */
  lemma ExactlyOnceTheorem(st: Settings, clock: int, actions: seq<Action>)
    ensures var w := After(st, Initial(clock), actions);
      && (forall runId :: runId in w.db.runs ==>
            var run := w.db.runs[runId];
            && |run.batches| == Successes(run.audit) <= 1
            && (|run.batches| == 1 <==> run.status.SucceededRun?)
            && (run.startedAt.None? <==> run.status.Pending?)
            && (run.finishedAt.Some? <==> run.status.SucceededRun? || run.status.FailedRun?))
      && (forall id :: id in w.db.jobs && w.db.jobs[id].status.Succeeded? ==>
            w.db.jobs[id].runId in w.db.runs && w.db.runs[w.db.jobs[id].runId].status.SucceededRun?)
  {
    var w := After(st, Initial(clock), actions);
    AlwaysInv(st, Initial(clock), actions);
    forall runId | runId in w.db.runs ensures RunOk(w.db.runs[runId]) {}
    forall id | id in w.db.jobs ensures JobFits(st, w, id) {}
  }

  /** Main result: once a run has succeeded nothing about it ever changes again. */
  lemma {:induction false} SuccessIsForever(st: Settings, clock: int, actions: seq<Action>, later: seq<Action>, runId: nat)
    requires var w := After(st, Initial(clock), actions);
      runId in w.db.runs && w.db.runs[runId].status.SucceededRun?
    ensures var w := After(st, Initial(clock), actions);
      var v := After(st, w, later);
      runId in v.db.runs && v.db.runs[runId] == w.db.runs[runId]
  {
    AlwaysInv(st, Initial(clock), actions);
    AlwaysInv(st, After(st, Initial(clock), actions), later);
  }

  /** Main result: the look at persisted results in `retry_failed` never decides anything. */
  lemma ResultGuardIsImplied(st: Settings, clock: int, actions: seq<Action>, id: nat, organization: nat, cap: nat, at: int)
    ensures var db := After(st, Initial(clock), actions).db;
      RetryFailed(db, id, organization, cap, at) == RetryUnguarded(db, id, organization, cap, at)
  {
    var w := After(st, Initial(clock), actions);
    AlwaysInv(st, Initial(clock), actions);
    if cap >= 1 && Visible(w.db, id, organization) && w.db.jobs[id].runId in w.db.runs {
      assert RunOk(w.db.runs[w.db.jobs[id].runId]);
    }
  }

  /** Lease fields while a worker may be at it, the deadline the timeout after the start, a completion stamp
      once it is over, attempts left while queued and bounded per manual retry, an event log numbered from 1
      from which status and counters can be replayed, and no cancelled job without a completion stamp. */
  ghost predicate WellKept(st: Settings, job: Job, cutoff: int)
  {
    && (job.claimedBy.Some? <==> job.Active()) && (job.heartbeatAt.Some? <==> job.Active())
    && (job.Active() ==> job.startedAt.Some? && job.deadlineAt == Some(job.startedAt.value + job.timeoutSeconds))
    && (job.deadlineAt.Some? <==> job.Active()) && (job.completedAt.Some? <==> job.Terminal())
    && (job.status.Queued? ==> job.attemptCount < job.maxAttempts)
    && job.totalAttemptCount <= job.maxAttempts * (1 + job.manualRetryCount)
    && job.manualRetryCount <= st.maxManualRetries
    && !RetentionFallback(job, cutoff)
    && (forall i :: 0 <= i < |job.events| ==> job.events[i].sequence == i + 1)
    && Replay(job.events) == Tally(job.status, job.totalAttemptCount, job.manualRetryCount, job.attemptCount)
  }

  lemma OkJobIsWellKept(st: Settings, job: Job, cutoff: int)
    requires JobOk(job) && job.manualRetryCount <= st.maxManualRetries
    ensures WellKept(st, job, cutoff)
  {
    AttemptsAreBounded(job);
  }

  /** What the invariant says of one job. */
  lemma JobFacts(st: Settings, w: World, id: nat, cutoff: int)
    requires Inv(st, w) && id in w.db.jobs
    ensures WellKept(st, w.db.jobs[id], cutoff)
  {
    hide JobOk, WellKept;
    assert JobFits(st, w, id);
    OkJobIsWellKept(st, w.db.jobs[id], cutoff);
  }

  /** Main result: lease, timestamps, counters and replayable log of every reachable job. */
  lemma ReachableJobIsOk(st: Settings, clock: int, actions: seq<Action>, id: nat, cutoff: int)
    requires id in After(st, Initial(clock), actions).db.jobs
    ensures WellKept(st, After(st, Initial(clock), actions).db.jobs[id], cutoff)
  {
    hide Inv, WellKept;
    AlwaysInv(st, Initial(clock), actions);
    JobFacts(st, After(st, Initial(clock), actions), id, cutoff);
  }
}
