/** The worker and the processor as they run on the repositories: each transaction is proved to be
    the corresponding step of the protocol. */
module Worker {
  import opened Ordering
  import opened Jobs
  import opened Protocol
  import opened JobStore

  /** The world as one process sees it when it starts a transaction. */
  ghost function Seen(db: Database, worker: nat, organization: Option<nat>, pc: Pc, at: int): World
  {
    World(db, map[0 := Process(worker, organization, pc)], at, {})
  }

  /** The step took the database and the process where the protocol says. */
  ghost predicate Took(step: World, after: Database, next: Pc)
  {
    step.db == after && At(step, 0) == next
  }

  class BackgroundWorker {
    const repository: JobRepository
    const worker: nat
    const organization: Option<nat>
    const settings: Settings

    ghost predicate Valid()
    {
      settings.aging >= 30 && settings.staleTimeout >= 30 && settings.retryDelay >= 1
    }

    /** Refuses settings below their minimum. */
    constructor (repository: JobRepository, worker: nat, organization: Option<nat>, settings: Settings)
      requires settings.aging >= 30 && settings.staleTimeout >= 30 && settings.retryDelay >= 1
      ensures Valid() && this.repository == repository && this.worker == worker
      ensures this.organization == organization && this.settings == settings
    {
      this.repository, this.worker, this.organization, this.settings := repository, worker, organization, settings;
    }

    ghost function Sees(pc: Pc, at: int): World
      reads repository
    {
      Seen(repository.View(), worker, organization, pc, at)
    }

    /** The transaction at the head of `run_once`. */
    method Poll(at: int) returns (next: Pc)
      requires Valid()
      modifies repository
      ensures Took(PerformPoll(settings, old(Sees(Idle, at)), 0), repository.View(), next)
    {
      ghost var before := Sees(Idle, at);
      var _ := repository.RecoverStale(at - settings.staleTimeout, at);
      assert PerformRecover(settings, before).db == repository.View();
      var claimed, _ := repository.ClaimNext(worker, at, organization, settings.aging);
      if claimed == None {
        return Idle;
      }
      var record := repository.jobs[claimed.value];
      return Beginning(
        Snapshot(claimed.value, record.organization, record.runId, record.attemptCount, record.maxAttempts));
    }

    /** `WorkerContext.checkpoint`, and where the processor's `except` clauses lead from it. */
    method Checkpoint(s: Snapshot, stage: nat, trail: seq<AuditKind>, at: int) returns (next: Pc)
      requires stage < CHECKPOINTS && |trail| == stage + 1
      modifies repository
      ensures Took(PerformCheckpoint(old(Sees(Processing(s, stage, trail), at)), 0), repository.View(), next)
    {
      var before := repository.jobs;
      var refusal := repository.Heartbeat(s.jobId, s.organization, worker, at);
      if refusal == None {
        refusal := repository.UpdateProgress(s.jobId, s.organization, ProgressAt(stage), at);
      }
      if refusal != None {
        repository.jobs := before;
        return AfterRaise(s, trail, Raised);
      }
      var record := repository.jobs[s.jobId];
      if record.status == CancelRequested {
        return AfterRaise(s, trail, SawCancellation);
      }
      if record.deadlineAt.Some? && at >= record.deadlineAt.value {
        return AfterRaise(s, trail, SawDeadline);
      }
      return Processing(s, stage + 1, trail);
    }

    /** The first transaction of the processor. */
    method Begin(s: Snapshot, at: int) returns (next: Pc)
      modifies repository
      ensures Took(PerformBegin(old(Sees(Beginning(s), at)), 0), repository.View(), next)
    {
      if s.runId !in repository.runs || repository.runs[s.runId].organization != s.organization {
        return Finishing(s, Raised);
      }
      var run := repository.runs[s.runId];
      if run.status == SucceededRun {
        return Finishing(s, Returned);
      }
      if run.status == Pending {
        var _ := repository.TransitionRun(s.runId, s.organization, RunningRun, at, None);
      } else if run.status != RunningRun {
        return Finishing(s, Raised);
      }
      return Processing(s, 0, []);
    }

    /** The transaction that writes the results, all of it or nothing. */
    method WriteResults(s: Snapshot, trail: seq<AuditKind>, batch: seq<nat>, at: int) returns (next: Pc)
      modifies repository
      ensures Took(PerformWrite(old(Sees(Processing(s, CHECKPOINTS, trail), at)), 0, batch, false),
                   repository.View(), next)
      ensures repository.jobs == old(repository.jobs)
      ensures
        var runs := old(repository.runs);
        if s.runId in runs && runs[s.runId].organization == s.organization && runs[s.runId].status == RunningRun then
          var run := runs[s.runId];
          && next == Finishing(s, Returned)
          && repository.runs == runs[s.runId := run.(
               status := SucceededRun, finishedAt := Some(at), error := None,
               batches := run.batches + [batch], audit := run.audit + trail)]
        else repository.runs == runs
    {
      if s.runId !in repository.runs || repository.runs[s.runId].organization != s.organization {
        return AfterRaise(s, trail, Raised);
      }
      var run := repository.runs[s.runId];
      if run.status == SucceededRun {
        return Finishing(s, Returned);
      }
      if run.status != RunningRun {
        return AfterRaise(s, trail, Raised);
      }
      repository.AddResults(s.runId, batch);
      repository.AppendAudit(s.runId, trail);
      var _ := repository.TransitionRun(s.runId, s.organization, SucceededRun, at, None);
      return Finishing(s, Returned);
    }

    /** `_fail_run`: the trail is recorded without its success. */
    method FailRun(s: Snapshot, trail: seq<AuditKind>, error: RunError, ending: Ending, at: int) returns (next: Pc)
      modifies repository
      ensures Took(PerformMark(old(Sees(MarkingRun(s, trail, error, ending), at)), 0), repository.View(), next)
    {
      var events := if trail == [] then [] else trail + [RunFailed];
      if s.runId !in repository.runs || repository.runs[s.runId].organization != s.organization {
        return Finishing(s, Raised);
      }
      if repository.runs[s.runId].status != RunningRun {
        return Finishing(s, ending);
      }
      var kept: seq<AuditKind> := [];
      for i := 0 to |events|
        invariant kept == WithoutSuccess(events[..i])
      {
        assert events[..i + 1][..i] == events[..i];
        if events[i] != RunSucceeded {
          kept := kept + [events[i]];
        }
      }
      assert events[..|events|] == events;
      repository.AppendAudit(s.runId, kept);
      var _ := repository.TransitionRun(s.runId, s.organization, FailedRun, at, Some(error));
      return Finishing(s, ending);
    }

    /** The end of `run_once`: one of the four `_finish_*` methods. A refused transaction leaves
        everything as it was, and the process is idle again either way. */
    method Finish(s: Snapshot, ending: Ending, at: int)
      modifies repository
      ensures Took(PerformFinish(settings, old(Sees(Finishing(s, ending), at)), 0), repository.View(), Idle)
    {
      hide OnlyJob, MayComplete, LastSequence;
      var asked := s.jobId in repository.jobs && repository.jobs[s.jobId].organization == s.organization
        && repository.jobs[s.jobId].status == CancelRequested;
      var retryAt := if s.attemptCount < s.maxAttempts then Some(at + settings.retryDelay) else None;
      match ending
      case SawCancellation =>
        var _ := repository.Complete(s.jobId, s.organization, Cancelled, at, None, None);
      case SawDeadline =>
        if asked {
          var _ := repository.Complete(s.jobId, s.organization, Cancelled, at, None, None);
        } else {
          var _ := repository.Complete(s.jobId, s.organization, Failed, at, retryAt, Some(JobTimeout));
        }
      case Raised =>
        var _ := repository.Complete(s.jobId, s.organization, Failed, at, retryAt, Some(WorkerProcessingFailed));
      case Returned =>
        if asked {
          var _ := repository.Complete(s.jobId, s.organization, Cancelled, at, None, None);
        } else {
          var _ := repository.Complete(s.jobId, s.organization, Succeeded, at, None, None);
        }
    }
  }
}
