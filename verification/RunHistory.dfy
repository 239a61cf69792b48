/** How a run gets what it has: every change of a run's record told by the action that made it, and from
    that, over whole histories, which results a succeeded run holds and what its audit trail says. */
module RunHistory {
  import opened Ordering
  import opened Jobs
  import opened Protocol
  import opened ExactlyOnce
  import opened Steps

  // The audit trail of one attempt.

  /** What the stages record, the gateway's either read or skipped. */
  predicate RecordedAt(stage: nat, kind: AuditKind)
  {
    || (stage == 0 && kind == RunStarted)
    || (stage == 1 && kind == BankIngested)
    || (stage == 2 && kind == ErpIngested)
    || (stage == 3 && (kind == GatewayIngested || kind == GatewaySkipped))
    || (stage == 4 && kind == ReconciliationCompleted)
    || (stage == 5 && kind == RunSucceeded)
  }

  /** The stages so far, in order. */
  predicate OnTrack(trail: seq<AuditKind>)
  {
    |trail| <= 6 && forall k :: 0 <= k < |trail| ==> RecordedAt(k, trail[k])
  }

  /** Why a process is about to mark its run failed: the error tells how the processor was stopped, and but
      for a cancellation it was the last attempt. */
  predicate ErrorFits(pc: Pc)
    requires pc.MarkingRun?
  {
    match pc.ending
    case SawCancellation => pc.error == ExecutionCancelled
    case SawDeadline => pc.error == ExecutionTimeout && pc.job.attemptCount >= pc.job.maxAttempts
    case Raised => pc.error == ExecutionFailed && pc.job.attemptCount >= pc.job.maxAttempts
    case Returned => false
  }

  ghost predicate CourseOk(pc: Pc)
  {
    && (pc.Processing? ==> OnTrack(pc.trail) && pc.stage <= |pc.trail| <= pc.stage + 1)
    && (pc.MarkingRun? ==> OnTrack(pc.trail) && ErrorFits(pc))
  }

  ghost predicate CoursesOk(w: World)
  {
    forall p :: p in w.processes ==> CourseOk(w.processes[p].pc)
  }

  lemma WorkStaysOnTrack(trail: seq<AuditKind>, kind: AuditKind)
    requires OnTrack(trail) && StageEmits(|trail|, kind)
    ensures OnTrack(trail + [kind])
  {
  }

  lemma StepKeepsCourses(st: Settings, w: World, a: Action)
    requires CoursesOk(w)
    ensures CoursesOk(Perform(st, w, a))
  {
    hide OnTrack, PerformRecover, TransitionRun, WithoutSuccess, LastSequence, MayComplete, ErrorFits;
    match a
    case Work(p, kind) =>
      if PerformWork(w, p, kind) != w {
        assert CourseOk(w.processes[p].pc);
        WorkStaysOnTrack(w.processes[p].pc.trail, kind);
      }
    case Poll(p) => PollKeepsCourses(st, w, p);
    case Begin(p) => NoTrailIsOnTrack();
    case Checkpoint(p) => CheckpointKeepsCourses(w, p);
    case Break(p) => BreakKeepsCourses(w, p);
    case WriteResults(p, batch, raises) => WriteKeepsCourses(w, p, batch, raises);
    case _ =>
  }

  lemma PollKeepsCourses(st: Settings, w: World, p: nat)
    requires CoursesOk(w)
    ensures CoursesOk(PerformPoll(st, w, p))
  {
    hide OnTrack, ErrorFits, NextJob, Recovered, Claimed, Stale;
  }

  lemma NoTrailIsOnTrack()
    ensures OnTrack([])
  {
  }

  lemma RaiseKeepsCourse(s: Snapshot, trail: seq<AuditKind>, ending: Ending)
    requires OnTrack(trail) && ending != Returned
    ensures CourseOk(AfterRaise(s, trail, ending))
  {
  }

  lemma CheckpointKeepsCourses(w: World, p: nat)
    requires CoursesOk(w)
    ensures CoursesOk(PerformCheckpoint(w, p))
  {
    hide OnTrack, ErrorFits, AfterRaise, LastSequence;
    var pc := At(w, p);
    if pc.Processing? {
      RaiseKeepsCourse(pc.job, pc.trail, Raised);
      RaiseKeepsCourse(pc.job, pc.trail, SawCancellation);
      RaiseKeepsCourse(pc.job, pc.trail, SawDeadline);
    }
  }

  lemma BreakKeepsCourses(w: World, p: nat)
    requires CoursesOk(w)
    ensures CoursesOk(PerformBreak(w, p))
  {
    hide OnTrack, ErrorFits, AfterRaise;
    if At(w, p).Processing? {
      RaiseKeepsCourse(At(w, p).job, At(w, p).trail, Raised);
    }
  }

  lemma WriteKeepsCourses(w: World, p: nat, batch: seq<nat>, raises: bool)
    requires CoursesOk(w)
    ensures CoursesOk(PerformWrite(w, p, batch, raises))
  {
    hide OnTrack, ErrorFits, AfterRaise;
    if At(w, p).Processing? {
      RaiseKeepsCourse(At(w, p).job, At(w, p).trail, Raised);
    }
  }

  lemma {:induction false} AlwaysOnCourse(st: Settings, clock: int, actions: seq<Action>)
    ensures CoursesOk(After(st, Initial(clock), actions))
  {
    hide Perform, CourseOk;
    if actions != [] {
      AlwaysOnCourse(st, clock, actions[..|actions| - 1]);
      StepKeepsCourses(st, After(st, Initial(clock), actions[..|actions| - 1]), actions[|actions| - 1]);
    }
  }

  /** What of the trail is recorded with a failure. */
  lemma TrailOfFailure(trail: seq<AuditKind>)
    requires OnTrack(trail)
    ensures WithoutSuccess(trail) == if |trail| == 6 then trail[..5] else trail
  {
    if |trail| == 6 {
      NoSuccessWithin(trail[..5]);
    } else {
      NoSuccessWithin(trail);
    }
  }

  lemma {:induction false} NoSuccessWithin(trail: seq<AuditKind>)
    requires forall k :: 0 <= k < |trail| ==> trail[k] != RunSucceeded
    ensures WithoutSuccess(trail) == trail
  {
    if trail != [] {
      NoSuccessWithin(trail[..|trail| - 1]);
    }
  }

  // Which action changes a run.

  /** Process a.p is at the run, which is there within its organization. */
  ghost predicate IsAt(w: World, p: nat, runId: nat)
  {
    && p in w.processes && w.processes[p].pc != Idle && w.processes[p].pc.job.runId == runId
    && RunIsThere(w, w.processes[p].pc.job)
  }

  /** The first transaction of an attempt finds the run PENDING. */
  ghost predicate Starts(w: World, a: Action, runId: nat)
  {
    && a.Begin? && IsAt(w, a.p, runId) && w.processes[a.p].pc.Beginning?
    && w.db.runs[runId].status == Pending
  }

  /** A processor past its six checkpoints writes its results and finds the run RUNNING. */
  ghost predicate Writes(w: World, a: Action, runId: nat)
  {
    && a.WriteResults? && IsAt(w, a.p, runId) && w.processes[a.p].pc.Processing? && w.processes[a.p].pc.stage == 6
    && w.db.runs[runId].status == RunningRun
  }

  ghost predicate Fails(w: World, a: Action, runId: nat)
  {
    && a.MarkRunFailed? && IsAt(w, a.p, runId) && w.processes[a.p].pc.MarkingRun?
    && w.db.runs[runId].status == RunningRun
  }

  /** A manual retry of a failed job of the run, which has failed too. */
  ghost predicate Reopens(st: Settings, w: World, a: Action, runId: nat)
  {
    && a.Retry? && a.id in w.db.jobs && w.db.jobs[a.id].runId == runId && w.db.jobs[a.id].organization == a.organization
    && w.db.jobs[a.id].status == Failed && w.db.jobs[a.id].manualRetryCount < st.maxManualRetries
    && runId in w.db.runs && w.db.runs[runId].organization == a.organization && w.db.runs[runId].status == FailedRun
  }

  /** The record of a run after an action, from the record before. */
  ghost function Changed(st: Settings, w: World, a: Action, runId: nat): Run
    requires runId in w.db.runs
  {
    var run := w.db.runs[runId];
    if Starts(w, a, runId) then run.(status := RunningRun, startedAt := Some(w.clock))
    else if Writes(w, a, runId) then
      run.(status := SucceededRun, finishedAt := Some(w.clock), error := None,
           batches := run.batches + [a.batch], audit := run.audit + w.processes[a.p].pc.trail)
    else if Fails(w, a, runId) then
      var pc := w.processes[a.p].pc;
      run.(status := FailedRun, finishedAt := Some(w.clock), error := Some(pc.error),
           audit := run.audit
             + if pc.trail == [] then [] else (if |pc.trail| == 6 then pc.trail[..5] else pc.trail) + [RunFailed])
    else if Reopens(st, w, a, runId) then run.(status := Pending, startedAt := None, finishedAt := None, error := None)
    else run
  }

  lemma WorkerChangesRun(st: Settings, w: World, a: Action, runId: nat)
    requires CoursesOk(w) && runId in w.db.runs && (a.Begin? || a.WriteResults? || a.MarkRunFailed?)
    ensures runId in Perform(st, w, a).db.runs && Perform(st, w, a).db.runs[runId] == Changed(st, w, a, runId)
  {
    hide OnTrack, ErrorFits;
    if a.p in w.processes {
      var pc := w.processes[a.p].pc;
      assert CourseOk(pc);
      if a.Begin? && pc.Beginning? {
        BeginOnRecords(w, a.p);
      } else if a.WriteResults? && pc.Processing? && pc.stage == 6 {
        WriteOnRecords(w, a.p, a.batch, a.raises);
      } else if a.MarkRunFailed? && pc.MarkingRun? {
        MarkOnRecords(w, a.p);
        TrailOfFailure(pc.trail);
      }
    }
  }

  lemma RetryChangesRun(st: Settings, w: World, a: Action, runId: nat)
    requires Inv(st, w) && runId in w.db.runs && a.Retry?
    ensures runId in Perform(st, w, a).db.runs && Perform(st, w, a).db.runs[runId] == Changed(st, w, a, runId)
  {
    hide JobFits, PcFits, LastSequence;
    var db := w.db;
    assert forall id :: id in db.runs ==> RunOk(db.runs[id]);
  }

  /** Main result: an action changes the record of a run only by starting it, writing its results, marking
      it failed or reopening it, and then as told. */
  lemma RunChangesExactly(st: Settings, clock: int, actions: seq<Action>, a: Action, runId: nat)
    requires runId in After(st, Initial(clock), actions).db.runs
    ensures var w := After(st, Initial(clock), actions);
      var v := After(st, Initial(clock), actions + [a]);
      runId in v.db.runs && v.db.runs[runId] == Changed(st, w, a, runId)
  {
    var w := After(st, Initial(clock), actions);
    assert (actions + [a])[..|actions|] == actions;
    AlwaysInv(st, Initial(clock), actions);
    AlwaysOnCourse(st, clock, actions);
    StepChangesRun(st, w, a, runId);
  }

  lemma StepChangesRun(st: Settings, w: World, a: Action, runId: nat)
    requires Inv(st, w) && CoursesOk(w) && runId in w.db.runs
    ensures runId in Perform(st, w, a).db.runs && Perform(st, w, a).db.runs[runId] == Changed(st, w, a, runId)
  {
    hide Inv, CoursesOk, PerformBegin, PerformWrite, PerformMark, PerformCheckpoint, PerformFinish, RetryFailed;
    if a.Begin? || a.WriteResults? || a.MarkRunFailed? {
      WorkerChangesRun(st, w, a, runId);
    } else if a.Retry? {
      RetryChangesRun(st, w, a, runId);
    } else if a.Checkpoint? {
      CheckpointLeavesRuns(w, a.p);
    } else if a.Finish? {
      FinishLeavesTheRuns(st, w, a.p);
    }
  }

  lemma CheckpointLeavesRuns(w: World, p: nat)
    ensures PerformCheckpoint(w, p).db.runs == w.db.runs
  {
    hide LastSequence, AfterRaise;
  }

  lemma FinishLeavesTheRuns(st: Settings, w: World, p: nat)
    ensures PerformFinish(st, w, p).db.runs == w.db.runs
  {
    hide LastSequence, FinishingStatus, RetryTime, CodeFor;
  }

  // Which results a run holds.

  /** Action i of the history wrote the results of the run. */
  ghost predicate WrittenAt(st: Settings, clock: int, actions: seq<Action>, i: int, runId: nat)
  {
    0 <= i < |actions| && Writes(After(st, Initial(clock), actions[..i]), actions[i], runId)
  }

  /** What a run has that succeeded by action i. */
  ghost predicate HoldsResultsOf(st: Settings, clock: int, actions: seq<Action>, i: int, runId: nat, run: Run)
    requires WrittenAt(st, clock, actions, i, runId)
  {
    var w := After(st, Initial(clock), actions[..i]);
    && run.batches == [actions[i].batch]
    && run.audit == w.db.runs[runId].audit + w.processes[actions[i].p].pc.trail
    && OnTrack(w.processes[actions[i].p].pc.trail) && |w.processes[actions[i].p].pc.trail| == 6
    && run.finishedAt == Some(w.clock) && run.error == None
  }

  /** A landing: the run, RUNNING and without results, gets those of this action. */
  lemma WritingStoresResults(st: Settings, clock: int, actions: seq<Action>, a: Action, runId: nat)
    requires Writes(After(st, Initial(clock), actions), a, runId)
    ensures var all := actions + [a];
      var run := After(st, Initial(clock), all).db.runs[runId];
      && WrittenAt(st, clock, all, |actions|, runId)
      && run.status == SucceededRun && HoldsResultsOf(st, clock, all, |actions|, runId, run)
  {
    var w := After(st, Initial(clock), actions);
    assert (actions + [a])[..|actions|] == actions;
    RunChangesExactly(st, clock, actions, a, runId);
    AlwaysInv(st, Initial(clock), actions);
    AlwaysOnCourse(st, clock, actions);
    assert RunOk(w.db.runs[runId]);
    assert PcFits(w, w.processes[a.p].pc) && CourseOk(w.processes[a.p].pc);
  }

  /** No other action makes or unmakes a success. */
  lemma OthersLeaveSuccess(st: Settings, w: World, a: Action, runId: nat)
    requires runId in w.db.runs && !Writes(w, a, runId)
    ensures var run := w.db.runs[runId];
      Changed(st, w, a, runId).status == SucceededRun || run.status == SucceededRun ==> Changed(st, w, a, runId) == run
  {
  }

  /** A run that is new with this action has not succeeded. */
  lemma NewRunIsPending(st: Settings, w: World, a: Action, runId: nat)
    requires Inv(st, w) && runId !in w.db.runs && runId in Perform(st, w, a).db.runs
    ensures Perform(st, w, a).db.runs[runId].status == Pending && Perform(st, w, a).db.runs[runId].batches == []
  {
    hide PerformBegin, PerformWrite, PerformMark, PerformCheckpoint, PerformFinish, PcFits, RunOk;
    if a.Checkpoint? {
      CheckpointLeavesRuns(w, a.p);
    } else if a.Finish? {
      FinishLeavesTheRuns(st, w, a.p);
    } else if a.Begin? || a.WriteResults? || a.MarkRunFailed? {
      NoNewRun(st, w, a, runId);
    }
  }

  lemma NoNewRun(st: Settings, w: World, a: Action, runId: nat)
    requires (a.Begin? || a.WriteResults? || a.MarkRunFailed?) && runId in Perform(st, w, a).db.runs
    ensures runId in w.db.runs
  {
    hide TransitionRun, WithoutSuccess;
  }

  lemma WritingsSoFar(st: Settings, clock: int, before: seq<Action>, a: Action, i: int, runId: nat)
    ensures var all := before + [a];
      && (WrittenAt(st, clock, all, i, runId) <==>
            WrittenAt(st, clock, before, i, runId)
            || (i == |before| && Writes(After(st, Initial(clock), before), a, runId)))
      && (WrittenAt(st, clock, before, i, runId) ==>
            forall run :: HoldsResultsOf(st, clock, all, i, runId, run) <==> HoldsResultsOf(st, clock, before, i, runId, run))
  {
    hide After, Writes;
    var all := before + [a];
    if 0 <= i <= |before| {
      assert all[..i] == before[..i];
      assert before[..|before|] == before;
    }
  }

  /** Main result: whatever happens, a run is SUCCEEDED exactly when an action of the history wrote its
      results. There is one such action; the run holds the batch of that action and nothing else, and its
      audit trail ends with the trail of that process, all six stages in order. */
  lemma {:induction false} ResultsAreThoseWritten(st: Settings, clock: int, actions: seq<Action>, runId: nat)
    ensures var w := After(st, Initial(clock), actions);
      && (runId in w.db.runs && w.db.runs[runId].status == SucceededRun
          <==> exists i :: WrittenAt(st, clock, actions, i, runId))
      && (runId in w.db.runs && w.db.runs[runId].status != SucceededRun ==> w.db.runs[runId].batches == [])
      && forall i :: WrittenAt(st, clock, actions, i, runId) ==> HoldsResultsOf(st, clock, actions, i, runId, w.db.runs[runId])
    ensures forall i, j :: WrittenAt(st, clock, actions, i, runId) && WrittenAt(st, clock, actions, j, runId) ==> i == j
  {
    if actions != [] {
      var n := |actions| - 1;
      var before, a := actions[..n], actions[n];
      var w := After(st, Initial(clock), before);
      assert actions == before + [a];
      ResultsAreThoseWritten(st, clock, before, runId);
      AlwaysInv(st, Initial(clock), before);
      AlwaysInv(st, Initial(clock), actions);
      forall i {
        WritingsSoFar(st, clock, before, a, i, runId);
      }
      hide Inv, RunOk, Writes, CoursesOk, Changed, Perform, WrittenAt, HoldsResultsOf;
      if runId !in w.db.runs {
        if runId in Perform(st, w, a).db.runs {
          NewRunIsPending(st, w, a, runId);
        }
      } else {
        RunChangesExactly(st, clock, before, a, runId);
        if Writes(w, a, runId) {
          WritingStoresResults(st, clock, before, a, runId);
        } else {
          OthersLeaveSuccess(st, w, a, runId);
        }
      }
    }
  }
}
