/** Manual retry: exactly when a failed job can be retried, and the runs it cannot help. Recovering a
    stale lease may fail a job for good and leave its run RUNNING; such a run, once no process is at
    it any more, stays RUNNING whatever happens. */
module StrandedRuns {
  import opened Ordering
  import opened Jobs
  import opened JobHistory
  import opened Protocol
  import opened ExactlyOnce

  /** Main result: in a reachable world a job can be retried exactly when it has failed below the manual
      retry limit and its run has failed too. */
  lemma RetryExactly(st: Settings, clock: int, actions: seq<Action>, id: nat, organization: nat, cap: nat, at: int)
    ensures var db := After(st, Initial(clock), actions).db;
      RetryFailed(db, id, organization, cap, at).Ok? <==>
      && cap >= 1 && Visible(db, id, organization)
      && db.jobs[id].status.Failed? && db.jobs[id].manualRetryCount < cap
      && db.jobs[id].runId in db.runs && db.runs[db.jobs[id].runId].status.FailedRun?
  {
    hide JobOk, PcFits;
    var w := After(st, Initial(clock), actions);
    AlwaysInv(st, Initial(clock), actions);
    ResultGuardIsImplied(st, clock, actions, id, organization, cap, at);
    if id in w.db.jobs {
      assert JobFits(st, w, id);
    }
  }

  /** The run a process is at, if any. */
  predicate WorksOn(pc: Pc, runId: nat)
  {
    !pc.Idle? && pc.job.runId == runId
  }

  /** The run is RUNNING, its jobs are over, and no process is at it. */
  ghost predicate Stranded(w: World, runId: nat)
  {
    && runId in w.db.runs && w.db.runs[runId].status.RunningRun?
    && (forall id :: id in w.db.jobs && w.db.jobs[id].runId == runId ==> w.db.jobs[id].Terminal())
    && (forall p :: p in w.processes ==> !WorksOn(w.processes[p].pc, runId))
  }

  /** Nothing about the run has changed, nothing about its jobs but for deletions, and still no process is at it. */
  ghost predicate Untouched(w: World, v: World, runId: nat)
  {
    && runId in v.db.runs && runId in w.db.runs && v.db.runs[runId] == w.db.runs[runId]
    && (forall id :: id in v.db.jobs && v.db.jobs[id].runId == runId ==>
          id in w.db.jobs && v.db.jobs[id] == w.db.jobs[id])
    && (forall p :: p in v.processes ==> !WorksOn(v.processes[p].pc, runId))
  }

  lemma RecoverLeavesStranded(st: Settings, w: World, runId: nat)
    requires Stranded(w, runId)
    ensures Untouched(w, PerformRecover(st, w), runId) && Stranded(PerformRecover(st, w), runId)
    ensures PerformRecover(st, w).processes == w.processes
  {
    hide LastSequence;
  }

  lemma ClaimLeavesStranded(st: Settings, w: World, p: nat, runId: nat)
    requires p in w.processes && Stranded(w, runId)
    ensures Untouched(w, PerformClaim(st, w, p), runId)
  {
    hide LastSequence;
    var next := NextJob(w.db.jobs, w.clock, w.processes[p].organization, st.aging);
    if next.Some? {
      assert w.db.jobs[next.value].status.Queued?;
      assert w.db.jobs[next.value].runId != runId;
    }
  }

  /** A process that works on another run, between transactions, */
  lemma MovesLeaveStranded(st: Settings, w: World, a: Action, runId: nat)
    requires Stranded(w, runId) && (a.BreakEarly? || a.Work? || a.Break? || a.BreakMarking?)
    ensures Untouched(w, Perform(st, w, a), runId)
  {
    if a.p in w.processes {
      assert !WorksOn(w.processes[a.p].pc, runId);
    }
  }

  /** and in its transactions on that run. */
  lemma RunStepsLeaveStranded(st: Settings, w: World, a: Action, runId: nat)
    requires Stranded(w, runId) && (a.Begin? || a.WriteResults? || a.MarkRunFailed?)
    ensures Untouched(w, Perform(st, w, a), runId)
  {
    hide TransitionRun, WithoutSuccess, LastSequence, MayComplete, Move;
    if a.p in w.processes {
      var pc := w.processes[a.p].pc;
      assert !WorksOn(pc, runId);
      RunStepKeepsToItsRun(st, w, a, pc, runId);
    }
  }

  lemma RunStepKeepsToItsRun(st: Settings, w: World, a: Action, pc: Pc, runId: nat)
    requires (a.Begin? || a.WriteResults? || a.MarkRunFailed?) && a.p in w.processes && w.processes[a.p].pc == pc
    requires !WorksOn(pc, runId)
    ensures var v := Perform(st, w, a);
      && v.db.jobs == w.db.jobs && v.processes.Keys == w.processes.Keys
      && (runId in w.db.runs ==> runId in v.db.runs && v.db.runs[runId] == w.db.runs[runId])
      && (forall p :: p in w.processes && p != a.p ==> v.processes[p] == w.processes[p])
      && !WorksOn(v.processes[a.p].pc, runId)
  {
    hide TransitionRun, WithoutSuccess, LastSequence, MayComplete;
  }

  lemma CheckpointLeavesStranded(st: Settings, w: World, p: nat, runId: nat)
    requires Inv(st, w) && Stranded(w, runId)
    ensures Untouched(w, PerformCheckpoint(w, p), runId)
  {
    hide JobFits, RunOk, LastSequence;
    if p in w.processes {
      assert PcFits(w, w.processes[p].pc) && !WorksOn(w.processes[p].pc, runId);
    }
  }

  /** The end of `run_once` touches the job the process remembers, and no run. */
  lemma FinishTouchesOneJob(st: Settings, w: World, p: nat, id: nat)
    requires id in PerformFinish(st, w, p).db.jobs
    ensures PerformFinish(st, w, p).db.runs == w.db.runs && id in w.db.jobs
    ensures PerformFinish(st, w, p).db.jobs[id].runId == w.db.jobs[id].runId
    ensures PerformFinish(st, w, p).db.jobs[id] == w.db.jobs[id] || (At(w, p).Finishing? && At(w, p).job.jobId == id)
  {
    hide LastSequence, FinishingStatus, RetryTime, CodeFor;
  }

  lemma FinishLeavesStranded(st: Settings, w: World, p: nat, runId: nat)
    requires Inv(st, w) && Stranded(w, runId)
    ensures Untouched(w, PerformFinish(st, w, p), runId)
  {
    hide PerformFinish, JobFits, RunOk;
    var v := PerformFinish(st, w, p);
    FinishLeavesRuns(st, w, p);
    if p in w.processes {
      assert PcFits(w, w.processes[p].pc) && !WorksOn(w.processes[p].pc, runId);
    }
    forall id | id in v.db.jobs && v.db.jobs[id].runId == runId ensures id in w.db.jobs && v.db.jobs[id] == w.db.jobs[id] {
      FinishTouchesOneJob(st, w, p, id);
    }
  }

  lemma FinishLeavesRuns(st: Settings, w: World, p: nat)
    ensures PerformFinish(st, w, p).db.runs == w.db.runs
    ensures forall q :: q in PerformFinish(st, w, p).processes ==>
      PerformFinish(st, w, p).processes[q].pc.Idle? || (q in w.processes && PerformFinish(st, w, p).processes[q] == w.processes[q])
  {
    hide Completed;
  }

  lemma ExecuteLeavesStranded(st: Settings, w: World, a: Action, runId: nat)
    requires Inv(st, w) && Stranded(w, runId) && a.Execute?
    ensures Untouched(w, Perform(st, w, a), runId)
  {
    hide PcFits, RunOk, JobOk, Timely, LastSequence;
    if a.id in w.db.jobs {
      assert JobFits(st, w, a.id);
    }
  }

  lemma CancelLeavesStranded(st: Settings, w: World, a: Action, runId: nat)
    requires Stranded(w, runId) && a.Cancel?
    ensures Untouched(w, Perform(st, w, a), runId)
  {
    hide LastSequence;
    if a.id in w.db.jobs && w.db.jobs[a.id].runId == runId {
      assert w.db.jobs[a.id].Terminal();
    }
  }

  /** The retry of any job of the run is refused, as the run has not failed. */
  lemma RetryLeavesStranded(st: Settings, w: World, a: Action, runId: nat)
    requires Stranded(w, runId) && a.Retry?
    ensures Untouched(w, Perform(st, w, a), runId)
  {
    hide LastSequence, ResultCount;
  }

  lemma ApiLeavesStranded(st: Settings, w: World, a: Action, runId: nat)
    requires Inv(st, w) && Stranded(w, runId)
    requires a.Tick? || a.SubmitRun? || a.Execute? || a.Cancel? || a.Retry? || a.Purge? || a.Launch?
    ensures Untouched(w, Perform(st, w, a), runId)
  {
    hide Inv, CancelJob, RetryFailed, PerformExecute;
    if a.Execute? {
      ExecuteLeavesStranded(st, w, a, runId);
    } else if a.Cancel? {
      CancelLeavesStranded(st, w, a, runId);
    } else if a.Retry? {
      RetryLeavesStranded(st, w, a, runId);
    }
  }

  lemma StepLeavesStranded(st: Settings, w: World, a: Action, runId: nat)
    requires Inv(st, w) && Stranded(w, runId)
    ensures Untouched(w, Perform(st, w, a), runId) && Stranded(Perform(st, w, a), runId)
  {
    hide Inv, PerformRecover, PerformClaim, PerformCheckpoint, PerformFinish, PerformBegin, PerformWrite, PerformMark;
    if a.Poll? {
      if a.p in w.processes && w.processes[a.p].pc.Idle? {
        RecoverLeavesStranded(st, w, runId);
        ClaimLeavesStranded(st, PerformRecover(st, w), a.p, runId);
      }
    } else if a.Checkpoint? {
      CheckpointLeavesStranded(st, w, a.p, runId);
    } else if a.Finish? {
      FinishLeavesStranded(st, w, a.p, runId);
    } else if a.Begin? || a.WriteResults? || a.MarkRunFailed? {
      RunStepsLeaveStranded(st, w, a, runId);
    } else if a.BreakEarly? || a.Work? || a.Break? || a.BreakMarking? {
      MovesLeaveStranded(st, w, a, runId);
    } else {
      ApiLeavesStranded(st, w, a, runId);
    }
  }

  lemma {:induction false} StrandedStays(st: Settings, w: World, later: seq<Action>, runId: nat)
    requires Inv(st, w) && Stranded(w, runId)
    ensures Untouched(w, After(st, w, later), runId) && Stranded(After(st, w, later), runId)
  {
    hide Inv, Perform;
    if later != [] {
      var before := later[..|later| - 1];
      StrandedStays(st, w, before, runId);
      AlwaysInv(st, w, before);
      StepLeavesStranded(st, After(st, w, before), later[|later| - 1], runId);
    }
  }

  /** Main result: a stranded run of a reachable world stays RUNNING, without results, along every
      continuation; its jobs are never claimed or retried again. */
  lemma StrandedForever(st: Settings, clock: int, actions: seq<Action>, later: seq<Action>, runId: nat)
    requires Stranded(After(st, Initial(clock), actions), runId)
    ensures var w := After(st, Initial(clock), actions);
      Untouched(w, After(st, w, later), runId) && w.db.runs[runId].batches == []
  {
    hide JobFits, PcFits, Perform;
    AlwaysInv(st, Initial(clock), actions);
    assert RunOk(After(st, Initial(clock), actions).db.runs[runId]);
    StrandedStays(st, After(st, Initial(clock), actions), later, runId);
  }

  lemma OneMore(st: Settings, w: World, actions: seq<Action>, a: Action)
    ensures After(st, w, actions + [a]) == Perform(st, After(st, w, actions), a)
  {
    assert (actions + [a])[..|actions|] == actions;
  }

  /** A claim with one claimable job takes it. */
  lemma SoleClaim(st: Settings, w: World, p: nat, id: nat)
    requires p in w.processes && w.db.jobs.Keys == {id} && Claimable(w.db.jobs[id], w.clock, w.processes[p].organization)
    ensures var job := Claimed(w.db.jobs[id], w.processes[p].worker, w.clock);
      PerformClaim(st, w, p)
      == World(Database(map[id := job], w.db.runs), w.processes[p := w.processes[p].(pc := Beginning(SnapshotOf(id, job)))],
               w.clock, w.usedIds)
  {
    assert ClaimableIds(w.db.jobs, w.clock, w.processes[p].organization) == {id};
    assert w.db.jobs[id := Claimed(w.db.jobs[id], w.processes[p].worker, w.clock)].Keys == {id};
  }

  /** A run queued for one attempt, and one idle process. */
  lemma QueuedRun(st: Settings) returns (actions: seq<Action>)
    ensures var w := After(st, Initial(0), actions);
      && w.clock == 0 && w.db.jobs == map[5 := NewJob(1, 1, Normal, 1, 30, 0, 0)]
      && w.db.runs == map[1 := Run(1, Pending, None, None, None, [], [])] && w.processes == map[0 := Process(7, None, Idle)]
  {
    var w0 := Initial(0);
    actions := [];
    assert After(st, w0, actions) == w0;
    hide After, LastSequence, Claimed, NextJob;
    OneMore(st, w0, actions, SubmitRun(1, 1));
    actions := actions + [SubmitRun(1, 1)];
    assert After(st, w0, actions).db == Database(map[], map[1 := Run(1, Pending, None, None, None, [], [])]);
    OneMore(st, w0, actions, Execute(5, 1, 1, Normal, 1, 30, 0));
    actions := actions + [Execute(5, 1, 1, Normal, 1, 30, 0)];
    OneMore(st, w0, actions, Launch(0, 7, None));
    actions := actions + [Launch(0, 7, None)];
  }

  /** The process has claimed the job, and begun the run. */
  lemma BegunRun(st: Settings) returns (actions: seq<Action>)
    ensures var w := After(st, Initial(0), actions);
      && w.clock == 0 && w.db.jobs == map[5 := Claimed(NewJob(1, 1, Normal, 1, 30, 0, 0), 7, 0)]
      && w.db.runs == map[1 := Run(1, RunningRun, Some(0), None, None, [], [])] && w.processes.Keys == {0}
  {
    hide After, LastSequence, NextJob;
    actions := QueuedRun(st);
    var w := After(st, Initial(0), actions);
    RecoverNothing(st, w);
    SoleClaim(st, w, 0, 5);
    OneMore(st, Initial(0), actions, Poll(0));
    actions := actions + [Poll(0)];
    OneMore(st, Initial(0), actions, Begin(0));
    actions := actions + [Begin(0)];
  }

  lemma RecoverNothing(st: Settings, w: World)
    requires forall id :: id in w.db.jobs ==> w.db.jobs[id].status.Queued?
    ensures PerformRecover(st, w) == w
  {
    assert PerformRecover(st, w).db.jobs == w.db.jobs;
  }

  /** Stranded runs are reached: a run with one attempt is begun, its worker crashes, and the next poll
      after the stale timeout fails the job. It cannot be retried. */
  lemma RunsGetStranded(st: Settings) returns (actions: seq<Action>)
    ensures var w := After(st, Initial(0), actions);
      && Stranded(w, 1) && 5 in w.db.jobs && w.db.jobs[5].runId == 1 && w.db.jobs[5].status.Failed?
      && forall cap: nat, at :: RetryFailed(w.db, 5, 1, cap, at).Err?
  {
    hide After;
    var w0 := Initial(0);
    actions := BegunRun(st);
    OneMore(st, w0, actions, Tick(st.staleTimeout));
    actions := actions + [Tick(st.staleTimeout)];
    OneMore(st, w0, actions, Launch(0, 7, None));
    actions := actions + [Launch(0, 7, None)];
    var w := After(st, w0, actions);
    var u := PerformRecover(st, w);
    assert u.db.jobs[5].status.Failed? && u.db.jobs.Keys == {5};
    assert ClaimableIds(u.db.jobs, u.clock, None) == {};
    OneMore(st, w0, actions, Poll(0));
    actions := actions + [Poll(0)];
  }
}
