/** Two bounds on runs of the protocol: a job changes status only so often, and a job that has
    waited long enough is overtaken only by jobs already ahead of it. */
module Progress {
  import opened Ordering
  import opened Jobs
  import opened JobHistory
  import opened Protocol
  import opened ExactlyOnce

  // Termination.

  lemma UsesUpTransitively(a: Job, b: Job, c: Job, cap: nat)
    requires UsesUp(a, b, cap) && UsesUp(b, c, cap)
    ensures UsesUp(a, c, cap)
  {
  }

  /** What the head transaction of `run_once` does to one job: perhaps recover it, then perhaps claim it. */
  lemma PollOfJob(st: Settings, w: World, p: nat, id: nat)
    requires id in w.db.jobs
    ensures id in PerformRecover(st, w).db.jobs && id in PerformPoll(st, w, p).db.jobs
    ensures var before, mid, after := w.db.jobs[id], PerformRecover(st, w).db.jobs[id], PerformPoll(st, w, p).db.jobs[id];
      && (mid == before || (before.Active() && mid == Recovered(before, w.clock)))
      && (after == before || after == mid
          || (mid.status.Queued? && p in w.processes && after == Claimed(mid, w.processes[p].worker, w.clock)))
    ensures PerformPoll(st, w, p).db.jobs.Keys == w.db.jobs.Keys
  {
    hide Recovered, Claimed, JobOk;
    if p in w.processes && w.processes[p].pc.Idle? {
      var u := PerformRecover(st, w);
      var next := NextJob(u.db.jobs, u.clock, u.processes[p].organization, st.aging);
      assert next == Some(id) ==> u.db.jobs[id].status.Queued?;
    }
  }

  lemma PollUsesUp(st: Settings, w: World, p: nat, id: nat)
    requires Inv(st, w) && id in w.db.jobs
    ensures id in PerformPoll(st, w, p).db.jobs
    ensures UsesUp(w.db.jobs[id], PerformPoll(st, w, p).db.jobs[id], st.maxManualRetries)
  {
    hide PerformPoll, PerformRecover, RunOk, PcFits;
    PollOfJob(st, w, p, id);
    RecoverStep(st, w);
    assert JobFits(st, w, id) && JobFits(st, PerformRecover(st, w), id);
    PollUsesUpJob(w.db.jobs[id], PerformRecover(st, w).db.jobs[id], PerformPoll(st, w, p).db.jobs[id],
                  if p in w.processes then w.processes[p].worker else 0, w.clock, st.maxManualRetries);
  }

  lemma PollUsesUpJob(before: Job, mid: Job, after: Job, worker: nat, at: int, cap: nat)
    requires JobOk(before) && JobOk(mid)
    requires mid == before || (before.Active() && mid == Recovered(before, at))
    requires after == before || after == mid || (mid.status.Queued? && after == Claimed(mid, worker, at))
    ensures UsesUp(before, after, cap)
  {
    hide Recovered, Claimed, JobOk;
    if mid != before {
      RecoverUsesUp(before, at, cap);
    }
    if after != before && after != mid {
      ClaimUsesUp(mid, worker, at, cap);
      UsesUpTransitively(before, mid, after, cap);
    }
  }

  /** What a checkpoint does to one job: nothing visible. */
  lemma CheckpointOfJob(w: World, p: nat, id: nat)
    requires id in w.db.jobs
    ensures id in PerformCheckpoint(w, p).db.jobs
    ensures var before, after := w.db.jobs[id], PerformCheckpoint(w, p).db.jobs[id];
      && after.status == before.status && after.attemptCount == before.attemptCount
      && after.totalAttemptCount == before.totalAttemptCount
      && after.manualRetryCount == before.manualRetryCount && after.maxAttempts == before.maxAttempts
      && (after == before || before.Active())
    ensures PerformCheckpoint(w, p).db.jobs.Keys == w.db.jobs.Keys
  {
    hide AfterRaise, LastSequence;
  }

  lemma CheckpointUsesUp(st: Settings, w: World, p: nat, id: nat)
    requires Inv(st, w) && id in w.db.jobs
    ensures id in PerformCheckpoint(w, p).db.jobs
    ensures UsesUp(w.db.jobs[id], PerformCheckpoint(w, p).db.jobs[id], st.maxManualRetries)
  {
    hide PerformCheckpoint, Inv;
    CheckpointOfJob(w, p, id);
  }

  lemma FinishUsesUp(st: Settings, w: World, p: nat, id: nat)
    requires Inv(st, w) && id in w.db.jobs
    ensures id in PerformFinish(st, w, p).db.jobs
    ensures UsesUp(w.db.jobs[id], PerformFinish(st, w, p).db.jobs[id], st.maxManualRetries)
  {
    var pc := At(w, p);
    assert JobFits(st, w, id);
    if pc.Finishing? && FinishingAnswer(st, w, pc.job, pc.ending).Ok? && pc.job.jobId == id {
      FinishedJobUsesUp(st, w, pc.job, pc.ending);
    }
  }

  lemma FinishedJobUsesUp(st: Settings, w: World, s: Snapshot, ending: Ending)
    requires FinishingAnswer(st, w, s, ending).Ok? && JobOk(w.db.jobs[s.jobId])
    ensures var jobs := FinishingAnswer(st, w, s, ending).value.jobs;
      s.jobId in jobs && UsesUp(w.db.jobs[s.jobId], jobs[s.jobId], st.maxManualRetries)
  {
    var job := w.db.jobs[s.jobId];
    var target := FinishingStatus(ending, job.status.CancelRequested?);
    CompleteUsesUp(job, target, w.clock, RetryTime(st, w, s, target), CodeFor(ending, target), st.maxManualRetries);
  }

  lemma CancelJobUsesUp(st: Settings, w: World, k: nat, organization: nat, id: nat)
    requires Inv(st, w) && id in w.db.jobs
    ensures var v := Commit(w, CancelJob(w.db, k, organization, w.clock));
      id in v.db.jobs && UsesUp(w.db.jobs[id], v.db.jobs[id], st.maxManualRetries)
  {
    assert JobFits(st, w, id);
    if k == id && CancelJob(w.db, k, organization, w.clock).Ok? {
      CancelUsesUp(w.db.jobs[id], w.clock, st.maxManualRetries);
    }
  }

  lemma RetryJobUsesUp(st: Settings, w: World, k: nat, organization: nat, id: nat)
    requires Inv(st, w) && id in w.db.jobs
    ensures var v := Commit(w, RetryFailed(w.db, k, organization, st.maxManualRetries, w.clock));
      id in v.db.jobs && UsesUp(w.db.jobs[id], v.db.jobs[id], st.maxManualRetries)
  {
    assert JobFits(st, w, id);
    if k == id && RetryFailed(w.db, k, organization, st.maxManualRetries, w.clock).Ok? {
      RequeueUsesUp(w.db.jobs[id], w.clock, st.maxManualRetries);
    }
  }

  /** The transactions on a run leave the jobs alone, */
  lemma RunStepsLeaveJobs(w: World, p: nat, batch: seq<nat>, raises: bool)
    ensures PerformBegin(w, p).db.jobs == w.db.jobs
    ensures PerformWrite(w, p, batch, raises).db.jobs == w.db.jobs
    ensures PerformMark(w, p).db.jobs == w.db.jobs
  {
    hide TransitionRun, AfterRaise, WithoutSuccess;
  }

  lemma ExecuteLeavesJobs(
      st: Settings, w: World, k: nat, organization: nat, runId: nat, priority: Priority, maxAttempts: nat,
      timeoutSeconds: nat, scheduledAt: int, id: nat)
    requires Inv(st, w)
    requires id in PerformExecute(w, k, organization, runId, priority, maxAttempts, timeoutSeconds, scheduledAt).db.jobs
    ensures var v := PerformExecute(w, k, organization, runId, priority, maxAttempts, timeoutSeconds, scheduledAt);
      if id in w.db.jobs then v.db.jobs[id] == w.db.jobs[id] else v.db.jobs[id].EligibleSince() >= w.clock
  {
    hide JobOk, RunOk, PcFits, Timely, LastSequence;
    if id in w.db.jobs {
      assert JobFits(st, w, id);
    }
  }

  /** and so do the remaining actions, as far as the jobs were there before. */
  lemma OthersLeaveJobs(st: Settings, w: World, a: Action, id: nat)
    requires Inv(st, w) && id in Perform(st, w, a).db.jobs
    requires !a.Cancel? && !a.Retry? && !a.Poll? && !a.Checkpoint? && !a.Finish?
    ensures id in w.db.jobs ==> Perform(st, w, a).db.jobs[id] == w.db.jobs[id]
    ensures id !in w.db.jobs ==> Perform(st, w, a).db.jobs[id].EligibleSince() >= w.clock
  {
    hide Inv, AfterRaise, PerformExecute, PerformBegin, PerformWrite, PerformMark;
    match a
    case Begin(p) => RunStepsLeaveJobs(w, p, [], false);
    case WriteResults(p, batch, raises) => RunStepsLeaveJobs(w, p, batch, raises);
    case MarkRunFailed(p) => RunStepsLeaveJobs(w, p, [], false);
    case Execute(k, organization, runId, priority, maxAttempts, timeoutSeconds, scheduledAt) =>
      ExecuteLeavesJobs(st, w, k, organization, runId, priority, maxAttempts, timeoutSeconds, scheduledAt, id);
    case _ =>
  }

  /** Every action leaves a surviving job with no more measure, and with less if it moved. */
  lemma PerformUsesUp(st: Settings, w: World, a: Action, id: nat)
    requires Inv(st, w) && id in w.db.jobs && id in Perform(st, w, a).db.jobs
    ensures UsesUp(w.db.jobs[id], Perform(st, w, a).db.jobs[id], st.maxManualRetries)
  {
    if a.Cancel? {
      CancelJobUsesUp(st, w, a.id, a.organization, id);
    } else if a.Retry? {
      RetryJobUsesUp(st, w, a.id, a.organization, id);
    } else if a.Poll? {
      PollUsesUp(st, w, a.p, id);
    } else if a.Checkpoint? {
      CheckpointUsesUp(st, w, a.p, id);
    } else if a.Finish? {
      FinishUsesUp(st, w, a.p, id);
    } else {
      OthersLeaveJobs(st, w, a, id);
    }
  }

  /** How many actions of a run moved the job. */
  ghost function MoveCount(st: Settings, w: World, actions: seq<Action>, id: nat): nat
  {
    if actions == [] then 0
    else
      var before := actions[..|actions| - 1];
      var u, v := After(st, w, before), After(st, w, actions);
      MoveCount(st, w, before, id)
      + if id in u.db.jobs && id in v.db.jobs && Moved(u.db.jobs[id], v.db.jobs[id]) then 1 else 0
  }

  lemma {:induction false} MovesUseUp(st: Settings, w: World, actions: seq<Action>, id: nat)
    requires Inv(st, w) && id in w.db.jobs && id in After(st, w, actions).db.jobs
    ensures MoveCount(st, w, actions, id) + Measure(After(st, w, actions).db.jobs[id], st.maxManualRetries)
      <= Measure(w.db.jobs[id], st.maxManualRetries)
  {
    if actions != [] {
      var before := actions[..|actions| - 1];
      var u := After(st, w, before);
      AlwaysInv(st, w, before);
      PerformKeepsInv(st, u, actions[|actions| - 1]);
      assert JobFits(st, w, id);
      assert id in u.db.jobs;
      MovesUseUp(st, w, before, id);
      PerformUsesUp(st, u, actions[|actions| - 1], id);
    }
  }

  lemma TimesIsMonotone(a: int, b: int, m: nat)
    requires a <= b
    ensures a * m <= b * m
  {
  }

  lemma MeasureAtMost(job: Job, cap: nat)
    requires JobOk(job) && job.manualRetryCount <= cap
    ensures Measure(job, cap) <= 4 * (cap * (job.maxAttempts + 1) + job.maxAttempts) + 3
  {
    TimesIsMonotone(cap - job.manualRetryCount, cap, job.maxAttempts + 1);
  }

  lemma MovesAreBoundedFrom(st: Settings, w: World, later: seq<Action>, id: nat)
    requires Inv(st, w) && id in w.db.jobs && id in After(st, w, later).db.jobs
    ensures MoveCount(st, w, later, id) <= Measure(w.db.jobs[id], st.maxManualRetries)
    ensures Measure(w.db.jobs[id], st.maxManualRetries)
      <= 4 * (st.maxManualRetries * (w.db.jobs[id].maxAttempts + 1) + w.db.jobs[id].maxAttempts) + 3
  {
    var v := After(st, w, later);
    AlwaysInv(st, w, later);
    MovesUseUp(st, w, later, id);
    assert JobFits(st, w, id) && JobFits(st, v, id);
    MeasureIsBounded(v.db.jobs[id], st.maxManualRetries);
    MeasureAtMost(w.db.jobs[id], st.maxManualRetries);
  }

  /** Main result: from any reachable world, a job that still exists has moved at most as often as
      the measure it started with, which its attempts and manual retries bound. */
  lemma MovesAreBounded(st: Settings, clock: int, actions: seq<Action>, later: seq<Action>, id: nat)
    requires var w := After(st, Initial(clock), actions); id in w.db.jobs && id in After(st, w, later).db.jobs
    ensures var w := After(st, Initial(clock), actions);
      var m := w.db.jobs[id].maxAttempts;
      MoveCount(st, w, later, id) <= 4 * (st.maxManualRetries * (m + 1) + m) + 3
  {
    AlwaysInv(st, Initial(clock), actions);
    MovesAreBoundedFrom(st, After(st, Initial(clock), actions), later, id);
  }

  // Starvation freedom.

  ghost predicate Waiting(w: World, id: nat)
  {
    id in w.db.jobs && w.db.jobs[id].status.Queued?
  }

  /** The job has waited twice the ageing period. */
  ghost predicate WaitedLong(st: Settings, w: World, id: nat)
  {
    Waiting(w, id) && w.db.jobs[id].EligibleSince() + 2 * st.aging <= w.clock
  }

  /** The queued jobs ahead of it by (eligible_since, created_at, id). */
  ghost function Ahead(w: World, id: nat): set<nat>
    requires id in w.db.jobs
  {
    set k | k in w.db.jobs && w.db.jobs[k].status.Queued? && KeyBefore(k, w.db.jobs[k], id, w.db.jobs[id])
  }

  /** A job as it stands was so before, or it (re-)enters the queue no earlier than now. */
  ghost predicate EntersBehind(w: World, k: nat, job: Job)
  {
    (k in w.db.jobs && w.db.jobs[k] == job) || (job.status.Queued? ==> job.EligibleSince() >= w.clock)
  }

  /** A queued job either was queued like this before, or (re-)enters no earlier than now. */
  lemma QueuedOrigin(st: Settings, w: World, a: Action, k: nat)
    requires Inv(st, w) && k in Perform(st, w, a).db.jobs
    ensures EntersBehind(w, k, Perform(st, w, a).db.jobs[k])
  {
    hide Inv, RetryFailed, CancelJob, PerformPoll, PerformCheckpoint, PerformFinish;
    match a
    case Poll(p) => PollOrigin(st, w, p, k);
    case Finish(p) => FinishOrigin(st, w, p, k);
    case Checkpoint(p) => CheckpointOrigin(w, p, k);
    case Cancel(id, organization) => CancelOrigin(w, id, organization, k);
    case Retry(id, organization) => RetryOrigin(st, w, id, organization, k);
    case _ => OthersLeaveJobs(st, w, a, k);
  }

  lemma PollOrigin(st: Settings, w: World, p: nat, k: nat)
    requires k in PerformPoll(st, w, p).db.jobs
    ensures EntersBehind(w, k, PerformPoll(st, w, p).db.jobs[k])
  {
    PollKeepsKeys(st, w, p);
    PollOfJob(st, w, p, k);
  }

  lemma PollKeepsKeys(st: Settings, w: World, p: nat)
    ensures PerformPoll(st, w, p).db.jobs.Keys == w.db.jobs.Keys
  {
    hide Recovered, Claimed;
  }

  lemma FinishOrigin(st: Settings, w: World, p: nat, k: nat)
    requires k in PerformFinish(st, w, p).db.jobs
    ensures EntersBehind(w, k, PerformFinish(st, w, p).db.jobs[k])
  {
  }

  lemma CheckpointOrigin(w: World, p: nat, k: nat)
    requires k in PerformCheckpoint(w, p).db.jobs
    ensures EntersBehind(w, k, PerformCheckpoint(w, p).db.jobs[k])
  {
  }

  lemma CancelOrigin(w: World, id: nat, organization: nat, k: nat)
    requires k in Commit(w, CancelJob(w.db, id, organization, w.clock)).db.jobs
    ensures EntersBehind(w, k, Commit(w, CancelJob(w.db, id, organization, w.clock)).db.jobs[k])
  {
  }

  lemma RetryOrigin(st: Settings, w: World, id: nat, organization: nat, k: nat)
    requires k in Commit(w, RetryFailed(w.db, id, organization, st.maxManualRetries, w.clock)).db.jobs
    ensures EntersBehind(w, k, Commit(w, RetryFailed(w.db, id, organization, st.maxManualRetries, w.clock)).db.jobs[k])
  {
  }

  /** While a job waits long, no action puts another job ahead of it. */
  lemma NobodyOvertakes(st: Settings, w: World, a: Action, id: nat)
    requires st.aging >= 30 && Inv(st, w) && WaitedLong(st, w, id) && Waiting(Perform(st, w, a), id)
    ensures Perform(st, w, a).db.jobs[id] == w.db.jobs[id]
    ensures Ahead(Perform(st, w, a), id) <= Ahead(w, id)
  {
    var v := Perform(st, w, a);
    StillQueuedIsUnchanged(st, w, a, id);
    forall k | k in Ahead(v, id) ensures k in Ahead(w, id) {
      QueuedOrigin(st, w, a, k);
    }
  }

  /** A queued job that is still queued after an action is as it was. */
  lemma StillQueuedIsUnchanged(st: Settings, w: World, a: Action, id: nat)
    requires Inv(st, w) && Waiting(w, id) && Waiting(Perform(st, w, a), id)
    ensures Perform(st, w, a).db.jobs[id] == w.db.jobs[id]
  {
    hide Inv, PerformPoll, PerformCheckpoint, PerformFinish, PerformBegin, PerformWrite, PerformMark;
    if a.Poll? {
      PollLeavesQueued(st, w, a.p, id);
    } else if a.Finish? {
      FinishLeavesQueued(st, w, a.p, id);
    } else if a.Checkpoint? {
      CheckpointLeavesQueued(w, a.p, id);
    } else if !a.Cancel? && !a.Retry? {
      OthersLeaveJobs(st, w, a, id);
    }
  }

  lemma PollLeavesQueued(st: Settings, w: World, p: nat, id: nat)
    requires Waiting(w, id) && Waiting(PerformPoll(st, w, p), id)
    ensures PerformPoll(st, w, p).db.jobs[id] == w.db.jobs[id]
  {
    hide PerformPoll, PerformRecover, Recovered;
    PollOfJob(st, w, p, id);
  }

  lemma FinishLeavesQueued(st: Settings, w: World, p: nat, id: nat)
    requires Waiting(w, id)
    ensures id in PerformFinish(st, w, p).db.jobs && PerformFinish(st, w, p).db.jobs[id] == w.db.jobs[id]
  {
  }

  lemma CheckpointLeavesQueued(w: World, p: nat, id: nat)
    requires Waiting(w, id)
    ensures id in PerformCheckpoint(w, p).db.jobs && PerformCheckpoint(w, p).db.jobs[id] == w.db.jobs[id]
  {
    hide PerformCheckpoint;
    CheckpointOfJob(w, p, id);
  }

  /** This action is a claim by an idle worker that serves the job's organization. */
  ghost predicate ClaimsFor(w: World, a: Action, id: nat)
    requires id in w.db.jobs
  {
    && a.Poll? && a.p in w.processes && w.processes[a.p].pc.Idle?
    && var served := w.processes[a.p].organization;
       served.Some? ==> served.value == w.db.jobs[id].organization
  }

  /** A long-waiting job has the top priority, whatever it was submitted with. */
  lemma LongWaitIsTopPriority(st: Settings, w: World, id: nat)
    requires WaitedLong(st, w, id)
    ensures EffectivePriority(w.db.jobs[id], w.clock, st.aging) == 2
  {
  }

  /** What the queue hands out is the job itself or one ahead of it. */
  lemma NextIsAhead(st: Settings, u: World, served: Option<nat>, id: nat)
    requires Inv(st, u) && WaitedLong(st, u, id)
    requires served.Some? ==> served.value == u.db.jobs[id].organization
    ensures var next := NextJob(u.db.jobs, u.clock, served, st.aging);
      next.Some? && next.value in u.db.jobs && u.db.jobs[next.value].status.Queued?
      && (next.value == id || KeyBefore(next.value, u.db.jobs[next.value], id, u.db.jobs[id]))
  {
    assert JobFits(st, u, id);
    assert id in ClaimableIds(u.db.jobs, u.clock, served);
    LongWaitIsTopPriority(st, u, id);
  }

  /** Every claim that could take the job takes it or one ahead of it, which then is ahead no more. */
  lemma ClaimTakesFromTheFront(st: Settings, w: World, a: Action, id: nat)
    requires st.aging >= 30 && Inv(st, w) && WaitedLong(st, w, id) && ClaimsFor(w, a, id)
    ensures Waiting(Perform(st, w, a), id) ==> exists k :: k in Ahead(w, id) && k !in Ahead(Perform(st, w, a), id)
  {
    var u, served := PerformRecover(st, w), w.processes[a.p].organization;
    RecoverStep(st, w);
    NextIsAhead(st, u, served, id);
    var k := NextJob(u.db.jobs, w.clock, served, st.aging).value;
    if Waiting(Perform(st, w, a), id) {
      ClaimedLeavesQueue(st, w, a.p, k, id);
    }
  }

  lemma ClaimedLeavesQueue(st: Settings, w: World, p: nat, k: nat, id: nat)
    requires st.aging >= 30 && WaitedLong(st, w, id) && p in w.processes && w.processes[p].pc.Idle?
    requires Waiting(PerformPoll(st, w, p), id)
    requires var u := PerformRecover(st, w);
      && NextJob(u.db.jobs, w.clock, w.processes[p].organization, st.aging) == Some(k)
      && k in u.db.jobs && u.db.jobs[k].status.Queued?
      && (k == id || KeyBefore(k, u.db.jobs[k], id, u.db.jobs[id]))
    ensures k in Ahead(w, id) && k !in Ahead(PerformPoll(st, w, p), id)
  {
    var u, v := PerformRecover(st, w), PerformPoll(st, w, p);
    assert v.db.jobs[k].status.Running?;
    assert u.db.jobs[id] == w.db.jobs[id];
    assert u.db.jobs[k] == w.db.jobs[k] || u.db.jobs[k].EligibleSince() == w.clock;
  }

  /** How many actions of a run were claims that could have taken the job. */
  ghost function ClaimCount(st: Settings, w: World, actions: seq<Action>, id: nat): nat
  {
    if actions == [] then 0
    else
      var before := actions[..|actions| - 1];
      var u := After(st, w, before);
      ClaimCount(st, w, before, id)
      + if id in u.db.jobs && ClaimsFor(u, actions[|actions| - 1], id) then 1 else 0
  }

  lemma {:induction false} ClaimsUseUpAhead(st: Settings, w: World, actions: seq<Action>, id: nat)
    requires st.aging >= 30 && Inv(st, w) && WaitedLong(st, w, id)
    requires forall i :: 0 <= i <= |actions| ==> Waiting(After(st, w, actions[..i]), id)
    ensures Inv(st, After(st, w, actions)) && WaitedLong(st, After(st, w, actions), id)
    ensures ClaimCount(st, w, actions, id) + |Ahead(After(st, w, actions), id)| <= |Ahead(w, id)|
  {
    hide Inv, Perform, Ahead, ClaimsFor;
    if actions != [] {
      var n := |actions| - 1;
      var before, last := actions[..n], actions[n];
      var u := After(st, w, before);
      forall i | 0 <= i <= n ensures Waiting(After(st, w, before[..i]), id) {
        assert before[..i] == actions[..i];
      }
      ClaimsUseUpAhead(st, w, before, id);
      assert actions[..|actions|] == actions;
      assert Waiting(Perform(st, u, last), id);
      PerformKeepsInv(st, u, last);
      NobodyOvertakes(st, u, last, id);
      var ahead, left := Ahead(u, id), Ahead(Perform(st, u, last), id);
      SubsetSize(left, ahead);
      if ClaimsFor(u, last, id) {
        ClaimTakesFromTheFront(st, u, last, id);
        var k :| k in ahead && k !in left;
        SubsetSize(left, ahead - {k});
      }
    }
  }

  lemma {:induction false} SubsetSize(a: set<nat>, b: set<nat>)
    requires a <= b
    ensures |a| <= |b|
    decreases a
  {
    if x :| x in a {
      SubsetSize(a - {x}, b - {x});
    }
  }

  /** Main result: once a queued job of a reachable world has waited twice the ageing period, as long
      as it stays queued the claims that could have taken it number at most the jobs ahead of it then. */
  lemma NoStarvation(st: Settings, clock: int, actions: seq<Action>, later: seq<Action>, id: nat)
    requires st.aging >= 30
    requires var w := After(st, Initial(clock), actions);
      && WaitedLong(st, w, id)
      && forall i :: 0 <= i <= |later| ==> Waiting(After(st, w, later[..i]), id)
    ensures var w := After(st, Initial(clock), actions);
      ClaimCount(st, w, later, id) <= |Ahead(w, id)|
  {
    AlwaysInv(st, Initial(clock), actions);
    ClaimsUseUpAhead(st, After(st, Initial(clock), actions), later, id);
  }
}
