/** Bounded retention cleanup: batch by batch it removes exactly the expired terminal jobs. */
module Retention {
  import opened Ordering
  import opened Jobs
  import opened JobHistory
  import opened Protocol
  import opened ExactlyOnce

  /** The cutoff of each terminal status. */
  datatype Cutoffs = Cutoffs(succeeded: int, failed: int, cancelled: int)

  /** `_retention_conditions`. */
  predicate Expired(job: Job, c: Cutoffs)
  {
    match job.status
    case Succeeded => job.completedAt.Some? && job.completedAt.value <= c.succeeded
    case Failed => job.completedAt.Some? && job.completedAt.value <= c.failed
    case Cancelled => (job.completedAt.Some? && job.completedAt.value <= c.cancelled) || RetentionFallback(job, c.cancelled)
    case _ => false
  }

  function ExpiredIds(jobs: map<nat, Job>, c: Cutoffs): set<nat>
  {
    set id | id in jobs && Expired(jobs[id], c)
  }

  datatype WorkerState = Up | Stopped

  datatype WorkerRow = WorkerRow(state: WorkerState, heartbeatAt: int, stoppedAt: Option<int>)

  /** `WorkerRepository._retention_condition`. */
  predicate WorkerExpired(row: WorkerRow, cutoff: int)
  {
    match row.state
    case Stopped => row.stoppedAt.Some? && row.stoppedAt.value <= cutoff
    case Up => row.heartbeatAt <= cutoff
  }

  function ExpiredWorkers(workers: map<nat, WorkerRow>, cutoff: int): set<nat>
  {
    set id | id in workers && WorkerExpired(workers[id], cutoff)
  }

  // Bounded batches of either table, by the stamp its ORDER BY names.

  function CompletionStamps(jobs: map<nat, Job>): map<nat, Option<int>>
  {
    map id | id in jobs :: jobs[id].completedAt
  }

  function HeartbeatStamps(workers: map<nat, WorkerRow>): map<nat, Option<int>>
  {
    map id | id in workers :: Some(workers[id].heartbeatAt)
  }

  /** ORDER BY stamp, id; a missing stamp sorts first. */
  predicate DeletedBefore(a: nat, s: Option<int>, b: nat, t: Option<int>)
  {
    match (s, t)
    case (None, None) => a < b
    case (None, Some(_)) => true
    case (Some(_), None) => false
    case (Some(m), Some(n)) => m < n || (m == n && a < b)
  }

  /** batch is what ORDER BY ... LIMIT n selects from ids. */
  predicate Batch(stamps: map<nat, Option<int>>, ids: set<nat>, n: nat, batch: set<nat>)
    requires ids <= stamps.Keys
  {
    && batch <= ids
    && |batch| == (if |ids| < n then |ids| else n)
    && forall a, b :: a in batch && b in ids && b !in batch ==> DeletedBefore(a, stamps[a], b, stamps[b])
  }

  ghost predicate Earliest(stamps: map<nat, Option<int>>, ids: set<nat>, id: nat)
    requires ids <= stamps.Keys
  {
    id in ids && forall b :: b in ids && b != id ==> DeletedBefore(id, stamps[id], b, stamps[b])
  }

  lemma DeletedBeforeIsStrictOrder(a: nat, s: Option<int>, b: nat, t: Option<int>, c: nat, u: Option<int>)
    ensures a != b ==> DeletedBefore(a, s, b, t) || DeletedBefore(b, t, a, s)
    ensures DeletedBefore(a, s, b, t) && DeletedBefore(b, t, c, u) ==> DeletedBefore(a, s, c, u)
  {
  }

  lemma {:induction false} EarliestExists(stamps: map<nat, Option<int>>, ids: set<nat>) returns (id: nat)
    requires ids <= stamps.Keys && ids != {}
    ensures Earliest(stamps, ids, id)
    decreases ids
  {
    var some :| some in ids;
    id := some;
    if ids != {some} {
      var rest := EarliestExists(stamps, ids - {some});
      id := if DeletedBefore(some, stamps[some], rest, stamps[rest]) then some else rest;
      forall b | b in ids && b != id ensures DeletedBefore(id, stamps[id], b, stamps[b]) {
        DeletedBeforeIsStrictOrder(some, stamps[some], rest, stamps[rest], b, stamps[b]);
        DeletedBeforeIsStrictOrder(rest, stamps[rest], some, stamps[some], b, stamps[b]);
      }
    }
  }

  lemma {:induction false} BatchExists(stamps: map<nat, Option<int>>, ids: set<nat>, n: nat)
    requires ids <= stamps.Keys
    ensures exists batch :: Batch(stamps, ids, n, batch)
    decreases n
  {
    if n == 0 || ids == {} {
      assert Batch(stamps, ids, n, {});
    } else {
      var id := EarliestExists(stamps, ids);
      BatchExists(stamps, ids - {id}, n - 1);
      var rest :| Batch(stamps, ids - {id}, n - 1, rest);
      assert Batch(stamps, ids, n, rest + {id});
    }
  }

  /** One more batch of what is expired: a full one makes progress, one that is not full was the last. */
  lemma BatchAdvances(expired: set<nat>, gone: set<nat>, batch: set<nat>, n: nat)
    requires gone <= expired && batch <= expired - gone && n >= 1
    requires |batch| == (if |expired - gone| < n then |expired - gone| else n)
    ensures |gone + batch| == |gone| + |batch|
    ensures |batch| < n ==> gone + batch == expired
    ensures |batch| >= n ==> |expired - (gone + batch)| < |expired - gone|
  {
    var left := expired - gone;
    assert left == batch + (left - batch);
    assert |left| == |batch| + |left - batch|;
    assert expired - (gone + batch) == left - batch;
    if |batch| < n {
      assert left - batch == {};
    }
  }

  /** What remains expired after a batch is gone. */
  lemma ExpiredAfterDelete(jobs: map<nat, Job>, c: Cutoffs, gone: set<nat>)
    ensures ExpiredIds(jobs - gone, c) == ExpiredIds(jobs, c) - gone
  {
  }

  lemma ExpiredWorkersAfterDelete(workers: map<nat, WorkerRow>, cutoff: int, gone: set<nat>)
    ensures ExpiredWorkers(workers - gone, cutoff) == ExpiredWorkers(workers, cutoff) - gone
  {
  }

  datatype CleanupResult = CleanupResult(
    eligibleJobs: nat,
    deletedJobs: nat,
    eligibleWorkers: nat,
    deletedWorkers: nat,
    dryRun: bool)

  /** No expired job that stays was over before one that goes. */
  ghost predicate OldestJobs(jobs: map<nat, Job>, c: Cutoffs, batch: set<nat>)
  {
    forall a, b :: a in batch && a in jobs && b in ExpiredIds(jobs, c) - batch && jobs[a].completedAt.Some? ==>
      && jobs[b].completedAt.Some? && jobs[a].completedAt.value <= jobs[b].completedAt.value
      && (jobs[a].completedAt == jobs[b].completedAt ==> a < b)
  }

  lemma BatchHasOldestJobs(jobs: map<nat, Job>, c: Cutoffs, n: nat, batch: set<nat>)
    requires Batch(CompletionStamps(jobs), ExpiredIds(jobs, c), n, batch)
    ensures OldestJobs(jobs, c, batch)
  {
    var stamps := CompletionStamps(jobs);
    forall a, b | a in batch && b in ExpiredIds(jobs, c) - batch ensures DeletedBefore(a, stamps[a], b, stamps[b]) {
    }
  }

  /** No expired worker that stays was heard of before one that goes. */
  ghost predicate OldestWorkers(workers: map<nat, WorkerRow>, cutoff: int, batch: set<nat>)
  {
    forall a, b :: a in batch && a in workers && b in ExpiredWorkers(workers, cutoff) - batch ==>
      && workers[a].heartbeatAt <= workers[b].heartbeatAt
      && (workers[a].heartbeatAt == workers[b].heartbeatAt ==> a < b)
  }

  lemma BatchHasOldestWorkers(workers: map<nat, WorkerRow>, cutoff: int, n: nat, batch: set<nat>)
    requires Batch(HeartbeatStamps(workers), ExpiredWorkers(workers, cutoff), n, batch)
    ensures OldestWorkers(workers, cutoff, batch)
  {
    var stamps := HeartbeatStamps(workers);
    forall a, b | a in batch && b in ExpiredWorkers(workers, cutoff) - batch ensures DeletedBefore(a, stamps[a], b, stamps[b]) {
    }
  }

  class RetentionCleanup {
    var jobs: map<nat, Job>
    var workers: map<nat, WorkerRow>
    var runs: map<nat, Run>
    const batchSize: nat

    ghost predicate Valid()
    {
      batchSize >= 1
    }

    /** Refuses a batch size below one. */
    constructor (jobs: map<nat, Job>, workers: map<nat, WorkerRow>, runs: map<nat, Run>, batchSize: nat)
      requires batchSize >= 1
      ensures Valid() && this.jobs == jobs && this.workers == workers && this.runs == runs && this.batchSize == batchSize
    {
      this.jobs, this.workers, this.runs, this.batchSize := jobs, workers, runs, batchSize;
    }

    /** `delete_expired_terminal`: one bounded batch, oldest first; a job takes its events along. */
    method DeleteExpiredTerminal(c: Cutoffs, limit: nat) returns (answer: Answer<nat>, ghost batch: set<nat>)
      modifies this`jobs
      ensures answer.Err? <==> limit < 1
      ensures answer.Err? ==> answer.error == BadValue && jobs == old(jobs)
      ensures answer.Ok? ==>
        && Batch(CompletionStamps(old(jobs)), ExpiredIds(old(jobs), c), limit, batch)
        && jobs == old(jobs) - batch && answer.value == |batch|
      ensures answer.Ok? ==> OldestJobs(old(jobs), c, batch)
    {
      batch := {};
      if limit < 1 {
        return Err(BadValue), batch;
      }
      var ids := ExpiredIds(jobs, c);
      BatchExists(CompletionStamps(jobs), ids, limit);
      var chosen :| chosen <= ids && Batch(CompletionStamps(jobs), ids, limit, chosen);
      BatchHasOldestJobs(jobs, c, limit, chosen);
      hide Batch, OldestJobs;
      jobs := jobs - chosen;
      return Ok(|chosen|), chosen;
    }

    /** `delete_expired` of the worker table. */
    method DeleteExpiredWorkers(cutoff: int, limit: nat) returns (answer: Answer<nat>, ghost batch: set<nat>)
      modifies this`workers
      ensures answer.Err? <==> limit < 1
      ensures answer.Err? ==> answer.error == BadValue && workers == old(workers)
      ensures answer.Ok? ==>
        && Batch(HeartbeatStamps(old(workers)), ExpiredWorkers(old(workers), cutoff), limit, batch)
        && workers == old(workers) - batch && answer.value == |batch|
      ensures answer.Ok? ==> OldestWorkers(old(workers), cutoff, batch)
    {
      batch := {};
      if limit < 1 {
        return Err(BadValue), batch;
      }
      var ids := ExpiredWorkers(workers, cutoff);
      BatchExists(HeartbeatStamps(workers), ids, limit);
      var chosen :| chosen <= ids && Batch(HeartbeatStamps(workers), ids, limit, chosen);
      BatchHasOldestWorkers(workers, cutoff, limit, chosen);
      hide Batch, OldestWorkers;
      workers := workers - chosen;
      return Ok(|chosen|), chosen;
    }

    /** `_delete_jobs`: repeats until a batch is not full. */
    method DeleteJobs(c: Cutoffs) returns (total: nat)
      requires Valid()
      modifies this`jobs
      ensures jobs == old(jobs) - ExpiredIds(old(jobs), c)
      ensures total == |ExpiredIds(old(jobs), c)|
    {
      total := 0;
      ghost var gone: set<nat> := {};
      while true
        invariant gone <= ExpiredIds(old(jobs), c)
        invariant jobs == old(jobs) - gone
        invariant total == |gone|
        decreases |ExpiredIds(old(jobs), c) - gone|
      {
        ExpiredAfterDelete(old(jobs), c, gone);
        var answer, batch := DeleteExpiredTerminal(c, batchSize);
        var deleted := answer.value;
        BatchAdvances(ExpiredIds(old(jobs), c), gone, batch, batchSize);
        assert old(jobs) - gone - batch == old(jobs) - (gone + batch);
        gone := gone + batch;
        total := total + deleted;
        if deleted < batchSize {
          return;
        }
      }
    }

    /** `_delete_workers`. */
    method DeleteWorkers(cutoff: int) returns (total: nat)
      requires Valid()
      modifies this`workers
      ensures workers == old(workers) - ExpiredWorkers(old(workers), cutoff)
      ensures total == |ExpiredWorkers(old(workers), cutoff)|
      ensures forall id :: id in old(workers) ==>
        var row := old(workers)[id];
        id !in workers <==>
          if row.state == Stopped then row.stoppedAt != None && row.stoppedAt.value <= cutoff else row.heartbeatAt <= cutoff
    {
      total := 0;
      ghost var gone: set<nat> := {};
      while true
        invariant gone <= ExpiredWorkers(old(workers), cutoff)
        invariant workers == old(workers) - gone
        invariant total == |gone|
        decreases |ExpiredWorkers(old(workers), cutoff) - gone|
      {
        ExpiredWorkersAfterDelete(old(workers), cutoff, gone);
        var answer, batch := DeleteExpiredWorkers(cutoff, batchSize);
        var deleted := answer.value;
        BatchAdvances(ExpiredWorkers(old(workers), cutoff), gone, batch, batchSize);
        assert old(workers) - gone - batch == old(workers) - (gone + batch);
        gone := gone + batch;
        total := total + deleted;
        if deleted < batchSize {
          return;
        }
      }
    }

    /** `run`: what it deletes is what it measured at the start, and no more. */
    method Run(c: Cutoffs, workerCutoff: int, dryRun: bool) returns (result: CleanupResult)
      requires Valid()
      modifies this`jobs, this`workers
      ensures result.eligibleJobs == |ExpiredIds(old(jobs), c)| && result.dryRun == dryRun
      ensures result.eligibleWorkers == |ExpiredWorkers(old(workers), workerCutoff)|
      ensures result.deletedJobs == if dryRun then 0 else result.eligibleJobs
      ensures result.deletedWorkers == if dryRun then 0 else result.eligibleWorkers
      ensures jobs == if dryRun then old(jobs) else old(jobs) - ExpiredIds(old(jobs), c)
      ensures workers == if dryRun then old(workers) else old(workers) - ExpiredWorkers(old(workers), workerCutoff)
    {
      var eligibleJobs := |ExpiredIds(jobs, c)|;
      var eligibleWorkers := |ExpiredWorkers(workers, workerCutoff)|;
      if dryRun {
        return CleanupResult(eligibleJobs, 0, eligibleWorkers, 0, true);
      }
      var deletedJobs := DeleteJobs(c);
      var deletedWorkers := DeleteWorkers(workerCutoff);
      return CleanupResult(eligibleJobs, deletedJobs, eligibleWorkers, deletedWorkers, false);
    }
  }

  function CutoffFor(status: Status, c: Cutoffs): Option<int>
  {
    match status
    case Succeeded => Some(c.succeeded)
    case Failed => Some(c.failed)
    case Cancelled => Some(c.cancelled)
    case _ => None
  }

  lemma PurgeTakesExpired(st: Settings, w: World, c: Cutoffs)
    ensures Perform(st, w, Purge(ExpiredIds(w.db.jobs, c)))
      == w.(db := w.db.(jobs := w.db.jobs - ExpiredIds(w.db.jobs, c)))
  {
    assert forall id :: id in ExpiredIds(w.db.jobs, c) ==> w.db.jobs[id].Terminal();
  }

  lemma ExpiredIsFinished(st: Settings, job: Job, c: Cutoffs)
    requires WellKept(st, job, c.cancelled)
    ensures Expired(job, c) <==> Finished(job, c)
  {
    hide Replay;
  }

  /** Main result: cleaning up a reachable database is one purge of the protocol, so whatever holds of
      every run of the protocol holds with cleanups in between; and it removes exactly the terminal jobs
      whose completion stamp has reached the cutoff of their status. */
  lemma CleanupOfReachable(st: Settings, clock: int, actions: seq<Action>, c: Cutoffs)
    ensures var w := After(st, Initial(clock), actions);
      var v := After(st, Initial(clock), actions + [Purge(ExpiredIds(w.db.jobs, c))]);
      && v == w.(db := w.db.(jobs := w.db.jobs - ExpiredIds(w.db.jobs, c)))
      && forall id :: id in ExpiredIds(w.db.jobs, c) <==> id in w.db.jobs && Finished(w.db.jobs[id], c)
  {
    hide Inv, WellKept, Expired, Finished, Perform;
    var w := After(st, Initial(clock), actions);
    var ids := ExpiredIds(w.db.jobs, c);
    var all := actions + [Purge(ids)];
    assert all[..|all| - 1] == actions;
    PurgeTakesExpired(st, w, c);
    AlwaysInv(st, Initial(clock), actions);
    forall id | id in w.db.jobs ensures Expired(w.db.jobs[id], c) <==> Finished(w.db.jobs[id], c) {
      JobFacts(st, w, id, c.cancelled);
      ExpiredIsFinished(st, w.db.jobs[id], c);
    }
  }

  predicate Finished(job: Job, c: Cutoffs)
  {
    var cutoff := CutoffFor(job.status, c);
    job.completedAt.Some? && cutoff.Some? && job.completedAt.value <= cutoff.value
  }
}
