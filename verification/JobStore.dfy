/** The repositories as they run: tables updated in place, each method proved to do what its
    transaction says. */
module JobStore {
  import opened Ordering
  import opened Jobs
  import opened ClaimOrder

  /** What a refused or granted transaction leaves behind. */
  ghost predicate Carries(before: Database, answer: Answer<Database>, refusal: Option<Error>, after: Database)
  {
    match answer
    case Ok(db) => refusal == None && after == db
    case Err(e) => refusal == Some(e) && after == before
  }

  /** At most this job was added or changed. */
  ghost predicate OnlyJob(before: map<nat, Job>, after: map<nat, Job>, id: nat)
  {
    after.Keys == before.Keys + {id} && forall other :: other in before && other != id ==> after[other] == before[other]
  }

  /** Queued, never tried. */
  ghost predicate Fresh(job: Job)
  {
    && job.status == Queued && job.progress == 0
    && job.attemptCount == job.totalAttemptCount == job.manualRetryCount == 0
    && job.startedAt == job.completedAt == job.deadlineAt == job.cancellationRequestedAt == job.retryAt == None
    && job.heartbeatAt == None && job.claimedBy == None && job.failureCode == None
  }

  /** A job in a worker's hands that has not been heard of since the cutoff: cancelled if that was asked for,
      else queued again while attempts are left, else failed. Every other job stays as it was. */
  ghost predicate Resolved(was: Job, now: Job, cutoff: int, at: int)
  {
    if (was.status == Running || was.status == CancelRequested) && was.heartbeatAt.Some? && was.heartbeatAt.value <= cutoff
    then now == (
      if was.status == CancelRequested then was.(status := Cancelled, completedAt := Some(at))
      else if was.attemptCount < was.maxAttempts then was.(status := Queued, retryAt := Some(at), startedAt := None)
      else was.(status := Failed, completedAt := Some(at), failureCode := Some(WorkerInterrupted))
      ).(claimedBy := None, heartbeatAt := None, deadlineAt := None).Log(JobRecovered, at)
    else now == was
  }

  /** The lease is given up; a failure with a retry time queues the job again, anything else is final. */
  ghost predicate Ended(was: Job, now: Job, target: Status, at: int, retryAt: Option<int>, code: Option<FailureCode>)
  {
    var free := was.(claimedBy := None, heartbeatAt := None, deadlineAt := None);
    match target
    case Succeeded => now == free.(status := Succeeded, progress := 100, completedAt := Some(at)).Log(JobSucceeded, at)
    case Cancelled => now == free.(status := Cancelled, completedAt := Some(at)).Log(JobCancelled, at)
    case Failed =>
      if retryAt.Some? then now == free.(status := Queued, retryAt := retryAt, failureCode := code).Log(JobRetryScheduled, at)
      else now == free.(status := Failed, completedAt := Some(at), failureCode := code)
                      .Log(if code == Some(JobTimeout) then JobTimedOut else JobFailed, at)
    case _ => false
  }

  lemma RecoveryResolves(was: Job, cutoff: int, at: int)
    ensures Resolved(was, if Stale(was, cutoff) then Recovered(was, at) else was, cutoff, at)
  {
  }

  lemma CompletionEnds(was: Job, target: Status, at: int, retryAt: Option<int>, code: Option<FailureCode>)
    requires Completed(was, target, at, retryAt, code).Ok?
    ensures Ended(was, Completed(was, target, at, retryAt, code).value, target, at, retryAt, code)
  {
  }

  class JobRepository {
    var jobs: map<nat, Job>
    var runs: map<nat, Run>

    constructor ()
      ensures View() == Database(map[], map[])
    {
      jobs, runs := map[], map[];
    }

    ghost function View(): Database
      reads this
    {
      Database(jobs, runs)
    }

    /** `_append_event`: the sequence number is one past the largest. */
    method AppendEvent(id: nat, kind: EventKind, at: int)
      requires id in jobs
      modifies this`jobs
      ensures jobs == old(jobs)[id := old(jobs[id]).Log(kind, at)]
    {
      var sequence := LastSequence(jobs[id].events) + 1;
      var event := Event(sequence, kind, jobs[id].status, at);
      jobs := jobs[id := jobs[id].(events := jobs[id].events + [event])];
    }

    method Create(
        id: nat, organization: nat, runId: nat, priority: Priority, maxAttempts: nat, timeoutSeconds: nat,
        scheduledAt: int, now: int) returns (refusal: Option<Error>)
      modifies this`jobs
      ensures Carries(old(View()),
        CreateJob(old(View()), id, organization, runId, priority, maxAttempts, timeoutSeconds, scheduledAt, now),
        refusal, View())
      ensures refusal == if maxAttempts < 1 || timeoutSeconds < 30 then Some(BadValue)
        else if runId !in runs || runs[runId].organization != organization then Some(NotFound)
        else if exists other :: other in old(jobs) && old(jobs)[other].runId == runId then Some(Conflict)
        else None
      ensures refusal.Some? ==> jobs == old(jobs)
      ensures refusal.None? ==> OnlyJob(old(jobs), jobs, id) && Fresh(jobs[id]) && jobs[id].events == [Event(1, JobQueued, Queued, now)]
      ensures refusal.None? ==> (
        && jobs[id].organization == organization && jobs[id].runId == runId && jobs[id].priority == priority
        && jobs[id].maxAttempts == maxAttempts && jobs[id].timeoutSeconds == timeoutSeconds
        && jobs[id].createdAt == now && jobs[id].scheduledAt == scheduledAt)
    {
      if maxAttempts < 1 || timeoutSeconds < 30 {
        return Some(BadValue);
      }
      if runId !in runs || runs[runId].organization != organization {
        return Some(NotFound);
      }
      if exists other :: other in jobs && jobs[other].runId == runId {
        return Some(Conflict);
      }
      jobs := jobs[id := Job(organization, runId, Queued, priority, 0, 0, 0, 0, maxAttempts, timeoutSeconds, now,
                             scheduledAt, None, None, None, None, None, None, None, None, [])];
      AppendEvent(id, JobQueued, now);
      return None;
    }

    /** Refuses an ageing period below its minimum; otherwise takes the first claimable job, if any. */
    method ClaimNext(worker: nat, at: int, organization: Option<nat>, aging: int)
        returns (claimed: Option<nat>, refusal: Option<Error>)
      modifies this`jobs
      ensures refusal == if aging < 30 then Some(BadValue) else None
      ensures refusal.Some? ==> claimed == None && View() == old(View())
      ensures refusal.None? ==> claimed == NextJob(old(jobs), at, organization, aging)
      ensures refusal.None? ==> View() == Jobs.ClaimNext(old(View()), worker, at, organization, aging)
      ensures refusal.None? ==> (
        if claimed.None? then forall id :: id in old(jobs) ==> !MayBeClaimed(old(jobs)[id], at, organization)
        else ComesFirst(old(jobs), claimed.value, at, organization, aging))
      ensures claimed.Some? ==>
        var was := old(jobs)[claimed.value];
        jobs == old(jobs)[claimed.value := was.(
          status := Running, attemptCount := was.attemptCount + 1, totalAttemptCount := was.totalAttemptCount + 1,
          startedAt := Some(at), claimedBy := Some(worker), heartbeatAt := Some(at), completedAt := None,
          deadlineAt := Some(at + was.timeoutSeconds), retryAt := None, failureCode := None).Log(JobClaimed, at)]
    {
      if aging < 30 {
        return None, Some(BadValue);
      }
      NextComesFirst(jobs, at, organization, aging);
      hide ClaimedBefore, ComesFirst, MayBeClaimed, Claimable, LastSequence;
      var ids := ClaimableIds(jobs, at, organization);
      if ids == {} {
        return None, None;
      }
      FirstExists(jobs, ids, at, aging);
      var id :| id in ids && FirstOf(jobs, ids, id, at, aging);
      FirstIsUnique(jobs, ids, id, NextJob(jobs, at, organization, aging).value, at, aging);
      var record := jobs[id];
      record := record.(
        status := Running, attemptCount := record.attemptCount + 1, totalAttemptCount := record.totalAttemptCount + 1,
        startedAt := Some(at), claimedBy := Some(worker), heartbeatAt := Some(at), completedAt := None,
        deadlineAt := Some(at + record.timeoutSeconds), retryAt := None, failureCode := None);
      jobs := jobs[id := record];
      AppendEvent(id, JobClaimed, at);
      return Some(id), None;
    }

    method RetryFailed(id: nat, organization: nat, maxManualRetries: nat, at: int) returns (refusal: Option<Error>)
      modifies this
      ensures Carries(old(View()), Jobs.RetryFailed(old(View()), id, organization, maxManualRetries, at), refusal, View())
      ensures refusal.Some? ==> jobs == old(jobs) && runs == old(runs)
      ensures refusal == if maxManualRetries < 1 then Some(BadValue)
        else if id !in old(jobs) || old(jobs)[id].organization != organization then Some(NotFound)
        else if
          && old(jobs)[id].status == Failed && old(jobs)[id].manualRetryCount < maxManualRetries
          && old(jobs)[id].runId in old(runs) && ResultCount(old(runs)[old(jobs)[id].runId]) == 0
          && old(runs)[old(jobs)[id].runId].organization == organization
          && old(runs)[old(jobs)[id].runId].status == FailedRun then None
        else Some(InvalidTransition)
      ensures refusal.None? ==>
        var was := old(jobs)[id];
        && jobs == old(jobs)[id := was.(
             status := Queued, progress := 0, attemptCount := 0, manualRetryCount := was.manualRetryCount + 1,
             scheduledAt := at, startedAt := None, completedAt := None, deadlineAt := None,
             cancellationRequestedAt := None, retryAt := None, claimedBy := None, heartbeatAt := None,
             failureCode := None).Log(JobManualRetryRequested, at)]
        && runs == old(runs)[was.runId := old(runs)[was.runId].(
             status := Pending, startedAt := None, finishedAt := None, error := None)]
    {
      if maxManualRetries < 1 {
        return Some(BadValue);
      }
      if id !in jobs || jobs[id].organization != organization {
        return Some(NotFound);
      }
      var record := jobs[id];
      if record.status != Failed || record.manualRetryCount >= maxManualRetries {
        return Some(InvalidTransition);
      }
      if record.runId in runs && ResultCount(runs[record.runId]) > 0 {
        return Some(InvalidTransition);
      }
      if record.runId !in runs || runs[record.runId].organization != organization
        || runs[record.runId].status != FailedRun {
        return Some(InvalidTransition);
      }
      record := record.(status := Queued, progress := 0, attemptCount := 0);
      record := record.(manualRetryCount := record.manualRetryCount + 1);
      record := record.(scheduledAt := at, startedAt := None, completedAt := None, deadlineAt := None);
      record := record.(cancellationRequestedAt := None, retryAt := None, claimedBy := None, heartbeatAt := None);
      record := record.(failureCode := None);
      jobs := jobs[id := record];
      var run := runs[record.runId];
      run := run.(status := Pending, startedAt := None, finishedAt := None, error := None);
      runs := runs[record.runId := run];
      AppendEvent(id, JobManualRetryRequested, at);
      return None;
    }

    method Heartbeat(id: nat, organization: nat, worker: nat, at: int) returns (refusal: Option<Error>)
      modifies this`jobs
      ensures Carries(old(View()),
        if !Visible(old(View()), id, organization) then Err(NotFound)
        else Store(old(View()), id, Jobs.Heartbeat(old(jobs[id]), worker, at)), refusal, View())
      ensures refusal == if id !in old(jobs) || old(jobs)[id].organization != organization then Some(NotFound)
        else if (old(jobs)[id].status == Running || old(jobs)[id].status == CancelRequested)
          && old(jobs)[id].claimedBy == Some(worker) then None
        else Some(InvalidTransition)
      ensures refusal.None? ==> jobs == old(jobs)[id := old(jobs)[id].(heartbeatAt := Some(at))]
    {
      if id !in jobs || jobs[id].organization != organization {
        return Some(NotFound);
      }
      if !jobs[id].Active() || jobs[id].claimedBy != Some(worker) {
        return Some(InvalidTransition);
      }
      jobs := jobs[id := jobs[id].(heartbeatAt := Some(at))];
      return None;
    }

    method UpdateProgress(id: nat, organization: nat, percentage: nat, at: int) returns (refusal: Option<Error>)
      modifies this`jobs
      ensures Carries(old(View()),
        if percentage > 100 then Err(BadValue)
        else if !Visible(old(View()), id, organization) then Err(NotFound)
        else Store(old(View()), id, Jobs.UpdateProgress(old(jobs[id]), percentage, at)), refusal, View())
      ensures refusal == if percentage > 100 then Some(BadValue)
        else if id !in old(jobs) || old(jobs)[id].organization != organization then Some(NotFound)
        else if old(jobs)[id].status != Running && old(jobs)[id].status != CancelRequested then Some(InvalidTransition)
        else None
      ensures refusal.None? ==>
        jobs == old(jobs)[id := old(jobs)[id].(progress := percentage).Log(JobProgressUpdated, at)]
    {
      if percentage > 100 {
        return Some(BadValue);
      }
      if id !in jobs || jobs[id].organization != organization {
        return Some(NotFound);
      }
      if !jobs[id].Active() {
        return Some(InvalidTransition);
      }
      jobs := jobs[id := jobs[id].(progress := percentage)];
      AppendEvent(id, JobProgressUpdated, at);
      return None;
    }

    /** Every stale job is recovered, once, and no other job is touched. */
    method RecoverStale(cutoff: int, at: int) returns (count: nat)
      modifies this`jobs
      ensures View() == Jobs.RecoverStale(old(View()), cutoff, at)
      ensures count == |set id | id in old(jobs) && Stale(old(jobs[id]), cutoff)|
      ensures jobs.Keys == old(jobs).Keys
      ensures forall id :: id in jobs ==> Resolved(old(jobs)[id], jobs[id], cutoff, at)
    {
      hide LastSequence, Resolved;
      var records := set id | id in jobs && Stale(jobs[id], cutoff);
      count := |records|;
      var rest := records;
      while rest != {}
        invariant rest <= records
        invariant jobs.Keys == old(jobs).Keys
        invariant forall id :: id in jobs ==>
          jobs[id] == if id in records && id !in rest then Recovered(old(jobs)[id], at) else old(jobs)[id]
        decreases rest
      {
        var id :| id in rest;
        var record := jobs[id];
        if record.status == CancelRequested {
          record := record.(status := Cancelled, completedAt := Some(at));
        } else if record.attemptCount < record.maxAttempts {
          record := record.(status := Queued, retryAt := Some(at), startedAt := None);
        } else {
          record := record.(status := Failed, completedAt := Some(at), failureCode := Some(WorkerInterrupted));
        }
        record := record.(claimedBy := None, heartbeatAt := None, deadlineAt := None);
        assert record.Log(JobRecovered, at) == Recovered(old(jobs)[id], at);
        hide Recovered;
        jobs := jobs[id := record];
        AppendEvent(id, JobRecovered, at);
        rest := rest - {id};
      }
      forall id | id in jobs ensures Resolved(old(jobs)[id], jobs[id], cutoff, at) {
        RecoveryResolves(old(jobs)[id], cutoff, at);
      }
    }

    method RequestCancellation(id: nat, organization: nat, at: int) returns (refusal: Option<Error>)
      modifies this`jobs
      ensures Carries(old(View()), CancelJob(old(View()), id, organization, at), refusal, View())
      ensures refusal == if id !in old(jobs) || old(jobs)[id].organization != organization then Some(NotFound)
        else if old(jobs)[id].status == Queued || old(jobs)[id].status == Running then None
        else Some(InvalidTransition)
      ensures refusal.None? ==>
        var asked := old(jobs)[id].Log(JobCancellationRequested, at).(cancellationRequestedAt := Some(at));
        jobs == old(jobs)[id :=
          if asked.status == Running then asked.(status := CancelRequested)
          else asked.(status := Cancelled, completedAt := Some(at), deadlineAt := None).Log(JobCancelled, at)]
    {
      hide LastSequence;
      if id !in jobs || jobs[id].organization != organization {
        return Some(NotFound);
      }
      if jobs[id].status != Queued && jobs[id].status != Running {
        return Some(InvalidTransition);
      }
      AppendEvent(id, JobCancellationRequested, at);
      jobs := jobs[id := jobs[id].(cancellationRequestedAt := Some(at))];
      if jobs[id].status == Queued {
        jobs := jobs[id := jobs[id].(status := Cancelled, completedAt := Some(at), deadlineAt := None)];
        AppendEvent(id, JobCancelled, at);
      } else {
        jobs := jobs[id := jobs[id].(status := CancelRequested)];
      }
      return None;
    }

    method Complete(
        id: nat, organization: nat, target: Status, at: int, retryAt: Option<int>, code: Option<FailureCode>)
        returns (refusal: Option<Error>)
      modifies this`jobs
      ensures Carries(old(View()), CompleteJob(old(View()), id, organization, target, at, retryAt, code), refusal, View())
      ensures refusal == if id !in old(jobs) || old(jobs)[id].organization != organization then Some(NotFound)
        else if
          && (if old(jobs)[id].status == Running then target == Succeeded || target == Failed
              else old(jobs)[id].status == CancelRequested && (target == Cancelled || target == Failed))
          && (target == Failed && retryAt != None ==> old(jobs)[id].attemptCount < old(jobs)[id].maxAttempts) then None
        else Some(InvalidTransition)
      ensures refusal.None? ==> OnlyJob(old(jobs), jobs, id) && Ended(old(jobs)[id], jobs[id], target, at, retryAt, code)
    {
      hide LastSequence, Ended;
      if id !in jobs || jobs[id].organization != organization {
        return Some(NotFound);
      }
      var record := jobs[id];
      if Completed(record, target, at, retryAt, code).Ok? {
        CompletionEnds(record, target, at, retryAt, code);
      }
      if !MayComplete(record, target) {
        return Some(InvalidTransition);
      }
      var kind;
      if target == Failed && retryAt.Some? {
        if record.attemptCount >= record.maxAttempts {
          return Some(InvalidTransition);
        }
        record := record.(status := Queued, retryAt := retryAt);
        kind := JobRetryScheduled;
      } else {
        record := record.(status := target, completedAt := Some(at));
        if target == Succeeded {
          record := record.(progress := 100);
          kind := JobSucceeded;
        } else if target == Cancelled {
          kind := JobCancelled;
        } else {
          kind := if code == Some(JobTimeout) then JobTimedOut else JobFailed;
        }
      }
      record := record.(claimedBy := None, heartbeatAt := None, deadlineAt := None);
      if target == Failed {
        record := record.(failureCode := code);
      }
      jobs := jobs[id := record];
      AppendEvent(id, kind, at);
      return None;
    }

    /** `ReconciliationRunRepository.transition`, as every caller asks for it: within an organization. */
    method TransitionRun(runId: nat, organization: nat, target: RunStatus, at: int, error: Option<RunError>)
        returns (refusal: Option<Error>)
      modifies this`runs
      ensures Carries(old(View()),
        if runId !in old(runs) || old(runs[runId]).organization != organization then Err(NotFound)
        else
          var answer := Jobs.TransitionRun(old(runs[runId]), target, at, error);
          if answer.Ok? then Ok(Database(old(jobs), old(runs)[runId := answer.value])) else Err(answer.error),
        refusal, View())
      ensures refusal == if runId !in old(runs) || old(runs)[runId].organization != organization then Some(NotFound)
        else if (if old(runs)[runId].status == Pending then target == RunningRun || target == FailedRun
                 else old(runs)[runId].status == RunningRun && (target == SucceededRun || target == FailedRun)) then None
        else Some(InvalidTransition)
      ensures refusal.None? ==>
        var was := old(runs)[runId];
        runs == old(runs)[runId :=
          if target == RunningRun then was.(status := RunningRun, startedAt := Some(at))
          else was.(status := target, finishedAt := Some(at), error := if target == FailedRun then error else None)]
    {
      if runId !in runs || runs[runId].organization != organization {
        return Some(NotFound);
      }
      var record := runs[runId];
      if !RunMayBecome(record.status, target) {
        return Some(InvalidTransition);
      }
      record := record.(status := target);
      if target == RunningRun {
        record := record.(startedAt := Some(at));
      } else {
        record := record.(finishedAt := Some(at));
        record := record.(error := if target == FailedRun then error else None);
      }
      runs := runs[runId := record];
      return None;
    }

    /** `results.add_many` for one run. */
    method AddResults(runId: nat, batch: seq<nat>)
      requires runId in runs
      modifies this`runs
      ensures runs == old(runs)[runId := old(runs)[runId].(batches := old(runs)[runId].batches + [batch])]
    {
      runs := runs[runId := runs[runId].(batches := runs[runId].batches + [batch])];
    }

    /** `audit_events.append`, event by event. */
    method AppendAudit(runId: nat, events: seq<AuditKind>)
      requires runId in runs
      modifies this`runs
      ensures runs == old(runs)[runId := old(runs)[runId].(audit := old(runs)[runId].audit + events)]
    {
      assert old(runs)[runId].audit + events[..0] == old(runs)[runId].audit;
      for i := 0 to |events|
        invariant runId in runs
        invariant runs == old(runs)[runId := old(runs)[runId].(audit := old(runs)[runId].audit + events[..i])]
      {
        runs := runs[runId := runs[runId].(audit := runs[runId].audit + [events[i]])];
        assert old(runs)[runId].audit + events[..i] + [events[i]] == old(runs)[runId].audit + events[..i + 1];
      }
      assert events[..|events|] == events;
    }
  }
}
