/** The order in which queued jobs are handed out, told by priority and waiting time: within a priority
    the longest waiting first, across priorities the higher one until the lower one has drawn level. */
module ClaimOrder {
  import opened Ordering
  import opened Jobs

  /** Since when a job could have run: its retry time if it has one, else its schedule. */
  function WaitingSince(job: Job): int
  {
    match job.retryAt
    case Some(t) => t
    case None => job.scheduledAt
  }

  function Waited(job: Job, at: int): int
  {
    at - WaitingSince(job)
  }

  /** Of two that could run since the same time the one created first, and then the one with the smaller id. */
  predicate WaitsLonger(a: nat, x: Job, b: nat, y: Job)
  {
    if WaitingSince(x) != WaitingSince(y) then WaitingSince(x) < WaitingSince(y)
    else if x.createdAt != y.createdAt then x.createdAt < y.createdAt
    else a < b
  }

  predicate Outranks(p: Priority, q: Priority)
  {
    (p.High? && !q.High?) || (p.Normal? && q.Low?)
  }

  /** The lower job has waited long enough to compete with the higher one: a NORMAL one with HIGH after one
      ageing period, a LOW one with HIGH after two, and with NORMAL after two, or after one while the
      other has not waited one itself. */
  predicate DrawnLevel(lower: Job, higher: Job, at: int, aging: int)
  {
    match (lower.priority, higher.priority)
    case (Normal, High) => Waited(lower, at) >= aging
    case (Low, High) => Waited(lower, at) >= 2 * aging
    case (Low, Normal) => Waited(lower, at) >= 2 * aging || Waited(lower, at) >= aging > Waited(higher, at)
    case _ => false
  }

  predicate GoesFirst(a: nat, x: Job, b: nat, y: Job, at: int, aging: int)
  {
    if Outranks(x.priority, y.priority) then WaitsLonger(a, x, b, y) || !DrawnLevel(y, x, at, aging)
    else if Outranks(y.priority, x.priority) then WaitsLonger(a, x, b, y) && DrawnLevel(x, y, at, aging)
    else WaitsLonger(a, x, b, y)
  }

  predicate MayBeClaimed(job: Job, at: int, organization: Option<nat>)
  {
    && job.status == Queued && job.scheduledAt <= at
    && (job.retryAt == None || job.retryAt.value <= at)
    && job.attemptCount < job.maxAttempts
    && (organization == None || organization == Some(job.organization))
  }

  /** Main result: the ORDER BY of `claim_next`, exactly. */
  lemma ClaimOrderIsExact(a: nat, x: Job, b: nat, y: Job, at: int, aging: int)
    requires a != b && aging >= 30
    ensures ClaimedBefore(a, x, b, y, at, aging) <==> GoesFirst(a, x, b, y, at, aging)
  {
  }

  /** Priorities hold until the lower job has aged: before that a higher one goes first, however short it waited. */
  lemma FreshStaysBehind(a: nat, x: Job, b: nat, y: Job, at: int, aging: int)
    requires aging >= 30 && Outranks(x.priority, y.priority) && Waited(y, at) < aging
    ensures GoesFirst(a, x, b, y, at, aging) && !GoesFirst(b, y, a, x, at, aging)
  {
  }

  /** Exactly when a job that waits longer overtakes one submitted with a higher priority. */
  lemma OvertakesExactly(a: nat, x: Job, b: nat, y: Job, at: int, aging: int)
    requires a != b && aging >= 30 && Outranks(x.priority, y.priority) && WaitsLonger(b, y, a, x)
    ensures ClaimedBefore(b, y, a, x, at, aging) <==>
      if y.priority == Normal then Waited(y, at) >= aging
      else if x.priority == High then Waited(y, at) >= 2 * aging
      else Waited(y, at) >= 2 * aging || (Waited(y, at) >= aging && Waited(x, at) < aging)
  {
    ClaimOrderIsExact(b, y, a, x, at, aging);
  }

  /** The job is claimable, and goes before every other claimable one. */
  ghost predicate ComesFirst(jobs: map<nat, Job>, id: nat, at: int, organization: Option<nat>, aging: int)
  {
    && id in jobs && MayBeClaimed(jobs[id], at, organization)
    && forall other :: other in jobs && other != id && MayBeClaimed(jobs[other], at, organization)
         ==> GoesFirst(id, jobs[id], other, jobs[other], at, aging)
  }

  /** Main result: `claim_next` takes the job that comes first, and none only if there is none to take. */
  lemma NextComesFirst(jobs: map<nat, Job>, at: int, organization: Option<nat>, aging: int)
    requires aging >= 30
    ensures forall id: nat :: NextJob(jobs, at, organization, aging) == Some(id) <==> ComesFirst(jobs, id, at, organization, aging)
    ensures NextJob(jobs, at, organization, aging) == None <==>
      forall id :: id in jobs ==> !MayBeClaimed(jobs[id], at, organization)
  {
    var next, ids := NextJob(jobs, at, organization, aging), ClaimableIds(jobs, at, organization);
    forall id | id in jobs ensures Claimable(jobs[id], at, organization) <==> MayBeClaimed(jobs[id], at, organization) {
    }
    forall id, other | id in jobs && other in jobs && id != other
      ensures ClaimedBefore(id, jobs[id], other, jobs[other], at, aging) <==> GoesFirst(id, jobs[id], other, jobs[other], at, aging)
    {
      ClaimOrderIsExact(id, jobs[id], other, jobs[other], at, aging);
    }
    hide ClaimedBefore, GoesFirst, MayBeClaimed, Claimable;
    assert ids == {} <==> forall id :: id in jobs ==> id !in ids;
    forall id: nat ensures next == Some(id) <==> ComesFirst(jobs, id, at, organization, aging) {
      if ComesFirst(jobs, id, at, organization, aging) {
        assert FirstOf(jobs, ids, id, at, aging);
        FirstIsUnique(jobs, ids, id, next.value, at, aging);
      }
    }
  }
}
