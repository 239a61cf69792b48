/** The metering controller as it runs: the reservation table updated in place. */
module UsageStore {
  import opened Ordering
  import opened Calendar
  import opened Sums
  import opened AiUsage

  /** An answer and the account it leaves behind: a refusal rolls everything back. */
  ghost predicate Carries(before: Account, answer: Answer, granted: bool, refusal: Option<Refusal>, after: Account)
  {
    match answer
    case Granted(account) => granted && refusal == None && after == account
    case Unmetered => !granted && refusal == None && after == before
    case Refused(e) => !granted && refusal == Some(e) && after == before
  }

  class UsageLedger {
    var policy: Policy
    var reservations: map<nat, Reservation>
    const controller: Controller

    constructor (controller: Controller, policy: Policy)
      ensures View() == Account(policy, map[]) && this.controller == controller
    {
      this.controller, this.policy, reservations := controller, policy, map[];
    }

    ghost function View(): Account
      reads this
    {
      Account(policy, reservations)
    }

    /** `summarize`: count and token sum of the selected reservations. */
    method Summarize(since: int, now: int) returns (requests: nat, tokens: nat)
      ensures requests == Used(reservations, since, now, Request)
      ensures tokens == Used(reservations, since, now, Tokens)
    {
      requests, tokens := 0, 0;
      var rest := Selected(reservations, since, now);
      while rest != {}
        invariant rest <= Selected(reservations, since, now)
        invariant requests + Sum(reservations, rest, Request) == Used(reservations, since, now, Request)
        invariant tokens + Sum(reservations, rest, Tokens) == Used(reservations, since, now, Tokens)
        decreases rest
      {
        var id :| id in rest;
        SumTakesOut(reservations, rest, Request, id);
        SumTakesOut(reservations, rest, Tokens, id);
        var record := reservations[id];
        requests := requests + 1;
        if record.status == Finalized {
          tokens := tokens + record.inputTokens + record.outputTokens;
        } else {
          tokens := tokens + record.reservedTokens;
        }
        rest := rest - {id};
      }
    }

    /** `release_expired`. */
    method ReleaseExpired(now: int) returns (count: nat)
      modifies this`reservations
      ensures reservations == WithoutExpired(old(reservations), now)
      ensures count == |set id | id in old(reservations)
                        && old(reservations)[id].status.Reserved? && old(reservations)[id].expiresAt <= now|
    {
      var records := set id | id in reservations && reservations[id].status.Reserved? && reservations[id].expiresAt <= now;
      count := |records|;
      var rest := records;
      while rest != {}
        invariant rest <= records && reservations.Keys == old(reservations).Keys
        invariant forall id :: id in rest || (id in reservations && id !in records) ==>
          reservations[id] == old(reservations)[id]
        invariant forall id :: id in records && id !in rest ==>
          reservations[id] == old(reservations)[id].(status := Released)
        decreases rest
      {
        var id :| id in rest;
        reservations := reservations[id := reservations[id].(status := Released)];
        rest := rest - {id};
      }
    }

    method Reserve(id: nat, runKnown: bool, candidates: nat, now: int, createdAt: int)
        returns (granted: bool, refusal: Option<Refusal>)
      modifies this`reservations
      ensures Carries(old(View()), AiUsage.Reserve(controller, old(View()), id, runKnown, candidates, now, createdAt),
                      granted, refusal, View())
    {
      hide UtcMonthStart, UtcDayStart;
      if !controller.metered {
        return false, None;
      }
      if candidates < 1 {
        return false, Some(BadCount);
      }
      var estimated := candidates * controller.tokensPerCandidate;
      if !policy.enabled {
        return false, Some(NotEnabled);
      }
      var before := reservations;
      var _ := ReleaseExpired(now);
      var dailyRequests, dailyTokens := Summarize(UtcDayStart(now), now);
      var monthlyRequests, monthlyTokens := Summarize(UtcMonthStart(now), now);
      if dailyRequests + 1 > policy.dailyRequests || monthlyRequests + 1 > policy.monthlyRequests
        || dailyTokens + estimated > policy.dailyTokens || monthlyTokens + estimated > policy.monthlyTokens {
        reservations := before;
        return false, Some(LimitReached);
      }
      if !runKnown {
        reservations := before;
        return false, Some(UnknownRun);
      }
      var record := Reservation(createdAt, now + controller.lifetime, Reserved, estimated, 0, 0);
      reservations := reservations[id := record];
      return true, None;
    }

    method Finalize(id: nat, input: nat, output: nat) returns (granted: bool, refusal: Option<Refusal>)
      modifies this`reservations
      ensures Carries(old(View()), AiUsage.Finalize(old(View()), id, input, output), granted, refusal, View())
      ensures policy == old(policy)
      ensures granted <==> id in old(reservations) && old(reservations)[id].status == Reserved
      ensures reservations == if !granted then old(reservations)
        else old(reservations)[id := old(reservations)[id].(status := Finalized, inputTokens := input, outputTokens := output)]
    {
      if id !in reservations {
        return false, Some(UnknownReservation);
      }
      var record := reservations[id];
      if record.status != Reserved {
        return false, Some(NoLongerActive);
      }
      record := record.(status := Finalized);
      record := record.(inputTokens := input);
      record := record.(outputTokens := output);
      reservations := reservations[id := record];
      return true, None;
    }

    method Release(id: nat) returns (granted: bool, refusal: Option<Refusal>)
      modifies this`reservations
      ensures Carries(old(View()), AiUsage.Release(old(View()), id), granted, refusal, View())
      ensures policy == old(policy)
      ensures granted <==> id in old(reservations)
      ensures reservations == if id !in old(reservations) || old(reservations)[id].status != Reserved then old(reservations)
        else old(reservations)[id := old(reservations)[id].(status := Released)]
    {
      if id !in reservations {
        return false, Some(UnknownReservation);
      }
      if reservations[id].status == Reserved {
        reservations := reservations[id := reservations[id].(status := Released)];
      }
      return true, None;
    }
  }
}
