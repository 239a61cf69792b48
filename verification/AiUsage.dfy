/** Metering of hosted inference: capacity is reserved before a paid call, and what is not released
    counts against the day and the month it was created in. */
module AiUsage {
  import opened Calendar
  import opened Sums

  datatype UsageStatus = Reserved | Finalized | Released

  datatype Reservation = Reservation(
    createdAt: int,
    expiresAt: int,
    status: UsageStatus,
    reservedTokens: nat,
    inputTokens: nat,
    outputTokens: nat)
  {
    /** `active` in `summarize`. */
    predicate Active(now: int)
    {
      status.Finalized? || (status.Reserved? && expiresAt > now)
    }
  }

  datatype Policy = Policy(
    enabled: bool,
    dailyRequests: nat,
    monthlyRequests: nat,
    dailyTokens: nat,
    monthlyTokens: nat)

  /** How the controller is set up. */
  datatype Controller = Controller(metered: bool, tokensPerCandidate: nat, lifetime: nat)

  datatype Refusal = BadCount | NotEnabled | LimitReached | UnknownRun | UnknownReservation | NoLongerActive

  /** One organization's policy and reservations. */
  datatype Account = Account(policy: Policy, reservations: map<nat, Reservation>)

  datatype Answer = Granted(account: Account) | Unmetered | Refused(refusal: Refusal)

  function Request(r: Reservation): nat { 1 }

  function Tokens(r: Reservation): nat
  {
    if r.status.Finalized? then r.inputTokens + r.outputTokens else r.reservedTokens
  }

  /** `release_expired`. */
  function WithoutExpired(reservations: map<nat, Reservation>, now: int): map<nat, Reservation>
  {
    map id | id in reservations :: var r := reservations[id];
      if r.status.Reserved? && r.expiresAt <= now then r.(status := Released) else r
  }

  /** What `summarize` selects. */
  function Selected(reservations: map<nat, Reservation>, since: int, now: int): set<nat>
  {
    set id | id in reservations && reservations[id].createdAt >= since && reservations[id].Active(now)
  }

  ghost function Used(reservations: map<nat, Reservation>, since: int, now: int, weight: Reservation -> nat): nat
  {
    Sum(reservations, Selected(reservations, since, now), weight)
  }

  /** The limits `reserve` compares against. */
  ghost predicate Fits(policy: Policy, reservations: map<nat, Reservation>, now: int, tokens: nat)
  {
    && Used(reservations, UtcDayStart(now), now, Request) + 1 <= policy.dailyRequests
    && Used(reservations, UtcMonthStart(now), now, Request) + 1 <= policy.monthlyRequests
    && Used(reservations, UtcDayStart(now), now, Tokens) + tokens <= policy.dailyTokens
    && Used(reservations, UtcMonthStart(now), now, Tokens) + tokens <= policy.monthlyTokens
  }

  /** `AIUsageController.reserve`; `now` is read before the transaction that stamps `createdAt`. */
  ghost function Reserve(
      c: Controller, a: Account, id: nat, runKnown: bool, candidates: nat, now: int, createdAt: int): Answer
  {
    var tokens := candidates * c.tokensPerCandidate;
    var reservations := WithoutExpired(a.reservations, now);
    if !c.metered then Unmetered
    else if candidates < 1 then Refused(BadCount)
    else if !a.policy.enabled then Refused(NotEnabled)
    else if !Fits(a.policy, reservations, now, tokens) then Refused(LimitReached)
    else if !runKnown then Refused(UnknownRun)
    else Granted(a.(reservations := reservations[id := Reservation(createdAt, now + c.lifetime, Reserved, tokens, 0, 0)]))
  }

  /** `finalize`: any actual usage is accepted, also after the reservation has expired. */
  function Finalize(a: Account, id: nat, input: nat, output: nat): Answer
  {
    if id !in a.reservations then Refused(UnknownReservation)
    else if !a.reservations[id].status.Reserved? then Refused(NoLongerActive)
    else
      var r := a.reservations[id].(status := Finalized, inputTokens := input, outputTokens := output);
      Granted(a.(reservations := a.reservations[id := r]))
  }

  /** `release`: only a reservation that is still active changes. */
  function Release(a: Account, id: nat): Answer
  {
    if id !in a.reservations then Refused(UnknownReservation)
    else if !a.reservations[id].status.Reserved? then Granted(a)
    else Granted(a.(reservations := a.reservations[id := a.reservations[id].(status := Released)]))
  }

  // Who gets capacity, on the records.

  /** The reservation counts against a window that began at `since`: created in it, and either used or still
      held. */
  predicate CountsSince(r: Reservation, since: int, now: int)
  {
    r.createdAt >= since && (r.status == Finalized || (r.status == Reserved && now < r.expiresAt))
  }

  function Counting(reservations: map<nat, Reservation>, since: int, now: int): set<nat>
  {
    set id | id in reservations && CountsSince(reservations[id], since, now)
  }

  /** What has been used, or is held for use. */
  function Charge(r: Reservation): nat
  {
    match r.status
    case Finalized => r.inputTokens + r.outputTokens
    case _ => r.reservedTokens
  }

  ghost predicate RoomSince(reservations: map<nat, Reservation>, since: int, now: int, requests: nat, tokens: nat, wanted: nat)
  {
    var counting := Counting(reservations, since, now);
    |counting| < requests && Sum(reservations, counting, Charge) + wanted <= tokens
  }

  /** A reservation whose time is up is released, any other stays as it is. */
  ghost predicate OnlyExpired(before: map<nat, Reservation>, after: map<nat, Reservation>, now: int)
  {
    && after.Keys == before.Keys
    && forall id :: id in before ==>
         after[id] == if before[id].status == Reserved && before[id].expiresAt <= now
                      then before[id].(status := Released) else before[id]
  }

  lemma SummaryOnRecords(reservations: map<nat, Reservation>, since: int, now: int)
    ensures var rest := WithoutExpired(reservations, now);
      && Used(rest, since, now, Request) == |Counting(reservations, since, now)|
      && Used(rest, since, now, Tokens) == Sum(reservations, Counting(reservations, since, now), Charge)
  {
    var rest, counting := WithoutExpired(reservations, now), Counting(reservations, since, now);
    assert Selected(rest, since, now) == counting;
    SumOfOnes(rest, counting, Request);
    SumOfEqual(rest, Tokens, reservations, Charge, counting);
  }

  lemma {:induction false} SumOfEqual(
      a: map<nat, Reservation>, f: Reservation -> nat, b: map<nat, Reservation>, g: Reservation -> nat, ids: set<nat>)
    requires ids <= a.Keys && ids <= b.Keys && forall id :: id in ids ==> f(a[id]) == g(b[id])
    ensures Sum(a, ids, f) == Sum(b, ids, g)
    decreases ids
  {
    if id :| id in ids {
      SumTakesOut(a, ids, f, id);
      SumTakesOut(b, ids, g, id);
      SumOfEqual(a, f, b, g, ids - {id});
    }
  }

  /** Day and month both have room for one more request and the tokens it may use. */
  ghost predicate HasRoom(a: Account, now: int, wanted: nat)
  {
    && RoomSince(a.reservations, UtcDayStart(now), now, a.policy.dailyRequests, a.policy.dailyTokens, wanted)
    && RoomSince(a.reservations, UtcMonthStart(now), now, a.policy.monthlyRequests, a.policy.monthlyTokens, wanted)
  }

  /** Main result: capacity is granted exactly when metering and policy are on, the run is known, and both the
      day and the month so far have room for one more request and its tokens; expired reservations that
      nobody has released yet take no room. */
  lemma ReserveExactly(c: Controller, a: Account, id: nat, runKnown: bool, candidates: nat, now: int, createdAt: int)
    ensures var answer, wanted := Reserve(c, a, id, runKnown, candidates, now, createdAt), candidates * c.tokensPerCandidate;
      if !c.metered then answer == Unmetered
      else if candidates < 1 then answer == Refused(BadCount)
      else if !a.policy.enabled then answer == Refused(NotEnabled)
      else if !HasRoom(a, now, wanted) then answer == Refused(LimitReached)
      else if !runKnown then answer == Refused(UnknownRun)
      else
        && answer.Granted? && answer.account.policy == a.policy && id in answer.account.reservations
        && answer.account.reservations[id] == Reservation(createdAt, now + c.lifetime, Reserved, wanted, 0, 0)
        && OnlyExpired(a.reservations - {id}, answer.account.reservations - {id}, now)
  {
    hide UtcDayStart, UtcMonthStart, Sum;
    SummaryOnRecords(a.reservations, UtcDayStart(now), now);
    SummaryOnRecords(a.reservations, UtcMonthStart(now), now);
  }

  // All runs.

  datatype Action =
    | ReserveStep(id: nat, runKnown: bool, candidates: nat, now: int, createdAt: int)
    | FinalizeStep(id: nat, input: nat, output: nat)
    | ReleaseStep(id: nat)
    | SummaryStep(now: int)
    | PolicyStep(policy: Policy)

  function Accept(a: Account, answer: Answer): Account
  {
    if answer.Granted? then answer.account else a
  }

  /** A reservation gets a fresh id, and is stamped no earlier than its quota was read. */
  ghost function Perform(c: Controller, a: Account, action: Action): Account
  {
    match action
    case ReserveStep(id, runKnown, candidates, now, createdAt) =>
      if id in a.reservations || createdAt < now then a
      else Accept(a, Reserve(c, a, id, runKnown, candidates, now, createdAt))
    case FinalizeStep(id, input, output) => Accept(a, Finalize(a, id, input, output))
    case ReleaseStep(id) => Accept(a, Release(a, id))
    case SummaryStep(now) => a.(reservations := WithoutExpired(a.reservations, now))
    case PolicyStep(policy) => a.(policy := policy)
  }

  ghost function After(c: Controller, a: Account, actions: seq<Action>): Account
  {
    if actions == [] then a else Perform(c, After(c, a, actions[..|actions| - 1]), actions[|actions| - 1])
  }

  /** The reservations created in the window that starts at s and not released. */
  function Held(reservations: map<nat, Reservation>, start: int -> int, s: int): set<nat>
  {
    set id | id in reservations && !reservations[id].status.Released? && start(reservations[id].createdAt) == s
  }

  /** No window holds more than the limit. */
  ghost predicate Within(reservations: map<nat, Reservation>, start: int -> int, weight: Reservation -> nat, limit: nat)
  {
    forall s :: Sum(reservations, Held(reservations, start, s), weight) <= limit
  }

  /** Released reservations drop out, the others keep their weight. */
  ghost predicate Shrinks(before: map<nat, Reservation>, after: map<nat, Reservation>, weight: Reservation -> nat)
  {
    && after.Keys == before.Keys
    && forall id :: id in after && !after[id].status.Released? ==>
         !before[id].status.Released? && after[id].createdAt == before[id].createdAt
         && weight(after[id]) <= weight(before[id])
  }

  lemma ShrinkingKeepsWithin(
      before: map<nat, Reservation>, after: map<nat, Reservation>, start: int -> int, weight: Reservation -> nat,
      limit: nat)
    requires Within(before, start, weight, limit) && Shrinks(before, after, weight)
    ensures Within(after, start, weight, limit)
  {
    forall s ensures Sum(after, Held(after, start, s), weight) <= limit {
      var held := Held(after, start, s);
      SumOfLighter(after, before, held, weight);
      SumOfSubset(before, held, Held(before, start, s), weight);
    }
  }

  /** Everything a window holds is selected by a summary read no later than the window's records. */
  lemma HeldIsSelected(reservations: map<nat, Reservation>, start: int -> int, now: int, createdAt: int)
    requires WindowStart(start) && now <= createdAt
    ensures var rest := WithoutExpired(reservations, now);
      Held(rest, start, start(createdAt)) <= Selected(rest, start(now), now)
  {
    var rest := WithoutExpired(reservations, now);
    forall id | id in Held(rest, start, start(createdAt)) ensures id in Selected(rest, start(now), now) {
      assert start(now) <= start(createdAt) == start(rest[id].createdAt) <= rest[id].createdAt;
    }
  }

  /** Adding a reservation whose weight fits on top of the summary keeps the limit. */
  lemma AddingKeepsWithin(
      reservations: map<nat, Reservation>, id: nat, r: Reservation, start: int -> int, weight: Reservation -> nat,
      limit: nat, now: int)
    requires WindowStart(start) && now <= r.createdAt && id !in reservations && r.status.Reserved?
    requires Within(reservations, start, weight, limit) && Shrinks(reservations, WithoutExpired(reservations, now), weight)
    requires Used(WithoutExpired(reservations, now), start(now), now, weight) + weight(r) <= limit
    ensures Within(WithoutExpired(reservations, now)[id := r], start, weight, limit)
  {
    var rest := WithoutExpired(reservations, now);
    var after := rest[id := r];
    ShrinkingKeepsWithin(reservations, rest, start, weight, limit);
    forall s ensures Sum(after, Held(after, start, s), weight) <= limit {
      var held := Held(rest, start, s);
      SumOfSame(rest, after, held, weight);
      if s == start(r.createdAt) {
        assert Held(after, start, s) == held + {id};
        assert held + {id} - {id} == held;
        SumTakesOut(after, held + {id}, weight, id);
        HeldIsSelected(reservations, start, now, r.createdAt);
        SumOfSubset(rest, held, Selected(rest, start(now), now), weight);
      } else {
        assert Held(after, start, s) == held;
      }
    }
  }

  /** The four limits of a policy. */
  datatype Quota = DailyRequests | MonthlyRequests | DailyTokens | MonthlyTokens

  function StartOf(q: Quota): int -> int
  {
    if q.DailyRequests? || q.DailyTokens? then UtcDayStart else UtcMonthStart
  }

  function WeightOf(q: Quota): Reservation -> nat
  {
    if q.DailyRequests? || q.MonthlyRequests? then Request else Tokens
  }

  function LimitOf(policy: Policy, q: Quota): nat
  {
    match q
    case DailyRequests => policy.dailyRequests
    case MonthlyRequests => policy.monthlyRequests
    case DailyTokens => policy.dailyTokens
    case MonthlyTokens => policy.monthlyTokens
  }

  lemma QuotasAreWindows(q: Quota)
    ensures WindowStart(StartOf(q))
  {
    hide UtcMonthStart, UtcDayStart;
    UtcDaysAreWindows();
    UtcMonthsAreWindows();
  }

  /** No day or month holds more than the limit. */
  ghost predicate Kept(a: Account, q: Quota, limit: nat)
  {
    Within(a.reservations, StartOf(q), WeightOf(q), limit)
  }

  /** Finalising does not make the reservation heavier. */
  ghost predicate Thrifty(a: Account, action: Action)
  {
    action.FinalizeStep? && action.id in a.reservations && a.reservations[action.id].status.Reserved?
    ==> action.input + action.output <= a.reservations[action.id].reservedTokens
  }

  lemma ExpiryShrinks(reservations: map<nat, Reservation>, now: int, q: Quota)
    ensures Shrinks(reservations, WithoutExpired(reservations, now), WeightOf(q))
  {
  }

  /** One action keeps a limit that the policy in force does not exceed; token limits also need
      that finalising is thrifty. */
  lemma PerformKeepsWithin(c: Controller, a: Account, action: Action, q: Quota, limit: nat)
    requires Kept(a, q, limit) && LimitOf(a.policy, q) <= limit
    requires q.DailyTokens? || q.MonthlyTokens? ==> Thrifty(a, action)
    ensures Kept(Perform(c, a, action), q, limit)
  {
    hide UtcMonthStart, UtcDayStart;
    var v := Perform(c, a, action);
    if action.ReserveStep? && v != a {
      ExpiryShrinks(a.reservations, action.now, q);
      QuotasAreWindows(q);
      AddingKeepsWithin(a.reservations, action.id, v.reservations[action.id], StartOf(q), WeightOf(q), limit, action.now);
    } else {
      if action.SummaryStep? {
        ExpiryShrinks(a.reservations, action.now, q);
      }
      assert Shrinks(a.reservations, v.reservations, WeightOf(q));
      ShrinkingKeepsWithin(a.reservations, v.reservations, StartOf(q), WeightOf(q), limit);
    }
  }

  /** No policy in force along the run grants more than the limit. */
  ghost predicate PoliciesGrant(c: Controller, a: Account, actions: seq<Action>, q: Quota, limit: nat)
  {
    forall i :: 0 <= i <= |actions| ==> LimitOf(After(c, a, actions[..i]).policy, q) <= limit
  }

  ghost predicate AllThrifty(c: Controller, a: Account, actions: seq<Action>)
  {
    forall i :: 0 <= i < |actions| ==> Thrifty(After(c, a, actions[..i]), actions[i])
  }

  lemma {:induction false} RunKeepsQuota(c: Controller, a: Account, actions: seq<Action>, q: Quota, limit: nat)
    requires Kept(a, q, limit) && PoliciesGrant(c, a, actions, q, limit)
    requires q.DailyTokens? || q.MonthlyTokens? ==> AllThrifty(c, a, actions)
    ensures Kept(After(c, a, actions), q, limit)
  {
    if actions != [] {
      var n := |actions| - 1;
      assert forall i :: 0 <= i <= n ==> actions[..n][..i] == actions[..i];
      RunKeepsQuota(c, a, actions[..n], q, limit);
      PerformKeepsWithin(c, After(c, a, actions[..n]), actions[n], q, limit);
    }
  }

  function Opening(policy: Policy): Account
  {
    Account(policy, map[])
  }

  /** Main result: whatever expires, is released or finalised late, the unreleased reservations created
      in any UTC day or month never outnumber the largest request limit that was in force. */
  lemma RequestQuotaTheorem(c: Controller, policy: Policy, actions: seq<Action>, q: Quota, limit: nat, s: int)
    requires q.DailyRequests? || q.MonthlyRequests?
    requires PoliciesGrant(c, Opening(policy), actions, q, limit)
    ensures |Held(After(c, Opening(policy), actions).reservations, StartOf(q), s)| <= limit
  {
    RunKeepsQuota(c, Opening(policy), actions, q, limit);
    var reservations := After(c, Opening(policy), actions).reservations;
    SumOfOnes(reservations, Held(reservations, StartOf(q), s), Request);
  }

  /** Main result: if every finalised usage is at most its reservation, tokens stay within their limits too. */
  lemma TokenQuotaTheorem(c: Controller, policy: Policy, actions: seq<Action>, q: Quota, limit: nat, s: int)
    requires q.DailyTokens? || q.MonthlyTokens?
    requires PoliciesGrant(c, Opening(policy), actions, q, limit) && AllThrifty(c, Opening(policy), actions)
    ensures var reservations := After(c, Opening(policy), actions).reservations;
      Sum(reservations, Held(reservations, StartOf(q), s), Tokens) <= limit
  {
    RunKeepsQuota(c, Opening(policy), actions, q, limit);
  }

  /** Exactly when finalising keeps a token limit: the actual usage fits into the reservation plus what
      the window has left. */
  lemma FinalizeExactly(a: Account, id: nat, input: nat, output: nat, start: int -> int, limit: nat)
    requires id in a.reservations && a.reservations[id].status.Reserved?
    requires Within(a.reservations, start, Tokens, limit)
    ensures var held := Held(a.reservations, start, start(a.reservations[id].createdAt));
      Within(Finalize(a, id, input, output).account.reservations, start, Tokens, limit)
      <==> input + output <= a.reservations[id].reservedTokens + (limit - Sum(a.reservations, held, Tokens))
  {
    var before, after := a.reservations, Finalize(a, id, input, output).account.reservations;
    var own := start(before[id].createdAt);
    forall s ensures Held(after, start, s) == Held(before, start, s) {
    }
    var held := Held(before, start, own);
    SumTakesOut(before, held, Tokens, id);
    SumTakesOut(after, held, Tokens, id);
    SumOfSame(before, after, held - {id}, Tokens);
    assert Sum(after, Held(after, start, own), Tokens)
      == Sum(before, held, Tokens) - before[id].reservedTokens + input + output;
    forall s | s != own ensures Sum(after, Held(after, start, s), Tokens) <= limit {
      SumOfSame(before, after, Held(before, start, s), Tokens);
      assert Sum(before, Held(before, start, s), Tokens) <= limit;
    }
  }

  /** Without thrift a token limit does not hold: 256 reserved and granted, 1000 used. */
  lemma TokensCanOverrun()
    ensures var c := Controller(true, 256, 300);
      var policy := Policy(true, 1, 1, 256, 256);
      var run := [ReserveStep(7, true, 1, 0, 0), FinalizeStep(7, 1000, 0)];
      var reservations := After(c, Opening(policy), run).reservations;
      Sum(reservations, Held(reservations, UtcDayStart, 0), Tokens) == 1000 > policy.dailyTokens
  {
    hide UtcMonthStart;
    var c := Controller(true, 256, 300);
    var opening := Opening(Policy(true, 1, 1, 256, 256));
    var run := [ReserveStep(7, true, 1, 0, 0), FinalizeStep(7, 1000, 0)];
    assert run[..1] == [run[0]] && run[..1][..0] == [];
    var none: map<nat, Reservation> := map[];
    assert opening.reservations == none && WithoutExpired(none, 0) == none;
    assert Selected(none, UtcDayStart(0), 0) == {};
    assert Selected(none, UtcMonthStart(0), 0) == {};
    assert Fits(opening.policy, none, 0, 256);
    assert After(c, opening, run[..1]) == Perform(c, opening, run[0]);
    var reserved := After(c, opening, run[..1]);
    assert reserved.reservations == map[7 := Reservation(0, 300, Reserved, 256, 0, 0)];
    var after := After(c, opening, run).reservations;
    assert after == map[7 := Reservation(0, 300, Finalized, 256, 1000, 0)];
    assert Held(after, UtcDayStart, 0) == {7};
    SumTakesOut(after, {7}, Tokens, 7);
  }
}
