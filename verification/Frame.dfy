/** One more ineligible bank entry with a fingerprint of its own changes nothing else. */
module Frame {
  import opened Ordering
  import opened Combinations
  import opened Records
  import opened Matching
  import opened MatchingFacts
  import opened Partition
  import opened OrderIndependence

  /** y has the records of x and, in its k-th place, the bank entry e. */
  ghost predicate Extends(x: Inputs, y: Inputs, e: Bank, k: nat)
  {
    && k <= |x.banks|
    && y.banks == x.banks[..k] + [e] + x.banks[k..]
    && y.invoices == x.invoices && y.gateways == x.gateways
  }

  lemma {:induction false} CandidatesSkip(
      r: Rules, test: BankTest, used: set<string>, before: seq<Bank>, e: Bank, after: seq<Bank>)
    requires !BankPasses(r, test, e)
    ensures BankCandidates(r, test, used, before + [e] + after) == BankCandidates(r, test, used, before + after)
    decreases |before|
  {
    if before == [] {
      assert (before + [e] + after)[1..] == after && before + after == after;
    } else {
      assert (before + [e] + after)[1..] == before[1..] + [e] + after;
      assert (before + after)[1..] == before[1..] + after;
      CandidatesSkip(r, test, used, before[1..], e, after);
    }
  }

  lemma SameCandidates(x: Inputs, y: Inputs, e: Bank, k: nat, r: Rules, test: BankTest, used: set<string>)
    requires Extends(x, y, e, k) && !e.Eligible()
    ensures BankCandidates(r, test, used, y.banks) == BankCandidates(r, test, used, x.banks)
  {
    CandidatesSkip(r, test, used, x.banks[..k], e, x.banks[k..]);
    assert x.banks[..k] + x.banks[k..] == x.banks;
  }

  /** Every task decides the same with the entry present. */
  lemma SameDecision(x: Inputs, y: Inputs, e: Bank, k: nat, r: Rules, t: Task, l: Ledger)
    requires Extends(x, y, e, k) && !e.Eligible()
    ensures Decide(y, r, t, l) == Decide(x, r, t, l)
  {
    match t
    case Exact(v) => SameCandidates(x, y, e, k, r, ExactFor(v), l.banks);
    case Payout(g) => SameCandidates(x, y, e, k, r, PayoutOf(g), l.banks);
    case Near(v) => SameCandidates(x, y, e, k, r, NearFor(v), l.banks);
    case ManyBanks(v) => SameCandidates(x, y, e, k, r, PartOf(v), l.banks);
    case _ =>
  }

  lemma {:induction false} SameSettle(x: Inputs, y: Inputs, e: Bank, k: nat, r: Rules, tasks: seq<Task>, l: Ledger)
    requires Extends(x, y, e, k) && !e.Eligible()
    ensures Settle(y, r, tasks, l) == Settle(x, r, tasks, l)
  {
    if tasks != [] {
      var n := |tasks| - 1;
      SameSettle(x, y, e, k, r, tasks[..n], l);
      SameDecision(x, y, e, k, r, tasks[n], Settle(x, r, tasks[..n], l));
    }
  }

  /** A task that never reports can be dropped. */
  lemma DropSilent(x: Inputs, r: Rules, a: seq<Task>, t: Task, b: seq<Task>, l: Ledger)
    requires forall m :: Decide(x, r, t, m) == None
    ensures Settle(x, r, a + [t] + b, l) == Settle(x, r, a + b, l)
  {
    SettleConcat(x, r, a + [t], b, l);
    SettleConcat(x, r, a, b, l);
    assert (a + [t])[..|a|] == a;
  }

  // The groups of the first pass gain [e] and nothing else.

  lemma {:induction false} TwinsSkip(p: Fingerprint, before: seq<Bank>, e: Bank, after: seq<Bank>)
    requires e.Print() != p
    ensures Twins(p, before + [e] + after) == Twins(p, before + after)
    decreases |after|
  {
    if after == [] {
      assert (before + [e] + after)[..|before|] == before && before + after == before;
    } else {
      var n := |after| - 1;
      assert (before + [e] + after)[..|before| + 1 + n] == before + [e] + after[..n];
      assert (before + after)[..|before| + n] == before + after[..n];
      TwinsSkip(p, before, e, after[..n]);
    }
  }

  lemma {:induction false} TwinsOfStranger(p: Fingerprint, banks: seq<Bank>)
    requires forall b :: b in banks ==> b.Print() != p
    ensures Twins(p, banks) == []
  {
    if banks != [] {
      TwinsOfStranger(p, banks[..|banks| - 1]);
    }
  }

  lemma {:induction false} TwinsOfNewcomer(before: seq<Bank>, e: Bank, after: seq<Bank>)
    requires forall b :: b in before + after ==> b.Print() != e.Print()
    ensures Twins(e.Print(), before + [e] + after) == [e]
    decreases |after|
  {
    if after == [] {
      assert (before + [e] + after)[..|before|] == before;
      TwinsOfStranger(e.Print(), before);
    } else {
      var n := |after| - 1;
      assert (before + [e] + after)[..|before| + 1 + n] == before + [e] + after[..n];
      assert after[n] in before + after;
      TwinsOfNewcomer(before, e, after[..n]);
    }
  }

  lemma {:induction false} PrintsGain(before: seq<Bank>, e: Bank, after: seq<Bank>) returns (j: nat)
    requires forall b :: b in before + after ==> b.Print() != e.Print()
    ensures j <= |Prints(before + after)|
    ensures Prints(before + [e] + after)
      == Prints(before + after)[..j] + [e.Print()] + Prints(before + after)[j..]
    decreases |after|
  {
    if after == [] {
      j := |Prints(before)|;
      assert before + after == before && (before + [e] + after)[..|before|] == before;
      PrintsAre(before);
    } else {
      var n := |after| - 1;
      assert after[n] in before + after;
      j := PrintsGain(before, e, after[..n]);
      PrintsGainOne(before + after[..n], before + [e] + after[..n], e, after[n], j);
      assert before + [e] + after[..n] + [after[n]] == before + [e] + after;
      assert before + after[..n] + [after[n]] == before + after;
    }
  }

  /** One more entry of another fingerprint does not move the gap. */
  lemma PrintsGainOne(short: seq<Bank>, long: seq<Bank>, e: Bank, b: Bank, j: nat)
    requires j <= |Prints(short)| && b.Print() != e.Print()
    requires Prints(long) == Prints(short)[..j] + [e.Print()] + Prints(short)[j..]
    ensures j <= |Prints(short + [b])|
    ensures Prints(long + [b]) == Prints(short + [b])[..j] + [e.Print()] + Prints(short + [b])[j..]
  {
    PrintsSnoc(short, b);
    PrintsSnoc(long, b);
    GapBeforeSnoc(Prints(short), e.Print(), j, b.Print());
  }

  lemma PrintsSnoc(banks: seq<Bank>, b: Bank)
    ensures Prints(banks + [b]) == if b.Print() in Prints(banks) then Prints(banks) else Prints(banks) + [b.Print()]
  {
    assert (banks + [b])[..|banks|] == banks;
  }

  lemma GapBeforeSnoc<T>(s: seq<T>, x: T, j: nat, y: T)
    requires j <= |s| && x != y
    ensures y in s[..j] + [x] + s[j..] <==> y in s
    ensures s[..j] + [x] + s[j..] + [y] == (s + [y])[..j] + [x] + (s + [y])[j..]
  {
    assert s == s[..j] + s[j..];
  }

  lemma GroupsGain(x: Inputs, y: Inputs, e: Bank, k: nat) returns (i: nat)
    requires Extends(x, y, e, k) && UniqueIds(y)
    requires forall b :: b in x.banks ==> b.Print() != e.Print()
    ensures i <= |SortedTwinGroups(x)|
    ensures SortedTwinGroups(y) == SortedTwinGroups(x)[..i] + [[e]] + SortedTwinGroups(x)[i..]
  {
    var before, after := x.banks[..k], x.banks[k..];
    assert before + after == x.banks;
    var j := PrintsGain(before, e, after);
    TwinsOfNewcomer(before, e, after);
    var groups, gained, prints := TwinGroups(x.banks), TwinGroups(y.banks), Prints(x.banks);
    PrintsAre(x.banks);
    forall n | 0 <= n < |prints| ensures Twins(prints[n], y.banks) == groups[n] {
      assert prints[n] in prints;
      TwinsSkip(prints[n], before, e, after);
    }
    assert gained == groups[..j] + [[e]] + groups[j..];
    assert groups == groups[..j] + groups[j..];
    assert multiset(gained) == multiset([[e]] + groups);
    SortKeysAreTotalPreorders();
    TwinGroupsHaveNoTies(y);
    i := SortOpensGap([e], groups, gained, HeadBefore);
    SortIsPermutation(groups, HeadBefore);
  }

  lemma TwinGroupsHaveNoTies(x: Inputs)
    requires UniqueIds(x)
    ensures Tieless(TwinGroups(x.banks), HeadBefore)
  {
    TwinGroupsAre(x);
    SortIsPermutation(TwinGroups(x.banks), HeadBefore);
    assert Distinct(InputIds(BankKind, x));
    forall g: seq<Bank>, h: seq<Bank> | g in TwinGroups(x.banks) && h in TwinGroups(x.banks) && HeadBefore(g, h) && HeadBefore(h, g)
      ensures g == h
    {
      assert Sound(x, Quarantine(g)) && Sound(x, Quarantine(h));
      TwinsAre(g[0].Print(), x.banks);
      TwinsAre(h[0].Print(), x.banks);
      StringLeAntisymmetric(HeadId(g), HeadId(h));
      assert g[0] in g && h[0] in h;
      BankIdNamesOne(x.banks, g[0], h[0]);
    }
  }

  lemma Regroup<T>(a: seq<T>, t: T, b: seq<T>, middle: seq<T>, c: seq<T>, u: T, d: seq<T>, closing: seq<T>)
    ensures (a + [t] + b) + middle + (c + [u] + d) + closing == a + [t] + ((b + middle + c) + [u] + (d + closing))
    ensures (a + b) + middle + (c + d) + closing == a + (b + middle + c) + (d + closing)
  {
  }

  lemma QuarantineTasksGain(groups: seq<seq<Bank>>, g: seq<Bank>, i: nat)
    requires i <= |groups|
    ensures QuarantineTasks(groups[..i] + [g] + groups[i..])
      == QuarantineTasks(groups)[..i] + [Quarantine(g)] + QuarantineTasks(groups)[i..]
  {
  }

  lemma ManyInvoicesTasksGain(banks: seq<Bank>, e: Bank, k: nat)
    requires k <= |banks|
    ensures ManyInvoicesTasks(banks[..k] + [e] + banks[k..])
      == ManyInvoicesTasks(banks)[..k] + [ManyInvoices(e)] + ManyInvoicesTasks(banks)[k..]
  {
  }

  /** Up to the leftovers the agenda gains two tasks about the newcomer. */
  lemma MatchingTasksGain(x: Inputs, y: Inputs, e: Bank, k: nat) returns (a: seq<Task>, b: seq<Task>, c: seq<Task>)
    requires Extends(x, y, e, k) && UniqueIds(y)
    requires forall b :: b in x.banks ==> b.Print() != e.Print()
    ensures MatchingTasks(x) == a + b + c
    ensures MatchingTasks(y) == a + [Quarantine([e])] + (b + [ManyInvoices(e)] + c)
  {
    var i := GroupsGain(x, y, e, k);
    var q, m := QuarantineTasks(SortedTwinGroups(x)), ManyInvoicesTasks(x.banks);
    var q0, q1, m0, m1 := q[..i], q[i..], m[..k], m[k..];
    QuarantineTasksGain(SortedTwinGroups(x), [e], i);
    ManyInvoicesTasksGain(x.banks, e, k);
    assert q == q0 + q1 && m == m0 + m1;
    Regroup(q0, Quarantine([e]), q1, MiddleTasks(x), m0, ManyInvoices(e), m1, ClosingTasks(x));
    a, b, c := q0, q1 + MiddleTasks(x) + m0, m1 + ClosingTasks(x);
  }

  lemma MatchingUnchanged(x: Inputs, y: Inputs, e: Bank, k: nat, r: Rules)
    requires Extends(x, y, e, k) && UniqueIds(y) && !e.Eligible()
    requires forall b :: b in x.banks ==> b.Print() != e.Print()
    ensures Settle(y, r, MatchingTasks(y), EMPTY_LEDGER) == Settle(x, r, MatchingTasks(x), EMPTY_LEDGER)
  {
    var a, b, c := MatchingTasksGain(x, y, e, k);
    DropNewcomerTasks(x, y, e, k, r, a, b, c, EMPTY_LEDGER);
  }

  lemma DropNewcomerTasks(
      x: Inputs, y: Inputs, e: Bank, k: nat, r: Rules, a: seq<Task>, b: seq<Task>, c: seq<Task>, l: Ledger)
    requires Extends(x, y, e, k) && !e.Eligible()
    ensures Settle(y, r, a + [Quarantine([e])] + (b + [ManyInvoices(e)] + c), l) == Settle(x, r, a + b + c, l)
  {
    DropSilent(y, r, a, Quarantine([e]), b + [ManyInvoices(e)] + c, l);
    assert a + (b + [ManyInvoices(e)] + c) == a + b + [ManyInvoices(e)] + c;
    DropSilent(y, r, a + b, ManyInvoices(e), c, l);
    SameSettle(x, y, e, k, r, a + b + c, l);
  }

  /** Reporting the leftovers is indifferent to an entry consumed and reported in between. */
  lemma {:induction false} LeftoversUnchanged(x: Inputs, r: Rules, e: Bank, o: Outcome, tasks: seq<Task>, l: Ledger)
    requires o.bankIds == [e.id] && o.invoiceIds == [] && o.gatewayIds == []
    requires forall t :: t in tasks ==> (t.LeftoverBank? && t.bank.id != e.id) || t.LeftoverInvoice?
    ensures var with, without := Settle(x, r, tasks, l.Add(o)), Settle(x, r, tasks, l);
      && l.outcomes <= without.outcomes
      && with.outcomes == l.outcomes + [o] + without.outcomes[|l.outcomes|..]
      && with.banks == without.banks + {e.id} && with.invoices == without.invoices
  {
    if tasks == [] {
      assert IdSet(o.bankIds) == {e.id} && IdSet(o.invoiceIds) == {};
    } else {
      var n := |tasks| - 1;
      LeftoversUnchanged(x, r, e, o, tasks[..n], l);
      assert tasks[n] in tasks;
    }
  }

  lemma BankIdsKnownSoFar(x: Inputs, r: Rules, j: nat)
    requires UniqueIds(x) && j <= |Agenda(x)|
    ensures Settle(x, r, Agenda(x)[..j], EMPTY_LEDGER).banks <= IdSet(BankIds(x.banks))
  {
    AgendaIsOrderly(x);
    SettleKeepsAccounted(x, r, Agenda(x)[..j], EMPTY_LEDGER);
    var l := Settle(x, r, Agenda(x)[..j], EMPTY_LEDGER);
    assert l.Used(BankKind) <= IdSet(InputIds(BankKind, x));
  }

  lemma RegroupEnd<T>(a: seq<T>, b: seq<T>, t: T, c: seq<T>, d: seq<T>)
    ensures a + (b + [t] + c) + d == a + b + [t] + (c + d)
    ensures a + (b + c) + d == a + b + (c + d)
  {
  }

  /** The leftovers gain one task about the newcomer. */
  lemma AgendaSplit(x: Inputs, y: Inputs, e: Bank, k: nat) returns (before: seq<Task>, after: seq<Task>)
    requires Extends(x, y, e, k)
    ensures Agenda(x) == MatchingTasks(x) + before + after
    ensures Agenda(y) == MatchingTasks(y) + before + [LeftoverBank(e)] + after
    ensures forall t :: t in after ==> (t.LeftoverBank? && t.bank in x.banks) || t.LeftoverInvoice?
  {
    var left, tail := LeftoverBankTasks(x.banks), LeftoverInvoiceTasks(x.invoices);
    var left0, left1 := left[..k], left[k..];
    assert LeftoverBankTasks(y.banks) == left0 + [LeftoverBank(e)] + left1;
    assert left == left0 + left1;
    RegroupEnd(MatchingTasks(x), left0, LeftoverBank(e), left1, tail);
    RegroupEnd(MatchingTasks(y), left0, LeftoverBank(e), left1, tail);
    before, after := left0, left1 + tail;
    assert forall t :: t in left1 ==> t in left;
  }

  /** The newcomer's own leftover task divides the agenda; what comes before it acts alike. */
  lemma AgendaDivides(x: Inputs, y: Inputs, e: Bank, k: nat, r: Rules)
      returns (head: seq<Task>, start: seq<Task>, after: seq<Task>)
    requires Extends(x, y, e, k) && UniqueIds(y) && !e.Eligible()
    requires forall b :: b in x.banks ==> b.Print() != e.Print()
    ensures Agenda(x) == head + after
    ensures Agenda(y) == start + [LeftoverBank(e)] + after
    ensures forall t :: t in after ==> (t.LeftoverBank? && t.bank in x.banks) || t.LeftoverInvoice?
    ensures Settle(y, r, start, EMPTY_LEDGER) == Settle(x, r, head, EMPTY_LEDGER)
  {
    var before;
    before, after := AgendaSplit(x, y, e, k);
    head, start := MatchingTasks(x) + before, MatchingTasks(y) + before;
    MatchingUnchanged(x, y, e, k, r);
    SettleConcat(x, r, MatchingTasks(x), before, EMPTY_LEDGER);
    SettleConcat(y, r, MatchingTasks(y), before, EMPTY_LEDGER);
    SameSettle(x, y, e, k, r, before, Settle(x, r, MatchingTasks(x), EMPTY_LEDGER));
  }

  lemma TakeFromMiddle(x: Inputs, r: Rules, before: seq<Task>, t: Task, after: seq<Task>, l: Ledger)
    ensures Settle(x, r, before + [t] + after, l) == Settle(x, r, after, Step(x, r, t, Settle(x, r, before, l)))
  {
    SettleConcat(x, r, before + [t], after, l);
    assert (before + [t])[..|before|] == before;
  }

  lemma NewcomerIsUnknown(x: Inputs, e: Bank, r: Rules, head: seq<Task>, after: seq<Task>)
    requires UniqueIds(x) && Agenda(x) == head + after
    requires forall b :: b in x.banks ==> b.id != e.id
    ensures e.id !in Settle(x, r, head, EMPTY_LEDGER).banks
  {
    assert Agenda(x)[..|head|] == head;
    BankIdsKnownSoFar(x, r, |head|);
    BankIdsAre(x.banks);
  }

  /** On sorted inputs: the outcomes gain the one leftover. */
  lemma SortedFrame(x: Inputs, y: Inputs, e: Bank, k: nat, r: Rules) returns (p: nat)
    requires Extends(x, y, e, k) && UniqueIds(x) && UniqueIds(y) && !e.Eligible()
    requires forall b :: b in x.banks ==> b.Print() != e.Print() && b.id != e.id
    ensures var without := Settle(x, r, Agenda(x), EMPTY_LEDGER).outcomes;
      && p <= |without|
      && Settle(y, r, Agenda(y), EMPTY_LEDGER).outcomes
         == without[..p] + [LeftoverBankOutcome(e)] + without[p..]
  {
    var head, start, after := AgendaDivides(x, y, e, k, r);
    NewcomerIsUnknown(x, e, r, head, after);
    p := TwoEndings(x, y, e, k, r, head, start, after);
  }

  lemma TwoEndings(
      x: Inputs, y: Inputs, e: Bank, k: nat, r: Rules, head: seq<Task>, start: seq<Task>, after: seq<Task>)
      returns (p: nat)
    requires Extends(x, y, e, k) && !e.Eligible()
    requires forall t :: t in after ==> (t.LeftoverBank? && t.bank.id != e.id) || t.LeftoverInvoice?
    requires Settle(y, r, start, EMPTY_LEDGER) == Settle(x, r, head, EMPTY_LEDGER)
    requires e.id !in Settle(x, r, head, EMPTY_LEDGER).banks
    ensures var without := Settle(x, r, head + after, EMPTY_LEDGER).outcomes;
      && p <= |without|
      && Settle(y, r, start + [LeftoverBank(e)] + after, EMPTY_LEDGER).outcomes
         == without[..p] + [LeftoverBankOutcome(e)] + without[p..]
  {
    var m, o := Settle(x, r, head, EMPTY_LEDGER), LeftoverBankOutcome(e);
    SettleConcat(x, r, head, after, EMPTY_LEDGER);
    TakeFromMiddle(y, r, start, LeftoverBank(e), after, EMPTY_LEDGER);
    SameSettle(x, y, e, k, r, after, m.Add(o));
    LeftoversUnchanged(x, r, e, o, after, m);
    p := |m.outcomes|;
  }

  /** Main result: adding an ineligible entry with a fresh fingerprint adds exactly its own
      UNMATCHED_BANK_TRANSACTION and leaves every other outcome, in order, as it was. */
  lemma FrameTheorem(x: Inputs, e: Bank, r: Rules) returns (p: nat)
    requires UniqueIds(Inputs([e] + x.banks, x.invoices, x.gateways)) && !e.Eligible()
    requires forall b :: b in x.banks ==> b.Print() != e.Print()
    ensures p <= |Outcomes(x, r)|
    ensures Outcomes(Inputs([e] + x.banks, x.invoices, x.gateways), r)
      == Outcomes(x, r)[..p] + [LeftoverBankOutcome(e)] + Outcomes(x, r)[p..]
  {
    var z := Inputs([e] + x.banks, x.invoices, x.gateways);
    assert Distinct(InputIds(BankKind, z)) && Distinct(InputIds(InvoiceKind, z)) && Distinct(InputIds(GatewayKind, z));
    assert BankIds(x.banks) == BankIds(z.banks)[1..];
    forall k ensures Distinct(InputIds(k, x)) {
      assert InputIds(k, x) == if k.BankKind? then InputIds(k, z)[1..] else InputIds(k, z);
    }
    SortKeysAreTotalPreorders();
    UniqueIdsLeaveNoTies(z);
    var k := SortOpensGap(e, x.banks, z.banks, BankBefore);
    SortIsPermutation(x.banks, BankBefore);
    SortInputsKeepsUniqueness(x);
    SortInputsKeepsUniqueness(z);
    forall b | b in x.banks ensures b.id != e.id {
      var i :| 0 <= i < |x.banks| && x.banks[i] == b;
      assert BankIds(z.banks)[0] != BankIds(z.banks)[i + 1];
    }
    p := SortedFrame(SortInputs(x), SortInputs(z), e, k, r);
  }
}
