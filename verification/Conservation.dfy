/** Money is neither lost nor counted twice: the reported actual amounts add up to the bank
    amounts, one per distinct duplicate fingerprint. */
module Conservation {
  import opened Ordering
  import opened Combinations
  import opened Records
  import opened Matching
  import opened MatchingFacts
  import opened Partition

  function ActualOf(o: Outcome): int
  {
    if o.actual.Some? then o.actual.value else 0
  }

  /** The sum of all non-null actual amounts. */
  function ActualTotal(outcomes: seq<Outcome>): int
  {
    if outcomes == [] then 0 else ActualTotal(outcomes[..|outcomes| - 1]) + ActualOf(outcomes[|outcomes| - 1])
  }

  /** The amounts of a set of fingerprints, each counted once. */
  ghost function PrintTotal(prints: set<Fingerprint>): int
  {
    if prints == {} then 0
    else
      var p :| p in prints;
      p.amount + PrintTotal(prints - {p})
  }

  ghost function PrintsOf(banks: seq<Bank>): set<Fingerprint>
  {
    set b | b in banks :: b.Print()
  }

  ghost function UsedPrints(x: Inputs, l: Ledger): set<Fingerprint>
  {
    set b | b in x.banks && b.id in l.banks :: b.Print()
  }

  lemma {:induction false} PrintTotalAdd(prints: set<Fingerprint>, p: Fingerprint)
    requires p !in prints
    ensures PrintTotal(prints + {p}) == PrintTotal(prints) + p.amount
    decreases prints
  {
    var all := prints + {p};
    var q :| q in all && PrintTotal(all) == q.amount + PrintTotal(all - {q});
    if q == p {
      assert all - {p} == prints;
    } else {
      PrintTotalAdd(prints - {q}, p);
      assert all - {q} == (prints - {q}) + {p};
      PrintTotalAdd(prints - {q}, q);
      assert (prints - {q}) + {q} == prints;
    }
  }

  /** Twins are consumed together, */
  ghost predicate Closed(x: Inputs, l: Ledger)
  {
    forall b, c :: b in x.banks && c in x.banks && b.Print() == c.Print() && b.id in l.banks ==> c.id in l.banks
  }

  /** and after the first pass every entry with a twin is consumed. */
  ghost predicate Quarantined(x: Inputs, l: Ledger)
  {
    forall b, c :: b in x.banks && c in x.banks && b.Print() == c.Print() && b != c ==> b.id in l.banks
  }

  ghost predicate Conserved(x: Inputs, l: Ledger)
  {
    Closed(x, l) && ActualTotal(l.outcomes) == PrintTotal(UsedPrints(x, l))
  }

  lemma UsedPrintsGrow(x: Inputs, l: Ledger, o: Outcome, banks: seq<Bank>)
    requires UniqueIds(x) && o.bankIds == BankIds(banks) && forall b :: b in banks ==> b in x.banks
    ensures UsedPrints(x, l.Add(o)) == UsedPrints(x, l) + PrintsOf(banks)
  {
    assert Distinct(InputIds(BankKind, x));
    BankIdsAre(banks);
    forall b | b in x.banks && b.id in BankIds(banks) ensures b in banks {
      var c :| c in banks && c.id == b.id;
      BankIdNamesOne(x.banks, b, c);
    }
  }

  /** Amounts of twinless entries add up print by print. */
  lemma {:induction false} AmountsByPrint(prints: set<Fingerprint>, banks: seq<Bank>)
    requires forall b :: b in banks ==> b.Print() !in prints
    requires forall i, j :: 0 <= i < j < |banks| ==> banks[i].Print() != banks[j].Print()
    ensures PrintTotal(prints + PrintsOf(banks)) == PrintTotal(prints) + Total(Amounts(banks))
    decreases |banks|
  {
    if banks == [] {
      assert prints + PrintsOf(banks) == prints;
    } else {
      var p, rest := banks[0].Print(), banks[1..];
      forall b | b in rest ensures b.Print() !in prints + {p} {
        var i :| 0 <= i < |rest| && rest[i] == b;
        assert banks[i + 1] == b;
      }
      AmountsByPrint(prints + {p}, rest);
      PrintTotalAdd(prints, p);
      PrintsOfCons(banks);
      assert prints + PrintsOf(banks) == prints + {p} + PrintsOf(rest);
      assert Amounts(banks)[1..] == Amounts(rest);
    }
  }

  lemma PrintsOfCons(banks: seq<Bank>)
    requires banks != []
    ensures PrintsOf(banks) == {banks[0].Print()} + PrintsOf(banks[1..])
  {
    assert banks == [banks[0]] + banks[1..];
  }

  lemma FreshEntriesAreTwinless(x: Inputs, l: Ledger, banks: seq<Bank>)
    requires Quarantined(x, l) && Distinct(BankIds(banks))
    requires forall b :: b in banks ==> b in x.banks && b.id !in l.banks
    ensures forall b, c :: b in banks && c in x.banks && c.Print() == b.Print() ==> c.id !in l.banks
    ensures forall i, j :: 0 <= i < j < |banks| ==> banks[i].Print() != banks[j].Print()
  {
    forall i, j | 0 <= i < j < |banks| ensures banks[i].Print() != banks[j].Print() {
      assert banks[i] in banks && banks[j] in banks;
      assert BankIds(banks)[i] != BankIds(banks)[j];
    }
  }

  /** Consuming twinless entries at their amounts conserves. */
  lemma AddTwinless(x: Inputs, l: Ledger, o: Outcome, banks: seq<Bank>)
    requires UniqueIds(x) && Conserved(x, l) && Quarantined(x, l)
    requires o.bankIds == BankIds(banks) && Distinct(BankIds(banks))
    requires forall b :: b in banks ==> b in x.banks && b.id !in l.banks
    requires ActualOf(o) == Total(Amounts(banks))
    ensures Conserved(x, l.Add(o)) && Quarantined(x, l.Add(o))
  {
    var m := l.Add(o);
    BankIdsAre(banks);
    UsedPrintsGrow(x, l, o, banks);
    FreshEntriesAreTwinless(x, l, banks);
    AmountsByPrint(UsedPrints(x, l), banks);
    assert m.outcomes[..|m.outcomes| - 1] == l.outcomes;
  }

  /** Quarantining a whole group at one amount conserves. */
  lemma AddTwins(x: Inputs, l: Ledger, o: Outcome, g: seq<Bank>)
    requires UniqueIds(x) && Conserved(x, l) && Sound(x, Quarantine(g)) && Ready(Quarantine(g), l)
    requires o.bankIds == BankIds(g) && ActualOf(o) == g[0].amount
    ensures Conserved(x, l.Add(o))
  {
    hide PrintTotal;
    var m, p := l.Add(o), g[0].Print();
    TwinsAre(p, x.banks);
    BankIdsAre(g);
    UsedPrintsGrow(x, l, o, g);
    assert g[0] in g;
    assert PrintsOf(g) == {p};
    forall c | c in x.banks && c.Print() == p ensures c.id !in l.banks {
      assert c in g && c.id in IdSet(BankIds(g));
    }
    PrintTotalAdd(UsedPrints(x, l), p);
    assert m.outcomes[..|m.outcomes| - 1] == l.outcomes;
    forall b, c | b in x.banks && c in x.banks && b.Print() == c.Print() && b.id in m.banks
      ensures c.id in m.banks
    {
      if b.id !in l.banks {
        var d :| d in g && d.id == b.id;
        assert Distinct(InputIds(BankKind, x));
        BankIdNamesOne(x.banks, b, d);
        assert c in g;
      }
    }
  }

  /** Every later pass conserves. */
  lemma StepConserves(x: Inputs, r: Rules, t: Task, l: Ledger)
    requires UniqueIds(x) && Sound(x, t) && !t.Quarantine? && Conserved(x, l) && Quarantined(x, l)
    ensures Conserved(x, Step(x, r, t, l)) && Quarantined(x, Step(x, r, t, l))
  {
    if Decide(x, r, t, l).Some? {
      var o := Decide(x, r, t, l).value;
      match t
      case Exact(v) =>
        FreshCandidateBanks(x, r, ExactFor(v), l);
        AddOneBank(x, l, o, BankCandidates(r, ExactFor(v), l.banks, x.banks)[0]);
      case Payout(g) =>
        FreshCandidateBanks(x, r, PayoutOf(g), l);
        AddOneBank(x, l, o, BankCandidates(r, PayoutOf(g), l.banks, x.banks)[0]);
      case Near(v) =>
        FreshCandidateBanks(x, r, NearFor(v), l);
        AddOneBank(x, l, o, BankCandidates(r, NearFor(v), l.banks, x.banks)[0]);
      case ManyInvoices(b) => AddOneBank(x, l, o, b);
      case ManyBanks(v) =>
        var c := BankCandidates(r, PartOf(v), l.banks, x.banks);
        FreshCandidateBanks(x, r, PartOf(v), l);
        ChosenBanksAre(r, c, v.amountDue);
        AddTwinless(x, l, o, ChosenBanks(r, c, v.amountDue));
      case Awaiting(g) => AddTwinless(x, l, o, []);
      case LeftoverBank(b) => AddOneBank(x, l, o, b);
      case LeftoverInvoice(v) => AddTwinless(x, l, o, []);
    }
  }

  lemma AddOneBank(x: Inputs, l: Ledger, o: Outcome, b: Bank)
    requires UniqueIds(x) && Conserved(x, l) && Quarantined(x, l)
    requires o.bankIds == [b.id] && o.actual == Some(b.amount) && b in x.banks && b.id !in l.banks
    ensures Conserved(x, l.Add(o)) && Quarantined(x, l.Add(o))
  {
    assert BankIds([b]) == [b.id] && Amounts([b]) == [b.amount];
    assert Total([b.amount]) == b.amount + Total([b.amount][1..]) == b.amount;
    AddTwinless(x, l, o, [b]);
  }

  lemma {:induction false} LaterPassesConserve(x: Inputs, r: Rules, tasks: seq<Task>, l: Ledger)
    requires UniqueIds(x) && Conserved(x, l) && Quarantined(x, l)
    requires forall t :: t in tasks ==> Sound(x, t) && !t.Quarantine?
    ensures Conserved(x, Settle(x, r, tasks, l))
    ensures Quarantined(x, Settle(x, r, tasks, l))
  {
    if tasks != [] {
      var n := |tasks| - 1;
      LaterPassesConserve(x, r, tasks[..n], l);
      StepConserves(x, r, tasks[n], Settle(x, r, tasks[..n], l));
    }
  }

  lemma {:induction false} FirstPassConserves(x: Inputs, r: Rules, tasks: seq<Task>, l: Ledger)
    requires UniqueIds(x) && Conserved(x, l) && Orderly(x, tasks)
    requires forall t :: t in tasks ==> t.Quarantine? && Ready(t, l)
    ensures Conserved(x, Settle(x, r, tasks, l))
  {
    if tasks != [] {
      var n := |tasks| - 1;
      var m := Settle(x, r, tasks[..n], l);
      FirstPassConserves(x, r, tasks[..n], l);
      assert tasks[n] in tasks;
      SettleKeepsReady(x, r, tasks[..n], tasks[n], l);
      if Decide(x, r, tasks[n], m).Some? {
        AddTwins(x, m, Decide(x, r, tasks[n], m).value, tasks[n].twins);
      }
    }
  }

  lemma FirstPassQuarantines(x: Inputs, r: Rules)
    requires UniqueIds(x)
    ensures Quarantined(x, Settle(x, r, QuarantineTasks(SortedTwinGroups(x)), EMPTY_LEDGER))
  {
    var groups := SortedTwinGroups(x);
    var tasks := QuarantineTasks(groups);
    var l := Settle(x, r, tasks, EMPTY_LEDGER);
    TwinGroupsAre(x);
    SettleIsDone(x, r, tasks, EMPTY_LEDGER);
    forall b, c | b in x.banks && c in x.banks && b.Print() == c.Print() && b != c ensures b.id in l.banks {
      var g := Twins(b.Print(), x.banks);
      TwinsAre(b.Print(), x.banks);
      var i :| 0 <= i < |groups| && groups[i] == g;
      assert tasks[i] in tasks;
      assert b in g && c in g;
      assert |g| >= 2;
    }
  }

  /** The agenda after its first pass. */
  function TasksAfterQuarantine(x: Inputs): seq<Task>
  {
    MiddleTasks(x) + ManyInvoicesTasks(x.banks) + ClosingTasks(x)
    + LeftoverBankTasks(x.banks) + LeftoverInvoiceTasks(x.invoices)
  }

  lemma TasksAfterQuarantineAreSound(x: Inputs)
    requires UniqueIds(x)
    ensures forall t :: t in TasksAfterQuarantine(x) ==> Sound(x, t) && !t.Quarantine?
    ensures Agenda(x) == QuarantineTasks(SortedTwinGroups(x)) + TasksAfterQuarantine(x)
  {
    MiddleTasksAreOrderly(x);
    LaterTasksArePlain(x);
  }

  lemma FinalLedgerIsConserved(x: Inputs, r: Rules)
    requires UniqueIds(x)
    ensures Conserved(x, Settle(x, r, Agenda(x), EMPTY_LEDGER))
  {
    var first := QuarantineTasks(SortedTwinGroups(x));
    QuarantineTasksAreOrderly(x);
    assert UsedPrints(x, EMPTY_LEDGER) == {};
    FirstPassConserves(x, r, first, EMPTY_LEDGER);
    FirstPassQuarantines(x, r);
    TasksAfterQuarantineAreSound(x);
    LaterPassesConserve(x, r, TasksAfterQuarantine(x), Settle(x, r, first, EMPTY_LEDGER));
    SettleConcat(x, r, first, TasksAfterQuarantine(x), EMPTY_LEDGER);
  }

  /** Main result: the non-null actual amounts of the outcomes sum to the bank amounts, counting
      each duplicate fingerprint once. */
  lemma ConservationTheorem(x: Inputs, r: Rules)
    requires UniqueIds(x)
    ensures ActualTotal(Outcomes(x, r)) == PrintTotal(PrintsOf(x.banks))
  {
    var y := SortInputs(x);
    SortInputsKeepsUniqueness(x);
    SortIsPermutation(x.banks, BankBefore);
    FinalLedgerIsConserved(y, r);
    EverythingIsUsed(y, r, BankKind);
    BankIdsAre(y.banks);
    assert PrintsOf(y.banks) == PrintsOf(x.banks);
    assert UsedPrints(y, Settle(y, r, Agenda(y), EMPTY_LEDGER)) == PrintsOf(y.banks);
  }
}
