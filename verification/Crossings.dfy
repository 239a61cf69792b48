/** Three inputs whose report does not keep to one currency, one for each rule that links invoices
    without comparing their currency with the outcome's. They cross under any configuration and any
    text matching that finds an invoice number quoted word for word. */
module Crossings {
  import opened Ordering
  import opened Combinations
  import opened Records
  import opened Matching
  import opened MatchingFacts
  import opened Partition
  import opened Conservation
  import opened Currency
  import opened OrderIndependence

  // Once everything is consumed nothing more is reported.

  ghost predicate AllUsed(x: Inputs, l: Ledger)
  {
    forall k :: IdSet(InputIds(k, x)) <= l.Used(k)
  }

  lemma UsedUpReportsNothing(x: Inputs, r: Rules, t: Task, l: Ledger)
    requires AllUsed(x, l) && Sound(x, t) && !t.Quarantine?
    ensures Decide(x, r, t, l).None?
  {
    BankIdsAre(x.banks);
    InvoiceIdsAre(x.invoices);
    GatewayIdsAre(x.gateways);
    assert IdSet(InputIds(BankKind, x)) <= l.banks && IdSet(InputIds(InvoiceKind, x)) <= l.invoices;
    assert IdSet(InputIds(GatewayKind, x)) <= l.gateways;
    match t
    case Payout(g) =>
      var c := BankCandidates(r, PayoutOf(g), l.banks, x.banks);
      BankCandidatesAre(r, PayoutOf(g), l.banks, x.banks);
      assert forall b :: b !in c;
    case Awaiting(g) =>
      var rest := Unsettled(l.gateways, g);
      MembersAre(g[0].settlementId, x.gateways);
      UnsettledAre(l.gateways, g);
      assert forall e :: e !in rest;
    case _ =>
  }

  lemma {:induction false} UsedUpSettlesNothing(x: Inputs, r: Rules, tasks: seq<Task>, l: Ledger)
    requires AllUsed(x, l) && forall t :: t in tasks ==> Sound(x, t) && !t.Quarantine?
    ensures Settle(x, r, tasks, l) == l
  {
    if tasks != [] {
      UsedUpSettlesNothing(x, r, tasks[..|tasks| - 1], l);
      UsedUpReportsNothing(x, r, tasks[|tasks| - 1], l);
    }
  }

  lemma {:induction false} QuietStart(x: Inputs, r: Rules, tasks: seq<Task>)
    requires forall t :: t in tasks ==> Decide(x, r, t, EMPTY_LEDGER).None?
    ensures Settle(x, r, tasks, EMPTY_LEDGER) == EMPTY_LEDGER
  {
    if tasks != [] {
      QuietStart(x, r, tasks[..|tasks| - 1]);
    }
  }

  /** If the first tasks report nothing and the next one an outcome that mentions every record, then that
      outcome is the whole report. */
  lemma OneOutcomeReport(x: Inputs, r: Rules, before: seq<Task>, t: Task, after: seq<Task>, o: Outcome)
    requires UniqueIds(x) && SortInputs(x) == x && Agenda(x) == before + [t] + after
    requires forall u :: u in before ==> Decide(x, r, u, EMPTY_LEDGER).None?
    requires Decide(x, r, t, EMPTY_LEDGER) == Some(o)
    requires forall k :: IdSet(InputIds(k, x)) <= IdSet(IdsOf(k, o))
    requires forall u :: u in after ==> !u.Quarantine?
    ensures Outcomes(x, r) == [o]
  {
    hide Agenda, Decide, SortInputs, UniqueIds;
    var l := EMPTY_LEDGER.Add(o);
    QuietStart(x, r, before);
    SettleConcat(x, r, before + [t], after, EMPTY_LEDGER);
    SettleConcat(x, r, before, [t], EMPTY_LEDGER);
    assert [t][..0] == [];
    forall k ensures l.Used(k) == IdSet(IdsOf(k, o)) {
    }
    AgendaIsOrderly(x);
    UsedUpSettlesNothing(x, r, after, l);
  }

  /** Word-for-word quotes are found, and the date tolerance is not negative. */
  ghost predicate FindsQuotes(r: Rules)
  {
    r.dateToleranceDays >= 0 && forall b: Bank, v: Invoice :: v.number != "" && v.number in b.texts ==> r.mentions(b, v)
  }

  lemma FewRecordsAreUnique(x: Inputs)
    requires |x.banks| <= 2 && |x.invoices| <= 1 && |x.gateways| <= 1
    requires |x.banks| == 2 ==> x.banks[0].id != x.banks[1].id
    ensures UniqueIds(x)
  {
    forall k ensures Distinct(InputIds(k, x)) {
    }
  }

  lemma SingleIsSorted<T>(s: seq<T>, le: (T, T) -> bool)
    requires |s| <= 1
    ensures Sort(s, le) == s
  {
    if s != [] {
      assert Sort(s[1..], le) == [];
      assert s == [s[0]];
    }
  }

  /** The settlements of a single entry. */
  lemma OneSettlement(x: Inputs, e: GatewayEntry)
    requires x.gateways == [e]
    ensures SortedSettlements(x) == [[e]]
  {
    assert [e][..0] == [];
    assert SettlementIds([e]) == [e.settlementId] && Members(e.settlementId, [e]) == [e];
    SingleIsSorted([e.settlementId], StringLe);
  }

  const D1 := Bank("1", "T", None, 10, "USD", 500, Credit, Booked, false, ["N1"])
  const D2 := D1.(id := "2")
  const EURO_INVOICE := Invoice("I1", "N1", None, 10, None, "EUR", 500)

  /** Quarantine: two equal entries in USD quote the number of an invoice in EUR, and take it along. */
  lemma DuplicatesCross(r: Rules)
    requires FindsQuotes(r)
    ensures var x := Inputs([D1, D2], [EURO_INVOICE], []);
      var o := Outcome(DuplicateBankFingerprint, ["1", "2"], ["I1"], [], Some(500), Some(500), Some(0), "USD");
      Reconciliation(x, r) == Reconciled([Result(1, o)]) && !InvoicesShareCurrency(x, o)
  {
    var x := Inputs([D1, D2], [EURO_INVOICE], []);
    var o := Outcome(DuplicateBankFingerprint, ["1", "2"], ["I1"], [], Some(500), Some(500), Some(0), "USD");
    var g := [D1, D2];
    FewRecordsAreUnique(x);
    TwoAreSorted();
    OneTwinGroup();
    SingleIsSorted([EURO_INVOICE], InvoiceBefore);
    SingleIsSorted([g], HeadBefore);
    assert SortInputs(x) == x;
    assert QuarantineTasks(SortedTwinGroups(x)) == [Quarantine(g)];
    assert Agenda(x) == [] + [Quarantine(g)] + TasksAfterQuarantine(x);
    TasksAfterQuarantineAreSound(x);
    QuarantineOfTwins(x, r, o);
    forall k ensures IdSet(InputIds(k, x)) <= IdSet(IdsOf(k, o)) {
      assert GatewayIds(x.gateways) == [];
    }
    OneOutcomeReport(x, r, [], Quarantine(g), TasksAfterQuarantine(x), o);
    ValidationIsExact(SortInputs(x));
    assert EURO_INVOICE in x.invoices;
  }

  lemma QuarantineOfTwins(x: Inputs, r: Rules, o: Outcome)
    requires FindsQuotes(r) && x == Inputs([D1, D2], [EURO_INVOICE], [])
    requires o == Outcome(DuplicateBankFingerprint, ["1", "2"], ["I1"], [], Some(500), Some(500), Some(0), "USD")
    ensures Decide(x, r, Quarantine([D1, D2]), EMPTY_LEDGER) == Some(o)
  {
    var g := [D1, D2];
    assert Refers(r, D1, EURO_INVOICE);
    OnlyInvoice(r, LinkedToDuplicates(g), EURO_INVOICE);
    assert BankIds(g) == ["1", "2"] && InvoiceIds([EURO_INVOICE]) == ["I1"];
  }

  lemma TwoAreSorted()
    ensures Sort([D1, D2], BankBefore) == [D1, D2]
  {
    SingleIsSorted([D2], BankBefore);
    assert [D1, D2][1..] == [D2];
    assert BankBefore(D1, D2);
  }

  lemma OneTwinGroup()
    ensures TwinGroups([D1, D2]) == [[D1, D2]]
  {
    var p := D1.Print();
    assert D2.Print() == p && [D1, D2][..1] == [D1] && [D1][..0] == [];
    assert Prints([D1]) == [p] && Twins(p, [D1]) == [D1];
    assert Prints([D1, D2]) == [p] && Twins(p, [D1, D2]) == [D1, D2];
  }

  lemma OnlyInvoice(r: Rules, test: InvoiceTest, v: Invoice)
    requires InvoicePasses(r, test, v)
    ensures InvoiceCandidates(r, test, {}, [v]) == [v]
  {
    assert [v][1..] == [];
  }

  const DEPOSIT := Bank("1", "T", Some("R"), 10, "EUR", 95, Credit, Booked, false, ["payout"])
  const CHARGE := GatewayEntry("G1", "S", 10, 100, 5, 0, 0, 0, 0, 95, "USD", "EUR", Some("N1"), Some("R"))
  const DOLLAR_INVOICE := Invoice("I1", "N1", None, 10, None, "USD", 100)

  /** Payout: a charge of 100 USD, paid out as 95 EUR, settles an invoice in USD. */
  lemma PayoutCrosses(r: Rules)
    requires r.dateToleranceDays >= 0
    ensures var x := Inputs([DEPOSIT], [DOLLAR_INVOICE], [CHARGE]);
      var o := Outcome(GatewayNetToBank, ["1"], ["I1"], ["G1"], Some(95), Some(95), Some(0), "EUR");
      Reconciliation(x, r) == Reconciled([Result(1, o)]) && !InvoicesShareCurrency(x, o)
  {
    var x := Inputs([DEPOSIT], [DOLLAR_INVOICE], [CHARGE]);
    var o := Outcome(GatewayNetToBank, ["1"], ["I1"], ["G1"], Some(95), Some(95), Some(0), "EUR");
    var before := [Quarantine([DEPOSIT]), Exact(DOLLAR_INVOICE)];
    var after := NearTasks(x.invoices) + ManyInvoicesTasks(x.banks) + ClosingTasks(x)
      + LeftoverBankTasks(x.banks) + LeftoverInvoiceTasks(x.invoices);
    FewRecordsAreUnique(x);
    SinglesAreSorted(x);
    OneSettlement(x, CHARGE);
    OneBankGroup(x, DEPOSIT);
    assert Agenda(x) == before + [Payout([CHARGE])] + after;
    forall u | u in before ensures Decide(x, r, u, EMPTY_LEDGER).None? {
      assert BankCandidates(r, ExactFor(DOLLAR_INVOICE), {}, [DEPOSIT][1..]) == [];
    }
    PayoutOfCharge(x, r, o);
    forall k ensures IdSet(InputIds(k, x)) <= IdSet(IdsOf(k, o)) {
    }
    OneOutcomeReport(x, r, before, Payout([CHARGE]), after, o);
    ValidationIsExact(SortInputs(x));
    assert DOLLAR_INVOICE in x.invoices;
  }

  lemma SinglesAreSorted(x: Inputs)
    requires |x.banks| <= 1 && |x.invoices| <= 1 && |x.gateways| <= 1
    ensures SortInputs(x) == x
  {
    SingleIsSorted(x.banks, BankBefore);
    SingleIsSorted(x.invoices, InvoiceBefore);
    SingleIsSorted(x.gateways, GatewayBefore);
  }

  lemma OneBankGroup(x: Inputs, b: Bank)
    requires x.banks == [b]
    ensures SortedTwinGroups(x) == [[b]]
  {
    assert [b][..0] == [];
    assert Prints([b]) == [b.Print()];
    assert Twins(b.Print(), [b][..0]) == [];
    assert Twins(b.Print(), [b]) == [b];
    assert TwinGroups([b]) == [[b]];
    SingleIsSorted([[b]], HeadBefore);
  }

  lemma PayoutOfCharge(x: Inputs, r: Rules, o: Outcome)
    requires r.dateToleranceDays >= 0 && x == Inputs([DEPOSIT], [DOLLAR_INVOICE], [CHARGE])
    requires o == Outcome(GatewayNetToBank, ["1"], ["I1"], ["G1"], Some(95), Some(95), Some(0), "EUR")
    ensures Decide(x, r, Payout([CHARGE]), EMPTY_LEDGER) == Some(o)
  {
    assert [CHARGE][1..] == [] && [DEPOSIT][1..] == [];
    assert NetTotal([CHARGE][1..]) == 0 && GrossTotal([CHARGE][1..]) == 0;
    assert NetTotal([CHARGE]) == 95;
    assert GrossTotal([CHARGE]) == 100;
    assert CHARGE in [CHARGE] && PayoutEvidence(r, CHARGE, DEPOSIT) && Names(CHARGE, DOLLAR_INVOICE);
    assert BankCandidates(r, PayoutOf([CHARGE]), {}, [DEPOSIT]) == [DEPOSIT];
    OnlyInvoice(r, LinkedToPayout([CHARGE]), DOLLAR_INVOICE);
    assert InvoiceIds([DOLLAR_INVOICE]) == ["I1"] && GatewayIds([CHARGE]) == ["G1"];
  }

  const PENDING_CHARGE := CHARGE.(currency := "EUR", bankReference := None)

  /** Funds awaited: a charge in EUR that has not been paid out takes an invoice in USD along. */
  lemma AwaitingCrosses(r: Rules)
    ensures var x := Inputs([], [DOLLAR_INVOICE], [PENDING_CHARGE]);
      var o := Outcome(GatewayAwaitingBankSettlement, [], ["I1"], ["G1"], Some(95), None, None, "EUR");
      Reconciliation(x, r) == Reconciled([Result(1, o)]) && !InvoicesShareCurrency(x, o)
  {
    var x := Inputs([], [DOLLAR_INVOICE], [PENDING_CHARGE]);
    var o := Outcome(GatewayAwaitingBankSettlement, [], ["I1"], ["G1"], Some(95), None, None, "EUR");
    var v, g := DOLLAR_INVOICE, [PENDING_CHARGE];
    var before := [Exact(v), Payout(g), Near(v), ManyBanks(v)];
    FewRecordsAreUnique(x);
    SinglesAreSorted(x);
    OneSettlement(x, PENDING_CHARGE);
    assert SortedTwinGroups(x) == [];
    assert Agenda(x) == before + [Awaiting(g)] + LeftoverInvoiceTasks(x.invoices);
    NoBanksNoMatch(x, r, before);
    AwaitingOfCharge(x, r, o);
    forall k ensures IdSet(InputIds(k, x)) <= IdSet(IdsOf(k, o)) {
    }
    OneOutcomeReport(x, r, before, Awaiting(g), LeftoverInvoiceTasks(x.invoices), o);
    ValidationIsExact(SortInputs(x));
    assert v in x.invoices;
  }

  lemma NoBanksNoMatch(x: Inputs, r: Rules, tasks: seq<Task>)
    requires x.banks == [] && forall t :: t in tasks ==> t.Exact? || t.Payout? || t.Near? || t.ManyBanks?
    ensures forall t :: t in tasks ==> Decide(x, r, t, EMPTY_LEDGER).None?
  {
    forall t | t in tasks ensures Decide(x, r, t, EMPTY_LEDGER).None? {
      if t.ManyBanks? {
        ChosenBanksAre(r, [], t.invoice.amountDue);
      }
    }
  }

  lemma AwaitingOfCharge(x: Inputs, r: Rules, o: Outcome)
    requires x == Inputs([], [DOLLAR_INVOICE], [PENDING_CHARGE])
    requires o == Outcome(GatewayAwaitingBankSettlement, [], ["I1"], ["G1"], Some(95), None, None, "EUR")
    ensures Decide(x, r, Awaiting([PENDING_CHARGE]), EMPTY_LEDGER) == Some(o)
  {
    var g := [PENDING_CHARGE];
    assert g[1..] == [] && NetTotal(g[1..]) == 0 && Unsettled({}, g) == g;
    assert NetTotal(g) == 95;
    assert PENDING_CHARGE in g && Names(PENDING_CHARGE, DOLLAR_INVOICE);
    OnlyInvoice(r, LinkedToAwaiting(g), DOLLAR_INVOICE);
    assert InvoiceIds([DOLLAR_INVOICE]) == ["I1"] && GatewayIds(g) == ["G1"];
  }
}
