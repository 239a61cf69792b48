/** The engine as it runs: dictionaries, used sets and eight loops, each proved to settle its part
    of the agenda. */
module Engine {
  import opened Ordering
  import opened Combinations
  import opened Records
  import opened Matching
  import opened MatchingFacts

  lemma NoTwins(p: Fingerprint, banks: seq<Bank>)
    requires p !in Prints(banks)
    ensures Twins(p, banks) == []
  {
    PrintsAre(banks);
    TwinsAre(p, banks);
    assert forall b :: b !in Twins(p, banks);
  }

  lemma NoMembers(id: string, gateways: seq<GatewayEntry>)
    requires id !in SettlementIds(gateways)
    ensures Members(id, gateways) == []
  {
    SettlementIdsAre(gateways);
    MembersAre(id, gateways);
    assert forall e :: e !in Members(id, gateways);
  }

  /** The fingerprint dictionary of pass 1, values in insertion order. */
  method CollectTwinGroups(banks: seq<Bank>) returns (groups: seq<seq<Bank>>)
    ensures groups == TwinGroups(banks)
  {
    var order: seq<Fingerprint> := [];
    var index: map<Fingerprint, seq<Bank>> := map[];
    for i := 0 to |banks|
      invariant order == Prints(banks[..i])
      invariant forall p :: p in index <==> p in order
      invariant forall p :: p in order ==> index[p] == Twins(p, banks[..i])
    {
      var bank := banks[i];
      var fingerprint := bank.Print();
      assert banks[..i + 1][..i] == banks[..i];
      if fingerprint !in index {
        NoTwins(fingerprint, banks[..i]);
        order := order + [fingerprint];
        index := index[fingerprint := []];
      }
      index := index[fingerprint := index[fingerprint] + [bank]];
    }
    assert banks[..|banks|] == banks;
    groups := seq(|order|, i requires 0 <= i < |order| => if order[i] in index then index[order[i]] else []);
  }

  /** The settlement dictionary of passes 3 and 7, items in key order. */
  method CollectSettlements(x: Inputs) returns (groups: seq<seq<GatewayEntry>>)
    ensures groups == SortedSettlements(x)
  {
    var order: seq<string> := [];
    var index: map<string, seq<GatewayEntry>> := map[];
    for i := 0 to |x.gateways|
      invariant order == SettlementIds(x.gateways[..i])
      invariant forall id :: id in index <==> id in order
      invariant forall id :: id in order ==> index[id] == Members(id, x.gateways[..i])
    {
      var gateway := x.gateways[i];
      assert x.gateways[..i + 1][..i] == x.gateways[..i];
      if gateway.settlementId !in index {
        NoMembers(gateway.settlementId, x.gateways[..i]);
        order := order + [gateway.settlementId];
        index := index[gateway.settlementId := []];
      }
      index := index[gateway.settlementId := index[gateway.settlementId] + [gateway]];
    }
    assert x.gateways[..|x.gateways|] == x.gateways;
    var ids := Sort(order, StringLe);
    SortIsPermutation(order, StringLe);
    groups := seq(|ids|, i requires 0 <= i < |ids| => if ids[i] in index then index[ids[i]] else []);
    forall i | 0 <= i < |ids| ensures groups[i] == SortedSettlements(x)[i] {
      assert ids[i] in ids;
    }
  }

  /** Pass 1: groups of equal entries leave the pool first, with the invoices they refer to. */
  method QuarantineDuplicates(x: Inputs, r: Rules) returns (l: Ledger)
    ensures l == Settle(x, r, QuarantineTasks(SortedTwinGroups(x)), EMPTY_LEDGER)
  {
    l := EMPTY_LEDGER;
    var collected := CollectTwinGroups(x.banks);
    var groups := Sort(collected, HeadBefore);
    ghost var tasks := QuarantineTasks(groups);
    for i := 0 to |groups|
      invariant l == Settle(x, r, tasks[..i], EMPTY_LEDGER)
    {
      var group := groups[i];
      SettleOneMore(x, r, tasks, i, EMPTY_LEDGER);
      if |group| < 2 {
        continue;
      }
      var linked := InvoiceCandidates(r, LinkedToDuplicates(group), l.invoices, x.invoices);
      l := l.Add(DuplicateOutcome(group, linked));
    }
    assert tasks[..|tasks|] == tasks;
  }

  /** Pass 2: an invoice and its one candidate of the same amount. */
  method MatchExact(x: Inputs, r: Rules, start: Ledger) returns (l: Ledger)
    ensures l == Settle(x, r, ExactTasks(x.invoices), start)
  {
    l := start;
    ghost var tasks := ExactTasks(x.invoices);
    for i := 0 to |x.invoices|
      invariant l == Settle(x, r, tasks[..i], start)
    {
      var invoice := x.invoices[i];
      SettleOneMore(x, r, tasks, i, start);
      if invoice.id in l.invoices {
        continue;
      }
      var candidates := BankCandidates(r, ExactFor(invoice), l.banks, x.banks);
      if |candidates| == 1 {
        l := l.Add(ExactOutcome(invoice, candidates[0]));
      }
    }
    assert tasks[..|tasks|] == tasks;
  }

  /** Pass 3: a settlement and the one deposit of its net total, with invoices of its gross total. */
  method MatchPayouts(x: Inputs, r: Rules, groups: seq<seq<GatewayEntry>>, start: Ledger) returns (l: Ledger)
    requires forall g :: g in groups ==> g != []
    ensures l == Settle(x, r, PayoutTasks(groups), start)
  {
    l := start;
    ghost var tasks := PayoutTasks(groups);
    for i := 0 to |groups|
      invariant l == Settle(x, r, tasks[..i], start)
    {
      var group := groups[i];
      SettleOneMore(x, r, tasks, i, start);
      var candidates := BankCandidates(r, PayoutOf(group), l.banks, x.banks);
      if |candidates| != 1 {
        continue;
      }
      assert group in groups;
      var linked := InvoiceCandidates(r, LinkedToPayout(group), l.invoices, x.invoices);
      l := l.Add(PayoutOutcome(group, candidates[0], linked));
    }
    assert tasks[..|tasks|] == tasks;
  }

  /** Pass 4: an invoice and its one candidate whose amount is slightly off. */
  method MatchWithinTolerance(x: Inputs, r: Rules, start: Ledger) returns (l: Ledger)
    ensures l == Settle(x, r, NearTasks(x.invoices), start)
  {
    l := start;
    ghost var tasks := NearTasks(x.invoices);
    for i := 0 to |x.invoices|
      invariant l == Settle(x, r, tasks[..i], start)
    {
      var invoice := x.invoices[i];
      SettleOneMore(x, r, tasks, i, start);
      if invoice.id in l.invoices {
        continue;
      }
      var candidates := BankCandidates(r, NearFor(invoice), l.banks, x.banks);
      if |candidates| == 1 {
        l := l.Add(ToleranceOutcome(invoice, candidates[0]));
      }
    }
    assert tasks[..|tasks|] == tasks;
  }

  /** Pass 5: a bank entry and the one combination of invoices it adds up to. */
  method MatchManyInvoices(x: Inputs, r: Rules, start: Ledger) returns (l: Ledger)
    ensures l == Settle(x, r, ManyInvoicesTasks(x.banks), start)
  {
    l := start;
    ghost var tasks := ManyInvoicesTasks(x.banks);
    for i := 0 to |x.banks|
      invariant l == Settle(x, r, tasks[..i], start)
    {
      var bank := x.banks[i];
      SettleOneMore(x, r, tasks, i, start);
      if bank.id in l.banks || !bank.Eligible() {
        continue;
      }
      var candidates := InvoiceCandidates(r, PaidBy(bank), l.invoices, x.invoices);
      var positions := FindCombination(AmountsDue(candidates), bank.amount, r.maximumGroupSize);
      var chosen := Pick(candidates, positions);
      assert chosen == ChosenInvoices(r, candidates, bank.amount);
      if chosen != [] {
        l := l.Add(ManyInvoicesOutcome(bank, chosen));
      }
    }
    assert tasks[..|tasks|] == tasks;
  }

  /** Pass 6: an invoice and the one combination of bank entries that add up to it. */
  method MatchManyBanks(x: Inputs, r: Rules, start: Ledger) returns (l: Ledger)
    ensures l == Settle(x, r, ManyBanksTasks(x.invoices), start)
  {
    l := start;
    ghost var tasks := ManyBanksTasks(x.invoices);
    for i := 0 to |x.invoices|
      invariant l == Settle(x, r, tasks[..i], start)
    {
      var invoice := x.invoices[i];
      SettleOneMore(x, r, tasks, i, start);
      if invoice.id in l.invoices {
        continue;
      }
      var candidates := BankCandidates(r, PartOf(invoice), l.banks, x.banks);
      var positions := FindCombination(Amounts(candidates), invoice.amountDue, r.maximumGroupSize);
      var chosen := Pick(candidates, positions);
      assert chosen == ChosenBanks(r, candidates, invoice.amountDue);
      if chosen != [] {
        l := l.Add(ManyBanksOutcome(invoice, chosen));
      }
    }
    assert tasks[..|tasks|] == tasks;
  }

  /** Pass 7: what is left of each settlement is reported, with the invoices it names. */
  method ReportAwaiting(x: Inputs, r: Rules, groups: seq<seq<GatewayEntry>>, start: Ledger) returns (l: Ledger)
    ensures l == Settle(x, r, AwaitingTasks(groups), start)
  {
    l := start;
    ghost var tasks := AwaitingTasks(groups);
    for i := 0 to |groups|
      invariant l == Settle(x, r, tasks[..i], start)
    {
      SettleOneMore(x, r, tasks, i, start);
      var remaining := Unsettled(l.gateways, groups[i]);
      if remaining == [] {
        continue;
      }
      var linked := InvoiceCandidates(r, LinkedToAwaiting(remaining), l.invoices, x.invoices);
      l := l.Add(AwaitingOutcome(remaining, linked));
    }
    assert tasks[..|tasks|] == tasks;
  }

  /** Pass 8: one report for every bank entry and then every invoice still unconsumed. */
  method ReportLeftovers(x: Inputs, r: Rules, start: Ledger) returns (l: Ledger)
    ensures l == Settle(x, r, LeftoverInvoiceTasks(x.invoices), Settle(x, r, LeftoverBankTasks(x.banks), start))
  {
    l := start;
    ghost var bankTasks := LeftoverBankTasks(x.banks);
    for i := 0 to |x.banks|
      invariant l == Settle(x, r, bankTasks[..i], start)
    {
      SettleOneMore(x, r, bankTasks, i, start);
      if x.banks[i].id !in l.banks {
        l := l.Add(LeftoverBankOutcome(x.banks[i]));
      }
    }
    assert bankTasks[..|bankTasks|] == bankTasks;
    ghost var afterBanks := l;
    ghost var invoiceTasks := LeftoverInvoiceTasks(x.invoices);
    for i := 0 to |x.invoices|
      invariant l == Settle(x, r, invoiceTasks[..i], afterBanks)
    {
      SettleOneMore(x, r, invoiceTasks, i, afterBanks);
      if x.invoices[i].id !in l.invoices {
        l := l.Add(LeftoverInvoiceOutcome(x.invoices[i]));
      }
    }
    assert invoiceTasks[..|invoiceTasks|] == invoiceTasks;
  }

  /** The agenda settles pass by pass. */
  lemma AgendaByPasses(x: Inputs, r: Rules, l: Ledger)
    ensures var middle := Settle(x, r, QuarantineTasks(SortedTwinGroups(x)), l);
      var m2 := Settle(x, r, ExactTasks(x.invoices), middle);
      var m3 := Settle(x, r, PayoutTasks(SortedSettlements(x)), m2);
      var m4 := Settle(x, r, NearTasks(x.invoices), m3);
      var m5 := Settle(x, r, ManyInvoicesTasks(x.banks), m4);
      var m6 := Settle(x, r, ManyBanksTasks(x.invoices), m5);
      var m7 := Settle(x, r, AwaitingTasks(SortedSettlements(x)), m6);
      var m8 := Settle(x, r, LeftoverBankTasks(x.banks), m7);
      Settle(x, r, Agenda(x), l) == Settle(x, r, LeftoverInvoiceTasks(x.invoices), m8)
  {
    var q, e, p := QuarantineTasks(SortedTwinGroups(x)), ExactTasks(x.invoices), PayoutTasks(SortedSettlements(x));
    var n, mi := NearTasks(x.invoices), ManyInvoicesTasks(x.banks);
    var mb, a := ManyBanksTasks(x.invoices), AwaitingTasks(SortedSettlements(x));
    SettleConcat(x, r, MatchingTasks(x) + LeftoverBankTasks(x.banks), LeftoverInvoiceTasks(x.invoices), l);
    SettleConcat(x, r, MatchingTasks(x), LeftoverBankTasks(x.banks), l);
    SettleConcat(x, r, q + MiddleTasks(x) + mi, ClosingTasks(x), l);
    SettleConcat(x, r, q + MiddleTasks(x), mi, l);
    SettleConcat(x, r, q, MiddleTasks(x), l);
    var m1 := Settle(x, r, q, l);
    SettleConcat(x, r, e + p, n, m1);
    SettleConcat(x, r, e, p, m1);
    SettleConcat(x, r, mb, a, Settle(x, r, q + MiddleTasks(x) + mi, l));
  }

  lemma SettlementsAreNonempty(x: Inputs)
    ensures forall g :: g in SortedSettlements(x) ==> g != []
  {
    SettlementIdsAre(x.gateways);
    SortIsPermutation(SettlementIds(x.gateways), StringLe);
    forall i | 0 <= i < |SortedSettlements(x)| ensures SortedSettlements(x)[i] != [] {
      var ids := Sort(SettlementIds(x.gateways), StringLe);
      assert ids[i] in ids;
      MembersAre(ids[i], x.gateways);
      var e :| e in x.gateways && e.settlementId == ids[i];
      assert e in Members(ids[i], x.gateways);
    }
  }

  /** `ReconciliationEngine.reconcile`. */
  method Reconcile(input: Inputs, r: Rules) returns (report: Report)
    ensures report == Reconciliation(input, r)
  {
    var x := SortInputs(input);
    var repeated := RepeatedKind(x);
    if repeated.Some? {
      return DuplicateIds(repeated.value);
    }
    var l := QuarantineDuplicates(x, r);
    l := MatchExact(x, r, l);
    var groups := CollectSettlements(x);
    SettlementsAreNonempty(x);
    l := MatchPayouts(x, r, groups, l);
    l := MatchWithinTolerance(x, r, l);
    l := MatchManyInvoices(x, r, l);
    l := MatchManyBanks(x, r, l);
    l := ReportAwaiting(x, r, groups, l);
    l := ReportLeftovers(x, r, l);
    AgendaByPasses(x, r, EMPTY_LEDGER);
    return Reconciled(Numbered(l.outcomes));
  }
}
