/** The whole report on the records alone: whose turn comes when, what each turn calls for, and that the
    engine reports exactly that. */
module RecordReport {
  import opened Ordering
  import opened Combinations
  import opened Records
  import opened Matching
  import opened MatchingFacts
  import opened Partition
  import opened OrderIndependence
  import opened Evidence
  import opened Settlements
  import opened Justification
  import opened Chronology
  import opened Priority
  import opened RuleBook

  // Whose turn comes when.

  /** A turn is about one record, all entries of one payment, or all entries of one settlement. */
  ghost predicate IsTurn(x: Inputs, t: Task)
  {
    match t
    case Quarantine(g) =>
      g != [] && Ascending(g, EarlierBank) && forall b :: b in g <==> b in x.banks && SamePayment(b, g[0])
    case Payout(g) => Ascending(g, EarlierEntry) && WholeSettlement(x, g)
    case Awaiting(g) => Ascending(g, EarlierEntry) && WholeSettlement(x, g)
    case Exact(v) => v in x.invoices
    case Near(v) => v in x.invoices
    case ManyBanks(v) => v in x.invoices
    case LeftoverInvoice(v) => v in x.invoices
    case ManyInvoices(b) => b in x.banks
    case LeftoverBank(b) => b in x.banks
  }

  /** Turns of one pass: invoices and bank entries by date and id, settlements by their id, payments by the
      id of their first entry. */
  predicate SamePassBefore(s: Task, t: Task)
  {
    match (s, t)
    case (Quarantine(g), Quarantine(h)) => g != [] && h != [] && SmallerId(g[0].id, h[0].id)
    case (Payout(g), Payout(h)) => g != [] && h != [] && SmallerId(g[0].settlementId, h[0].settlementId)
    case (Awaiting(g), Awaiting(h)) => g != [] && h != [] && SmallerId(g[0].settlementId, h[0].settlementId)
    case (Exact(v), Exact(w)) => EarlierInvoice(v, w)
    case (Near(v), Near(w)) => EarlierInvoice(v, w)
    case (ManyBanks(v), ManyBanks(w)) => EarlierInvoice(v, w)
    case (LeftoverInvoice(v), LeftoverInvoice(w)) => EarlierInvoice(v, w)
    case (ManyInvoices(a), ManyInvoices(b)) => EarlierBank(a, b)
    case (LeftoverBank(a), LeftoverBank(b)) => EarlierBank(a, b)
    case _ => false
  }

  predicate GoesBefore(s: Task, t: Task)
  {
    Rank(RuleOf(s)) < Rank(RuleOf(t)) || SamePassBefore(s, t)
  }

  /** Every turn comes once, in order. */
  ghost predicate InOrder(x: Inputs, tasks: seq<Task>)
  {
    Ascending(tasks, GoesBefore) && forall t :: t in tasks <==> IsTurn(x, t)
  }

  lemma SamePassIsAsymmetric(s: Task, t: Task)
    requires SamePassBefore(s, t)
    ensures RuleOf(s) == RuleOf(t) && !SamePassBefore(t, s)
  {
    OrdersAreAsymmetric();
    hide SmallerId, EarlierBank, EarlierInvoice, EarlierEntry;
  }

  lemma GoesBeforeIsAsymmetric()
    ensures Asymmetric(GoesBefore)
  {
    hide SamePassBefore, Rank, RuleOf;
    forall s, t | GoesBefore(s, t) ensures !GoesBefore(t, s) {
      if SamePassBefore(s, t) {
        SamePassIsAsymmetric(s, t);
      }
      if SamePassBefore(t, s) {
        SamePassIsAsymmetric(t, s);
      }
    }
  }

  /** Tasks of one rule, in order. */
  ghost predicate Pass(tasks: seq<Task>, rank: nat)
  {
    && (forall i :: 0 <= i < |tasks| ==> Rank(RuleOf(tasks[i])) == rank)
    && (forall i, j :: 0 <= i < j < |tasks| ==> SamePassBefore(tasks[i], tasks[j]))
  }

  /** Passes so far: in order, none of a later rule. */
  ghost predicate UpTo(tasks: seq<Task>, rank: nat)
  {
    && (forall i :: 0 <= i < |tasks| ==> Rank(RuleOf(tasks[i])) <= rank)
    && (forall i, j :: 0 <= i < j < |tasks| ==> GoesBefore(tasks[i], tasks[j]))
  }

  lemma NextPass(a: seq<Task>, b: seq<Task>, rank: nat)
    requires UpTo(a, rank) && Pass(b, rank + 1)
    ensures UpTo(a + b, rank + 1)
  {
    hide SamePassBefore, Rank, RuleOf;
  }

  lemma InvoicePassesAscend(y: Inputs)
    requires Chronological(y)
    ensures Pass(ExactTasks(y.invoices), 2) && Pass(NearTasks(y.invoices), 4)
    ensures Pass(ManyBanksTasks(y.invoices), 6) && Pass(LeftoverInvoiceTasks(y.invoices), 9)
  {
    hide EarlierInvoice, EarlierBank, EarlierEntry;
  }

  lemma BankPassesAscend(y: Inputs)
    requires Chronological(y)
    ensures Pass(ManyInvoicesTasks(y.banks), 5) && Pass(LeftoverBankTasks(y.banks), 8)
  {
    hide EarlierInvoice, EarlierBank, EarlierEntry;
  }

  /** The settlements ascend by their id. */
  ghost predicate BySettlementId(groups: seq<seq<GatewayEntry>>)
  {
    && (forall i :: 0 <= i < |groups| ==> groups[i] != [])
    && forall i, j :: 0 <= i < j < |groups| ==> SmallerId(groups[i][0].settlementId, groups[j][0].settlementId)
  }

  lemma SettlementsAscend(y: Inputs)
    requires UniqueIds(y)
    ensures BySettlementId(SortedSettlements(y))
  {
    var ids: seq<string> := Sort(SettlementIds(y.gateways), StringLe);
    var groups: seq<seq<GatewayEntry>> := SortedSettlements(y);
    StringLeIsTotalPreorder();
    SettlementIdsAre(y.gateways);
    SortIsSorted(SettlementIds(y.gateways), StringLe);
    SortIsPermutation(SettlementIds(y.gateways), StringLe);
    DistinctSameMultiset(SettlementIds(y.gateways), ids);
    hide StringLe, UniqueIds;
    forall i | 0 <= i < |groups| ensures groups[i] != [] && groups[i][0].settlementId == ids[i] {
      assert ids[i] in ids;
      var e :| e in y.gateways && e.settlementId == ids[i];
      MembersAre(ids[i], y.gateways);
      assert e in groups[i] && groups[i][0] in groups[i];
    }
    forall i, j | 0 <= i < j < |groups| ensures SmallerId(ids[i], ids[j]) {
      assert ids[i] != ids[j];
    }
  }

  lemma SettlementPassesAscend(groups: seq<seq<GatewayEntry>>)
    requires BySettlementId(groups)
    ensures Pass(PayoutTasks(groups), 3) && Pass(AwaitingTasks(groups), 7)
  {
    hide SmallerId, EarlierInvoice, EarlierBank, EarlierEntry;
  }

  lemma TwinPassAscends(y: Inputs)
    requires UniqueIds(y)
    ensures Pass(QuarantineTasks(SortedTwinGroups(y)), 1)
  {
    var groups := SortedTwinGroups(y);
    SortKeysAreTotalPreorders();
    SortIsSorted(TwinGroups(y.banks), HeadBefore);
    TwinGroupsAre(y);
    forall i, j | 0 <= i < j < |groups| ensures SamePassBefore(Quarantine(groups[i]), Quarantine(groups[j])) {
      assert groups[i] in groups && groups[j] in groups;
      assert BankIds(groups[i])[0] in IdSet(BankIds(groups[i])) && BankIds(groups[j])[0] in IdSet(BankIds(groups[j]));
      assert HeadBefore(groups[i], groups[j]);
    }
  }

  lemma AgendaAscends(y: Inputs)
    requires Chronological(y) && UniqueIds(y)
    ensures Ascending(Agenda(y), GoesBefore)
  {
    var q, e, p := QuarantineTasks(SortedTwinGroups(y)), ExactTasks(y.invoices), PayoutTasks(SortedSettlements(y));
    var n, mi, mb := NearTasks(y.invoices), ManyInvoicesTasks(y.banks), ManyBanksTasks(y.invoices);
    var w, lb, li := AwaitingTasks(SortedSettlements(y)), LeftoverBankTasks(y.banks), LeftoverInvoiceTasks(y.invoices);
    InvoicePassesAscend(y);
    BankPassesAscend(y);
    SettlementsAscend(y);
    SettlementPassesAscend(SortedSettlements(y));
    TwinPassAscends(y);
    hide SamePassBefore, Rank, RuleOf;
    PassesAscend(q, e, p, n, mi, mb, w, lb, li);
  }

  lemma PassesAscend(
      q: seq<Task>, e: seq<Task>, p: seq<Task>, n: seq<Task>, mi: seq<Task>, mb: seq<Task>, w: seq<Task>,
      lb: seq<Task>, li: seq<Task>)
    requires Pass(q, 1) && Pass(e, 2) && Pass(p, 3) && Pass(n, 4) && Pass(mi, 5) && Pass(mb, 6)
    requires Pass(w, 7) && Pass(lb, 8) && Pass(li, 9)
    ensures Ascending(((q + (e + p + n)) + mi + (mb + w)) + lb + li, GoesBefore)
  {
    assert UpTo(q, 1);
    hide Pass, GoesBefore, Rank, RuleOf;
    NextPass(q, e, 1);
    NextPass(q + e, p, 2);
    NextPass(q + e + p, n, 3);
    NextPass(q + e + p + n, mi, 4);
    NextPass(q + e + p + n + mi, mb, 5);
    NextPass(q + e + p + n + mi + mb, w, 6);
    NextPass(q + e + p + n + mi + mb + w, lb, 7);
    NextPass(q + e + p + n + mi + mb + w + lb, li, 8);
    assert ((q + (e + p + n)) + mi + (mb + w)) + lb + li == q + e + p + n + mi + mb + w + lb + li;
  }

  // The agenda holds every turn and nothing else.

  lemma TurnIsInAgenda(y: Inputs, t: Task)
    requires Chronological(y) && UniqueIds(y) && IsTurn(y, t)
    ensures t in Agenda(y)
  {
    OrdersAreAsymmetric();
    hide EarlierBank, EarlierInvoice, EarlierEntry, Agenda;
    match t
    case Quarantine(g) =>
      assert g[0] in g;
      TwinsAre(g[0].Print(), y.banks);
      TwinsAscend(g[0].Print(), y.banks);
      assert forall b: Bank :: SamePayment(b, g[0]) <==> b.Print() == g[0].Print();
      AscendingIsUnique(g, Twins(g[0].Print(), y.banks), EarlierBank);
      BankHasTurns(y, g[0]);
    case Payout(g) => SettlementIsMembers(y, g);
    case Awaiting(g) => SettlementIsMembers(y, g);
    case Exact(v) => InvoiceHasTurns(y, v);
    case Near(v) => InvoiceHasTurns(y, v);
    case ManyBanks(v) => InvoiceHasTurns(y, v);
    case LeftoverInvoice(v) => InvoiceHasTurns(y, v);
    case ManyInvoices(b) => BankHasTurns(y, b);
    case LeftoverBank(b) => BankHasTurns(y, b);
  }

  lemma SettlementIsMembers(y: Inputs, g: seq<GatewayEntry>)
    requires Chronological(y) && UniqueIds(y) && Ascending(g, EarlierEntry) && WholeSettlement(y, g)
    ensures g == Members(g[0].settlementId, y.gateways) && Payout(g) in Agenda(y) && Awaiting(g) in Agenda(y)
  {
    OrdersAreAsymmetric();
    hide EarlierBank, EarlierInvoice, EarlierEntry, Agenda;
    assert g[0] in g;
    MembersAre(g[0].settlementId, y.gateways);
    MembersAscend(g[0].settlementId, y.gateways);
    AscendingIsUnique(g, Members(g[0].settlementId, y.gateways), EarlierEntry);
    SettlementHasTurns(y, g[0]);
  }

  lemma SoundIsTurn(y: Inputs, t: Task)
    requires Chronological(y) && Sound(y, t)
    ensures IsTurn(y, t)
  {
    match t
    case Quarantine(g) =>
      TwinsAre(g[0].Print(), y.banks);
      TwinsAscend(g[0].Print(), y.banks);
    case Payout(g) =>
      MembersAre(g[0].settlementId, y.gateways);
      MembersAscend(g[0].settlementId, y.gateways);
    case Awaiting(g) =>
      MembersAre(g[0].settlementId, y.gateways);
      MembersAscend(g[0].settlementId, y.gateways);
    case _ =>
  }

  /** Main result: the engine takes every turn once, in order; there is no other such list. */
  lemma AgendaIsInOrder(x: Inputs, tasks: seq<Task>)
    requires UniqueIds(x)
    ensures tasks == Agenda(SortInputs(x)) <==> InOrder(x, tasks)
  {
    var y := SortInputs(x);
    SortedIsChronological(x);
    AgendaAscends(y);
    AgendaIsOrderly(y);
    GoesBeforeIsAsymmetric();
    hide Agenda, SortInputs, UniqueIds, GoesBefore, Sound, EarlierBank, EarlierInvoice, EarlierEntry;
    forall t ensures t in Agenda(y) <==> IsTurn(x, t) {
      TurnsInAnyOrder(x, y, t);
      if IsTurn(y, t) {
        TurnIsInAgenda(y, t);
      }
      if t in Agenda(y) {
        SoundIsTurn(y, t);
      }
    }
    hide IsTurn;
    if InOrder(x, tasks) {
      AscendingIsUnique(tasks, Agenda(y), GoesBefore);
    }
  }

  ghost predicate SameMembership(x: Inputs, y: Inputs)
  {
    && (forall b :: b in y.banks <==> b in x.banks)
    && (forall v :: v in y.invoices <==> v in x.invoices)
    && (forall e :: e in y.gateways <==> e in x.gateways)
  }

  lemma TurnsInAnyOrder(x: Inputs, y: Inputs, t: Task)
    requires SameMembership(x, y)
    ensures IsTurn(x, t) <==> IsTurn(y, t)
  {
  }

  /** What is called for does not depend on the order of the records. */
  lemma CallsInAnyOrder(x: Inputs, y: Inputs, r: Rules, l: Ledger, t: Task, o: Outcome)
    requires SameMembership(x, y)
    ensures CallsFor(x, r, l, t, o) <==> CallsFor(y, r, l, t, o)
  {
    hide CallsFor;
    if CallsFor(x, r, l, t, o) {
      CallsCarryOver(x, y, r, l, t, o);
    }
    if CallsFor(y, r, l, t, o) {
      CallsCarryOver(y, x, r, l, t, o);
    }
  }

  lemma CallsCarryOver(x: Inputs, y: Inputs, r: Rules, l: Ledger, t: Task, o: Outcome)
    requires SameMembership(x, y) && CallsFor(x, r, l, t, o)
    ensures CallsFor(y, r, l, t, o)
  {
    hide Pays, PaysOut, Settled, MentionedByAny, LinkedByAny, OffByLittle, SamePayment;
    hide CallsForManyInvoices, CallsForManyBanks;
    match t
    case Quarantine(g) =>
      var linked :| MentionedInvoices(x, r, l, g, linked) && DuplicateJustified(x, r, o, g, linked);
      assert MentionedInvoices(y, r, l, g, linked) && DuplicateJustified(y, r, o, g, linked);
    case Payout(g) =>
      var b, linked :| b in x.banks && b.id !in l.banks && SettledInvoices(x, l, g, linked)
        && PayoutJustified(x, r, o, b, g, linked)
        && forall c :: c in x.banks && c.id !in l.banks && PaysOut(r, c, g) ==> c == b;
      assert b in y.banks && SettledInvoices(y, l, g, linked) && PayoutJustified(y, r, o, b, g, linked);
    case ManyInvoices(b) => ManyInvoicesCarryOver(x, y, r, l, b, o);
    case ManyBanks(v) => ManyBanksCarryOver(x, y, r, l, v, o);
    case Awaiting(g) =>
      var linked :| NamedInvoices(x, l, g, linked) && AwaitingJustified(x, o, g, linked);
      assert NamedInvoices(y, l, g, linked) && AwaitingJustified(y, o, g, linked);
    case _ =>
  }

  lemma ManyInvoicesCarryOver(x: Inputs, y: Inputs, r: Rules, l: Ledger, b: Bank, o: Outcome)
    requires SameMembership(x, y) && CallsForManyInvoices(x, r, l, b, o)
    ensures CallsForManyInvoices(y, r, l, b, o)
  {
    hide Pays;
    var c, t :| PayableInvoices(x, r, l, b, c) && SmallestSole(AmountsDue(c), b.amount, r.maximumGroupSize, t)
      && ManyInvoicesJustified(x, r, o, b, Pick(c, t));
    assert PayableInvoices(y, r, l, b, c) && ManyInvoicesJustified(y, r, o, b, Pick(c, t));
  }

  lemma ManyBanksCarryOver(x: Inputs, y: Inputs, r: Rules, l: Ledger, v: Invoice, o: Outcome)
    requires SameMembership(x, y) && CallsForManyBanks(x, r, l, v, o)
    ensures CallsForManyBanks(y, r, l, v, o)
  {
    hide Pays;
    var c, t :| PayingBanks(x, r, l, v, c) && SmallestSole(Amounts(c), v.amountDue, r.maximumGroupSize, t)
      && ManyBanksJustified(x, r, o, Pick(c, t), v);
    assert PayingBanks(y, r, l, v, c) && ManyBanksJustified(y, r, o, Pick(c, t), v);
  }

  // The report.

  /** A turn that finds the first n outcomes reported adds the outcome the records call for, or none if
      they call for none. */
  ghost predicate RecordTurn(x: Inputs, r: Rules, t: Task, all: seq<Outcome>, n: nat, next: nat)
  {
    if next == n + 1 then n < |all| && CallsFor(x, r, LedgerOf(all[..n]), t, all[n])
    else next == n <= |all| && forall o :: !CallsFor(x, r, LedgerOf(all[..n]), t, o)
  }

  ghost predicate Told(x: Inputs, r: Rules, tasks: seq<Task>, all: seq<Outcome>, at: seq<nat>)
  {
    && |at| == |tasks| + 1 && at[0] == 0 && at[|tasks|] == |all|
    && forall j :: 0 <= j < |tasks| ==> RecordTurn(x, r, tasks[j], all, at[j], at[j + 1])
  }

  lemma EvidenceOnRecords(x: Inputs, y: Inputs, r: Rules, j: nat, l: Ledger, o: Outcome)
    requires UniqueIds(x) && y == SortInputs(x) && j < |Agenda(y)|
    requires Settle(y, r, Agenda(y)[..j], EMPTY_LEDGER) == l
    ensures Supports(y, r, l, Agenda(y)[j], o) <==> CallsFor(x, r, l, Agenda(y)[j], o)
  {
    var t := Agenda(y)[j];
    SortedIsChronological(x);
    TurnIsWhole(y, r, j);
    AgendaIsOrderly(y);
    assert t in Agenda(y);
    hide Agenda, SortInputs, UniqueIds, Sound, CallsFor, Supports, Settle, WholeOrNothing, Chronological;
    SupportsIsCallsFor(y, r, l, t, o);
    CallsInAnyOrder(x, y, r, l, t, o);
  }

  lemma TurnOnRecords(x: Inputs, y: Inputs, r: Rules, j: nat, all: seq<Outcome>, n: nat, next: nat)
    requires UniqueIds(x) && y == SortInputs(x) && j < |Agenda(y)| && n <= |all|
    requires Settle(y, r, Agenda(y)[..j], EMPTY_LEDGER) == LedgerOf(all[..n])
    ensures TakesTurn(y, r, Agenda(y)[j], all, n, next) <==> RecordTurn(x, r, Agenda(y)[j], all, n, next)
  {
    hide Agenda, SortInputs, UniqueIds, CallsFor, Supports, Settle, LedgerOf;
    forall o ensures Supports(y, r, LedgerOf(all[..n]), Agenda(y)[j], o)
        <==> CallsFor(x, r, LedgerOf(all[..n]), Agenda(y)[j], o) {
      EvidenceOnRecords(x, y, r, j, LedgerOf(all[..n]), o);
    }
  }

  /** The engine follows one turn. */
  lemma TurnIsTaken(y: Inputs, r: Rules, all: seq<Outcome>, i: nat, n: nat, next: nat)
    requires UniqueIds(y) && i < |Agenda(y)| && n <= |all|
    requires Settle(y, r, Agenda(y)[..i], EMPTY_LEDGER) == LedgerOf(all[..n])
    requires TakesTurn(y, r, Agenda(y)[i], all, n, next)
    ensures next <= |all| && Settle(y, r, Agenda(y)[..i + 1], EMPTY_LEDGER).outcomes == all[..next]
  {
    hide Agenda, Decide, Supports, UniqueIds;
    SettleOneMore(y, r, Agenda(y), i, EMPTY_LEDGER);
    AgendaIsOrderly(y);
    assert Agenda(y)[i] in Agenda(y);
    DecisionIsExact(y, r, Agenda(y)[i], LedgerOf(all[..n]));
  }

  lemma {:induction false} ToldIsFollowed(x: Inputs, y: Inputs, r: Rules, all: seq<Outcome>, at: seq<nat>, j: nat)
    requires UniqueIds(x) && y == SortInputs(x) && Told(x, r, Agenda(y), all, at) && j <= |Agenda(y)|
    ensures at[j] <= |all| && Settle(y, r, Agenda(y)[..j], EMPTY_LEDGER).outcomes == all[..at[j]]
    ensures Settle(y, r, Agenda(y)[..j], EMPTY_LEDGER) == LedgerOf(all[..at[j]])
  {
    hide Agenda, Decide, Supports, CallsFor, SortInputs, UniqueIds;
    var tasks := Agenda(y);
    SortedIsChronological(x);
    if j > 0 {
      var i := j - 1;
      ToldIsFollowed(x, y, r, all, at, i);
      assert RecordTurn(x, r, tasks[i], all, at[i], at[j]);
      TurnOnRecords(x, y, r, i, all, at[i], at[j]);
      TurnIsTaken(y, r, all, i, at[i], at[j]);
    }
    LedgerFromOutcomes(y, r, j);
  }

  lemma ToldIsScheduled(x: Inputs, y: Inputs, r: Rules, all: seq<Outcome>, at: seq<nat>)
    requires UniqueIds(x) && y == SortInputs(x) && Told(x, r, Agenda(y), all, at)
    ensures Scheduled(y, r, Agenda(y), all, at)
  {
    hide Agenda, CallsFor, Supports, SortInputs, UniqueIds, TakesTurn, RecordTurn;
    forall j | 0 <= j < |Agenda(y)| ensures TakesTurn(y, r, Agenda(y)[j], all, at[j], at[j + 1]) {
      ToldIsFollowed(x, y, r, all, at, j);
      TurnOnRecords(x, y, r, j, all, at[j], at[j + 1]);
    }
  }

  lemma ScheduledIsTold(x: Inputs, y: Inputs, r: Rules, all: seq<Outcome>, at: seq<nat>)
    requires UniqueIds(x) && y == SortInputs(x) && Scheduled(y, r, Agenda(y), all, at)
    ensures Told(x, r, Agenda(y), all, at)
  {
    SortedIsChronological(x);
    hide Agenda, CallsFor, Supports, SortInputs, UniqueIds, TakesTurn, RecordTurn;
    forall j | 0 <= j < |Agenda(y)| ensures RecordTurn(x, r, Agenda(y)[j], all, at[j], at[j + 1]) {
      ScheduleIsFollowed(y, r, all, at, j);
      LedgerFromOutcomes(y, r, j);
      TurnOnRecords(x, y, r, j, all, at[j], at[j + 1]);
    }
  }

  /** Main result: with unique ids, a report is the one `reconcile` gives exactly when its results are
      numbered from 1 and there is a list of all turns, in order, at which just these outcomes are called
      for by the records and by what the outcomes before them mention. */
  lemma ReportOnRecords(x: Inputs, r: Rules, results: seq<Result>, all: seq<Outcome>)
    requires UniqueIds(x)
    requires |all| == |results| && forall i :: 0 <= i < |all| ==> all[i] == results[i].outcome
    ensures Reconciliation(x, r) == Reconciled(results) <==>
      && (forall i :: 0 <= i < |results| ==> results[i].number == i + 1)
      && exists tasks, at :: InOrder(x, tasks) && Told(x, r, tasks, all, at)
  {
    NumberedReport(x, r, results, all);
    OutcomesOnRecords(x, r, all);
    hide Outcomes, Reconciliation, InOrder, Told;
  }

  lemma NumberedReport(x: Inputs, r: Rules, results: seq<Result>, all: seq<Outcome>)
    requires UniqueIds(x)
    requires |all| == |results| && forall i :: 0 <= i < |all| ==> all[i] == results[i].outcome
    ensures Reconciliation(x, r) == Reconciled(results) <==>
      all == Outcomes(x, r) && forall i :: 0 <= i < |results| ==> results[i].number == i + 1
  {
    SortedIsChronological(x);
    ValidationIsExact(SortInputs(x));
    hide SortInputs, UniqueIds, Outcomes, RepeatedKind, Numbered;
    NumberingIs(results, Outcomes(x, r), all);
  }

  lemma NumberingIs(results: seq<Result>, outcomes: seq<Outcome>, all: seq<Outcome>)
    requires |all| == |results| && forall i :: 0 <= i < |all| ==> all[i] == results[i].outcome
    ensures results == Numbered(outcomes) <==>
      all == outcomes && forall i :: 0 <= i < |results| ==> results[i].number == i + 1
  {
    if results == Numbered(outcomes) {
      assert forall i :: 0 <= i < |all| ==> all[i] == outcomes[i];
    }
    if all == outcomes && forall i :: 0 <= i < |results| ==> results[i].number == i + 1 {
      assert forall i :: 0 <= i < |results| ==> results[i] == Numbered(outcomes)[i];
    }
  }

  lemma OutcomesOnRecords(x: Inputs, r: Rules, all: seq<Outcome>)
    requires UniqueIds(x)
    ensures all == Outcomes(x, r) <==> exists tasks, at :: InOrder(x, tasks) && Told(x, r, tasks, all, at)
  {
    var y := SortInputs(x);
    ReportIsDetermined(x, r, all);
    hide Agenda, SortInputs, UniqueIds, Scheduled, Told, InOrder, Outcomes;
    if all == Outcomes(x, r) {
      var at :| Scheduled(y, r, Agenda(y), all, at);
      ScheduledIsTold(x, y, r, all, at);
      AgendaIsInOrder(x, Agenda(y));
    }
    if tasks, at :| InOrder(x, tasks) && Told(x, r, tasks, all, at) {
      AgendaIsInOrder(x, tasks);
      ToldIsScheduled(x, y, r, all, at);
    }
  }

  /** Main result: an input is refused exactly when an id occurs twice within its kind, for the first such
      kind. */
  lemma RefusedExactly(x: Inputs, r: Rules, k: Kind)
    ensures Reconciliation(x, r) == DuplicateIds(k) <==> FirstToRepeat(x, k)
  {
    ValidationIsExact(SortInputs(x));
    forall kind ensures Distinct(InputIds(kind, SortInputs(x))) <==> Distinct(InputIds(kind, x)) {
      SortInputsKeepsIds(x, kind);
      if Distinct(InputIds(kind, x)) {
        DistinctSameMultiset(InputIds(kind, x), InputIds(kind, SortInputs(x)));
      }
      if Distinct(InputIds(kind, SortInputs(x))) {
        DistinctSameMultiset(InputIds(kind, SortInputs(x)), InputIds(kind, x));
      }
    }
    hide SortInputs, Outcomes, RepeatedKind;
  }
}
