/** Whose turn it is: every record gets its turn in every pass that concerns it, and the report
    lists the outcomes in the priority order of their rules. */
module Priority {
  import opened Ordering
  import opened Combinations
  import opened Records
  import opened Matching
  import opened MatchingFacts
  import opened Partition
  import opened Evidence

  /** The position of a rule in the priority order. */
  function Rank(rule: Rule): nat
  {
    match rule
    case DuplicateBankFingerprint => 1
    case ExactReferenceAmountCurrency => 2
    case GatewayNetToBank => 3
    case ReferenceAmountTolerance => 4
    case MultipleInvoicesToBank => 5
    case InvoiceToMultipleBankPayments => 6
    case GatewayAwaitingBankSettlement => 7
    case UnmatchedBankTransaction => 8
    case UnmatchedErpInvoice => 9
  }

  /** The one rule a task can report. */
  function RuleOf(t: Task): Rule
  {
    match t
    case Quarantine(_) => DuplicateBankFingerprint
    case Exact(_) => ExactReferenceAmountCurrency
    case Payout(_) => GatewayNetToBank
    case Near(_) => ReferenceAmountTolerance
    case ManyInvoices(_) => MultipleInvoicesToBank
    case ManyBanks(_) => InvoiceToMultipleBankPayments
    case Awaiting(_) => GatewayAwaitingBankSettlement
    case LeftoverBank(_) => UnmatchedBankTransaction
    case LeftoverInvoice(_) => UnmatchedErpInvoice
  }

  /** Ranks never fall along the tasks and lie between lo and hi. */
  ghost predicate Ranked(tasks: seq<Task>, lo: nat, hi: nat)
  {
    && (forall i :: 0 <= i < |tasks| ==> lo <= Rank(RuleOf(tasks[i])) <= hi)
    && (forall i, j :: 0 <= i < j < |tasks| ==> Rank(RuleOf(tasks[i])) <= Rank(RuleOf(tasks[j])))
  }

  lemma RankedConcat(a: seq<Task>, b: seq<Task>, lo: nat, mid: nat, hi: nat)
    requires lo <= mid <= hi && Ranked(a, lo, mid) && Ranked(b, mid, hi)
    ensures Ranked(a + b, lo, hi)
  {
  }

  lemma MiddleTasksAreRanked(x: Inputs)
    ensures Ranked(MiddleTasks(x), 2, 4)
  {
    var exact, payouts := ExactTasks(x.invoices), PayoutTasks(SortedSettlements(x));
    RankedConcat(exact, payouts, 2, 3, 3);
    RankedConcat(exact + payouts, NearTasks(x.invoices), 2, 4, 4);
  }

  lemma ClosingTasksAreRanked(x: Inputs)
    ensures Ranked(ClosingTasks(x), 6, 7)
  {
    RankedConcat(ManyBanksTasks(x.invoices), AwaitingTasks(SortedSettlements(x)), 6, 7, 7);
  }

  lemma PartsAreRanked(
      q: seq<Task>, middle: seq<Task>, many: seq<Task>, closing: seq<Task>, banks: seq<Task>, invoices: seq<Task>)
    requires Ranked(q, 1, 1) && Ranked(middle, 2, 4) && Ranked(many, 5, 5) && Ranked(closing, 6, 7)
    requires Ranked(banks, 8, 8) && Ranked(invoices, 9, 9)
    ensures Ranked((q + middle + many + closing) + banks + invoices, 1, 9)
  {
    RankedConcat(q, middle, 1, 2, 4);
    RankedConcat(q + middle, many, 1, 5, 5);
    RankedConcat(q + middle + many, closing, 1, 6, 7);
    RankedConcat(q + middle + many + closing, banks, 1, 8, 8);
    RankedConcat((q + middle + many + closing) + banks, invoices, 1, 9, 9);
  }

  lemma AgendaIsRanked(x: Inputs)
    ensures Ranked(Agenda(x), 1, 9)
  {
    MiddleTasksAreRanked(x);
    ClosingTasksAreRanked(x);
    PartsAreRanked(QuarantineTasks(SortedTwinGroups(x)), MiddleTasks(x), ManyInvoicesTasks(x.banks), ClosingTasks(x),
                   LeftoverBankTasks(x.banks), LeftoverInvoiceTasks(x.invoices));
  }

  lemma DecisionHasRule(x: Inputs, r: Rules, t: Task, l: Ledger)
    ensures Decide(x, r, t, l).Some? ==> Decide(x, r, t, l).value.rule == RuleOf(t)
  {
  }

  /** Ranks never fall along the outcomes and stay below hi. */
  ghost predicate RankedOutcomes(outcomes: seq<Outcome>, hi: nat)
  {
    && (forall i :: 0 <= i < |outcomes| ==> Rank(outcomes[i].rule) <= hi)
    && (forall i, j :: 0 <= i < j < |outcomes| ==> Rank(outcomes[i].rule) <= Rank(outcomes[j].rule))
  }

  /** The rank of the last of the first k tasks. */
  function RankBefore(tasks: seq<Task>, k: nat): nat
    requires k <= |tasks|
  {
    if k == 0 then 0 else Rank(RuleOf(tasks[k - 1]))
  }

  lemma RankBeforeGrows(tasks: seq<Task>, k: nat)
    requires Ranked(tasks, 1, 9) && k < |tasks|
    ensures RankBefore(tasks, k) <= RankBefore(tasks, k + 1)
  {
  }

  lemma RankedBelow(outcomes: seq<Outcome>, lo: nat, hi: nat)
    requires RankedOutcomes(outcomes, lo) && lo <= hi
    ensures RankedOutcomes(outcomes, hi)
  {
  }

  /** Outcomes inherit the order of the tasks that report them. */
  lemma {:induction false} SettleIsRanked(x: Inputs, r: Rules, tasks: seq<Task>, k: nat)
    requires Ranked(tasks, 1, 9) && k <= |tasks|
    ensures RankedOutcomes(Settle(x, r, tasks[..k], EMPTY_LEDGER).outcomes, RankBefore(tasks, k))
  {
    if k > 0 {
      var l := Settle(x, r, tasks[..k - 1], EMPTY_LEDGER);
      SettleIsRanked(x, r, tasks, k - 1);
      RankBeforeGrows(tasks, k - 1);
      RankedBelow(l.outcomes, RankBefore(tasks, k - 1), RankBefore(tasks, k));
      SettleOneMore(x, r, tasks, k - 1, EMPTY_LEDGER);
      StepIsRanked(x, r, tasks[k - 1], l);
    }
  }

  lemma StepIsRanked(x: Inputs, r: Rules, t: Task, l: Ledger)
    requires RankedOutcomes(l.outcomes, Rank(RuleOf(t)))
    ensures RankedOutcomes(Step(x, r, t, l).outcomes, Rank(RuleOf(t)))
  {
    var d := Decide(x, r, t, l);
    if d.Some? {
      DecisionHasRule(x, r, t, l);
      assert Step(x, r, t, l).outcomes == l.outcomes + [d.value];
    }
  }

  /** Main result: the report lists the outcomes by the priority of their rules. */
  lemma OutcomesFollowPriority(x: Inputs, r: Rules, i: nat, j: nat)
    requires i <= j < |Outcomes(x, r)|
    ensures Rank(Outcomes(x, r)[i].rule) <= Rank(Outcomes(x, r)[j].rule)
  {
    var y := SortInputs(x);
    var tasks := Agenda(y);
    AgendaIsRanked(y);
    SettleIsRanked(y, r, tasks, |tasks|);
    assert tasks[..|tasks|] == tasks;
  }

  lemma InvoiceHasTurns(x: Inputs, v: Invoice)
    requires v in x.invoices
    ensures Exact(v) in Agenda(x) && Near(v) in Agenda(x)
    ensures ManyBanks(v) in Agenda(x) && LeftoverInvoice(v) in Agenda(x)
  {
    var i :| 0 <= i < |x.invoices| && x.invoices[i] == v;
    assert ExactTasks(x.invoices)[i] in MiddleTasks(x);
    assert NearTasks(x.invoices)[i] in MiddleTasks(x);
    assert ManyBanksTasks(x.invoices)[i] in ClosingTasks(x);
    assert LeftoverInvoiceTasks(x.invoices)[i] in Agenda(x);
    InAgenda(x);
  }

  lemma InAgenda(x: Inputs)
    ensures forall t :: t in MiddleTasks(x) || t in ClosingTasks(x) ==> t in Agenda(x)
    ensures forall t :: t in ManyInvoicesTasks(x.banks) || t in LeftoverBankTasks(x.banks) ==> t in Agenda(x)
    ensures forall t :: t in QuarantineTasks(SortedTwinGroups(x)) ==> t in Agenda(x)
  {
    assert forall t :: t in MatchingTasks(x) ==> t in Agenda(x);
  }

  lemma BankHasTurns(x: Inputs, b: Bank)
    requires UniqueIds(x) && b in x.banks
    ensures Quarantine(Twins(b.Print(), x.banks)) in Agenda(x)
    ensures ManyInvoices(b) in Agenda(x) && LeftoverBank(b) in Agenda(x)
  {
    var i :| 0 <= i < |x.banks| && x.banks[i] == b;
    var groups := SortedTwinGroups(x);
    TwinGroupsAre(x);
    var j :| 0 <= j < |groups| && groups[j] == Twins(b.Print(), x.banks);
    assert ManyInvoicesTasks(x.banks)[i] in ManyInvoicesTasks(x.banks);
    assert LeftoverBankTasks(x.banks)[i] in LeftoverBankTasks(x.banks);
    assert QuarantineTasks(groups)[j] in QuarantineTasks(groups);
    InAgenda(x);
  }

  lemma SettlementHasTurns(x: Inputs, e: GatewayEntry)
    requires UniqueIds(x) && e in x.gateways
    ensures Payout(Members(e.settlementId, x.gateways)) in Agenda(x)
    ensures Awaiting(Members(e.settlementId, x.gateways)) in Agenda(x)
  {
    var groups := SortedSettlements(x);
    SettlementsAre(x);
    var j :| 0 <= j < |groups| && groups[j] == Members(e.settlementId, x.gateways);
    assert PayoutTasks(groups)[j] in MiddleTasks(x);
    assert AwaitingTasks(groups)[j] in ClosingTasks(x);
    InAgenda(x);
  }

  /** The record a task is about, which every outcome it reports mentions. */
  predicate About(t: Task, k: Kind, id: string)
  {
    match t
    case Exact(v) => k.InvoiceKind? && id == v.id
    case Near(v) => k.InvoiceKind? && id == v.id
    case ManyBanks(v) => k.InvoiceKind? && id == v.id
    case LeftoverInvoice(v) => k.InvoiceKind? && id == v.id
    case ManyInvoices(b) => k.BankKind? && id == b.id
    case LeftoverBank(b) => k.BankKind? && id == b.id
    case Quarantine(g) => k.BankKind? && id in BankIds(g)
    case Payout(g) => k.GatewayKind? && id in GatewayIds(g)
    case Awaiting(_) => false
  }

  /** Task j of the agenda had its turn when the first n outcomes were reported: the record was not
      consumed, and yet no outcome was supported. */
  ghost predicate TriedInVain(x: Inputs, r: Rules, j: nat, n: nat, k: Kind, id: string)
    requires j < |Agenda(SortInputs(x))| && n <= |Outcomes(x, r)|
  {
    var y, l := SortInputs(x), LedgerOf(Outcomes(x, r)[..n]);
    && Settle(y, r, Agenda(y)[..j], EMPTY_LEDGER) == l
    && id !in l.Used(k)
    && Quiet(y, r, l, Agenda(y)[j])
  }

  /** Main result: a record reported by some rule had its turn in every pass of a higher priority that is
      about it, before that report, while it was still unconsumed, and each lacked unambiguous evidence. */
  lemma HigherRulesWereTried(x: Inputs, r: Rules, j: nat, i: nat, k: Kind, id: string) returns (n: nat)
    requires UniqueIds(x) && j < |Agenda(SortInputs(x))| && i < |Outcomes(x, r)|
    requires About(Agenda(SortInputs(x))[j], k, id) && id in IdsOf(k, Outcomes(x, r)[i])
    requires Rank(RuleOf(Agenda(SortInputs(x))[j])) < Rank(Outcomes(x, r)[i].rule)
    ensures n <= i && TriedInVain(x, r, j, n, k, id)
  {
    var y, all := SortInputs(x), Outcomes(x, r);
    var l := Settle(y, r, Agenda(y)[..j], EMPTY_LEDGER);
    SortInputsKeepsUniqueness(x);
    PartitionTheorem(x, r, k);
    AgendaIsRanked(y);
    AgendaIsOrderly(y);
    LedgerFromOutcomes(y, r, j);
    n := TurnBefore(y, r, Agenda(y), j, i);
    NotMentionedBefore(k, all, n, i, id);
    assert Agenda(y)[j] in Agenda(y);
    ReportedLater(y, r, Agenda(y)[j], l, all, n, i, k, id);
  }

  /** Main result: an invoice reported as unmatched was tried in passes 2, 4 and 6, in this order, each
      time unconsumed and each time in vain. */
  lemma UnmatchedInvoiceWasTried(x: Inputs, r: Rules, v: Invoice, i: nat)
      returns (e: nat, t: nat, m: nat, exact: nat, near: nat, many: nat)
    requires UniqueIds(x) && v in x.invoices
    requires i < |Outcomes(x, r)| && Outcomes(x, r)[i] == LeftoverInvoiceOutcome(v)
    ensures e < t < m < |Agenda(SortInputs(x))| && exact <= near <= many <= i
    ensures Agenda(SortInputs(x))[e] == Exact(v) && TriedInVain(x, r, e, exact, InvoiceKind, v.id)
    ensures Agenda(SortInputs(x))[t] == Near(v) && TriedInVain(x, r, t, near, InvoiceKind, v.id)
    ensures Agenda(SortInputs(x))[m] == ManyBanks(v) && TriedInVain(x, r, m, many, InvoiceKind, v.id)
  {
    hide Agenda, Settle, TriedInVain;
    SortIsPermutation(x.invoices, InvoiceBefore);
    InvoiceHasTurns(SortInputs(x), v);
    e := TurnIndex(SortInputs(x), Exact(v));
    t := TurnIndex(SortInputs(x), Near(v));
    m := TurnIndex(SortInputs(x), ManyBanks(v));
    exact := TurnInVain(x, r, Exact(v), e, v, i);
    near := TurnInVain(x, r, Near(v), t, v, i);
    many := TurnInVain(x, r, ManyBanks(v), m, v, i);
    TurnsInOrder(x, r, e, exact, t, near, InvoiceKind, v.id);
    TurnsInOrder(x, r, t, near, m, many, InvoiceKind, v.id);
  }

  /** Main result: a bank entry reported as unmatched was tried in pass 5, unconsumed and in vain. */
  lemma UnmatchedBankWasTried(x: Inputs, r: Rules, b: Bank, i: nat) returns (m: nat, many: nat)
    requires UniqueIds(x) && b in x.banks
    requires i < |Outcomes(x, r)| && Outcomes(x, r)[i] == LeftoverBankOutcome(b)
    ensures m < |Agenda(SortInputs(x))| && many <= i
    ensures Agenda(SortInputs(x))[m] == ManyInvoices(b) && TriedInVain(x, r, m, many, BankKind, b.id)
  {
    hide Agenda, Settle, TriedInVain;
    SortIsPermutation(x.banks, BankBefore);
    SortInputsKeepsUniqueness(x);
    BankHasTurns(SortInputs(x), b);
    m := TurnIndex(SortInputs(x), ManyInvoices(b));
    many := HigherRulesWereTried(x, r, m, i, BankKind, b.id);
  }

  /** Main result: a gateway entry reported as awaiting settlement was tried with its whole settlement in
      pass 3, unconsumed and in vain. */
  lemma AwaitedEntryWasTried(x: Inputs, r: Rules, e: GatewayEntry, i: nat) returns (p: nat, payout: nat)
    requires UniqueIds(x) && e in x.gateways && i < |Outcomes(x, r)|
    requires Outcomes(x, r)[i].rule == GatewayAwaitingBankSettlement && e.id in Outcomes(x, r)[i].gatewayIds
    ensures p < |Agenda(SortInputs(x))| && payout <= i
    ensures Agenda(SortInputs(x))[p] == Payout(Members(e.settlementId, SortInputs(x).gateways))
    ensures TriedInVain(x, r, p, payout, GatewayKind, e.id)
  {
    hide Agenda, Settle, TriedInVain;
    var g := Members(e.settlementId, SortInputs(x).gateways);
    SortIsPermutation(x.gateways, GatewayBefore);
    SortInputsKeepsUniqueness(x);
    SettlementHasTurns(SortInputs(x), e);
    MembersAre(e.settlementId, SortInputs(x).gateways);
    GatewayIdsAre(g);
    p := TurnIndex(SortInputs(x), Payout(g));
    payout := HigherRulesWereTried(x, r, p, i, GatewayKind, e.id);
  }

  lemma TurnIndex(x: Inputs, t: Task) returns (j: nat)
    requires t in Agenda(x)
    ensures j < |Agenda(x)| && Agenda(x)[j] == t
  {
    j :| 0 <= j < |Agenda(x)| && Agenda(x)[j] == t;
  }

  lemma TurnInVain(x: Inputs, r: Rules, t: Task, j: nat, v: Invoice, i: nat) returns (n: nat)
    requires UniqueIds(x) && t in {Exact(v), Near(v), ManyBanks(v)}
    requires j < |Agenda(SortInputs(x))| && Agenda(SortInputs(x))[j] == t
    requires i < |Outcomes(x, r)| && Outcomes(x, r)[i] == LeftoverInvoiceOutcome(v)
    ensures n <= i && TriedInVain(x, r, j, n, InvoiceKind, v.id)
  {
    hide Agenda;
    assert About(t, InvoiceKind, v.id) && Rank(RuleOf(t)) < 9;
    n := HigherRulesWereTried(x, r, j, i, InvoiceKind, v.id);
  }

  /** Turns of ranked tasks come in that order and find no fewer outcomes. */
  lemma TurnsInOrder(x: Inputs, r: Rules, i: nat, m: nat, j: nat, n: nat, k: Kind, id: string)
    requires i < |Agenda(SortInputs(x))| && j < |Agenda(SortInputs(x))| && m <= |Outcomes(x, r)| && n <= |Outcomes(x, r)|
    requires Rank(RuleOf(Agenda(SortInputs(x))[i])) < Rank(RuleOf(Agenda(SortInputs(x))[j]))
    requires TriedInVain(x, r, i, m, k, id) && TriedInVain(x, r, j, n, k, id)
    ensures i < j && m <= n
  {
    hide Agenda, Quiet;
    var tasks := Agenda(SortInputs(x));
    AgendaIsRanked(SortInputs(x));
    assert i < j;
    assert tasks[..j][..i] == tasks[..i];
    PrefixSettles(SortInputs(x), r, tasks[..j], i);
  }

  /** What is mentioned at i is not mentioned before. */
  lemma NotMentionedBefore(k: Kind, all: seq<Outcome>, n: nat, i: nat, id: string)
    requires n <= i < |all| && id in IdsOf(k, all[i]) && Distinct(AllIds(k, all))
    ensures id !in LedgerOf(all[..n]).Used(k)
  {
    if id in AllIds(k, all[..n]) {
      var m := MentionedSomewhere(k, all[..n], id);
      MentionedTwice(k, all, m, i, id);
    }
  }

  lemma ReportedLater(
      x: Inputs, r: Rules, t: Task, l: Ledger, all: seq<Outcome>, n: nat, i: nat, k: Kind, id: string)
    requires UniqueIds(x) && Sound(x, t) && About(t, k, id)
    requires n <= i < |all| && id in IdsOf(k, all[i]) && Distinct(AllIds(k, all))
    requires var d := Decide(x, r, t, l); d.Some? ==> n < i && all[n] == d.value
    ensures Quiet(x, r, l, t)
  {
    if Decide(x, r, t, l).Some? {
      ReportMentions(x, r, t, l, k, id);
      MentionedTwice(k, all, n, i, id);
    }
    DecisionIsExact(x, r, t, l);
  }

  /** A task of a higher priority than an outcome has its turn before that outcome. */
  lemma TurnBefore(x: Inputs, r: Rules, tasks: seq<Task>, j: nat, i: nat) returns (n: nat)
    requires Ranked(tasks, 1, 9) && j < |tasks|
    requires var all := Settle(x, r, tasks, EMPTY_LEDGER).outcomes;
      i < |all| && Rank(RuleOf(tasks[j])) < Rank(all[i].rule)
    ensures var l, all := Settle(x, r, tasks[..j], EMPTY_LEDGER), Settle(x, r, tasks, EMPTY_LEDGER).outcomes;
      && n == |l.outcomes| <= i && l.outcomes == all[..n]
      && var d := Decide(x, r, tasks[j], l); d.Some? ==> n < i && all[n] == d.value
  {
    var l, all := Settle(x, r, tasks[..j], EMPTY_LEDGER), Settle(x, r, tasks, EMPTY_LEDGER).outcomes;
    n := TurnInTasks(x, r, tasks, j);
    SettleIsRanked(x, r, tasks, j);
    RankBeforeGrows(tasks, j);
    PositionByRank(all, n, i, Rank(RuleOf(tasks[j])));
    DecisionHasRule(x, r, tasks[j], l);
  }

  lemma PositionByRank(all: seq<Outcome>, n: nat, i: nat, rank: nat)
    requires n <= |all| && i < |all| && rank < Rank(all[i].rule)
    requires RankedOutcomes(all[..n], rank)
    ensures n <= i
  {
    assert forall k :: 0 <= k < n ==> all[..n][k] == all[k];
  }

  lemma ReportMentions(x: Inputs, r: Rules, t: Task, l: Ledger, k: Kind, id: string)
    requires About(t, k, id) && Decide(x, r, t, l).Some?
    ensures id in IdsOf(k, Decide(x, r, t, l).value)
  {
  }
}
