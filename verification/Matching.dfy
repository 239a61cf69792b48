/** What the eight passes decide. A reconciliation is an agenda of tasks, taken in order;
    each task may report one outcome, decided from the ledger the earlier tasks left. */
module Matching {
  import opened Ordering
  import opened Combinations
  import opened Records

  /** The condition of a pass on a bank entry that is not yet consumed. */
  datatype BankTest =
    | ExactFor(invoice: Invoice)
    | PayoutOf(group: seq<GatewayEntry>)
    | NearFor(invoice: Invoice)
    | PartOf(invoice: Invoice)

  /** The condition of a pass on an invoice that is not yet consumed. */
  datatype InvoiceTest =
    | LinkedToDuplicates(twins: seq<Bank>)
    | LinkedToPayout(group: seq<GatewayEntry>)
    | PaidBy(bank: Bank)
    | LinkedToAwaiting(group: seq<GatewayEntry>)

  predicate WithinDays(r: Rules, b: Bank, v: Invoice)
  {
    var comparison := if v.dueDate.Some? then v.dueDate.value else v.issueDate;
    Abs(b.bookingDate - comparison) <= r.dateToleranceDays
  }

  /** Mentioned and close in time: the evidence every referenced match needs. */
  predicate Refers(r: Rules, b: Bank, v: Invoice)
  {
    r.mentions(b, v) && WithinDays(r, b, v)
  }

  predicate PayoutEvidence(r: Rules, entry: GatewayEntry, b: Bank)
  {
    && entry.bankReference.Some? && entry.bankReference.value != ""
    && entry.bankReference == b.bankReference
    && Abs(b.bookingDate - entry.settlementDate) <= r.dateToleranceDays
  }

  /** `entry.invoice_reference in {invoice_id, invoice_number, payment_reference}`: an absent
      reference equals an absent payment reference, as None does in the source. */
  predicate Names(entry: GatewayEntry, v: Invoice)
  {
    entry.invoiceReference in {Some(v.id), Some(v.number), v.paymentReference}
  }

  predicate BankPasses(r: Rules, test: BankTest, b: Bank)
  {
    b.Eligible() &&
    match test
    case ExactFor(v) => b.currency == v.currency && b.amount == v.amountDue && Refers(r, b, v)
    case NearFor(v) =>
      b.currency == v.currency && 0 < Abs(b.amount - v.amountDue) <= r.amountTolerance && Refers(r, b, v)
    case PartOf(v) => b.currency == v.currency && Refers(r, b, v)
    case PayoutOf(group) =>
      && group != [] && b.currency == group[0].settlementCurrency
      && b.amount == NetTotal(group)
      && exists entry :: entry in group && PayoutEvidence(r, entry, b)
  }

  predicate InvoicePasses(r: Rules, test: InvoiceTest, v: Invoice)
  {
    match test
    case LinkedToDuplicates(twins) => exists b :: b in twins && Refers(r, b, v)
    case PaidBy(b) => v.currency == b.currency && Refers(r, b, v)
    case LinkedToAwaiting(group) => exists entry :: entry in group && Names(entry, v)
    case LinkedToPayout(group) =>
      && group != [] && v.currency == group[0].currency
      && v.amountDue == GrossTotal(group)
      && exists entry :: entry in group && Names(entry, v)
  }

  /** The list comprehension over banks that opens passes 2, 3, 4 and 6. */
  function BankCandidates(r: Rules, test: BankTest, used: set<string>, banks: seq<Bank>): seq<Bank>
  {
    if banks == [] then []
    else
      var rest := BankCandidates(r, test, used, banks[1..]);
      if banks[0].id !in used && BankPasses(r, test, banks[0]) then [banks[0]] + rest else rest
  }

  /** The list comprehension over invoices of passes 1, 3, 5 and 7. */
  function InvoiceCandidates(r: Rules, test: InvoiceTest, used: set<string>, invoices: seq<Invoice>): seq<Invoice>
  {
    if invoices == [] then []
    else
      var rest := InvoiceCandidates(r, test, used, invoices[1..]);
      if invoices[0].id !in used && InvoicePasses(r, test, invoices[0]) then [invoices[0]] + rest else rest
  }

  function Unsettled(used: set<string>, group: seq<GatewayEntry>): seq<GatewayEntry>
  {
    if group == [] then []
    else
      var rest := Unsettled(used, group[1..]);
      if group[0].id !in used then [group[0]] + rest else rest
  }

  /** The entries at the chosen positions. */
  function Pick<T>(items: seq<T>, t: seq<nat>): seq<T>
    requires forall i :: 0 <= i < |t| ==> t[i] < |items|
  {
    seq(|t|, i requires 0 <= i < |t| => items[t[i]])
  }

  function ChosenInvoices(r: Rules, candidates: seq<Invoice>, target: int): seq<Invoice>
  {
    SearchIsExact(AmountsDue(candidates), target, 2, SizeLimit(|candidates|, r.maximumGroupSize));
    Pick(candidates, MatchingCombination(AmountsDue(candidates), target, r.maximumGroupSize))
  }

  function ChosenBanks(r: Rules, candidates: seq<Bank>, target: int): seq<Bank>
  {
    SearchIsExact(Amounts(candidates), target, 2, SizeLimit(|candidates|, r.maximumGroupSize));
    Pick(candidates, MatchingCombination(Amounts(candidates), target, r.maximumGroupSize))
  }

  // The outcome each rule reports.

  function DuplicateOutcome(group: seq<Bank>, linked: seq<Invoice>): Outcome
    requires group != []
  {
    Outcome(DuplicateBankFingerprint, BankIds(group), InvoiceIds(linked), [],
            Some(group[0].amount), Some(group[0].amount), Some(0), group[0].currency)
  }

  function ExactOutcome(v: Invoice, b: Bank): Outcome
  {
    Outcome(ExactReferenceAmountCurrency, [b.id], [v.id], [], Some(v.amountDue), Some(b.amount), Some(0), v.currency)
  }

  function PayoutOutcome(group: seq<GatewayEntry>, b: Bank, linked: seq<Invoice>): Outcome
    requires group != []
  {
    var net := NetTotal(group);
    Outcome(GatewayNetToBank, [b.id], InvoiceIds(linked), GatewayIds(group),
            Some(net), Some(b.amount), Some(Abs(b.amount - net)), group[0].settlementCurrency)
  }

  function ToleranceOutcome(v: Invoice, b: Bank): Outcome
  {
    Outcome(ReferenceAmountTolerance, [b.id], [v.id], [],
            Some(v.amountDue), Some(b.amount), Some(Abs(b.amount - v.amountDue)), v.currency)
  }

  function ManyInvoicesOutcome(b: Bank, chosen: seq<Invoice>): Outcome
  {
    Outcome(MultipleInvoicesToBank, [b.id], InvoiceIds(chosen), [],
            Some(Total(AmountsDue(chosen))), Some(b.amount), Some(0), b.currency)
  }

  function ManyBanksOutcome(v: Invoice, chosen: seq<Bank>): Outcome
  {
    Outcome(InvoiceToMultipleBankPayments, BankIds(chosen), [v.id], [],
            Some(v.amountDue), Some(Total(Amounts(chosen))), Some(0), v.currency)
  }

  function AwaitingOutcome(remaining: seq<GatewayEntry>, linked: seq<Invoice>): Outcome
    requires remaining != []
  {
    Outcome(GatewayAwaitingBankSettlement, [], InvoiceIds(linked), GatewayIds(remaining),
            Some(NetTotal(remaining)), None, None, remaining[0].settlementCurrency)
  }

  function LeftoverBankOutcome(b: Bank): Outcome
  {
    Outcome(UnmatchedBankTransaction, [b.id], [], [], None, Some(b.amount), None, b.currency)
  }

  function LeftoverInvoiceOutcome(v: Invoice): Outcome
  {
    Outcome(UnmatchedErpInvoice, [], [v.id], [], Some(v.amountDue), None, None, v.currency)
  }

  /** One turn of one of the loops in `reconcile`. */
  datatype Task =
    | Quarantine(twins: seq<Bank>)
    | Exact(invoice: Invoice)
    | Payout(group: seq<GatewayEntry>)
    | Near(invoice: Invoice)
    | ManyInvoices(bank: Bank)
    | ManyBanks(invoice: Invoice)
    | Awaiting(group: seq<GatewayEntry>)
    | LeftoverBank(bank: Bank)
    | LeftoverInvoice(invoice: Invoice)

  function DecideQuarantine(x: Inputs, r: Rules, group: seq<Bank>, l: Ledger): Option<Outcome>
  {
    if |group| < 2 then None
    else Some(DuplicateOutcome(group, InvoiceCandidates(r, LinkedToDuplicates(group), l.invoices, x.invoices)))
  }

  function DecideExact(x: Inputs, r: Rules, v: Invoice, l: Ledger): Option<Outcome>
  {
    if v.id in l.invoices then None
    else
      var c := BankCandidates(r, ExactFor(v), l.banks, x.banks);
      if |c| == 1 then Some(ExactOutcome(v, c[0])) else None
  }

  function DecidePayout(x: Inputs, r: Rules, group: seq<GatewayEntry>, l: Ledger): Option<Outcome>
  {
    var c := BankCandidates(r, PayoutOf(group), l.banks, x.banks);
    if group != [] && |c| == 1
    then Some(PayoutOutcome(group, c[0], InvoiceCandidates(r, LinkedToPayout(group), l.invoices, x.invoices)))
    else None
  }

  function DecideNear(x: Inputs, r: Rules, v: Invoice, l: Ledger): Option<Outcome>
  {
    if v.id in l.invoices then None
    else
      var c := BankCandidates(r, NearFor(v), l.banks, x.banks);
      if |c| == 1 then Some(ToleranceOutcome(v, c[0])) else None
  }

  function DecideManyInvoices(x: Inputs, r: Rules, b: Bank, l: Ledger): Option<Outcome>
  {
    if b.id in l.banks || !b.Eligible() then None
    else
      var chosen := ChosenInvoices(r, InvoiceCandidates(r, PaidBy(b), l.invoices, x.invoices), b.amount);
      if chosen == [] then None else Some(ManyInvoicesOutcome(b, chosen))
  }

  function DecideManyBanks(x: Inputs, r: Rules, v: Invoice, l: Ledger): Option<Outcome>
  {
    if v.id in l.invoices then None
    else
      var chosen := ChosenBanks(r, BankCandidates(r, PartOf(v), l.banks, x.banks), v.amountDue);
      if chosen == [] then None else Some(ManyBanksOutcome(v, chosen))
  }

  function DecideAwaiting(x: Inputs, r: Rules, group: seq<GatewayEntry>, l: Ledger): Option<Outcome>
  {
    var remaining := Unsettled(l.gateways, group);
    if remaining == [] then None
    else Some(AwaitingOutcome(remaining, InvoiceCandidates(r, LinkedToAwaiting(remaining), l.invoices, x.invoices)))
  }

  function Decide(x: Inputs, r: Rules, t: Task, l: Ledger): Option<Outcome>
  {
    match t
    case Quarantine(group) => DecideQuarantine(x, r, group, l)
    case Exact(v) => DecideExact(x, r, v, l)
    case Payout(group) => DecidePayout(x, r, group, l)
    case Near(v) => DecideNear(x, r, v, l)
    case ManyInvoices(b) => DecideManyInvoices(x, r, b, l)
    case ManyBanks(v) => DecideManyBanks(x, r, v, l)
    case Awaiting(group) => DecideAwaiting(x, r, group, l)
    case LeftoverBank(b) => if b.id in l.banks then None else Some(LeftoverBankOutcome(b))
    case LeftoverInvoice(v) => if v.id in l.invoices then None else Some(LeftoverInvoiceOutcome(v))
  }

  function Step(x: Inputs, r: Rules, t: Task, l: Ledger): Ledger
  {
    var d := Decide(x, r, t, l);
    if d.Some? then l.Add(d.value) else l
  }

  /** The ledger after taking the tasks in order. */
  function Settle(x: Inputs, r: Rules, tasks: seq<Task>, l: Ledger): Ledger
  {
    if tasks == [] then l
    else Step(x, r, tasks[|tasks| - 1], Settle(x, r, tasks[..|tasks| - 1], l))
  }

  // Grouping, as the insertion-ordered dictionaries of passes 1, 3 and 7 do it.

  function Prints(banks: seq<Bank>): seq<Fingerprint>
  {
    if banks == [] then []
    else
      var before, p := Prints(banks[..|banks| - 1]), banks[|banks| - 1].Print();
      if p in before then before else before + [p]
  }

  function Twins(p: Fingerprint, banks: seq<Bank>): seq<Bank>
  {
    if banks == [] then []
    else
      var before, b := Twins(p, banks[..|banks| - 1]), banks[|banks| - 1];
      if b.Print() == p then before + [b] else before
  }

  function TwinGroups(banks: seq<Bank>): seq<seq<Bank>>
  {
    var prints := Prints(banks);
    seq(|prints|, i requires 0 <= i < |prints| => Twins(prints[i], banks))
  }

  function SettlementIds(gateways: seq<GatewayEntry>): seq<string>
  {
    if gateways == [] then []
    else
      var before, id := SettlementIds(gateways[..|gateways| - 1]), gateways[|gateways| - 1].settlementId;
      if id in before then before else before + [id]
  }

  function Members(id: string, gateways: seq<GatewayEntry>): seq<GatewayEntry>
  {
    if gateways == [] then []
    else
      var before, e := Members(id, gateways[..|gateways| - 1]), gateways[|gateways| - 1];
      if e.settlementId == id then before + [e] else before
  }

  function HeadId(group: seq<Bank>): string
  {
    if group == [] then "" else group[0].id
  }

  predicate HeadBefore(a: seq<Bank>, b: seq<Bank>)
  {
    StringLe(HeadId(a), HeadId(b))
  }

  function SortedTwinGroups(x: Inputs): seq<seq<Bank>>
  {
    Sort(TwinGroups(x.banks), HeadBefore)
  }

  function SortedSettlements(x: Inputs): seq<seq<GatewayEntry>>
  {
    var ids := Sort(SettlementIds(x.gateways), StringLe);
    seq(|ids|, i requires 0 <= i < |ids| => Members(ids[i], x.gateways))
  }

  // The agenda, pass by pass.

  function QuarantineTasks(groups: seq<seq<Bank>>): seq<Task>
  {
    seq(|groups|, i requires 0 <= i < |groups| => Quarantine(groups[i]))
  }

  function ExactTasks(invoices: seq<Invoice>): seq<Task>
  {
    seq(|invoices|, i requires 0 <= i < |invoices| => Exact(invoices[i]))
  }

  function PayoutTasks(groups: seq<seq<GatewayEntry>>): seq<Task>
  {
    seq(|groups|, i requires 0 <= i < |groups| => Payout(groups[i]))
  }

  function NearTasks(invoices: seq<Invoice>): seq<Task>
  {
    seq(|invoices|, i requires 0 <= i < |invoices| => Near(invoices[i]))
  }

  function ManyInvoicesTasks(banks: seq<Bank>): seq<Task>
  {
    seq(|banks|, i requires 0 <= i < |banks| => ManyInvoices(banks[i]))
  }

  function ManyBanksTasks(invoices: seq<Invoice>): seq<Task>
  {
    seq(|invoices|, i requires 0 <= i < |invoices| => ManyBanks(invoices[i]))
  }

  function AwaitingTasks(groups: seq<seq<GatewayEntry>>): seq<Task>
  {
    seq(|groups|, i requires 0 <= i < |groups| => Awaiting(groups[i]))
  }

  function LeftoverBankTasks(banks: seq<Bank>): seq<Task>
  {
    seq(|banks|, i requires 0 <= i < |banks| => LeftoverBank(banks[i]))
  }

  function LeftoverInvoiceTasks(invoices: seq<Invoice>): seq<Task>
  {
    seq(|invoices|, i requires 0 <= i < |invoices| => LeftoverInvoice(invoices[i]))
  }

  /** Passes 2, 3 and 4. */
  function MiddleTasks(x: Inputs): seq<Task>
  {
    ExactTasks(x.invoices) + PayoutTasks(SortedSettlements(x)) + NearTasks(x.invoices)
  }

  /** Passes 6 and 7. */
  function ClosingTasks(x: Inputs): seq<Task>
  {
    ManyBanksTasks(x.invoices) + AwaitingTasks(SortedSettlements(x))
  }

  /** Passes 1 to 7. */
  function MatchingTasks(x: Inputs): seq<Task>
  {
    QuarantineTasks(SortedTwinGroups(x)) + MiddleTasks(x) + ManyInvoicesTasks(x.banks) + ClosingTasks(x)
  }

  /** All eight passes. */
  function Agenda(x: Inputs): seq<Task>
  {
    MatchingTasks(x) + LeftoverBankTasks(x.banks) + LeftoverInvoiceTasks(x.invoices)
  }

  // Sorting and validation at the entrance.

  predicate BankBefore(a: Bank, b: Bank)
  {
    a.bookingDate < b.bookingDate || (a.bookingDate == b.bookingDate && StringLe(a.id, b.id))
  }

  predicate InvoiceBefore(a: Invoice, b: Invoice)
  {
    a.issueDate < b.issueDate || (a.issueDate == b.issueDate && StringLe(a.id, b.id))
  }

  predicate GatewayBefore(a: GatewayEntry, b: GatewayEntry)
  {
    a.settlementDate < b.settlementDate || (a.settlementDate == b.settlementDate && StringLe(a.id, b.id))
  }

  function SortInputs(x: Inputs): Inputs
  {
    Inputs(Sort(x.banks, BankBefore), Sort(x.invoices, InvoiceBefore), Sort(x.gateways, GatewayBefore))
  }

  /** No id occurs twice within its kind. */
  ghost predicate UniqueIds(x: Inputs)
  {
    forall k :: Distinct(InputIds(k, x))
  }

  datatype Report = Reconciled(results: seq<Result>) | DuplicateIds(kind: Kind)

  /** `_validate_unique_source_ids`: the first kind with a repeated id, if any. */
  function RepeatedKind(x: Inputs): Option<Kind>
  {
    if |InputIds(BankKind, x)| != |IdSet(InputIds(BankKind, x))| then Some(BankKind)
    else if |InputIds(InvoiceKind, x)| != |IdSet(InputIds(InvoiceKind, x))| then Some(InvoiceKind)
    else if |InputIds(GatewayKind, x)| != |IdSet(InputIds(GatewayKind, x))| then Some(GatewayKind)
    else None
  }

  function Outcomes(x: Inputs, r: Rules): seq<Outcome>
  {
    var sorted := SortInputs(x);
    Settle(sorted, r, Agenda(sorted), EMPTY_LEDGER).outcomes
  }

  /** What `reconcile` answers. */
  function Reconciliation(x: Inputs, r: Rules): Report
  {
    var repeated := RepeatedKind(SortInputs(x));
    if repeated.Some? then DuplicateIds(repeated.value) else Reconciled(Numbered(Outcomes(x, r)))
  }
}
