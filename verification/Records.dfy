/** The records the engine reconciles, the outcomes it reports, and the ledger of what is consumed.
    Amounts are integers in minor units and dates are day numbers. */
module Records {
  import opened Ordering

  datatype BankStatus = Booked | Pending | Reversed | Cancelled

  datatype Indicator = Credit | Debit

  datatype Bank = Bank(
    id: string,
    transactionId: string,
    bankReference: Option<string>,
    bookingDate: int,
    currency: string,
    amount: int,
    indicator: Indicator,
    status: BankStatus,
    isReversal: bool,
    texts: seq<string>)
  {
    function Print(): Fingerprint
    {
      Fingerprint(transactionId, bankReference, bookingDate, currency, amount)
    }

    predicate Eligible()
    {
      status.Booked? && indicator.Credit? && !isReversal
    }
  }

  /** What two bank entries must share to be quarantined as duplicates. */
  datatype Fingerprint = Fingerprint(
    transactionId: string,
    bankReference: Option<string>,
    bookingDate: int,
    currency: string,
    amount: int)

  datatype Invoice = Invoice(
    id: string,
    number: string,
    paymentReference: Option<string>,
    issueDate: int,
    dueDate: Option<int>,
    currency: string,
    amountDue: int)

  datatype GatewayEntry = GatewayEntry(
    id: string,
    settlementId: string,
    settlementDate: int,
    gross: int,
    fee: int,
    taxOnFee: int,
    refund: int,
    chargeback: int,
    adjustment: int,
    net: int,
    currency: string,
    settlementCurrency: string,
    invoiceReference: Option<string>,
    bankReference: Option<string>)
  {
    /** The construction check of the gateway model. */
    predicate Consistent()
    {
      net == gross - fee - taxOnFee - refund - chargeback + adjustment
    }

    function Withheld(): int
    {
      fee + taxOnFee + refund + chargeback - adjustment
    }
  }

  /** Configuration, with the text matching of `_mentions` left as any predicate. */
  datatype Rules = Rules(
    amountTolerance: int,
    dateToleranceDays: int,
    maximumGroupSize: nat,
    mentions: (Bank, Invoice) -> bool)

  /** The three source lists; inside the engine they are sorted. */
  datatype Inputs = Inputs(banks: seq<Bank>, invoices: seq<Invoice>, gateways: seq<GatewayEntry>)

  datatype Rule =
    | DuplicateBankFingerprint
    | ExactReferenceAmountCurrency
    | GatewayNetToBank
    | ReferenceAmountTolerance
    | MultipleInvoicesToBank
    | InvoiceToMultipleBankPayments
    | GatewayAwaitingBankSettlement
    | UnmatchedBankTransaction
    | UnmatchedErpInvoice

  datatype Outcome = Outcome(
    rule: Rule,
    bankIds: seq<string>,
    invoiceIds: seq<string>,
    gatewayIds: seq<string>,
    expected: Option<int>,
    actual: Option<int>,
    difference: Option<int>,
    currency: string)

  /** An outcome as reported: RESULT-0001, RESULT-0002, ... */
  datatype Result = Result(number: nat, outcome: Outcome)

  function Numbered(outcomes: seq<Outcome>): seq<Result>
  {
    seq(|outcomes|, i requires 0 <= i < |outcomes| => Result(i + 1, outcomes[i]))
  }

  datatype Kind = BankKind | InvoiceKind | GatewayKind

  function IdsOf(k: Kind, o: Outcome): seq<string>
  {
    match k
    case BankKind => o.bankIds
    case InvoiceKind => o.invoiceIds
    case GatewayKind => o.gatewayIds
  }

  /** Every id of a kind mentioned by the outcomes, in report order and with repetitions. */
  function AllIds(k: Kind, outcomes: seq<Outcome>): seq<string>
  {
    if outcomes == [] then []
    else AllIds(k, outcomes[..|outcomes| - 1]) + IdsOf(k, outcomes[|outcomes| - 1])
  }

  function IdSet(ids: seq<string>): set<string>
  {
    set id | id in ids
  }

  /** The three "used" sets and the result list of one reconciliation. */
  datatype Ledger = Ledger(
    banks: set<string>,
    invoices: set<string>,
    gateways: set<string>,
    outcomes: seq<Outcome>)
  {
    function Used(k: Kind): set<string>
    {
      match k
      case BankKind => banks
      case InvoiceKind => invoices
      case GatewayKind => gateways
    }

    /** Report one outcome and consume everything it mentions. */
    function Add(o: Outcome): Ledger
    {
      Ledger(
        banks + IdSet(o.bankIds),
        invoices + IdSet(o.invoiceIds),
        gateways + IdSet(o.gatewayIds),
        outcomes + [o])
    }
  }

  const EMPTY_LEDGER := Ledger({}, {}, {}, [])

  function BankIds(banks: seq<Bank>): seq<string>
  {
    seq(|banks|, i requires 0 <= i < |banks| => banks[i].id)
  }

  function InvoiceIds(invoices: seq<Invoice>): seq<string>
  {
    seq(|invoices|, i requires 0 <= i < |invoices| => invoices[i].id)
  }

  function GatewayIds(gateways: seq<GatewayEntry>): seq<string>
  {
    seq(|gateways|, i requires 0 <= i < |gateways| => gateways[i].id)
  }

  function InputIds(k: Kind, x: Inputs): seq<string>
  {
    match k
    case BankKind => BankIds(x.banks)
    case InvoiceKind => InvoiceIds(x.invoices)
    case GatewayKind => GatewayIds(x.gateways)
  }

  function Amounts(banks: seq<Bank>): seq<int>
  {
    seq(|banks|, i requires 0 <= i < |banks| => banks[i].amount)
  }

  function AmountsDue(invoices: seq<Invoice>): seq<int>
  {
    seq(|invoices|, i requires 0 <= i < |invoices| => invoices[i].amountDue)
  }

  function Total(amounts: seq<int>): int
  {
    if amounts == [] then 0 else amounts[0] + Total(amounts[1..])
  }

  function NetTotal(group: seq<GatewayEntry>): int
  {
    if group == [] then 0 else group[0].net + NetTotal(group[1..])
  }

  function GrossTotal(group: seq<GatewayEntry>): int
  {
    if group == [] then 0 else group[0].gross + GrossTotal(group[1..])
  }

  function WithheldTotal(group: seq<GatewayEntry>): int
  {
    if group == [] then 0 else group[0].Withheld() + WithheldTotal(group[1..])
  }

  function Abs(n: int): nat
  {
    if n < 0 then -n else n
  }
}
