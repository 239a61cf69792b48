/** What each reported rule says about the records it names: eligibility, currency, reference, date
    window and amount equation, spelled out on the records themselves. */
module Justification {
  import opened Ordering
  import opened Combinations
  import opened Records
  import opened Matching
  import opened MatchingFacts
  import opened Partition
  import opened Evidence
  import opened Settlements

  /** A booked credit that is not a reversal, mentioning the invoice within the date tolerance. */
  predicate Pays(r: Rules, b: Bank, v: Invoice)
  {
    && b.status == Booked && b.indicator == Credit && !b.isReversal
    && b.currency == v.currency
    && Mentioned(r, b, v)
  }

  predicate Mentioned(r: Rules, b: Bank, v: Invoice)
  {
    var due := if v.dueDate == None then v.issueDate else v.dueDate.value;
    r.mentions(b, v) && due - r.dateToleranceDays <= b.bookingDate <= due + r.dateToleranceDays
  }

  predicate Linked(e: GatewayEntry, v: Invoice)
  {
    match e.invoiceReference
    case None => v.paymentReference == None
    case Some(reference) => reference == v.id || reference == v.number || v.paymentReference == Some(reference)
  }

  predicate MentionedByAny(r: Rules, g: seq<Bank>, v: Invoice)
  {
    exists b :: b in g && Mentioned(r, b, v)
  }

  predicate LinkedByAny(g: seq<GatewayEntry>, v: Invoice)
  {
    exists e :: e in g && Linked(e, v)
  }

  ghost predicate Names(o: Outcome, banks: seq<Bank>, invoices: seq<Invoice>, gateways: seq<GatewayEntry>)
  {
    o.bankIds == BankIds(banks) && o.invoiceIds == InvoiceIds(invoices) && o.gatewayIds == GatewayIds(gateways)
  }

  ghost predicate ExactJustified(r: Rules, o: Outcome, b: Bank, v: Invoice)
  {
    && Names(o, [b], [v], []) && Pays(r, b, v) && b.amount == v.amountDue
    && o.expected == Some(v.amountDue) && o.actual == Some(b.amount) && o.difference == Some(0)
    && o.currency == v.currency
  }

  ghost predicate ToleranceJustified(r: Rules, o: Outcome, b: Bank, v: Invoice)
  {
    && Names(o, [b], [v], []) && Pays(r, b, v)
    && o.expected == Some(v.amountDue) && o.actual == Some(b.amount) && o.difference.Some?
    && 0 < o.difference.value <= r.amountTolerance
    && (b.amount == v.amountDue + o.difference.value || v.amountDue == b.amount + o.difference.value)
    && o.currency == v.currency
  }

  ghost predicate ManyInvoicesJustified(x: Inputs, r: Rules, o: Outcome, b: Bank, chosen: seq<Invoice>)
  {
    && Names(o, [b], chosen, []) && 2 <= |chosen| <= r.maximumGroupSize
    && (forall v :: v in chosen ==> v in x.invoices && Pays(r, b, v))
    && Total(AmountsDue(chosen)) == b.amount
    && o.expected == Some(b.amount) && o.actual == Some(b.amount) && o.difference == Some(0)
    && o.currency == b.currency
  }

  ghost predicate ManyBanksJustified(x: Inputs, r: Rules, o: Outcome, chosen: seq<Bank>, v: Invoice)
  {
    && Names(o, chosen, [v], []) && 2 <= |chosen| <= r.maximumGroupSize
    && (forall b :: b in chosen ==> b in x.banks && Pays(r, b, v))
    && Total(Amounts(chosen)) == v.amountDue
    && o.expected == Some(v.amountDue) && o.actual == Some(v.amountDue) && o.difference == Some(0)
    && o.currency == v.currency
  }

  /** A booked credit of the net total that carries the bank reference of some entry, close to its date. */
  predicate PaysOut(r: Rules, b: Bank, g: seq<GatewayEntry>)
    requires g != []
  {
    && b.status == Booked && b.indicator == Credit && !b.isReversal
    && b.currency == g[0].settlementCurrency && b.amount == NetTotal(g)
    && exists e :: e in g && e.bankReference.Some? && e.bankReference.value != "" && e.bankReference == b.bankReference
         && e.settlementDate - r.dateToleranceDays <= b.bookingDate <= e.settlementDate + r.dateToleranceDays
  }

  /** An invoice of the gross total that some entry names. */
  predicate Settled(g: seq<GatewayEntry>, v: Invoice)
    requires g != []
  {
    v.currency == g[0].currency && v.amountDue == GrossTotal(g) && LinkedByAny(g, v)
  }

  ghost predicate PayoutJustified(x: Inputs, r: Rules, o: Outcome, b: Bank, g: seq<GatewayEntry>, linked: seq<Invoice>)
  {
    && Names(o, [b], linked, g) && WholeSettlement(x, g)
    && PaysOut(r, b, g) && o.currency == g[0].settlementCurrency
    && (forall v :: v in linked ==> v in x.invoices && Settled(g, v))
    && o.expected == Some(NetTotal(g)) && o.actual == Some(NetTotal(g)) && o.difference == Some(0)
  }

  ghost predicate DuplicateJustified(x: Inputs, r: Rules, o: Outcome, g: seq<Bank>, linked: seq<Invoice>)
  {
    && Names(o, g, linked, []) && |g| >= 2
    && (forall b :: b in g <==> b in x.banks && SamePayment(b, g[0]))
    && (forall v :: v in linked ==> v in x.invoices && MentionedByAny(r, g, v))
    && o.expected == Some(g[0].amount) && o.actual == Some(g[0].amount) && o.difference == Some(0)
    && o.currency == g[0].currency
  }

  predicate SamePayment(a: Bank, b: Bank)
  {
    && a.transactionId == b.transactionId && a.bankReference == b.bankReference && a.bookingDate == b.bookingDate
    && a.currency == b.currency && a.amount == b.amount
  }

  ghost predicate AwaitingJustified(x: Inputs, o: Outcome, g: seq<GatewayEntry>, linked: seq<Invoice>)
  {
    && Names(o, [], linked, g) && WholeSettlement(x, g)
    && (forall v :: v in linked ==> v in x.invoices && LinkedByAny(g, v))
    && o.expected == Some(NetTotal(g)) && o.actual == None && o.difference == None
    && o.currency == g[0].settlementCurrency
  }

  /** Every outcome names records of the input that justify it. */
  ghost predicate Justified(x: Inputs, r: Rules, o: Outcome)
  {
    match o.rule
    case DuplicateBankFingerprint => exists g, linked :: DuplicateJustified(x, r, o, g, linked)
    case ExactReferenceAmountCurrency => exists b, v :: b in x.banks && v in x.invoices && ExactJustified(r, o, b, v)
    case GatewayNetToBank => exists b, g, linked :: b in x.banks && PayoutJustified(x, r, o, b, g, linked)
    case ReferenceAmountTolerance => exists b, v :: b in x.banks && v in x.invoices && ToleranceJustified(r, o, b, v)
    case MultipleInvoicesToBank => exists b, chosen :: b in x.banks && ManyInvoicesJustified(x, r, o, b, chosen)
    case InvoiceToMultipleBankPayments => exists chosen, v :: v in x.invoices && ManyBanksJustified(x, r, o, chosen, v)
    case GatewayAwaitingBankSettlement => exists g, linked :: AwaitingJustified(x, o, g, linked)
    case UnmatchedBankTransaction =>
      exists b :: b in x.banks && Names(o, [b], [], []) && o.expected == None && o.actual == Some(b.amount)
                  && o.difference == None && o.currency == b.currency
    case UnmatchedErpInvoice =>
      exists v :: v in x.invoices && Names(o, [], [v], []) && o.expected == Some(v.amountDue) && o.actual == None
                  && o.difference == None && o.currency == v.currency
  }

  /** Given a ledger that splits no settlement, as every ledger of the engine is. */
  lemma SupportedIsJustified(x: Inputs, r: Rules, l: Ledger, t: Task, o: Outcome)
    requires UniqueIds(x) && Sound(x, t) && WholeOrNothing(x, l) && Supports(x, r, l, t, o)
    ensures Justified(x, r, o)
  {
    match t
    case Quarantine(g) => DuplicateCase(x, r, l, g, o);
    case Exact(v) => ExactCase(x, r, l, v, o);
    case Payout(g) => PayoutCase(x, r, l, g, o);
    case Near(v) => ToleranceCase(x, r, l, v, o);
    case ManyInvoices(b) => ManyInvoicesCase(x, r, l, b, o);
    case ManyBanks(v) => ManyBanksCase(x, r, l, v, o);
    case Awaiting(g) => AwaitingCase(x, r, l, g, o);
    case LeftoverBank(b) => assert Names(o, [b], [], []);
    case LeftoverInvoice(v) => assert Names(o, [], [v], []);
  }

  lemma DuplicateCase(x: Inputs, r: Rules, l: Ledger, g: seq<Bank>, o: Outcome)
    requires UniqueIds(x) && Sound(x, Quarantine(g)) && Supports(x, r, l, Quarantine(g), o)
    ensures Justified(x, r, o)
  {
    var linked := InvoiceCandidates(r, LinkedToDuplicates(g), l.invoices, x.invoices);
    TwinsAre(g[0].Print(), x.banks);
    InvoiceCandidatesAre(r, LinkedToDuplicates(g), l.invoices, x.invoices);
    forall v | v in linked ensures MentionedByAny(r, g, v) {
      var b :| b in g && Refers(r, b, v);
      assert Mentioned(r, b, v);
    }
    assert DuplicateJustified(x, r, o, g, linked);
  }

  lemma ExactCase(x: Inputs, r: Rules, l: Ledger, v: Invoice, o: Outcome)
    requires UniqueIds(x) && Sound(x, Exact(v)) && Supports(x, r, l, Exact(v), o)
    ensures Justified(x, r, o)
  {
    var b :| SoleBank(x, r, l.banks, ExactFor(v), b) && o == ExactOutcome(v, b);
    assert ExactJustified(r, o, b, v);
  }

  lemma ToleranceCase(x: Inputs, r: Rules, l: Ledger, v: Invoice, o: Outcome)
    requires UniqueIds(x) && Sound(x, Near(v)) && Supports(x, r, l, Near(v), o)
    ensures Justified(x, r, o)
  {
    var b :| SoleBank(x, r, l.banks, NearFor(v), b) && o == ToleranceOutcome(v, b);
    assert ToleranceJustified(r, o, b, v);
  }

  lemma PayoutCase(x: Inputs, r: Rules, l: Ledger, g: seq<GatewayEntry>, o: Outcome)
    requires UniqueIds(x) && Sound(x, Payout(g)) && Supports(x, r, l, Payout(g), o)
    ensures Justified(x, r, o)
  {
    var linked := InvoiceCandidates(r, LinkedToPayout(g), l.invoices, x.invoices);
    var b :| SoleBank(x, r, l.banks, PayoutOf(g), b) && o == PayoutOutcome(g, b, linked);
    MembersAre(g[0].settlementId, x.gateways);
    InvoiceCandidatesAre(r, LinkedToPayout(g), l.invoices, x.invoices);
    var e :| e in g && PayoutEvidence(r, e, b);
    LinkedInvoices(g, linked, r, LinkedToPayout(g));
    assert PaysOut(r, b, g);
    assert PayoutJustified(x, r, o, b, g, linked);
  }

  lemma LinkedInvoices(g: seq<GatewayEntry>, linked: seq<Invoice>, r: Rules, test: InvoiceTest)
    requires test == LinkedToPayout(g) || test == LinkedToAwaiting(g)
    requires forall v :: v in linked ==> InvoicePasses(r, test, v)
    ensures forall v :: v in linked ==> LinkedByAny(g, v)
  {
    forall v | v in linked ensures LinkedByAny(g, v) {
      var e :| e in g && Matching.Names(e, v);
      AbsentReferenceNames(e, v);
      assert Linked(e, v);
    }
  }

  lemma ChoiceOfInvoices(c: seq<Invoice>, target: int, maximum: nat, t: seq<nat>)
    requires SmallestSole(AmountsDue(c), target, maximum, t)
    ensures 2 <= |Pick(c, t)| <= maximum && Total(AmountsDue(Pick(c, t))) == target
    ensures forall v :: v in Pick(c, t) ==> v in c
  {
    PickedInvoicesAre(c, t);
    PickedSumIsTotal(AmountsDue(c), t);
    assert AmountsDue(Pick(c, t)) == Pick(AmountsDue(c), t);
  }

  lemma ChoiceOfBanks(c: seq<Bank>, target: int, maximum: nat, t: seq<nat>)
    requires SmallestSole(Amounts(c), target, maximum, t)
    ensures 2 <= |Pick(c, t)| <= maximum && Total(Amounts(Pick(c, t))) == target
    ensures forall b :: b in Pick(c, t) ==> b in c
  {
    PickedBanksAre(c, t);
    PickedSumIsTotal(Amounts(c), t);
    assert Amounts(Pick(c, t)) == Pick(Amounts(c), t);
  }

  lemma PassingPays(r: Rules, b: Bank, v: Invoice)
    ensures BankPasses(r, PartOf(v), b) ==> Pays(r, b, v)
    ensures b.Eligible() && InvoicePasses(r, PaidBy(b), v) ==> Pays(r, b, v)
  {
  }

  lemma ManyInvoicesCase(x: Inputs, r: Rules, l: Ledger, b: Bank, o: Outcome)
    requires UniqueIds(x) && b in x.banks && Supports(x, r, l, ManyInvoices(b), o)
    ensures Justified(x, r, o)
  {
    hide Pays, InvoicePasses, Total;
    var c := InvoiceCandidates(r, PaidBy(b), l.invoices, x.invoices);
    var t :| SmallestSole(AmountsDue(c), b.amount, r.maximumGroupSize, t) && o == ManyInvoicesOutcome(b, Pick(c, t));
    InvoiceCandidatesAre(r, PaidBy(b), l.invoices, x.invoices);
    ChoiceOfInvoices(c, b.amount, r.maximumGroupSize, t);
    forall v | v in Pick(c, t) ensures Pays(r, b, v) {
      PassingPays(r, b, v);
    }
    assert ManyInvoicesJustified(x, r, o, b, Pick(c, t));
  }

  lemma ManyBanksCase(x: Inputs, r: Rules, l: Ledger, v: Invoice, o: Outcome)
    requires UniqueIds(x) && v in x.invoices && Supports(x, r, l, ManyBanks(v), o)
    ensures Justified(x, r, o)
  {
    hide Pays, BankPasses, Total;
    var c := BankCandidates(r, PartOf(v), l.banks, x.banks);
    var t :| SmallestSole(Amounts(c), v.amountDue, r.maximumGroupSize, t) && o == ManyBanksOutcome(v, Pick(c, t));
    BankCandidatesAre(r, PartOf(v), l.banks, x.banks);
    ChoiceOfBanks(c, v.amountDue, r.maximumGroupSize, t);
    forall b | b in Pick(c, t) ensures Pays(r, b, v) {
      PassingPays(r, b, v);
    }
    assert ManyBanksJustified(x, r, o, Pick(c, t), v);
  }

  lemma AwaitingCase(x: Inputs, r: Rules, l: Ledger, g: seq<GatewayEntry>, o: Outcome)
    requires UniqueIds(x) && Sound(x, Awaiting(g)) && WholeOrNothing(x, l) && Supports(x, r, l, Awaiting(g), o)
    ensures Justified(x, r, o)
  {
    var linked := InvoiceCandidates(r, LinkedToAwaiting(g), l.invoices, x.invoices);
    RemainderIsWhole(x, l, g);
    MembersAre(g[0].settlementId, x.gateways);
    InvoiceCandidatesAre(r, LinkedToAwaiting(g), l.invoices, x.invoices);
    LinkedInvoices(g, linked, r, LinkedToAwaiting(g));
    assert AwaitingJustified(x, o, g, linked);
  }

  /** The same records in another order justify the same. */
  lemma JustifiedInAnyOrder(x: Inputs, y: Inputs, r: Rules, o: Outcome)
    requires Justified(y, r, o)
    requires forall b :: b in x.banks <==> b in y.banks
    requires forall v :: v in x.invoices <==> v in y.invoices
    requires forall e :: e in x.gateways <==> e in y.gateways
    ensures Justified(x, r, o)
  {
    match o.rule
    case DuplicateBankFingerprint =>
      var g, linked :| DuplicateJustified(y, r, o, g, linked);
      assert DuplicateJustified(x, r, o, g, linked);
    case GatewayNetToBank =>
      var b, g, linked :| b in y.banks && PayoutJustified(y, r, o, b, g, linked);
      assert PayoutJustified(x, r, o, b, g, linked);
    case MultipleInvoicesToBank =>
      var b, chosen :| b in y.banks && ManyInvoicesJustified(y, r, o, b, chosen);
      assert ManyInvoicesJustified(x, r, o, b, chosen);
    case InvoiceToMultipleBankPayments =>
      var chosen, v :| v in y.invoices && ManyBanksJustified(y, r, o, chosen, v);
      assert ManyBanksJustified(x, r, o, chosen, v);
    case GatewayAwaitingBankSettlement =>
      var g, linked :| AwaitingJustified(y, o, g, linked);
      assert AwaitingJustified(x, o, g, linked);
    case _ =>
  }

  /** Main result: with unique ids, every outcome is justified by the records it names. */
  lemma EveryOutcomeIsJustified(x: Inputs, r: Rules, i: nat)
    requires UniqueIds(x) && i < |Outcomes(x, r)|
    ensures Justified(x, r, Outcomes(x, r)[i])
  {
    var y := SortInputs(x);
    var j := EveryOutcomeIsSupported(x, r, i);
    SortInputsKeepsUniqueness(x);
    TurnIsWhole(y, r, j);
    SupportedIsJustified(y, r, LedgerOf(Outcomes(x, r)[..i]), Agenda(y)[j], Outcomes(x, r)[i]);
    SortIsPermutation(x.banks, BankBefore);
    SortIsPermutation(x.invoices, InvoiceBefore);
    SortIsPermutation(x.gateways, GatewayBefore);
    JustifiedInAnyOrder(x, y, r, Outcomes(x, r)[i]);
  }
}
