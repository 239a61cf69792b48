/** The rules on the records alone: which outcome the turn of a record or group calls for, told by
    amounts, dates, references and ids. A turn reports an outcome exactly when the records call for it. */
module RuleBook {
  import opened Ordering
  import opened Combinations
  import opened Records
  import opened Matching
  import opened MatchingFacts
  import opened Partition
  import opened Evidence
  import opened Settlements
  import opened Justification
  import opened Chronology
  import opened Priority

  // The tests of the passes, on the records.

  predicate OffByLittle(r: Rules, b: Bank, v: Invoice)
  {
    b.amount != v.amountDue && v.amountDue - r.amountTolerance <= b.amount <= v.amountDue + r.amountTolerance
  }

  lemma BankTestsAreExact(r: Rules, b: Bank, v: Invoice)
    ensures BankPasses(r, ExactFor(v), b) <==> Pays(r, b, v) && b.amount == v.amountDue
    ensures BankPasses(r, NearFor(v), b) <==> Pays(r, b, v) && OffByLittle(r, b, v)
    ensures BankPasses(r, PartOf(v), b) <==> Pays(r, b, v)
  {
  }

  lemma PayoutTestIsExact(r: Rules, b: Bank, g: seq<GatewayEntry>)
    requires g != []
    ensures BankPasses(r, PayoutOf(g), b) <==> PaysOut(r, b, g)
  {
    if PaysOut(r, b, g) {
      var e :| e in g && e.bankReference.Some? && e.bankReference.value != "" && e.bankReference == b.bankReference
        && e.settlementDate - r.dateToleranceDays <= b.bookingDate <= e.settlementDate + r.dateToleranceDays;
      assert PayoutEvidence(r, e, b);
    }
    if BankPasses(r, PayoutOf(g), b) {
      var e :| e in g && PayoutEvidence(r, e, b);
      assert e.settlementDate - r.dateToleranceDays <= b.bookingDate <= e.settlementDate + r.dateToleranceDays;
    }
  }

  lemma InvoiceTestsAreExact(r: Rules, v: Invoice, g: seq<Bank>, h: seq<GatewayEntry>, b: Bank)
    ensures InvoicePasses(r, LinkedToDuplicates(g), v) <==> MentionedByAny(r, g, v)
    ensures InvoicePasses(r, LinkedToAwaiting(h), v) <==> LinkedByAny(h, v)
    ensures h != [] ==> (InvoicePasses(r, LinkedToPayout(h), v) <==> Settled(h, v))
    ensures b.Eligible() ==> (InvoicePasses(r, PaidBy(b), v) <==> Pays(r, b, v))
  {
    assert forall c :: Refers(r, c, v) <==> Mentioned(r, c, v);
    forall e ensures Matching.Names(e, v) <==> Linked(e, v) {
      AbsentReferenceNames(e, v);
    }
    assert (exists e :: e in h && Matching.Names(e, v)) <==> LinkedByAny(h, v);
  }

  // What a turn calls for, given the ids the outcomes before it mention.

  /** All unconsumed invoices the duplicates mention, in order. */
  ghost predicate MentionedInvoices(x: Inputs, r: Rules, l: Ledger, g: seq<Bank>, linked: seq<Invoice>)
  {
    && Ascending(linked, EarlierInvoice)
    && forall v :: v in linked <==> v in x.invoices && v.id !in l.invoices && MentionedByAny(r, g, v)
  }

  /** All unconsumed invoices of the settlement's gross total that it names. */
  ghost predicate SettledInvoices(x: Inputs, l: Ledger, g: seq<GatewayEntry>, linked: seq<Invoice>)
    requires g != []
  {
    && Ascending(linked, EarlierInvoice)
    && forall v :: v in linked <==> v in x.invoices && v.id !in l.invoices && Settled(g, v)
  }

  /** All unconsumed invoices the settlement names. */
  ghost predicate NamedInvoices(x: Inputs, l: Ledger, g: seq<GatewayEntry>, linked: seq<Invoice>)
  {
    && Ascending(linked, EarlierInvoice)
    && forall v :: v in linked <==> v in x.invoices && v.id !in l.invoices && LinkedByAny(g, v)
  }

  /** All unconsumed invoices the bank entry may pay. */
  ghost predicate PayableInvoices(x: Inputs, r: Rules, l: Ledger, b: Bank, c: seq<Invoice>)
  {
    Ascending(c, EarlierInvoice) && forall v :: v in c <==> v in x.invoices && v.id !in l.invoices && Pays(r, b, v)
  }

  /** All unconsumed bank entries that may pay the invoice. */
  ghost predicate PayingBanks(x: Inputs, r: Rules, l: Ledger, v: Invoice, c: seq<Bank>)
  {
    Ascending(c, EarlierBank) && forall b :: b in c <==> b in x.banks && b.id !in l.banks && Pays(r, b, v)
  }

  ghost predicate CallsForQuarantine(x: Inputs, r: Rules, l: Ledger, g: seq<Bank>, o: Outcome)
  {
    exists linked :: MentionedInvoices(x, r, l, g, linked) && DuplicateJustified(x, r, o, g, linked)
  }

  ghost predicate CallsForAwaiting(x: Inputs, l: Ledger, g: seq<GatewayEntry>, o: Outcome)
    requires g != []
  {
    && (exists e :: e in g && e.id !in l.gateways)
    && exists linked :: NamedInvoices(x, l, g, linked) && AwaitingJustified(x, o, g, linked)
  }

  ghost predicate CallsForExact(x: Inputs, r: Rules, l: Ledger, v: Invoice, o: Outcome)
  {
    exists b :: b in x.banks && b.id !in l.banks && ExactJustified(r, o, b, v)
      && forall c :: c in x.banks && c.id !in l.banks && Pays(r, c, v) && c.amount == v.amountDue ==> c == b
  }

  ghost predicate CallsForTolerance(x: Inputs, r: Rules, l: Ledger, v: Invoice, o: Outcome)
  {
    exists b :: b in x.banks && b.id !in l.banks && ToleranceJustified(r, o, b, v)
      && forall c :: c in x.banks && c.id !in l.banks && Pays(r, c, v) && OffByLittle(r, c, v) ==> c == b
  }

  ghost predicate CallsForPayout(x: Inputs, r: Rules, l: Ledger, g: seq<GatewayEntry>, o: Outcome)
    requires g != []
  {
    exists b, linked :: b in x.banks && b.id !in l.banks && SettledInvoices(x, l, g, linked)
      && PayoutJustified(x, r, o, b, g, linked)
      && forall c :: c in x.banks && c.id !in l.banks && PaysOut(r, c, g) ==> c == b
  }

  ghost predicate CallsForManyInvoices(x: Inputs, r: Rules, l: Ledger, b: Bank, o: Outcome)
  {
    exists c, t :: PayableInvoices(x, r, l, b, c) && SmallestSole(AmountsDue(c), b.amount, r.maximumGroupSize, t)
      && ManyInvoicesJustified(x, r, o, b, Pick(c, t))
  }

  ghost predicate CallsForManyBanks(x: Inputs, r: Rules, l: Ledger, v: Invoice, o: Outcome)
  {
    exists c, t :: PayingBanks(x, r, l, v, c) && SmallestSole(Amounts(c), v.amountDue, r.maximumGroupSize, t)
      && ManyBanksJustified(x, r, o, Pick(c, t), v)
  }

  /** The records and what is consumed call for this outcome at the turn of t. */
  ghost predicate CallsFor(x: Inputs, r: Rules, l: Ledger, t: Task, o: Outcome)
  {
    o.rule == RuleOf(t) &&
    match t
    case Quarantine(g) => CallsForQuarantine(x, r, l, g, o)
    case Exact(v) => v.id !in l.invoices && CallsForExact(x, r, l, v, o)
    case Payout(g) => g != [] && CallsForPayout(x, r, l, g, o)
    case Near(v) => v.id !in l.invoices && CallsForTolerance(x, r, l, v, o)
    case ManyInvoices(b) =>
      && b.status == Booked && b.indicator == Credit && !b.isReversal && b.id !in l.banks
      && CallsForManyInvoices(x, r, l, b, o)
    case ManyBanks(v) => v.id !in l.invoices && CallsForManyBanks(x, r, l, v, o)
    case Awaiting(g) => g != [] && CallsForAwaiting(x, l, g, o)
    case LeftoverBank(b) =>
      && b.id !in l.banks && Justification.Names(o, [b], [], [])
      && o.expected == None && o.actual == Some(b.amount) && o.difference == None && o.currency == b.currency
    case LeftoverInvoice(v) =>
      && v.id !in l.invoices && Justification.Names(o, [], [v], [])
      && o.expected == Some(v.amountDue) && o.actual == None && o.difference == None && o.currency == v.currency
  }

  // Candidate lists are the lists above.

  lemma ListsOfInvoices(y: Inputs, r: Rules, l: Ledger, test: InvoiceTest, c: seq<Invoice>)
    requires Chronological(y)
    ensures Ascending(InvoiceCandidates(r, test, l.invoices, y.invoices), EarlierInvoice)
    ensures c == InvoiceCandidates(r, test, l.invoices, y.invoices) <==>
      Ascending(c, EarlierInvoice) && forall v :: v in c <==> v in y.invoices && v.id !in l.invoices && InvoicePasses(r, test, v)
  {
    var found := InvoiceCandidates(r, test, l.invoices, y.invoices);
    InvoiceCandidatesAre(r, test, l.invoices, y.invoices);
    InvoiceCandidatesAscend(r, test, l.invoices, y.invoices);
    OrdersAreAsymmetric();
    if Ascending(c, EarlierInvoice)
      && forall v :: v in c <==> v in y.invoices && v.id !in l.invoices && InvoicePasses(r, test, v) {
      AscendingIsUnique(c, found, EarlierInvoice);
    }
  }

  lemma ListsOfBanks(y: Inputs, r: Rules, l: Ledger, v: Invoice, c: seq<Bank>)
    requires Chronological(y)
    ensures c == BankCandidates(r, PartOf(v), l.banks, y.banks) <==> PayingBanks(y, r, l, v, c)
  {
    var found := BankCandidates(r, PartOf(v), l.banks, y.banks);
    BankCandidatesAre(r, PartOf(v), l.banks, y.banks);
    BankCandidatesAscend(r, PartOf(v), l.banks, y.banks);
    OrdersAreAsymmetric();
    forall b ensures BankPasses(r, PartOf(v), b) <==> Pays(r, b, v) {
      BankTestsAreExact(r, b, v);
    }
    if PayingBanks(y, r, l, v, c) {
      AscendingIsUnique(c, found, EarlierBank);
    }
  }

  // Rule by rule, evidence is what the records call for.

  lemma ExactOnRecords(y: Inputs, r: Rules, l: Ledger, v: Invoice, o: Outcome)
    ensures Supports(y, r, l, Exact(v), o) <==>
      o.rule == ExactReferenceAmountCurrency && v.id !in l.invoices && CallsForExact(y, r, l, v, o)
  {
    forall b ensures BankPasses(r, ExactFor(v), b) <==> Pays(r, b, v) && b.amount == v.amountDue {
      BankTestsAreExact(r, b, v);
    }
    if Supports(y, r, l, Exact(v), o) {
      var b :| SoleBank(y, r, l.banks, ExactFor(v), b) && o == ExactOutcome(v, b);
      assert ExactJustified(r, o, b, v);
    }
    if o.rule == ExactReferenceAmountCurrency && v.id !in l.invoices && CallsForExact(y, r, l, v, o) {
      var b :| b in y.banks && b.id !in l.banks && ExactJustified(r, o, b, v)
        && forall c :: c in y.banks && c.id !in l.banks && Pays(r, c, v) && c.amount == v.amountDue ==> c == b;
      assert SoleBank(y, r, l.banks, ExactFor(v), b) && o == ExactOutcome(v, b);
    }
  }

  lemma ToleranceOnRecords(y: Inputs, r: Rules, l: Ledger, v: Invoice, o: Outcome)
    ensures Supports(y, r, l, Near(v), o) <==>
      o.rule == ReferenceAmountTolerance && v.id !in l.invoices && CallsForTolerance(y, r, l, v, o)
  {
    forall b ensures BankPasses(r, NearFor(v), b) <==> Pays(r, b, v) && OffByLittle(r, b, v) {
      BankTestsAreExact(r, b, v);
    }
    if Supports(y, r, l, Near(v), o) {
      var b :| SoleBank(y, r, l.banks, NearFor(v), b) && o == ToleranceOutcome(v, b);
      assert ToleranceJustified(r, o, b, v);
    }
    if o.rule == ReferenceAmountTolerance && v.id !in l.invoices && CallsForTolerance(y, r, l, v, o) {
      var b :| b in y.banks && b.id !in l.banks && ToleranceJustified(r, o, b, v)
        && forall c :: c in y.banks && c.id !in l.banks && Pays(r, c, v) && OffByLittle(r, c, v) ==> c == b;
      assert SoleBank(y, r, l.banks, NearFor(v), b) && o == ToleranceOutcome(v, b);
    }
  }

  lemma QuarantineOnRecords(y: Inputs, r: Rules, l: Ledger, g: seq<Bank>, o: Outcome)
    requires Chronological(y) && Sound(y, Quarantine(g))
    ensures Supports(y, r, l, Quarantine(g), o) <==>
      o.rule == DuplicateBankFingerprint && CallsForQuarantine(y, r, l, g, o)
  {
    var found := InvoiceCandidates(r, LinkedToDuplicates(g), l.invoices, y.invoices);
    forall v ensures InvoicePasses(r, LinkedToDuplicates(g), v) <==> MentionedByAny(r, g, v) {
      InvoiceTestsAreExact(r, v, g, [], g[0]);
    }
    TwinsAre(g[0].Print(), y.banks);
    assert forall b: Bank :: SamePayment(b, g[0]) <==> b.Print() == g[0].Print();
    forall linked ensures linked == found <==> MentionedInvoices(y, r, l, g, linked) {
      ListsOfInvoices(y, r, l, LinkedToDuplicates(g), linked);
    }
    assert MentionedInvoices(y, r, l, g, found);
    hide MentionedByAny, InvoicePasses;
    if Supports(y, r, l, Quarantine(g), o) {
      assert DuplicateJustified(y, r, o, g, found);
    }
    if o.rule == DuplicateBankFingerprint && CallsForQuarantine(y, r, l, g, o) {
      var linked :| MentionedInvoices(y, r, l, g, linked) && DuplicateJustified(y, r, o, g, linked);
      assert linked == found;
    }
  }

  lemma PayoutOnRecords(y: Inputs, r: Rules, l: Ledger, g: seq<GatewayEntry>, o: Outcome)
    requires Chronological(y) && Sound(y, Payout(g))
    ensures Supports(y, r, l, Payout(g), o) <==> o.rule == GatewayNetToBank && CallsForPayout(y, r, l, g, o)
  {
    var found := InvoiceCandidates(r, LinkedToPayout(g), l.invoices, y.invoices);
    forall b ensures BankPasses(r, PayoutOf(g), b) <==> PaysOut(r, b, g) {
      PayoutTestIsExact(r, b, g);
    }
    SettledListIsFound(y, r, l, g);
    MembersAre(g[0].settlementId, y.gateways);
    hide PaysOut, BankPasses, InvoicePasses, Settled, SettledInvoices, NetTotal, GrossTotal;
    if Supports(y, r, l, Payout(g), o) {
      var b :| SoleBank(y, r, l.banks, PayoutOf(g), b) && o == PayoutOutcome(g, b, found);
      PayoutAmounts(r, b, g, found);
      assert PayoutJustified(y, r, o, b, g, found);
    }
    if o.rule == GatewayNetToBank && CallsForPayout(y, r, l, g, o) {
      var b, linked :| b in y.banks && b.id !in l.banks && SettledInvoices(y, l, g, linked)
        && PayoutJustified(y, r, o, b, g, linked)
        && forall c :: c in y.banks && c.id !in l.banks && PaysOut(r, c, g) ==> c == b;
      PayoutAmounts(r, b, g, found);
      assert SoleBank(y, r, l.banks, PayoutOf(g), b) && o == PayoutOutcome(g, b, found);
    }
  }

  lemma PayoutAmounts(r: Rules, b: Bank, g: seq<GatewayEntry>, linked: seq<Invoice>)
    requires g != [] && PaysOut(r, b, g)
    ensures var o := PayoutOutcome(g, b, linked);
      o.expected == Some(NetTotal(g)) && o.actual == Some(NetTotal(g)) && o.difference == Some(0)
  {
  }

  lemma SettledListIsFound(y: Inputs, r: Rules, l: Ledger, g: seq<GatewayEntry>)
    requires Chronological(y) && g != []
    ensures var found := InvoiceCandidates(r, LinkedToPayout(g), l.invoices, y.invoices);
      && (forall linked :: linked == found <==> SettledInvoices(y, l, g, linked))
      && forall v :: v in found ==> v in y.invoices && Settled(g, v)
  {
    var found := InvoiceCandidates(r, LinkedToPayout(g), l.invoices, y.invoices);
    forall v ensures InvoicePasses(r, LinkedToPayout(g), v) <==> Settled(g, v) {
      InvoiceTestsAreExact(r, v, [], g, Bank("", "", None, 0, "", 0, Credit, Booked, false, []));
    }
    InvoiceCandidatesAre(r, LinkedToPayout(g), l.invoices, y.invoices);
    forall linked ensures linked == found <==> SettledInvoices(y, l, g, linked) {
      ListsOfInvoices(y, r, l, LinkedToPayout(g), linked);
    }
  }

  /** Pass 7 finds a settlement whole or consumed, and links the invoices the whole of it names. */
  lemma AwaitingFinds(y: Inputs, r: Rules, l: Ledger, g: seq<GatewayEntry>)
    requires Chronological(y) && UniqueIds(y) && Sound(y, Awaiting(g)) && WholeOrNothing(y, l)
    ensures WholeSettlement(y, g)
    ensures Unsettled(l.gateways, g) == if exists e :: e in g && e.id !in l.gateways then g else []
    ensures forall linked ::
      linked == InvoiceCandidates(r, LinkedToAwaiting(g), l.invoices, y.invoices) <==> NamedInvoices(y, l, g, linked)
  {
    var rest := Unsettled(l.gateways, g);
    RemainderIsWhole(y, l, g);
    UnsettledAre(l.gateways, g);
    MembersAre(g[0].settlementId, y.gateways);
    hide UniqueIds, WholeOrNothing;
    forall v ensures InvoicePasses(r, LinkedToAwaiting(g), v) <==> LinkedByAny(g, v) {
      InvoiceTestsAreExact(r, v, [], g, Bank("", "", None, 0, "", 0, Credit, Booked, false, []));
    }
    forall linked ensures
        linked == InvoiceCandidates(r, LinkedToAwaiting(g), l.invoices, y.invoices) <==> NamedInvoices(y, l, g, linked) {
      ListsOfInvoices(y, r, l, LinkedToAwaiting(g), linked);
    }
    if exists e :: e in g && e.id !in l.gateways {
      var e :| e in g && e.id !in l.gateways;
      assert e in rest;
    } else {
      assert forall e :: e !in rest;
    }
  }

  lemma AwaitingOutcomeIs(y: Inputs, l: Ledger, g: seq<GatewayEntry>, linked: seq<Invoice>, o: Outcome)
    requires WholeSettlement(y, g) && NamedInvoices(y, l, g, linked)
    ensures o == AwaitingOutcome(g, linked) <==> o.rule == GatewayAwaitingBankSettlement && AwaitingJustified(y, o, g, linked)
  {
    hide NetTotal, LinkedByAny;
  }

  lemma AwaitingOnRecords(y: Inputs, r: Rules, l: Ledger, g: seq<GatewayEntry>, o: Outcome)
    requires Chronological(y) && UniqueIds(y) && Sound(y, Awaiting(g)) && WholeOrNothing(y, l)
    ensures Supports(y, r, l, Awaiting(g), o) <==>
      o.rule == GatewayAwaitingBankSettlement && CallsForAwaiting(y, l, g, o)
  {
    AwaitingFinds(y, r, l, g);
    var found := InvoiceCandidates(r, LinkedToAwaiting(g), l.invoices, y.invoices);
    assert NamedInvoices(y, l, g, found);
    AwaitingOutcomeIs(y, l, g, found, o);
    hide UniqueIds, WholeOrNothing, Chronological, InvoiceCandidates, WholeSettlement, Unsettled, AwaitingOutcome,
      AwaitingJustified, NamedInvoices;
    if exists e :: e in g && e.id !in l.gateways {
      assert Supports(y, r, l, Awaiting(g), o) <==> o == AwaitingOutcome(g, found);
    } else {
      assert !Supports(y, r, l, Awaiting(g), o);
    }
  }

  lemma ManyInvoicesOnRecords(y: Inputs, r: Rules, l: Ledger, b: Bank, o: Outcome)
    requires Chronological(y)
    ensures Supports(y, r, l, ManyInvoices(b), o) <==> CallsFor(y, r, l, ManyInvoices(b), o)
  {
    if b.Eligible() {
      var found := InvoiceCandidates(r, PaidBy(b), l.invoices, y.invoices);
      forall v ensures InvoicePasses(r, PaidBy(b), v) <==> Pays(r, b, v) {
        InvoiceTestsAreExact(r, v, [], [], b);
      }
      forall c ensures c == found <==> PayableInvoices(y, r, l, b, c) {
        ListsOfInvoices(y, r, l, PaidBy(b), c);
      }
      assert PayableInvoices(y, r, l, b, found);
      hide Pays, InvoicePasses, SmallestSole, Total;
      forall t | SmallestSole(AmountsDue(found), b.amount, r.maximumGroupSize, t)
        ensures o == ManyInvoicesOutcome(b, Pick(found, t)) <==>
          o.rule == MultipleInvoicesToBank && ManyInvoicesJustified(y, r, o, b, Pick(found, t))
      {
        ChoiceOfInvoices(found, b.amount, r.maximumGroupSize, t);
      }
    }
  }

  lemma ManyBanksOnRecords(y: Inputs, r: Rules, l: Ledger, v: Invoice, o: Outcome)
    requires Chronological(y)
    ensures Supports(y, r, l, ManyBanks(v), o) <==> CallsFor(y, r, l, ManyBanks(v), o)
  {
    var found := BankCandidates(r, PartOf(v), l.banks, y.banks);
    forall c ensures c == found <==> PayingBanks(y, r, l, v, c) {
      ListsOfBanks(y, r, l, v, c);
    }
    assert PayingBanks(y, r, l, v, found);
    hide Pays, BankPasses, SmallestSole, Total;
    forall t | SmallestSole(Amounts(found), v.amountDue, r.maximumGroupSize, t)
      ensures o == ManyBanksOutcome(v, Pick(found, t)) <==>
        o.rule == InvoiceToMultipleBankPayments && ManyBanksJustified(y, r, o, Pick(found, t), v)
    {
      ChoiceOfBanks(found, v.amountDue, r.maximumGroupSize, t);
    }
  }

  /** Main result: what supports an outcome at a turn is what the records call for. */
  lemma SupportsIsCallsFor(y: Inputs, r: Rules, l: Ledger, t: Task, o: Outcome)
    requires Chronological(y) && UniqueIds(y) && Sound(y, t) && WholeOrNothing(y, l)
    ensures Supports(y, r, l, t, o) <==> CallsFor(y, r, l, t, o)
  {
    hide CallsForQuarantine, CallsForExact, CallsForPayout, CallsForTolerance, CallsForAwaiting, Chronological, UniqueIds;
    match t
    case Quarantine(g) => QuarantineOnRecords(y, r, l, g, o);
    case Exact(v) => ExactOnRecords(y, r, l, v, o);
    case Payout(g) => PayoutOnRecords(y, r, l, g, o);
    case Near(v) => ToleranceOnRecords(y, r, l, v, o);
    case ManyInvoices(b) => ManyInvoicesOnRecords(y, r, l, b, o);
    case ManyBanks(v) => ManyBanksOnRecords(y, r, l, v, o);
    case Awaiting(g) => AwaitingOnRecords(y, r, l, g, o);
    case LeftoverBank(b) =>
    case LeftoverInvoice(v) =>
  }
}
