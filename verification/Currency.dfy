/** Which outcomes keep to one currency. */
module Currency {
  import opened Ordering
  import opened Combinations
  import opened Records
  import opened Matching
  import opened MatchingFacts
  import opened Partition
  import opened Evidence
  import opened Settlements

  ghost predicate BanksShareCurrency(x: Inputs, o: Outcome)
  {
    forall b :: b in x.banks && b.id in o.bankIds ==> b.currency == o.currency
  }

  ghost predicate InvoicesShareCurrency(x: Inputs, o: Outcome)
  {
    forall v :: v in x.invoices && v.id in o.invoiceIds ==> v.currency == o.currency
  }

  /** Listed banks of one currency are all a list of their ids names. */
  lemma BanksByIds(x: Inputs, banks: seq<Bank>, o: Outcome)
    requires UniqueIds(x) && o.bankIds == BankIds(banks)
    requires forall b :: b in banks ==> b in x.banks && b.currency == o.currency
    ensures BanksShareCurrency(x, o)
  {
    assert Distinct(InputIds(BankKind, x));
    BankIdsAre(banks);
    forall b | b in x.banks && b.id in o.bankIds ensures b.currency == o.currency {
      var c :| c in banks && c.id == b.id;
      BankIdNamesOne(x.banks, b, c);
    }
  }

  /** The named invoices share the currency exactly when the listed ones do. */
  lemma InvoicesByIds(x: Inputs, invoices: seq<Invoice>, o: Outcome)
    requires UniqueIds(x) && o.invoiceIds == InvoiceIds(invoices)
    requires forall v :: v in invoices ==> v in x.invoices
    ensures InvoicesShareCurrency(x, o) <==> forall v :: v in invoices ==> v.currency == o.currency
  {
    assert Distinct(InputIds(InvoiceKind, x));
    InvoiceIdsAre(invoices);
    forall v | v in x.invoices && v.id in o.invoiceIds ensures v in invoices {
      var w :| w in invoices && w.id == v.id;
      InvoiceIdNamesOne(x.invoices, v, w);
    }
  }

  lemma SupportedBanks(x: Inputs, r: Rules, l: Ledger, t: Task, o: Outcome)
    requires UniqueIds(x) && Sound(x, t) && Supports(x, r, l, t, o)
    ensures BanksShareCurrency(x, o)
  {
    match t
    case Quarantine(g) =>
      TwinsAre(g[0].Print(), x.banks);
      forall b | b in g ensures b.currency == o.currency {
        assert b.Print() == g[0].Print();
      }
      BanksByIds(x, g, o);
    case Exact(v) =>
      var b :| SoleBank(x, r, l.banks, ExactFor(v), b) && o == ExactOutcome(v, b);
      BanksByIds(x, [b], o);
    case Payout(g) =>
      var linked := InvoiceCandidates(r, LinkedToPayout(g), l.invoices, x.invoices);
      var b :| SoleBank(x, r, l.banks, PayoutOf(g), b) && o == PayoutOutcome(g, b, linked);
      BanksByIds(x, [b], o);
    case Near(v) =>
      var b :| SoleBank(x, r, l.banks, NearFor(v), b) && o == ToleranceOutcome(v, b);
      BanksByIds(x, [b], o);
    case ManyInvoices(b) => BanksByIds(x, [b], o);
    case ManyBanks(v) =>
      var c := BankCandidates(r, PartOf(v), l.banks, x.banks);
      var chosen :| SmallestSole(Amounts(c), v.amountDue, r.maximumGroupSize, chosen) && o == ManyBanksOutcome(v, Pick(c, chosen));
      BankCandidatesAre(r, PartOf(v), l.banks, x.banks);
      PickedBanksAre(c, chosen);
      BanksByIds(x, Pick(c, chosen), o);
    case LeftoverBank(b) => BanksByIds(x, [b], o);
    case _ =>
  }

  /** The invoices a task would link without comparing their currency with the outcome's are in that
      currency: for duplicates, those any of them refers to; for a payout, the gateway's own currency is
      compared, so it must be the payout's; for funds awaited, those any entry left names. */
  ghost predicate LinksAgree(x: Inputs, r: Rules, l: Ledger, t: Task)
  {
    match t
    case Quarantine(g) =>
      forall b, v :: b in g && v in x.invoices && v.id !in l.invoices && Refers(r, b, v) ==> v.currency == b.currency
    case Payout(g) =>
      g != [] && g[0].currency != g[0].settlementCurrency ==>
        forall v :: v in x.invoices && v.id !in l.invoices ==> !InvoicePasses(r, LinkedToPayout(g), v)
    case Awaiting(g) =>
      forall e, v :: e in g && e.id !in l.gateways && v in x.invoices && v.id !in l.invoices && Names(e, v)
                     ==> v.currency == g[0].settlementCurrency
    case _ => true
  }

  lemma QuarantineLinks(x: Inputs, r: Rules, l: Ledger, g: seq<Bank>, o: Outcome)
    requires UniqueIds(x) && Sound(x, Quarantine(g)) && Supports(x, r, l, Quarantine(g), o)
    ensures InvoicesShareCurrency(x, o) <==> LinksAgree(x, r, l, Quarantine(g))
  {
    var linked := InvoiceCandidates(r, LinkedToDuplicates(g), l.invoices, x.invoices);
    InvoiceCandidatesAre(r, LinkedToDuplicates(g), l.invoices, x.invoices);
    InvoicesByIds(x, linked, o);
    TwinsAre(g[0].Print(), x.banks);
    forall b | b in g ensures b.currency == o.currency {
      assert b.Print() == g[0].Print();
    }
    if LinksAgree(x, r, l, Quarantine(g)) {
      forall v | v in linked ensures v.currency == o.currency {
        var b :| b in g && Refers(r, b, v);
      }
    }
  }

  lemma PayoutLinks(x: Inputs, r: Rules, l: Ledger, g: seq<GatewayEntry>, o: Outcome)
    requires UniqueIds(x) && Supports(x, r, l, Payout(g), o)
    ensures InvoicesShareCurrency(x, o) <==> LinksAgree(x, r, l, Payout(g))
  {
    var linked := InvoiceCandidates(r, LinkedToPayout(g), l.invoices, x.invoices);
    InvoiceCandidatesAre(r, LinkedToPayout(g), l.invoices, x.invoices);
    InvoicesByIds(x, linked, o);
  }

  lemma AwaitingLinks(x: Inputs, r: Rules, l: Ledger, g: seq<GatewayEntry>, o: Outcome)
    requires UniqueIds(x) && Sound(x, Awaiting(g)) && WholeOrNothing(x, l) && Supports(x, r, l, Awaiting(g), o)
    ensures InvoicesShareCurrency(x, o) <==> LinksAgree(x, r, l, Awaiting(g))
  {
    var linked := InvoiceCandidates(r, LinkedToAwaiting(g), l.invoices, x.invoices);
    RemainderIsWhole(x, l, g);
    UnsettledAre(l.gateways, g);
    InvoiceCandidatesAre(r, LinkedToAwaiting(g), l.invoices, x.invoices);
    InvoicesByIds(x, linked, o);
    if LinksAgree(x, r, l, Awaiting(g)) {
      forall v | v in linked ensures v.currency == o.currency {
        var e :| e in g && Names(e, v);
      }
    }
  }

  /** The five rules that compare the invoice's currency, or report the invoice alone. */
  lemma ComparedInvoices(x: Inputs, r: Rules, l: Ledger, t: Task, o: Outcome)
    requires UniqueIds(x) && Sound(x, t) && Supports(x, r, l, t, o)
    requires !t.Quarantine? && !t.Payout? && !t.Awaiting?
    ensures InvoicesShareCurrency(x, o)
  {
    match t
    case Exact(v) => InvoicesByIds(x, [v], o);
    case Near(v) => InvoicesByIds(x, [v], o);
    case ManyInvoices(b) =>
      var c := InvoiceCandidates(r, PaidBy(b), l.invoices, x.invoices);
      var chosen :| SmallestSole(AmountsDue(c), b.amount, r.maximumGroupSize, chosen) && o == ManyInvoicesOutcome(b, Pick(c, chosen));
      InvoiceCandidatesAre(r, PaidBy(b), l.invoices, x.invoices);
      PickedInvoicesAre(c, chosen);
      InvoicesByIds(x, Pick(c, chosen), o);
    case ManyBanks(v) => InvoicesByIds(x, [v], o);
    case LeftoverInvoice(v) => InvoicesByIds(x, [v], o);
    case _ =>
  }

  /** Turn by turn: what is reported keeps to one currency exactly when the links agree beforehand. */
  lemma LinksAgreeExactly(x: Inputs, r: Rules, l: Ledger, t: Task, o: Outcome)
    requires UniqueIds(x) && Sound(x, t) && WholeOrNothing(x, l) && Supports(x, r, l, t, o)
    ensures BanksShareCurrency(x, o)
    ensures InvoicesShareCurrency(x, o) <==> LinksAgree(x, r, l, t)
  {
    SupportedBanks(x, r, l, t, o);
    match t
    case Quarantine(g) => QuarantineLinks(x, r, l, g, o);
    case Payout(g) => PayoutLinks(x, r, l, g, o);
    case Awaiting(g) => AwaitingLinks(x, r, l, g, o);
    case _ => ComparedInvoices(x, r, l, t, o);
  }

  /** Main result: every outcome keeps its bank entries in its currency, and its invoices exactly when the
      links of the task that reports it agree at its turn; so for six of the nine rules, always. */
  lemma CurrenciesAgreeExactly(x: Inputs, r: Rules, i: nat) returns (j: nat)
    requires UniqueIds(x) && i < |Outcomes(x, r)|
    ensures j < |Agenda(SortInputs(x))|
    ensures var l, t, o := LedgerOf(Outcomes(x, r)[..i]), Agenda(SortInputs(x))[j], Outcomes(x, r)[i];
      && Supports(SortInputs(x), r, l, t, o)
      && BanksShareCurrency(x, o)
      && (InvoicesShareCurrency(x, o) <==> LinksAgree(x, r, l, t))
  {
    hide Agenda, Settle;
    j := EveryOutcomeIsSupported(x, r, i);
    SortInputsKeepsUniqueness(x);
    TurnIsWhole(SortInputs(x), r, j);
    LinksAgreeExactly(SortInputs(x), r, LedgerOf(Outcomes(x, r)[..i]), Agenda(SortInputs(x))[j], Outcomes(x, r)[i]);
    SortIsPermutation(x.banks, BankBefore);
    SortIsPermutation(x.invoices, InvoiceBefore);
    SameCurrencies(x, SortInputs(x), r, LedgerOf(Outcomes(x, r)[..i]), Agenda(SortInputs(x))[j], Outcomes(x, r)[i]);
  }

  /** Order does not matter here. */
  lemma SameCurrencies(x: Inputs, y: Inputs, r: Rules, l: Ledger, t: Task, o: Outcome)
    requires forall b :: b in x.banks <==> b in y.banks
    requires forall v :: v in x.invoices <==> v in y.invoices
    ensures BanksShareCurrency(x, o) <==> BanksShareCurrency(y, o)
    ensures InvoicesShareCurrency(x, o) <==> InvoicesShareCurrency(y, o)
    ensures LinksAgree(x, r, l, t) <==> LinksAgree(y, r, l, t)
  {
  }
}
