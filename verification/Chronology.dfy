/** The order of the records and of the turns, told by dates and ids: what the engine lists, it lists in
    ascending order, so the members of a list determine the list. */
module Chronology {
  import opened Ordering
  import opened Combinations
  import opened Records
  import opened Matching
  import opened MatchingFacts
  import opened Partition
  import opened OrderIndependence

  predicate SmallerId(a: string, b: string)
  {
    a != b && StringLe(a, b)
  }

  predicate EarlierBank(a: Bank, b: Bank)
  {
    a.bookingDate < b.bookingDate || (a.bookingDate == b.bookingDate && SmallerId(a.id, b.id))
  }

  predicate EarlierInvoice(a: Invoice, b: Invoice)
  {
    a.issueDate < b.issueDate || (a.issueDate == b.issueDate && SmallerId(a.id, b.id))
  }

  predicate EarlierEntry(a: GatewayEntry, b: GatewayEntry)
  {
    a.settlementDate < b.settlementDate || (a.settlementDate == b.settlementDate && SmallerId(a.id, b.id))
  }

  lemma OrdersAreAsymmetric()
    ensures Asymmetric(SmallerId)
    ensures Asymmetric(EarlierBank) && Asymmetric(EarlierInvoice) && Asymmetric(EarlierEntry)
  {
    forall a, b | SmallerId(a, b) ensures !SmallerId(b, a) {
      if SmallerId(b, a) {
        StringLeAntisymmetric(a, b);
      }
    }
  }

  /** Every list of the sorted input ascends. */
  ghost predicate Chronological(y: Inputs)
  {
    Ascending(y.banks, EarlierBank) && Ascending(y.invoices, EarlierInvoice) && Ascending(y.gateways, EarlierEntry)
  }

  /** Main result: sorted by date and then id. */
  lemma SortedIsChronological(x: Inputs)
    requires UniqueIds(x)
    ensures Chronological(SortInputs(x)) && UniqueIds(SortInputs(x))
    ensures forall b :: b in SortInputs(x).banks <==> b in x.banks
    ensures forall v :: v in SortInputs(x).invoices <==> v in x.invoices
    ensures forall e :: e in SortInputs(x).gateways <==> e in x.gateways
  {
    var y := SortInputs(x);
    SortKeysAreTotalPreorders();
    SortIsSorted(x.banks, BankBefore);
    SortIsSorted(x.invoices, InvoiceBefore);
    SortIsSorted(x.gateways, GatewayBefore);
    SortIsPermutation(x.banks, BankBefore);
    SortIsPermutation(x.invoices, InvoiceBefore);
    SortIsPermutation(x.gateways, GatewayBefore);
    SortInputsKeepsUniqueness(x);
    assert Distinct(InputIds(BankKind, y)) && Distinct(InputIds(InvoiceKind, y)) && Distinct(InputIds(GatewayKind, y));
    forall i, j | 0 <= i < j < |y.banks| ensures EarlierBank(y.banks[i], y.banks[j]) {
      assert BankIds(y.banks)[i] != BankIds(y.banks)[j];
    }
    forall i, j | 0 <= i < j < |y.invoices| ensures EarlierInvoice(y.invoices[i], y.invoices[j]) {
      assert InvoiceIds(y.invoices)[i] != InvoiceIds(y.invoices)[j];
    }
    forall i, j | 0 <= i < j < |y.gateways| ensures EarlierEntry(y.gateways[i], y.gateways[j]) {
      assert GatewayIds(y.gateways)[i] != GatewayIds(y.gateways)[j];
    }
  }

  // What is picked from an ascending list ascends.

  lemma AscendingCons<T>(x: T, s: seq<T>, lt: (T, T) -> bool)
    requires Ascending(s, lt) && forall y :: y in s ==> lt(x, y)
    ensures Ascending([x] + s, lt)
  {
    forall i, j | 0 <= i < j < |s| + 1 ensures lt(([x] + s)[i], ([x] + s)[j]) {
      assert ([x] + s)[j] == s[j - 1] && s[j - 1] in s;
    }
  }

  lemma AscendingSnoc<T>(s: seq<T>, x: T, lt: (T, T) -> bool)
    requires Ascending(s, lt) && forall y :: y in s ==> lt(y, x)
    ensures Ascending(s + [x], lt)
  {
    forall i, j | 0 <= i < j < |s| + 1 ensures lt((s + [x])[i], (s + [x])[j]) {
      assert (s + [x])[i] == s[i] && s[i] in s;
    }
  }

  lemma {:induction false} BankCandidatesAscend(r: Rules, test: BankTest, used: set<string>, banks: seq<Bank>)
    requires Ascending(banks, EarlierBank)
    ensures Ascending(BankCandidates(r, test, used, banks), EarlierBank)
  {
    if banks != [] {
      var rest := BankCandidates(r, test, used, banks[1..]);
      BankCandidatesAscend(r, test, used, banks[1..]);
      BankCandidatesAre(r, test, used, banks[1..]);
      AscendingCons(banks[0], rest, EarlierBank);
    }
  }

  lemma {:induction false} InvoiceCandidatesAscend(r: Rules, test: InvoiceTest, used: set<string>, invoices: seq<Invoice>)
    requires Ascending(invoices, EarlierInvoice)
    ensures Ascending(InvoiceCandidates(r, test, used, invoices), EarlierInvoice)
  {
    if invoices != [] {
      var rest := InvoiceCandidates(r, test, used, invoices[1..]);
      InvoiceCandidatesAscend(r, test, used, invoices[1..]);
      InvoiceCandidatesAre(r, test, used, invoices[1..]);
      AscendingCons(invoices[0], rest, EarlierInvoice);
    }
  }

  lemma {:induction false} TwinsAscend(p: Fingerprint, banks: seq<Bank>)
    requires Ascending(banks, EarlierBank)
    ensures Ascending(Twins(p, banks), EarlierBank)
  {
    if banks != [] {
      var n := |banks| - 1;
      TwinsAscend(p, banks[..n]);
      TwinsAre(p, banks[..n]);
      AscendingSnoc(Twins(p, banks[..n]), banks[n], EarlierBank);
    }
  }

  lemma {:induction false} MembersAscend(id: string, gateways: seq<GatewayEntry>)
    requires Ascending(gateways, EarlierEntry)
    ensures Ascending(Members(id, gateways), EarlierEntry)
  {
    if gateways != [] {
      var n := |gateways| - 1;
      MembersAscend(id, gateways[..n]);
      MembersAre(id, gateways[..n]);
      AscendingSnoc(Members(id, gateways[..n]), gateways[n], EarlierEntry);
    }
  }
}
