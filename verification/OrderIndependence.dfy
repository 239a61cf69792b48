/** Identical inputs in any order give the identical report, ids and errors included. */
module OrderIndependence {
  import opened Ordering
  import opened Combinations
  import opened Records
  import opened Matching
  import opened MatchingFacts
  import opened Partition

  lemma SortKeysAreTotalPreorders()
    ensures TotalPreorder(BankBefore) && TotalPreorder(InvoiceBefore) && TotalPreorder(GatewayBefore)
    ensures TotalPreorder(HeadBefore)
  {
    StringLeIsTotalPreorder();
    assert forall a, b :: StringLe(a, b) || StringLe(b, a);
    assert forall a, b, c :: StringLe(a, b) && StringLe(b, c) ==> StringLe(a, c);
    assert TotalPreorder(BankBefore);
    assert TotalPreorder(InvoiceBefore);
    assert TotalPreorder(GatewayBefore);
    assert TotalPreorder(HeadBefore);
  }

  lemma UniqueIdsLeaveNoTies(x: Inputs)
    requires UniqueIds(x)
    ensures Tieless(x.banks, BankBefore) && Tieless(x.invoices, InvoiceBefore) && Tieless(x.gateways, GatewayBefore)
  {
    assert Distinct(InputIds(BankKind, x)) && Distinct(InputIds(InvoiceKind, x)) && Distinct(InputIds(GatewayKind, x));
    forall a, b | a in x.banks && b in x.banks && BankBefore(a, b) && BankBefore(b, a) ensures a == b {
      StringLeAntisymmetric(a.id, b.id);
      BankIdNamesOne(x.banks, a, b);
    }
    forall a, b | a in x.invoices && b in x.invoices && InvoiceBefore(a, b) && InvoiceBefore(b, a) ensures a == b {
      StringLeAntisymmetric(a.id, b.id);
      InvoiceIdNamesOne(x.invoices, a, b);
    }
    forall a, b | a in x.gateways && b in x.gateways && GatewayBefore(a, b) && GatewayBefore(b, a) ensures a == b {
      StringLeAntisymmetric(a.id, b.id);
      GatewayIdNamesOne(x.gateways, a, b);
    }
  }

  /** The same records, list by list, in any order. */
  ghost predicate SameRecords(x: Inputs, y: Inputs)
  {
    && multiset(x.banks) == multiset(y.banks)
    && multiset(x.invoices) == multiset(y.invoices)
    && multiset(x.gateways) == multiset(y.gateways)
  }

  lemma SortInputsForgetsOrder(x: Inputs, y: Inputs)
    requires UniqueIds(x) && SameRecords(x, y)
    ensures SortInputs(x) == SortInputs(y)
  {
    SortKeysAreTotalPreorders();
    UniqueIdsLeaveNoTies(x);
    SortForgetsOrder(x.banks, y.banks, BankBefore);
    SortForgetsOrder(x.invoices, y.invoices, InvoiceBefore);
    SortForgetsOrder(x.gateways, y.gateways, GatewayBefore);
  }

  lemma SameRecordsSameIds(x: Inputs, y: Inputs, k: Kind)
    requires SameRecords(x, y)
    ensures multiset(InputIds(k, x)) == multiset(InputIds(k, y))
  {
    match k
    case BankKind =>
      var f := (b: Bank) => b.id;
      MapOfPermutation(f, x.banks, y.banks);
      assert BankIds(x.banks) == Map(f, x.banks) && BankIds(y.banks) == Map(f, y.banks);
    case InvoiceKind =>
      var f := (v: Invoice) => v.id;
      MapOfPermutation(f, x.invoices, y.invoices);
      assert InvoiceIds(x.invoices) == Map(f, x.invoices) && InvoiceIds(y.invoices) == Map(f, y.invoices);
    case GatewayKind =>
      var f := (e: GatewayEntry) => e.id;
      MapOfPermutation(f, x.gateways, y.gateways);
      assert GatewayIds(x.gateways) == Map(f, x.gateways) && GatewayIds(y.gateways) == Map(f, y.gateways);
  }

  /** Comparing the length of a list with the size of its set detects exactly the repetitions. */
  lemma {:induction false} LengthDetectsRepetition(ids: seq<string>)
    ensures |IdSet(ids)| <= |ids|
    ensures |IdSet(ids)| == |ids| <==> Distinct(ids)
  {
    if ids != [] {
      var rest := ids[1..];
      LengthDetectsRepetition(rest);
      assert ids == [ids[0]] + rest;
      assert IdSet(ids) == IdSet(rest) + {ids[0]};
      if ids[0] in rest {
        assert IdSet(ids) == IdSet(rest);
        var i :| 0 <= i < |rest| && rest[i] == ids[0];
        assert ids[i + 1] == ids[0];
      } else {
        assert ids[0] !in IdSet(rest);
        if Distinct(rest) {
          DistinctCons(ids[0], rest);
        } else {
          var i, j :| 0 <= i < j < |rest| && rest[i] == rest[j];
          assert ids[i + 1] == ids[j + 1];
        }
      }
    }
  }

  /** An id of this kind occurs twice, and of the kinds checked before, none. */
  ghost predicate FirstToRepeat(x: Inputs, k: Kind)
  {
    && !Distinct(InputIds(k, x))
    && (k != BankKind ==> Distinct(InputIds(BankKind, x)))
    && (k == GatewayKind ==> Distinct(InputIds(InvoiceKind, x)))
  }

  /** Validation refuses exactly the inputs in which some id repeats, naming the first such kind. */
  lemma ValidationIsExact(x: Inputs)
    ensures RepeatedKind(x) == None <==> UniqueIds(x)
    ensures forall k :: RepeatedKind(x) == Some(k) <==> FirstToRepeat(x, k)
  {
    LengthDetectsRepetition(InputIds(BankKind, x));
    LengthDetectsRepetition(InputIds(InvoiceKind, x));
    LengthDetectsRepetition(InputIds(GatewayKind, x));
  }

  lemma SameRecordsSameValidation(x: Inputs, y: Inputs)
    requires SameRecords(x, y)
    ensures RepeatedKind(SortInputs(x)) == RepeatedKind(SortInputs(y))
  {
    forall k ensures |InputIds(k, SortInputs(x))| == |InputIds(k, SortInputs(y))|
      && IdSet(InputIds(k, SortInputs(x))) == IdSet(InputIds(k, SortInputs(y)))
    {
      SortInputsKeepsIds(x, k);
      SortInputsKeepsIds(y, k);
      SameRecordsSameIds(x, y, k);
      SameMembers(InputIds(k, SortInputs(x)), InputIds(k, SortInputs(y)));
    }
  }

  /** Main result: permuting any of the three lists leaves the report as it is. */
  lemma OrderIndependenceTheorem(x: Inputs, y: Inputs, r: Rules)
    requires SameRecords(x, y)
    ensures Reconciliation(x, r) == Reconciliation(y, r)
  {
    SameRecordsSameValidation(x, y);
    if RepeatedKind(SortInputs(x)) == None {
      ValidationIsExact(SortInputs(x));
      forall k ensures Distinct(InputIds(k, x)) {
        SortInputsKeepsIds(x, k);
        DistinctSameMultiset(InputIds(k, SortInputs(x)), InputIds(k, x));
      }
      SortInputsForgetsOrder(x, y);
    }
  }
}
