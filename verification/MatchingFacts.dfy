/** Elementary facts about the agenda, the candidate lists and the groups. */
module MatchingFacts {
  import opened Combinations
  import opened Records
  import opened Matching

  lemma {:induction false} SettleConcat(x: Inputs, r: Rules, a: seq<Task>, b: seq<Task>, l: Ledger)
    ensures Settle(x, r, a + b, l) == Settle(x, r, b, Settle(x, r, a, l))
  {
    if b == [] {
      assert a + b == a;
    } else {
      assert (a + b)[..|a + b| - 1] == a + b[..|b| - 1];
      SettleConcat(x, r, a, b[..|b| - 1], l);
    }
  }

  /** One more turn of a loop. */
  lemma SettleOneMore(x: Inputs, r: Rules, tasks: seq<Task>, i: nat, l: Ledger)
    requires i < |tasks|
    ensures Settle(x, r, tasks[..i + 1], l) == Step(x, r, tasks[i], Settle(x, r, tasks[..i], l))
  {
    assert tasks[..i + 1][..i] == tasks[..i];
  }

  /** Used sets and results only grow. */
  lemma {:induction false} SettleGrows(x: Inputs, r: Rules, tasks: seq<Task>, l: Ledger)
    ensures forall k :: l.Used(k) <= Settle(x, r, tasks, l).Used(k)
    ensures l.outcomes <= Settle(x, r, tasks, l).outcomes
  {
    if tasks != [] {
      SettleGrows(x, r, tasks[..|tasks| - 1], l);
    }
  }

  // Candidate lists: the right members, each once.

  lemma {:induction false} BankCandidatesAre(r: Rules, test: BankTest, used: set<string>, banks: seq<Bank>)
    ensures forall b ::
      b in BankCandidates(r, test, used, banks) <==> b in banks && b.id !in used && BankPasses(r, test, b)
  {
    if banks != [] {
      BankCandidatesAre(r, test, used, banks[1..]);
      assert banks == [banks[0]] + banks[1..];
    }
  }

  lemma {:induction false} BankCandidatesAreDistinct(r: Rules, test: BankTest, used: set<string>, banks: seq<Bank>)
    requires Distinct(BankIds(banks))
    ensures Distinct(BankIds(BankCandidates(r, test, used, banks)))
  {
    if banks != [] {
      var rest := BankCandidates(r, test, used, banks[1..]);
      assert BankIds(banks[1..]) == BankIds(banks)[1..];
      BankCandidatesAreDistinct(r, test, used, banks[1..]);
      BankCandidatesAre(r, test, used, banks[1..]);
      AddBankInFront(banks[0], rest, banks);
    }
  }

  lemma AddBankInFront(b: Bank, rest: seq<Bank>, banks: seq<Bank>)
    requires banks != [] && b == banks[0] && Distinct(BankIds(banks))
    requires Distinct(BankIds(rest)) && forall c :: c in rest ==> c in banks[1..]
    ensures Distinct(BankIds([b] + rest))
  {
    assert BankIds([b] + rest) == [b.id] + BankIds(rest);
    forall i | 0 <= i < |rest| ensures BankIds(rest)[i] != b.id {
      assert rest[i] in rest;
      var j :| 0 <= j < |banks[1..]| && banks[1..][j] == rest[i];
      assert BankIds(banks)[0] != BankIds(banks)[j + 1];
    }
    DistinctCons(b.id, BankIds(rest));
  }

  lemma {:induction false} InvoiceCandidatesAre(r: Rules, test: InvoiceTest, used: set<string>, invoices: seq<Invoice>)
    ensures forall v ::
      v in InvoiceCandidates(r, test, used, invoices) <==> v in invoices && v.id !in used && InvoicePasses(r, test, v)
  {
    if invoices != [] {
      InvoiceCandidatesAre(r, test, used, invoices[1..]);
      assert invoices == [invoices[0]] + invoices[1..];
    }
  }

  lemma {:induction false} InvoiceCandidatesAreDistinct(
      r: Rules, test: InvoiceTest, used: set<string>, invoices: seq<Invoice>)
    requires Distinct(InvoiceIds(invoices))
    ensures Distinct(InvoiceIds(InvoiceCandidates(r, test, used, invoices)))
  {
    if invoices != [] {
      var rest := InvoiceCandidates(r, test, used, invoices[1..]);
      assert InvoiceIds(invoices[1..]) == InvoiceIds(invoices)[1..];
      InvoiceCandidatesAreDistinct(r, test, used, invoices[1..]);
      InvoiceCandidatesAre(r, test, used, invoices[1..]);
      AddInvoiceInFront(invoices[0], rest, invoices);
    }
  }

  lemma AddInvoiceInFront(v: Invoice, rest: seq<Invoice>, invoices: seq<Invoice>)
    requires invoices != [] && v == invoices[0] && Distinct(InvoiceIds(invoices))
    requires Distinct(InvoiceIds(rest)) && forall w :: w in rest ==> w in invoices[1..]
    ensures Distinct(InvoiceIds([v] + rest))
  {
    assert InvoiceIds([v] + rest) == [v.id] + InvoiceIds(rest);
    forall i | 0 <= i < |rest| ensures InvoiceIds(rest)[i] != v.id {
      assert rest[i] in rest;
      var j :| 0 <= j < |invoices[1..]| && invoices[1..][j] == rest[i];
      assert InvoiceIds(invoices)[0] != InvoiceIds(invoices)[j + 1];
    }
    DistinctCons(v.id, InvoiceIds(rest));
  }

  lemma {:induction false} UnsettledAre(used: set<string>, group: seq<GatewayEntry>)
    ensures forall e :: e in Unsettled(used, group) <==> e in group && e.id !in used
  {
    if group != [] {
      UnsettledAre(used, group[1..]);
      assert group == [group[0]] + group[1..];
    }
  }

  lemma {:induction false} UnsettledAreDistinct(used: set<string>, group: seq<GatewayEntry>)
    requires Distinct(GatewayIds(group))
    ensures Distinct(GatewayIds(Unsettled(used, group)))
  {
    if group != [] {
      var rest := Unsettled(used, group[1..]);
      assert GatewayIds(group[1..]) == GatewayIds(group)[1..];
      UnsettledAreDistinct(used, group[1..]);
      UnsettledAre(used, group[1..]);
      assert GatewayIds([group[0]] + rest) == [group[0].id] + GatewayIds(rest);
      forall i | 0 <= i < |rest| ensures GatewayIds(rest)[i] != group[0].id {
        assert rest[i] in rest;
        var j :| 0 <= j < |group[1..]| && group[1..][j] == rest[i];
        assert GatewayIds(group)[0] != GatewayIds(group)[j + 1];
      }
      DistinctCons(group[0].id, GatewayIds(rest));
    }
  }

  /** Members of an id list, seen from the records. */
  lemma BankIdsAre(banks: seq<Bank>)
    ensures forall id :: id in BankIds(banks) <==> exists b :: b in banks && b.id == id
  {
    forall b | b in banks ensures b.id in BankIds(banks) {
      var i :| 0 <= i < |banks| && banks[i] == b;
      assert BankIds(banks)[i] == b.id;
    }
  }

  lemma InvoiceIdsAre(invoices: seq<Invoice>)
    ensures forall id :: id in InvoiceIds(invoices) <==> exists v :: v in invoices && v.id == id
  {
    forall v | v in invoices ensures v.id in InvoiceIds(invoices) {
      var i :| 0 <= i < |invoices| && invoices[i] == v;
      assert InvoiceIds(invoices)[i] == v.id;
    }
  }

  lemma GatewayIdsAre(gateways: seq<GatewayEntry>)
    ensures forall id :: id in GatewayIds(gateways) <==> exists e :: e in gateways && e.id == id
  {
    forall e | e in gateways ensures e.id in GatewayIds(gateways) {
      var i :| 0 <= i < |gateways| && gateways[i] == e;
      assert GatewayIds(gateways)[i] == e.id;
    }
  }

  /** With unique ids, an id names one record. */
  lemma BankIdNamesOne(banks: seq<Bank>, a: Bank, b: Bank)
    requires Distinct(BankIds(banks)) && a in banks && b in banks && a.id == b.id
    ensures a == b
  {
    var i :| 0 <= i < |banks| && banks[i] == a;
    var j :| 0 <= j < |banks| && banks[j] == b;
    assert BankIds(banks)[i] == BankIds(banks)[j];
  }

  lemma InvoiceIdNamesOne(invoices: seq<Invoice>, a: Invoice, b: Invoice)
    requires Distinct(InvoiceIds(invoices)) && a in invoices && b in invoices && a.id == b.id
    ensures a == b
  {
    var i :| 0 <= i < |invoices| && invoices[i] == a;
    var j :| 0 <= j < |invoices| && invoices[j] == b;
    assert InvoiceIds(invoices)[i] == InvoiceIds(invoices)[j];
  }

  lemma GatewayIdNamesOne(gateways: seq<GatewayEntry>, a: GatewayEntry, b: GatewayEntry)
    requires Distinct(GatewayIds(gateways)) && a in gateways && b in gateways && a.id == b.id
    ensures a == b
  {
    var i :| 0 <= i < |gateways| && gateways[i] == a;
    var j :| 0 <= j < |gateways| && gateways[j] == b;
    assert GatewayIds(gateways)[i] == GatewayIds(gateways)[j];
  }

  // Picks from a candidate list.

  lemma PickedInvoicesAre(candidates: seq<Invoice>, t: seq<nat>)
    requires Selection(t, 0, |candidates|)
    ensures forall v :: v in Pick(candidates, t) ==> v in candidates
    ensures Distinct(InvoiceIds(candidates)) ==> Distinct(InvoiceIds(Pick(candidates, t)))
  {
    var ids := InvoiceIds(candidates);
    forall i, j | 0 <= i < j < |t| && Distinct(ids)
      ensures InvoiceIds(Pick(candidates, t))[i] != InvoiceIds(Pick(candidates, t))[j]
    {
      assert ids[t[i]] != ids[t[j]];
    }
  }

  lemma PickedBanksAre(candidates: seq<Bank>, t: seq<nat>)
    requires Selection(t, 0, |candidates|)
    ensures forall b :: b in Pick(candidates, t) ==> b in candidates
    ensures Distinct(BankIds(candidates)) ==> Distinct(BankIds(Pick(candidates, t)))
  {
    var ids := BankIds(candidates);
    forall i, j | 0 <= i < j < |t| && Distinct(ids)
      ensures BankIds(Pick(candidates, t))[i] != BankIds(Pick(candidates, t))[j]
    {
      assert ids[t[i]] != ids[t[j]];
    }
  }

  lemma ChosenInvoicesAre(r: Rules, candidates: seq<Invoice>, target: int)
    ensures var chosen := ChosenInvoices(r, candidates, target);
      && (forall v :: v in chosen ==> v in candidates)
      && (Distinct(InvoiceIds(candidates)) ==> Distinct(InvoiceIds(chosen)))
      && (chosen != [] ==> 2 <= |chosen| <= r.maximumGroupSize && Total(AmountsDue(chosen)) == target)
  {
    var due := AmountsDue(candidates);
    var t := MatchingCombination(due, target, r.maximumGroupSize);
    SearchIsExact(due, target, 2, SizeLimit(|due|, r.maximumGroupSize));
    if t != [] {
      PickedInvoicesAre(candidates, t);
      PickedSumIsTotal(due, t);
      assert AmountsDue(Pick(candidates, t)) == Pick(due, t);
    }
  }

  lemma ChosenBanksAre(r: Rules, candidates: seq<Bank>, target: int)
    ensures var chosen := ChosenBanks(r, candidates, target);
      && (forall b :: b in chosen ==> b in candidates)
      && (Distinct(BankIds(candidates)) ==> Distinct(BankIds(chosen)))
      && (chosen != [] ==> 2 <= |chosen| <= r.maximumGroupSize && Total(Amounts(chosen)) == target)
  {
    var amounts := Amounts(candidates);
    var t := MatchingCombination(amounts, target, r.maximumGroupSize);
    SearchIsExact(amounts, target, 2, SizeLimit(|amounts|, r.maximumGroupSize));
    if t != [] {
      PickedBanksAre(candidates, t);
      PickedSumIsTotal(amounts, t);
      assert Amounts(Pick(candidates, t)) == Pick(amounts, t);
    }
  }

  lemma {:induction false} PickedSumIsTotal(amounts: seq<int>, t: seq<nat>)
    requires forall i :: 0 <= i < |t| ==> t[i] < |amounts|
    ensures Total(Pick(amounts, t)) == PickedSum(amounts, t)
  {
    if t != [] {
      PickedSumIsTotal(amounts, t[1..]);
      assert Pick(amounts, t)[1..] == Pick(amounts, t[1..]);
    }
  }

  // Groups.

  lemma {:induction false} TwinsAre(p: Fingerprint, banks: seq<Bank>)
    ensures forall b :: b in Twins(p, banks) <==> b in banks && b.Print() == p
  {
    if banks != [] {
      var n := |banks| - 1;
      TwinsAre(p, banks[..n]);
      assert banks == banks[..n] + [banks[n]];
    }
  }

  lemma {:induction false} TwinsAreDistinct(p: Fingerprint, banks: seq<Bank>)
    requires Distinct(BankIds(banks))
    ensures Distinct(BankIds(Twins(p, banks)))
  {
    if banks != [] {
      var n := |banks| - 1;
      var before := Twins(p, banks[..n]);
      assert BankIds(banks[..n]) == BankIds(banks)[..n];
      TwinsAreDistinct(p, banks[..n]);
      TwinsAre(p, banks[..n]);
      forall i | 0 <= i < |before| ensures BankIds(before)[i] != banks[n].id {
        assert before[i] in before;
        var j :| 0 <= j < n && banks[..n][j] == before[i];
        assert BankIds(banks)[j] != BankIds(banks)[n];
      }
      assert BankIds(before + [banks[n]]) == BankIds(before) + [banks[n].id];
      DistinctSnoc(BankIds(before), banks[n].id);
    }
  }

  lemma {:induction false} PrintsAre(banks: seq<Bank>)
    ensures forall p :: p in Prints(banks) <==> exists b :: b in banks && b.Print() == p
    ensures Distinct(Prints(banks))
  {
    if banks != [] {
      var n := |banks| - 1;
      PrintsAre(banks[..n]);
      assert banks == banks[..n] + [banks[n]];
      assert banks[n] in banks;
    }
  }

  lemma {:induction false} MembersAre(id: string, gateways: seq<GatewayEntry>)
    ensures forall e :: e in Members(id, gateways) <==> e in gateways && e.settlementId == id
  {
    if gateways != [] {
      var n := |gateways| - 1;
      MembersAre(id, gateways[..n]);
      assert gateways == gateways[..n] + [gateways[n]];
    }
  }

  lemma {:induction false} MembersAreDistinct(id: string, gateways: seq<GatewayEntry>)
    requires Distinct(GatewayIds(gateways))
    ensures Distinct(GatewayIds(Members(id, gateways)))
  {
    if gateways != [] {
      var n := |gateways| - 1;
      var before := Members(id, gateways[..n]);
      assert GatewayIds(gateways[..n]) == GatewayIds(gateways)[..n];
      MembersAreDistinct(id, gateways[..n]);
      MembersAre(id, gateways[..n]);
      forall i | 0 <= i < |before| ensures GatewayIds(before)[i] != gateways[n].id {
        assert before[i] in before;
        var j :| 0 <= j < n && gateways[..n][j] == before[i];
        assert GatewayIds(gateways)[j] != GatewayIds(gateways)[n];
      }
      assert GatewayIds(before + [gateways[n]]) == GatewayIds(before) + [gateways[n].id];
      DistinctSnoc(GatewayIds(before), gateways[n].id);
    }
  }

  lemma {:induction false} SettlementIdsAre(gateways: seq<GatewayEntry>)
    ensures forall id :: id in SettlementIds(gateways) <==> exists e :: e in gateways && e.settlementId == id
    ensures Distinct(SettlementIds(gateways))
  {
    if gateways != [] {
      var n := |gateways| - 1;
      SettlementIdsAre(gateways[..n]);
      assert gateways == gateways[..n] + [gateways[n]];
      assert gateways[n] in gateways;
    }
  }
}
