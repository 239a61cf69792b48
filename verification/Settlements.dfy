/** A settlement is never split: the entries of one settlement are consumed together, so whatever
    outcome mentions one of them mentions all of them. */
module Settlements {
  import opened Ordering
  import opened Combinations
  import opened Records
  import opened Matching
  import opened MatchingFacts
  import opened Partition
  import opened Evidence

  /** The entries of one settlement, all of them. */
  ghost predicate WholeSettlement(x: Inputs, g: seq<GatewayEntry>)
  {
    g != [] && forall e :: e in g <==> e in x.gateways && e.settlementId == g[0].settlementId
  }

  /** The ledger has consumed all of a settlement or none of it. */
  ghost predicate WholeOrNothing(x: Inputs, l: Ledger)
  {
    forall e, f :: e in x.gateways && f in x.gateways && e.settlementId == f.settlementId && e.id in l.gateways
                   ==> f.id in l.gateways
  }

  /** Consuming what is left of one settlement keeps that. */
  lemma GroupKeepsWhole(x: Inputs, l: Ledger, m: Ledger, g: seq<GatewayEntry>)
    requires UniqueIds(x) && WholeOrNothing(x, l) && g != [] && g == Members(g[0].settlementId, x.gateways)
    requires l.gateways <= m.gateways <= l.gateways + IdSet(GatewayIds(g))
    requires forall e :: e in g ==> e.id in m.gateways
    ensures WholeOrNothing(x, m)
  {
    assert Distinct(InputIds(GatewayKind, x));
    MembersAre(g[0].settlementId, x.gateways);
    GatewayIdsAre(g);
    forall e, f | e in x.gateways && f in x.gateways && e.settlementId == f.settlementId && e.id in m.gateways
      ensures f.id in m.gateways
    {
      if e.id !in l.gateways {
        var d :| d in g && d.id == e.id;
        GatewayIdNamesOne(x.gateways, d, e);
        assert f in g;
      }
    }
  }

  lemma StepKeepsWhole(x: Inputs, r: Rules, t: Task, l: Ledger)
    requires UniqueIds(x) && Sound(x, t) && WholeOrNothing(x, l)
    ensures WholeOrNothing(x, Step(x, r, t, l))
  {
    var m := Step(x, r, t, l);
    match t
    case Payout(g) =>
      if m != l {
        GatewayIdsAre(g);
        GroupKeepsWhole(x, l, m, g);
      }
    case Awaiting(g) =>
      if m != l {
        StepIsDone(x, r, t, l);
        UnsettledAre(l.gateways, g);
        GatewayIdsAre(Unsettled(l.gateways, g));
        GatewayIdsAre(g);
        GroupKeepsWhole(x, l, m, g);
      }
    case _ => assert m.gateways == l.gateways;
  }

  lemma {:induction false} SettleKeepsWhole(x: Inputs, r: Rules, tasks: seq<Task>, l: Ledger)
    requires UniqueIds(x) && WholeOrNothing(x, l) && forall t :: t in tasks ==> Sound(x, t)
    ensures WholeOrNothing(x, Settle(x, r, tasks, l))
  {
    if tasks != [] {
      var n := |tasks| - 1;
      SettleKeepsWhole(x, r, tasks[..n], l);
      StepKeepsWhole(x, r, tasks[n], Settle(x, r, tasks[..n], l));
    }
  }

  lemma {:induction false} NothingSettled(used: set<string>, g: seq<GatewayEntry>)
    requires forall e :: e in g ==> e.id !in used
    ensures Unsettled(used, g) == g
  {
    if g != [] {
      assert g[0] in g;
      NothingSettled(used, g[1..]);
      assert g == [g[0]] + g[1..];
    }
  }

  /** What pass 7 finds left of a settlement is all of it, or nothing. */
  lemma RemainderIsWhole(x: Inputs, l: Ledger, g: seq<GatewayEntry>)
    requires UniqueIds(x) && Sound(x, Awaiting(g)) && WholeOrNothing(x, l)
    ensures Unsettled(l.gateways, g) == [] || Unsettled(l.gateways, g) == g
  {
    var rest := Unsettled(l.gateways, g);
    MembersAre(g[0].settlementId, x.gateways);
    UnsettledAre(l.gateways, g);
    if rest != [] {
      assert rest[0] in rest;
      NothingSettled(l.gateways, g);
    }
  }

  /** The ledger at any turn. */
  lemma TurnIsWhole(y: Inputs, r: Rules, j: nat)
    requires UniqueIds(y) && j <= |Agenda(y)|
    ensures WholeOrNothing(y, Settle(y, r, Agenda(y)[..j], EMPTY_LEDGER))
  {
    AgendaIsOrderly(y);
    SettleKeepsWhole(y, r, Agenda(y)[..j], EMPTY_LEDGER);
  }

  lemma SupportedGroupIsWhole(x: Inputs, r: Rules, l: Ledger, t: Task, o: Outcome) returns (g: seq<GatewayEntry>)
    requires UniqueIds(x) && Sound(x, t) && WholeOrNothing(x, l) && Supports(x, r, l, t, o) && o.gatewayIds != []
    ensures WholeSettlement(x, g) && o.gatewayIds == GatewayIds(g)
  {
    assert t.Payout? || t.Awaiting?;
    g := t.group;
    MembersAre(g[0].settlementId, x.gateways);
    if t.Awaiting? {
      RemainderIsWhole(x, l, g);
    }
  }

  /** Main result: an outcome that mentions gateway entries mentions those of one settlement, all of them. */
  lemma OutcomeTakesWholeSettlement(x: Inputs, r: Rules, i: nat) returns (g: seq<GatewayEntry>)
    requires UniqueIds(x) && i < |Outcomes(x, r)| && Outcomes(x, r)[i].gatewayIds != []
    ensures WholeSettlement(x, g) && Outcomes(x, r)[i].gatewayIds == GatewayIds(g)
  {
    var y := SortInputs(x);
    var j := EveryOutcomeIsSupported(x, r, i);
    SortInputsKeepsUniqueness(x);
    TurnIsWhole(y, r, j);
    AgendaIsOrderly(y);
    assert Agenda(y)[j] in Agenda(y);
    g := SupportedGroupIsWhole(y, r, LedgerOf(Outcomes(x, r)[..i]), Agenda(y)[j], Outcomes(x, r)[i]);
    SortIsPermutation(x.gateways, GatewayBefore);
  }

  /** Main result: no settlement is split between outcomes. */
  lemma NoSettlementIsSplit(x: Inputs, r: Rules, e: GatewayEntry, f: GatewayEntry) returns (i: nat)
    requires UniqueIds(x) && e in x.gateways && f in x.gateways && e.settlementId == f.settlementId
    ensures i < |Outcomes(x, r)| && e.id in Outcomes(x, r)[i].gatewayIds && f.id in Outcomes(x, r)[i].gatewayIds
  {
    var all := Outcomes(x, r);
    PartitionTheorem(x, r, GatewayKind);
    GatewayIdsAre(x.gateways);
    SameMembers(AllIds(GatewayKind, all), InputIds(GatewayKind, x));
    i := MentionedSomewhere(GatewayKind, all, e.id);
    var g := OutcomeTakesWholeSettlement(x, r, i);
    GatewayIdsAre(g);
    assert Distinct(InputIds(GatewayKind, x));
    var d :| d in g && d.id == e.id;
    GatewayIdNamesOne(x.gateways, d, e);
    assert f in g;
  }
}
