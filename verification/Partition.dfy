/** Every record ends in exactly one outcome. The invariant carried through all eight passes:
    the used sets are exactly the ids the outcomes mention, and none is mentioned twice. */
module Partition {
  import opened Ordering
  import opened Combinations
  import opened Records
  import opened Matching
  import opened MatchingFacts

  /** The ledger and its outcomes tell the same story. */
  ghost predicate Accounted(x: Inputs, l: Ledger)
  {
    && (forall k ::
          && Distinct(AllIds(k, l.outcomes))
          && IdSet(AllIds(k, l.outcomes)) == l.Used(k)
          && l.Used(k) <= IdSet(InputIds(k, x)))
    && |l.outcomes| <= MentionCount(l.outcomes)
  }

  function MentionCount(outcomes: seq<Outcome>): nat
  {
    |AllIds(BankKind, outcomes)| + |AllIds(InvoiceKind, outcomes)| + |AllIds(GatewayKind, outcomes)|
  }

  /** An outcome mentions known, unconsumed ids, each once, and at least one. */
  ghost predicate Fresh(x: Inputs, l: Ledger, o: Outcome)
  {
    && (forall k ::
          && Distinct(IdsOf(k, o))
          && IdSet(IdsOf(k, o)) !! l.Used(k)
          && IdSet(IdsOf(k, o)) <= IdSet(InputIds(k, x)))
    && exists k :: IdsOf(k, o) != []
  }

  /** A task speaks about records and groups of this input. */
  ghost predicate Sound(x: Inputs, t: Task)
  {
    match t
    case Quarantine(g) => g != [] && g == Twins(g[0].Print(), x.banks)
    case Payout(g) => g != [] && g == Members(g[0].settlementId, x.gateways)
    case Awaiting(g) => g != [] && g == Members(g[0].settlementId, x.gateways)
    case ManyInvoices(b) => b in x.banks
    case LeftoverBank(b) => b in x.banks
    case Exact(v) => v in x.invoices
    case Near(v) => v in x.invoices
    case ManyBanks(v) => v in x.invoices
    case LeftoverInvoice(v) => v in x.invoices
  }

  /** The group a task takes whole is still unconsumed. */
  ghost predicate Ready(t: Task, l: Ledger)
  {
    match t
    case Quarantine(g) => IdSet(BankIds(g)) !! l.banks
    case Payout(g) => IdSet(GatewayIds(g)) !! l.gateways
    case _ => true
  }

  /** `earlier` cannot consume the group that `later` takes whole. */
  ghost predicate Compatible(earlier: Task, later: Task)
  {
    match later
    case Quarantine(g) => earlier.Quarantine? && IdSet(BankIds(earlier.twins)) !! IdSet(BankIds(g))
    case Payout(g) =>
      !earlier.Awaiting? && (earlier.Payout? ==> IdSet(GatewayIds(earlier.group)) !! IdSet(GatewayIds(g)))
    case _ => true
  }

  ghost predicate Orderly(x: Inputs, tasks: seq<Task>)
  {
    && (forall t :: t in tasks ==> Sound(x, t))
    && (forall i, j :: 0 <= i < j < |tasks| ==> Compatible(tasks[i], tasks[j]))
  }

  lemma IdSetConcat(a: seq<string>, b: seq<string>)
    ensures IdSet(a + b) == IdSet(a) + IdSet(b)
  {
  }

  lemma DistinctConcat(a: seq<string>, b: seq<string>)
    requires Distinct(a) && Distinct(b) && IdSet(a) !! IdSet(b)
    ensures Distinct(a + b)
  {
    forall i, j | 0 <= i < j < |a + b| ensures (a + b)[i] != (a + b)[j] {
      if i < |a| <= j {
        assert a[i] in IdSet(a) && b[j - |a|] in IdSet(b);
      }
    }
  }

  lemma AddKeepsAccounted(x: Inputs, l: Ledger, o: Outcome)
    requires Accounted(x, l) && Fresh(x, l, o)
    ensures Accounted(x, l.Add(o))
  {
    var m := l.Add(o);
    assert m.outcomes[..|m.outcomes| - 1] == l.outcomes;
    forall k ensures
      && Distinct(AllIds(k, m.outcomes))
      && IdSet(AllIds(k, m.outcomes)) == m.Used(k)
      && m.Used(k) <= IdSet(InputIds(k, x))
    {
      assert AllIds(k, m.outcomes) == AllIds(k, l.outcomes) + IdsOf(k, o);
      assert m.Used(k) == l.Used(k) + IdSet(IdsOf(k, o));
      IdSetConcat(AllIds(k, l.outcomes), IdsOf(k, o));
      DistinctConcat(AllIds(k, l.outcomes), IdsOf(k, o));
    }
    var k :| IdsOf(k, o) != [];
    assert MentionCount(m.outcomes) > MentionCount(l.outcomes);
  }

  // Candidate lists are fresh.

  lemma FreshBanks(x: Inputs, used: set<string>, banks: seq<Bank>)
    requires Distinct(BankIds(banks))
    requires forall b :: b in banks ==> b in x.banks && b.id !in used
    ensures Distinct(BankIds(banks)) && IdSet(BankIds(banks)) !! used
    ensures IdSet(BankIds(banks)) <= IdSet(InputIds(BankKind, x))
  {
    BankIdsAre(banks);
    BankIdsAre(x.banks);
  }

  lemma FreshInvoices(x: Inputs, used: set<string>, invoices: seq<Invoice>)
    requires Distinct(InvoiceIds(invoices))
    requires forall v :: v in invoices ==> v in x.invoices && v.id !in used
    ensures Distinct(InvoiceIds(invoices)) && IdSet(InvoiceIds(invoices)) !! used
    ensures IdSet(InvoiceIds(invoices)) <= IdSet(InputIds(InvoiceKind, x))
  {
    InvoiceIdsAre(invoices);
    InvoiceIdsAre(x.invoices);
  }

  lemma FreshGateways(x: Inputs, used: set<string>, gateways: seq<GatewayEntry>)
    requires Distinct(GatewayIds(gateways))
    requires forall e :: e in gateways ==> e in x.gateways && e.id !in used
    ensures Distinct(GatewayIds(gateways)) && IdSet(GatewayIds(gateways)) !! used
    ensures IdSet(GatewayIds(gateways)) <= IdSet(InputIds(GatewayKind, x))
  {
    GatewayIdsAre(gateways);
    GatewayIdsAre(x.gateways);
  }

  lemma FreshCandidateBanks(x: Inputs, r: Rules, test: BankTest, l: Ledger)
    requires UniqueIds(x)
    ensures var c := BankCandidates(r, test, l.banks, x.banks);
      && Distinct(BankIds(c)) && forall b :: b in c ==> b in x.banks && b.id !in l.banks
  {
    assert Distinct(InputIds(BankKind, x));
    BankCandidatesAre(r, test, l.banks, x.banks);
    BankCandidatesAreDistinct(r, test, l.banks, x.banks);
  }

  lemma FreshCandidateInvoices(x: Inputs, r: Rules, test: InvoiceTest, l: Ledger)
    requires UniqueIds(x)
    ensures var c := InvoiceCandidates(r, test, l.invoices, x.invoices);
      && Distinct(InvoiceIds(c)) && forall v :: v in c ==> v in x.invoices && v.id !in l.invoices
  {
    assert Distinct(InputIds(InvoiceKind, x));
    InvoiceCandidatesAre(r, test, l.invoices, x.invoices);
    InvoiceCandidatesAreDistinct(r, test, l.invoices, x.invoices);
  }

  /** An outcome is fresh when its three lists are id lists of fresh records. */
  lemma FreshFromLists(
      x: Inputs, l: Ledger, o: Outcome, banks: seq<Bank>, invoices: seq<Invoice>, gateways: seq<GatewayEntry>)
    requires o.bankIds == BankIds(banks) && o.invoiceIds == InvoiceIds(invoices) && o.gatewayIds == GatewayIds(gateways)
    requires banks != [] || invoices != [] || gateways != []
    requires Distinct(BankIds(banks)) && forall b :: b in banks ==> b in x.banks && b.id !in l.banks
    requires Distinct(InvoiceIds(invoices)) && forall v :: v in invoices ==> v in x.invoices && v.id !in l.invoices
    requires Distinct(GatewayIds(gateways)) && forall e :: e in gateways ==> e in x.gateways && e.id !in l.gateways
    ensures Fresh(x, l, o)
  {
    FreshBanks(x, l.banks, banks);
    FreshInvoices(x, l.invoices, invoices);
    FreshGateways(x, l.gateways, gateways);
    if banks != [] {
      assert IdsOf(BankKind, o) != [];
    } else if invoices != [] {
      assert IdsOf(InvoiceKind, o) != [];
    } else {
      assert IdsOf(GatewayKind, o) != [];
    }
  }

  lemma GroupBanksAreFresh(x: Inputs, l: Ledger, g: seq<Bank>)
    requires UniqueIds(x) && Sound(x, Quarantine(g)) && Ready(Quarantine(g), l)
    ensures Distinct(BankIds(g)) && forall b :: b in g ==> b in x.banks && b.id !in l.banks
  {
    assert Distinct(InputIds(BankKind, x));
    TwinsAre(g[0].Print(), x.banks);
    TwinsAreDistinct(g[0].Print(), x.banks);
    BankIdsAre(g);
  }

  lemma GroupGatewaysAreFresh(x: Inputs, l: Ledger, g: seq<GatewayEntry>)
    requires UniqueIds(x) && Sound(x, Payout(g)) && Ready(Payout(g), l)
    ensures Distinct(GatewayIds(g)) && forall e :: e in g ==> e in x.gateways && e.id !in l.gateways
  {
    assert Distinct(InputIds(GatewayKind, x));
    MembersAre(g[0].settlementId, x.gateways);
    MembersAreDistinct(g[0].settlementId, x.gateways);
    GatewayIdsAre(g);
  }

  lemma RemainingAreFresh(x: Inputs, l: Ledger, g: seq<GatewayEntry>)
    requires UniqueIds(x) && Sound(x, Awaiting(g))
    ensures var remaining := Unsettled(l.gateways, g);
      && Distinct(GatewayIds(remaining))
      && forall e :: e in remaining ==> e in x.gateways && e.id !in l.gateways
  {
    assert Distinct(InputIds(GatewayKind, x));
    MembersAre(g[0].settlementId, x.gateways);
    MembersAreDistinct(g[0].settlementId, x.gateways);
    UnsettledAre(l.gateways, g);
    UnsettledAreDistinct(l.gateways, g);
  }

  /** Whatever a task reports is fresh. */
  lemma DecisionIsFresh(x: Inputs, r: Rules, t: Task, l: Ledger)
    requires UniqueIds(x) && Sound(x, t) && Ready(t, l)
    requires Decide(x, r, t, l).Some?
    ensures Fresh(x, l, Decide(x, r, t, l).value)
  {
    var o := Decide(x, r, t, l).value;
    match t
    case Quarantine(g) =>
      FreshCandidateInvoices(x, r, LinkedToDuplicates(g), l);
      GroupBanksAreFresh(x, l, g);
      FreshFromLists(x, l, o, g, InvoiceCandidates(r, LinkedToDuplicates(g), l.invoices, x.invoices), []);
    case Exact(v) =>
      FreshCandidateBanks(x, r, ExactFor(v), l);
      FreshFromLists(x, l, o, BankCandidates(r, ExactFor(v), l.banks, x.banks), [v], []);
    case Payout(g) =>
      FreshCandidateBanks(x, r, PayoutOf(g), l);
      FreshCandidateInvoices(x, r, LinkedToPayout(g), l);
      GroupGatewaysAreFresh(x, l, g);
      FreshFromLists(x, l, o, BankCandidates(r, PayoutOf(g), l.banks, x.banks),
                     InvoiceCandidates(r, LinkedToPayout(g), l.invoices, x.invoices), g);
    case Near(v) =>
      FreshCandidateBanks(x, r, NearFor(v), l);
      FreshFromLists(x, l, o, BankCandidates(r, NearFor(v), l.banks, x.banks), [v], []);
    case ManyInvoices(b) =>
      var c := InvoiceCandidates(r, PaidBy(b), l.invoices, x.invoices);
      FreshCandidateInvoices(x, r, PaidBy(b), l);
      ChosenInvoicesAre(r, c, b.amount);
      FreshFromLists(x, l, o, [b], ChosenInvoices(r, c, b.amount), []);
    case ManyBanks(v) =>
      var c := BankCandidates(r, PartOf(v), l.banks, x.banks);
      FreshCandidateBanks(x, r, PartOf(v), l);
      ChosenBanksAre(r, c, v.amountDue);
      FreshFromLists(x, l, o, ChosenBanks(r, c, v.amountDue), [v], []);
    case Awaiting(g) =>
      var remaining := Unsettled(l.gateways, g);
      RemainingAreFresh(x, l, g);
      FreshCandidateInvoices(x, r, LinkedToAwaiting(remaining), l);
      FreshFromLists(x, l, o, [], InvoiceCandidates(r, LinkedToAwaiting(remaining), l.invoices, x.invoices), remaining);
    case LeftoverBank(b) =>
      FreshFromLists(x, l, o, [b], [], []);
    case LeftoverInvoice(v) =>
      FreshFromLists(x, l, o, [], [v], []);
  }

  /** A compatible earlier task leaves the later one ready. */
  lemma StepKeepsReady(x: Inputs, r: Rules, t: Task, u: Task, l: Ledger)
    requires Sound(x, t) && Ready(u, l) && Compatible(t, u)
    ensures Ready(u, Step(x, r, t, l))
  {
    if t.Awaiting? {
      assert !u.Payout?;
    }
  }

  lemma {:induction false} SettleKeepsReady(x: Inputs, r: Rules, tasks: seq<Task>, u: Task, l: Ledger)
    requires forall t :: t in tasks ==> Sound(x, t) && Compatible(t, u)
    requires Ready(u, l)
    ensures Ready(u, Settle(x, r, tasks, l))
  {
    if tasks != [] {
      var n := |tasks| - 1;
      SettleKeepsReady(x, r, tasks[..n], u, l);
      StepKeepsReady(x, r, tasks[n], u, Settle(x, r, tasks[..n], l));
    }
  }

  /** The invariant over any orderly agenda. */
  lemma {:induction false} SettleKeepsAccounted(x: Inputs, r: Rules, tasks: seq<Task>, l: Ledger)
    requires UniqueIds(x) && Orderly(x, tasks) && Accounted(x, l)
    requires forall t :: t in tasks ==> Ready(t, l)
    ensures Accounted(x, Settle(x, r, tasks, l))
  {
    hide Step, Sound, Compatible, Accounted;
    if tasks != [] {
      var n := |tasks| - 1;
      var m := Settle(x, r, tasks[..n], l);
      assert Orderly(x, tasks[..n]);
      SettleKeepsAccounted(x, r, tasks[..n], l);
      assert tasks[n] in tasks;
      SettleKeepsReady(x, r, tasks[..n], tasks[n], l);
      StepKeepsAccounted(x, r, tasks[n], m);
    }
  }

  lemma StepKeepsAccounted(x: Inputs, r: Rules, t: Task, l: Ledger)
    requires UniqueIds(x) && Sound(x, t) && Ready(t, l) && Accounted(x, l)
    ensures Accounted(x, Step(x, r, t, l))
  {
    if Decide(x, r, t, l).Some? {
      DecisionIsFresh(x, r, t, l);
      AddKeepsAccounted(x, l, Decide(x, r, t, l).value);
    }
  }

  // The agenda of the engine is orderly.

  lemma TwinGroupsAre(x: Inputs)
    requires UniqueIds(x)
    ensures forall g :: g in SortedTwinGroups(x) ==> Sound(x, Quarantine(g))
    ensures forall b :: b in x.banks ==> Twins(b.Print(), x.banks) in SortedTwinGroups(x)
    ensures var groups := SortedTwinGroups(x);
      forall i, j :: 0 <= i < j < |groups| ==> IdSet(BankIds(groups[i])) !! IdSet(BankIds(groups[j]))
  {
    var prints, groups := Prints(x.banks), TwinGroups(x.banks);
    PrintsAre(x.banks);
    SortIsPermutation(groups, HeadBefore);
    forall g | g in groups ensures Sound(x, Quarantine(g)) {
      var i :| 0 <= i < |groups| && groups[i] == g;
      assert prints[i] in prints;
      TwinsAre(prints[i], x.banks);
      var b :| b in x.banks && b.Print() == prints[i];
      assert b in g && g[0] in g;
    }
    forall b | b in x.banks ensures Twins(b.Print(), x.banks) in groups {
      assert b.Print() in prints;
      var i :| 0 <= i < |prints| && prints[i] == b.Print();
      assert groups[i] == Twins(b.Print(), x.banks);
    }
    forall i, j | 0 <= i < j < |groups| ensures groups[i] != groups[j] {
      assert groups[i] in groups && groups[j] in groups;
      TwinsAre(prints[i], x.banks);
      TwinsAre(prints[j], x.banks);
      assert groups[i][0] in groups[i] && groups[j][0] in groups[j];
    }
    var sorted := Sort(groups, HeadBefore);
    DistinctSameMultiset(groups, sorted);
    forall i, j | 0 <= i < j < |sorted| ensures IdSet(BankIds(sorted[i])) !! IdSet(BankIds(sorted[j])) {
      assert sorted[i] in sorted && sorted[j] in sorted;
      TwinGroupsAreDisjoint(x, sorted[i], sorted[j]);
    }
  }

  lemma TwinGroupsAreDisjoint(x: Inputs, g: seq<Bank>, h: seq<Bank>)
    requires UniqueIds(x) && Sound(x, Quarantine(g)) && Sound(x, Quarantine(h)) && g != h
    ensures IdSet(BankIds(g)) !! IdSet(BankIds(h))
  {
    assert Distinct(InputIds(BankKind, x));
    TwinsAre(g[0].Print(), x.banks);
    TwinsAre(h[0].Print(), x.banks);
    BankIdsAre(g);
    BankIdsAre(h);
    forall a, b | a in g && b in h ensures a.id != b.id {
      if a.id == b.id {
        BankIdNamesOne(x.banks, a, b);
      }
    }
  }

  lemma DistinctSameMultiset<T(!new)>(s: seq<T>, t: seq<T>)
    requires Distinct(s) && multiset(s) == multiset(t)
    ensures Distinct(t)
  {
    forall i, j | 0 <= i < j < |t| ensures t[i] != t[j] {
      if t[i] == t[j] {
        var rest := t[..i] + t[i + 1..];
        assert t == t[..i] + [t[i]] + t[i + 1..];
        assert multiset(t) == multiset(rest) + multiset{t[i]};
        assert rest[j - 1] == t[j] && t[j] in rest;
        assert multiset(t)[t[i]] >= 2;
        assert multiset(s)[t[i]] >= 2;
        DistinctCountsOnce(s, t[i]);
      }
    }
  }

  lemma {:induction false} DistinctCountsOnce<T(!new)>(s: seq<T>, x: T)
    requires Distinct(s)
    ensures multiset(s)[x] == if x in s then 1 else 0
  {
    if s != [] {
      assert s == [s[0]] + s[1..];
      DistinctCountsOnce(s[1..], x);
    }
  }

  lemma SettlementsAre(x: Inputs)
    requires UniqueIds(x)
    ensures forall g :: g in SortedSettlements(x) ==> Sound(x, Payout(g)) && Sound(x, Awaiting(g))
    ensures forall e :: e in x.gateways ==> Members(e.settlementId, x.gateways) in SortedSettlements(x)
    ensures var groups := SortedSettlements(x);
      forall i, j :: 0 <= i < j < |groups| ==> IdSet(GatewayIds(groups[i])) !! IdSet(GatewayIds(groups[j]))
  {
    var ids := Sort(SettlementIds(x.gateways), StringLe);
    var groups := SortedSettlements(x);
    SettlementIdsAre(x.gateways);
    SortIsPermutation(SettlementIds(x.gateways), StringLe);
    DistinctSameMultiset(SettlementIds(x.gateways), ids);
    forall g | g in groups ensures Sound(x, Payout(g)) && Sound(x, Awaiting(g)) {
      var i :| 0 <= i < |groups| && groups[i] == g;
      assert ids[i] in ids;
      MembersAre(ids[i], x.gateways);
      var e :| e in x.gateways && e.settlementId == ids[i];
      assert e in g && g[0] in g;
    }
    forall e | e in x.gateways ensures Members(e.settlementId, x.gateways) in groups {
      assert e.settlementId in ids;
      var i :| 0 <= i < |ids| && ids[i] == e.settlementId;
      assert groups[i] == Members(e.settlementId, x.gateways);
    }
    forall i, j | 0 <= i < j < |groups| ensures IdSet(GatewayIds(groups[i])) !! IdSet(GatewayIds(groups[j])) {
      SettlementsAreDisjoint(x, ids[i], ids[j]);
    }
  }

  lemma SettlementsAreDisjoint(x: Inputs, a: string, b: string)
    requires UniqueIds(x) && a != b
    ensures IdSet(GatewayIds(Members(a, x.gateways))) !! IdSet(GatewayIds(Members(b, x.gateways)))
  {
    assert Distinct(InputIds(GatewayKind, x));
    MembersAre(a, x.gateways);
    MembersAre(b, x.gateways);
    GatewayIdsAre(Members(a, x.gateways));
    GatewayIdsAre(Members(b, x.gateways));
    forall e, f | e in Members(a, x.gateways) && f in Members(b, x.gateways) ensures e.id != f.id {
      if e.id == f.id {
        GatewayIdNamesOne(x.gateways, e, f);
      }
    }
  }

  /** Concatenating orderly parts whose cross pairs are compatible. */
  lemma OrderlyConcat(x: Inputs, a: seq<Task>, b: seq<Task>)
    requires Orderly(x, a) && Orderly(x, b)
    requires forall t, u :: t in a && u in b ==> Compatible(t, u)
    ensures Orderly(x, a + b)
  {
    forall i, j | 0 <= i < j < |a + b| ensures Compatible((a + b)[i], (a + b)[j]) {
      if i < |a| <= j {
        assert a[i] in a && b[j - |a|] in b;
      }
    }
  }

  /** From pass 4 on no group is taken whole, so any order is orderly. */
  ghost predicate Plain(x: Inputs, tasks: seq<Task>)
  {
    forall t :: t in tasks ==> Sound(x, t) && !t.Quarantine? && !t.Payout?
  }

  lemma PlainIsOrderly(x: Inputs, tasks: seq<Task>)
    requires Plain(x, tasks)
    ensures Orderly(x, tasks)
  {
    forall i, j | 0 <= i < j < |tasks| ensures Compatible(tasks[i], tasks[j]) {
      assert tasks[j] in tasks;
    }
  }

  lemma LaterTasksArePlain(x: Inputs)
    requires UniqueIds(x)
    ensures Plain(x, ManyInvoicesTasks(x.banks)) && Plain(x, ClosingTasks(x)) && Plain(x, NearTasks(x.invoices))
    ensures Plain(x, LeftoverBankTasks(x.banks)) && Plain(x, LeftoverInvoiceTasks(x.invoices))
  {
    SettlementsAre(x);
    forall t | t in ManyInvoicesTasks(x.banks) || t in LeftoverBankTasks(x.banks) ensures Sound(x, t) {
      assert t.bank in x.banks;
    }
    forall t | t in AwaitingTasks(SortedSettlements(x)) ensures Sound(x, t) {
      assert t.group in SortedSettlements(x);
    }
  }

  lemma QuarantineTasksAreOrderly(x: Inputs)
    requires UniqueIds(x)
    ensures Orderly(x, QuarantineTasks(SortedTwinGroups(x)))
  {
    TwinGroupsAre(x);
    var groups := SortedTwinGroups(x);
    forall t | t in QuarantineTasks(groups) ensures Sound(x, t) {
      assert t.twins in groups;
    }
  }

  lemma PayoutTasksAreOrderly(x: Inputs)
    requires UniqueIds(x)
    ensures Orderly(x, PayoutTasks(SortedSettlements(x)))
  {
    SettlementsAre(x);
    var groups := SortedSettlements(x);
    forall t | t in PayoutTasks(groups) ensures Sound(x, t) {
      assert t.group in groups;
    }
  }

  lemma MiddleTasksAreOrderly(x: Inputs)
    requires UniqueIds(x)
    ensures Orderly(x, MiddleTasks(x))
    ensures forall t :: t in MiddleTasks(x) ==> !t.Quarantine? && !t.Awaiting?
  {
    PayoutTasksAreOrderly(x);
    LaterTasksArePlain(x);
    PlainIsOrderly(x, NearTasks(x.invoices));
    OrderlyConcat(x, ExactTasks(x.invoices), PayoutTasks(SortedSettlements(x)));
    OrderlyConcat(x, ExactTasks(x.invoices) + PayoutTasks(SortedSettlements(x)), NearTasks(x.invoices));
  }

  /** Plain tasks may follow anything. */
  lemma PlainMayFollow(x: Inputs, tasks: seq<Task>, plain: seq<Task>)
    requires Orderly(x, tasks) && Plain(x, plain)
    ensures Orderly(x, tasks + plain)
  {
    PlainIsOrderly(x, plain);
    OrderlyConcat(x, tasks, plain);
  }

  lemma AgendaIsOrderly(x: Inputs)
    requires UniqueIds(x)
    ensures Orderly(x, Agenda(x))
  {
    var quarantine := QuarantineTasks(SortedTwinGroups(x));
    QuarantineTasksAreOrderly(x);
    MiddleTasksAreOrderly(x);
    LaterTasksArePlain(x);
    OrderlyConcat(x, quarantine, MiddleTasks(x));
    PlainMayFollow(x, quarantine + MiddleTasks(x), ManyInvoicesTasks(x.banks));
    PlainMayFollow(x, quarantine + MiddleTasks(x) + ManyInvoicesTasks(x.banks), ClosingTasks(x));
    PlainMayFollow(x, MatchingTasks(x), LeftoverBankTasks(x.banks));
    PlainMayFollow(x, MatchingTasks(x) + LeftoverBankTasks(x.banks), LeftoverInvoiceTasks(x.invoices));
  }

  // Nothing is left over.

  /** What a task that reports leftovers has consumed once it is done. */
  ghost predicate Done(t: Task, l: Ledger)
  {
    match t
    case LeftoverBank(b) => b.id in l.banks
    case LeftoverInvoice(v) => v.id in l.invoices
    case Awaiting(g) => forall e :: e in g ==> e.id in l.gateways
    case Quarantine(g) => |g| >= 2 ==> forall b :: b in g ==> b.id in l.banks
    case _ => true
  }

  lemma StepIsDone(x: Inputs, r: Rules, t: Task, l: Ledger)
    ensures Done(t, Step(x, r, t, l))
  {
    if t.Awaiting? {
      UnsettledAre(l.gateways, t.group);
      GatewayIdsAre(Unsettled(l.gateways, t.group));
    } else if t.Quarantine? {
      BankIdsAre(t.twins);
    }
  }

  lemma {:induction false} SettleIsDone(x: Inputs, r: Rules, tasks: seq<Task>, l: Ledger)
    ensures forall t :: t in tasks ==> Done(t, Settle(x, r, tasks, l))
  {
    if tasks != [] {
      var n := |tasks| - 1;
      var m := Settle(x, r, tasks[..n], l);
      SettleIsDone(x, r, tasks[..n], l);
      StepIsDone(x, r, tasks[n], m);
      var last := Settle(x, r, tasks, l);
      assert forall k :: m.Used(k) <= last.Used(k);
      assert m.Used(BankKind) <= last.Used(BankKind) && m.Used(InvoiceKind) <= last.Used(InvoiceKind)
        && m.Used(GatewayKind) <= last.Used(GatewayKind);
      assert tasks == tasks[..n] + [tasks[n]];
    }
  }

  lemma EverythingIsUsed(x: Inputs, r: Rules, k: Kind)
    requires UniqueIds(x)
    ensures IdSet(InputIds(k, x)) <= Settle(x, r, Agenda(x), EMPTY_LEDGER).Used(k)
  {
    hide Settle, SortedSettlements;
    var l := Settle(x, r, Agenda(x), EMPTY_LEDGER);
    SettleIsDone(x, r, Agenda(x), EMPTY_LEDGER);
    match k
    case BankKind =>
      forall i | 0 <= i < |x.banks| ensures x.banks[i].id in l.banks {
        assert LeftoverBankTasks(x.banks)[i] in Agenda(x);
      }
    case InvoiceKind =>
      forall i | 0 <= i < |x.invoices| ensures x.invoices[i].id in l.invoices {
        assert LeftoverInvoiceTasks(x.invoices)[i] in Agenda(x);
      }
    case GatewayKind =>
      SettlementsAre(x);
      forall i | 0 <= i < |x.gateways| ensures x.gateways[i].id in l.gateways {
        var e := x.gateways[i];
        var g := Members(e.settlementId, x.gateways);
        var j :| 0 <= j < |SortedSettlements(x)| && SortedSettlements(x)[j] == g;
        assert AwaitingTasks(SortedSettlements(x))[j] in Agenda(x);
        MembersAre(e.settlementId, x.gateways);
        assert e in g;
      }
  }

  lemma DistinctSameSet(s: seq<string>, t: seq<string>)
    requires Distinct(s) && Distinct(t) && IdSet(s) == IdSet(t)
    ensures multiset(s) == multiset(t)
  {
    forall id ensures multiset(s)[id] == multiset(t)[id] {
      DistinctCountsOnce(s, id);
      DistinctCountsOnce(t, id);
      assert id in s <==> id in IdSet(s);
      assert id in t <==> id in IdSet(t);
    }
  }

  lemma FinalLedgerIsAccounted(x: Inputs, r: Rules)
    requires UniqueIds(x)
    ensures Accounted(x, Settle(x, r, Agenda(x), EMPTY_LEDGER))
  {
    AgendaIsOrderly(x);
    SettleKeepsAccounted(x, r, Agenda(x), EMPTY_LEDGER);
  }

  /** Sorting keeps the records, so it keeps the ids. */
  lemma SortInputsKeepsIds(x: Inputs, k: Kind)
    ensures multiset(InputIds(k, SortInputs(x))) == multiset(InputIds(k, x))
  {
    SortIsPermutation(x.banks, BankBefore);
    SortIsPermutation(x.invoices, InvoiceBefore);
    SortIsPermutation(x.gateways, GatewayBefore);
    match k
    case BankKind =>
      var f := (b: Bank) => b.id;
      MapOfPermutation(f, Sort(x.banks, BankBefore), x.banks);
      assert BankIds(x.banks) == Map(f, x.banks);
      assert BankIds(Sort(x.banks, BankBefore)) == Map(f, Sort(x.banks, BankBefore));
    case InvoiceKind =>
      var f := (v: Invoice) => v.id;
      MapOfPermutation(f, Sort(x.invoices, InvoiceBefore), x.invoices);
      assert InvoiceIds(x.invoices) == Map(f, x.invoices);
      assert InvoiceIds(Sort(x.invoices, InvoiceBefore)) == Map(f, Sort(x.invoices, InvoiceBefore));
    case GatewayKind =>
      var f := (e: GatewayEntry) => e.id;
      MapOfPermutation(f, Sort(x.gateways, GatewayBefore), x.gateways);
      assert GatewayIds(x.gateways) == Map(f, x.gateways);
      assert GatewayIds(Sort(x.gateways, GatewayBefore)) == Map(f, Sort(x.gateways, GatewayBefore));
  }

  lemma SortInputsKeepsUniqueness(x: Inputs)
    ensures UniqueIds(x) ==> UniqueIds(SortInputs(x))
  {
    if UniqueIds(x) {
      forall k ensures Distinct(InputIds(k, SortInputs(x))) {
        SortInputsKeepsIds(x, k);
        DistinctSameMultiset(InputIds(k, x), InputIds(k, SortInputs(x)));
      }
    }
  }

  /** Main result: with unique ids, every bank, invoice and gateway id occurs in the outcomes
      exactly as often as in the input, once, and no foreign id occurs. */
  lemma PartitionTheorem(x: Inputs, r: Rules, k: Kind)
    requires UniqueIds(x)
    ensures multiset(AllIds(k, Outcomes(x, r))) == multiset(InputIds(k, x))
    ensures Distinct(AllIds(k, Outcomes(x, r)))
  {
    var y := SortInputs(x);
    SortInputsKeepsUniqueness(x);
    FinalLedgerIsAccounted(y, r);
    EverythingIsUsed(y, r, k);
    var l := Settle(y, r, Agenda(y), EMPTY_LEDGER);
    assert Distinct(AllIds(k, l.outcomes)) && IdSet(AllIds(k, l.outcomes)) == l.Used(k);
    DistinctSameSet(AllIds(k, l.outcomes), InputIds(k, y));
    SortInputsKeepsIds(x, k);
  }

  // Where an id is mentioned.

  lemma {:induction false} MentionedSomewhere(k: Kind, outcomes: seq<Outcome>, id: string) returns (i: nat)
    requires id in AllIds(k, outcomes)
    ensures i < |outcomes| && id in IdsOf(k, outcomes[i])
  {
    var n := |outcomes| - 1;
    if id in IdsOf(k, outcomes[n]) {
      i := n;
    } else {
      i := MentionedSomewhere(k, outcomes[..n], id);
    }
  }

  lemma {:induction false} AllIdsContain(k: Kind, outcomes: seq<Outcome>, i: nat, id: string)
    requires i < |outcomes| && id in IdsOf(k, outcomes[i])
    ensures id in AllIds(k, outcomes)
  {
    if i < |outcomes| - 1 {
      AllIdsContain(k, outcomes[..|outcomes| - 1], i, id);
    }
  }

  /** An id in two outcomes repeats in the list of all ids. */
  lemma {:induction false} MentionedTwice(k: Kind, outcomes: seq<Outcome>, i: nat, j: nat, id: string)
    requires i < j < |outcomes| && id in IdsOf(k, outcomes[i]) && id in IdsOf(k, outcomes[j])
    ensures !Distinct(AllIds(k, outcomes))
  {
    var n := |outcomes| - 1;
    if j < n {
      MentionedTwice(k, outcomes[..n], i, j, id);
    } else {
      AllIdsContain(k, outcomes[..n], i, id);
    }
    RepetitionInConcat(AllIds(k, outcomes[..n]), IdsOf(k, outcomes[n]), id);
  }

  lemma RepetitionInConcat(a: seq<string>, b: seq<string>, id: string)
    requires !Distinct(a) || (id in a && id in b)
    ensures !Distinct(a + b)
  {
    var c := a + b;
    if !Distinct(a) {
      var i, j :| 0 <= i < j < |a| && a[i] == a[j];
      assert c[i] == c[j];
    } else {
      var i :| 0 <= i < |a| && a[i] == id;
      var j :| 0 <= j < |b| && b[j] == id;
      assert c[i] == c[|a| + j];
    }
  }

  /** There are at most as many outcomes as input records. */
  lemma OutcomeCount(x: Inputs, r: Rules)
    requires UniqueIds(x)
    ensures |Outcomes(x, r)| <= |x.banks| + |x.invoices| + |x.gateways|
  {
    var y := SortInputs(x);
    SortInputsKeepsUniqueness(x);
    FinalLedgerIsAccounted(y, r);
    PartitionTheorem(x, r, BankKind);
    PartitionTheorem(x, r, InvoiceKind);
    PartitionTheorem(x, r, GatewayKind);
    SameMembers(AllIds(BankKind, Outcomes(x, r)), InputIds(BankKind, x));
    SameMembers(AllIds(InvoiceKind, Outcomes(x, r)), InputIds(InvoiceKind, x));
    SameMembers(AllIds(GatewayKind, Outcomes(x, r)), InputIds(GatewayKind, x));
  }
}
