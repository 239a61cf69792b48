/** Why each outcome was reported, and why nothing was overlooked: a task reports an outcome
    exactly when the evidence of its rule is there and unambiguous at its turn. */
module Evidence {
  import opened Ordering
  import opened Combinations
  import opened Records
  import opened Matching
  import opened MatchingFacts
  import opened Partition

  /** b is the one unconsumed bank entry that meets the condition. */
  ghost predicate SoleBank(x: Inputs, r: Rules, used: set<string>, test: BankTest, b: Bank)
  {
    && b in x.banks && b.id !in used && BankPasses(r, test, b)
    && forall c :: c in x.banks && c.id !in used && BankPasses(r, test, c) ==> c == b
  }

  /** What must hold, given what is consumed, for a task to report o. */
  ghost predicate Supports(x: Inputs, r: Rules, l: Ledger, t: Task, o: Outcome)
  {
    match t
    case Quarantine(g) =>
      && |g| >= 2
      && o == DuplicateOutcome(g, InvoiceCandidates(r, LinkedToDuplicates(g), l.invoices, x.invoices))
    case Exact(v) =>
      v.id !in l.invoices && exists b :: SoleBank(x, r, l.banks, ExactFor(v), b) && o == ExactOutcome(v, b)
    case Payout(g) =>
      var linked := InvoiceCandidates(r, LinkedToPayout(g), l.invoices, x.invoices);
      g != [] && exists b :: SoleBank(x, r, l.banks, PayoutOf(g), b) && o == PayoutOutcome(g, b, linked)
    case Near(v) =>
      v.id !in l.invoices && exists b :: SoleBank(x, r, l.banks, NearFor(v), b) && o == ToleranceOutcome(v, b)
    case ManyInvoices(b) =>
      var c := InvoiceCandidates(r, PaidBy(b), l.invoices, x.invoices);
      b.id !in l.banks && b.Eligible() && exists t ::
        SmallestSole(AmountsDue(c), b.amount, r.maximumGroupSize, t) && o == ManyInvoicesOutcome(b, Pick(c, t))
    case ManyBanks(v) =>
      var c := BankCandidates(r, PartOf(v), l.banks, x.banks);
      v.id !in l.invoices && exists t ::
        SmallestSole(Amounts(c), v.amountDue, r.maximumGroupSize, t) && o == ManyBanksOutcome(v, Pick(c, t))
    case Awaiting(g) =>
      var remaining := Unsettled(l.gateways, g);
      && remaining != []
      && o == AwaitingOutcome(remaining, InvoiceCandidates(r, LinkedToAwaiting(remaining), l.invoices, x.invoices))
    case LeftoverBank(b) => b.id !in l.banks && o == LeftoverBankOutcome(b)
    case LeftoverInvoice(v) => v.id !in l.invoices && o == LeftoverInvoiceOutcome(v)
  }

  lemma OneCandidateIsSole(x: Inputs, r: Rules, used: set<string>, test: BankTest)
    requires Distinct(BankIds(x.banks))
    ensures var c := BankCandidates(r, test, used, x.banks);
      && (|c| == 1 ==> SoleBank(x, r, used, test, c[0]))
      && forall b :: SoleBank(x, r, used, test, b) ==> c == [b]
  {
    var c := BankCandidates(r, test, used, x.banks);
    BankCandidatesAre(r, test, used, x.banks);
    BankCandidatesAreDistinct(r, test, used, x.banks);
    if |c| == 1 {
      assert c[0] in c;
    } else if |c| >= 2 {
      assert BankIds(c)[0] != BankIds(c)[1];
      assert c[0] in c && c[1] in c && c[0] != c[1];
    }
    forall b | SoleBank(x, r, used, test, b) ensures c == [b] {
      assert b in c;
      forall i | 0 <= i < |c| ensures c[i] == b {
        assert c[i] in c;
      }
    }
  }

  lemma SearchFindsSmallestSole(amounts: seq<int>, target: int, maximumGroupSize: nat)
    ensures var t := MatchingCombination(amounts, target, maximumGroupSize);
      && (t != [] ==> SmallestSole(amounts, target, maximumGroupSize, t))
      && forall u :: SmallestSole(amounts, target, maximumGroupSize, u) ==> u == t
  {
    SearchIsExact(amounts, target, 2, SizeLimit(|amounts|, maximumGroupSize));
  }

  /** A task reports o exactly when o is supported; so what is supported is unique too. */
  lemma DecisionIsExact(x: Inputs, r: Rules, t: Task, l: Ledger)
    requires UniqueIds(x) && Sound(x, t)
    ensures forall o :: Decide(x, r, t, l) == Some(o) <==> Supports(x, r, l, t, o)
  {
    assert Distinct(InputIds(BankKind, x));
    match t
    case Exact(v) => OneCandidateIsSole(x, r, l.banks, ExactFor(v));
    case Near(v) => OneCandidateIsSole(x, r, l.banks, NearFor(v));
    case Payout(g) => OneCandidateIsSole(x, r, l.banks, PayoutOf(g));
    case ManyInvoices(b) => ManyInvoicesDecision(x, r, b, l);
    case ManyBanks(v) => ManyBanksDecision(x, r, v, l);
    case _ =>
  }

  lemma ManyInvoicesDecision(x: Inputs, r: Rules, b: Bank, l: Ledger)
    ensures forall o :: DecideManyInvoices(x, r, b, l) == Some(o) <==> Supports(x, r, l, ManyInvoices(b), o)
  {
    var c := InvoiceCandidates(r, PaidBy(b), l.invoices, x.invoices);
    SearchFindsSmallestSole(AmountsDue(c), b.amount, r.maximumGroupSize);
  }

  lemma ManyBanksDecision(x: Inputs, r: Rules, v: Invoice, l: Ledger)
    ensures forall o :: DecideManyBanks(x, r, v, l) == Some(o) <==> Supports(x, r, l, ManyBanks(v), o)
  {
    var c := BankCandidates(r, PartOf(v), l.banks, x.banks);
    SearchFindsSmallestSole(Amounts(c), v.amountDue, r.maximumGroupSize);
  }

  /** The ledger a list of outcomes stands for: consumed is what they mention. */
  function LedgerOf(outcomes: seq<Outcome>): Ledger
  {
    Ledger(IdSet(AllIds(BankKind, outcomes)), IdSet(AllIds(InvoiceKind, outcomes)),
           IdSet(AllIds(GatewayKind, outcomes)), outcomes)
  }

  /** Every ledger the engine reaches is the one its outcomes stand for. */
  lemma LedgerFromOutcomes(x: Inputs, r: Rules, j: nat)
    requires UniqueIds(x) && j <= |Agenda(x)|
    ensures var l := Settle(x, r, Agenda(x)[..j], EMPTY_LEDGER);
      l == LedgerOf(l.outcomes)
  {
    var l := Settle(x, r, Agenda(x)[..j], EMPTY_LEDGER);
    AgendaIsOrderly(x);
    SettleKeepsAccounted(x, r, Agenda(x)[..j], EMPTY_LEDGER);
    AccountedFromOutcomes(x, l);
  }

  lemma AccountedFromOutcomes(x: Inputs, l: Ledger)
    requires Accounted(x, l)
    ensures l == LedgerOf(l.outcomes)
  {
    assert l.Used(BankKind) == IdSet(AllIds(BankKind, l.outcomes));
    assert l.Used(InvoiceKind) == IdSet(AllIds(InvoiceKind, l.outcomes));
    assert l.Used(GatewayKind) == IdSet(AllIds(GatewayKind, l.outcomes));
  }

  /** When the turn of task j comes, the ledger is that of some prefix of the final outcomes. */
  lemma TurnOf(x: Inputs, r: Rules, j: nat) returns (n: nat)
    requires UniqueIds(x) && j < |Agenda(x)|
    ensures n == |Settle(x, r, Agenda(x)[..j], EMPTY_LEDGER).outcomes|
    ensures var all := Settle(x, r, Agenda(x), EMPTY_LEDGER).outcomes;
      && n <= |all|
      && Settle(x, r, Agenda(x)[..j], EMPTY_LEDGER) == LedgerOf(all[..n])
      && var d := Decide(x, r, Agenda(x)[j], LedgerOf(all[..n]));
         d.Some? ==> n < |all| && all[n] == d.value
  {
    LedgerFromOutcomes(x, r, j);
    n := TurnInTasks(x, r, Agenda(x), j);
  }

  lemma TurnInTasks(x: Inputs, r: Rules, tasks: seq<Task>, j: nat) returns (n: nat)
    requires j < |tasks|
    ensures var l, all := Settle(x, r, tasks[..j], EMPTY_LEDGER), Settle(x, r, tasks, EMPTY_LEDGER).outcomes;
      && n == |l.outcomes| <= |all| && l.outcomes == all[..n]
      && var d := Decide(x, r, tasks[j], l); d.Some? ==> n < |all| && all[n] == d.value
  {
    n := |Settle(x, r, tasks[..j], EMPTY_LEDGER).outcomes|;
    SettleOneMore(x, r, tasks, j, EMPTY_LEDGER);
    PrefixSettles(x, r, tasks, j);
    PrefixSettles(x, r, tasks, j + 1);
  }

  lemma PrefixSettles(x: Inputs, r: Rules, tasks: seq<Task>, j: nat)
    requires j <= |tasks|
    ensures Settle(x, r, tasks[..j], EMPTY_LEDGER).outcomes <= Settle(x, r, tasks, EMPTY_LEDGER).outcomes
  {
    assert tasks == tasks[..j] + tasks[j..];
    SettleConcat(x, r, tasks[..j], tasks[j..], EMPTY_LEDGER);
    SettleGrows(x, r, tasks[j..], Settle(x, r, tasks[..j], EMPTY_LEDGER));
  }

  /** Nothing the task could report is supported. */
  ghost predicate Quiet(x: Inputs, r: Rules, l: Ledger, t: Task)
  {
    forall o :: !Supports(x, r, l, t, o)
  }

  /** Main result, completeness: task j of the agenda has its turn when the engine has taken the j tasks
      before it and reported the first n outcomes; there it either reports the next outcome, which is
      supported, or nothing was supported. */
  lemma NothingIsOverlooked(x: Inputs, r: Rules, j: nat) returns (n: nat)
    requires UniqueIds(x) && j < |Agenda(SortInputs(x))|
    ensures var y, all := SortInputs(x), Outcomes(x, r);
      var l := Settle(y, r, Agenda(y)[..j], EMPTY_LEDGER);
      && n == |l.outcomes| <= |all| && l == LedgerOf(all[..n])
      && ((n < |all| && Supports(y, r, l, Agenda(y)[j], all[n])) || Quiet(y, r, l, Agenda(y)[j]))
  {
    var y := SortInputs(x);
    SortInputsKeepsUniqueness(x);
    AgendaIsOrderly(y);
    n := TurnOf(y, r, j);
    assert Agenda(y)[j] in Agenda(y);
    DecisionIsExact(y, r, Agenda(y)[j], LedgerOf(Outcomes(x, r)[..n]));
  }

  // The whole report, told by evidence alone.

  /** At a turn that finds the first n outcomes reported: the next outcome is supported and reported, or
      nothing is supported and nothing is reported. */
  ghost predicate TakesTurn(x: Inputs, r: Rules, t: Task, all: seq<Outcome>, n: nat, next: nat)
  {
    if next == n + 1 then n < |all| && Supports(x, r, LedgerOf(all[..n]), t, all[n])
    else next == n <= |all| && Quiet(x, r, LedgerOf(all[..n]), t)
  }

  /** The tasks take their turns at these positions and report all of it. */
  ghost predicate Scheduled(x: Inputs, r: Rules, tasks: seq<Task>, all: seq<Outcome>, at: seq<nat>)
  {
    && |at| == |tasks| + 1 && at[0] == 0 && at[|tasks|] == |all|
    && forall j :: 0 <= j < |tasks| ==> TakesTurn(x, r, tasks[j], all, at[j], at[j + 1])
  }

  /** Main result: the report is the one list of outcomes in which every task of the agenda, in order,
      reports what its evidence supports, given what the outcomes before it consumed, and nothing else. */
  lemma ReportIsDetermined(x: Inputs, r: Rules, all: seq<Outcome>)
    requires UniqueIds(x)
    ensures var y := SortInputs(x);
      all == Outcomes(x, r) <==> exists at :: Scheduled(y, r, Agenda(y), all, at)
  {
    var y := SortInputs(x);
    SortInputsKeepsUniqueness(x);
    if all == Outcomes(x, r) {
      var at := ScheduleOfRun(y, r);
    }
    if at :| Scheduled(y, r, Agenda(y), all, at) {
      ScheduleIsFollowed(y, r, all, at, |Agenda(y)|);
      assert Agenda(y)[..|Agenda(y)|] == Agenda(y) && all[..|all|] == all;
    }
  }

  /** How many outcomes the first j tasks report. */
  function Reported(y: Inputs, r: Rules, j: nat): nat
    requires j <= |Agenda(y)|
  {
    |Settle(y, r, Agenda(y)[..j], EMPTY_LEDGER).outcomes|
  }

  lemma RunTakesTurn(y: Inputs, r: Rules, j: nat)
    requires UniqueIds(y) && j < |Agenda(y)|
    ensures var all := Settle(y, r, Agenda(y), EMPTY_LEDGER).outcomes;
      TakesTurn(y, r, Agenda(y)[j], all, Reported(y, r, j), Reported(y, r, j + 1))
  {
    AgendaIsOrderly(y);
    assert Agenda(y)[j] in Agenda(y);
    hide Agenda, Supports, Decide, UniqueIds, LedgerOf, Sound;
    var n := TurnOf(y, r, j);
    var all := Settle(y, r, Agenda(y), EMPTY_LEDGER).outcomes;
    DecisionIsExact(y, r, Agenda(y)[j], LedgerOf(all[..n]));
    SettleOneMore(y, r, Agenda(y), j, EMPTY_LEDGER);
  }

  lemma ScheduleOfRun(y: Inputs, r: Rules) returns (at: seq<nat>)
    requires UniqueIds(y)
    ensures Scheduled(y, r, Agenda(y), Settle(y, r, Agenda(y), EMPTY_LEDGER).outcomes, at)
  {
    hide Agenda, UniqueIds, TakesTurn;
    at := seq(|Agenda(y)| + 1, j requires 0 <= j <= |Agenda(y)| => Reported(y, r, j));
    assert Agenda(y)[..|Agenda(y)|] == Agenda(y);
    forall j | 0 <= j < |Agenda(y)|
      ensures TakesTurn(y, r, Agenda(y)[j], Settle(y, r, Agenda(y), EMPTY_LEDGER).outcomes, at[j], at[j + 1]) {
      RunTakesTurn(y, r, j);
    }
  }

  /** The engine is where the schedule says it is. */
  lemma {:induction false} ScheduleIsFollowed(y: Inputs, r: Rules, all: seq<Outcome>, at: seq<nat>, j: nat)
    requires UniqueIds(y) && Scheduled(y, r, Agenda(y), all, at) && j <= |Agenda(y)|
    ensures at[j] <= |all| && Settle(y, r, Agenda(y)[..j], EMPTY_LEDGER).outcomes == all[..at[j]]
  {
    hide Agenda, Decide, Supports;
    var tasks := Agenda(y);
    if j > 0 {
      var i := j - 1;
      ScheduleIsFollowed(y, r, all, at, i);
      LedgerFromOutcomes(y, r, i);
      SettleOneMore(y, r, tasks, i, EMPTY_LEDGER);
      AgendaIsOrderly(y);
      assert tasks[i] in tasks && TakesTurn(y, r, tasks[i], all, at[i], at[j]);
      DecisionIsExact(y, r, tasks[i], LedgerOf(all[..at[i]]));
    }
  }

  lemma {:induction false} OutcomeHasTask(x: Inputs, r: Rules, tasks: seq<Task>, i: nat) returns (j: nat)
    requires i < |Settle(x, r, tasks, EMPTY_LEDGER).outcomes|
    ensures j < |tasks|
    ensures |Settle(x, r, tasks[..j], EMPTY_LEDGER).outcomes| == i
    ensures Decide(x, r, tasks[j], Settle(x, r, tasks[..j], EMPTY_LEDGER)).Some?
  {
    var n := |tasks| - 1;
    var l := Settle(x, r, tasks[..n], EMPTY_LEDGER);
    if i < |l.outcomes| {
      j := OutcomeHasTask(x, r, tasks[..n], i);
      assert tasks[..n][..j] == tasks[..j];
    } else {
      j := n;
    }
  }

  /** Main result, soundness: each outcome is reported at the turn of some task j, and supported by the
      evidence of its rule, judged against exactly what the outcomes before it consumed. */
  lemma EveryOutcomeIsSupported(x: Inputs, r: Rules, i: nat) returns (j: nat)
    requires UniqueIds(x) && i < |Outcomes(x, r)|
    ensures j < |Agenda(SortInputs(x))|
    ensures var y, l := SortInputs(x), LedgerOf(Outcomes(x, r)[..i]);
      && Settle(y, r, Agenda(y)[..j], EMPTY_LEDGER) == l
      && Sound(y, Agenda(y)[j]) && Supports(y, r, l, Agenda(y)[j], Outcomes(x, r)[i])
  {
    var y := SortInputs(x);
    SortInputsKeepsUniqueness(x);
    AgendaIsOrderly(y);
    j := OutcomeHasTask(y, r, Agenda(y), i);
    var n := TurnOf(y, r, j);
    assert Agenda(y)[j] in Agenda(y);
    DecisionIsExact(y, r, Agenda(y)[j], LedgerOf(Outcomes(x, r)[..n]));
  }

  lemma {:induction false} GrossLessWithheldIsNet(g: seq<GatewayEntry>)
    requires forall e :: e in g ==> e.Consistent()
    ensures GrossTotal(g) - NetTotal(g) == WithheldTotal(g)
  {
    if g != [] {
      assert g[0] in g;
      GrossLessWithheldIsNet(g[1..]);
    }
  }

  lemma PayoutIsNet(x: Inputs, r: Rules, l: Ledger, t: Task, o: Outcome)
    requires Supports(x, r, l, t, o) && o.rule == GatewayNetToBank
    ensures t.Payout? && t.group != [] && o.gatewayIds == GatewayIds(t.group)
    ensures o.actual == o.expected == Some(NetTotal(t.group)) && o.difference == Some(0)
  {
  }

  /** A settlement match pays out gross less fees, taxes, refunds and chargebacks, plus adjustments. */
  lemma SettlementBalances(x: Inputs, r: Rules, i: nat) returns (g: seq<GatewayEntry>)
    requires UniqueIds(x) && i < |Outcomes(x, r)| && Outcomes(x, r)[i].rule == GatewayNetToBank
    requires forall e :: e in x.gateways ==> e.Consistent()
    ensures g != [] && Outcomes(x, r)[i].gatewayIds == GatewayIds(g)
    ensures forall e :: e in g <==> e in x.gateways && e.settlementId == g[0].settlementId
    ensures var o := Outcomes(x, r)[i];
      o.actual == o.expected == Some(GrossTotal(g) - WithheldTotal(g)) && o.difference == Some(0)
  {
    g := PayoutGroup(x, r, i);
    PayoutGroupIsWhole(x, g);
    GrossLessWithheldIsNet(g);
  }

  lemma PayoutGroup(x: Inputs, r: Rules, i: nat) returns (g: seq<GatewayEntry>)
    requires UniqueIds(x) && i < |Outcomes(x, r)| && Outcomes(x, r)[i].rule == GatewayNetToBank
    ensures Sound(SortInputs(x), Payout(g)) && g != []
    ensures var o := Outcomes(x, r)[i];
      o.gatewayIds == GatewayIds(g) && o.actual == o.expected == Some(NetTotal(g)) && o.difference == Some(0)
  {
    var j := EveryOutcomeIsSupported(x, r, i);
    var t := Agenda(SortInputs(x))[j];
    PayoutIsNet(SortInputs(x), r, LedgerOf(Outcomes(x, r)[..i]), t, Outcomes(x, r)[i]);
    g := t.group;
  }

  lemma PayoutGroupIsWhole(x: Inputs, g: seq<GatewayEntry>)
    requires Sound(SortInputs(x), Payout(g))
    ensures forall e :: e in g <==> e in x.gateways && e.settlementId == g[0].settlementId
  {
    SortIsPermutation(x.gateways, GatewayBefore);
    MembersAre(g[0].settlementId, SortInputs(x).gateways);
  }

  /** An entry without an invoice reference names exactly the invoices without a payment reference. */
  lemma AbsentReferenceNames(e: GatewayEntry, v: Invoice)
    ensures e.invoiceReference == None ==> (Names(e, v) <==> v.paymentReference == None)
    ensures e.invoiceReference.Some? ==>
      (Names(e, v) <==> e.invoiceReference.value in {v.id, v.number} || v.paymentReference == e.invoiceReference)
  {
  }
}
