/** Candidate generation for advisory inference: the k best, in key order, of the distinct admissible
    cross-source pairs of one run. */
module Candidates {
  import opened Ordering
  import opened Combinations

  datatype Source = BankSource | ErpSource | GatewaySource

  datatype Record = Record(
    organization: nat,
    run: nat,
    source: Source,
    id: string,
    amount: int,
    date: int,
    currency: string,
    references: seq<string>)

  /** `CandidateRecordSet`: the record ids by source. */
  datatype Identity = Identity(banks: seq<string>, invoices: seq<string>, gateways: seq<string>)

  datatype Candidate = Candidate(
    identity: Identity,
    reference: string,
    amountSimilarity: real,
    dateSimilarity: real,
    referenceSimilarity: real,
    currencyMatches: bool)

  /** Limits of the generator, and the numeric and hashing functions it relies on. */
  datatype Generator = Generator(
    maximumCandidates: nat,
    maximumDays: nat,
    maximumRatio: real,
    toFloat: real -> real,
    rounded: real -> real,
    normalized: seq<string> -> seq<string>,
    ratio: (string, string) -> real,
    opaqueReference: (nat, nat, Identity) -> string)

  /** What is asked for. */
  datatype Query = Query(organization: nat, run: nat, records: seq<Record>, excluded: set<string>)

  predicate InScope(q: Query, r: Record)
  {
    r.organization == q.organization && r.run == q.run && r.id !in q.excluded
  }

  function Scoped(q: Query, records: seq<Record>): seq<Record>
  {
    if records == [] then []
    else
      var rest := Scoped(q, records[1..]);
      if InScope(q, records[0]) then [records[0]] + rest else rest
  }

  function AbsInt(n: int): nat
  {
    if n < 0 then -n else n
  }

  function Larger(a: nat, b: nat): nat
  {
    if a < b then b else a
  }

  /** `_amount_difference_ratio`. */
  function AmountRatio(left: int, right: int): real
  {
    var denominator := Larger(AbsInt(left), AbsInt(right));
    if denominator == 0 then 0.0
    else
      var ratio := AbsInt(left - right) as real / denominator as real;
      if ratio > 1.0 then 1.0 else ratio
  }

  /** The three tests a pair has to pass. */
  predicate Admissible(g: Generator, left: Record, right: Record)
  {
    && left.source != right.source
    && AbsInt(left.date - right.date) <= g.maximumDays
    && AmountRatio(left.amount, right.amount) <= g.maximumRatio
  }

  function IdsFrom(source: Source, left: Record, right: Record): seq<string>
  {
    if left.source == source then [left.id] else if right.source == source then [right.id] else []
  }

  /** `_candidate_set` for records of different sources. */
  function IdentityOf(left: Record, right: Record): Identity
  {
    Identity(IdsFrom(BankSource, left, right), IdsFrom(ErpSource, left, right), IdsFrom(GatewaySource, left, right))
  }

  function RatiosOf(g: Generator, left: seq<string>, right: seq<string>): seq<real>
  {
    if left == [] then []
    else seq(|right|, i requires 0 <= i < |right| => g.ratio(left[0], right[i])) + RatiosOf(g, left[1..], right)
  }

  function Largest(values: seq<real>): real
    requires values != []
  {
    if |values| == 1 then values[0]
    else
      var rest := Largest(values[1..]);
      if rest < values[0] then values[0] else rest
  }

  lemma RatioCount(g: Generator, left: seq<string>, right: seq<string>)
    ensures left != [] && right != [] ==> RatiosOf(g, left, right) != []
  {
  }

  /** `_reference_similarity`. */
  function ReferenceSimilarity(g: Generator, left: seq<string>, right: seq<string>): real
  {
    var l, r := g.normalized(left), g.normalized(right);
    if l == [] || r == [] then 0.0
    else
      RatioCount(g, l, r);
      g.rounded(Largest(RatiosOf(g, l, r)))
  }

  function CandidateOf(g: Generator, q: Query, left: Record, right: Record): Candidate
  {
    var identity := IdentityOf(left, right);
    Candidate(
      identity,
      g.opaqueReference(q.organization, q.run, identity),
      g.toFloat(1.0 - AmountRatio(left.amount, right.amount)),
      if g.maximumDays == 0 then 1.0
      else g.rounded(1.0 - AbsInt(left.date - right.date) as real / g.maximumDays as real),
      ReferenceSimilarity(g, left.references, right.references),
      left.currency == right.currency)
  }

  /** The sort key: similarities descending, then the reference. */
  predicate KeyLe(a: Candidate, b: Candidate)
  {
    || a.amountSimilarity > b.amountSimilarity
    || (a.amountSimilarity == b.amountSimilarity
        && (a.dateSimilarity > b.dateSimilarity
            || (a.dateSimilarity == b.dateSimilarity
                && (a.referenceSimilarity > b.referenceSimilarity
                    || (a.referenceSimilarity == b.referenceSimilarity && StringLe(a.reference, b.reference))))))
  }

  datatype Pair = Pair(left: Record, right: Record)

  function PairAt(records: seq<Record>, t: seq<nat>): Pair
    requires |t| == 2 && Selection(t, 0, |records|)
  {
    assert t[0] < |records| && t[1] < |records|;
    Pair(records[t[0]], records[t[1]])
  }

  /** The records at the chosen positions. */
  function PairsAt(records: seq<Record>, chosen: seq<seq<nat>>): seq<Pair>
    requires forall t :: t in chosen ==> |t| == 2 && Selection(t, 0, |records|)
  {
    seq(|chosen|, i requires 0 <= i < |chosen| => PairAt(records, chosen[i]))
  }

  /** `combinations(records, 2)`. */
  function PairsOf(records: seq<Record>): seq<Pair>
  {
    SelectionsAreSound(0, |records|, 2);
    PairsAt(records, Selections(0, |records|, 2))
  }

  function IdentitiesOf(found: seq<Candidate>): set<Identity>
  {
    set c | c in found :: c.identity
  }

  /** What the loop has collected after these pairs: admissible ones, the first of each identity. */
  function Collected(g: Generator, q: Query, pairs: seq<Pair>): seq<Candidate>
  {
    if pairs == [] then []
    else
      var before, p := Collected(g, q, pairs[..|pairs| - 1]), pairs[|pairs| - 1];
      if Admissible(g, p.left, p.right) && IdentityOf(p.left, p.right) !in IdentitiesOf(before)
      then before + [CandidateOf(g, q, p.left, p.right)]
      else before
  }

  function AllCollected(g: Generator, q: Query): seq<Candidate>
  {
    Collected(g, q, PairsOf(Scoped(q, q.records)))
  }

  function Truncated(g: Generator, sorted: seq<Candidate>): seq<Candidate>
  {
    if g.maximumCandidates < |sorted| then sorted[..g.maximumCandidates] else sorted
  }

  /** What `generate` answers. */
  function Best(g: Generator, q: Query): seq<Candidate>
  {
    Truncated(g, Sort(AllCollected(g, q), KeyLe))
  }

  /** `ReconciliationCandidateGenerator.generate`. */
  method Generate(g: Generator, q: Query) returns (result: seq<Candidate>)
    ensures result == Best(g, q)
  {
    hide AmountRatio, ReferenceSimilarity, StringLe, Scoped, PairsOf;
    var pairs := PairsOf(Scoped(q, q.records));
    var generated: seq<Candidate> := [];
    var seen: set<Identity> := {};
    for i := 0 to |pairs|
      invariant generated == Collected(g, q, pairs[..i])
      invariant seen == IdentitiesOf(generated)
    {
      assert pairs[..i + 1][..i] == pairs[..i];
      var left, right := pairs[i].left, pairs[i].right;
      if left.source == right.source {
        continue;
      }
      if AbsInt(left.date - right.date) > g.maximumDays {
        continue;
      }
      if AmountRatio(left.amount, right.amount) > g.maximumRatio {
        continue;
      }
      var identity := IdentityOf(left, right);
      if identity in seen {
        continue;
      }
      seen := seen + {identity};
      generated := generated + [CandidateOf(g, q, left, right)];
    }
    assert pairs[..|pairs|] == pairs;
    result := Truncated(g, Sort(generated, KeyLe));
  }

  // What is collected.

  lemma {:induction false} ScopedAre(q: Query, records: seq<Record>)
    ensures forall r :: r in Scoped(q, records) <==> r in records && InScope(q, r)
  {
    if records != [] {
      ScopedAre(q, records[1..]);
      assert records == [records[0]] + records[1..];
    }
  }

  ghost predicate Precedes(records: seq<Record>, p: Pair, i: nat, j: nat)
  {
    i < j < |records| && records[i] == p.left && records[j] == p.right
  }

  lemma PairsAtAre(records: seq<Record>, chosen: seq<seq<nat>>, p: Pair)
    requires forall t :: t in chosen <==> |t| == 2 && Selection(t, 0, |records|)
    ensures p in PairsAt(records, chosen) <==> exists i: nat, j: nat :: Precedes(records, p, i, j)
  {
    var pairs := PairsAt(records, chosen);
    if p in pairs {
      var k :| 0 <= k < |chosen| && pairs[k] == p;
      assert chosen[k] in chosen;
      assert Precedes(records, p, chosen[k][0], chosen[k][1]);
    }
    if i: nat, j: nat :| Precedes(records, p, i, j) {
      var t := [i, j];
      assert |t| == 2 && Selection(t, 0, |records|);
      var k :| 0 <= k < |chosen| && chosen[k] == t;
      assert pairs[k] == p;
    }
  }

  /** The enumerator yields every two records in their order, and nothing else. */
  lemma PairsAre(records: seq<Record>, p: Pair)
    ensures p in PairsOf(records) <==> exists i: nat, j: nat :: Precedes(records, p, i, j)
  {
    var chosen := Selections(0, |records|, 2);
    SelectionsAreSound(0, |records|, 2);
    forall t: seq<nat> | |t| == 2 && Selection(t, 0, |records|) ensures t in chosen {
      SelectionsAreComplete(0, |records|, t);
    }
    PairsAtAre(records, chosen, p);
  }

  ghost predicate DistinctIdentities(found: seq<Candidate>)
  {
    forall i, j :: 0 <= i < j < |found| ==> found[i].identity != found[j].identity
  }

  ghost predicate Kept(g: Generator, p: Pair, found: seq<Candidate>)
  {
    Admissible(g, p.left, p.right) ==> IdentityOf(p.left, p.right) in IdentitiesOf(found)
  }

  ghost predicate Leads(g: Generator, q: Query, pairs: seq<Pair>, c: Candidate, i: nat)
  {
    && i < |pairs| && Admissible(g, pairs[i].left, pairs[i].right)
    && c == CandidateOf(g, q, pairs[i].left, pairs[i].right)
    && forall j :: 0 <= j < i && Admissible(g, pairs[j].left, pairs[j].right)
         ==> IdentityOf(pairs[j].left, pairs[j].right) != c.identity
  }

  ghost predicate Represented(g: Generator, p: Pair, found: seq<Candidate>)
  {
    MayPair(g, p.left, p.right) ==> exists c :: c in found && Identifies(c.identity, p.left, p.right)
  }

  /** Records of different sources, close in time, whose amounts differ by at most the allowed share of the
      larger one; a share of the whole allows any difference. */
  predicate MayPair(g: Generator, left: Record, right: Record)
  {
    && left.source != right.source
    && left.date - right.date <= g.maximumDays && right.date - left.date <= g.maximumDays
    && (g.maximumRatio >= 1.0
        || AbsInt(left.amount - right.amount) as real <= g.maximumRatio * Larger(AbsInt(left.amount), AbsInt(right.amount)) as real)
  }

  /** The ids of one source among the two records. */
  ghost predicate IdsOfSource(ids: seq<string>, source: Source, left: Record, right: Record)
  {
    && |ids| <= 1
    && forall id :: id in ids <==> (left.source == source && id == left.id) || (right.source == source && id == right.id)
  }

  ghost predicate Identifies(identity: Identity, left: Record, right: Record)
  {
    && IdsOfSource(identity.banks, BankSource, left, right)
    && IdsOfSource(identity.invoices, ErpSource, left, right)
    && IdsOfSource(identity.gateways, GatewaySource, left, right)
  }

  /** The best ratio of two normalised references, rounded; none when either side has no reference left. */
  ghost predicate MeasuresReferences(g: Generator, left: seq<string>, right: seq<string>, similarity: real)
  {
    var l, r := g.normalized(left), g.normalized(right);
    if l == [] || r == [] then similarity == 0.0
    else exists a, b ::
      && a in l && b in r && similarity == g.rounded(g.ratio(a, b))
      && forall c, d :: c in l && d in r ==> g.ratio(c, d) <= g.ratio(a, b)
  }

  /** What a candidate says of the two records. */
  ghost predicate Describes(g: Generator, q: Query, c: Candidate, left: Record, right: Record)
  {
    && Identifies(c.identity, left, right)
    && c.reference == g.opaqueReference(q.organization, q.run, c.identity)
    && c.amountSimilarity == g.toFloat(1.0 - AmountRatio(left.amount, right.amount))
    && (left.amount == right.amount ==> c.amountSimilarity == g.toFloat(1.0))
    && (g.maximumDays == 0 || left.date == right.date ==> c.dateSimilarity == if g.maximumDays == 0 then 1.0 else g.rounded(1.0))
    && (g.maximumDays != 0 && left.date <= right.date ==>
          c.dateSimilarity == g.rounded(1.0 - (right.date - left.date) as real / g.maximumDays as real))
    && (g.maximumDays != 0 && right.date <= left.date ==>
          c.dateSimilarity == g.rounded(1.0 - (left.date - right.date) as real / g.maximumDays as real))
    && MeasuresReferences(g, left.references, right.references, c.referenceSimilarity)
    && (c.currencyMatches <==> left.currency == right.currency)
  }

  lemma AdmissibleExactly(g: Generator, left: Record, right: Record)
    requires 0.0 <= g.maximumRatio
    ensures Admissible(g, left, right) <==> MayPair(g, left, right)
  {
    hide AmountRatio, Larger;
    AmountRatioIsExact(left.amount, right.amount, g.maximumRatio);
  }

  lemma {:induction false} RatiosAre(g: Generator, left: seq<string>, right: seq<string>)
    ensures forall x :: x in RatiosOf(g, left, right) <==> exists a, b :: a in left && b in right && x == g.ratio(a, b)
  {
    if left != [] {
      var row := seq(|right|, i requires 0 <= i < |right| => g.ratio(left[0], right[i]));
      RatiosAre(g, left[1..], right);
      assert left == [left[0]] + left[1..];
      forall b | b in right ensures g.ratio(left[0], b) in row {
        var i :| 0 <= i < |right| && right[i] == b;
        assert row[i] == g.ratio(left[0], b);
      }
    }
  }

  lemma {:induction false} LargestIs(values: seq<real>)
    requires values != []
    ensures Largest(values) in values && forall x :: x in values ==> x <= Largest(values)
  {
    if |values| > 1 {
      LargestIs(values[1..]);
      assert values == [values[0]] + values[1..];
    }
  }

  lemma SimilarityMeasures(g: Generator, left: seq<string>, right: seq<string>)
    ensures MeasuresReferences(g, left, right, ReferenceSimilarity(g, left, right))
  {
    var l, r := g.normalized(left), g.normalized(right);
    if l != [] && r != [] {
      RatioCount(g, l, r);
      var all := RatiosOf(g, l, r);
      RatiosAre(g, l, r);
      LargestIs(all);
      var a, b :| a in l && b in r && Largest(all) == g.ratio(a, b);
      forall c, d | c in l && d in r ensures g.ratio(c, d) <= g.ratio(a, b) {
        var x := g.ratio(c, d);
        assert x in all;
        assert x <= Largest(all);
      }
    }
  }

  lemma CandidateDescribes(g: Generator, q: Query, left: Record, right: Record)
    requires left.source != right.source
    ensures Describes(g, q, CandidateOf(g, q, left, right), left, right)
    ensures CandidateOf(g, q, left, right).identity == IdentityOf(left, right)
  {
    SimilarityMeasures(g, left.references, right.references);
  }

  /** c stands for an admissible pair, the first of its identity. */
  ghost predicate Stands(g: Generator, q: Query, pairs: seq<Pair>, c: Candidate, i: nat)
  {
    && i < |pairs| && MayPair(g, pairs[i].left, pairs[i].right)
    && Describes(g, q, c, pairs[i].left, pairs[i].right)
    && forall j :: 0 <= j < i && MayPair(g, pairs[j].left, pairs[j].right)
         ==> !Identifies(c.identity, pairs[j].left, pairs[j].right)
  }

  /** A pair of records has one identity. */
  lemma IdentityIsUnique(left: Record, right: Record, identity: Identity)
    requires left.source != right.source
    ensures Identifies(identity, left, right) <==> identity == IdentityOf(left, right)
  {
    assert Identifies(IdentityOf(left, right), left, right);
    if Identifies(identity, left, right) {
      SameIds(identity.banks, IdentityOf(left, right).banks);
      SameIds(identity.invoices, IdentityOf(left, right).invoices);
      SameIds(identity.gateways, IdentityOf(left, right).gateways);
    }
  }

  lemma SameIds(s: seq<string>, t: seq<string>)
    requires |s| <= 1 && |t| <= 1 && forall id :: id in s <==> id in t
    ensures s == t
  {
    if s != [] {
      assert s[0] in t;
    }
    if t != [] {
      assert t[0] in s;
    }
  }

  /** Each identity once, */
  lemma {:induction false} CollectedAreDistinct(g: Generator, q: Query, pairs: seq<Pair>)
    ensures DistinctIdentities(Collected(g, q, pairs))
  {
    if pairs != [] {
      CollectedAreDistinct(g, q, pairs[..|pairs| - 1]);
    }
  }

  /** each admissible pair represented, */
  lemma {:induction false} CollectedAreComplete(g: Generator, q: Query, pairs: seq<Pair>)
    ensures forall p :: p in pairs ==> Kept(g, p, Collected(g, q, pairs))
  {
    if pairs != [] {
      var n := |pairs| - 1;
      var before, all := Collected(g, q, pairs[..n]), Collected(g, q, pairs);
      CollectedAreComplete(g, q, pairs[..n]);
      assert pairs == pairs[..n] + [pairs[n]];
      assert before <= all;
      assert IdentitiesOf(before) <= IdentitiesOf(all);
      if |all| > |before| {
        assert all[|before|] in all;
      }
    }
  }

  /** and each by its first pair. */
  lemma {:induction false} CollectedAreFirst(g: Generator, q: Query, pairs: seq<Pair>, c: Candidate) returns (i: nat)
    requires c in Collected(g, q, pairs)
    ensures Leads(g, q, pairs, c, i)
  {
    var n := |pairs| - 1;
    var before := Collected(g, q, pairs[..n]);
    if c in before {
      i := CollectedAreFirst(g, q, pairs[..n], c);
    } else {
      i := n;
      CollectedAreComplete(g, q, pairs[..n]);
      forall j | 0 <= j < n && Admissible(g, pairs[j].left, pairs[j].right)
        ensures IdentityOf(pairs[j].left, pairs[j].right) != c.identity
      {
        assert pairs[..n][j] in pairs[..n];
      }
    }
  }

  lemma KeyLeIsTotalPreorder()
    ensures TotalPreorder(KeyLe)
  {
    StringLeIsTotalPreorder();
    assert forall a, b :: StringLe(a, b) || StringLe(b, a);
    assert forall a, b, c :: StringLe(a, b) && StringLe(b, c) ==> StringLe(a, c);
  }

  lemma LeaderStands(g: Generator, q: Query, pairs: seq<Pair>, c: Candidate, i: nat)
    requires 0.0 <= g.maximumRatio && Leads(g, q, pairs, c, i)
    ensures Stands(g, q, pairs, c, i)
  {
    hide Admissible, MayPair, Describes, Identifies, CandidateOf, IdentityOf;
    AdmissibleExactly(g, pairs[i].left, pairs[i].right);
    AdmissiblePairsDiffer(g, pairs[i].left, pairs[i].right);
    CandidateDescribes(g, q, pairs[i].left, pairs[i].right);
    forall j | 0 <= j < i && MayPair(g, pairs[j].left, pairs[j].right)
      ensures !Identifies(c.identity, pairs[j].left, pairs[j].right)
    {
      AdmissibleExactly(g, pairs[j].left, pairs[j].right);
      AdmissiblePairsDiffer(g, pairs[j].left, pairs[j].right);
      IdentityIsUnique(pairs[j].left, pairs[j].right, c.identity);
    }
  }

  lemma AdmissiblePairsDiffer(g: Generator, left: Record, right: Record)
    ensures Admissible(g, left, right) ==> left.source != right.source
  {
  }

  lemma KeptIsRepresented(g: Generator, p: Pair, found: seq<Candidate>)
    requires 0.0 <= g.maximumRatio && Kept(g, p, found)
    ensures Represented(g, p, found)
  {
    AdmissibleExactly(g, p.left, p.right);
    if MayPair(g, p.left, p.right) {
      IdentityIsUnique(p.left, p.right, IdentityOf(p.left, p.right));
      var c :| c in found && c.identity == IdentityOf(p.left, p.right);
    }
  }

  /** Main result, soundness and completeness before truncation: the candidates describe the pairs of records
      in scope that may be paired, each identity once and by its first pair, and leave out none. */
  lemma CandidatesAreAdmissiblePairs(g: Generator, q: Query, scoped: seq<Record>, found: seq<Candidate>)
    requires 0.0 <= g.maximumRatio
    requires scoped == Scoped(q, q.records) && found == AllCollected(g, q)
    ensures DistinctIdentities(found)
    ensures forall c :: c in found ==> exists i :: Stands(g, q, PairsOf(scoped), c, i)
    ensures forall p, i: nat, j: nat :: Precedes(scoped, p, i, j) ==> Represented(g, p, found)
    ensures forall r :: r in scoped <==>
      r in q.records && r.organization == q.organization && r.run == q.run && r.id !in q.excluded
  {
    var pairs := PairsOf(scoped);
    ScopedAre(q, q.records);
    CollectedAreDistinct(g, q, pairs);
    CollectedAreComplete(g, q, pairs);
    hide Stands, Leads, Kept, Represented, Collected, Scoped, PairsOf;
    forall c | c in found ensures exists i :: Stands(g, q, pairs, c, i) {
      var i := CollectedAreFirst(g, q, pairs, c);
      LeaderStands(g, q, pairs, c, i);
    }
    forall p, i: nat, j: nat | Precedes(scoped, p, i, j) ensures Represented(g, p, found) {
      PairsAre(scoped, p);
      KeptIsRepresented(g, p, found);
    }
  }

  lemma TruncationIsTop(g: Generator, all: seq<Candidate>, sorted: seq<Candidate>) returns (rest: seq<Candidate>)
    requires Sorted(sorted, KeyLe) && multiset(sorted) == multiset(all)
    ensures var best := Truncated(g, sorted);
      && multiset(best) + multiset(rest) == multiset(all)
      && |best| == (if g.maximumCandidates < |all| then g.maximumCandidates else |all|)
      && Sorted(best, KeyLe)
      && forall c, d :: c in best && d in rest ==> KeyLe(c, d)
  {
    var best := Truncated(g, sorted);
    SameMembers(sorted, all);
    rest := sorted[|best|..];
    assert sorted == best + rest;
  }

  /** a is listed no later than b: the higher amount similarity first, then the higher date similarity, then
      the higher reference similarity, then the smaller reference. */
  ghost predicate NoLater(a: Candidate, b: Candidate)
  {
    if a.amountSimilarity != b.amountSimilarity then a.amountSimilarity > b.amountSimilarity
    else if a.dateSimilarity != b.dateSimilarity then a.dateSimilarity > b.dateSimilarity
    else if a.referenceSimilarity != b.referenceSimilarity then a.referenceSimilarity > b.referenceSimilarity
    else StringLe(a.reference, b.reference)
  }

  lemma KeyLeIsNoLater(a: Candidate, b: Candidate)
    ensures KeyLe(a, b) <==> NoLater(a, b)
  {
  }

  /** Main result: the answer is what is left of all candidates when the rest is dropped: as many as allowed,
      in order, and none of the dropped ones would be listed before one that is returned. */
  lemma BestAreTop(g: Generator, q: Query) returns (rest: seq<Candidate>)
    ensures var all := AllCollected(g, q);
      && multiset(Best(g, q)) + multiset(rest) == multiset(all)
      && |Best(g, q)| == (if g.maximumCandidates < |all| then g.maximumCandidates else |all|)
    ensures forall i, j :: 0 <= i < j < |Best(g, q)| ==> NoLater(Best(g, q)[i], Best(g, q)[j])
    ensures forall c, d :: c in Best(g, q) && d in rest ==> NoLater(c, d)
  {
    var all := AllCollected(g, q);
    KeyLeIsTotalPreorder();
    SortIsSorted(all, KeyLe);
    SortIsPermutation(all, KeyLe);
    rest := TruncationIsTop(g, all, Sort(all, KeyLe));
    forall c, d ensures KeyLe(c, d) <==> NoLater(c, d) {
      KeyLeIsNoLater(c, d);
    }
  }

  /** The ratio test is the comparison of the difference with a share of the larger amount; a share of
      the whole admits everything. */
  lemma AmountRatioIsExact(left: int, right: int, limit: real)
    requires 0.0 <= limit
    ensures 0.0 <= AmountRatio(left, right) <= 1.0
    ensures AmountRatio(left, right) <= limit
      <==> limit >= 1.0 || AbsInt(left - right) as real <= limit * Larger(AbsInt(left), AbsInt(right)) as real
  {
    var difference, denominator := AbsInt(left - right), Larger(AbsInt(left), AbsInt(right));
    if denominator != 0 {
      QuotientIsExact(difference as real, denominator as real, limit);
      QuotientIsExact(difference as real, denominator as real, 1.0);
    }
  }

  lemma QuotientIsExact(a: real, b: real, limit: real)
    requires b > 0.0
    ensures a / b <= limit <==> a <= limit * b
  {
    assert a == a / b * b;
  }
}
