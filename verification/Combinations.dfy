/** The bounded subset-sum search of the engine: `itertools.combinations` over positions,
    and the search that accepts a size only when exactly one selection of it hits the target. */
module Combinations {

  /** A selection names positions of an n-element list in increasing order. */
  ghost predicate Selection(t: seq<nat>, lo: nat, n: nat)
  {
    && (forall i :: 0 <= i < |t| ==> lo <= t[i] < n)
    && (forall i, j :: 0 <= i < j < |t| ==> t[i] < t[j])
  }

  function Prepend(x: nat, tuples: seq<seq<nat>>): seq<seq<nat>>
  {
    if tuples == [] then [] else [[x] + tuples[0]] + Prepend(x, tuples[1..])
  }

  /** All size-element selections of positions lo..n, in the order itertools yields them. */
  function Selections(lo: nat, n: nat, size: nat): seq<seq<nat>>
    decreases n - lo, size
  {
    if size == 0 then [[]]
    else if lo >= n then []
    else Prepend(lo, Selections(lo + 1, n, size - 1)) + Selections(lo + 1, n, size)
  }

  function PickedSum(amounts: seq<int>, t: seq<nat>): int
    requires forall i :: 0 <= i < |t| ==> t[i] < |amounts|
  {
    if t == [] then 0 else amounts[t[0]] + PickedSum(amounts, t[1..])
  }

  ghost predicate Distinct<T(!new)>(s: seq<T>)
  {
    forall i, j :: 0 <= i < j < |s| ==> s[i] != s[j]
  }

  lemma DistinctCons<T(!new)>(x: T, s: seq<T>)
    requires Distinct(s) && x !in s
    ensures Distinct([x] + s)
  {
    forall i, j | 0 <= i < j < |s| + 1 ensures ([x] + s)[i] != ([x] + s)[j] {
      assert ([x] + s)[j] == s[j - 1] && s[j - 1] in s;
    }
  }

  lemma DistinctSnoc<T(!new)>(s: seq<T>, x: T)
    requires Distinct(s) && x !in s
    ensures Distinct(s + [x])
  {
    forall i, j | 0 <= i < j < |s| + 1 ensures (s + [x])[i] != (s + [x])[j] {
      assert (s + [x])[i] == s[i] && s[i] in s;
    }
  }

  lemma {:induction false} PrependAt(x: nat, tuples: seq<seq<nat>>)
    ensures |Prepend(x, tuples)| == |tuples|
    ensures forall i :: 0 <= i < |tuples| ==> Prepend(x, tuples)[i] == [x] + tuples[i]
  {
    if tuples != [] {
      PrependAt(x, tuples[1..]);
    }
  }

  lemma SelectionCons(lo: nat, n: nat, t: seq<nat>)
    requires lo < n && Selection(t, lo + 1, n)
    ensures Selection([lo] + t, lo, n)
  {
  }

  /** The enumerator yields selections only, */
  lemma {:induction false} SelectionsAreSound(lo: nat, n: nat, size: nat)
    ensures forall t :: t in Selections(lo, n, size) ==> |t| == size && Selection(t, lo, n)
    decreases n - lo, size
  {
    if size != 0 && lo < n {
      var heads := Selections(lo + 1, n, size - 1);
      SelectionsAreSound(lo + 1, n, size - 1);
      SelectionsAreSound(lo + 1, n, size);
      PrependAt(lo, heads);
      forall t | t in Selections(lo, n, size) ensures |t| == size && Selection(t, lo, n) {
        if t in Prepend(lo, heads) {
          var i :| 0 <= i < |heads| && t == [lo] + heads[i];
          assert heads[i] in heads;
          SelectionCons(lo, n, heads[i]);
        } else {
          assert t in Selections(lo + 1, n, size);
        }
      }
    }
  }

  lemma SelectionTail(lo: nat, n: nat, t: seq<nat>)
    requires t != [] && Selection(t, lo, n)
    ensures lo < n && (if t[0] == lo then Selection(t[1..], lo + 1, n) else Selection(t, lo + 1, n))
  {
    assert lo <= t[0] < n;
  }

  /** yields every selection, */
  lemma {:induction false} SelectionsAreComplete(lo: nat, n: nat, t: seq<nat>)
    requires Selection(t, lo, n)
    ensures t in Selections(lo, n, |t|)
    decreases n - lo, |t|
  {
    if t != [] {
      var heads := Selections(lo + 1, n, |t| - 1);
      SelectionTail(lo, n, t);
      if t[0] == lo {
        SelectionsAreComplete(lo + 1, n, t[1..]);
        PrependAt(lo, heads);
        var i :| 0 <= i < |heads| && heads[i] == t[1..];
        assert Prepend(lo, heads)[i] == t;
      } else {
        SelectionsAreComplete(lo + 1, n, t);
      }
    }
  }

  /** and yields none of them twice. */
  lemma {:induction false} SelectionsAreDistinct(lo: nat, n: nat, size: nat)
    ensures Distinct(Selections(lo, n, size))
    decreases n - lo, size
  {
    if size != 0 && lo < n {
      var heads, tails := Selections(lo + 1, n, size - 1), Selections(lo + 1, n, size);
      SelectionsAreDistinct(lo + 1, n, size - 1);
      SelectionsAreDistinct(lo + 1, n, size);
      SelectionsAreSound(lo + 1, n, size);
      PrependAt(lo, heads);
      var all := Selections(lo, n, size);
      forall i, j | 0 <= i < j < |all| ensures all[i] != all[j] {
        if j < |heads| {
          assert heads[i] == all[i][1..] && heads[j] == all[j][1..];
        } else if i < |heads| {
          assert all[j] == tails[j - |heads|] && all[j] in tails;
          assert all[i][0] == lo;
        }
      }
    }
  }

  /** The selections of `tuples` that sum to the target, in order: one list comprehension. */
  function Hitting(amounts: seq<int>, target: int, tuples: seq<seq<nat>>): seq<seq<nat>>
    requires forall t :: t in tuples ==> forall i :: 0 <= i < |t| ==> t[i] < |amounts|
  {
    if tuples == [] then []
    else
      var rest := Hitting(amounts, target, tuples[1..]);
      if PickedSum(amounts, tuples[0]) == target then [tuples[0]] + rest else rest
  }

  lemma {:induction false} HittingKeepsMembers(amounts: seq<int>, target: int, tuples: seq<seq<nat>>)
    requires forall t :: t in tuples ==> forall i :: 0 <= i < |t| ==> t[i] < |amounts|
    requires Distinct(tuples)
    ensures forall t :: t in Hitting(amounts, target, tuples) <==> t in tuples && PickedSum(amounts, t) == target
    ensures Distinct(Hitting(amounts, target, tuples))
  {
    if tuples != [] {
      HittingKeepsMembers(amounts, target, tuples[1..]);
      assert tuples == [tuples[0]] + tuples[1..];
      assert tuples[0] !in tuples[1..];
    }
  }

  function Solutions(amounts: seq<int>, target: int, size: nat): seq<seq<nat>>
  {
    SelectionsAreSound(0, |amounts|, size);
    Hitting(amounts, target, Selections(0, |amounts|, size))
  }

  ghost predicate Solves(amounts: seq<int>, target: int, size: nat, t: seq<nat>)
  {
    |t| == size && Selection(t, 0, |amounts|) && PickedSum(amounts, t) == target
  }

  /** t is the one selection of its size that sums to the target. */
  ghost predicate SoleSolution(amounts: seq<int>, target: int, size: nat, t: seq<nat>)
  {
    Solves(amounts, target, size, t) && forall u :: Solves(amounts, target, size, u) ==> u == t
  }

  lemma SolutionsAreExact(amounts: seq<int>, target: int, size: nat)
    ensures Distinct(Solutions(amounts, target, size))
    ensures forall t :: t in Solutions(amounts, target, size) <==> Solves(amounts, target, size, t)
  {
    var all := Selections(0, |amounts|, size);
    SelectionsAreSound(0, |amounts|, size);
    SelectionsAreDistinct(0, |amounts|, size);
    HittingKeepsMembers(amounts, target, all);
    forall t | Solves(amounts, target, size, t) ensures t in all {
      SelectionsAreComplete(0, |amounts|, t);
    }
  }

  /** "One match in the list" is "one solution exists". */
  lemma OneMatchIsSoleSolution(amounts: seq<int>, target: int, size: nat)
    ensures |Solutions(amounts, target, size)| == 1 <==> exists t :: SoleSolution(amounts, target, size, t)
    ensures |Solutions(amounts, target, size)| == 1
        ==> SoleSolution(amounts, target, size, Solutions(amounts, target, size)[0])
  {
    var found := Solutions(amounts, target, size);
    SolutionsAreExact(amounts, target, size);
    if |found| == 1 {
      assert found[0] in found;
      assert SoleSolution(amounts, target, size, found[0]);
    }
    if t :| SoleSolution(amounts, target, size, t) {
      assert t in found;
      if |found| > 1 {
        assert found[0] in found && found[1] in found;
      }
    }
  }

  /** t is the one selection of its size that hits the target, within the bounds of the search, and no
      smaller size has just one. */
  ghost predicate SmallestSole(amounts: seq<int>, target: int, maximumGroupSize: nat, t: seq<nat>)
  {
    && 2 <= |t| <= |amounts| && |t| <= maximumGroupSize
    && SoleSolution(amounts, target, |t|, t)
    && forall k, u :: 2 <= k < |t| ==> !SoleSolution(amounts, target, k, u)
  }

  function SearchFrom(amounts: seq<int>, target: int, size: nat, limit: nat): seq<nat>
    decreases limit + 1 - size
  {
    if size > limit then []
    else if |Solutions(amounts, target, size)| == 1 then Solutions(amounts, target, size)[0]
    else SearchFrom(amounts, target, size + 1, limit)
  }

  function SizeLimit(n: nat, maximumGroupSize: nat): nat
  {
    if n < maximumGroupSize then n else maximumGroupSize
  }

  /** `_matching_combination` and `_matching_bank_combination`, on positions. */
  function MatchingCombination(amounts: seq<int>, target: int, maximumGroupSize: nat): seq<nat>
  {
    SearchFrom(amounts, target, 2, SizeLimit(|amounts|, maximumGroupSize))
  }

  lemma {:induction false} SearchIsExact(amounts: seq<int>, target: int, size: nat, limit: nat)
    requires size >= 1
    ensures var c := SearchFrom(amounts, target, size, limit);
      && (c != [] ==> size <= |c| <= limit && SoleSolution(amounts, target, |c|, c))
      && (forall k, t :: size <= k <= limit && (c == [] || k < |c|) ==> !SoleSolution(amounts, target, k, t))
    decreases limit + 1 - size
  {
    if size <= limit {
      OneMatchIsSoleSolution(amounts, target, size);
      if |Solutions(amounts, target, size)| != 1 {
        SearchIsExact(amounts, target, size + 1, limit);
      }
    }
  }

  /** The loop both source methods run; sound, complete, smallest size first. */
  method FindCombination(amounts: seq<int>, target: int, maximumGroupSize: nat) returns (chosen: seq<nat>)
    ensures chosen == MatchingCombination(amounts, target, maximumGroupSize)
    ensures chosen != [] ==> SmallestSole(amounts, target, maximumGroupSize, chosen)
    ensures chosen == [] ==> forall t :: !SmallestSole(amounts, target, maximumGroupSize, t)
    ensures forall k, t ::
        2 <= k <= |amounts| && k <= maximumGroupSize && (chosen == [] || k < |chosen|)
        ==> !SoleSolution(amounts, target, k, t)
  {
    ghost var limit := SizeLimit(|amounts|, maximumGroupSize);
    SearchIsExact(amounts, target, 2, limit);
    var size := 2;
    while size <= SizeLimit(|amounts|, maximumGroupSize)
      invariant 2 <= size
      invariant SearchFrom(amounts, target, 2, limit) == SearchFrom(amounts, target, size, limit)
      decreases limit + 1 - size
    {
      var matches := Solutions(amounts, target, size);
      if |matches| == 1 {
        return matches[0];
      }
      size := size + 1;
    }
    return [];
  }
}
