/** Total orders, a stable sort, and the two facts the engine needs about sorting:
    a sorted arrangement without ties is unique, and one more element only opens a gap. */
module Ordering {

  datatype Option<+T> = None | Some(value: T)

  /** Code-point order on strings, the order Python compares identifiers with. */
  predicate StringLe(a: string, b: string)
  {
    a == "" || (b != "" && (a[0] < b[0] || (a[0] == b[0] && StringLe(a[1..], b[1..]))))
  }

  lemma {:induction false} StringLeTotal(a: string, b: string)
    ensures StringLe(a, b) || StringLe(b, a)
  {
    if a != "" && b != "" && a[0] == b[0] {
      StringLeTotal(a[1..], b[1..]);
    }
  }

  lemma {:induction false} StringLeAntisymmetric(a: string, b: string)
    requires StringLe(a, b) && StringLe(b, a)
    ensures a == b
  {
    if a != "" {
      StringLeAntisymmetric(a[1..], b[1..]);
      assert a == [a[0]] + a[1..] && b == [b[0]] + b[1..];
    }
  }

  lemma {:induction false} StringLeTransitive(a: string, b: string, c: string)
    requires StringLe(a, b) && StringLe(b, c)
    ensures StringLe(a, c)
  {
    if a != "" && a[0] == b[0] && b[0] == c[0] {
      StringLeTransitive(a[1..], b[1..], c[1..]);
    }
  }

  /** a comes no later exactly when it is a prefix of b, or has the smaller character at the first
      position where they differ. */
  lemma {:induction false} StringLeIsByFirstDifference(a: string, b: string)
    ensures StringLe(a, b) <==> a <= b || exists k :: DifferFirstAt(a, b, k) && a[k] < b[k]
  {
    if a != "" && b != "" {
      StringLeIsByFirstDifference(a[1..], b[1..]);
      if a[0] == b[0] {
        assert a <= b <==> a[1..] <= b[1..];
        if k :| DifferFirstAt(a[1..], b[1..], k) && a[1..][k] < b[1..][k] {
          assert a[..k + 1] == [a[0]] + a[1..][..k] && b[..k + 1] == [b[0]] + b[1..][..k];
          assert DifferFirstAt(a, b, k + 1);
        }
        if k :| DifferFirstAt(a, b, k) && a[k] < b[k] {
          assert a[..k][1..] == a[1..][..k - 1] && b[..k][1..] == b[1..][..k - 1];
          assert DifferFirstAt(a[1..], b[1..], k - 1);
        }
      } else {
        assert a[..0] == b[..0];
        assert DifferFirstAt(a, b, 0);
      }
    }
  }

  ghost predicate DifferFirstAt(a: string, b: string, k: int)
  {
    0 <= k < |a| && k < |b| && a[..k] == b[..k] && a[k] != b[k]
  }

  /** A total preorder: what a sort key induces on the records it is taken from. */
  ghost predicate TotalPreorder<T(!new)>(le: (T, T) -> bool)
  {
    && (forall x, y :: le(x, y) || le(y, x))
    && (forall x, y, z :: le(x, y) && le(y, z) ==> le(x, z))
  }

  lemma StringLeIsTotalPreorder()
    ensures TotalPreorder(StringLe)
  {
    forall a, b ensures StringLe(a, b) || StringLe(b, a) { StringLeTotal(a, b); }
    forall a, b, c | StringLe(a, b) && StringLe(b, c) ensures StringLe(a, c) { StringLeTransitive(a, b, c); }
  }

  /** No two distinct members of s tie. */
  ghost predicate Tieless<T>(s: seq<T>, le: (T, T) -> bool)
  {
    forall x, y :: x in s && y in s && le(x, y) && le(y, x) ==> x == y
  }

  ghost predicate Sorted<T>(s: seq<T>, le: (T, T) -> bool)
  {
    forall i, j :: 0 <= i < j < |s| ==> le(s[i], s[j])
  }

  /** Each member strictly before the next. */
  ghost predicate Ascending<T>(s: seq<T>, lt: (T, T) -> bool)
  {
    forall i, j :: 0 <= i < j < |s| ==> lt(s[i], s[j])
  }

  ghost predicate Asymmetric<T(!new)>(lt: (T, T) -> bool)
  {
    forall x, y :: lt(x, y) ==> !lt(y, x)
  }

  lemma HasMember<T(!new)>(s: seq<T>)
    requires s != []
    ensures exists x :: x in s
  {
    assert s[0] in s;
  }

  /** Members can be arranged in ascending order in one way only. */
  lemma {:induction false} AscendingIsUnique<T(!new)>(s: seq<T>, t: seq<T>, lt: (T, T) -> bool)
    requires Asymmetric(lt) && Ascending(s, lt) && Ascending(t, lt)
    requires forall x :: x in s <==> x in t
    ensures s == t
  {
    if s == [] {
      if t != [] {
        HasMember(t);
      }
    } else {
      assert s[0] in t && t != [] && t[0] in s;
      var i :| 0 <= i < |t| && t[i] == s[0];
      var j :| 0 <= j < |s| && s[j] == t[0];
      assert s[0] == t[0];
      forall x ensures x in s[1..] <==> x in t[1..] {
        TailOfAscending(s, lt, x);
        TailOfAscending(t, lt, x);
      }
      AscendingIsUnique(s[1..], t[1..], lt);
      assert s == [s[0]] + s[1..] && t == [t[0]] + t[1..];
    }
  }

  lemma TailOfAscending<T(!new)>(s: seq<T>, lt: (T, T) -> bool, x: T)
    requires Asymmetric(lt) && Ascending(s, lt) && s != []
    ensures x in s[1..] <==> x in s && x != s[0]
  {
    if x in s[1..] {
      var i :| 0 <= i < |s[1..]| && s[1..][i] == x;
      assert lt(s[0], s[i + 1]);
    }
    if x in s && x != s[0] {
      var i :| 0 <= i < |s| && s[i] == x;
      assert s[1..][i - 1] == x;
    }
  }

  function Insert<T>(x: T, s: seq<T>, le: (T, T) -> bool): seq<T>
  {
    if s == [] || le(x, s[0]) then [x] + s else [s[0]] + Insert(x, s[1..], le)
  }

  /** Stable insertion sort, standing for Python's `sorted`. */
  function Sort<T>(s: seq<T>, le: (T, T) -> bool): seq<T>
  {
    if s == [] then [] else Insert(s[0], Sort(s[1..], le), le)
  }

  /** Inserting opens one gap and leaves the rest in place. */
  lemma {:induction false} InsertOpensGap<T>(x: T, s: seq<T>, le: (T, T) -> bool) returns (k: nat)
    ensures k <= |s| && Insert(x, s, le) == s[..k] + [x] + s[k..]
    ensures forall i :: 0 <= i < k ==> !le(x, s[i])
    ensures k < |s| ==> le(x, s[k])
  {
    if s == [] || le(x, s[0]) {
      k := 0;
    } else {
      k := InsertOpensGap(x, s[1..], le);
      assert s[..k + 1] == [s[0]] + s[1..][..k] && s[k + 1..] == s[1..][k..];
      k := k + 1;
    }
  }

  lemma {:induction false} SortIsPermutation<T>(s: seq<T>, le: (T, T) -> bool)
    ensures multiset(Sort(s, le)) == multiset(s)
    ensures |Sort(s, le)| == |s|
    ensures forall x :: x in Sort(s, le) <==> x in s
  {
    if s != [] {
      var rest := Sort(s[1..], le);
      SortIsPermutation(s[1..], le);
      var k := InsertOpensGap(s[0], rest, le);
      assert rest == rest[..k] + rest[k..];
      assert s == [s[0]] + s[1..];
      assert multiset(Sort(s, le)) == multiset(s);
    }
    SameMembers(Sort(s, le), s);
  }

  lemma SameMembers<T>(s: seq<T>, t: seq<T>)
    requires multiset(s) == multiset(t)
    ensures |s| == |t|
    ensures forall x :: x in s <==> x in t
  {
    assert |s| == |multiset(s)| && |t| == |multiset(t)|;
    forall x ensures x in s <==> x in t {
      assert x in s <==> x in multiset(s);
      assert x in t <==> x in multiset(t);
    }
  }

  lemma {:induction false} SortIsSorted<T(!new)>(s: seq<T>, le: (T, T) -> bool)
    requires TotalPreorder(le)
    ensures Sorted(Sort(s, le), le)
  {
    if s != [] {
      var rest := Sort(s[1..], le);
      SortIsSorted(s[1..], le);
      var k := InsertOpensGap(s[0], rest, le);
      var all := Sort(s, le);
      forall i, j | 0 <= i < j < |all| ensures le(all[i], all[j]) {
        if k <= i && k < |rest| {
          assert le(s[0], rest[k]);
        }
      }
    }
  }

  /** A tieless collection has only one sorted arrangement. */
  lemma {:induction false} SortedIsUnique<T(!new)>(s: seq<T>, t: seq<T>, le: (T, T) -> bool)
    requires TotalPreorder(le) && Tieless(s, le)
    requires Sorted(s, le) && Sorted(t, le) && multiset(s) == multiset(t)
    ensures s == t
  {
    SameMembers(s, t);
    if s != [] {
      FirstIsLeast(s, t[0], le);
      FirstIsLeast(t, s[0], le);
      TailMultiset(s);
      TailMultiset(t);
      SortedIsUnique(s[1..], t[1..], le);
      assert s == [s[0]] + s[1..] && t == [t[0]] + t[1..];
    }
  }

  lemma FirstIsLeast<T(!new)>(s: seq<T>, x: T, le: (T, T) -> bool)
    requires TotalPreorder(le) && Sorted(s, le) && x in s
    ensures le(s[0], x)
  {
    var i :| 0 <= i < |s| && s[i] == x;
  }

  lemma TailMultiset<T>(s: seq<T>)
    requires s != []
    ensures multiset(s[1..]) == multiset(s) - multiset{s[0]}
  {
    assert s == [s[0]] + s[1..];
  }

  /** Sorting forgets the order the input came in. */
  lemma SortForgetsOrder<T(!new)>(s: seq<T>, t: seq<T>, le: (T, T) -> bool)
    requires TotalPreorder(le) && Tieless(s, le) && multiset(s) == multiset(t)
    ensures Sort(s, le) == Sort(t, le)
  {
    SortIsPermutation(s, le);
    SortIsPermutation(t, le);
    SortIsSorted(s, le);
    SortIsSorted(t, le);
    SortedIsUnique(Sort(s, le), Sort(t, le), le);
  }

  /** Sorting one more element opens one gap in the sorted rest. */
  lemma SortOpensGap<T(!new)>(x: T, s: seq<T>, t: seq<T>, le: (T, T) -> bool) returns (k: nat)
    requires TotalPreorder(le) && Tieless(t, le) && multiset(t) == multiset([x] + s)
    ensures k <= |s| && k <= |Sort(s, le)|
    ensures Sort(t, le) == Sort(s, le)[..k] + [x] + Sort(s, le)[k..]
  {
    SortForgetsOrder(t, [x] + s, le);
    assert ([x] + s)[1..] == s;
    SortIsPermutation(s, le);
    k := InsertOpensGap(x, Sort(s, le), le);
  }

  function Map<T, U>(f: T -> U, s: seq<T>): seq<U>
  {
    seq(|s|, i requires 0 <= i < |s| => f(s[i]))
  }

  /** The first element of one arrangement, found in the other. */
  lemma FindFirst<T>(s: seq<T>, t: seq<T>) returns (i: nat)
    requires multiset(s) == multiset(t) && s != []
    ensures i < |t| && t[i] == s[0] && multiset(s[1..]) == multiset(t[..i] + t[i + 1..])
  {
    assert s[0] in multiset(t);
    i :| 0 <= i < |t| && t[i] == s[0];
    TailMultiset(s);
    SplitOff(t, i);
  }

  lemma {:induction false} MapOfPermutation<T, U>(f: T -> U, s: seq<T>, t: seq<T>)
    requires multiset(s) == multiset(t)
    ensures multiset(Map(f, s)) == multiset(Map(f, t))
    decreases |s|
  {
    assert |s| == |multiset(s)| && |t| == |multiset(t)|;
    if s != [] {
      var i := FindFirst(s, t);
      MapOfPermutation(f, s[1..], t[..i] + t[i + 1..]);
      MapSplitOff(f, t, i);
      TailMultiset(Map(f, s));
      assert Map(f, s)[1..] == Map(f, s[1..]);
      assert f(s[0]) in multiset(Map(f, s));
    }
  }

  lemma MapSplitOff<T, U>(f: T -> U, s: seq<T>, i: nat)
    requires i < |s|
    ensures multiset(Map(f, s)) == multiset(Map(f, s[..i] + s[i + 1..])) + multiset{f(s[i])}
  {
    SplitOff(Map(f, s), i);
    assert Map(f, s)[..i] + Map(f, s)[i + 1..] == Map(f, s[..i] + s[i + 1..]);
  }

  lemma SplitOff<T>(s: seq<T>, i: nat)
    requires i < |s|
    ensures multiset(s) == multiset(s[..i] + s[i + 1..]) + multiset{s[i]}
    ensures multiset(s[..i] + s[i + 1..]) == multiset(s) - multiset{s[i]}
  {
    assert s == s[..i] + [s[i]] + s[i + 1..];
  }
}
