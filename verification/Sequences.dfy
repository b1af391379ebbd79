/** Searching and sorting of sequences as the array built-ins of the program do it. */
module Sequences {

  ghost predicate Distinct<T>(s: seq<T>) {
    forall i, j :: 0 <= i < j < |s| ==> s[i] != s[j]
  }

  /** The first position of `x`, or -1. */
  function Find<T(==)>(s: seq<T>, x: T): (index: int)
    ensures -1 <= index < |s|
    ensures index >= 0 ==> s[index] == x
    ensures index < 0 <==> x !in s
  {
    if s == [] then -1
    else if s[0] == x then 0
    else
      var rest := Find(s[1..], x);
      assert s == [s[0]] + s[1..];
      if rest < 0 then -1 else rest + 1
  }

  /** Nothing before the position found is equal to `x`. */
  lemma {:induction false} FindIsFirst<T>(s: seq<T>, x: T, k: nat)
    requires k < |s| && s[k] == x
    ensures 0 <= Find(s, x) <= k
  {
    if s[0] != x {
      FindIsFirst(s[1..], x, k - 1);
    }
  }

  /** In a sequence without repetitions, any position of an element is the one found. */
  lemma FindIsUnique<T>(s: seq<T>, k: nat)
    requires Distinct(s) && k < |s|
    ensures Find(s, s[k]) == k
  {
    FindIsFirst(s, s[k], k);
  }

  ghost predicate InjectiveOn<T(!new), U(!new)>(f: T -> U, domain: set<T>) {
    forall a, b :: a in domain && b in domain && f(a) == f(b) ==> a == b
  }

  function Map<T, U>(f: T -> U, s: seq<T>): (r: seq<U>)
    ensures |r| == |s|
    ensures forall i :: 0 <= i < |s| ==> r[i] == f(s[i])
  {
    seq(|s|, i requires 0 <= i < |s| => f(s[i]))
  }

  lemma Associate<T>(a: seq<T>, b: seq<T>, c: seq<T>)
    ensures a + b + c == a + (b + c)
  {
  }

  lemma SliceOfSlice<T>(s: seq<T>, a: nat, b: nat, i: nat, j: nat)
    requires a <= b <= |s| && i <= j <= b - a
    ensures s[a..b][i..j] == s[a + i..a + j]
  {
    forall k | 0 <= k < j - i
      ensures s[a..b][i..j][k] == s[a + i..a + j][k]
    {
      assert s[a..b][i + k] == s[a + i + k];
    }
  }

  lemma MiddlePart<T>(a: seq<T>, b: seq<T>, c: seq<T>, all: seq<T>)
    requires all == a + b + c
    ensures |a| + |b| <= |all| && all[|a|..|a| + |b|] == b
  {
  }

  lemma PartAt<T>(all: seq<T>, first: nat, part: seq<T>, j: nat)
    requires first + |part| <= |all| && all[first..first + |part|] == part && j < |part|
    ensures all[first + j] == part[j]
  {
  }

  /** What a function makes of each element, end to end. */
  function FlatMap<T, U>(s: seq<T>, f: T -> seq<U>): seq<U> {
    if s == [] then [] else FlatMap(s[..|s| - 1], f) + f(s[|s| - 1])
  }

  lemma FlatMapSnoc<T, U>(s: seq<T>, x: T, f: T -> seq<U>)
    ensures FlatMap(s + [x], f) == FlatMap(s, f) + f(x)
  {
    assert (s + [x])[..|s|] == s;
  }

  lemma {:induction false} FlatMapConcat<T, U>(a: seq<T>, b: seq<T>, f: T -> seq<U>)
    ensures FlatMap(a + b, f) == FlatMap(a, f) + FlatMap(b, f)
  {
    if b == [] {
      assert a + b == a;
    } else {
      var init, last := b[..|b| - 1], b[|b| - 1];
      FlatMapConcat(a, init, f);
      FlatMapSnoc(a + init, last, f);
      assert a + b == a + init + [last];
      Associate(FlatMap(a, f), FlatMap(init, f), f(last));
    }
  }

  ghost function Elements<T>(s: seq<T>): set<T> {
    set x | x in s
  }

  /** An injective renaming neither hides an element nor makes a new one turn up. */
  lemma {:induction false} FindRenamed<T(!new), U(!new)>(f: T -> U, s: seq<T>, x: T)
    requires InjectiveOn(f, Elements(s) + {x})
    ensures Find(Map(f, s), f(x)) == Find(s, x)
  {
    if s != [] {
      assert s[0] in Elements(s);
      assert Map(f, s)[1..] == Map(f, s[1..]);
      assert Elements(s[1..]) <= Elements(s);
      FindRenamed(f, s[1..], x);
    }
  }

  function Filter<T>(s: seq<T>, p: T -> bool): seq<T> {
    if s == [] then []
    else (if p(s[0]) then [s[0]] else []) + Filter(s[1..], p)
  }

  lemma {:induction false} FilterKeeps<T>(s: seq<T>, p: T -> bool)
    ensures forall x :: x in Filter(s, p) <==> x in s && p(x)
    ensures |Filter(s, p)| <= |s|
  {
    if s != [] {
      FilterKeeps(s[1..], p);
      assert s == [s[0]] + s[1..];
    }
  }

  lemma PositionIn<T>(s: seq<T>, p: T -> bool, x: T) returns (k: nat)
    requires x in Filter(s, p)
    ensures k < |s| && s[k] == x
  {
    FilterKeeps(s, p);
    k :| 0 <= k < |s| && s[k] == x;
  }

  /** Filtering keeps the order. */
  lemma {:induction false} FilterEmbeds<T>(s: seq<T>, p: T -> bool, i: nat, j: nat) returns (k: nat, l: nat)
    requires i < j < |Filter(s, p)|
    ensures k < l < |s| && s[k] == Filter(s, p)[i] && s[l] == Filter(s, p)[j]
  {
    var rest := Filter(s[1..], p);
    if p(s[0]) && i == 0 {
      FilterKeeps(s[1..], p);
      var m := PositionIn(s[1..], p, rest[j - 1]);
      k, l := 0, m + 1;
    } else {
      var skipped := if p(s[0]) then 1 else 0;
      k, l := FilterEmbeds(s[1..], p, i - skipped, j - skipped);
      k, l := k + 1, l + 1;
    }
  }

  lemma SplitAround<T>(s: seq<T>, k: nat)
    requires k < |s|
    ensures s == s[..k] + [s[k]] + s[k + 1..]
  {
  }

  lemma SplitAroundTwo<T>(s: seq<T>, k: nat)
    requires k + 1 < |s|
    ensures s == s[..k] + [s[k], s[k + 1]] + s[k + 2..]
  {
  }

  // ----- sorting by an integer key

  ghost predicate SortedBy<T>(s: seq<T>, key: T -> int) {
    forall i, j :: 0 <= i < j < |s| ==> key(s[i]) <= key(s[j])
  }

  ghost predicate StrictlySortedBy<T>(s: seq<T>, key: T -> int) {
    forall i, j :: 0 <= i < j < |s| ==> key(s[i]) < key(s[j])
  }

  function Insert<T>(x: T, s: seq<T>, key: T -> int): seq<T> {
    if s == [] || key(s[|s| - 1]) <= key(x) then s + [x]
    else Insert(x, s[..|s| - 1], key) + [s[|s| - 1]]
  }

  /** A stable sort: each item goes behind the earlier items with the same key. */
  function SortBy<T>(s: seq<T>, key: T -> int): seq<T> {
    if s == [] then []
    else Insert(s[|s| - 1], SortBy(s[..|s| - 1], key), key)
  }

  lemma {:induction false} InsertPermutes<T>(x: T, s: seq<T>, key: T -> int)
    ensures multiset(Insert(x, s, key)) == multiset(s) + multiset{x}
    ensures forall y :: y in Insert(x, s, key) ==> y in s || y == x
  {
    if s != [] {
      assert s == s[..|s| - 1] + [s[|s| - 1]];
      if key(s[|s| - 1]) > key(x) {
        InsertPermutes(x, s[..|s| - 1], key);
      }
    }
  }

  lemma {:induction false} InsertSorts<T>(x: T, s: seq<T>, key: T -> int)
    requires SortedBy(s, key)
    ensures SortedBy(Insert(x, s, key), key)
  {
    if s != [] && key(s[|s| - 1]) > key(x) {
      InsertSorts(x, s[..|s| - 1], key);
      InsertPermutes(x, s[..|s| - 1], key);
      SortedSnoc(Insert(x, s[..|s| - 1], key), s[|s| - 1], key);
    }
  }

  lemma SortedSnoc<T>(s: seq<T>, x: T, key: T -> int)
    requires SortedBy(s, key) && forall y :: y in s ==> key(y) <= key(x)
    ensures SortedBy(s + [x], key)
  {
  }

  lemma {:induction false} SortBySorts<T>(s: seq<T>, key: T -> int)
    ensures SortedBy(SortBy(s, key), key)
    ensures multiset(SortBy(s, key)) == multiset(s)
  {
    if s != [] {
      var init, last := s[..|s| - 1], s[|s| - 1];
      assert s == init + [last];
      SortBySorts(init, key);
      InsertSorts(last, SortBy(init, key), key);
      InsertPermutes(last, SortBy(init, key), key);
    }
  }

  /** Sorting neither adds nor drops. */
  lemma SortByKeeps<T>(s: seq<T>, key: T -> int, x: T)
    ensures x in SortBy(s, key) <==> x in s
  {
    SortBySorts(s, key);
    assert x in SortBy(s, key) <==> x in multiset(SortBy(s, key));
    assert x in s <==> x in multiset(s);
  }

  lemma SamePermutation<T>(a: seq<T>, b: seq<T>)
    requires multiset(a) == multiset(b)
    ensures |a| == |b|
    ensures forall x :: x in a <==> x in b
  {
    assert |a| == |multiset(a)| && |b| == |multiset(b)|;
    forall x
      ensures x in a <==> x in b
    {
      assert x in a <==> x in multiset(a);
      assert x in b <==> x in multiset(b);
    }
  }

  lemma TailMultiset<T>(s: seq<T>)
    requires s != []
    ensures multiset(s[1..]) == multiset(s) - multiset{s[0]}
  {
    assert s == [s[0]] + s[1..];
  }

  /** When keys differ, there is only one sorted order. */
  lemma {:induction false} SortedOrderIsUnique<T>(a: seq<T>, b: seq<T>, key: T -> int)
    requires StrictlySortedBy(a, key) && SortedBy(b, key)
    requires multiset(a) == multiset(b)
    ensures a == b
  {
    SamePermutation(a, b);
    if a != [] {
      assert b[0] in a && a[0] in b;
      assert a[0] == b[0];
      assert multiset(a[1..]) == multiset(b[1..]) by {
        TailMultiset(a);
        TailMultiset(b);
      }
      SortedOrderIsUnique(a[1..], b[1..], key);
    }
  }

  /** Two strictly sorted sequences with the same members are the same sequence. */
  lemma {:induction false} SortedMembersDecide<T>(a: seq<T>, b: seq<T>, key: T -> int)
    requires StrictlySortedBy(a, key) && StrictlySortedBy(b, key)
    requires forall x :: x in a <==> x in b
    ensures a == b
  {
    assert b != [] ==> b[0] in b;
    if a != [] {
      assert a[0] in b && b[0] in a;
      assert a[0] == b[0];
      forall x
        ensures x in a[1..] <==> x in b[1..]
      {
        assert x in a[1..] <==> x in a && key(x) > key(a[0]) by { TailMembers(a, x, key); }
        assert x in b[1..] <==> x in b && key(x) > key(b[0]) by { TailMembers(b, x, key); }
      }
      SortedMembersDecide(a[1..], b[1..], key);
    }
  }

  lemma TailMembers<T>(s: seq<T>, x: T, key: T -> int)
    requires StrictlySortedBy(s, key) && s != []
    ensures x in s[1..] <==> x in s && key(x) > key(s[0])
  {
    assert s == [s[0]] + s[1..];
  }

  lemma SortedIsDistinct<T>(s: seq<T>, sorted: seq<T>)
    requires Distinct(s) && multiset(sorted) == multiset(s)
    ensures Distinct(sorted)
  {
    DistinctCounts(s);
    forall i, j | 0 <= i < j < |sorted|
      ensures sorted[i] != sorted[j]
    {
      TwiceCounts(sorted, i, j);
      assert multiset(sorted)[sorted[i]] == multiset(s)[sorted[i]];
    }
  }

  lemma {:induction false} DistinctCounts<T>(s: seq<T>)
    requires Distinct(s)
    ensures forall x :: multiset(s)[x] <= 1
  {
    if s != [] {
      var init, last := s[..|s| - 1], s[|s| - 1];
      assert s == init + [last];
      DistinctCounts(init);
      assert last !in init;
      assert multiset(init)[last] == 0;
    }
  }

  lemma TwiceCounts<T>(s: seq<T>, i: nat, j: nat)
    requires i < j < |s|
    ensures s[i] == s[j] ==> multiset(s)[s[i]] >= 2
  {
    assert s == s[..j] + [s[j]] + s[j + 1..];
    assert s[..j][i] == s[i];
    assert s[i] in multiset(s[..j]);
  }

  lemma DifferentKeys<T>(s: seq<T>, key: T -> int, x: T, y: T)
    requires forall i, j :: 0 <= i < j < |s| ==> key(s[i]) != key(s[j])
    requires x in s && y in s && x != y
    ensures key(x) != key(y)
  {
    var p :| 0 <= p < |s| && s[p] == x;
    var q :| 0 <= q < |s| && s[q] == y;
    assert p < q || q < p;
  }

  lemma DifferentKeysAreDistinct<T>(s: seq<T>, key: T -> int)
    requires forall i, j :: 0 <= i < j < |s| ==> key(s[i]) != key(s[j])
    ensures Distinct(s)
  {
    forall i, j | 0 <= i < j < |s|
      ensures s[i] != s[j]
    {
      assert key(s[i]) != key(s[j]);
    }
  }

  lemma SortedStrictly<T>(s: seq<T>, sorted: seq<T>, key: T -> int)
    requires forall i, j :: 0 <= i < j < |s| ==> key(s[i]) != key(s[j])
    requires SortedBy(sorted, key) && Distinct(sorted) && forall x :: x in sorted ==> x in s
    ensures StrictlySortedBy(sorted, key)
  {
    forall i, j | 0 <= i < j < |sorted|
      ensures key(sorted[i]) < key(sorted[j])
    {
      DifferentKeys(s, key, sorted[i], sorted[j]);
    }
  }

  /** Sorting by a key that tells all items apart sorts strictly. */
  lemma SortingDifferentKeys<T>(s: seq<T>, key: T -> int)
    requires forall i, j :: 0 <= i < j < |s| ==> key(s[i]) != key(s[j])
    ensures StrictlySortedBy(SortBy(s, key), key)
  {
    SortBySorts(s, key);
    DifferentKeysAreDistinct(s, key);
    SortedIsDistinct(s, SortBy(s, key));
    forall x | x in SortBy(s, key)
      ensures x in s
    {
      SortByKeeps(s, key, x);
    }
    SortedStrictly(s, SortBy(s, key), key);
  }
}
