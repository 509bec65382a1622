/** Order-preserving selection and the stable sort behind Rust's `sort_by_key`. */
module Seqs {

  function Filter<T>(s: seq<T>, keep: T -> bool): seq<T>
  {
    if s == [] then []
    else if keep(s[0]) then [s[0]] + Filter(s[1..], keep)
    else Filter(s[1..], keep)
  }

  lemma Regroup<T>(a: seq<T>, b: seq<T>, c: seq<T>)
    ensures a + (b + c) == a + b + c
  {
  }

  lemma {:induction false} FilterConcat<T>(a: seq<T>, b: seq<T>, keep: T -> bool)
    ensures Filter(a + b, keep) == Filter(a, keep) + Filter(b, keep)
  {
    if a == [] {
      assert a + b == b;
    } else {
      FilterConcat(a[1..], b, keep);
      assert (a + b)[1..] == a[1..] + b;
    }
  }

  lemma FilterSnoc<T>(s: seq<T>, x: T, keep: T -> bool)
    ensures Filter(s + [x], keep) == if keep(x) then Filter(s, keep) + [x] else Filter(s, keep)
  {
    FilterConcat(s, [x], keep);
    assert [x][1..] == [];
  }

  lemma {:induction false} FilterMembers<T>(s: seq<T>, keep: T -> bool)
    ensures forall x :: x in Filter(s, keep) <==> x in s && keep(x)
    ensures |Filter(s, keep)| <= |s|
  {
    if s != [] {
      FilterMembers(s[1..], keep);
      assert s == [s[0]] + s[1..];
    }
  }

  /** The elements of `s` whose key is `k`, in order. */
  function WithKey<T>(s: seq<T>, key: T -> nat, k: nat): seq<T> {
    if s == [] then []
    else if key(s[0]) == k then [s[0]] + WithKey(s[1..], key, k)
    else WithKey(s[1..], key, k)
  }

  lemma {:induction false} WithKeyConcat<T>(a: seq<T>, b: seq<T>, key: T -> nat, k: nat)
    ensures WithKey(a + b, key, k) == WithKey(a, key, k) + WithKey(b, key, k)
  {
    if a == [] {
      assert a + b == b;
    } else {
      WithKeyConcat(a[1..], b, key, k);
      assert (a + b)[1..] == a[1..] + b;
    }
  }

  ghost predicate SortedBy<T>(s: seq<T>, key: T -> nat) {
    forall i, j :: 0 <= i < j < |s| ==> key(s[i]) <= key(s[j])
  }

  function Insert<T>(x: T, s: seq<T>, key: T -> nat): (r: seq<T>)
    ensures multiset(r) == multiset([x]) + multiset(s)
  {
    if s == [] || key(x) <= key(s[0]) then [x] + s
    else
      assert s == [s[0]] + s[1..];
      [s[0]] + Insert(x, s[1..], key)
  }

  /** A stable sort: equal keys keep the order they came in. */
  function StableSort<T>(s: seq<T>, key: T -> nat): (r: seq<T>)
    ensures multiset(r) == multiset(s)
  {
    if s == [] then []
    else
      assert s == [s[0]] + s[1..];
      Insert(s[0], StableSort(s[1..], key), key)
  }

  lemma {:induction false} InsertSorted<T>(x: T, s: seq<T>, key: T -> nat)
    requires SortedBy(s, key)
    ensures SortedBy(Insert(x, s, key), key)
  {
    if s != [] && key(x) > key(s[0]) {
      InsertSorted(x, s[1..], key);
      var r := Insert(x, s[1..], key);
      forall i | 0 <= i < |r|
        ensures key(s[0]) <= key(r[i])
      {
        assert r[i] in multiset(r);
        assert r[i] == x || r[i] in s[1..];
      }
    }
  }

  lemma {:induction false} InsertKeepsGroups<T>(x: T, s: seq<T>, key: T -> nat, k: nat)
    requires SortedBy(s, key)
    ensures WithKey(Insert(x, s, key), key, k) == WithKey([x] + s, key, k)
  {
    if s != [] && key(x) > key(s[0]) {
      InsertKeepsGroups(x, s[1..], key, k);
      var r := Insert(x, s, key);
      assert r[1..] == Insert(x, s[1..], key);
      assert ([x] + s)[1..] == s;
      assert ([x] + s[1..])[1..] == s[1..];
    }
  }

  lemma {:induction false} StableSortSorted<T>(s: seq<T>, key: T -> nat)
    ensures SortedBy(StableSort(s, key), key)
  {
    if s != [] {
      StableSortSorted(s[1..], key);
      InsertSorted(s[0], StableSort(s[1..], key), key);
    }
  }

  lemma {:induction false} StableSortKeepsGroups<T>(s: seq<T>, key: T -> nat, k: nat)
    ensures WithKey(StableSort(s, key), key, k) == WithKey(s, key, k)
  {
    if s != [] {
      var rest := StableSort(s[1..], key);
      StableSortKeepsGroups(s[1..], key, k);
      StableSortSorted(s[1..], key);
      InsertKeepsGroups(s[0], rest, key, k);
      assert ([s[0]] + rest)[1..] == rest;
    }
  }

  lemma {:induction false} GroupHeadBound<T>(s: seq<T>, key: T -> nat, k: nat)
    requires SortedBy(s, key) && WithKey(s, key, k) != []
    ensures s != [] && key(s[0]) <= k
  {
    if key(s[0]) != k {
      GroupHeadBound(s[1..], key, k);
    }
  }

  /** A sorted sequence is determined by its key groups. */
  lemma {:induction false} SortedDetermined<T>(a: seq<T>, b: seq<T>, key: T -> nat)
    requires SortedBy(a, key) && SortedBy(b, key)
    requires forall k: nat :: WithKey(a, key, k) == WithKey(b, key, k)
    ensures a == b
  {
    if a != [] {
      assert WithKey(a, key, key(a[0])) != [];
      GroupHeadBound(b, key, key(a[0]));
    }
    if b != [] {
      assert WithKey(b, key, key(b[0])) != [];
      GroupHeadBound(a, key, key(b[0]));
      var k0 := key(a[0]);
      assert WithKey(a, key, k0)[0] == a[0] && WithKey(b, key, k0)[0] == b[0];
      assert a[0] == b[0];
      forall k: nat
        ensures WithKey(a[1..], key, k) == WithKey(b[1..], key, k)
      {
        var wa, wb := WithKey(a, key, k), WithKey(b, key, k);
        if k == k0 {
          assert wa == [a[0]] + WithKey(a[1..], key, k);
          assert wb == [b[0]] + WithKey(b[1..], key, k);
          assert wa[1..] == wb[1..];
        } else {
          assert wa == WithKey(a[1..], key, k);
          assert wb == WithKey(b[1..], key, k);
        }
      }
      SortedDetermined(a[1..], b[1..], key);
    }
  }

  /** Any sorted rearrangement that keeps every key group is the stable sort. */
  lemma StableSortUnique<T>(s: seq<T>, t: seq<T>, key: T -> nat)
    requires SortedBy(t, key)
    requires forall k: nat :: WithKey(t, key, k) == WithKey(s, key, k)
    ensures StableSort(s, key) == t
  {
    StableSortSorted(s, key);
    forall k: nat
      ensures WithKey(StableSort(s, key), key, k) == WithKey(t, key, k)
    {
      StableSortKeepsGroups(s, key, k);
    }
    SortedDetermined(StableSort(s, key), t, key);
  }

  ghost predicate KeyDetermines<T>(s: seq<T>, key: T -> nat) {
    forall i, j :: 0 <= i < |s| && 0 <= j < |s| && key(s[i]) == key(s[j]) ==> s[i] == s[j]
  }

  lemma SortedHeadsEqual<T>(a: seq<T>, b: seq<T>, key: T -> nat)
    requires SortedBy(a, key) && SortedBy(b, key) && multiset(a) == multiset(b) && a != [] && b != []
    requires KeyDetermines(a, key)
    ensures a[0] == b[0]
  {
    assert a[0] in multiset(b) && b[0] in multiset(a);
    var i :| 0 <= i < |b| && b[i] == a[0];
    var j :| 0 <= j < |a| && a[j] == b[0];
    assert key(b[0]) <= key(b[i]) && key(a[0]) <= key(a[j]);
  }

  lemma TailMultiset<T>(a: seq<T>)
    requires a != []
    ensures multiset(a[1..]) == multiset(a) - multiset{a[0]}
  {
    assert a == [a[0]] + a[1..];
  }

  lemma SortedTail<T>(a: seq<T>, key: T -> nat)
    requires a != [] && SortedBy(a, key)
    ensures SortedBy(a[1..], key) && (KeyDetermines(a, key) ==> KeyDetermines(a[1..], key))
  {
  }

  lemma TailsReady<T>(a: seq<T>, b: seq<T>, key: T -> nat)
    requires SortedBy(a, key) && SortedBy(b, key) && multiset(a) == multiset(b) && a != [] && b != []
    requires KeyDetermines(a, key)
    ensures SortedBy(a[1..], key) && SortedBy(b[1..], key) && multiset(a[1..]) == multiset(b[1..])
    ensures KeyDetermines(a[1..], key) && a[0] == b[0]
  {
    SortedHeadsEqual(a, b, key);
    TailMultiset(a);
    TailMultiset(b);
    SortedTail(a, key);
    SortedTail(b, key);
  }

  lemma HeadAndTail<T>(a: seq<T>, b: seq<T>)
    requires a != [] && b != [] && a[0] == b[0] && a[1..] == b[1..]
    ensures a == b
  {
  }

  lemma {:induction false} SortedPermutationUnique<T>(a: seq<T>, b: seq<T>, key: T -> nat)
    requires SortedBy(a, key) && SortedBy(b, key) && multiset(a) == multiset(b)
    requires KeyDetermines(a, key)
    ensures a == b
  {
    assert |multiset(a)| == |multiset(b)|;
    if a != [] {
      TailsReady(a, b, key);
      SortedPermutationUnique(a[1..], b[1..], key);
      HeadAndTail(a, b);
    }
  }
}
