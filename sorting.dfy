/** Ordering results by an integer key, largest first, as the service does
    with `order: {…: 'DESC'}` queries and `Array.prototype.sort` with a
    descending comparator. Insertion keeps equal keys in their original
    order, as the stable JavaScript sort does. */
module Sorting {

  predicate SortedDesc<T>(s: seq<T>, key: T -> int) {
    forall i, j :: 0 <= i < j < |s| ==> key(s[i]) >= key(s[j])
  }

  /** Where `x` goes: after every element whose key is at least its own. */
  function InsertPos<T>(s: seq<T>, x: T, key: T -> int): (i: nat)
    ensures i <= |s|
    ensures forall k :: 0 <= k < i ==> key(s[k]) >= key(x)
    ensures i < |s| ==> key(s[i]) < key(x)
    decreases |s|
  {
    if s == [] || key(x) > key(s[0]) then 0 else 1 + InsertPos(s[1..], x, key)
  }

  /** Inserts `x` into a sorted sequence, keeping it sorted. */
  function InsertDesc<T>(s: seq<T>, x: T, key: T -> int): (r: seq<T>)
    requires SortedDesc(s, key)
    ensures SortedDesc(r, key)
    ensures multiset(r) == multiset(s) + multiset{x}
    ensures |r| == |s| + 1
  {
    var i := InsertPos(s, x, key);
    assert s == s[..i] + s[i..];
    InsertAtSorted(s, x, key, i);
    s[..i] + [x] + s[i..]
  }

  lemma {:induction false} InsertAtSorted<T>(s: seq<T>, x: T, key: T -> int, i: nat)
    requires SortedDesc(s, key) && i <= |s|
    requires forall k :: 0 <= k < i ==> key(s[k]) >= key(x)
    requires i < |s| ==> key(s[i]) < key(x)
    ensures SortedDesc(s[..i] + [x] + s[i..], key)
  {
    var r := s[..i] + [x] + s[i..];
    forall a, b | 0 <= a < b < |r|
      ensures key(r[a]) >= key(r[b])
    {
      var sa := if a < i then a else a - 1;
      var sb := if b < i then b else b - 1;
      if a == i {
        assert r[a] == x && r[b] == s[sb] && sb >= i;
      } else if b == i {
        assert r[a] == s[sa] && r[b] == x;
      } else {
        assert r[a] == s[sa] && r[b] == s[sb] && sa < sb;
      }
    }
  }

  /** Sorts by descending key. */
  function SortDesc<T>(s: seq<T>, key: T -> int): (r: seq<T>)
    ensures SortedDesc(r, key)
    ensures multiset(r) == multiset(s)
    ensures |r| == |s|
    decreases |s|
  {
    if s == [] then []
    else
      var init := s[..|s| - 1];
      assert s == init + [s[|s| - 1]];
      InsertDesc(SortDesc(init, key), s[|s| - 1], key)
  }

  /** The elements of `s` whose key is `k`, in their order in `s`. */
  function WithKey<T>(s: seq<T>, key: T -> int, k: int): (r: seq<T>)
    ensures |r| <= |s|
    decreases |s|
  {
    if s == [] then []
    else WithKey(s[..|s| - 1], key, k) + (if key(s[|s| - 1]) == k then [s[|s| - 1]] else [])
  }

  lemma {:induction false} WithKeyConcat<T>(a: seq<T>, b: seq<T>, key: T -> int, k: int)
    ensures WithKey(a + b, key, k) == WithKey(a, key, k) + WithKey(b, key, k)
    decreases |b|
  {
    if b == [] {
      assert a + b == a;
    } else {
      var init := b[..|b| - 1];
      assert (a + b)[..|a + b| - 1] == a + init;
      WithKeyConcat(a, init, key, k);
    }
  }

  lemma {:induction false} WithKeyNone<T>(s: seq<T>, key: T -> int, k: int)
    requires forall i :: 0 <= i < |s| ==> key(s[i]) != k
    ensures WithKey(s, key, k) == []
    decreases |s|
  {
    if s != [] {
      WithKeyNone(s[..|s| - 1], key, k);
    }
  }

  /** Inserting `x` where `InsertDesc` puts it adds `x` after every element
      with the same key. */
  lemma {:induction false} InsertDescStable<T>(s: seq<T>, x: T, key: T -> int, k: int)
    requires SortedDesc(s, key)
    ensures WithKey(InsertDesc(s, x, key), key, k)
      == WithKey(s, key, k) + (if key(x) == k then [x] else [])
  {
    var i := InsertPos(s, x, key);
    if key(x) == k {
      NoKeyAfterInsertPos(s, x, key);
    }
    WithKeyInsertAt(s, x, i, key, k);
  }

  /** Everything from the insertion point on has a smaller key than `x`, so
      none has the key of `x`. */
  lemma {:induction false} NoKeyAfterInsertPos<T>(s: seq<T>, x: T, key: T -> int)
    requires SortedDesc(s, key)
    ensures WithKey(s[InsertPos(s, x, key)..], key, key(x)) == []
  {
    var i := InsertPos(s, x, key);
    var hi := s[i..];
    forall j | 0 <= j < |hi|
      ensures key(hi[j]) != key(x)
    {
      assert hi[j] == s[i + j];
      assert key(s[i + j]) <= key(s[i]);
    }
    WithKeyNone(hi, key, key(x));
  }

  lemma {:induction false} WithKeyInsertAt<T>(s: seq<T>, x: T, i: nat, key: T -> int, k: int)
    requires i <= |s|
    requires key(x) == k ==> WithKey(s[i..], key, k) == []
    ensures WithKey(s[..i] + [x] + s[i..], key, k)
      == WithKey(s, key, k) + (if key(x) == k then [x] else [])
  {
    assert s == s[..i] + s[i..];
    WithKeyInsert(s[..i], x, s[i..], key, k);
  }

  lemma {:induction false} WithKeyInsert<T>(lo: seq<T>, x: T, hi: seq<T>, key: T -> int, k: int)
    requires key(x) == k ==> WithKey(hi, key, k) == []
    ensures WithKey(lo + [x] + hi, key, k)
      == WithKey(lo + hi, key, k) + (if key(x) == k then [x] else [])
  {
    WithKeyConcat(lo + [x], hi, key, k);
    WithKeyConcat(lo, [x], key, k);
    WithKeyConcat(lo, hi, key, k);
    assert [x][..0] == [];
    assert WithKey([x], key, k) == (if key(x) == k then [x] else []);
  }

  /** The sort is stable: the elements with any one key come out in the order
      they went in. */
  lemma {:induction false} SortDescStable<T>(s: seq<T>, key: T -> int, k: int)
    ensures WithKey(SortDesc(s, key), key, k) == WithKey(s, key, k)
    decreases |s|
  {
    if s != [] {
      var init := s[..|s| - 1];
      SortDescStable(init, key, k);
      InsertDescStable(SortDesc(init, key), s[|s| - 1], key, k);
    }
  }

  /** Sorting does not change the set of elements. */
  lemma {:induction false} SortDescSameElements<T>(s: seq<T>, key: T -> int, x: T)
    ensures x in SortDesc(s, key) <==> x in s
  {
    assert x in SortDesc(s, key) <==> x in multiset(SortDesc(s, key));
  }

  /** The sum of the keys of a sequence. */
  function SumBy<T>(s: seq<T>, key: T -> int): int
    decreases |s|
  {
    if s == [] then 0 else SumBy(s[..|s| - 1], key) + key(s[|s| - 1])
  }

  lemma {:induction false} SumByConcat<T>(a: seq<T>, b: seq<T>, key: T -> int)
    ensures SumBy(a + b, key) == SumBy(a, key) + SumBy(b, key)
    decreases |b|
  {
    if b != [] {
      var init := b[..|b| - 1];
      assert (a + b)[..|a + b| - 1] == a + init;
      SumByConcat(a, init, key);
    } else {
      assert a + b == a;
    }
  }

  /** Reordering does not change the sum, so sorting keeps every total. */
  lemma {:induction false} SumByPermutation<T>(a: seq<T>, b: seq<T>, key: T -> int)
    requires multiset(a) == multiset(b)
    ensures SumBy(a, key) == SumBy(b, key)
    decreases |a|
  {
    if a == [] {
      assert |b| == |multiset(b)| == 0;
    } else {
      var x := a[|a| - 1];
      var init := a[..|a| - 1];
      assert a == init + [x];
      assert x in multiset(b);
      var j :| 0 <= j < |b| && b[j] == x;
      assert b == b[..j] + [x] + b[j + 1..];
      var rest := b[..j] + b[j + 1..];
      assert multiset(b) == multiset(b[..j]) + multiset{x} + multiset(b[j + 1..]);
      assert multiset(rest) == multiset(b[..j]) + multiset(b[j + 1..]);
      assert multiset(a) == multiset(init) + multiset{x};
      assert multiset(init) == multiset(a) - multiset{x};
      assert multiset(rest) == multiset(b) - multiset{x};
      SumByPermutation(init, rest, key);
      SumByConcat(b[..j] + [x], b[j + 1..], key);
      SumByConcat(b[..j], [x], key);
      SumByConcat(b[..j], b[j + 1..], key);
      assert SumBy([x], key) == key(x) by {
        assert [x][..0] == [];
      }
    }
  }
}
