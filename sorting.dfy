/** The stable "descending by a numeric key" sort that
    `array.sort((a, b) => key(b) - key(a))` performs (ECMAScript requires
    `Array.prototype.sort` to be stable). */
module Sorting {

  predicate SortedDesc<T>(s: seq<T>, key: T -> int)
  {
    forall i, j :: 0 <= i < j < |s| ==> key(s[i]) >= key(s[j])
  }

  /** The elements of `s` whose key is `k`, in their order in `s`. */
  function WithKey<T>(s: seq<T>, key: T -> int, k: int): seq<T>
  {
    if s == [] then []
    else (if key(s[0]) == k then [s[0]] else []) + WithKey(s[1..], key, k)
  }

  /** Put `x` in front of the first element whose key is not larger. */
  function InsertDesc<T>(x: T, s: seq<T>, key: T -> int): seq<T>
  {
    if s == [] || key(s[0]) <= key(x) then [x] + s
    else [s[0]] + InsertDesc(x, s[1..], key)
  }

  /** Insertion sort from the back: earlier elements end up before later ones of the same key. */
  function SortDesc<T>(s: seq<T>, key: T -> int): seq<T>
  {
    if s == [] then [] else InsertDesc(s[0], SortDesc(s[1..], key), key)
  }

  lemma {:induction false} WithKeyAppend<T>(a: seq<T>, b: seq<T>, key: T -> int, k: int)
    ensures WithKey(a + b, key, k) == WithKey(a, key, k) + WithKey(b, key, k)
  {
    if a != [] {
      var pre := if key(a[0]) == k then [a[0]] else [];
      assert (a + b)[0] == a[0];
      assert (a + b)[1..] == a[1..] + b;
      WithKeyAppend(a[1..], b, key, k);
      calc {
        WithKey(a + b, key, k);
        pre + WithKey(a[1..] + b, key, k);
        pre + (WithKey(a[1..], key, k) + WithKey(b, key, k));
        (pre + WithKey(a[1..], key, k)) + WithKey(b, key, k);
      }
    } else {
      assert a + b == b;
    }
  }

  /** A sorted sequence stays sorted when an element no smaller than its head is put in front. */
  lemma SortedCons<T>(h: T, t: seq<T>, key: T -> int)
    requires SortedDesc(t, key)
    requires t != [] ==> key(h) >= key(t[0])
    ensures SortedDesc([h] + t, key)
  {
    var r := [h] + t;
    forall i, j | 0 <= i < j < |r| ensures key(r[i]) >= key(r[j]) {
      if i == 0 {
        assert r[j] == t[j - 1];
      } else {
        assert r[i] == t[i - 1] && r[j] == t[j - 1];
      }
    }
  }

  /** The head of an insertion is the inserted element or the old head. */
  lemma InsertDescHead<T>(x: T, s: seq<T>, key: T -> int)
    ensures InsertDesc(x, s, key) != []
    ensures InsertDesc(x, s, key)[0] == x || (s != [] && InsertDesc(x, s, key)[0] == s[0])
  {
  }

  lemma {:induction false} InsertDescSorted<T>(x: T, s: seq<T>, key: T -> int)
    requires SortedDesc(s, key)
    ensures SortedDesc(InsertDesc(x, s, key), key)
  {
    if s == [] || key(s[0]) <= key(x) {
      SortedCons(x, s, key);
    } else {
      var t := InsertDesc(x, s[1..], key);
      InsertDescSorted(x, s[1..], key);
      InsertDescHead(x, s[1..], key);
      assert key(s[0]) >= key(t[0]) by {
        if t[0] != x { assert t[0] == s[1]; }
      }
      SortedCons(s[0], t, key);
    }
  }

  lemma {:induction false} InsertDescPermutes<T>(x: T, s: seq<T>, key: T -> int)
    ensures multiset(InsertDesc(x, s, key)) == multiset([x] + s)
  {
    if s != [] && key(s[0]) > key(x) {
      InsertDescPermutes(x, s[1..], key);
      assert s == [s[0]] + s[1..];
    }
  }

  /** The key group of a sequence with a given head. */
  lemma WithKeyCons<T>(a: T, s: seq<T>, key: T -> int, k: int)
    ensures WithKey([a] + s, key, k) == (if key(a) == k then [a] else []) + WithKey(s, key, k)
  {
    assert ([a] + s)[0] == a && ([a] + s)[1..] == s;
  }

  lemma {:induction false} InsertDescStable<T>(x: T, s: seq<T>, key: T -> int, k: int)
    requires SortedDesc(s, key)
    ensures WithKey(InsertDesc(x, s, key), key, k) == WithKey([x] + s, key, k)
  {
    if s != [] && key(s[0]) > key(x) {
      var t := InsertDesc(x, s[1..], key);
      assert InsertDesc(x, s, key) == [s[0]] + t;
      assert s == [s[0]] + s[1..];
      InsertDescStable(x, s[1..], key, k);
      WithKeyCons(s[0], t, key, k);
      WithKeyCons(x, s[1..], key, k);
      WithKeyCons(x, s, key, k);
      WithKeyCons(s[0], s[1..], key, k);
      if key(x) == k {
        // `s[0]` has a larger key, so it is not in the group
        assert WithKey(InsertDesc(x, s, key), key, k) == [x] + WithKey(s[1..], key, k);
      } else {
        assert WithKey([x] + s, key, k) == WithKey(s, key, k);
      }
    }
  }

  lemma {:induction false} SortDescFacts<T>(s: seq<T>, key: T -> int)
    ensures SortedDesc(SortDesc(s, key), key)
    ensures multiset(SortDesc(s, key)) == multiset(s)
    ensures forall k :: WithKey(SortDesc(s, key), key, k) == WithKey(s, key, k)
  {
    if s != [] {
      SortDescFacts(s[1..], key);
      InsertDescSorted(s[0], SortDesc(s[1..], key), key);
      InsertDescPermutes(s[0], SortDesc(s[1..], key), key);
      assert s == [s[0]] + s[1..];
      forall k ensures WithKey(SortDesc(s, key), key, k) == WithKey(s, key, k) {
        var t := SortDesc(s[1..], key);
        InsertDescStable(s[0], t, key, k);
        assert ([s[0]] + t)[1..] == t;
        assert s[1..] == ([s[0]] + s[1..])[1..];
      }
    }
  }

  /** A sorted list and its stable groups determine each other: any two
      sequences that are sorted and agree on every key group are equal. */
  lemma {:induction false} SortedUnique<T>(a: seq<T>, b: seq<T>, key: T -> int)
    requires SortedDesc(a, key) && SortedDesc(b, key)
    requires forall k :: WithKey(a, key, k) == WithKey(b, key, k)
    ensures a == b
    decreases |a| + |b|
  {
    if a == [] && b == [] {
    } else if a == [] {
      HeadGroup(b, key);
      assert false;
    } else if b == [] {
      HeadGroup(a, key);
      assert false;
    } else {
      HeadOfSorted(a, b, key);
      HeadOfSorted(b, a, key);
      assert key(a[0]) == key(b[0]);
      var k0 := key(a[0]);
      assert WithKey(a, key, k0) == [a[0]] + WithKey(a[1..], key, k0);
      assert WithKey(b, key, k0) == [b[0]] + WithKey(b[1..], key, k0);
      assert WithKey(a, key, k0)[0] == a[0];
      assert a[0] == b[0];
      forall k ensures WithKey(a[1..], key, k) == WithKey(b[1..], key, k) {
        var pre := if key(a[0]) == k then [a[0]] else [];
        assert WithKey(a, key, k) == pre + WithKey(a[1..], key, k);
        assert WithKey(b, key, k) == pre + WithKey(b[1..], key, k);
        assert (pre + WithKey(a[1..], key, k))[|pre|..] == WithKey(a[1..], key, k);
        assert (pre + WithKey(b[1..], key, k))[|pre|..] == WithKey(b[1..], key, k);
      }
      SortedUnique(a[1..], b[1..], key);
      assert a == [a[0]] + a[1..] && b == [b[0]] + b[1..];
    }
  }

  lemma HeadGroup<T>(s: seq<T>, key: T -> int)
    requires s != []
    ensures WithKey(s, key, key(s[0])) != []
  {
  }

  /** In a sorted sequence no element's key exceeds the head's. */
  lemma {:induction false} HeadOfSorted<T>(a: seq<T>, b: seq<T>, key: T -> int)
    requires a != [] && b != [] && SortedDesc(b, key)
    requires forall k :: WithKey(a, key, k) == WithKey(b, key, k)
    ensures key(a[0]) <= key(b[0])
  {
    var k := key(a[0]);
    assert WithKey(a, key, k) != [];
    WithKeyMember(b, key, k);
  }

  /** A non-empty key group consists of elements of `s` that have that key. */
  lemma {:induction false} WithKeyMember<T>(s: seq<T>, key: T -> int, k: int)
    requires WithKey(s, key, k) != []
    ensures exists i :: 0 <= i < |s| && key(s[i]) == k
  {
    if key(s[0]) != k {
      WithKeyMember(s[1..], key, k);
      var i :| 0 <= i < |s[1..]| && key(s[1..][i]) == k;
      assert key(s[i + 1]) == k;
    }
  }
}
