/** Python's `list.sort(key=k, reverse=True)` for string keys: a stable sort into
    non-increasing key order, where strings compare code point by code point and
    a proper prefix is smaller. */
module Sorting {
  import opened Base

  /** Python's `a <= b` on `str`. */
  predicate LexLe(a: string, b: string)
  {
    |a| == 0 || (|b| > 0 && (a[0] < b[0] || (a[0] == b[0] && LexLe(a[1..], b[1..]))))
  }

  lemma {:induction false} LexLeReflexive(a: string)
    ensures LexLe(a, a)
  {
    if |a| > 0 {
      LexLeReflexive(a[1..]);
    }
  }

  lemma {:induction false} LexLeTotal(a: string, b: string)
    ensures LexLe(a, b) || LexLe(b, a)
  {
    if |a| > 0 && |b| > 0 && a[0] == b[0] {
      LexLeTotal(a[1..], b[1..]);
    }
  }

  lemma {:induction false} LexLeTransitive(a: string, b: string, c: string)
    requires LexLe(a, b) && LexLe(b, c)
    ensures LexLe(a, c)
  {
    if |a| > 0 && a[0] == b[0] && b[0] == c[0] {
      LexLeTransitive(a[1..], b[1..], c[1..]);
    }
  }

  lemma {:induction false} LexLeAntisymmetric(a: string, b: string)
    requires LexLe(a, b) && LexLe(b, a)
    ensures a == b
  {
    if |a| > 0 {
      LexLeAntisymmetric(a[1..], b[1..]);
      assert a == [a[0]] + a[1..] && b == [b[0]] + b[1..];
    }
  }

  /** Every later element's key is at most every earlier element's key. */
  predicate SortedDesc<T>(s: seq<T>, key: T -> string)
  {
    forall i, j :: 0 <= i < j < |s| ==> LexLe(key(s[j]), key(s[i]))
  }

  /** The elements of `s` whose key is `k`, in their order in `s`. */
  function WithKey<T>(s: seq<T>, key: T -> string, k: string): seq<T>
  {
    if s == [] then [] else (if key(s[0]) == k then [s[0]] else []) + WithKey(s[1..], key, k)
  }

  lemma {:induction false} WithKeyAppend<T>(a: seq<T>, b: seq<T>, key: T -> string, k: string)
    ensures WithKey(a + b, key, k) == WithKey(a, key, k) + WithKey(b, key, k)
  {
    if a == [] {
      assert a + b == b;
    } else {
      var head := if key(a[0]) == k then [a[0]] else [];
      assert (a + b)[0] == a[0];
      assert (a + b)[1..] == a[1..] + b;
      assert WithKey(a + b, key, k) == head + WithKey(a[1..] + b, key, k);
      WithKeyAppend(a[1..], b, key, k);
      assert WithKey(a, key, k) == head + WithKey(a[1..], key, k);
    }
  }

  lemma WithKeySingle<T>(y: T, key: T -> string, k: string)
    ensures WithKey([y], key, k) == if key(y) == k then [y] else []
  {
    assert [y][1..] == [];
  }

  /** Places `x` after every element with a strictly greater key and before
      the rest, so it precedes the elements with an equal key. */
  function Insert<T(==)>(x: T, s: seq<T>, key: T -> string): (r: seq<T>)
    requires SortedDesc(s, key)
    ensures SortedDesc(r, key)
    ensures multiset(r) == multiset(s) + multiset{x}
    ensures forall y :: y in r ==> y == x || y in s
  {
    if s == [] then [x]
    else if LexLe(key(s[0]), key(x)) then
      InsertFrontSorted(x, s, key);
      [x] + s
    else
      var t := Insert(x, s[1..], key);
      assert s == [s[0]] + s[1..];
      LexLeTotal(key(s[0]), key(x));
      InsertBehindSorted(s[0], t, x, s, key);
      [s[0]] + t
  }

  lemma InsertFrontSorted<T>(x: T, s: seq<T>, key: T -> string)
    requires SortedDesc(s, key) && |s| > 0 && LexLe(key(s[0]), key(x))
    ensures SortedDesc([x] + s, key)
  {
    var r := [x] + s;
    forall i, j | 0 <= i < j < |r|
      ensures LexLe(key(r[j]), key(r[i]))
    {
      if i == 0 {
        if j > 1 {
          LexLeTransitive(key(s[j - 1]), key(s[0]), key(x));
        }
      }
    }
  }

  lemma InsertBehindSorted<T>(h: T, t: seq<T>, x: T, s: seq<T>, key: T -> string)
    requires SortedDesc(s, key) && SortedDesc(t, key)
    requires |s| > 0 && h == s[0] && LexLe(key(x), key(h))
    requires forall y :: y in t ==> y == x || y in s[1..]
    ensures SortedDesc([h] + t, key)
  {
    var r := [h] + t;
    forall i, j | 0 <= i < j < |r|
      ensures LexLe(key(r[j]), key(r[i]))
    {
      if i == 0 {
        assert r[j] == t[j - 1];
        assert t[j - 1] in t;
        if r[j] != x {
          var k :| 0 <= k < |s[1..]| && s[1..][k] == r[j];
          assert s[k + 1] == r[j];
        }
      } else {
        assert r[i] == t[i - 1] && r[j] == t[j - 1];
      }
    }
  }

  /** `x` lands in front of the elements sharing its key, so among equal keys
      the original order survives. */
  lemma {:induction false} InsertStable<T>(x: T, s: seq<T>, key: T -> string, k: string)
    requires SortedDesc(s, key)
    ensures WithKey(Insert(x, s, key), key, k) == WithKey([x] + s, key, k)
  {
    if s == [] {
    } else if LexLe(key(s[0]), key(x)) {
    } else {
      var s0 := s[0];
      var rest := s[1..];
      var t := Insert(x, rest, key);
      assert Insert(x, s, key) == [s0] + t;
      assert s == [s0] + rest;
      InsertStable(x, rest, key, k);
      WithKeyAppend([s0], t, key, k);
      WithKeyAppend([x], rest, key, k);
      WithKeyAppend([x], s, key, k);
      WithKeyAppend([s0], rest, key, k);
      WithKeySingle(x, key, k);
      WithKeySingle(s0, key, k);
      LexLeReflexive(key(x));
      assert key(s0) != key(x);
      var wx := WithKey([x], key, k);
      var w0 := WithKey([s0], key, k);
      var wr := WithKey(rest, key, k);
      assert WithKey(Insert(x, s, key), key, k) == w0 + (wx + wr);
      assert WithKey([x] + s, key, k) == wx + (w0 + wr);
      SwapAroundEmpty(w0, wx, wr);
    }
  }

  lemma SwapAroundEmpty<T>(u: seq<T>, v: seq<T>, w: seq<T>)
    requires u == [] || v == []
    ensures u + (v + w) == v + (u + w)
  {
    if u == [] {
      assert u + (v + w) == v + w && u + w == w;
    } else {
      assert v + (u + w) == u + w && v + w == w;
    }
  }

  /** `sort(key=key, reverse=True)`: a stable sort into non-increasing key order. */
  function SortDesc<T(==)>(s: seq<T>, key: T -> string): (r: seq<T>)
    ensures SortedDesc(r, key)
    ensures multiset(r) == multiset(s)
    ensures forall k :: WithKey(r, key, k) == WithKey(s, key, k)
  {
    if s == [] then []
    else
      var t := SortDesc(s[1..], key);
      assert s == [s[0]] + s[1..];
      SortStableStep(s, t, key);
      Insert(s[0], t, key)
  }

  lemma SortStableStep<T>(s: seq<T>, t: seq<T>, key: T -> string)
    requires |s| > 0 && SortedDesc(t, key)
    requires forall k :: WithKey(t, key, k) == WithKey(s[1..], key, k)
    ensures forall k :: WithKey(Insert(s[0], t, key), key, k) == WithKey(s, key, k)
  {
    forall k
      ensures WithKey(Insert(s[0], t, key), key, k) == WithKey(s, key, k)
    {
      InsertStable(s[0], t, key, k);
      WithKeyAppend([s[0]], t, key, k);
      assert s == [s[0]] + s[1..];
      WithKeyAppend([s[0]], s[1..], key, k);
    }
  }

  /** Keeping a prefix of a sorted sequence keeps the largest keys: nothing
      left out has a greater key than anything kept. */
  lemma PrefixHoldsLargest<T>(s: seq<T>, m: nat, key: T -> string)
    requires SortedDesc(s, key) && m <= |s|
    ensures forall x, y :: x in multiset(s) - multiset(s[..m]) && y in s[..m] ==> LexLe(key(x), key(y))
  {
    assert s == s[..m] + s[m..];
    forall x, y | x in multiset(s) - multiset(s[..m]) && y in s[..m]
      ensures LexLe(key(x), key(y))
    {
      assert multiset(s) == multiset(s[..m]) + multiset(s[m..]);
      assert x in multiset(s[m..]);
      assert x in s[m..];
      var j :| 0 <= j < |s[m..]| && s[m..][j] == x;
      var i :| 0 <= i < m && s[..m][i] == y;
      assert s[m + j] == x && s[i] == y;
    }
  }

  /** `sorted(s, key=key, reverse=True)[:k]`: the `k` elements with the largest
      keys (all of `s` when it is shorter), largest first. */
  function TopDesc<T(==)>(s: seq<T>, key: T -> string, k: nat): (r: seq<T>)
    ensures |r| == Min(k, |s|)
    ensures SortedDesc(r, key)
    ensures multiset(r) <= multiset(s)
    ensures forall y :: y in r ==> y in s
    ensures forall x, y :: x in multiset(s) - multiset(r) && y in r ==> LexLe(key(x), key(y))
    ensures forall k' :: WithKey(r, key, k') <= WithKey(s, key, k')
  {
    var sorted := SortDesc(s, key);
    var m := Min(k, |sorted|);
    PrefixFacts(s, sorted, m, key);
    PrefixStable(s, sorted, m, key);
    sorted[..m]
  }

  /** Among the elements sharing a key, a prefix keeps the earliest ones, in
      their order. */
  lemma PrefixKeepsEarliest<T>(s: seq<T>, m: nat, key: T -> string, k: string)
    requires m <= |s|
    ensures WithKey(s[..m], key, k) <= WithKey(s, key, k)
  {
    assert s == s[..m] + s[m..];
    WithKeyAppend(s[..m], s[m..], key, k);
    var w := WithKey(s[..m], key, k);
    assert (w + WithKey(s[m..], key, k))[..|w|] == w;
  }

  lemma PrefixStable<T>(s: seq<T>, sorted: seq<T>, m: nat, key: T -> string)
    requires m <= |sorted|
    requires forall k :: WithKey(sorted, key, k) == WithKey(s, key, k)
    ensures forall k :: WithKey(sorted[..m], key, k) <= WithKey(s, key, k)
  {
    forall k
      ensures WithKey(sorted[..m], key, k) <= WithKey(s, key, k)
    {
      PrefixKeepsEarliest(sorted, m, key, k);
    }
  }

  lemma PrefixFacts<T>(s: seq<T>, sorted: seq<T>, m: nat, key: T -> string)
    requires SortedDesc(sorted, key) && multiset(sorted) == multiset(s) && m <= |sorted|
    ensures |sorted| == |s|
    ensures SortedDesc(sorted[..m], key)
    ensures multiset(sorted[..m]) <= multiset(s)
    ensures forall y :: y in sorted[..m] ==> y in s
    ensures forall x, y :: x in multiset(s) - multiset(sorted[..m]) && y in sorted[..m] ==> LexLe(key(x), key(y))
  {
    assert |multiset(sorted)| == |multiset(s)|;
    var r := sorted[..m];
    assert sorted == r + sorted[m..];
    assert multiset(sorted) == multiset(r) + multiset(sorted[m..]);
    PrefixHoldsLargest(sorted, m, key);
    forall y | y in r
      ensures y in s
    {
      assert y in multiset(r);
    }
  }
}
