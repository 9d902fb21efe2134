/** Small shared vocabulary: an optional value, the minimum of two integers and
    Python's "last n elements" slice. */
module Base {

  /** A value that may be absent (a missing JSON key, a date that does not parse). */
  datatype Option<+T> = None | Some(value: T)

  function Min(a: int, b: int): int
  {
    if a <= b then a else b
  }

  /** Python's `s[-n:]` for a positive `n`: the last `n` elements of `s`, or all
      of `s` when it is shorter. */
  function Last<T>(s: seq<T>, n: nat): (r: seq<T>)
    requires 0 < n
    ensures |r| == Min(|s|, n)
    ensures r == s[|s| - |r|..]
  {
    if |s| <= n then s else s[|s| - n..]
  }

  /** Taking the last `n` elements twice, with more elements appended in between,
      is the same as taking them once at the end. */
  lemma LastOfLast<T>(a: seq<T>, b: seq<T>, n: nat)
    requires 0 < n
    ensures Last(Last(a, n) + b, n) == Last(a + b, n)
  {
    if |a| > n {
      var p := a[..|a| - n];
      var la := a[|a| - n..];
      assert a == p + la;
      assert a + b == p + (la + b);
      LastIgnoresPrefix(p, la + b, n);
    }
  }

  /** The last `n` elements lie wholly inside any suffix that has `n` elements. */
  lemma LastIgnoresPrefix<T>(p: seq<T>, x: seq<T>, n: nat)
    requires 0 < n <= |x|
    ensures Last(p + x, n) == Last(x, n)
  {
    var y := p + x;
    var j := |x| - n;
    assert y[|p|..] == x;
    assert y[|p|..][j..] == y[|p| + j..];
    assert |y| - n == |p| + j;
  }

  /** Regrouping a concatenation, which the section-by-section inductions
      over operation sequences need. */
  lemma AppendAssoc<T>(a: seq<T>, b: seq<T>, c: seq<T>)
    ensures (a + b) + c == a + (b + c)
  {
  }
}
