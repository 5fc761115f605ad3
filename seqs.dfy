/** Sequence helpers: concatenation of a list of lists, fixed-size slicing and Python's `s[:k]`. */
module Seqs {

  /** The smaller of two integers. */
  function Min(a: int, b: int): int { if a <= b then a else b }

  /** Appending is associative. */
  lemma AppendAssoc<T>(a: seq<T>, b: seq<T>, c: seq<T>)
    ensures a + b + c == a + (b + c)
  {
  }

  /** The empty sequence is a unit of appending. */
  lemma AppendEmpty<T>(a: seq<T>)
    ensures [] + a == a && a + [] == a
  {
  }

  /** A sequence is the part before position `k`, the element there and the part after it. */
  lemma SplitAt<T>(s: seq<T>, k: int)
    requires 0 <= k < |s|
    ensures s == s[..k] + [s[k]] + s[k + 1..]
  {
  }

  /** The element between two parts is in their concatenation. */
  lemma InMiddle<T>(a: seq<T>, x: T, b: seq<T>)
    ensures x in a + [x] + b
  {
    assert (a + [x] + b)[|a|] == x;
  }

  /** Some element satisfies `p`. */
  predicate Any<T>(s: seq<T>, p: T -> bool) {
    exists i :: 0 <= i < |s| && p(s[i])
  }

  /** An element of `s + [x]` satisfies `p` exactly when one of `s` does or `x` does. */
  lemma AnySnoc<T>(s: seq<T>, p: T -> bool)
    requires s != []
    ensures Any(s, p) <==> (Any(s[..|s| - 1], p) || p(s[|s| - 1]))
  {
    var init := s[..|s| - 1];
    if Any(s, p) {
      var i :| 0 <= i < |s| && p(s[i]);
      if i < |init| {
        assert init[i] == s[i];
      }
    }
    if Any(init, p) {
      var i :| 0 <= i < |init| && p(init[i]);
      assert s[i] == init[i];
    }
  }

  /** Every element satisfies `p`. */
  predicate All<T>(s: seq<T>, p: T -> bool) {
    forall i :: 0 <= i < |s| ==> p(s[i])
  }

  /** Every element of `s + [x]` satisfies `p` exactly when those of `s` and `x` do. */
  lemma AllSnoc<T>(s: seq<T>, p: T -> bool)
    requires s != []
    ensures All(s, p) <==> (All(s[..|s| - 1], p) && p(s[|s| - 1]))
  {
    var init := s[..|s| - 1];
    forall i | 0 <= i < |init| ensures init[i] == s[i] { }
  }

  /** The concatenation of the parts, in order: a series of `list.extend` calls. */
  function Concat<T>(parts: seq<seq<T>>): seq<T> {
    if parts == [] then [] else parts[0] + Concat(parts[1..])
  }

  /** Joining two lists of parts is joining each. */
  lemma {:induction false} ConcatAppend<T>(a: seq<seq<T>>, b: seq<seq<T>>)
    ensures Concat(a + b) == Concat(a) + Concat(b)
  {
    if a == [] {
      assert a + b == b;
    } else {
      assert (a + b)[0] == a[0];
      assert (a + b)[1..] == a[1..] + b;
      ConcatAppend(a[1..], b);
    }
  }

  /** One more part adds it at the end. */
  lemma ConcatSnoc<T>(a: seq<seq<T>>, x: seq<T>)
    ensures Concat(a + [x]) == Concat(a) + x
  {
    ConcatAppend(a, [x]);
    assert Concat([x]) == x + Concat([]);
  }

  /** The results of f on each element, concatenated in order: a loop that extends a list with
      each element's results. */
  function FlatMap<T, U>(s: seq<T>, f: T -> seq<U>): seq<U> {
    if s == [] then [] else FlatMap(s[..|s| - 1], f) + f(s[|s| - 1])
  }

  /** One more element adds its image at the end. */
  lemma FlatMapSnoc<T, U>(s: seq<T>, x: T, f: T -> seq<U>)
    ensures FlatMap(s + [x], f) == FlatMap(s, f) + f(x)
  {
    assert (s + [x])[..|s|] == s;
  }

  /** The elements are handled independently: the results of two runs are those of each. */
  lemma {:induction false} FlatMapAppend<T, U>(a: seq<T>, b: seq<T>, f: T -> seq<U>)
    ensures FlatMap(a + b, f) == FlatMap(a, f) + FlatMap(b, f)
    decreases |b|
  {
    if b == [] {
      assert a + b == a;
    } else {
      var b', x := b[..|b| - 1], b[|b| - 1];
      assert a + b == (a + b') + [x];
      assert b == b' + [x];
      FlatMapSnoc(a + b', x, f);
      FlatMapSnoc(b', x, f);
      FlatMapAppend(a, b', f);
    }
  }

  /** `[s[i:i + n] for i in range(0, len(s), n)]`: consecutive slices of n elements, the last one
      shorter when n does not divide the length. */
  function Chunks<T>(s: seq<T>, n: nat): (r: seq<seq<T>>)
    requires n > 0
    ensures forall i :: 0 <= i < |r| ==> 0 < |r[i]| <= n
    ensures forall i :: 0 <= i < |r| - 1 ==> |r[i]| == n
    decreases |s|
  {
    if s == [] then [] else [s[..Min(n, |s|)]] + Chunks(s[Min(n, |s|)..], n)
  }

  /** The slices put back together are the sequence. */
  lemma {:induction false} ChunksConcat<T>(s: seq<T>, n: nat)
    requires n > 0
    ensures Concat(Chunks(s, n)) == s
    decreases |s|
  {
    if s != [] {
      var m := Min(n, |s|);
      ChunksConcat(s[m..], n);
      assert Chunks(s, n)[0] == s[..m];
      assert Chunks(s, n)[1..] == Chunks(s[m..], n);
      assert s[..m] + s[m..] == s;
    }
  }

  /** There are ceil(|s| / n) slices: all but the last are full. */
  lemma {:induction false} ChunksCount<T>(s: seq<T>, n: nat)
    requires n > 0
    ensures (|Chunks(s, n)| - 1) * n < |s| <= |Chunks(s, n)| * n
    decreases |s|
  {
    if s != [] {
      var m := Min(n, |s|);
      ChunksCount(s[m..], n);
      var k := |Chunks(s[m..], n)|;
      assert |Chunks(s, n)| == k + 1;
      assert (k + 1) * n == k * n + n;
    }
  }

  /** Python's `s[:k]`: a negative bound counts from the end. */
  function TakePy<T>(s: seq<T>, k: int): (r: seq<T>)
    ensures 0 <= k ==> r == s[..Min(k, |s|)]
    ensures k < 0 ==> r == s[..if |s| + k < 0 then 0 else |s| + k]
    ensures |r| <= |s| && r == s[..|r|]
    ensures 0 <= k ==> |r| == Min(k, |s|)
    ensures k < 0 ==> |r| + (-k) == |s| || (r == [] && |s| < -k)
  {
    if k >= 0 then s[..Min(k, |s|)]
    else if |s| + k < 0 then []
    else s[..|s| + k]
  }
}
