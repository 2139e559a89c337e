/** Cutting a sequence into consecutive batches of bounded size. */
module Chunking {

  /** The concatenation of the batches, in order. */
  function Flatten<T>(bs: seq<seq<T>>): seq<T>
    decreases |bs|
  {
    if bs == [] then [] else bs[0] + Flatten(bs[1..])
  }

  lemma {:induction false} FlattenAppend<T>(a: seq<seq<T>>, b: seq<seq<T>>)
    ensures Flatten(a + b) == Flatten(a) + Flatten(b)
    decreases |a|
  {
    if a == [] {
      assert a + b == b;
    } else {
      assert (a + b)[1..] == a[1..] + b;
      FlattenAppend(a[1..], b);
    }
  }

  /** Consecutive slices of `n` elements, the last one possibly shorter; none for an empty input. */
  function Chunks<T>(s: seq<T>, n: nat): seq<seq<T>>
    requires n >= 1
    decreases |s|
  {
    if s == [] then []
    else if |s| <= n then [s]
    else [s[..n]] + Chunks(s[n..], n)
  }

  /** The batches concatenate back to the input. */
  lemma {:induction false} ChunksFlatten<T>(s: seq<T>, n: nat)
    requires n >= 1
    ensures Flatten(Chunks(s, n)) == s
    decreases |s|
  {
    if |s| > n {
      ChunksFlatten(s[n..], n);
      assert s == s[..n] + s[n..];
    }
  }

  /** Every batch holds between 1 and `n` elements, and all but the last hold exactly `n`. */
  lemma {:induction false} ChunksSizes<T>(s: seq<T>, n: nat)
    requires n >= 1
    ensures forall k :: 0 <= k < |Chunks(s, n)| ==> 1 <= |Chunks(s, n)[k]| <= n
    ensures forall k :: 0 <= k < |Chunks(s, n)| - 1 ==> |Chunks(s, n)[k]| == n
    decreases |s|
  {
    if |s| > n {
      ChunksSizes(s[n..], n);
    }
  }

  /** There are ceil(|s| / n) batches. */
  lemma {:induction false} ChunksCount<T>(s: seq<T>, n: nat)
    requires n >= 1
    ensures |Chunks(s, n)| == (|s| + n - 1) / n
    decreases |s|
  {
    if |s| > n {
      ChunksCount(s[n..], n);
      DivStep(|s| - 1, n);
    } else if s != [] {
      DivOne(|s| + n - 1, n);
    }
  }

  lemma DivStep(x: nat, n: nat)
    requires n >= 1
    ensures (x + n) / n == x / n + 1
  {
    var q, r := x / n, x % n;
    assert x == n * q + r && 0 <= r < n;
    assert x + n == n * (q + 1) + r;
    var Q, R := (x + n) / n, (x + n) % n;
    assert x + n == n * Q + R && 0 <= R < n;
    assert n * (Q - q - 1) == r - R;
    MulAtLeast(n, Q - q - 1);
    MulAtLeast(n, q + 1 - Q);
  }

  lemma MulAtLeast(n: nat, k: int)
    requires n >= 1
    ensures k >= 1 ==> n * k >= n
  {
  }

  lemma DivOne(x: nat, n: nat)
    requires n >= 1 && n <= x < 2 * n
    ensures x / n == 1
  {
    var Q, R := x / n, x % n;
    assert x == n * Q + R && 0 <= R < n;
    assert n * (Q - 1) == x - n - R;
    MulAtLeast(n, Q - 1);
    MulAtLeast(n, 1 - Q);
  }

  /**
   * Adding one element: it joins the last batch while that batch has room and
   * otherwise opens a new batch.
   */
  lemma {:induction false} ChunksSnoc<T>(s: seq<T>, n: nat, e: T)
    requires n >= 1
    ensures s == [] ==> Chunks(s + [e], n) == [[e]]
    ensures s != [] && |Chunks(s, n)[|Chunks(s, n)| - 1]| < n ==>
      Chunks(s + [e], n) == Chunks(s, n)[..|Chunks(s, n)| - 1] + [Chunks(s, n)[|Chunks(s, n)| - 1] + [e]]
    ensures s != [] && |Chunks(s, n)[|Chunks(s, n)| - 1]| >= n ==>
      Chunks(s + [e], n) == Chunks(s, n) + [[e]]
    decreases |s|
  {
    if s == [] {
      assert s + [e] == [e];
    } else if |s| < n {
    } else if |s| == n {
      assert (s + [e])[..n] == s;
      assert (s + [e])[n..] == [e];
    } else {
      assert (s + [e])[..n] == s[..n];
      assert (s + [e])[n..] == s[n..] + [e];
      ChunksSnoc(s[n..], n, e);
      var tail := Chunks(s[n..], n);
      assert Chunks(s, n) == [s[..n]] + tail;
      assert tail != [];
    }
  }
}
