/**
 * Cutting a list into consecutive slices `list.slice(i, i + size)` for
 * `i = 0, size, 2 * size, ...`, as the thumbnail preloader (5 per batch),
 * the album-card renderer (5) and the zip download (3) do.
 */
module Batching {

  /** The slices of `s` of length `n`, the last one possibly shorter. */
  function Batches<T>(s: seq<T>, n: nat): (r: seq<seq<T>>)
    requires n > 0
    decreases |s|
  {
    if s == [] then [] else if |s| <= n then [s] else [s[..n]] + Batches(s[n..], n)
  }

  /** No batch is empty and none holds more than `n` elements. */
  lemma {:induction false} BatchesBounded<T>(s: seq<T>, n: nat)
    requires n > 0
    ensures forall b :: b in Batches(s, n) ==> 1 <= |b| <= n
    decreases |s|
  {
    if |s| > n {
      BatchesBounded(s[n..], n);
    }
  }

  /** The concatenation of a list of lists. */
  function Flatten<T>(bs: seq<seq<T>>): seq<T> {
    if bs == [] then [] else bs[0] + Flatten(bs[1..])
  }

  /** The next slice taken at the front of a non-empty rest. */
  lemma BatchesFront<T>(s: seq<T>, n: nat)
    requires n > 0 && s != []
    ensures var k := if |s| < n then |s| else n;
      Batches(s, n) == [s[..k]] + Batches(s[k..], n)
  {
    if |s| <= n {
      assert s[..|s|] == s;
      assert s[(if |s| < n then |s| else n)..] == [];
    }
  }

  /** The `slice(i, i + n)` a loop takes at position `i` is the first batch of the rest. */
  lemma BatchesStep<T>(s: seq<T>, n: nat, i: nat, end: nat)
    requires 0 < n && i < |s|
    requires end == if i + n < |s| then i + n else |s|
    ensures i < end
    ensures Batches(s[i..], n) == [s[i..end]] + Batches(s[end..], n)
  {
    BatchesFront(s[i..], n);
    assert s[i..][..end - i] == s[i..end];
    assert s[i..][end - i..] == s[end..];
  }

  /** Every element lies in exactly one batch, in the original order. */
  lemma {:induction false} BatchesPartition<T>(s: seq<T>, n: nat)
    requires n > 0
    ensures Flatten(Batches(s, n)) == s
    decreases |s|
  {
    if s == [] {
    } else if |s| <= n {
      assert Flatten(Batches(s, n)) == s + Flatten<T>([]);
    } else {
      BatchesPartition(s[n..], n);
      assert s == s[..n] + s[n..];
    }
  }

  /** There are ceil(|s| / n) batches: (count - 1) * n < |s| <= count * n. */
  lemma {:induction false} BatchesCount<T>(s: seq<T>, n: nat)
    requires n > 0
    ensures |s| <= |Batches(s, n)| * n
    ensures s != [] ==> (|Batches(s, n)| - 1) * n < |s|
    decreases |s|
  {
    if |s| > n {
      var c := |Batches(s[n..], n)|;
      BatchesCount(s[n..], n);
      assert |Batches(s, n)| == c + 1;
      MulSucc(c, n);
    }
  }

  lemma MulSucc(c: nat, n: nat)
    ensures (c + 1) * n == c * n + n
  {
  }

  /** All batches but the last hold exactly `n` elements. */
  lemma {:induction false} BatchesFull<T>(s: seq<T>, n: nat)
    requires n > 0
    ensures forall k :: 0 <= k < |Batches(s, n)| - 1 ==> |Batches(s, n)[k]| == n
    decreases |s|
  {
    if |s| > n {
      var r, t := Batches(s, n), Batches(s[n..], n);
      BatchesFull(s[n..], n);
      forall k | 0 <= k < |r| - 1 ensures |r[k]| == n {
        if k > 0 { assert r[k] == t[k - 1]; }
      }
    }
  }
}
