/**
 * Splitting an outbound message into parts that fit the chat platform's
 * limit on the length of one message.
 */
module Chunking {
  import opened Text

  /** The platform's limit on the length of one message. */
  const MaxMessageLength: nat := 4096

  function Min(a: int, b: int): int {
    if a <= b then a else b
  }

  /** The parts of s: consecutive slices of w characters, the last one possibly shorter. */
  function Chunk(s: string, w: nat): seq<string>
    requires w > 0
  {
    if |s| == 0 then []
    else [s[..Min(w, |s|)]] + Chunk(s[Min(w, |s|)..], w)
  }

  /** Concatenating the parts gives back the message. */
  lemma {:induction false} ChunkConcat(s: string, w: nat)
    requires w > 0
    ensures Concat(Chunk(s, w)) == s
  {
    if |s| > 0 {
      var m := Min(w, |s|);
      ChunkConcat(s[m..], w);
      assert s == s[..m] + s[m..];
    }
  }

  /** Every part is non-empty and at most w long; every part but the last is exactly w long. */
  lemma {:induction false} ChunkSizes(s: string, w: nat)
    requires w > 0
    ensures forall k :: 0 <= k < |Chunk(s, w)| ==> 0 < |Chunk(s, w)[k]| <= w
    ensures forall k :: 0 <= k < |Chunk(s, w)| - 1 ==> |Chunk(s, w)[k]| == w
  {
    if |s| > 0 {
      var m := Min(w, |s|);
      ChunkSizes(s[m..], w);
      var parts := Chunk(s, w);
      var rest := Chunk(s[m..], w);
      assert parts == [s[..m]] + rest;
      forall k | 0 <= k < |parts| ensures 0 < |parts[k]| <= w {
        if k > 0 { assert parts[k] == rest[k - 1]; }
      }
      forall k | 0 <= k < |parts| - 1 ensures |parts[k]| == w {
        if k > 0 { assert parts[k] == rest[k - 1]; } else { assert |s[m..]| > 0; }
      }
    }
  }

  /** There are ceil(|s| / w) parts; in particular the empty message has none. */
  lemma {:induction false} ChunkCount(s: string, w: nat)
    requires w > 0
    ensures |Chunk(s, w)| == (|s| + w - 1) / w
    ensures |Chunk(s, w)| == 0 <==> s == []
  {
    if |s| == 0 {
      DivUnique(w - 1, w, 0, w - 1);
    } else if |s| <= w {
      DivUnique(|s| + w - 1, w, 1, |s| - 1);
    } else {
      ChunkCount(s[w..], w);
      DivStep(|s| - 1, w);
    }
  }

  /** Part k is the slice s[k*w : k*w + w] of Python's slicing, which stops at the end of s. */
  lemma {:induction false} ChunkAt(s: string, w: nat, k: nat)
    requires w > 0 && k < |Chunk(s, w)|
    ensures k * w < |s|
    ensures Chunk(s, w)[k] == s[k * w .. Min(k * w + w, |s|)]
  {
    if k > 0 {
      var rest := s[Min(w, |s|)..];
      assert Chunk(s, w)[k] == Chunk(rest, w)[k - 1];
      ChunkAt(rest, w, k - 1);
      // rest has parts, so it is not empty and the first part took w characters
      assert |rest| == |s| - w;
      var j := (k - 1) * w;
      MulSucc(k, w);
      SuffixSlice(s, w, j, Min(j + w, |rest|));
    }
  }

  lemma MulSucc(k: int, w: int)
    ensures (k - 1) * w + w == k * w
  {
  }

  lemma SuffixSlice(s: string, m: nat, a: nat, b: nat)
    requires m <= |s| && a <= b <= |s| - m
    ensures s[m..][a..b] == s[m + a..m + b]
  {
  }

  lemma MulBounds(d: int, w: int)
    requires w > 0
    ensures d >= 1 ==> d * w >= w
    ensures d <= -1 ==> d * w <= -w
  {
    if d >= 1 {
      assert d * w == (d - 1) * w + w;
    } else if d <= -1 {
      assert d * w == (d + 1) * w - w;
    }
  }

  /** Integer division is determined by the quotient-remainder decomposition. */
  lemma DivUnique(x: int, w: int, q: int, r: int)
    requires 0 <= r < w && x == q * w + r
    ensures x / w == q
  {
    var q', r' := x / w, x % w;
    assert x == q' * w + r';
    assert (q - q') * w == r' - r;
    MulBounds(q - q', w);
  }

  lemma DivStep(x: int, w: int)
    requires 0 <= x && 0 < w
    ensures (x + w) / w == x / w + 1
  {
    var q, r := x / w, x % w;
    assert x == q * w + r;
    assert x + w == (q + 1) * w + r;
    DivUnique(x + w, w, q + 1, r);
  }
}
