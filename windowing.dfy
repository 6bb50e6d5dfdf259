/** The sliding-window arithmetic behind the dataset builder: the start
    offsets Python's `range(0, T - L, S)` yields, the (input, target) chunks
    cut at those offsets, and what can be proved about them. */
module Windowing {

  /** The values `range(start, stop, step)` yields for a positive step,
      enumerated one by one: start, start + step, ... while below stop. */
  function Range(start: int, stop: int, step: int): (r: seq<int>)
    requires step >= 1
    ensures forall k :: 0 <= k < |r| ==> start <= r[k] < stop
    ensures forall k :: 0 < k < |r| ==> r[k] == r[k - 1] + step
    ensures r == [] <==> start >= stop
    decreases stop - start
  {
    if start < stop then [start] + Range(start + step, stop, step) else []
  }

  /** The `k`-th value of the range is `start + k * step`. */
  lemma {:induction false} RangeAt(start: int, stop: int, step: int, k: int)
    requires step >= 1 && 0 <= k < |Range(start, stop, step)|
    ensures Range(start, stop, step)[k] == start + k * step
  {
    if k > 0 {
      RangeAt(start, stop, step, k - 1);
      assert (k - 1) * step + step == k * step;
    }
  }

  /** The range stops at the first multiple of `step` past `start` that reaches `stop`. */
  lemma {:induction false} RangeEnd(start: int, stop: int, step: int)
    requires step >= 1
    ensures start + |Range(start, stop, step)| * step >= stop
    decreases stop - start
  {
    if start < stop {
      RangeEnd(start + step, stop, step);
      var n := |Range(start + step, stop, step)|;
      assert (n + 1) * step == n * step + step;
    }
  }

  /** The offsets at which windows of length `len` start, with stride `stride`. */
  function WindowStarts(tokens: seq<int>, len: int, stride: int): (r: seq<int>)
    requires stride >= 1
  {
    Range(0, |tokens| - len, stride)
  }

  /** The pair count in closed form: ceil((T - L) / S) when T > L, else 0. */
  function PairCount(tokenCount: int, len: int, stride: int): (n: nat)
    requires stride >= 1
  {
    if tokenCount > len then (tokenCount - len + stride - 1) / stride else 0
  }

  /** The input chunk of every window: `token_ids[i:i + max_length]`. */
  function InputChunks(tokens: seq<int>, len: int, stride: int): (r: seq<seq<int>>)
    requires len >= 1 && stride >= 1
  {
    var starts := WindowStarts(tokens, len, stride);
    seq(|starts|, k requires 0 <= k < |starts| => tokens[starts[k]..starts[k] + len])
  }

  /** The target chunk of every window: `token_ids[i + 1:i + max_length + 1]`. */
  function TargetChunks(tokens: seq<int>, len: int, stride: int): (r: seq<seq<int>>)
    requires len >= 1 && stride >= 1
  {
    var starts := WindowStarts(tokens, len, stride);
    seq(|starts|, k requires 0 <= k < |starts| => tokens[starts[k] + 1..starts[k] + len + 1])
  }

  /** Multiplying by a positive `d` keeps distinct integers at least `d` apart. */
  lemma {:induction false} MulGap(a: int, b: int, d: int)
    requires a < b && d >= 1
    ensures a * d + d <= b * d
    decreases b - a
  {
    if a + 1 < b {
      MulGap(a + 1, b, d);
    }
    assert (a + 1) * d == a * d + d;
  }

  /** Chunks cut at exactly the window offsets, in order, are the windows. */
  lemma ChunksAtStarts(tokens: seq<int>, len: int, stride: int, starts: seq<int>,
                       inputs: seq<seq<int>>, targets: seq<seq<int>>)
    requires len >= 1 && stride >= 1
    requires starts == WindowStarts(tokens, len, stride)
    requires |inputs| == |targets| == |starts|
    requires forall k :: 0 <= k < |starts| ==>
      inputs[k] == tokens[starts[k]..starts[k] + len] &&
      targets[k] == tokens[starts[k] + 1..starts[k] + len + 1]
    ensures inputs == InputChunks(tokens, len, stride)
    ensures targets == TargetChunks(tokens, len, stride)
  {
  }

  /** A quotient is pinned down by the interval its dividend lies in. */
  lemma DivBetween(x: int, d: int, q: int)
    requires d >= 1 && q * d <= x < q * d + d
    ensures x / d == q
  {
    var q0, r0 := x / d, x % d;
    assert x == q0 * d + r0 && 0 <= r0 < d;
    if q0 > q {
      MulGap(q, q0, d);
    } else if q0 < q {
      MulGap(q0, q, d);
    }
  }

  /** The number of offsets below `stop` is the ceiling of `(stop - start) / step`,
      and none when `start >= stop`. */
  lemma {:induction false} RangeLength(start: int, stop: int, step: int)
    requires step >= 1
    ensures |Range(start, stop, step)| == if start < stop then (stop - start + step - 1) / step else 0
  {
    var r := Range(start, stop, step);
    var c := |r|;
    if start < stop {
      RangeEnd(start, stop, step);
      RangeAt(start, stop, step, c - 1);
      assert r[c - 1] == start + (c - 1) * step < stop;
      assert (c - 1) * step == c * step - step;
      DivBetween(stop - start + step - 1, step, c);
    }
  }

  /** Offsets come out strictly increasing, one stride apart. */
  lemma {:induction false} RangeIncreasing(start: int, stop: int, step: int, a: int, b: int)
    requires step >= 1 && 0 <= a < b < |Range(start, stop, step)|
    ensures Range(start, stop, step)[a] < Range(start, stop, step)[b]
    ensures Range(start, stop, step)[b] - Range(start, stop, step)[a] == (b - a) * step
  {
    var r := Range(start, stop, step);
    RangeAt(start, stop, step, a);
    RangeAt(start, stop, step, b);
    assert r[b] - r[a] == b * step - a * step == (b - a) * step;
    MulGap(a, b, step);
  }

  /** Window `k` starts at `k * S`, and both of its slices lie within the tokens. */
  lemma WindowStartAt(tokens: seq<int>, len: int, stride: int, k: int)
    requires len >= 1 && stride >= 1 && 0 <= k < |WindowStarts(tokens, len, stride)|
    ensures WindowStarts(tokens, len, stride)[k] == k * stride
    ensures 0 <= k * stride && k * stride + len + 1 <= |tokens|
  {
    RangeAt(0, |tokens| - len, stride, k);
  }

  /** The exact pair count: one pair per offset below `T - L`, which is
      `ceil((T - L) / S)`, and no pair at all when `T <= L`. */
  lemma {:induction false} ChunkCount(tokens: seq<int>, len: int, stride: int)
    requires len >= 1 && stride >= 1
    ensures |InputChunks(tokens, len, stride)| == |TargetChunks(tokens, len, stride)|
    ensures |InputChunks(tokens, len, stride)| == PairCount(|tokens|, len, stride)
    ensures |tokens| <= len ==> InputChunks(tokens, len, stride) == []
  {
    RangeLength(0, |tokens| - len, stride);
  }

  /** Pair `k`'s input is the `len` tokens from offset `k * S`. */
  lemma InputAligned(tokens: seq<int>, len: int, stride: int, k: int, j: int)
    requires len >= 1 && stride >= 1
    requires 0 <= k < |InputChunks(tokens, len, stride)| && 0 <= j < len
    ensures |InputChunks(tokens, len, stride)[k]| == len
    ensures 0 <= k * stride + j < |tokens|
    ensures InputChunks(tokens, len, stride)[k][j] == tokens[k * stride + j]
  {
    WindowStartAt(tokens, len, stride, k);
  }

  /** Pair `k`'s target is the `len` tokens from offset `k * S + 1`: it never
      runs past the end of the tokens. */
  lemma TargetAligned(tokens: seq<int>, len: int, stride: int, k: int, j: int)
    requires len >= 1 && stride >= 1
    requires 0 <= k < |TargetChunks(tokens, len, stride)| && 0 <= j < len
    ensures |TargetChunks(tokens, len, stride)[k]| == len
    ensures 0 <= k * stride + j + 1 < |tokens|
    ensures TargetChunks(tokens, len, stride)[k][j] == tokens[k * stride + j + 1]
  {
    WindowStartAt(tokens, len, stride, k);
  }

  /** The target is the input shifted one token forward: they agree on the
      overlap, and the target's last token is the one right after the input. */
  lemma Shifted(tokens: seq<int>, len: int, stride: int, k: int)
    requires len >= 1 && stride >= 1
    requires 0 <= k < |InputChunks(tokens, len, stride)|
    ensures |TargetChunks(tokens, len, stride)| == |InputChunks(tokens, len, stride)|
    ensures 0 <= k * stride && k * stride + len < |tokens|
    ensures var input, target := InputChunks(tokens, len, stride)[k], TargetChunks(tokens, len, stride)[k];
      |input| == |target| == len &&
      target[..len - 1] == input[1..] &&
      target[len - 1] == tokens[k * stride + len]
  {
    WindowStartAt(tokens, len, stride, k);
  }
}
