/** The dataset object: built once from a token sequence by a sliding-window
    loop, then read by position. */
module Dataset {
  import opened Windowing

  class GPTDatasetV1 {
    /** The input chunk of each pair, in order of start offset. */
    var inputIds: seq<seq<int>>
    /** The target chunk of each pair, in lockstep with `inputIds`. */
    var targetIds: seq<seq<int>>

    /** What the object was built from; the object itself keeps only the chunks. */
    ghost var tokens: seq<int>
    ghost var maxLength: int
    ghost var stride: int

    /** The stored chunks are exactly the windows of `tokens`. */
    ghost predicate Valid()
      reads this
    {
      maxLength >= 1 && stride >= 1 &&
      inputIds == InputChunks(tokens, maxLength, stride) &&
      targetIds == TargetChunks(tokens, maxLength, stride)
    }

    /** Cuts `tokenIds` into windows: one (input, target) pair for every
        offset `0, S, 2S, ...` below `|tokenIds| - maxLength`. */
    constructor (tokenIds: seq<int>, maxLength: int, stride: int)
      requires maxLength >= 1 && stride >= 1
      ensures Valid()
      ensures tokens == tokenIds && this.maxLength == maxLength && this.stride == stride
    {
      inputIds := [];
      targetIds := [];
      tokens := tokenIds;
      this.maxLength := maxLength;
      this.stride := stride;
      new;
      var stop := |tokenIds| - maxLength;
      var i := 0;
      ghost var visited: seq<int> := [];
      while i < stop
        invariant tokens == tokenIds && this.maxLength == maxLength && this.stride == stride
        invariant 0 <= i
        invariant visited + Range(i, stop, stride) == Range(0, stop, stride)
        invariant forall k :: 0 <= k < |visited| ==> 0 <= visited[k] < stop
        invariant |inputIds| == |targetIds| == |visited|
        invariant forall k :: 0 <= k < |visited| ==>
          inputIds[k] == tokenIds[visited[k]..visited[k] + maxLength] &&
          targetIds[k] == tokenIds[visited[k] + 1..visited[k] + maxLength + 1]
        decreases stop - i
      {
        assert Range(i, stop, stride) == [i] + Range(i + stride, stop, stride);
        var inputChunk := tokenIds[i..i + maxLength];
        var targetChunk := tokenIds[i + 1..i + maxLength + 1];
        inputIds := inputIds + [inputChunk];
        targetIds := targetIds + [targetChunk];
        visited := visited + [i];
        i := i + stride;
      }
      assert Range(i, stop, stride) == [];
      ChunksAtStarts(tokenIds, maxLength, stride, visited, inputIds, targetIds);
    }

    /** The number of pairs: `ceil((T - L) / S)` when `T > L`, else 0. */
    method Length() returns (n: nat)
      requires Valid()
      ensures n == PairCount(|tokens|, maxLength, stride)
      ensures |tokens| <= maxLength ==> n == 0
    {
      ChunkCount(tokens, maxLength, stride);
      n := |inputIds|;
    }

    /** Pair `idx`: the `maxLength` tokens from offset `idx * S`, and the same
        window moved one token forward. */
    method Get(idx: int) returns (input: seq<int>, target: seq<int>)
      requires Valid()
      requires 0 <= idx < PairCount(|tokens|, maxLength, stride)
      ensures 0 <= idx * stride && idx * stride + maxLength + 1 <= |tokens|
      ensures input == tokens[idx * stride..idx * stride + maxLength]
      ensures target == tokens[idx * stride + 1..idx * stride + maxLength + 1]
      ensures |input| == |target| == maxLength
      ensures forall k :: 0 <= k < maxLength - 1 ==> target[k] == input[k + 1]
    {
      ChunkCount(tokens, maxLength, stride);
      WindowStartAt(tokens, maxLength, stride, idx);
      input, target := inputIds[idx], targetIds[idx];
    }
  }

  /** The three window/stride settings of the demonstration driver, run on the
      ten tokens 0, 1, ..., 9 instead of a tokenized text file. */
  method SampleCounts() returns (noOverlap: nat, highOverlap: nat, partialOverlap: nat, whole: nat)
    ensures noOverlap == 2 && highOverlap == 6 && partialOverlap == 3 && whole == 0
  {
    var tokens := [0, 1, 2, 3, 4, 5, 6, 7, 8, 9];
    var d1 := new GPTDatasetV1(tokens, 4, 4);
    noOverlap := d1.Length();
    var input, target := d1.Get(1);
    assert input == [4, 5, 6, 7] && target == [5, 6, 7, 8];
    var d2 := new GPTDatasetV1(tokens, 4, 1);
    highOverlap := d2.Length();
    input, target := d2.Get(5);
    assert input == [5, 6, 7, 8] && target == [6, 7, 8, 9];
    var d3 := new GPTDatasetV1(tokens, 4, 2);
    partialOverlap := d3.Length();
    input, target := d3.Get(1);
    assert input == [2, 3, 4, 5] && target == [3, 4, 5, 6];
    var d4 := new GPTDatasetV1(tokens, 10, 1);
    whole := d4.Length();
  }
}
