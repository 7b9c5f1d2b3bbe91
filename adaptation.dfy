/**
 * The index arithmetic of `set_forward_adaptation`: each epoch walks a permutation of the
 * support indices in mini-batches `rand_id[i : min(i + 4, support_size)]`.
 */
module Adaptation {
  import opened Sequences

  const Epochs: nat := 100
  const BatchSize: nat := 4

  /**
   * `for i in range(0, support_size, batch_size)`: the mini-batches of one epoch, in order.
   */
  method MiniBatches(randId: seq<int>, supportSize: nat) returns (batches: seq<seq<int>>)
    requires |randId| == supportSize
    ensures batches == Chunks(randId, BatchSize)
    ensures |batches| == (supportSize + BatchSize - 1) / BatchSize
    ensures forall k :: 0 <= k < |batches| ==>
      batches[k] == randId[BatchSize * k .. Min(BatchSize * k + BatchSize, supportSize)]
  {
    batches := [];
    var i := 0;
    while i < supportSize
      invariant i == BatchSize * |batches|
      invariant i <= supportSize + BatchSize - 1
      invariant batches + Chunks(randId[Min(i, supportSize)..], BatchSize) == Chunks(randId, BatchSize)
      decreases supportSize - i
    {
      var selected := randId[i .. Min(i + BatchSize, supportSize)];
      NextBatch(randId, i);
      batches := batches + [selected];
      i := i + BatchSize;
    }
    assert randId[supportSize..] == [];
    ChunksCount(randId, BatchSize);
    BatchSlices(randId);
  }

  /** The mini-batch taken at offset `i`, followed by the mini-batches after it. */
  lemma NextBatch(randId: seq<int>, i: nat)
    requires i < |randId|
    ensures Chunks(randId[i..], BatchSize) ==
      [randId[i .. Min(i + BatchSize, |randId|)]] + Chunks(randId[Min(i + BatchSize, |randId|)..], BatchSize)
  {
    var rest := randId[i..];
    var selected := randId[i .. Min(i + BatchSize, |randId|)];
    if |rest| > BatchSize {
      assert rest[..BatchSize] == selected && rest[BatchSize..] == randId[i + BatchSize..];
    } else {
      assert rest == selected && randId[|randId|..] == [];
    }
  }

  /** Mini-batch `k` is `randId[4k : min(4k + 4, len)]`. */
  lemma BatchSlices(randId: seq<int>)
    ensures forall k :: 0 <= k < |Chunks(randId, BatchSize)| ==>
      BatchSize * k < |randId| &&
      Chunks(randId, BatchSize)[k] == randId[BatchSize * k .. Min(BatchSize * k + BatchSize, |randId|)]
  {
    forall k | 0 <= k < |Chunks(randId, BatchSize)|
      ensures BatchSize * k < |randId| &&
        Chunks(randId, BatchSize)[k] == randId[BatchSize * k .. Min(BatchSize * k + BatchSize, |randId|)]
    {
      ChunkAt(randId, BatchSize, k);
    }
  }

  /**
   * The mini-batches of an epoch over a permutation of `0 .. n - 1` are non-empty, hold at
   * most `BatchSize` indices, and together visit every support index exactly once.
   */
  lemma EpochVisitsEachOnce(randId: seq<int>, n: int)
    requires IsPermutation(randId, n)
    ensures forall k :: 0 <= k < |Chunks(randId, BatchSize)| ==>
      0 < |Chunks(randId, BatchSize)[k]| <= BatchSize
    ensures forall x :: multiset(Flatten(Chunks(randId, BatchSize)))[x] == if 0 <= x < n then 1 else 0
  {
    ChunkSizes(randId, BatchSize);
    ChunksFlatten(randId, BatchSize);
    forall x
      ensures multiset(Flatten(Chunks(randId, BatchSize)))[x] == if 0 <= x < n then 1 else 0
    {
      RangeOccurrences(n, x);
    }
  }
}
