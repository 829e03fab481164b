/** `createBatches`: cut the brand entries, in iteration order, into fixed-size batches. */
module Batching {

  /** The batches laid end to end. */
  function Flatten<T>(batches: seq<seq<T>>): seq<T>
  {
    if batches == [] then [] else Flatten(batches[..|batches| - 1]) + batches[|batches| - 1]
  }

  lemma MulAtLeast(x: int, d: int)
    requires x >= 1 && d > 0
    ensures x * d >= d
  {
  }

  /** Euclidean division has one quotient. */
  lemma DivUnique(n: int, d: int, q: int, r: int)
    requires 0 < d && 0 <= r < d && n == q * d + r
    ensures n / d == q
  {
    var q', r' := n / d, n % d;
    assert n == q' * d + r';
    assert (q - q') * d == r' - r;
    if q > q' { MulAtLeast(q - q', d); }
    if q' > q { MulAtLeast(q' - q, d); }
  }

  /** Batches that all have `size` elements hold `size` elements each, laid end to end. */
  lemma {:induction false} FullBatchesLength<T>(batches: seq<seq<T>>, size: nat)
    requires forall i :: 0 <= i < |batches| ==> |batches[i]| == size
    ensures |Flatten(batches)| == |batches| * size
  {
    if batches != [] {
      FullBatchesLength(batches[..|batches| - 1], size);
    }
  }

  /**
   * Batches that are full but for a non-empty last one number ceil(n / size),
   * where n is the number of elements they hold.
   */
  lemma BatchCount<T>(batches: seq<seq<T>>, size: nat)
    requires 1 <= size
    requires forall i :: 0 <= i < |batches| - 1 ==> |batches[i]| == size
    requires batches != [] ==> 1 <= |batches[|batches| - 1]| <= size
    ensures |batches| == (|Flatten(batches)| + size - 1) / size
  {
    if batches == [] {
      DivUnique(size - 1, size, 0, size - 1);
    } else {
      var init := batches[..|batches| - 1];
      var last := batches[|batches| - 1];
      FullBatchesLength(init, size);
      var n := |Flatten(batches)| + size - 1;
      assert n == |init| * size + |last| + size - 1;
      assert n == |batches| * size + (|last| - 1);
      DivUnique(n, size, |batches|, |last| - 1);
    }
  }

  /**
   * `createBatches(collection, batchSize)`. The Java loop closes a batch when
   * the current one reaches exactly `batchSize` elements, so a `batchSize`
   * below 1 never closes one and everything lands in a single batch.
   */
  method CreateBatches<T>(items: seq<T>, batchSize: int) returns (batches: seq<seq<T>>)
    ensures Flatten(batches) == items
    ensures forall i :: 0 <= i < |batches| ==> batches[i] != []
    ensures batchSize >= 1 ==> forall i :: 0 <= i < |batches| - 1 ==> |batches[i]| == batchSize
    ensures batchSize >= 1 && batches != [] ==> |batches[|batches| - 1]| <= batchSize
    ensures batchSize >= 1 ==> |batches| == (|items| + batchSize - 1) / batchSize
    ensures batchSize < 1 ==> batches == if items == [] then [] else [items]
  {
    batches := [];
    var currentBatch: seq<T> := [];
    for i := 0 to |items|
      invariant Flatten(batches) + currentBatch == items[..i]
      invariant forall j :: 0 <= j < |batches| ==> batches[j] != []
      invariant batchSize >= 1 ==> |currentBatch| < batchSize
      invariant batchSize >= 1 ==> forall j :: 0 <= j < |batches| ==> |batches[j]| == batchSize
      invariant batchSize < 1 ==> batches == [] && currentBatch == items[..i]
    {
      assert items[..i + 1] == items[..i] + [items[i]];
      currentBatch := currentBatch + [items[i]];
      if |currentBatch| == batchSize {
        assert Flatten(batches + [currentBatch]) == Flatten(batches) + currentBatch by {
          assert (batches + [currentBatch])[..|batches|] == batches;
        }
        batches := batches + [currentBatch];
        currentBatch := [];
      }
    }
    assert items[..|items|] == items;
    if currentBatch != [] {
      // the short trailing batch is kept
      assert Flatten(batches + [currentBatch]) == Flatten(batches) + currentBatch by {
        assert (batches + [currentBatch])[..|batches|] == batches;
      }
      batches := batches + [currentBatch];
    }
    if batchSize >= 1 {
      BatchCount(batches, batchSize);
    }
  }
}
