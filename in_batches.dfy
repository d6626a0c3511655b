/**
 * MoveShippedShipmentsToCartons#in_batches: the id ranges the migration's updates run over.
 * Starting at id 1, it yields `[start, start + 9999]` and moves on by 10000 while the start
 * does not pass `last_id`; the block's SQL is not part of this model, only the ranges yielded.
 */
module MigrationBatches {
  const BatchSize: int := 10000

  /** An inclusive id range `[start, end]` given to the block. */
  datatype Batch = Batch(start: int, end: int)

  /** The k-th range yielded, counting from 0. */
  function KthBatch(k: nat): (b: Batch)
    ensures b.start == 1 + k * BatchSize && b.end == b.start + BatchSize - 1
  {
    Batch(1 + k * BatchSize, (k + 1) * BatchSize)
  }

  /** How many ranges are yielded: none below id 1, else ⌈last_id / 10000⌉. */
  function BatchCount(lastId: int): (n: nat)
    ensures lastId < 1 ==> n == 0
    ensures lastId >= 1 ==> (n - 1) * BatchSize < lastId <= n * BatchSize
  {
    if lastId < 1 then 0 else (lastId - 1) / BatchSize + 1
  }

  /** `in_batches(last_id:)`: the ranges it yields, in the order it yields them. */
  method InBatches(lastId: int) returns (batches: seq<Batch>)
    ensures |batches| == BatchCount(lastId)
    ensures forall k :: 0 <= k < |batches| ==> batches[k] == KthBatch(k)
  {
    var startId := 1;
    batches := [];
    while startId <= lastId
      invariant startId == 1 + |batches| * BatchSize
      invariant forall k :: 0 <= k < |batches| ==> batches[k] == KthBatch(k)
      invariant lastId >= 1 ==> |batches| <= BatchCount(lastId)
      invariant lastId < 1 ==> batches == []
      decreases lastId - startId
    {
      var endId := startId + BatchSize - 1;
      batches := batches + [Batch(startId, endId)];
      startId := startId + BatchSize;
    }
  }

  /** Each range begins right after the one before it ends: the ranges are contiguous. */
  lemma BatchesAreContiguous(k: nat)
    ensures KthBatch(k + 1).start == KthBatch(k).end + 1
  {
  }

  /** Different ranges share no id. */
  lemma BatchesAreDisjoint(j: nat, k: nat, id: int)
    requires j != k
    requires KthBatch(j).start <= id <= KthBatch(j).end
    ensures !(KthBatch(k).start <= id <= KthBatch(k).end)
  {
  }

  /** Every id from 1 to `last_id` lies in a yielded range, the one numbered (id − 1) / 10000. */
  lemma EveryIdInABatch(lastId: int, id: int)
    requires 1 <= id <= lastId
    ensures (id - 1) / BatchSize < BatchCount(lastId)
    ensures KthBatch((id - 1) / BatchSize).start <= id <= KthBatch((id - 1) / BatchSize).end
  {
    var k := (id - 1) / BatchSize;
    assert id - 1 == k * BatchSize + (id - 1) % BatchSize;
  }

  /** The last range starts at or below `last_id` and ends at or past it. */
  lemma LastBatchReachesLastId(lastId: int)
    requires lastId >= 1
    ensures BatchCount(lastId) >= 1
    ensures KthBatch(BatchCount(lastId) - 1).start <= lastId <= KthBatch(BatchCount(lastId) - 1).end
  {
  }
}
