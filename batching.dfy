/** The batch loops `for i in range(0, len(data), batch): sub = data[i:i+batch]`. */
module Batching {
  import opened Wrappers

  function Min(a: int, b: int): int {
    if a <= b then a else b
  }

  /** The slices `data[i:i+size]`, `data[i+size:i+2*size]`, ... taken at the offsets
      `i, i + size, ...` that are below `len(data)`. */
  function BatchesFrom<T>(data: seq<T>, size: nat, i: nat): seq<seq<T>>
    requires size > 0
    decreases |data| - i
  {
    if i >= |data| then []
    else [data[i..Min(i + size, |data|)]] + BatchesFrom(data, size, i + size)
  }

  /** The batches of a positive batch size, from offset 0. */
  function Batches<T>(data: seq<T>, size: nat): seq<seq<T>>
    requires size > 0
  {
    BatchesFrom(data, size, 0)
  }

  /** `[data[i:i+step] for i in range(0, len(data), step)]`. `None` stands for the
      ValueError that `range` raises for a step of 0; a negative step gives an empty
      range, hence no batch at all. */
  function Slices<T>(data: seq<T>, step: int): Option<seq<seq<T>>> {
    if step == 0 then None
    else if step < 0 then Some([])
    else Some(Batches(data, step))
  }

  /** The batches put back together. */
  function Flatten<T>(batches: seq<seq<T>>): seq<T>
    decreases |batches|
  {
    if |batches| == 0 then [] else batches[0] + Flatten(batches[1..])
  }

  // ---------------------------------------------------------------- lemmas

  lemma {:induction false} FlattenFrom<T>(data: seq<T>, size: nat, i: nat)
    requires size > 0 && i <= |data|
    ensures Flatten(BatchesFrom(data, size, i)) == data[i..]
    decreases |data| - i
  {
    if i < |data| {
      var j := Min(i + size, |data|);
      if i + size <= |data| {
        FlattenFrom(data, size, i + size);
      } else {
        assert BatchesFrom(data, size, i + size) == [];
      }
      assert data[i..] == data[i..j] + data[j..];
    }
  }

  lemma {:induction false} BatchFromAt<T>(data: seq<T>, size: nat, i: nat, k: nat)
    requires size > 0
    requires k < |BatchesFrom(data, size, i)|
    ensures i + k * size < |data|
    ensures BatchesFrom(data, size, i)[k] == data[i + k * size..Min(i + (k + 1) * size, |data|)]
    decreases k
  {
    var b := BatchesFrom(data, size, i);
    assert i < |data| && b == [data[i..Min(i + size, |data|)]] + BatchesFrom(data, size, i + size);
    if k > 0 {
      BatchFromAt(data, size, i + size, k - 1);
      assert b[k] == BatchesFrom(data, size, i + size)[k - 1];
      Offsets(i, size, k);
    }
  }

  lemma Offsets(i: int, size: int, k: int)
    ensures i + size + (k - 1) * size == i + k * size
    ensures i + size + k * size == i + (k + 1) * size
  {
    assert (k - 1) * size + size == k * size;
    assert k * size + size == (k + 1) * size;
  }

  /** The batches cover `data`: put together they give `data` back. Batch `k` is the
      slice that starts at `k * size`; it is never empty, never longer than `size`,
      and only the last one may be shorter. Consecutive batches therefore neither
      overlap nor leave a gap. */
  lemma Partition<T>(data: seq<T>, size: nat)
    requires size > 0
    ensures Flatten(Batches(data, size)) == data
    ensures |data| == 0 <==> |Batches(data, size)| == 0
    ensures forall k :: 0 <= k < |Batches(data, size)| ==>
      k * size < |data| &&
      Batches(data, size)[k] == data[k * size..Min((k + 1) * size, |data|)] &&
      0 < |Batches(data, size)[k]| <= size &&
      (k + 1 < |Batches(data, size)| ==> |Batches(data, size)[k]| == size)
  {
    FlattenFrom(data, size, 0);
    assert data[0..] == data;
    var b := Batches(data, size);
    forall k | 0 <= k < |b|
      ensures k * size < |data|
      ensures b[k] == data[k * size..Min((k + 1) * size, |data|)]
      ensures 0 < |b[k]| <= size
      ensures k + 1 < |b| ==> |b[k]| == size
    {
      BatchFromAt(data, size, 0, k);
      if k + 1 < |b| {
        BatchFromAt(data, size, 0, k + 1);
        assert (k + 1) * size < |data|;
      }
    }
  }

  /** Non-empty data has at least one batch, and the batches put together give it back. */
  lemma Covers<T>(data: seq<T>, size: nat)
    requires size > 0
    ensures |Batches(data, size)| > 0 <==> |data| > 0
    ensures Flatten(Batches(data, size)) == data
  {
    FlattenFrom(data, size, 0);
    assert data[0..] == data;
  }

  /** Every batch is non-empty. */
  lemma {:induction false} BatchesNonEmpty<T>(data: seq<T>, size: nat, i: nat)
    requires size > 0
    ensures forall k :: 0 <= k < |BatchesFrom(data, size, i)| ==> |BatchesFrom(data, size, i)[k]| > 0
    decreases |data| - i
  {
    if i < |data| {
      BatchesNonEmpty(data, size, i + size);
    }
  }
}
