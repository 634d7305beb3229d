/** Minibatch scheduling of the training loop: the number of batches, each epoch's sample
    order, the cut of that order into consecutive batches, and the loss-history slot of each
    batch. */
module Batching {

  function Min(a: nat, b: nat): nat {
    if a <= b then a else b
  }

  /** The number of batches per epoch: the ceiling of n / batchsize. */
  function NumBatches(n: nat, batchsize: nat): nat
    requires batchsize > 0
  {
    (n + batchsize - 1) / batchsize
  }

  /** NumBatches is the least count of batchsize-sized batches that covers n samples. */
  lemma NumBatchesIsCeiling(n: nat, batchsize: nat)
    requires batchsize > 0
    ensures NumBatches(n, batchsize) * batchsize >= n
    ensures n > 0 ==> (NumBatches(n, batchsize) - 1) * batchsize < n
    ensures NumBatches(n, batchsize) == 0 <==> n == 0
  {
    var q, r := (n + batchsize - 1) / batchsize, (n + batchsize - 1) % batchsize;
    assert q * batchsize + r == n + batchsize - 1;
    assert (q - 1) * batchsize == q * batchsize - batchsize;
    if n == 0 {
      DivUnique(batchsize - 1, batchsize, 0);
    }
  }

  lemma SmallMultiple(k: int, d: int)
    requires d > 0 && -d < k * d < d
    ensures k == 0
  {
  }

  /** Integer division has a unique quotient. */
  lemma DivUnique(x: int, d: int, q: int)
    requires d > 0 && q * d <= x < q * d + d
    ensures x / d == q
  {
    var q', r' := x / d, x % d;
    assert x == q' * d + r';
    assert (q - q') * d == q * d - q' * d;
    SmallMultiple(q - q', d);
  }

  /** The identity order 0, 1, ..., n-1. */
  function Identity(n: nat): (order: seq<nat>)
    ensures |order| == n
    ensures forall i :: 0 <= i < n ==> order[i] == i
  {
    seq(n, (i: int) requires 0 <= i => i as nat)
  }

  /** `order` is a rearrangement of 0, 1, ..., n-1. */
  predicate IsPermutation(order: seq<nat>, n: nat) {
    multiset(order) == multiset(Identity(n))
  }

  lemma {:induction false} IdentityMultiplicity(n: nat)
    ensures forall x: nat :: multiset(Identity(n))[x] == if x < n then 1 else 0
  {
    if n > 0 {
      var prev := Identity(n - 1);
      IdentityMultiplicity(n - 1);
      assert Identity(n) == prev + [n - 1];
      assert multiset(Identity(n)) == multiset(prev) + multiset{n - 1};
      forall x: nat
        ensures multiset(Identity(n))[x] == if x < n then 1 else 0
      {
        assert multiset(Identity(n))[x] == multiset(prev)[x] + multiset{n - 1}[x];
      }
    }
  }

  /** A permutation of 0..n-1 has length n and holds every sample exactly once. */
  lemma PermutationHoldsEachOnce(order: seq<nat>, n: nat)
    requires IsPermutation(order, n)
    ensures |order| == n
    ensures forall x: nat :: multiset(order)[x] == if x < n then 1 else 0
    ensures forall k :: 0 <= k < |order| ==> order[k] < n
  {
    IdentityMultiplicity(n);
    assert |multiset(order)| == |multiset(Identity(n))|;
    forall k | 0 <= k < |order|
      ensures order[k] < n
    {
      assert order[k] in multiset(order);
    }
  }

  /** The sample order of one epoch: the shuffled order when shuffling is on, otherwise the
      identity order. */
  function EpochOrder(shuffle: bool, n: nat, shuffled: seq<nat>): (order: seq<nat>)
    requires IsPermutation(shuffled, n)
    ensures IsPermutation(order, n) && |order| == n
    ensures forall k :: 0 <= k < |order| ==> order[k] < n
    ensures shuffle ==> order == shuffled
    ensures !shuffle ==> order == Identity(n)
  {
    PermutationHoldsEachOnce(shuffled, n);
    PermutationHoldsEachOnce(Identity(n), n);
    if shuffle then shuffled else Identity(n)
  }

  /** The batching loop, with the iterator at position `pos` of the order: `count` times, take
      min(batchsize, remaining) indices from the iterator and advance it past them. */
  function Cut(order: seq<nat>, batchsize: nat, pos: nat, count: nat): (batches: seq<seq<nat>>)
    requires pos <= |order|
    decreases count
    ensures |batches| == count
  {
    if count == 0 then []
    else
      var k := Min(batchsize, |order| - pos);
      [order[pos..pos + k]] + Cut(order, batchsize, pos + k, count - 1)
  }

  /** The batches of one epoch: the loop from the start of the order, ceil(n / batchsize) times. */
  function Batches(order: seq<nat>, batchsize: nat): (batches: seq<seq<nat>>)
    requires batchsize > 0
    ensures |batches| == NumBatches(|order|, batchsize)
  {
    Cut(order, batchsize, 0, NumBatches(|order|, batchsize))
  }

  function Concat(batches: seq<seq<nat>>): seq<nat> {
    if |batches| == 0 then [] else batches[0] + Concat(batches[1..])
  }

  lemma MulStep(b: nat, batchsize: nat)
    requires b >= 1
    ensures (b - 1) * batchsize + batchsize == b * batchsize
    ensures b * batchsize >= batchsize
  {
  }

  /** The length of b full batches, batchsize added b times. */
  function Offset(b: nat, batchsize: nat): nat {
    if b == 0 then 0 else Offset(b - 1, batchsize) + batchsize
  }

  lemma {:induction false} OffsetIsProduct(b: nat, batchsize: nat)
    ensures Offset(b, batchsize) == b * batchsize
  {
    if b > 0 {
      OffsetIsProduct(b - 1, batchsize);
      MulStep(b, batchsize);
    }
  }

  /** Batch b of the loop started at `pos` begins b full batches after `pos` and ends one batch
      later, both clipped to the order's end. */
  lemma {:induction false} CutSliceAt(order: seq<nat>, batchsize: nat, pos: nat, count: nat, b: nat)
    requires pos <= |order| && b < count
    decreases b
    ensures Cut(order, batchsize, pos, count)[b] ==
              order[Min(pos + Offset(b, batchsize), |order|)..Min(pos + Offset(b, batchsize) + batchsize, |order|)]
  {
    if b > 0 {
      var k := Min(batchsize, |order| - pos);
      CutIndex(order, batchsize, pos, count, b);
      CutSliceAt(order, batchsize, pos + k, count - 1, b - 1);
      assert Offset(b, batchsize) == Offset(b - 1, batchsize) + batchsize;
    }
  }

  /** Batch b > 0 of the loop is batch b-1 of the loop after the first batch. */
  lemma CutIndex(order: seq<nat>, batchsize: nat, pos: nat, count: nat, b: nat)
    requires pos <= |order| && 0 < b < count
    ensures Cut(order, batchsize, pos, count)[b] ==
              Cut(order, batchsize, pos + Min(batchsize, |order| - pos), count - 1)[b - 1]
  {
  }

  /** Batch b of an epoch is the slice of its order from b * batchsize up to
      (b + 1) * batchsize, both clipped to the order's end. */
  lemma CutSlice(order: seq<nat>, batchsize: nat, b: nat)
    requires batchsize > 0 && b < NumBatches(|order|, batchsize)
    ensures Batches(order, batchsize)[b] ==
              order[Min(b * batchsize, |order|)..Min(b * batchsize + batchsize, |order|)]
  {
    CutSliceAt(order, batchsize, 0, NumBatches(|order|, batchsize), b);
    OffsetIsProduct(b, batchsize);
  }

  lemma NumBatchesStep(n: nat, batchsize: nat)
    requires batchsize > 0 && n > 0
    ensures NumBatches(n - Min(batchsize, n), batchsize) == NumBatches(n, batchsize) - 1
  {
    if n >= batchsize {
      DivShift(n - 1, batchsize);
    } else {
      DivUnique(n + batchsize - 1, batchsize, 1);
      DivUnique(batchsize - 1, batchsize, 0);
    }
  }

  lemma DivShift(x: nat, d: nat)
    requires d > 0
    ensures (x + d) / d == x / d + 1
  {
    var q := x / d;
    assert q * d + x % d == x;
    assert (q + 1) * d == q * d + d;
    DivUnique(x + d, d, q + 1);
  }

  /** The concatenation of the loop's batches is the first batch followed by the
      concatenation of the loop after it. */
  lemma ConcatStep(order: seq<nat>, batchsize: nat, pos: nat, count: nat)
    requires pos <= |order| && count > 0
    ensures var k := Min(batchsize, |order| - pos);
            Concat(Cut(order, batchsize, pos, count)) ==
              order[pos..pos + k] + Concat(Cut(order, batchsize, pos + k, count - 1))
  {
    var k := Min(batchsize, |order| - pos);
    assert Cut(order, batchsize, pos, count)[1..] == Cut(order, batchsize, pos + k, count - 1);
  }

  /** Concatenating the batches of the loop started at `pos` gives back the order from `pos`. */
  lemma {:induction false} CutConcat(order: seq<nat>, batchsize: nat, pos: nat)
    requires batchsize > 0 && pos <= |order|
    decreases |order| - pos
    ensures Concat(Cut(order, batchsize, pos, NumBatches(|order| - pos, batchsize))) == order[pos..]
  {
    assert order[pos..] == order[pos..pos + Min(batchsize, |order| - pos)] + order[pos + Min(batchsize, |order| - pos)..];
    var count := NumBatches(|order| - pos, batchsize);
    NumBatchesIsCeiling(|order| - pos, batchsize);
    if pos < |order| {
      var k := Min(batchsize, |order| - pos);
      NumBatchesStep(|order| - pos, batchsize);
      CutConcat(order, batchsize, pos + k);
      ConcatStep(order, batchsize, pos, count);
    }
  }

  /** Every index in a batch is an index of the order it was cut from. */
  lemma BatchesDrawFromOrder(order: seq<nat>, batchsize: nat)
    requires batchsize > 0
    ensures forall b, k :: 0 <= b < |Batches(order, batchsize)| && 0 <= k < |Batches(order, batchsize)[b]| ==>
              Batches(order, batchsize)[b][k] in order
  {
    var batches := Batches(order, batchsize);
    forall b, k | 0 <= b < |batches| && 0 <= k < |batches[b]| ensures batches[b][k] in order {
      CutSliceAt(order, batchsize, 0, |batches|, b);
      var lo := Min(Offset(b, batchsize), |order|);
      assert batches[b][k] == order[lo + k];
    }
  }

  /** Every batch before the last is full. */
  lemma FullBatch(order: seq<nat>, batchsize: nat, b: nat)
    requires batchsize > 0
    requires b + 1 < NumBatches(|order|, batchsize)
    ensures |Batches(order, batchsize)[b]| == batchsize
  {
    var n, nb := |order|, NumBatches(|order|, batchsize);
    NumBatchesIsCeiling(n, batchsize);
    CutSlice(order, batchsize, b);
    MulMonotone(b + 1, nb - 1, batchsize);
    assert (b + 1) * batchsize == b * batchsize + batchsize;
  }

  /** The last batch holds between 1 and batchsize samples. */
  lemma LastBatch(order: seq<nat>, batchsize: nat)
    requires batchsize > 0 && |order| > 0
    ensures 1 <= |Batches(order, batchsize)[NumBatches(|order|, batchsize) - 1]| <= batchsize
  {
    var n, nb := |order|, NumBatches(|order|, batchsize);
    NumBatchesIsCeiling(n, batchsize);
    CutSlice(order, batchsize, nb - 1);
    MulStep(nb, batchsize);
  }

  /** The epoch's batches partition its order: there are ceil(n / batchsize) of them, they
      concatenate back to the order, every batch but the last has exactly batchsize samples and
      the last has between 1 and batchsize. */
  lemma BatchesPartition(order: seq<nat>, batchsize: nat)
    requires batchsize > 0
    ensures |Batches(order, batchsize)| == NumBatches(|order|, batchsize)
    ensures Concat(Batches(order, batchsize)) == order
    ensures forall b :: 0 <= b < |Batches(order, batchsize)| - 1 ==> |Batches(order, batchsize)[b]| == batchsize
    ensures |order| > 0 ==> 1 <= |Batches(order, batchsize)[|Batches(order, batchsize)| - 1]| <= batchsize
  {
    CutConcat(order, batchsize, 0);
    assert order[0..] == order;
    forall b | 0 <= b < |Batches(order, batchsize)| - 1
      ensures |Batches(order, batchsize)[b]| == batchsize
    {
      FullBatch(order, batchsize, b);
    }
    if |order| > 0 {
      LastBatch(order, batchsize);
    }
  }

  lemma MulMonotone(a: nat, b: nat, c: nat)
    requires a <= b
    ensures a * c <= b * c
  {
  }

  /** With a permuted order every sample 0..n-1 occurs exactly once across the epoch's
      batches, and nothing else occurs. */
  lemma EachSampleInOneBatch(order: seq<nat>, n: nat, batchsize: nat)
    requires batchsize > 0
    requires IsPermutation(order, n)
    ensures forall x: nat :: multiset(Concat(Batches(order, batchsize)))[x] == if x < n then 1 else 0
  {
    BatchesPartition(order, batchsize);
    PermutationHoldsEachOnce(order, n);
  }

  /** The loss-history slot of batch b of epoch e. */
  function Slot(epoch: nat, batch: nat, numbatches: nat): nat {
    epoch * numbatches + batch
  }

  /** The slot after an epoch's last batch is the next epoch's first slot, and it does not
      pass the end of the history. */
  lemma EpochEnd(epoch: nat, numepochs: nat, numbatches: nat)
    requires epoch < numepochs
    ensures Slot(epoch, numbatches, numbatches) == Slot(epoch + 1, 0, numbatches)
    ensures Slot(epoch, numbatches, numbatches) <= numepochs * numbatches
  {
    MulStep(epoch + 1, numbatches);
    MulMonotone(epoch + 1, numepochs, numbatches);
  }

  /** Slots lie inside the history of numepochs * numbatches entries, distinct (epoch, batch)
      pairs get distinct slots, and slots grow in epoch-major, batch-minor order. */
  lemma SlotsAreChronological(e1: nat, b1: nat, e2: nat, b2: nat, numepochs: nat, numbatches: nat)
    requires e1 < numepochs && e2 < numepochs && b1 < numbatches && b2 < numbatches
    ensures Slot(e1, b1, numbatches) < numepochs * numbatches
    ensures Slot(e1, b1, numbatches) < Slot(e2, b2, numbatches) <==> e1 < e2 || (e1 == e2 && b1 < b2)
    ensures Slot(e1, b1, numbatches) == Slot(e2, b2, numbatches) <==> e1 == e2 && b1 == b2
  {
    EpochEnd(e1, numepochs, numbatches);
    if e1 < e2 {
      EpochEnd(e1, e2, numbatches);
    } else if e2 < e1 {
      EpochEnd(e2, e1, numbatches);
    }
  }
}
