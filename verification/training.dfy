/** The minibatch training loop (Net::Train): input checks, label remapping, the per-epoch
    sample order, the cut into batches, the per-batch call protocol and the loss history. */
module Training {
  import opened Errors
  import opened Matrix
  import opened Loss
  import opened Layers
  import opened Nets
  import opened Passes
  import opened Batching

  /** The part of the training configuration the orchestrator reads. */
  datatype Params = Params(batchsize: nat, numepochs: nat)

  /** The activations the layers compute in batch b of epoch e, by layer position, row and
      column. */
  type Activations = (nat, nat) -> Activation

  /** The parameters the layers compute in the prepare (`isafter` false) or commit (`isafter`
      true) update phase of batch b of epoch e. */
  type Updates = (nat, nat, bool) -> Update

  /** What one training batch did: its sample indices, its label columns, the prediction the
      forward pass produced, the loss and the calls it made on the layers. */
  datatype BatchRun = BatchRun(epoch: nat, batch: nat, indices: seq<nat>, labels: Mat, pred: Mat, loss: real,
                               calls: seq<Call>)

  datatype Stepped = Stepped(net: Net, run: BatchRun)

  datatype Progress = Progress(net: Net, runs: seq<BatchRun>)

  /** What stays fixed through the training loops: the (possibly remapped) labels and what the
      layers compute. */
  datatype Plan = Plan(labels: Mat, act: Activations, update: Updates)

  /** `pred` is the output of the last of `n` layers over a batch of `cols` samples: `rows`
      classes, and at (row, col) the activation that layer computed. */
  predicate Predicts(pred: Mat, act: Activation, n: nat, rows: nat, cols: nat)
    requires n >= 1
  {
    && pred.rows == rows && pred.cols == cols
    && forall row, col :: 0 <= row < rows && 0 <= col < cols ==> pred.cells[row][col] == act(n - 1, row, col)
  }

  /** `run` is batch `batch` of epoch `epoch` over the sample indices `indices` on a chain of
      `n` layers: it carries their label columns and the calls of the batch protocol. */
  predicate Describes(run: BatchRun, epoch: nat, batch: nat, indices: seq<nat>, labels: Mat, n: nat)
    requires n >= 1
  {
    && run.epoch == epoch
    && run.batch == batch
    && run.indices == indices
    && (forall k :: 0 <= k < |indices| ==> indices[k] < labels.cols)
    && run.labels == Columns(labels, indices)
    && run.calls == BatchCalls(n)
  }

  /** On a chain of `n` layers whose last layer has the function `name`, the run's prediction
      is the last layer's output under its batch's activations, and its loss is what the rule
      of `name` (Backward) gives for that prediction and the run's label columns. */
  predicate Scored(run: BatchRun, plan: Plan, n: nat, name: string)
    requires n >= 1
  {
    && Predicts(run.pred, plan.act(run.epoch, run.batch), n, run.labels.rows, run.labels.cols)
    && TerminalLoss(name, run.pred, run.labels).Ok?
    && run.loss == TerminalLoss(name, run.pred, run.labels).value.loss
  }

  /** Every run is scored. */
  predicate AllScored(runs: seq<BatchRun>, plan: Plan, n: nat, name: string)
    requires n >= 1
  {
    forall k {:trigger Scored(runs[k], plan, n, name)} :: 0 <= k < |runs| ==> Scored(runs[k], plan, n, name)
  }

  /** Runs scored one after another stay scored together. */
  lemma AllScoredAppend(a: seq<BatchRun>, b: seq<BatchRun>, plan: Plan, n: nat, name: string)
    requires n >= 1 && AllScored(a, plan, n, name) && AllScored(b, plan, n, name)
    ensures AllScored(a + b, plan, n, name)
  {
    forall k | 0 <= k < |a + b| ensures Scored((a + b)[k], plan, n, name) {
      if k < |a| {
        assert (a + b)[k] == a[k];
      } else {
        assert (a + b)[k] == b[k - |a|];
      }
    }
  }

  /** The first half of a batch: prepare-update, then forward in the training regime over
      `count` samples. */
  method PrepareForward(net: Net, epoch: nat, batch: nat, count: nat, plan: Plan) returns (fwd: Forwarded)
    requires Valid(net)
    ensures Valid(fwd.net) && Keeps(net, fwd.net)
    ensures Last(fwd.net).batchsize == count
    ensures fwd.pred == Last(fwd.net).output
    ensures Predicts(fwd.pred, plan.act(epoch, batch), |net.layers|, Last(net).length, count)
    ensures fwd.calls == UpdateLoop(1, |net.layers|, false) + ForwardLoop(1, |net.layers|, false)
  {
    var prepare := UpdateWeights(net, false, plan.update(epoch, batch, false));
    var forward := Forward(prepare.net, count, false, plan.act(epoch, batch));
    KeepsTransitive(net, prepare.net, forward.net);
    SameChainLast(net, prepare.net);
    fwd := Forwarded(forward.net, forward.pred, prepare.calls + forward.calls);
  }

  /** One batch: prepare-update, forward in the training regime over the batch's samples,
      backward with the batch's label columns, commit-update. */
  method RunBatch(net: Net, epoch: nat, batch: nat, indices: seq<nat>, plan: Plan) returns (r: Result<Stepped>)
    requires Valid(net)
    requires plan.labels.rows == Last(net).length
    requires forall k :: 0 <= k < |indices| ==> indices[k] < plan.labels.cols
    ensures r.Ok? <==> KnownFunction(Last(net).activation)
    ensures r.Fail? ==> r.error == UnknownFunction(Last(net).activation)
    ensures r.Ok? ==> Valid(r.value.net) && Keeps(net, r.value.net)
    ensures r.Ok? ==> Describes(r.value.run, epoch, batch, indices, plan.labels, |net.layers|)
    ensures r.Ok? ==> Scored(r.value.run, plan, |net.layers|, Last(net).activation)
  {
    var fwd := PrepareForward(net, epoch, batch, |indices|, plan);
    var labels := Columns(plan.labels, indices);
    SameChainLast(net, fwd.net);
    var bwd := Backward(fwd.net, labels);
    if bwd.Fail? {
      return Fail(bwd.error);
    }
    var commit := UpdateWeights(fwd.net, true, plan.update(epoch, batch, true));
    KeepsTransitive(net, fwd.net, commit.net);
    r := Ok(Stepped(commit.net, BatchRun(epoch, batch, indices, labels, fwd.pred, bwd.value.loss, fwd.calls + bwd.value.calls + commit.calls)));
  }

  /** Every index of every batch names a sample, that is, a column of the labels. */
  predicate IndicesBelow(batches: seq<seq<nat>>, count: nat) {
    forall b, k :: 0 <= b < |batches| && 0 <= k < |batches[b]| ==> batches[b][k] < count
  }

  /** The batches of one epoch: its sample order, shuffled or not, cut into batches. */
  function EpochBatches(shuffle: bool, samples: nat, shuffled: seq<nat>, batchsize: nat): (batches: seq<seq<nat>>)
    requires IsPermutation(shuffled, samples) && batchsize > 0
    ensures |batches| == NumBatches(samples, batchsize)
    ensures IndicesBelow(batches, samples)
  {
    var order := EpochOrder(shuffle, samples, shuffled);
    BatchesDrawFromOrder(order, batchsize);
    Batches(order, batchsize)
  }

  /** What the first `batch` batches of an epoch leave behind: the chain keeps its structure,
      run b describes batch b and its loss sits in slot b of the epoch's stretch of the loss
      history, and no slot outside that stretch has changed. */
  predicate EpochSoFar(net: Net, epoch: nat, batches: seq<seq<nat>>, plan: Plan, p: Progress, batch: nat)
    requires Valid(net)
    requires Slot(epoch, |batches|, |batches|) <= |net.trainError|
  {
    && batch <= |batches|
    && Valid(p.net) && SameChain(net, p.net)
    && p.net.shuffle == net.shuffle && p.net.classCoefs == net.classCoefs
    && |p.net.trainError| == |net.trainError|
    && |p.runs| == batch
    && (forall b :: 0 <= b < batch ==>
          && Describes(p.runs[b], epoch, b, batches[b], plan.labels, |net.layers|)
          && p.net.trainError[Slot(epoch, b, |batches|)] == p.runs[b].loss)
    && (forall k :: 0 <= k < |net.trainError| ==>
          (k < Slot(epoch, 0, |batches|) || Slot(epoch, batch, |batches|) <= k) ==>
          p.net.trainError[k] == net.trainError[k])
    && AllScored(p.runs, plan, |net.layers|, Last(net).activation)
  }

  /** One pass of the batch loop: batch `batch` runs on the net the earlier batches left, and
      its loss is written to its slot of the loss history. */
  method AdvanceEpoch(net: Net, epoch: nat, batches: seq<seq<nat>>, plan: Plan, p: Progress, batch: nat)
    returns (r: Result<Progress>)
    requires Valid(net)
    requires plan.labels.rows == Last(net).length
    requires IndicesBelow(batches, plan.labels.cols)
    requires Slot(epoch, |batches|, |batches|) <= |net.trainError|
    requires batch < |batches| && EpochSoFar(net, epoch, batches, plan, p, batch)
    ensures r.Ok? <==> KnownFunction(Last(net).activation)
    ensures r.Fail? ==> r.error == UnknownFunction(Last(net).activation)
    ensures r.Ok? ==> EpochSoFar(net, epoch, batches, plan, r.value, batch + 1)
  {
    SameChainLast(net, p.net);
    var step := RunBatch(p.net, epoch, batch, batches[batch], plan);
    if step.Fail? {
      return Fail(step.error);
    }
    SameChainTransitive(net, p.net, step.value.net);
    r := Ok(Record(epoch, batch, |batches|, p, step.value));
    EpochSoFarStep(net, epoch, batches, plan, p, batch, step.value);
  }

  /** Appends a batch's run to the epoch's runs and writes its loss to its slot. */
  function Record(epoch: nat, batch: nat, numbatches: nat, p: Progress, step: Stepped): (r: Progress)
    requires Slot(epoch, batch, numbatches) < |step.net.trainError|
    ensures r.net == step.net.(trainError := r.net.trainError) && r.runs == p.runs + [step.run]
    ensures |r.net.trainError| == |step.net.trainError|
    ensures r.net.trainError[Slot(epoch, batch, numbatches)] == step.run.loss
    ensures forall k :: 0 <= k < |r.net.trainError| && k != Slot(epoch, batch, numbatches) ==>
              r.net.trainError[k] == step.net.trainError[k]
  {
    var slot := Slot(epoch, batch, numbatches);
    Progress(step.net.(trainError := step.net.trainError[slot := step.run.loss]), p.runs + [step.run])
  }

  /** Recording batch `batch`, run on the net the earlier batches left, extends what the epoch
      has done by one batch. */
  lemma EpochSoFarStep(net: Net, epoch: nat, batches: seq<seq<nat>>, plan: Plan, p: Progress, batch: nat,
                       step: Stepped)
    requires Valid(net)
    requires Slot(epoch, |batches|, |batches|) <= |net.trainError|
    requires batch < |batches| && EpochSoFar(net, epoch, batches, plan, p, batch)
    requires Valid(step.net) && Keeps(p.net, step.net) && SameChain(net, step.net)
    requires Describes(step.run, epoch, batch, batches[batch], plan.labels, |net.layers|)
    requires Scored(step.run, plan, |net.layers|, Last(net).activation)
    ensures EpochSoFar(net, epoch, batches, plan, Record(epoch, batch, |batches|, p, step), batch + 1)
  {
    var r := Record(epoch, batch, |batches|, p, step);
    var slot := Slot(epoch, batch, |batches|);
    assert Slot(epoch, batch + 1, |batches|) == slot + 1;
    forall k | 0 <= k < |net.trainError| && (k < Slot(epoch, 0, |batches|) || slot + 1 <= k)
      ensures r.net.trainError[k] == net.trainError[k]
    {
    }
    forall b | 0 <= b < batch + 1
      ensures Describes(r.runs[b], epoch, b, batches[b], plan.labels, |net.layers|)
      ensures r.net.trainError[Slot(epoch, b, |batches|)] == r.runs[b].loss
    {
      if b < batch {
        assert r.runs[b] == p.runs[b];
        assert Slot(epoch, b, |batches|) < slot;
      } else {
        assert r.runs[b] == step.run;
      }
    }
    assert AllScored([step.run], plan, |net.layers|, Last(net).activation) by {
      assert [step.run][0] == step.run;
    }
    AllScoredAppend(p.runs, [step.run], plan, |net.layers|, Last(net).activation);
  }

  /** The batch loop of one epoch: the batches run in order, each through `AdvanceEpoch`. The
      first failing batch stops the loop; it fails exactly when there is a batch and the last
      layer's function is unknown. */
  method RunEpoch(net: Net, epoch: nat, batches: seq<seq<nat>>, plan: Plan) returns (r: Result<Progress>)
    requires Valid(net)
    requires plan.labels.rows == Last(net).length
    requires IndicesBelow(batches, plan.labels.cols)
    requires Slot(epoch, |batches|, |batches|) <= |net.trainError|
    ensures r.Ok? <==> |batches| == 0 || KnownFunction(Last(net).activation)
    ensures r.Fail? ==> r.error == UnknownFunction(Last(net).activation)
    ensures r.Ok? ==> EpochSoFar(net, epoch, batches, plan, r.value, |batches|)
  {
    var p := Progress(net, []);
    var batch := 0;
    while batch < |batches|
      invariant batch <= |batches|
      invariant EpochSoFar(net, epoch, batches, plan, p, batch)
      invariant batch > 0 ==> KnownFunction(Last(net).activation)
    {
      var step := AdvanceEpoch(net, epoch, batches, plan, p, batch);
      if step.Fail? {
        return Fail(step.error);
      }
      p := step.value;
      batch := batch + 1;
    }
    r := Ok(p);
  }

  /** The labels training works on: remapped from {0, 1} to {-1, +1} when the last layer is an
      SVM layer, as they are otherwise. */
  function TrainingLabels(net: Net, labels: Mat): (r: Mat)
    requires Valid(net)
    ensures SameShape(r, labels)
  {
    if Last(net).activation == "SVM" then RemapLabels(labels) else labels
  }

  /** Binary labels become signs exactly for an SVM last layer, 0 turning into -1; for any other
      function the labels are left alone. */
  lemma TrainingLabelsRemapOnlySvm(net: Net, labels: Mat)
    requires Valid(net) && Binary(labels)
    ensures Last(net).activation == "SVM" ==> Signs(TrainingLabels(net, labels))
    ensures Last(net).activation == "SVM" ==>
              forall i, j :: 0 <= i < labels.rows && 0 <= j < labels.cols ==>
                (TrainingLabels(net, labels).cells[i][j] == -1.0 <==> labels.cells[i][j] == 0.0)
    ensures Last(net).activation != "SVM" ==> TrainingLabels(net, labels) == labels
  {
    if Last(net).activation == "SVM" {
      RemapBinaryGivesSigns(labels);
    }
  }

  /** The net training starts from: one class coefficient 0.5 per class and a loss history of
      numepochs * numbatches zeros. */
  function TrainStart(net: Net, classes: nat, slots: nat): (r: Net)
    ensures r.layers == net.layers && r.shuffle == net.shuffle
    ensures |r.classCoefs| == classes && forall c :: 0 <= c < classes ==> r.classCoefs[c] == 0.5
    ensures |r.trainError| == slots && forall k :: 0 <= k < slots ==> r.trainError[k] == 0.0
  {
    net.(classCoefs := seq(classes, _ => 0.5), trainError := seq(slots, _ => 0.0))
  }

  /** What the first `epoch` epochs leave behind: the chain keeps its structure, and every batch
      b of every epoch e before `epoch` has its run, over batch b of that epoch's order, at slot
      e * numbatches + b, with its loss written to the same slot of the loss history. */
  predicate TrainedSoFar(start: Net, samples: nat, batchsize: nat, shuffled: seq<seq<nat>>, plan: Plan,
                         p: Progress, epoch: nat)
    requires Valid(start) && batchsize > 0 && epoch <= |shuffled|
    requires forall e :: 0 <= e < |shuffled| ==> IsPermutation(shuffled[e], samples)
  {
    var nb := NumBatches(samples, batchsize);
    && Valid(p.net) && SameChain(start, p.net)
    && p.net.shuffle == start.shuffle && p.net.classCoefs == start.classCoefs
    && |p.net.trainError| == |start.trainError|
    && |p.runs| == Slot(epoch, 0, nb) <= |start.trainError|
    && (forall e, b :: 0 <= e < epoch && 0 <= b < nb ==>
          && Slot(e, b, nb) < |p.runs|
          && Describes(p.runs[Slot(e, b, nb)], e, b, EpochBatches(start.shuffle, samples, shuffled[e], batchsize)[b],
                       plan.labels, |start.layers|)
          && p.net.trainError[Slot(e, b, nb)] == p.runs[Slot(e, b, nb)].loss)
    && AllScored(p.runs, plan, |start.layers|, Last(start).activation)
  }

  /** An epoch run on the net the earlier epochs left extends what training has done by one
      epoch. */
  lemma {:induction false} TrainedSoFarStep(start: Net, samples: nat, batchsize: nat, shuffled: seq<seq<nat>>,
                                            plan: Plan, p: Progress, epoch: nat, q: Progress)
    requires Valid(start) && batchsize > 0 && epoch < |shuffled|
    requires forall e :: 0 <= e < |shuffled| ==> IsPermutation(shuffled[e], samples)
    requires |start.trainError| == |shuffled| * NumBatches(samples, batchsize)
    requires TrainedSoFar(start, samples, batchsize, shuffled, plan, p, epoch)
    requires Slot(epoch, NumBatches(samples, batchsize), NumBatches(samples, batchsize)) <= |p.net.trainError|
    requires EpochSoFar(p.net, epoch, EpochBatches(start.shuffle, samples, shuffled[epoch], batchsize), plan, q,
                        NumBatches(samples, batchsize))
    ensures TrainedSoFar(start, samples, batchsize, shuffled, plan, Progress(q.net, p.runs + q.runs), epoch + 1)
  {
    var nb := NumBatches(samples, batchsize);
    var r := Progress(q.net, p.runs + q.runs);
    SameChainTransitive(start, p.net, q.net);
    SameChainLast(start, p.net);
    AllScoredAppend(p.runs, q.runs, plan, |start.layers|, Last(start).activation);
    EpochEnd(epoch, epoch + 1, nb);
    forall e, b | 0 <= e < epoch + 1 && 0 <= b < nb
      ensures Slot(e, b, nb) < |r.runs|
      ensures Describes(r.runs[Slot(e, b, nb)], e, b, EpochBatches(start.shuffle, samples, shuffled[e], batchsize)[b],
                        plan.labels, |start.layers|)
      ensures r.net.trainError[Slot(e, b, nb)] == r.runs[Slot(e, b, nb)].loss
    {
      if e < epoch {
        SlotsAreChronological(e, b, epoch, 0, epoch + 1, nb);
        assert r.runs[Slot(e, b, nb)] == p.runs[Slot(e, b, nb)];
      } else {
        assert r.runs[Slot(e, b, nb)] == q.runs[b];
      }
    }
  }

  /** After `epoch` epochs, slot e * numbatches + b of the loss history holds what Backward
      computed for batch b of epoch e: the loss the last layer's rule gives for the label columns
      of that batch's samples against the prediction the batch's activations produced. */
  lemma LossHistory(start: Net, samples: nat, batchsize: nat, shuffled: seq<seq<nat>>, plan: Plan,
                    p: Progress, epoch: nat, e: nat, b: nat)
    requires Valid(start) && batchsize > 0 && epoch <= |shuffled|
    requires forall e :: 0 <= e < |shuffled| ==> IsPermutation(shuffled[e], samples)
    requires TrainedSoFar(start, samples, batchsize, shuffled, plan, p, epoch)
    requires e < epoch && b < NumBatches(samples, batchsize)
    ensures var slot, batch := Slot(e, b, NumBatches(samples, batchsize)),
                               EpochBatches(start.shuffle, samples, shuffled[e], batchsize)[b];
            && slot < |p.runs| && slot < |p.net.trainError|
            && (forall k :: 0 <= k < |batch| ==> batch[k] < plan.labels.cols)
            && p.runs[slot].labels == Columns(plan.labels, batch)
            && Predicts(p.runs[slot].pred, plan.act(e, b), |start.layers|, plan.labels.rows, |batch|)
            && TerminalLoss(Last(start).activation, p.runs[slot].pred, p.runs[slot].labels).Ok?
            && p.net.trainError[slot] == TerminalLoss(Last(start).activation, p.runs[slot].pred, p.runs[slot].labels).value.loss
  {
    var slot := Slot(e, b, NumBatches(samples, batchsize));
    assert Scored(p.runs[slot], plan, |start.layers|, Last(start).activation);
  }

  /** The sample indices of `count` consecutive runs starting at `first`. */
  function RunIndices(runs: seq<BatchRun>, first: nat, count: nat): (r: seq<seq<nat>>)
    requires first + count <= |runs|
    ensures |r| == count && forall b :: 0 <= b < count ==> r[b] == runs[first + b].indices
  {
    seq(count, (b: int) requires 0 <= b < count => runs[first + b].indices)
  }

  /** After `epochs` epochs, the runs of each epoch, taken in batch order, cover that epoch's
      sample order exactly: their indices concatenate to it, every sample is trained on once in
      the epoch, and the order is 0, 1, ..., n-1 when the net does not shuffle. */
  lemma {:induction false} EpochRunsCoverOrder(start: Net, samples: nat, batchsize: nat, shuffled: seq<seq<nat>>,
                                               plan: Plan, p: Progress, epochs: nat, epoch: nat)
    requires Valid(start) && batchsize > 0 && epochs <= |shuffled|
    requires forall e :: 0 <= e < |shuffled| ==> IsPermutation(shuffled[e], samples)
    requires TrainedSoFar(start, samples, batchsize, shuffled, plan, p, epochs) && epoch < epochs
    ensures Slot(epoch, NumBatches(samples, batchsize), NumBatches(samples, batchsize)) <= |p.runs|
    ensures Concat(RunIndices(p.runs, Slot(epoch, 0, NumBatches(samples, batchsize)), NumBatches(samples, batchsize))) ==
            EpochOrder(start.shuffle, samples, shuffled[epoch])
    ensures !start.shuffle ==>
              Concat(RunIndices(p.runs, Slot(epoch, 0, NumBatches(samples, batchsize)), NumBatches(samples, batchsize))) ==
              Identity(samples)
    ensures forall x: nat ::
              multiset(Concat(RunIndices(p.runs, Slot(epoch, 0, NumBatches(samples, batchsize)),
                                         NumBatches(samples, batchsize))))[x] == if x < samples then 1 else 0
  {
    var order := EpochOrder(start.shuffle, samples, shuffled[epoch]);
    EpochRunsAreBatches(start, samples, batchsize, shuffled, plan, p, epochs, epoch);
    BatchesPartition(order, batchsize);
    EachSampleInOneBatch(order, samples, batchsize);
  }

  /** After `epochs` epochs, the runs of epoch `epoch`, taken in batch order, are over that
      epoch's batches. */
  lemma EpochRunsAreBatches(start: Net, samples: nat, batchsize: nat, shuffled: seq<seq<nat>>,
                            plan: Plan, p: Progress, epochs: nat, epoch: nat)
    requires Valid(start) && batchsize > 0 && epochs <= |shuffled|
    requires forall e :: 0 <= e < |shuffled| ==> IsPermutation(shuffled[e], samples)
    requires TrainedSoFar(start, samples, batchsize, shuffled, plan, p, epochs) && epoch < epochs
    ensures Slot(epoch, NumBatches(samples, batchsize), NumBatches(samples, batchsize)) <= |p.runs|
    ensures RunIndices(p.runs, Slot(epoch, 0, NumBatches(samples, batchsize)), NumBatches(samples, batchsize)) ==
            EpochBatches(start.shuffle, samples, shuffled[epoch], batchsize)
  {
    var nb := NumBatches(samples, batchsize);
    EpochEnd(epoch, epochs, nb);
    var indices := RunIndices(p.runs, Slot(epoch, 0, nb), nb);
    var batches := EpochBatches(start.shuffle, samples, shuffled[epoch], batchsize);
    forall b | 0 <= b < nb ensures indices[b] == batches[b] {
      assert Slot(epoch, b, nb) == Slot(epoch, 0, nb) + b;
      assert Describes(p.runs[Slot(epoch, b, nb)], epoch, b, batches[b], plan.labels, |start.layers|);
    }
    assert indices == batches;
  }

  /** One pass of the epoch loop: epoch `epoch` cuts its order into batches and runs them on the
      net the earlier epochs left. */
  method AdvanceTraining(start: Net, samples: nat, batchsize: nat, shuffled: seq<seq<nat>>, plan: Plan,
                         p: Progress, epoch: nat) returns (r: Result<Progress>)
    requires Valid(start) && batchsize > 0 && epoch < |shuffled|
    requires plan.labels.rows == Last(start).length && plan.labels.cols == samples
    requires forall e :: 0 <= e < |shuffled| ==> IsPermutation(shuffled[e], samples)
    requires |start.trainError| == |shuffled| * NumBatches(samples, batchsize)
    requires TrainedSoFar(start, samples, batchsize, shuffled, plan, p, epoch)
    ensures r.Ok? <==> samples == 0 || KnownFunction(Last(start).activation)
    ensures r.Fail? ==> r.error == UnknownFunction(Last(start).activation)
    ensures r.Ok? ==> TrainedSoFar(start, samples, batchsize, shuffled, plan, r.value, epoch + 1)
  {
    var nb := NumBatches(samples, batchsize);
    NumBatchesIsCeiling(samples, batchsize);
    var batches := EpochBatches(start.shuffle, samples, shuffled[epoch], batchsize);
    EpochEnd(epoch, |shuffled|, nb);
    SameChainLast(start, p.net);
    var q := RunEpoch(p.net, epoch, batches, plan);
    if q.Fail? {
      return Fail(q.error);
    }
    TrainedSoFarStep(start, samples, batchsize, shuffled, plan, p, epoch, q.value);
    r := Ok(Progress(q.value.net, p.runs + q.value.runs));
  }

  /** The epoch loop of training, once the inputs are checked: the class coefficients are set to
      0.5, a zeroed loss history of numepochs * numbatches slots is allocated, and every batch of
      every epoch runs in turn, epoch e over the order `shuffled[e]` when the net shuffles and
      over the identity order otherwise. It fails exactly when some batch runs and the last
      layer's function is unknown. */
  method TrainEpochs(net: Net, params: Params, samples: nat, labels: Mat, shuffled: seq<seq<nat>>,
                     act: Activations, update: Updates) returns (r: Result<Progress>)
    requires Valid(net) && params.batchsize > 0
    requires labels.rows == Last(net).length && labels.cols == samples
    requires |shuffled| == params.numepochs
    requires forall e :: 0 <= e < |shuffled| ==> IsPermutation(shuffled[e], samples)
    ensures r.Ok? <==> params.numepochs == 0 || samples == 0 || KnownFunction(Last(net).activation)
    ensures r.Fail? ==> r.error == UnknownFunction(Last(net).activation)
    ensures r.Ok? ==> TrainedSoFar(TrainStart(net, Last(net).length, params.numepochs * NumBatches(samples, params.batchsize)),
                                   samples, params.batchsize, shuffled, Plan(labels, act, update), r.value, params.numepochs)
  {
    var plan := Plan(labels, act, update);
    var start := TrainStart(net, Last(net).length, params.numepochs * NumBatches(samples, params.batchsize));
    var p := Progress(start, []);
    var epoch := 0;
    while epoch < params.numepochs
      invariant epoch <= params.numepochs
      invariant TrainedSoFar(start, samples, params.batchsize, shuffled, plan, p, epoch)
      invariant epoch > 0 ==> samples == 0 || KnownFunction(Last(net).activation)
    {
      var q := AdvanceTraining(start, samples, params.batchsize, shuffled, plan, p, epoch);
      if q.Fail? {
        return Fail(q.error);
      }
      p := q.value;
      epoch := epoch + 1;
    }
    r := Ok(p);
  }

  /** The label array has two dimensions: one row per class of the last layer and one column
      per sample of the data. */
  predicate LabelsFit(net: Net, dims: seq<nat>, labelDims: seq<nat>)
    requires Valid(net)
  {
    DataFits(net, dims) && |labelDims| == 2 && labelDims[0] == Last(net).length && labelDims[1] == dims[2]
  }

  /** Training (Net::Train): the data must be three-dimensional with the input layer's map size,
      the labels two-dimensional with one row per class of the last layer and one column per
      sample, checked in that order. Training then remaps the labels for an SVM last layer and
      runs the epoch loop on them. */
  method Train(net: Net, params: Params, dims: seq<nat>, labelDims: seq<nat>, labels: Mat,
               shuffled: seq<seq<nat>>, act: Activations, update: Updates) returns (r: Result<Progress>)
    requires Valid(net) && params.batchsize > 0
    requires |labelDims| == 2 ==> labels.rows == labelDims[0] && labels.cols == labelDims[1]
    requires |shuffled| == params.numepochs
    requires |dims| == 3 ==> forall e :: 0 <= e < |shuffled| ==> IsPermutation(shuffled[e], dims[2])
    ensures |dims| != 3 ==> r == Fail(DataRank)
    ensures |dims| == 3 && !DataFits(net, dims) ==> r == Fail(DataSize)
    ensures DataFits(net, dims) && |labelDims| != 2 ==> r == Fail(LabelRank)
    ensures DataFits(net, dims) && |labelDims| == 2 && labelDims[0] != Last(net).length ==> r == Fail(LabelClasses)
    ensures DataFits(net, dims) && |labelDims| == 2 && labelDims[0] == Last(net).length && labelDims[1] != dims[2] ==>
              r == Fail(LabelCount)
    ensures r.Ok? <==>
              LabelsFit(net, dims, labelDims) && (params.numepochs == 0 || dims[2] == 0 || KnownFunction(Last(net).activation))
    ensures LabelsFit(net, dims, labelDims) && r.Fail? ==> r.error == UnknownFunction(Last(net).activation)
    ensures r.Ok? ==> LabelsFit(net, dims, labelDims)
    ensures r.Ok? ==>
              TrainedSoFar(TrainStart(net, Last(net).length, params.numepochs * NumBatches(dims[2], params.batchsize)),
                           dims[2], params.batchsize, shuffled, Plan(TrainingLabels(net, labels), act, update), r.value,
                           params.numepochs)
  {
    if |dims| != 3 {
      return Fail(DataRank);
    }
    if !DataFits(net, dims) {
      return Fail(DataSize);
    }
    if |labelDims| != 2 {
      return Fail(LabelRank);
    }
    if labelDims[0] != Last(net).length {
      return Fail(LabelClasses);
    }
    if labelDims[1] != dims[2] {
      return Fail(LabelCount);
    }
    r := TrainEpochs(net, params, dims[2], TrainingLabels(net, labels), shuffled, act, update);
  }
}
