/** The per-batch traversals of the layer chain: the two-phase weight update, the forward pass,
    the loss and backward pass, and classification. Each traversal reports the calls it makes on
    the layers, in order. */
module Passes {
  import opened Errors
  import opened Matrix
  import opened Loss
  import opened Layers
  import opened Nets

  /** The activations the layers compute, by layer position, row and column; this arithmetic
      happens inside the layers and is a parameter of the model. */
  type Activation = (nat, nat, nat) -> real

  /** UpdateWeights calls on layers i, i+1, ..., n-1. */
  function UpdateLoop(i: nat, n: nat, isafter: bool): (calls: seq<Call>)
    decreases n - i
    ensures |calls| == if i < n then n - i else 0
    ensures forall k :: 0 <= k < |calls| ==> calls[k] == UpdateCall(i + k, isafter)
  {
    if i >= n then [] else [UpdateCall(i, isafter)] + UpdateLoop(i + 1, n, isafter)
  }

  /** Forward calls on layers i, i+1, ..., n-1. */
  function ForwardLoop(i: nat, n: nat, regime: bool): (calls: seq<Call>)
    decreases n - i
    ensures |calls| == if i < n then n - i else 0
    ensures forall k :: 0 <= k < |calls| ==> calls[k] == ForwardCall(i + k, regime)
  {
    if i >= n then [] else [ForwardCall(i, regime)] + ForwardLoop(i + 1, n, regime)
  }

  /** Backward calls on layers i, i-1, ..., 1. */
  function BackwardLoop(i: nat): (calls: seq<Call>)
    ensures |calls| == i
    ensures forall k :: 0 <= k < |calls| ==> calls[k] == BackwardCall(i - k)
  {
    if i == 0 then [] else [BackwardCall(i)] + BackwardLoop(i - 1)
  }

  /** The parameters of layer i after one update phase, given its current parameters; the
      layer keeps their number. How a layer computes them (its momentum and gradient steps)
      happens inside the layer and is a parameter of the model. */
  type Update = f: (nat, seq<real>) -> seq<real> | forall i, w :: |f(i, w)| == |w|
    witness (i: nat, w: seq<real>) => w

  /** The update loop over layers i, i+1, ...: each gets its new parameters and keeps the rest. */
  function UpdateFrom(layers: seq<Layer>, i: nat, upd: Update): (r: seq<Layer>)
    requires i >= 1
    decreases |layers| - i
    ensures |r| == |layers|
    ensures forall k :: 0 <= k < i && k < |r| ==> r[k] == layers[k]
    ensures forall k :: i <= k < |r| ==> r[k] == WithWeights(layers[k], upd(k, Weights(layers[k])))
  {
    if i >= |layers| then layers
    else UpdateFrom(layers[i := WithWeights(layers[i], upd(i, Weights(layers[i])))], i + 1, upd)
  }

  /** The result of an update phase: the updated network and the calls made. */
  datatype Updated = Updated(net: Net, calls: seq<Call>)

  /** One phase of the weight update: every layer but the input one, in forward order, replaces
      its parameters by the phase's new values and changes nothing else. */
  function UpdateWeights(net: Net, isafter: bool, upd: Update): (r: Updated)
    ensures Keeps(net, r.net)
    ensures |net.layers| > 0 ==> r.net.layers[0] == net.layers[0]
    ensures forall i :: 1 <= i < |net.layers| ==>
              Weights(r.net.layers[i]) == upd(i, Weights(net.layers[i]))
    ensures forall i :: 0 <= i < |net.layers| ==> r.net.layers[i] == WithWeights(net.layers[i], Weights(r.net.layers[i]))
    ensures Valid(net) ==> Valid(r.net)
    ensures |r.calls| == if |net.layers| > 0 then |net.layers| - 1 else 0
    ensures forall k :: 0 <= k < |r.calls| ==> r.calls[k] == UpdateCall(k + 1, isafter)
  {
    Updated(net.(layers := UpdateFrom(net.layers, 1, upd)), UpdateLoop(1, |net.layers|, isafter))
  }

  /** An update phase whose new values are the current ones leaves the network as it was. */
  lemma UnchangedUpdate(net: Net, isafter: bool, upd: Update)
    requires forall i, w :: upd(i, w) == w
    ensures UpdateWeights(net, isafter, upd).net == net
  {
    var r := UpdateWeights(net, isafter, upd).net;
    assert r.layers == net.layers;
  }

  /** One layer's forward step as seen from outside: it takes its predecessor's batch size and,
      when fully connected, exposes the activation it computed as its output. */
  function LayerForward(l: Layer, prev: Layer, i: nat, act: Activation): (r: Layer)
    ensures SameStructure(r, l) && Weights(r) == Weights(l)
    ensures r.batchsize == prev.batchsize && Shaped(r)
    ensures r.FullLayer? ==> forall row, col :: 0 <= row < r.output.rows && 0 <= col < r.output.cols ==>
              r.output.cells[row][col] == act(i, row, col)
  {
    match l
    case FullLayer(w, _, length, activation, _) =>
      var output := Tabulate(length, prev.batchsize, (row: nat, col: nat) => act(i, row, col));
      FullLayer(w, prev.batchsize, length, activation, output)
    case InputLayer(mapsize, _) => InputLayer(mapsize, prev.batchsize)
    case ConvLayer(w, _) => ConvLayer(w, prev.batchsize)
    case ScalLayer(w, _) => ScalLayer(w, prev.batchsize)
  }

  /** The forward loop over layers i, i+1, ..., each computed from its updated predecessor. */
  function PropagateFrom(layers: seq<Layer>, i: nat, act: Activation): (r: seq<Layer>)
    requires 1 <= i <= |layers|
    decreases |layers| - i
    ensures |r| == |layers|
    ensures forall k :: 0 <= k < i ==> r[k] == layers[k]
    ensures forall k :: i <= k < |r| ==>
              SameStructure(r[k], layers[k]) && Weights(r[k]) == Weights(layers[k]) &&
              Shaped(r[k]) && r[k].batchsize == layers[i - 1].batchsize
    ensures forall k :: i <= k < |r| && r[k].FullLayer? ==>
              forall row, col :: 0 <= row < r[k].output.rows && 0 <= col < r[k].output.cols ==>
                r[k].output.cells[row][col] == act(k, row, col)
  {
    if i == |layers| then layers
    else PropagateFrom(layers[i := LayerForward(layers[i], layers[i - 1], i, act)], i + 1, act)
  }

  /** The result of a forward pass: the updated network, the prediction and the calls made. */
  datatype Forwarded = Forwarded(net: Net, pred: Mat, calls: seq<Call>)

  /** Loads a batch of `count` samples into the input layer and runs every later layer in
      order; the prediction is the last layer's output, of shape [class count, count]. */
  function Forward(net: Net, count: nat, regime: bool, act: Activation): (r: Forwarded)
    requires Valid(net)
    ensures Valid(r.net) && Keeps(net, r.net)
    ensures forall i :: 0 <= i < |net.layers| ==> Weights(r.net.layers[i]) == Weights(net.layers[i])
    ensures forall i :: 0 <= i < |net.layers| ==> r.net.layers[i].batchsize == count
    ensures Last(r.net).batchsize == count
    ensures r.pred == Last(r.net).output
    ensures r.pred.rows == Last(net).length && r.pred.cols == count
    ensures forall row, col :: 0 <= row < r.pred.rows && 0 <= col < r.pred.cols ==>
              r.pred.cells[row][col] == act(|net.layers| - 1, row, col)
    ensures r.calls == ForwardLoop(1, |net.layers|, regime)
  {
    var first := InputLayer(net.layers[0].mapsize, count);
    var layers := PropagateFrom(net.layers[0 := first], 1, act);
    var out := net.(layers := layers);
    Forwarded(out, Last(out).output, ForwardLoop(1, |layers|, regime))
  }

  /** The result of a backward pass: the batch loss, the last layer's derivative and the calls. */
  datatype Backwarded = Backwarded(loss: real, derivative: Mat, calls: seq<Call>)

  /** Checks the labels against the last layer's batch size and class count, applies the loss
      rule of the last layer's function and then runs the layers' backward steps from the last
      layer down to layer 1. Every failure happens before any layer's backward step. */
  function Backward(net: Net, labels: Mat): (r: Result<Backwarded>)
    requires Valid(net)
    ensures labels.cols != Last(net).batchsize ==> r == Fail(BatchSizeMismatch)
    ensures labels.cols == Last(net).batchsize && labels.rows != Last(net).length ==>
              r == Fail(ClassCountMismatch)
    ensures (labels.cols == Last(net).batchsize && labels.rows == Last(net).length &&
             !KnownFunction(Last(net).activation)) ==> r == Fail(UnknownFunction(Last(net).activation))
    ensures r.Ok? <==>
              labels.cols == Last(net).batchsize && labels.rows == Last(net).length &&
              KnownFunction(Last(net).activation)
    ensures r.Ok? ==>
              TerminalLoss(Last(net).activation, Last(net).output, labels) ==
              Ok(Terminal(r.value.derivative, r.value.loss))
    ensures r.Ok? ==> r.value.loss >= 0.0
    ensures r.Ok? ==> r.value.calls == BackwardLoop(|net.layers| - 1)
  {
    var last := Last(net);
    if labels.cols != last.batchsize then Fail(BatchSizeMismatch)
    else if labels.rows != last.length then Fail(ClassCountMismatch)
    else
      var rule :- TerminalLoss(last.activation, last.output, labels);
      Ok(Backwarded(rule.loss, rule.derivative, BackwardLoop(|net.layers| - 1)))
  }

  /** The data array has three dimensions, and its first two match the input layer's map size. */
  predicate DataFits(net: Net, dims: seq<nat>)
    requires Valid(net)
  {
    |dims| == 3 && dims[0] == net.layers[0].mapsize.height && dims[1] == net.layers[0].mapsize.width
  }

  /** Classification: checks the data dimensions against the input layer's map size and runs
      a forward pass in the classification regime over the data's samples. */
  function Classify(net: Net, dims: seq<nat>, act: Activation): (r: Result<Forwarded>)
    requires Valid(net)
    ensures |dims| != 3 ==> r == Fail(DataRank)
    ensures |dims| == 3 && (dims[0] != net.layers[0].mapsize.height || dims[1] != net.layers[0].mapsize.width) ==>
              r == Fail(DataSize)
    ensures r.Ok? <==> DataFits(net, dims)
    ensures r.Ok? ==> r.value == Forward(net, dims[2], true, act)
    ensures r.Ok? ==> r.value.pred == Last(r.value.net).output
    ensures r.Ok? ==> r.value.pred.rows == Last(net).length && r.value.pred.cols == dims[2]
    ensures r.Ok? ==> forall row, col :: 0 <= row < r.value.pred.rows && 0 <= col < r.value.pred.cols ==>
              r.value.pred.cells[row][col] == act(|net.layers| - 1, row, col)
    ensures r.Ok? ==> forall i :: 0 <= i < |net.layers| ==> Weights(r.value.net.layers[i]) == Weights(net.layers[i])
    ensures r.Ok? ==> r.value.calls == ForwardLoop(1, |net.layers|, true)
  {
    if |dims| != 3 then Fail(DataRank)
    else if dims[0] != net.layers[0].mapsize.height || dims[1] != net.layers[0].mapsize.width then Fail(DataSize)
    else Ok(Forward(net, dims[2], true, act))
  }

  /** The calls of one training batch over n layers: the prepare phase of the weight update,
      the forward pass in the training regime, the backward pass and the commit phase. */
  function BatchCalls(n: nat): seq<Call>
    requires n >= 1
  {
    UpdateLoop(1, n, false) + ForwardLoop(1, n, false) + BackwardLoop(n - 1) + UpdateLoop(1, n, true)
  }

  /** The batch protocol over n layers, in four blocks of n-1 calls: prepare on layers 1..n-1,
      forward on 1..n-1, backward on n-1 down to 1, commit on 1..n-1. */
  predicate BatchProtocol(calls: seq<Call>, n: nat)
    requires n >= 1
  {
    var m := n - 1;
    && |calls| == 4 * m
    && (forall k :: 0 <= k < m ==> calls[k] == UpdateCall(k + 1, false))
    && (forall k :: m <= k < 2 * m ==> calls[k] == ForwardCall(k - m + 1, false))
    && (forall k :: 2 * m <= k < 3 * m ==> calls[k] == BackwardCall(3 * m - k))
    && (forall k :: 3 * m <= k < 4 * m ==> calls[k] == UpdateCall(k - 3 * m + 1, true))
  }

  /** A training batch follows the batch protocol. */
  lemma BatchCallsFollowProtocol(n: nat)
    requires n >= 1
    ensures BatchProtocol(BatchCalls(n), n)
  {
    var prepare, forward, backward, commit :=
      UpdateLoop(1, n, false), ForwardLoop(1, n, false), BackwardLoop(n - 1), UpdateLoop(1, n, true);
    var calls := prepare + forward + backward + commit;
    var m := n - 1;
    forall k | m <= k < 2 * m ensures calls[k] == ForwardCall(k - m + 1, false) {
      assert calls[k] == forward[k - m];
    }
    forall k | 2 * m <= k < 3 * m ensures calls[k] == BackwardCall(3 * m - k) {
      assert calls[k] == backward[k - 2 * m];
    }
    forall k | 3 * m <= k < 4 * m ensures calls[k] == UpdateCall(k - 3 * m + 1, true) {
      assert calls[k] == commit[k - 3 * m];
    }
  }

  /** Under the batch protocol every call goes to a layer in 1..n-1, so the input layer never
      receives an update, forward or backward call, and each layer is prepared before it runs
      forward, runs forward before backward, and is committed last. */
  lemma ProtocolSkipsInputLayer(calls: seq<Call>, n: nat)
    requires n >= 1
    requires BatchProtocol(calls, n)
    ensures forall k :: 0 <= k < |calls| ==> 1 <= calls[k].layer < n
    ensures forall j :: 1 <= j < n ==>
              && calls[j - 1] == UpdateCall(j, false)
              && calls[n - 1 + j - 1] == ForwardCall(j, false)
              && calls[3 * (n - 1) - j] == BackwardCall(j)
              && calls[3 * (n - 1) + j - 1] == UpdateCall(j, true)
  {
  }
}
