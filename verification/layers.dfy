/** Layers seen from the orchestrator: an abstract value per layer kind holding its parameter
    values and the shape fields the orchestrator reads. The arithmetic inside the layers is not
    part of this model. */
module Layers {
  import opened Matrix

  datatype Size = Size(height: nat, width: nat)

  /** One layer description: the type tag and the fields the layer's own initialisation reads.
      `weights` stands for the initial parameter values that initialisation produces. */
  datatype Descriptor = Descriptor(tag: string, mapsize: Size, length: nat, activation: string, weights: seq<real>)

  /** Input ("i"), convolution ("c"), scaling ("s") and fully connected ("f") layers.
      `batchsize` is the number of samples currently loaded; a fully connected layer also has a
      class count `length`, an activation function name and its current output. */
  datatype Layer =
    | InputLayer(mapsize: Size, batchsize: nat)
    | ConvLayer(weights: seq<real>, batchsize: nat)
    | ScalLayer(weights: seq<real>, batchsize: nat)
    | FullLayer(weights: seq<real>, batchsize: nat, length: nat, activation: string, output: Mat)

  /** The tags that may follow the input layer. */
  predicate IsInnerTag(tag: string) {
    tag == "c" || tag == "s" || tag == "f"
  }

  /** A freshly initialised layer for a descriptor with a known tag. */
  function InitLayer(d: Descriptor): (l: Layer)
    requires d.tag == "i" || IsInnerTag(d.tag)
    ensures l.InputLayer? <==> d.tag == "i"
    ensures l.ConvLayer? <==> d.tag == "c"
    ensures l.ScalLayer? <==> d.tag == "s"
    ensures l.FullLayer? <==> d.tag == "f"
    ensures l.InputLayer? ==> l.mapsize == d.mapsize
    ensures !l.InputLayer? ==> Weights(l) == d.weights
    ensures l.FullLayer? ==> l.length == d.length && l.activation == d.activation
    ensures l.batchsize == 0 && Shaped(l)
  {
    if d.tag == "i" then InputLayer(d.mapsize, 0)
    else if d.tag == "c" then ConvLayer(d.weights, 0)
    else if d.tag == "s" then ScalLayer(d.weights, 0)
    else FullLayer(d.weights, 0, d.length, d.activation, Tabulate(d.length, 0, (i, j) => 0.0))
  }

  /** The layer's trainable parameters; the input layer has none. */
  function Weights(l: Layer): seq<real> {
    if l.InputLayer? then [] else l.weights
  }

  /** The layer with its parameters replaced; the input layer has none to replace. */
  function WithWeights(l: Layer, w: seq<real>): (r: Layer)
    requires |w| == |Weights(l)|
    ensures Weights(r) == w
    ensures SameStructure(r, l)
    ensures r.batchsize == l.batchsize
    ensures r.FullLayer? ==> r.output == l.output
    ensures Shaped(r) <==> Shaped(l)
  {
    if l.InputLayer? then l else l.(weights := w)
  }

  /** Putting a layer's own parameters back changes nothing. */
  lemma WithOwnWeights(l: Layer)
    ensures WithWeights(l, Weights(l)) == l
  {
  }

  /** A fully connected layer's output has shape [length, batchsize]. */
  predicate Shaped(l: Layer) {
    l.FullLayer? ==> l.output.rows == l.length && l.output.cols == l.batchsize
  }

  /** Same kind and same fixed configuration; parameter values, batch size and output may differ. */
  predicate SameStructure(a: Layer, b: Layer) {
    && a.InputLayer? == b.InputLayer?
    && a.ConvLayer? == b.ConvLayer?
    && a.ScalLayer? == b.ScalLayer?
    && a.FullLayer? == b.FullLayer?
    && |Weights(a)| == |Weights(b)|
    && (a.InputLayer? ==> a.mapsize == b.mapsize)
    && (a.FullLayer? ==> a.length == b.length && a.activation == b.activation)
  }

  /** One call the orchestrator makes on a layer, by layer position. `isafter` distinguishes
      the commit phase of UpdateWeights from the prepare phase; `regime` is the forward flag. */
  datatype Call =
    | UpdateCall(layer: nat, isafter: bool)
    | ForwardCall(layer: nat, regime: bool)
    | BackwardCall(layer: nat)
}
