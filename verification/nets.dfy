/** The network state owned by the orchestrator. */
module Nets {
  import opened Layers

  /** The layer chain, the shuffle flag, the training loss history and the class coefficients. */
  datatype Net = Net(layers: seq<Layer>, shuffle: bool, trainError: seq<real>, classCoefs: seq<real>)

  /** A new network: no layers yet, shuffling enabled. */
  function NewNet(): (net: Net)
    ensures net.layers == [] && net.shuffle
    ensures net.trainError == [] && net.classCoefs == []
  {
    Net([], true, [], [])
  }

  /** What a successful layer initialisation guarantees: at least two layers, an input layer
      first and only there, a fully connected layer last, and every output correctly shaped. */
  predicate Valid(net: Net) {
    && |net.layers| >= 2
    && net.layers[0].InputLayer?
    && (forall i :: 1 <= i < |net.layers| ==> !net.layers[i].InputLayer?)
    && net.layers[|net.layers| - 1].FullLayer?
    && (forall i :: 0 <= i < |net.layers| ==> Shaped(net.layers[i]))
  }

  function Last(net: Net): Layer
    requires |net.layers| > 0
  {
    net.layers[|net.layers| - 1]
  }

  /** `after` has the layer chain of `before`: the same number of layers, each of the same kind
      with the same fixed configuration and parameter count. Parameter values, batch sizes and
      outputs may differ. */
  predicate SameChain(before: Net, after: Net) {
    && |after.layers| == |before.layers|
    && (forall i :: 0 <= i < |before.layers| ==> SameStructure(after.layers[i], before.layers[i]))
  }

  /** `after` has the chain of `before` and the same shuffle flag, class coefficients and loss
      history. */
  predicate Keeps(before: Net, after: Net) {
    && after == before.(layers := after.layers)
    && SameChain(before, after)
  }

  lemma SameChainTransitive(a: Net, b: Net, c: Net)
    requires SameChain(a, b) && SameChain(b, c)
    ensures SameChain(a, c)
  {
    forall i | 0 <= i < |a.layers| ensures SameStructure(c.layers[i], a.layers[i]) {
      assert SameStructure(c.layers[i], b.layers[i]) && SameStructure(b.layers[i], a.layers[i]);
    }
  }

  lemma KeepsTransitive(a: Net, b: Net, c: Net)
    requires Keeps(a, b) && Keeps(b, c)
    ensures Keeps(a, c)
  {
    SameChainTransitive(a, b, c);
  }

  /** Nets with the same chain have the same length and the same last layer kind, class count
      and function. */
  lemma SameChainLast(a: Net, b: Net)
    requires |a.layers| > 0 && SameChain(a, b)
    ensures |b.layers| == |a.layers|
    ensures SameStructure(Last(b), Last(a))
  {
  }
}
