/** The flat parameter vector (Net::GetWeights, Net::SetWeights): the parameters of layers
    1..n-1 concatenated in forward order, and their reloading front to back from a buffer. */
module Serialization {
  import opened Errors
  import opened Layers
  import opened Nets

  /** Where layer k's block starts in the flat vector: after the parameters of layers 1..k-1. */
  function Start(layers: seq<Layer>, k: nat): nat
    requires 1 <= k <= |layers|
  {
    if k == 1 then 0 else Start(layers, k - 1) + |Weights(layers[k - 1])|
  }

  /** Where layer k's block ends: the next layer's block starts there. */
  function End(layers: seq<Layer>, k: nat): (e: nat)
    requires 1 <= k < |layers|
    ensures e == Start(layers, k + 1)
  {
    Start(layers, k) + |Weights(layers[k])|
  }

  /** Blocks end no later than the last one. */
  lemma {:induction false} StartFits(layers: seq<Layer>, k: nat)
    requires 1 <= k <= |layers|
    decreases |layers| - k
    ensures Start(layers, k) <= Start(layers, |layers|)
  {
    if k < |layers| {
      StartFits(layers, k + 1);
    }
  }

  /** The parameter count of every layer but the input layer. */
  function WeightCount(net: Net): nat {
    if |net.layers| == 0 then 0 else Start(net.layers, |net.layers|)
  }

  /** The parameters of layers 1..k-1, in order. */
  function Flatten(layers: seq<Layer>, k: nat): (r: seq<real>)
    requires 1 <= k <= |layers|
    ensures |r| == Start(layers, k)
  {
    if k == 1 then [] else Flatten(layers, k - 1) + Weights(layers[k - 1])
  }

  /** The values buf[a..b], built one by one so that reasoning about them goes through their
      positions in buf only. */
  function Block(buf: seq<real>, a: nat, b: nat): (r: seq<real>)
    requires a <= b <= |buf|
    decreases b - a
    ensures |r| == b - a
    ensures forall j :: 0 <= j < |r| ==> r[j] == buf[a + j]
  {
    if a == b then [] else [buf[a]] + Block(buf, a + 1, b)
  }

  /** A block is the slice it names. */
  lemma BlockIsSlice(buf: seq<real>, a: nat, b: nat)
    requires a <= b <= |buf|
    ensures Block(buf, a, b) == buf[a..b]
  {
  }

  /** Flattening fewer layers gives a prefix. */
  lemma {:induction false} FlattenPrefix(layers: seq<Layer>, k: nat, m: nat)
    requires 1 <= k <= m <= |layers|
    decreases m - k
    ensures Start(layers, k) <= Start(layers, m)
    ensures forall j :: 0 <= j < Start(layers, k) ==> Flatten(layers, m)[j] == Flatten(layers, k)[j]
  {
    if k < m {
      FlattenPrefix(layers, k, m - 1);
    }
  }

  /** The flat parameter vector: the parameters of layers 1..n-1 concatenated in forward order,
      layer k's block starting where layer k-1's ends. */
  function GetWeights(net: Net): (r: seq<real>)
    ensures |r| == WeightCount(net)
    ensures forall k :: 1 <= k < |net.layers| ==>
              && End(net.layers, k) <= |r|
              && Block(r, Start(net.layers, k), End(net.layers, k)) == Weights(net.layers[k])
  {
    if |net.layers| == 0 then []
    else
      var n := |net.layers|;
      var r := Flatten(net.layers, n);
      assert forall k :: 1 <= k < n ==>
               && End(net.layers, k) <= |r|
               && Block(r, Start(net.layers, k), End(net.layers, k)) == Weights(net.layers[k]) by {
        forall k | 1 <= k < n
          ensures End(net.layers, k) <= |r|
          ensures Block(r, Start(net.layers, k), End(net.layers, k)) == Weights(net.layers[k])
        {
          FlattenPrefix(net.layers, k + 1, n);
        }
      }
      r
  }

  /** Every block lies within the whole vector. */
  lemma BlocksFit(layers: seq<Layer>)
    requires |layers| > 0
    ensures forall k :: 1 <= k < |layers| ==> End(layers, k) <= Start(layers, |layers|)
  {
    forall k | 1 <= k < |layers| ensures End(layers, k) <= Start(layers, |layers|) {
      StartFits(layers, k + 1);
    }
  }

  /** The layers after the load loop (Net::SetWeights): the input layer as it was, and every
      later layer k with the next block of the buffer, the one the cursor reaches after the
      blocks of layers 1..k-1, as its parameters. */
  function Load(layers: seq<Layer>, buf: seq<real>): (r: seq<Layer>)
    requires |layers| == 0 || Start(layers, |layers|) <= |buf|
    ensures |r| == |layers|
    ensures |layers| > 0 ==> r[0] == layers[0]
    ensures forall k :: 1 <= k < |layers| ==>
              && End(layers, k) <= |buf|
              && r[k] == WithWeights(layers[k], Block(buf, Start(layers, k), End(layers, k)))
    ensures forall k :: 0 <= k < |layers| ==> SameStructure(r[k], layers[k]) && (Shaped(r[k]) <==> Shaped(layers[k]))
  {
    if |layers| == 0 then []
    else
      BlocksFit(layers);
      seq(|layers|, k requires 0 <= k < |layers| =>
        if k == 0 then layers[0] else WithWeights(layers[k], Block(buf, Start(layers, k), End(layers, k))))
  }

  /** Loading parameters (Net::SetWeights): layers 1..n-1 take consecutive blocks of the buffer in
      forward order; the load succeeds exactly when that uses the buffer up, and it switches
      shuffling off. The buffer must hold at least the net's parameter count. */
  function SetWeights(net: Net, buf: seq<real>): (r: Result<Net>)
    requires WeightCount(net) <= |buf|
    ensures r.Ok? <==> |buf| == WeightCount(net)
    ensures r.Fail? ==> r.error == WeightsTooLong
    ensures r.Ok? ==> r.value == net.(layers := Load(net.layers, buf), shuffle := false)
    ensures r.Ok? ==> SameChain(net, r.value)
    ensures r.Ok? && Valid(net) ==> Valid(r.value)
  {
    if |buf| != WeightCount(net) then Fail(WeightsTooLong)
    else Ok(net.(layers := Load(net.layers, buf), shuffle := false))
  }

  /** Reloading a net's own flat vector gives the net back, with shuffling off. */
  lemma SetGetRoundTrip(net: Net)
    ensures SetWeights(net, GetWeights(net)) == Ok(net.(shuffle := false))
  {
    var buf := GetWeights(net);
    var loaded := Load(net.layers, buf);
    forall k | 1 <= k < |net.layers| ensures loaded[k] == net.layers[k] {
      WithOwnWeights(net.layers[k]);
    }
    assert loaded == net.layers;
  }

  /** Adjacent blocks of a buffer join up. */
  lemma JoinBlocks(buf: seq<real>, a: nat, b: nat)
    requires a <= b <= |buf|
    ensures Block(buf, 0, a) + Block(buf, a, b) == Block(buf, 0, b)
  {
  }

  /** Flattening the first k - 1 layers of a chain whose every block holds the buffer's values
      gives the buffer up to layer k's block. */
  lemma {:induction false} FlattenBlocks(layers: seq<Layer>, loaded: seq<Layer>, buf: seq<real>, k: nat)
    requires |loaded| == |layers| && 1 <= k <= |layers| && Start(layers, |layers|) <= |buf|
    requires forall j :: 1 <= j < |layers| ==>
               End(layers, j) <= |buf| && Weights(loaded[j]) == Block(buf, Start(layers, j), End(layers, j))
    ensures Start(layers, k) <= |buf|
    ensures Flatten(loaded, k) == Block(buf, 0, Start(layers, k))
  {
    StartFits(layers, k);
    if k > 1 {
      var a, b := Start(layers, k - 1), End(layers, k - 1);
      FlattenBlocks(layers, loaded, buf, k - 1);
      calc {
        Flatten(loaded, k);
        Flatten(loaded, k - 1) + Weights(loaded[k - 1]);
        Block(buf, 0, a) + Block(buf, a, b);
        { JoinBlocks(buf, a, b); }
        Block(buf, 0, b);
      }
    }
  }

  /** Flattening a freshly loaded net gives back the buffer it was loaded from. */
  lemma GetSetRoundTrip(net: Net, buf: seq<real>)
    requires |buf| == WeightCount(net)
    ensures SetWeights(net, buf).Ok?
    ensures GetWeights(SetWeights(net, buf).value) == buf
  {
    if |net.layers| > 0 {
      FlattenBlocks(net.layers, Load(net.layers, buf), buf, |net.layers|);
      BlockIsSlice(buf, 0, |buf|);
    }
  }
}
