/** Building the layer chain from its descriptors (Net::InitLayers). */
module Chain {
  import opened Errors
  import opened Layers
  import opened Nets

  /** The reference condition for a buildable chain: at least two descriptors, an input
      descriptor first, only "c", "s" or "f" after it, and "f" last. */
  predicate ValidChain(descs: seq<Descriptor>) {
    && |descs| >= 2
    && descs[0].tag == "i"
    && (forall i :: 1 <= i < |descs| ==> IsInnerTag(descs[i].tag))
    && descs[|descs| - 1].tag == "f"
  }

  /** Position k is the first one after the input descriptor whose tag is not "c", "s" or "f". */
  predicate FirstUnknownAt(descs: seq<Descriptor>, k: int) {
    && 1 <= k < |descs|
    && !IsInnerTag(descs[k].tag)
    && forall j :: 1 <= j < k ==> IsInnerTag(descs[j].tag)
  }

  /** The loop over descriptors i, i+1, ...: each known tag yields its layer, the first unknown
      tag stops the construction. */
  function InitFrom(descs: seq<Descriptor>, i: nat): (r: Result<seq<Layer>>)
    requires 1 <= i <= |descs|
    decreases |descs| - i
    ensures r.Ok? <==> forall k :: i <= k < |descs| ==> IsInnerTag(descs[k].tag)
    ensures r.Ok? ==> |r.value| == |descs| - i
    ensures r.Ok? ==> forall k :: 0 <= k < |r.value| ==> r.value[k] == InitLayer(descs[i + k])
    ensures r.Fail? ==>
              exists k :: i <= k < |descs| && !IsInnerTag(descs[k].tag) && r.error == UnknownLayerType(descs[k].tag) &&
                (forall j :: i <= j < k ==> IsInnerTag(descs[j].tag))
  {
    if i == |descs| then Ok([])
    else if IsInnerTag(descs[i].tag) then
      var rest :- InitFrom(descs, i + 1);
      Ok([InitLayer(descs[i])] + rest)
    else Fail(UnknownLayerType(descs[i].tag))
  }

  /** Replaces the network's layers by the chain the descriptors describe. Succeeds exactly for
      a valid chain, with one freshly initialised layer per descriptor and nothing else of the
      network changed. */
  function InitLayers(net: Net, descs: seq<Descriptor>): (r: Result<Net>)
    ensures r.Ok? <==> ValidChain(descs)
    ensures r.Ok? ==> Valid(r.value)
    ensures r.Ok? ==> |r.value.layers| == |descs|
    ensures r.Ok? ==> forall i :: 0 <= i < |descs| ==> r.value.layers[i] == InitLayer(descs[i])
    ensures r.Ok? ==> r.value == net.(layers := r.value.layers)
  {
    if |descs| == 0 then Fail(LayersEmpty)
    else if |descs| < 2 then Fail(TooFewLayers)
    else if descs[0].tag != "i" then Fail(FirstNotInput)
    else
      match InitFrom(descs, 1)
      case Fail(e) => Fail(e)
      case Ok(rest) =>
        if descs[|descs| - 1].tag != "f" then Fail(LastNotFull)
        else Ok(net.(layers := [InitLayer(descs[0])] + rest))
  }

  /** A failed initialisation reports the first violated check in the order the construction
      performs them: no descriptors, a single one, a first one that is not "i", the first
      unknown tag after it, a last one that is not "f". */
  lemma InitLayersFailures(net: Net, descs: seq<Descriptor>)
    ensures |descs| == 0 <==> InitLayers(net, descs) == Fail(LayersEmpty)
    ensures |descs| == 1 <==> InitLayers(net, descs) == Fail(TooFewLayers)
    ensures InitLayers(net, descs) == Fail(FirstNotInput) <==> |descs| >= 2 && descs[0].tag != "i"
    ensures InitLayers(net, descs).Fail? && InitLayers(net, descs).error.UnknownLayerType? <==>
              |descs| >= 2 && descs[0].tag == "i" && exists k :: FirstUnknownAt(descs, k)
    ensures InitLayers(net, descs).Fail? && InitLayers(net, descs).error.UnknownLayerType? ==>
              exists k :: FirstUnknownAt(descs, k) && InitLayers(net, descs).error.tag == descs[k].tag
    ensures InitLayers(net, descs) == Fail(LastNotFull) <==>
              && |descs| >= 2 && descs[0].tag == "i"
              && (forall i :: 1 <= i < |descs| ==> IsInnerTag(descs[i].tag))
              && descs[|descs| - 1].tag != "f"
  {
    if |descs| >= 2 && descs[0].tag == "i" {
      match InitFrom(descs, 1)
      case Fail(e) =>
        var k :| 1 <= k < |descs| && !IsInnerTag(descs[k].tag) && e == UnknownLayerType(descs[k].tag) &&
                 (forall j :: 1 <= j < k ==> IsInnerTag(descs[j].tag));
        assert FirstUnknownAt(descs, k);
      case Ok(rest) =>
        assert forall k :: !FirstUnknownAt(descs, k);
    }
  }
}
