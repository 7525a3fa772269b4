/**
  * The parallax background: a list of layers kept by a provider (added by id,
  * removed by id, cleared), drawn in ascending `zIndex` order, each shifted by
  * the scroll offset times its speed; and the conversion of a collection's
  * configured layers into that list.
  */
module Parallax {
  import opened Wrappers
  import opened Text
  import opened StableSort

  datatype LayerType = Background | Midground | Foreground

  function TypeName(t: LayerType): string {
    match t
    case Background => "background"
    case Midground => "midground"
    case Foreground => "foreground"
  }

  /** `ParallaxLayer` */
  datatype Layer = Layer(
    id: string,
    layerType: LayerType,
    imageUrl: string,
    speed: real,
    opacity: real,
    zIndex: int,
    blur: Option<real>)

  /** `layers.filter(l => l.id !== id)` */
  function WithoutLayer(layers: seq<Layer>, id: string): (r: seq<Layer>)
    ensures |r| <= |layers|
    ensures forall l :: l in r <==> l in layers && l.id != id
  {
    if layers == [] then []
    else (if layers[0].id == id then [] else [layers[0]]) + WithoutLayer(layers[1..], id)
  }

  /** `addLayer`: drop the layers with the same id, then append. */
  function Added(layers: seq<Layer>, layer: Layer): seq<Layer> {
    WithoutLayer(layers, layer.id) + [layer]
  }

  ghost predicate UniqueIds(layers: seq<Layer>) {
    forall i, j :: 0 <= i < j < |layers| ==> layers[i].id != layers[j].id
  }

  lemma UniqueTail(layers: seq<Layer>)
    requires UniqueIds(layers) && layers != []
    ensures UniqueIds(layers[1..])
  {
    var rest := layers[1..];
    forall i, j | 0 <= i < j < |rest|
      ensures rest[i].id != rest[j].id
    {
      assert rest[i] == layers[i + 1] && rest[j] == layers[j + 1];
    }
  }

  lemma UniqueCons(x: Layer, tail: seq<Layer>)
    requires UniqueIds(tail) && forall l :: l in tail ==> l.id != x.id
    ensures UniqueIds([x] + tail)
  {
    var r := [x] + tail;
    forall i, j | 0 <= i < j < |r|
      ensures r[i].id != r[j].id
    {
      assert r[j] == tail[j - 1];
      if i > 0 {
        assert r[i] == tail[i - 1];
      }
    }
  }

  /** Removing an id keeps ids unique. */
  lemma {:induction false} WithoutLayerUnique(layers: seq<Layer>, id: string)
    requires UniqueIds(layers)
    ensures UniqueIds(WithoutLayer(layers, id))
  {
    if layers != [] {
      var rest := layers[1..];
      UniqueTail(layers);
      WithoutLayerUnique(rest, id);
      if layers[0].id != id {
        forall l | l in WithoutLayer(rest, id)
          ensures l.id != layers[0].id
        {
          var k :| 0 <= k < |rest| && rest[k] == l;
          assert layers[k + 1] == l;
        }
        UniqueCons(layers[0], WithoutLayer(rest, id));
      }
    }
  }

  /**
    * After `addLayer` the new layer is last, it is the only one with its id,
    * every other layer stays, and ids that were unique stay unique.
    */
  lemma AddedSpec(layers: seq<Layer>, layer: Layer)
    ensures var r := Added(layers, layer);
      r[|r| - 1] == layer &&
      (forall l :: l in r && l.id == layer.id ==> l == layer) &&
      (forall l :: l in layers && l.id != layer.id ==> l in r)
    ensures UniqueIds(layers) ==> UniqueIds(Added(layers, layer))
  {
    var front := WithoutLayer(layers, layer.id);
    var r := front + [layer];
    assert forall l :: l in r <==> l in front || l == layer;
    if UniqueIds(layers) {
      WithoutLayerUnique(layers, layer.id);
      forall i, j | 0 <= i < j < |r|
        ensures r[i].id != r[j].id
      {
        if j == |r| - 1 {
          assert r[i] in front;
        } else {
          assert r[i] == front[i] && r[j] == front[j];
        }
      }
    }
  }

  // ---------------------------------------------------------------------------
  // Rendering

  /** `(a, b) => a.zIndex - b.zIndex` as an order. */
  function Beneath(a: Layer, b: Layer): bool { a.zIndex <= b.zIndex }

  lemma BeneathPreorder()
    ensures TotalPreorder(Beneath)
  {
  }

  /** `[...layers].sort((a, b) => a.zIndex - b.zIndex)`: a sorted copy. */
  function DrawOrder(layers: seq<Layer>): seq<Layer> {
    SortBy(layers, Beneath)
  }

  /** Every layer is drawn once, in ascending `zIndex` order. */
  lemma DrawOrderSpec(layers: seq<Layer>)
    ensures multiset(DrawOrder(layers)) == multiset(layers)
    ensures forall i, j :: 0 <= i < j < |DrawOrder(layers)| ==> DrawOrder(layers)[i].zIndex <= DrawOrder(layers)[j].zIndex
  {
    BeneathPreorder();
    SortByPermutes(layers, Beneath);
    SortByOrdered(layers, Beneath);
  }

  /** `scrollY * layer.speed` */
  function TranslateY(scrollY: real, l: Layer): real {
    scrollY * l.speed
  }

  /** Scrolled down, a faster layer moves farther; at the top every layer is in place. */
  lemma FasterMovesFarther(scrollY: real, a: Layer, b: Layer)
    requires a.speed < b.speed
    ensures TranslateY(0.0, a) == 0.0
    ensures scrollY > 0.0 ==> TranslateY(scrollY, a) < TranslateY(scrollY, b)
  {
    if scrollY > 0.0 {
      assert scrollY * (b.speed - a.speed) > 0.0;
    }
  }

  /** `layer.blur ? blur(...) : undefined`: a zero blur sets no filter. */
  function BlurFilter(l: Layer): Option<real> {
    if l.blur.Some? && l.blur.value != 0.0 then l.blur else None
  }

  /** The solid fallback is drawn only when there are no layers. */
  predicate ShowsFallback(layers: seq<Layer>) {
    |layers| == 0
  }

  const DefaultTransitionMs: nat := 800
  const DefaultOverlayOpacity: real := 0.4

  // ---------------------------------------------------------------------------
  // From a collection's configuration

  datatype ConfigLayer = ConfigLayer(layerType: LayerType, imageUrl: string, speed: real, opacity: real, blur: Option<real>)
  datatype ParallaxConfig = ParallaxConfig(layers: Option<seq<ConfigLayer>>)

  /** `zIndexMap` */
  function ZIndexOf(t: LayerType): int {
    match t
    case Background => 1
    case Midground => 2
    case Foreground => 3
  }

  /** `${collectionId}-${type}-${index}` */
  function LayerId(collectionId: string, t: LayerType, index: nat): string {
    collectionId + "-" + TypeName(t) + "-" + NatToString(index)
  }

  function ConvertFrom(layers: seq<ConfigLayer>, collectionId: string, start: nat): (r: seq<Layer>)
    ensures |r| == |layers|
    ensures forall i :: 0 <= i < |layers| ==>
      r[i] == Layer(LayerId(collectionId, layers[i].layerType, start + i), layers[i].layerType, layers[i].imageUrl,
                    layers[i].speed, layers[i].opacity, ZIndexOf(layers[i].layerType), layers[i].blur)
    decreases |layers|
  {
    if layers == [] then []
    else
      var l := layers[0];
      [Layer(LayerId(collectionId, l.layerType, start), l.layerType, l.imageUrl, l.speed, l.opacity, ZIndexOf(l.layerType), l.blur)]
        + ConvertFrom(layers[1..], collectionId, start + 1)
  }

  /** `createParallaxLayersFromConfig(config, collectionId)`: no configured layers give none. */
  function FromConfig(parallax: Option<ParallaxConfig>, collectionId: string): seq<Layer> {
    if parallax.None? || parallax.value.layers.None? then []
    else ConvertFrom(parallax.value.layers.value, collectionId, 0)
  }

  /**
    * Configured layers keep their order and count, and are drawn background
    * first, then midground, then foreground, whatever order they were listed in.
    */
  lemma FromConfigDrawOrder(parallax: Option<ParallaxConfig>, collectionId: string)
    requires parallax.Some? && parallax.value.layers.Some?
    ensures |FromConfig(parallax, collectionId)| == |parallax.value.layers.value|
    ensures forall i, j :: 0 <= i < j < |DrawOrder(FromConfig(parallax, collectionId))| ==>
      ZIndexOf(DrawOrder(FromConfig(parallax, collectionId))[i].layerType) <=
      ZIndexOf(DrawOrder(FromConfig(parallax, collectionId))[j].layerType)
  {
    var layers := FromConfig(parallax, collectionId);
    DrawOrderSpec(layers);
    var s := DrawOrder(layers);
    forall l | l in s
      ensures l.zIndex == ZIndexOf(l.layerType)
    {
      assert l in multiset(s);
      assert l in layers;
    }
  }

  // ---------------------------------------------------------------------------
  // The provider

  class Provider {
    var layers: seq<Layer>

    constructor ()
      ensures layers == []
    {
      layers := [];
    }

    /** `setLayers(layers)` */
    method SetLayers(ls: seq<Layer>)
      modifies this
      ensures layers == ls
    {
      layers := ls;
    }

    method AddLayer(layer: Layer)
      modifies this
      ensures layers == Added(old(layers), layer)
      ensures UniqueIds(old(layers)) ==> UniqueIds(layers)
    {
      AddedSpec(layers, layer);
      layers := WithoutLayer(layers, layer.id) + [layer];
    }

    /** `removeLayer(id)`: removes exactly the layers with that id. */
    method RemoveLayer(id: string)
      modifies this
      ensures layers == WithoutLayer(old(layers), id)
      ensures UniqueIds(old(layers)) ==> UniqueIds(layers)
    {
      if UniqueIds(layers) {
        WithoutLayerUnique(layers, id);
      }
      layers := WithoutLayer(layers, id);
    }

    method ClearLayers()
      modifies this
      ensures layers == []
    {
      layers := [];
    }
  }
}
