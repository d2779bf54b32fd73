/**
 * Layers and drawings as immutable values, and the drawing-level edits
 * that locate the layer containing an entity, edit that layer and swap it
 * into a new drawing.
 *
 * A layer's entity collection is a sequence (the source keeps an ordered
 * tree keyed by entity id); a drawing's layers are a sequence whose names
 * are distinct, in the order the source enumerates `Layers.Values`.
 */
module Drawings {
  import opened Wrappers
  import opened Colors
  import opened Entities

  datatype Layer = Layer(name: string, color: IndexedColor, isVisible: bool, entities: seq<Entity>)

  datatype UnitFormat = Architectural | Metric | OtherUnitFormat(code: int)

  datatype DrawingSettings = DrawingSettings(fileName: string, unitFormat: UnitFormat, unitPrecision: int)

  datatype Drawing = Drawing(settings: DrawingSettings, layers: seq<Layer>, author: string)

  /** Layer names are keys: no two layers of a drawing share one. */
  predicate DistinctNames(layers: seq<Layer>) {
    forall i, j | 0 <= i < j < |layers| :: layers[i].name != layers[j].name
  }

  predicate EntityExists(layer: Layer, e: Entity) {
    e in layer.entities
  }

  /** `Layer.Add`: the entity joins the layer; the layer's name, colour, visibility and entities are kept. */
  function LayerAdd(layer: Layer, e: Entity): (r: Layer)
    ensures r.name == layer.name && r.color == layer.color && r.isVisible == layer.isVisible
    ensures EntityExists(r, e)
    ensures forall x | x != e :: EntityExists(r, x) <==> EntityExists(layer, x)
  {
    Layer(layer.name, layer.color, layer.isVisible, layer.entities + [e])
  }

  /** `Layer.Remove`: the entity leaves the layer; every other entity and the layer's properties are kept. */
  function LayerRemove(layer: Layer, e: Entity): (r: Layer)
    ensures r.name == layer.name && r.color == layer.color && r.isVisible == layer.isVisible
    ensures !EntityExists(r, e)
    ensures forall x | x != e :: EntityExists(r, x) <==> EntityExists(layer, x)
  {
    Layer(layer.name, layer.color, layer.isVisible, Without(layer.entities, e))
  }

  function Without(s: seq<Entity>, e: Entity): (r: seq<Entity>)
    ensures e !in r
    ensures forall x | x != e :: x in r <==> x in s
  {
    if s == [] then [] else (if s[0] == e then [] else [s[0]]) + Without(s[1..], e)
  }

  /**
   * `Layer.Replace`: the new entity takes the old one's place; the layer's
   * properties, its size and every other entity are kept.
   */
  function LayerReplace(layer: Layer, oldEntity: Entity, newEntity: Entity): (r: Layer)
    ensures r.name == layer.name && r.color == layer.color && r.isVisible == layer.isVisible
    ensures |r.entities| == |layer.entities|
    ensures EntityExists(layer, oldEntity) ==> EntityExists(r, newEntity)
    ensures oldEntity != newEntity ==> !EntityExists(r, oldEntity)
    ensures forall x | x != oldEntity && x != newEntity :: EntityExists(r, x) <==> EntityExists(layer, x)
  {
    var s := layer.entities;
    var t := seq(|s|, i requires 0 <= i < |s| => if s[i] == oldEntity then newEntity else s[i]);
    assert oldEntity in s ==> newEntity in t by {
      if oldEntity in s {
        var k :| 0 <= k < |s| && s[k] == oldEntity;
        assert t[k] == newEntity;
      }
    }
    assert forall x | x != oldEntity && x != newEntity && x in s :: x in t by {
      forall x | x != oldEntity && x != newEntity && x in s
        ensures x in t
      {
        var k :| 0 <= k < |s| && s[k] == x;
        assert t[k] == x;
      }
    }
    Layer(layer.name, layer.color, layer.isVisible, t)
  }

  /** `Layer.Update` with optional overrides of the name, colour and visibility; the entities are kept. */
  function LayerUpdate(layer: Layer, name: Option<string>, color: Option<IndexedColor>, isVisible: Option<bool>): Layer {
    Layer(GetOr(name, layer.name), GetOr(color, layer.color), GetOr(isVisible, layer.isVisible), layer.entities)
  }

  /** Swaps the layer named like `oldLayer` for `newLayer`; every other layer stays where it is. */
  function ReplaceLayer(d: Drawing, oldLayer: Layer, newLayer: Layer): (r: Drawing)
    ensures r.settings == d.settings && r.author == d.author
    ensures |r.layers| == |d.layers|
    ensures forall i | 0 <= i < |d.layers| ::
      r.layers[i] == if d.layers[i].name == oldLayer.name then newLayer else d.layers[i]
  {
    Drawing(d.settings,
            seq(|d.layers|, i requires 0 <= i < |d.layers| =>
              if d.layers[i].name == oldLayer.name then newLayer else d.layers[i]),
            d.author)
  }

  /** The index of the first layer holding `e`, if any. */
  function ContainingIndex(layers: seq<Layer>, e: Entity): (r: Option<nat>)
    ensures r.None? <==> forall i | 0 <= i < |layers| :: !EntityExists(layers[i], e)
    ensures r.Some? ==> r.value < |layers| && EntityExists(layers[r.value], e)
    ensures r.Some? ==> forall i | 0 <= i < r.value :: !EntityExists(layers[i], e)
  {
    if layers == [] then None
    else if EntityExists(layers[0], e) then Some(0)
    else match ContainingIndex(layers[1..], e)
      case None => None
      case Some(k) => Some(k + 1)
  }

  /** The first layer, in enumeration order, that holds `e`; None when no layer does. */
  function ContainingLayer(d: Drawing, e: Entity): (r: Option<Layer>)
    ensures r.None? <==> forall i | 0 <= i < |d.layers| :: !EntityExists(d.layers[i], e)
    ensures r.Some? ==> exists k | 0 <= k < |d.layers| ::
      && d.layers[k] == r.value
      && EntityExists(r.value, e)
      && forall i | 0 <= i < k :: !EntityExists(d.layers[i], e)
  {
    match ContainingIndex(d.layers, e)
    case None => None
    case Some(k) => Some(d.layers[k])
  }

  /** `Add(layer, entity)`: the drawing with `layer` swapped for `layer.Add(entity)`. */
  function AddToLayer(d: Drawing, layer: Layer, e: Entity): (r: Drawing)
    ensures r.settings == d.settings && r.author == d.author && |r.layers| == |d.layers|
    ensures forall i | 0 <= i < |d.layers| && d.layers[i].name != layer.name :: r.layers[i] == d.layers[i]
    ensures forall i | 0 <= i < |d.layers| && d.layers[i].name == layer.name ::
      r.layers[i].name == layer.name && r.layers[i].color == layer.color && r.layers[i].isVisible == layer.isVisible
    ensures forall i | 0 <= i < |d.layers| && d.layers[i].name == layer.name :: EntityExists(r.layers[i], e)
    ensures forall i, x | 0 <= i < |d.layers| && d.layers[i].name == layer.name && x != e ::
      EntityExists(r.layers[i], x) <==> EntityExists(layer, x)
  {
    ReplaceLayer(d, layer, LayerAdd(layer, e))
  }

  /** `Replace(layer, old, new)`: the drawing with `layer` swapped for `layer.Replace(old, new)`. */
  function ReplaceInLayer(d: Drawing, layer: Layer, oldEntity: Entity, newEntity: Entity): (r: Drawing)
    ensures r.settings == d.settings && r.author == d.author && |r.layers| == |d.layers|
    ensures forall i | 0 <= i < |d.layers| && d.layers[i].name != layer.name :: r.layers[i] == d.layers[i]
    ensures forall i | 0 <= i < |d.layers| && d.layers[i].name == layer.name ::
      && r.layers[i].name == layer.name && r.layers[i].color == layer.color && r.layers[i].isVisible == layer.isVisible
      && (EntityExists(layer, oldEntity) ==> EntityExists(r.layers[i], newEntity))
      && (oldEntity != newEntity ==> !EntityExists(r.layers[i], oldEntity))
      && forall x | x != oldEntity && x != newEntity :: EntityExists(r.layers[i], x) <==> EntityExists(layer, x)
  {
    ReplaceLayer(d, layer, LayerReplace(layer, oldEntity, newEntity))
  }

  /** `Remove(layer, entity)`: the drawing with `layer` swapped for `layer.Remove(entity)`. */
  function RemoveFromLayer(d: Drawing, layer: Layer, e: Entity): (r: Drawing)
    ensures r.settings == d.settings && r.author == d.author && |r.layers| == |d.layers|
    ensures forall i | 0 <= i < |d.layers| && d.layers[i].name != layer.name :: r.layers[i] == d.layers[i]
    ensures forall i | 0 <= i < |d.layers| && d.layers[i].name == layer.name ::
      && r.layers[i].name == layer.name && r.layers[i].color == layer.color && r.layers[i].isVisible == layer.isVisible
      && !EntityExists(r.layers[i], e)
      && forall x | x != e :: EntityExists(r.layers[i], x) <==> EntityExists(layer, x)
  {
    ReplaceLayer(d, layer, LayerRemove(layer, e))
  }

  /** `Replace(old, new)`: edits the containing layer, or returns the drawing itself when there is none. */
  function Replace(d: Drawing, oldEntity: Entity, newEntity: Entity): (r: Drawing)
    ensures ContainingLayer(d, oldEntity).None? ==> r == d
    ensures ContainingLayer(d, oldEntity).Some? ==>
      r == ReplaceInLayer(d, ContainingLayer(d, oldEntity).value, oldEntity, newEntity)
  {
    match ContainingLayer(d, oldEntity)
    case None => d
    case Some(layer) => ReplaceInLayer(d, layer, oldEntity, newEntity)
  }

  /** `Remove(entity)`: edits the containing layer, or returns the drawing itself when there is none. */
  function Remove(d: Drawing, e: Entity): (r: Drawing)
    ensures ContainingLayer(d, e).None? ==> r == d
    ensures ContainingLayer(d, e).Some? ==> r == RemoveFromLayer(d, ContainingLayer(d, e).value, e)
  {
    match ContainingLayer(d, e)
    case None => d
    case Some(layer) => RemoveFromLayer(d, layer, e)
  }

  /** Every entity of the drawing: the layers in order, each layer's entities in order. */
  function GetEntities(d: Drawing): (es: seq<Entity>)
    ensures forall e | e in es :: exists i | 0 <= i < |d.layers| :: e in d.layers[i].entities
    ensures forall i, e | 0 <= i < |d.layers| && e in d.layers[i].entities :: e in es
    decreases |d.layers|
  {
    if d.layers == [] then []
    else GetEntities(Drawing(d.settings, d.layers[..|d.layers| - 1], d.author)) + d.layers[|d.layers| - 1].entities
  }

  /**
   * The enumeration is layer by layer: the entities of a drawing whose layers
   * are `a + b` are those of `a`, then those of `b`.
   */
  lemma {:induction false} GetEntitiesAppend(settings: DrawingSettings, a: seq<Layer>, b: seq<Layer>, author: string)
    ensures GetEntities(Drawing(settings, a + b, author))
         == GetEntities(Drawing(settings, a, author)) + GetEntities(Drawing(settings, b, author))
    decreases |b|
  {
    if b == [] {
      assert a + b == a;
    } else {
      var b' := b[..|b| - 1];
      assert (a + b)[..|a + b| - 1] == a + b';
      GetEntitiesAppend(settings, a, b', author);
    }
  }

  /** The names of a drawing's layers, in order. */
  function LayerNames(d: Drawing): (names: seq<string>)
    ensures |names| == |d.layers|
    ensures forall i | 0 <= i < |d.layers| :: names[i] == d.layers[i].name
  {
    seq(|d.layers|, i requires 0 <= i < |d.layers| => d.layers[i].name)
  }

  /** Replacing an entity never creates, deletes, renames or reorders a layer. */
  lemma ReplaceKeepsLayerNames(d: Drawing, oldEntity: Entity, newEntity: Entity)
    ensures LayerNames(Replace(d, oldEntity, newEntity)) == LayerNames(d)
    ensures Replace(d, oldEntity, newEntity).settings == d.settings
  {
    var r := Replace(d, oldEntity, newEntity);
    if ContainingLayer(d, oldEntity).Some? {
      var layer := ContainingLayer(d, oldEntity).value;
      assert forall i | 0 <= i < |d.layers| :: r.layers[i].name == d.layers[i].name;
    }
  }

  /** In a replaced drawing, only the layer that held the old entity differs. */
  lemma ReplaceTouchesOnlyContainingLayer(d: Drawing, oldEntity: Entity, newEntity: Entity, i: nat)
    requires DistinctNames(d.layers)
    requires i < |d.layers|
    requires !EntityExists(d.layers[i], oldEntity)
    ensures Replace(d, oldEntity, newEntity).layers[i] == d.layers[i]
  {
    var k := ContainingIndex(d.layers, oldEntity);
    if k.Some? {
      assert d.layers[k.value].name != d.layers[i].name;
    }
  }

  /**
   * In the layer that held the old entity first, the new entity has taken its
   * place and nothing else in that layer has changed.
   */
  lemma ReplaceInstallsNewEntity(d: Drawing, oldEntity: Entity, newEntity: Entity, k: nat)
    requires ContainingIndex(d.layers, oldEntity) == Some(k)
    ensures var r := Replace(d, oldEntity, newEntity);
      && k < |r.layers| && r.layers[k].name == d.layers[k].name
      && EntityExists(r.layers[k], newEntity)
      && (oldEntity != newEntity ==> !EntityExists(r.layers[k], oldEntity))
      && forall x | x != oldEntity && x != newEntity :: EntityExists(r.layers[k], x) <==> EntityExists(d.layers[k], x)
  {
    assert ContainingLayer(d, oldEntity) == Some(d.layers[k]);
  }

  /**
   * Removing an entity that lies in exactly one layer leaves it in no layer,
   * and the layer names stay as they were.
   */
  lemma RemoveLeavesNoCopy(d: Drawing, e: Entity, k: nat)
    requires DistinctNames(d.layers)
    requires k < |d.layers| && EntityExists(d.layers[k], e)
    requires forall i | 0 <= i < |d.layers| && i != k :: !EntityExists(d.layers[i], e)
    ensures ContainingLayer(Remove(d, e), e).None?
    ensures LayerNames(Remove(d, e)) == LayerNames(d)
  {
    var r := Remove(d, e);
    var idx := ContainingIndex(d.layers, e);
    assert idx == Some(k);
    forall i | 0 <= i < |r.layers|
      ensures !EntityExists(r.layers[i], e)
    {
      if i != k {
        assert d.layers[i].name != d.layers[k].name;
        assert r.layers[i] == d.layers[i];
      }
    }
  }
}
