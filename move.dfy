/**
 * The MOVE command's edit: every selected entity, in enumeration order, is
 * replaced by its moved copy in the drawing the previous step produced.
 * `EditUtilities.Move` is not part of this model; it is the parameter `move`.
 */
module MoveCommand {
  import opened Geometry
  import opened Entities
  import opened Drawings

  /**
   * The left fold of `Replace(ent, move(ent, delta))` over `es`: no entities
   * leave the drawing as it is, and no step changes the settings, the author
   * or the number of layers.
   */
  function MoveAll(d: Drawing, es: seq<Entity>, delta: Vector, move: (Entity, Vector) -> Entity): (r: Drawing)
    ensures es == [] ==> r == d
    ensures r.settings == d.settings && r.author == d.author && |r.layers| == |d.layers|
    decreases |es|
  {
    if es == [] then d else MoveAll(Replace(d, es[0], move(es[0], delta)), es[1..], delta, move)
  }

  /**
   * `DoEdit`: rebinds the drawing once per entity.  The result is the fold,
   * so an empty selection returns the input drawing, and no step adds,
   * drops, renames or reorders a layer.
   */
  method DoEdit(drawing: Drawing, entities: seq<Entity>, delta: Vector, move: (Entity, Vector) -> Entity)
    returns (r: Drawing)
    ensures r == MoveAll(drawing, entities, delta, move)
    ensures entities == [] ==> r == drawing
    ensures LayerNames(r) == LayerNames(drawing) && r.settings == drawing.settings
  {
    r := drawing;
    var i := 0;
    while i < |entities|
      invariant 0 <= i <= |entities|
      invariant MoveAll(r, entities[i..], delta, move) == MoveAll(drawing, entities, delta, move)
      invariant LayerNames(r) == LayerNames(drawing) && r.settings == drawing.settings
    {
      var ent := entities[i];
      ReplaceKeepsLayerNames(r, ent, move(ent, delta));
      assert entities[i..][1..] == entities[i + 1..];
      r := Replace(r, ent, move(ent, delta));
      i := i + 1;
    }
  }

  /** Folding over a concatenation is folding over the first part, then the second. */
  lemma {:induction false} MoveAllAppend(d: Drawing, a: seq<Entity>, b: seq<Entity>, delta: Vector,
                                         move: (Entity, Vector) -> Entity)
    ensures MoveAll(d, a + b, delta, move) == MoveAll(MoveAll(d, a, delta, move), b, delta, move)
    decreases |a|
  {
    if a == [] {
      assert a + b == b;
    } else {
      assert (a + b)[1..] == a[1..] + b;
      MoveAllAppend(Replace(d, a[0], move(a[0], delta)), a[1..], b, delta, move);
    }
  }

  /** Every step keeps the layer names and the settings, so the whole fold does. */
  lemma {:induction false} MoveAllKeepsLayerNames(d: Drawing, es: seq<Entity>, delta: Vector,
                                                  move: (Entity, Vector) -> Entity)
    ensures LayerNames(MoveAll(d, es, delta, move)) == LayerNames(d)
    ensures MoveAll(d, es, delta, move).settings == d.settings
    decreases |es|
  {
    if es != [] {
      ReplaceKeepsLayerNames(d, es[0], move(es[0], delta));
      MoveAllKeepsLayerNames(Replace(d, es[0], move(es[0], delta)), es[1..], delta, move);
    }
  }

  /** An entity that no layer of the current drawing holds is a step that changes nothing. */
  lemma MoveAllSkipsAbsent(d: Drawing, es: seq<Entity>, delta: Vector, move: (Entity, Vector) -> Entity)
    requires es != []
    requires forall i | 0 <= i < |d.layers| :: !EntityExists(d.layers[i], es[0])
    ensures MoveAll(d, es, delta, move) == MoveAll(d, es[1..], delta, move)
  {
    assert ContainingLayer(d, es[0]).None?;
  }
}
