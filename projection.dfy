/**
 * Projected entities, as the plotters receive them from the projection to
 * two dimensions (which is not part of this model), and the grouping both
 * plotters apply: `GroupBy(p => p.OriginalLayer).OrderBy(x => x.Key.Name)`.
 * Layer names are compared ordinally, character by character.
 */
module Projection {
  import opened Geometry
  import opened Colors
  import opened Entities
  import opened Drawings

  /** A projected entity: its original layer and colour, and its two-dimensional shape. */
  datatype ProjectedEntity =
    | ProjectedLine(layer: Layer, color: IndexedColor, p1: Point, p2: Point)
    | ProjectedCircle(layer: Layer, color: IndexedColor, isEllipse: bool, center: Point,
                      radiusX: real, radiusY: real, rotation: real)
    | ProjectedArc(layer: Layer, color: IndexedColor, center: Point, startPoint: Point, endPoint: Point,
                   radiusX: real, radiusY: real, rotation: real)
    | ProjectedText(layer: Layer, color: IndexedColor, location: Point, height: real, rotation: real, value: string)
    | ProjectedAggregate(layer: Layer, color: IndexedColor, location: Point, children: seq<ProjectedEntity>)
    | ProjectedOther(layer: Layer, color: IndexedColor)  // a polyline: no projected shape of its own

  /** The kind of the original entity; a projected circle stands for a circle or an ellipse. */
  function KindOf(p: ProjectedEntity): (k: EntityKind)
    ensures p.ProjectedLine? <==> k == LineKind
    ensures p.ProjectedArc? <==> k == ArcKind
    ensures p.ProjectedText? <==> k == TextKind
    ensures p.ProjectedAggregate? <==> k == AggregateKind
    ensures p.ProjectedCircle? ==> (k == EllipseKind <==> p.isEllipse) && (k == CircleKind <==> !p.isEllipse)
    ensures p.ProjectedOther? <==> k == PolylineKind
  {
    match p
    case ProjectedLine(_, _, _, _) => LineKind
    case ProjectedCircle(_, _, isEllipse, _, _, _, _) => if isEllipse then EllipseKind else CircleKind
    case ProjectedArc(_, _, _, _, _, _, _, _) => ArcKind
    case ProjectedText(_, _, _, _, _, _) => TextKind
    case ProjectedAggregate(_, _, _, _) => AggregateKind
    case ProjectedOther(_, _) => PolylineKind
  }

  /** One group of `GroupBy`: the layer and its entities in input order. */
  datatype Group = Group(key: Layer, items: seq<ProjectedEntity>)

  /** The entities of `ps` on layer `l`, in order. */
  function OfLayer(ps: seq<ProjectedEntity>, l: Layer): (r: seq<ProjectedEntity>)
    ensures forall p | p in r :: p in ps && p.layer == l
    ensures forall p | p in ps && p.layer == l :: p in r
  {
    if ps == [] then []
    else
      assert forall p | p in ps :: p in ps[..|ps| - 1] || p == ps[|ps| - 1];
      OfLayer(ps[..|ps| - 1], l) + (if ps[|ps| - 1].layer == l then [ps[|ps| - 1]] else [])
  }

  /** The layers of `ps`, each once, in order of first appearance. */
  function DistinctLayers(ps: seq<ProjectedEntity>): (ls: seq<Layer>)
    ensures forall i, j | 0 <= i < j < |ls| :: ls[i] != ls[j]
    ensures forall l | l in ls :: exists p | p in ps :: p.layer == l
    ensures forall p | p in ps :: p.layer in ls
  {
    if ps == [] then []
    else
      var init := DistinctLayers(ps[..|ps| - 1]);
      var last := ps[|ps| - 1];
      assert forall p | p in ps :: p in ps[..|ps| - 1] || p == last;
      if last.layer in init then init else init + [last.layer]
  }

  /** `GroupBy(p => p.OriginalLayer)`: one group per layer, in order of first appearance. */
  function GroupByLayer(ps: seq<ProjectedEntity>): (gs: seq<Group>)
    ensures |gs| == |DistinctLayers(ps)|
    ensures forall i | 0 <= i < |gs| :: gs[i] == Group(DistinctLayers(ps)[i], OfLayer(ps, DistinctLayers(ps)[i]))
  {
    var ls := DistinctLayers(ps);
    seq(|ls|, i requires 0 <= i < |ls| => Group(ls[i], OfLayer(ps, ls[i])))
  }

  /** Ordinal string order: a prefix comes first, otherwise the first differing character decides. */
  predicate NameLe(a: string, b: string)
    decreases |a|
  {
    a == [] || (b != [] && (a[0] < b[0] || (a[0] == b[0] && NameLe(a[1..], b[1..]))))
  }

  /** Any two names are ordered one way or the other. */
  lemma {:induction false} NameLeTotal(a: string, b: string)
    ensures NameLe(a, b) || NameLe(b, a)
    decreases |a|
  {
    if a != [] && b != [] && a[0] == b[0] {
      NameLeTotal(a[1..], b[1..]);
    }
  }

  /** Groups in ascending layer-name order, each next to the next. */
  predicate SortedByName(gs: seq<Group>) {
    forall i | 0 <= i < |gs| - 1 :: NameLe(gs[i].key.name, gs[i + 1].key.name)
  }

  /** Puts `g` before the first group whose name is not below its own. */
  function InsertByName(g: Group, gs: seq<Group>): (r: seq<Group>)
    ensures |r| == |gs| + 1
    ensures multiset(r) == multiset(gs) + multiset{g}
    ensures r[0] == g || (gs != [] && r[0] == gs[0])
  {
    if gs == [] || NameLe(g.key.name, gs[0].key.name) then [g] + gs
    else
      var rest := InsertByName(g, gs[1..]);
      assert gs == [gs[0]] + gs[1..];
      [gs[0]] + rest
  }

  /** Inserting into sorted groups keeps them sorted. */
  lemma {:induction false} InsertByNameSorted(g: Group, gs: seq<Group>)
    requires SortedByName(gs)
    ensures SortedByName(InsertByName(g, gs))
    decreases |gs|
  {
    if gs != [] && !NameLe(g.key.name, gs[0].key.name) {
      var rest := InsertByName(g, gs[1..]);
      InsertByNameSorted(g, gs[1..]);
      NameLeTotal(g.key.name, gs[0].key.name);
      var r := InsertByName(g, gs);
      assert r == [gs[0]] + rest;
      forall i | 0 <= i < |r| - 1
        ensures NameLe(r[i].key.name, r[i + 1].key.name)
      {
        if i > 0 {
          assert r[i] == rest[i - 1] && r[i + 1] == rest[i];
        }
      }
    }
  }

  /**
   * `OrderBy(x => x.Key.Name)`: a stable insertion sort, so that groups with
   * equal names keep their order.
   */
  function OrderByName(gs: seq<Group>): (r: seq<Group>)
    ensures multiset(r) == multiset(gs)
  {
    if gs == [] then []
    else
      assert gs == [gs[0]] + gs[1..];
      InsertByName(gs[0], OrderByName(gs[1..]))
  }

  /** The ordered groups are sorted by name. */
  lemma {:induction false} OrderByNameSorted(gs: seq<Group>)
    ensures SortedByName(OrderByName(gs))
    decreases |gs|
  {
    if gs != [] {
      OrderByNameSorted(gs[1..]);
      InsertByNameSorted(gs[0], OrderByName(gs[1..]));
    }
  }

  /** The groups named `n`, in their order. */
  function WithName(gs: seq<Group>, n: string): (r: seq<Group>)
    ensures forall g | g in r :: g in gs && g.key.name == n
    ensures forall g | g in gs && g.key.name == n :: g in r
  {
    if gs == [] then []
    else
      assert forall g | g in gs :: g == gs[0] || g in gs[1..];
      (if gs[0].key.name == n then [gs[0]] else []) + WithName(gs[1..], n)
  }

  lemma {:induction false} NameLeReflexive(a: string)
    ensures NameLe(a, a)
    decreases |a|
  {
    if a != [] {
      NameLeReflexive(a[1..]);
    }
  }

  lemma WithNameCons(x: Group, t: seq<Group>, n: string)
    ensures WithName([x] + t, n) == (if x.key.name == n then [x] else []) + WithName(t, n)
  {
    assert ([x] + t)[0] == x && ([x] + t)[1..] == t;
  }

  /** `g` goes before every group with its own name, and leaves the others' order alone. */
  lemma {:induction false} InsertByNameWithName(g: Group, gs: seq<Group>, n: string)
    ensures WithName(InsertByName(g, gs), n) == (if g.key.name == n then [g] else []) + WithName(gs, n)
    decreases |gs|
  {
    if gs == [] || NameLe(g.key.name, gs[0].key.name) {
      WithNameCons(g, gs, n);
    } else {
      var x, t := gs[0], gs[1..];
      assert gs == [x] + t;
      assert InsertByName(g, gs) == [x] + InsertByName(g, t);
      InsertByNameWithName(g, t, n);
      WithNameCons(x, InsertByName(g, t), n);
      WithNameCons(x, t, n);
      if g.key.name == n {
        NameLeReflexive(n);
        assert x.key.name != n;
        assert WithName(InsertByName(g, gs), n) == WithName(InsertByName(g, t), n);
        assert WithName(gs, n) == WithName(t, n);
      } else {
        assert WithName(InsertByName(g, t), n) == WithName(t, n);
      }
    }
  }

  /** The sort is stable: the groups with any one name keep their order. */
  lemma {:induction false} OrderByNameStable(gs: seq<Group>, n: string)
    ensures WithName(OrderByName(gs), n) == WithName(gs, n)
    decreases |gs|
  {
    if gs != [] {
      OrderByNameStable(gs[1..], n);
      InsertByNameWithName(gs[0], OrderByName(gs[1..]), n);
    }
  }

  /**
   * The groups a plotter walks through: the groups by layer, each once, in
   * ascending layer-name order.
   */
  function LayerGroups(ps: seq<ProjectedEntity>): (r: seq<Group>)
    ensures multiset(r) == multiset(GroupByLayer(ps))
    ensures SortedByName(r)
  {
    OrderByNameSorted(GroupByLayer(ps));
    OrderByName(GroupByLayer(ps))
  }

  /** Each group holds exactly its layer's entities, in input order, and its layer is one of the input's. */
  lemma LayerGroupsItems(ps: seq<ProjectedEntity>)
    ensures forall g | g in LayerGroups(ps) :: g.items == OfLayer(ps, g.key) && g.key in DistinctLayers(ps)
  {
    var grouped := GroupByLayer(ps);
    forall g | g in LayerGroups(ps)
      ensures g.items == OfLayer(ps, g.key) && g.key in DistinctLayers(ps)
    {
      assert g in multiset(OrderByName(grouped));
      assert g in multiset(grouped);
      var k :| 0 <= k < |grouped| && grouped[k] == g;
    }
  }

  /** Every entity's layer has a group. */
  lemma LayerGroupsCover(ps: seq<ProjectedEntity>)
    ensures forall p | p in ps :: exists g | g in LayerGroups(ps) :: g.key == p.layer
  {
    var grouped := GroupByLayer(ps);
    var ls := DistinctLayers(ps);
    forall p | p in ps
      ensures exists g | g in LayerGroups(ps) :: g.key == p.layer
    {
      var k :| 0 <= k < |ls| && ls[k] == p.layer;
      assert grouped[k] in multiset(grouped);
      assert grouped[k] in multiset(OrderByName(grouped));
    }
  }

  /** No layer has two groups. */
  lemma LayerGroupsDistinct(ps: seq<ProjectedEntity>)
    ensures forall i, j | 0 <= i < j < |LayerGroups(ps)| :: LayerGroups(ps)[i].key != LayerGroups(ps)[j].key
  {
    var gs := LayerGroups(ps);
    var grouped := GroupByLayer(ps);
    assert multiset(gs) == multiset(grouped);
    forall i, j | 0 <= i < j < |gs|
      ensures gs[i].key != gs[j].key
    {
      assert gs[i] in multiset(grouped) && gs[j] in multiset(grouped);
      var a :| 0 <= a < |grouped| && grouped[a] == gs[i];
      var b :| 0 <= b < |grouped| && grouped[b] == gs[j];
      if a == b {
        MultisetCountsTwo(gs, i, j);
        DistinctGroupsOnce(ps, a);
        assert false;
      }
    }
  }

  /** Two positions holding the same element count it twice. */
  lemma MultisetCountsTwo<T>(s: seq<T>, i: nat, j: nat)
    requires i < j < |s| && s[i] == s[j]
    ensures multiset(s)[s[i]] >= 2
  {
    assert s == s[..i] + [s[i]] + s[i + 1..j] + [s[j]] + s[j + 1..];
  }

  /** Every group of `GroupBy` occurs once, as the layers are distinct. */
  lemma DistinctGroupsOnce(ps: seq<ProjectedEntity>, k: nat)
    requires k < |GroupByLayer(ps)|
    ensures multiset(GroupByLayer(ps))[GroupByLayer(ps)[k]] == 1
  {
    var gs := GroupByLayer(ps);
    var g := gs[k];
    assert gs == gs[..k] + [g] + gs[k + 1..];
    NotIn(gs[..k], g);
    NotIn(gs[k + 1..], g);
  }

  /** A group of `GroupBy` differs from every other one. */
  lemma NotIn(s: seq<Group>, g: Group)
    requires forall x | x in s :: x.key != g.key
    ensures multiset(s)[g] == 0
  {
  }
}
