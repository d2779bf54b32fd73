/**
 * The trim engine.  Given the entity to trim, the pick point and the
 * intersection points of that entity with the boundary primitives, it
 * computes the entities to remove (at most the trimmed one) and the entities
 * to add (at most two shortened pieces).
 *
 * Intersection points, the unit-circle projection and `atan2` are not part
 * of this model: the caller passes the per-pair intersection results, and
 * `angleOf` maps a point to its corrected parameter angle in degrees.
 */
module TrimExtend {
  import opened Wrappers
  import opened Geometry
  import opened Colors
  import opened Entities

  datatype TrimResult = TrimResult(removed: seq<Entity>, added: seq<Entity>)

  const NoTrim: TrimResult := TrimResult([], [])

  // ---------------------------------------------------------------------
  // Collecting the intersection points
  // ---------------------------------------------------------------------

  /** The non-null points of one intersection result, in order. */
  function PresentPoints(ps: seq<Option<Point>>): (r: seq<Point>)
    ensures forall p :: p in r <==> Some(p) in ps
  {
    if ps == [] then []
    else (if ps[0].Some? then [ps[0].value] else []) + PresentPoints(ps[1..])
  }

  /**
   * The flattened intersection points: the results of every (boundary,
   * selection primitive) pair, null results and null points dropped.
   */
  function Flatten(results: seq<Option<seq<Option<Point>>>>): (r: seq<Point>)
    ensures forall p :: p in r <==> exists i | 0 <= i < |results| :: results[i].Some? && Some(p) in results[i].value
  {
    if results == [] then []
    else
      var rest := Flatten(results[1..]);
      assert forall i | 1 <= i < |results| :: results[i] == results[1..][i - 1];
      (if results[0].Some? then PresentPoints(results[0].value) else []) + rest
  }

  // ---------------------------------------------------------------------
  // Lines
  // ---------------------------------------------------------------------

  datatype LineSide = LeftSide | RightSide | NoSide

  /**
   * Which side of the pick point an intersection point lies on, measured by
   * squared distance from P1: strictly between P1 and the pick is left,
   * strictly between the pick and the full length is right.
   */
  function SideOf(line: Entity, pivot: Point, p: Point): (r: LineSide)
    requires line.Line?
    ensures r == LeftSide ==> p != line.p1 && DistanceSquared(p, line.p1) < DistanceSquared(pivot, line.p1)
    ensures r == RightSide ==>
      DistanceSquared(pivot, line.p1) < DistanceSquared(p, line.p1) < DistanceSquared(line.p2, line.p1)
    ensures p == line.p1 || p == pivot ==> r == NoSide
  {
    var pivotDist := DistanceSquared(pivot, line.p1);
    var fullDist := DistanceSquared(line.p2, line.p1);
    var isectDist := DistanceSquared(p, line.p1);
    if 0.0 < isectDist < pivotDist then LeftSide
    else if pivotDist < isectDist < fullDist then RightSide
    else NoSide
  }

  /** The points on one side, in input order: never more than there were, and never P1 or the pick point on a real side. */
  function PointsOn(line: Entity, pivot: Point, ps: seq<Point>, side: LineSide): (r: seq<Point>)
    requires line.Line?
    ensures |r| <= |ps|
    ensures side != NoSide ==> forall i | 0 <= i < |r| :: r[i] != line.p1 && r[i] != pivot
  {
    if ps == [] then []
    else
      var last := ps[|ps| - 1];
      PointsOn(line, pivot, ps[..|ps| - 1], side) + (if SideOf(line, pivot, last) == side then [last] else [])
  }

  /** Every point PointsOn keeps is an input point on the given side. */
  lemma {:induction false} PointsOnSound(line: Entity, pivot: Point, ps: seq<Point>, side: LineSide)
    requires line.Line?
    ensures forall q | q in PointsOn(line, pivot, ps, side) :: q in ps && SideOf(line, pivot, q) == side
    decreases |ps|
  {
    if ps != [] {
      var init := ps[..|ps| - 1];
      PointsOnSound(line, pivot, init, side);
      assert forall q | q in init :: q in ps;
    }
  }

  /** Every input point on the given side is kept by PointsOn. */
  lemma {:induction false} PointsOnComplete(line: Entity, pivot: Point, ps: seq<Point>, side: LineSide)
    requires line.Line?
    ensures forall q | q in ps && SideOf(line, pivot, q) == side :: q in PointsOn(line, pivot, ps, side)
    decreases |ps|
  {
    if ps != [] {
      var init := ps[..|ps| - 1];
      PointsOnComplete(line, pivot, init, side);
      assert ps == init + [ps[|ps| - 1]];
      assert forall q | q in ps :: q in init || q == ps[|ps| - 1];
    }
  }

  /** PointsOn keeps exactly the points on the given side, so it is empty exactly when none is. */
  lemma PointsOnMembers(line: Entity, pivot: Point, ps: seq<Point>, side: LineSide)
    requires line.Line?
    ensures var r := PointsOn(line, pivot, ps, side);
      && (forall i | 0 <= i < |r| :: r[i] in ps && SideOf(line, pivot, r[i]) == side)
      && (forall i | 0 <= i < |ps| && SideOf(line, pivot, ps[i]) == side :: ps[i] in r)
      && (r == [] <==> forall i | 0 <= i < |ps| :: SideOf(line, pivot, ps[i]) != side)
  {
    var r := PointsOn(line, pivot, ps, side);
    PointsOnSound(line, pivot, ps, side);
    PointsOnComplete(line, pivot, ps, side);
    if r != [] {
      assert r[0] in r;
    }
  }

  /**
   * The index of the point nearest to `pivot`; among equally near points the
   * first, as a stable ordering followed by `FirstOrDefault` picks.
   */
  function NearestIndex(ps: seq<Point>, pivot: Point): (k: nat)
    requires ps != []
    ensures k < |ps|
    ensures forall i | 0 <= i < |ps| :: DistanceSquared(ps[k], pivot) <= DistanceSquared(ps[i], pivot)
    ensures forall i | 0 <= i < k :: DistanceSquared(ps[i], pivot) > DistanceSquared(ps[k], pivot)
  {
    if |ps| == 1 then 0
    else
      var k := NearestIndex(ps[1..], pivot);
      assert forall i | 1 <= i < |ps| :: ps[i] == ps[1..][i - 1];
      if DistanceSquared(ps[0], pivot) <= DistanceSquared(ps[k + 1], pivot) then 0 else k + 1
  }

  function Nearest(ps: seq<Point>, pivot: Point): (r: Option<Point>)
    ensures r.None? <==> ps == []
    ensures r.Some? ==> r.value in ps && forall q | q in ps :: DistanceSquared(r.value, pivot) <= DistanceSquared(q, pivot)
  {
    if ps == [] then None else Some(ps[NearestIndex(ps, pivot)])
  }

  /**
   * The trim of a line: it is removed when some intersection point lies
   * strictly on either side of the pick; the left piece keeps P1 and ends at
   * the nearest left point, the right piece starts at the nearest right
   * point and keeps P2.
   */
  function LineTrim(line: Entity, pivot: Point, points: seq<Point>): (r: TrimResult)
    requires line.Line?
    ensures |r.removed| <= 1 && |r.added| <= 2
    ensures r.removed == [] <==> r.added == []
    ensures r.removed != [] ==> r.removed == [line]
    ensures r.removed != [] <==> exists i | 0 <= i < |points| :: SideOf(line, pivot, points[i]) != NoSide
    // one piece per side that holds a point; a side with none adds nothing
    ensures |r.added| ==
      (if exists i | 0 <= i < |points| :: SideOf(line, pivot, points[i]) == LeftSide then 1 else 0)
      + (if exists i | 0 <= i < |points| :: SideOf(line, pivot, points[i]) == RightSide then 1 else 0)
  {
    PointsOnMembers(line, pivot, points, LeftSide);
    PointsOnMembers(line, pivot, points, RightSide);
    var leftPoint := Nearest(PointsOn(line, pivot, points, LeftSide), pivot);
    var rightPoint := Nearest(PointsOn(line, pivot, points, RightSide), pivot);
    if leftPoint.None? && rightPoint.None? then NoTrim
    else
      TrimResult([line],
                 (if leftPoint.Some? then [Line(line.p1, leftPoint.value, line.color)] else [])
                 + (if rightPoint.Some? then [Line(rightPoint.value, line.p2, line.color)] else []))
  }

  /** `TrimLine`: sorts the points into two lists with a loop, then adds the pieces. */
  method TrimLine(line: Entity, pivot: Point, intersectionPoints: seq<Point>)
    returns (removed: seq<Entity>, added: seq<Entity>)
    requires line.Line?
    ensures TrimResult(removed, added) == LineTrim(line, pivot, intersectionPoints)
  {
    var left: seq<Point> := [];
    var right: seq<Point> := [];
    var pivotDist := DistanceSquared(pivot, line.p1);
    var fullDist := DistanceSquared(line.p2, line.p1);
    var i := 0;
    while i < |intersectionPoints|
      invariant 0 <= i <= |intersectionPoints|
      invariant left == PointsOn(line, pivot, intersectionPoints[..i], LeftSide)
      invariant right == PointsOn(line, pivot, intersectionPoints[..i], RightSide)
    {
      var point := intersectionPoints[i];
      var isectDist := DistanceSquared(point, line.p1);
      ghost var prefix := intersectionPoints[..i + 1];
      assert prefix[..i] == intersectionPoints[..i] && prefix[i] == point;
      if 0.0 < isectDist < pivotDist {
        left := left + [point];
      } else if pivotDist < isectDist < fullDist {
        right := right + [point];
      }
      assert left == PointsOn(line, pivot, prefix, LeftSide);
      assert right == PointsOn(line, pivot, prefix, RightSide);
      i := i + 1;
    }
    assert intersectionPoints[..i] == intersectionPoints;
    var leftPoint := Nearest(left, pivot);
    var rightPoint := Nearest(right, pivot);
    removed, added := [], [];
    if leftPoint.Some? || rightPoint.Some? {
      removed := removed + [line];
      if leftPoint.Some? {
        added := added + [Line(line.p1, leftPoint.value, line.color)];
      }
      if rightPoint.Some? {
        added := added + [Line(rightPoint.value, line.p2, line.color)];
      }
    }
  }

  /**
   * The pieces of a trimmed line: the left piece runs from P1 to a left point
   * no farther from the pick than any other left point, the right piece from
   * such a right point to P2; both keep the line's colour.
   */
  lemma LineTrimPieces(line: Entity, pivot: Point, points: seq<Point>)
    requires line.Line?
    ensures var r := LineTrim(line, pivot, points);
      (exists i | 0 <= i < |points| :: SideOf(line, pivot, points[i]) == LeftSide) ==>
        && r.added[0].Line? && r.added[0].p1 == line.p1 && r.added[0].color == line.color
        && r.added[0].p2 in points && SideOf(line, pivot, r.added[0].p2) == LeftSide
        && forall j | 0 <= j < |points| && SideOf(line, pivot, points[j]) == LeftSide ::
             DistanceSquared(r.added[0].p2, pivot) <= DistanceSquared(points[j], pivot)
    ensures var r := LineTrim(line, pivot, points);
      (exists i | 0 <= i < |points| :: SideOf(line, pivot, points[i]) == RightSide) ==>
        && r.added[|r.added| - 1].Line? && r.added[|r.added| - 1].p2 == line.p2
        && r.added[|r.added| - 1].color == line.color
        && r.added[|r.added| - 1].p1 in points && SideOf(line, pivot, r.added[|r.added| - 1].p1) == RightSide
        && forall j | 0 <= j < |points| && SideOf(line, pivot, points[j]) == RightSide ::
             DistanceSquared(r.added[|r.added| - 1].p1, pivot) <= DistanceSquared(points[j], pivot)
  {
    var left := PointsOn(line, pivot, points, LeftSide);
    var right := PointsOn(line, pivot, points, RightSide);
    PointsOnMembers(line, pivot, points, LeftSide);
    PointsOnMembers(line, pivot, points, RightSide);
    if exists i | 0 <= i < |points| :: SideOf(line, pivot, points[i]) == LeftSide {
      var q := Nearest(left, pivot).value;
      forall j | 0 <= j < |points| && SideOf(line, pivot, points[j]) == LeftSide
        ensures DistanceSquared(q, pivot) <= DistanceSquared(points[j], pivot)
      {
        assert points[j] in left;
      }
    }
    if exists i | 0 <= i < |points| :: SideOf(line, pivot, points[i]) == RightSide {
      var q := Nearest(right, pivot).value;
      forall j | 0 <= j < |points| && SideOf(line, pivot, points[j]) == RightSide
        ensures DistanceSquared(q, pivot) <= DistanceSquared(points[j], pivot)
      {
        assert points[j] in right;
      }
    }
  }

  /** P1 never qualifies, and neither does P2 while the pick lies no farther from P1 than P2. */
  lemma EndpointsNeverQualify(line: Entity, pivot: Point)
    requires line.Line?
    requires DistanceSquared(pivot, line.p1) <= DistanceSquared(line.p2, line.p1)
    ensures SideOf(line, pivot, line.p1) == NoSide
    ensures SideOf(line, pivot, line.p2) == NoSide
  {
    assert DistanceSquared(line.p1, line.p1) == 0.0;
  }

  /**
   * Picking a line at P1 with one cut strictly inside it keeps the piece from
   * the cut to P2 (a line from (0,0,0) to (2,0,0) cut at x = 1 and picked at
   * the origin keeps (1,0,0)-(2,0,0)).
   */
  lemma PickAtStartKeepsFarPiece(line: Entity, cut: Point)
    requires line.Line?
    requires 0.0 < DistanceSquared(cut, line.p1) < DistanceSquared(line.p2, line.p1)
    ensures LineTrim(line, line.p1, [cut]) == TrimResult([line], [Line(cut, line.p2, line.color)])
  {
    var pivot := line.p1;
    assert DistanceSquared(pivot, line.p1) == 0.0;
    assert SideOf(line, pivot, cut) == RightSide;
    assert [cut][..0] == [];
    assert PointsOn(line, pivot, [cut], LeftSide) == [];
    assert PointsOn(line, pivot, [cut], RightSide) == [cut];
    assert Nearest([cut], pivot) == Some(cut);
  }

  /**
   * Cuts exactly at both end points of a line picked strictly inside it trim
   * nothing (a line from (0,0,0) to (1,0,0) cut at both ends and picked at
   * (0.5,0,0)).
   */
  lemma CutsAtBothEndsTrimNothing(line: Entity, pivot: Point)
    requires line.Line?
    requires 0.0 < DistanceSquared(pivot, line.p1) < DistanceSquared(line.p2, line.p1)
    ensures LineTrim(line, pivot, [line.p1, line.p2]) == NoTrim
  {
    assert DistanceSquared(line.p1, line.p1) == 0.0;
    assert SideOf(line, pivot, line.p1) == NoSide;
    assert SideOf(line, pivot, line.p2) == NoSide;
    PointsOnMembers(line, pivot, [line.p1, line.p2], LeftSide);
    PointsOnMembers(line, pivot, [line.p1, line.p2], RightSide);
  }

  // ---------------------------------------------------------------------
  // Angles
  // ---------------------------------------------------------------------

  predicate Sorted(s: seq<real>) {
    forall i, j | 0 <= i < j < |s| :: s[i] <= s[j]
  }

  /** Inserts `x` into sorted `s` before the first element not below it. */
  function Insert(x: real, s: seq<real>): (r: seq<real>)
    ensures multiset(r) == multiset(s) + multiset{x}
  {
    if s == [] || x <= s[0] then [x] + s
    else
      assert s == [s[0]] + s[1..];
      [s[0]] + Insert(x, s[1..])
  }

  predicate AllAtLeast(s: seq<real>, b: real) {
    forall i | 0 <= i < |s| :: b <= s[i]
  }

  /** Insertion keeps a sequence sorted, and keeps every lower bound of both `s` and `x`. */
  lemma {:induction false} InsertSorted(x: real, s: seq<real>)
    requires Sorted(s)
    ensures Sorted(Insert(x, s))
    ensures forall b | b <= x && AllAtLeast(s, b) :: AllAtLeast(Insert(x, s), b)
    decreases |s|
  {
    if s == [] || x <= s[0] {
      forall b | b <= x && AllAtLeast(s, b) ensures AllAtLeast(Insert(x, s), b) {
      }
    } else {
      var tail := Insert(x, s[1..]);
      InsertSorted(x, s[1..]);
      var r := [s[0]] + tail;
      assert AllAtLeast(s[1..], s[0]);
      assert AllAtLeast(tail, s[0]);
      forall i, j | 0 <= i < j < |r| ensures r[i] <= r[j] {
        if i > 0 {
          assert r[i] == tail[i - 1] && r[j] == tail[j - 1];
        } else {
          assert r[j] == tail[j - 1];
        }
      }
      forall b | b <= x && AllAtLeast(s, b) ensures AllAtLeast(r, b) {
        assert AllAtLeast(s[1..], b);
        assert AllAtLeast(tail, b);
      }
    }
  }

  /** `OrderBy(a => a)`: ascending order, a permutation of the input. */
  function SortAngles(s: seq<real>): (r: seq<real>)
    ensures Sorted(r) && multiset(r) == multiset(s)
  {
    if s == [] then []
    else
      assert s == [s[0]] + s[1..];
      InsertSorted(s[0], SortAngles(s[1..]));
      Insert(s[0], SortAngles(s[1..]))
  }

  lemma MultisetTail(a: seq<real>)
    requires a != []
    ensures multiset(a[1..]) == multiset(a) - multiset{a[0]}
    ensures a[0] in multiset(a)
  {
    assert a == [a[0]] + a[1..];
  }

  /** A sorted permutation is unique, so any ascending sort agrees with SortAngles. */
  lemma {:induction false} SortedPermutationUnique(a: seq<real>, b: seq<real>)
    requires Sorted(a) && Sorted(b) && multiset(a) == multiset(b)
    ensures a == b
    decreases |a|
  {
    if a != [] {
      assert |a| == |multiset(a)| == |multiset(b)| == |b|;
      SortedHeadsEqual(a, b);
      MultisetTail(a);
      MultisetTail(b);
      SortedTail(a);
      SortedTail(b);
      SortedPermutationUnique(a[1..], b[1..]);
      assert a == [a[0]] + a[1..];
      assert b == [b[0]] + b[1..];
    }
  }

  /** Two sorted permutations of each other start with the same element, their minimum. */
  lemma SortedHeadsEqual(a: seq<real>, b: seq<real>)
    requires Sorted(a) && Sorted(b) && multiset(a) == multiset(b) && a != [] && b != []
    ensures a[0] == b[0]
  {
    assert a[0] in multiset(b) && b[0] in multiset(a);
    var i :| 0 <= i < |b| && b[i] == a[0];
    var j :| 0 <= j < |a| && a[j] == b[0];
    assert b[0] <= b[i] && a[0] <= a[j];
  }

  /** Dropping the first element keeps a sequence sorted. */
  lemma SortedTail(a: seq<real>)
    requires Sorted(a) && a != []
    ensures Sorted(a[1..])
  {
    forall i, j | 0 <= i < j < |a| - 1 ensures a[1..][i] <= a[1..][j] {
      assert a[1..][i] == a[i + 1] && a[1..][j] == a[j + 1];
    }
  }

  /** `Where(a => a < x)`: the angles strictly below `x`, in order. */
  function Below(s: seq<real>, x: real): (r: seq<real>)
    ensures |r| <= |s|
    ensures forall a | a in r :: a in s && a < x
    ensures forall a | a in s && a < x :: a in r
  {
    if s == [] then []
    else
      assert forall a | a in s :: a == s[0] || a in s[1..];
      (if s[0] < x then [s[0]] else []) + Below(s[1..], x)
  }

  /** `Where(a => a > x)`: the angles strictly above `x`, in order. */
  function Above(s: seq<real>, x: real): (r: seq<real>)
    ensures forall a | a in r :: a in s && a > x
    ensures forall a | a in s && a > x :: a in r
  {
    if s == [] then []
    else
      assert forall a | a in s :: a == s[0] || a in s[1..];
      (if s[0] > x then [s[0]] else []) + Above(s[1..], x)
  }

  /** `Where(a => a != startAngle && a != endAngle)`. */
  function Excluding(s: seq<real>, startAngle: real, endAngle: real): (r: seq<real>)
    ensures forall a | a in r :: a in s && a != startAngle && a != endAngle
    ensures forall a | a in s && a != startAngle && a != endAngle :: a in r
  {
    if s == [] then []
    else
      assert forall a | a in s :: a == s[0] || a in s[1..];
      (if s[0] != startAngle && s[0] != endAngle then [s[0]] else []) + Excluding(s[1..], startAngle, endAngle)
  }

  /** The start and end angles the filter uses: an arc's or ellipse's own, 0 and 360 for a circle. */
  function AngleRange(e: Entity): (range: (real, real))
    ensures e.Circle? ==> range == (0.0, 360.0)
    ensures e.Arc? || e.Ellipse? ==> range == (e.startAngle, e.endAngle)
  {
    if e.Arc? then (e.startAngle, e.endAngle)
    else if e.Ellipse? then (e.startAngle, e.endAngle)
    else (0.0, 360.0)
  }

  /** A circle, or an ellipse sweeping from 0 to 360: trimmed between two cuts. */
  predicate IsClosed(e: Entity) {
    e.Circle? || (e.Ellipse? && IsFullSweep(e.startAngle, e.endAngle))
  }

  /**
   * The candidate angles exactly as written: sorted, and with every angle
   * equal to the start or end angle dropped, even for a circle, whose range
   * is 0 to 360.
   */
  function CandidateAnglesAsWritten(raw: seq<real>, startAngle: real, endAngle: real): (angles: seq<real>)
    ensures Sorted(angles)
    ensures forall a | a in angles :: a in raw && a != startAngle && a != endAngle
    ensures forall a | a in raw && a != startAngle && a != endAngle :: a in angles
  {
    var kept := Excluding(raw, startAngle, endAngle);
    var angles := SortAngles(kept);
    SameElements(angles, kept);
    angles
  }

  /** Two sequences with the same multiset hold the same elements. */
  lemma SameElements(a: seq<real>, b: seq<real>)
    requires multiset(a) == multiset(b)
    ensures forall x | x in a :: x in b
    ensures forall x | x in b :: x in a
  {
    forall x | x in a ensures x in b {
      assert x in multiset(a);
    }
    forall x | x in b ensures x in a {
      assert x in multiset(b);
    }
  }

  /**
   * The candidate angles with the end-point filter applied only to partial
   * sweeps, where a cut exactly at an end point must not produce an empty
   * piece; a closed shape keeps every cut.
   */
  function CandidateAngles(e: Entity, raw: seq<real>): (angles: seq<real>)
    ensures Sorted(angles)
    ensures IsClosed(e) ==> multiset(angles) == multiset(raw)
    ensures !IsClosed(e) ==> angles == CandidateAnglesAsWritten(raw, AngleRange(e).0, AngleRange(e).1)
  {
    if IsClosed(e) then SortAngles(raw) else CandidateAnglesAsWritten(raw, AngleRange(e).0, AngleRange(e).1)
  }

  /** In sorted angles, the ones below `x` are exactly the first |Below(s, x)| of them. */
  lemma {:induction false} BelowIsPrefix(s: seq<real>, x: real)
    requires Sorted(s)
    ensures forall i | 0 <= i < |Below(s, x)| :: s[i] < x
    ensures forall i | |Below(s, x)| <= i < |s| :: s[i] >= x
    decreases |s|
  {
    if s != [] {
      BelowIsPrefix(s[1..], x);
      if s[0] >= x {
        assert forall a | a in s :: a >= x by {
          forall a | a in s ensures a >= x {
            var k :| 0 <= k < |s| && s[k] == a;
            assert s[0] <= s[k];
          }
        }
        assert Below(s, x) == [];
      } else {
        assert |Below(s, x)| == 1 + |Below(s[1..], x)|;
        forall i | 1 <= i < |s| ensures s[i] == s[1..][i - 1] {}
      }
    }
  }

  /** `selectionAfterIndex`: the last angle below the selection, wrapping to the last angle. */
  function PreviousIndex(angles: seq<real>, selectionAngle: real): (p: int)
    ensures angles != [] ==> 0 <= p < |angles|
    ensures angles == [] ==> p == -1
  {
    var selectionAfterIndex := |Below(angles, selectionAngle)| - 1;
    if selectionAfterIndex < 0 then |angles| - 1 else selectionAfterIndex
  }

  /** The index after PreviousIndex, wrapping to 0. */
  function NextIndex(angles: seq<real>, selectionAngle: real): (n: int)
    ensures angles != [] ==> 0 <= n < |angles| && n == (PreviousIndex(angles, selectionAngle) + 1) % |angles|
    ensures angles == [] ==> n == 0
  {
    var nextIndex := PreviousIndex(angles, selectionAngle) + 1;
    if nextIndex >= |angles| then 0 else nextIndex
  }

  /**
   * The two cuts around the selection in sorted angles: the previous one is
   * the largest angle below the selection (the largest of all when none is
   * below), the next one the smallest angle not below it (the smallest of
   * all when every angle is below).
   */
  lemma NeighbourIndices(angles: seq<real>, sel: real)
    requires Sorted(angles) && angles != []
    ensures var p := PreviousIndex(angles, sel);
      (exists i | 0 <= i < |angles| :: angles[i] < sel) ==>
        angles[p] < sel && forall i | p < i < |angles| :: angles[i] >= sel
    ensures (forall i | 0 <= i < |angles| :: angles[i] >= sel) ==> PreviousIndex(angles, sel) == |angles| - 1
    ensures var n := NextIndex(angles, sel);
      (exists i | 0 <= i < |angles| :: angles[i] >= sel) ==>
        angles[n] >= sel && forall i | 0 <= i < n :: angles[i] < sel
    ensures (forall i | 0 <= i < |angles| :: angles[i] < sel) ==> NextIndex(angles, sel) == 0
  {
    BelowIsPrefix(angles, sel);
  }

  /** `CorrectAngleDegrees`, taken to reduce an angle to [0, 360) by whole turns. */
  function CorrectAngle(a: real): (r: real)
    ensures 0.0 <= r < 360.0
    ensures 0.0 <= a < 360.0 ==> r == a
    ensures -360.0 <= a < 0.0 ==> r == a + 360.0
  {
    a - 360.0 * (a / 360.0).Floor as real
  }

  /** For a sweep crossing 0 (start > end), angles at or past the start move down one turn. */
  function NormalizeAngle(a: real, startAngle: real, endAngle: real): (r: real)
    ensures startAngle <= endAngle ==> r == a
    ensures startAngle > endAngle && a >= startAngle ==> r == a - 360.0
    ensures startAngle > endAngle && a < startAngle ==> r == a
  {
    if startAngle > endAngle && a >= startAngle then a - 360.0 else a
  }

  function NormalizeAngles(angles: seq<real>, startAngle: real, endAngle: real): (r: seq<real>)
    ensures |r| == |angles|
    ensures forall i | 0 <= i < |angles| :: r[i] == NormalizeAngle(angles[i], startAngle, endAngle)
  {
    seq(|angles|, i requires 0 <= i < |angles| => NormalizeAngle(angles[i], startAngle, endAngle))
  }

  function MaxOf(s: seq<real>): (m: real)
    requires s != []
    ensures m in s && forall a | a in s :: a <= m
  {
    if |s| == 1 then s[0]
    else
      var rest := MaxOf(s[1..]);
      assert forall a | a in s :: a == s[0] || a in s[1..];
      if s[0] >= rest then s[0] else rest
  }

  function MinOf(s: seq<real>): (m: real)
    requires s != []
    ensures m in s && forall a | a in s :: m <= a
  {
    if |s| == 1 then s[0]
    else
      var rest := MinOf(s[1..]);
      assert forall a | a in s :: a == s[0] || a in s[1..];
      if s[0] <= rest then s[0] else rest
  }

  /** `new Arc(...)` for a circle, `Update(startAngle:, endAngle:)` for a closed ellipse. */
  function WithAngles(e: Entity, startAngle: real, endAngle: real): (r: Entity)
    requires e.Circle? || e.Ellipse?
  {
    if e.Circle? then Arc(e.center, e.radius, startAngle, endAngle, e.normal, e.color)
    else EllipseUpdate(e, None, None, None, Some(startAngle), Some(endAngle), None, None)
  }

  /** `Update(endAngle:)` of an arc or ellipse. */
  function WithEndAngle(e: Entity, endAngle: real): (r: Entity)
    requires e.Arc? || e.Ellipse?
  {
    if e.Arc? then Arc(e.center, e.radius, e.startAngle, endAngle, e.normal, e.color)
    else EllipseUpdate(e, None, None, None, None, Some(endAngle), None, None)
  }

  /** `Update(startAngle:)` of an arc or ellipse. */
  function WithStartAngle(e: Entity, startAngle: real): (r: Entity)
    requires e.Arc? || e.Ellipse?
  {
    if e.Arc? then Arc(e.center, e.radius, startAngle, e.endAngle, e.normal, e.color)
    else EllipseUpdate(e, None, None, None, Some(startAngle), None, None, None)
  }

  /** A closed shape with at least two cuts becomes the piece from the next cut round to the previous one. */
  function ClosedTrim(e: Entity, angles: seq<real>, selectionAngle: real): (r: TrimResult)
    requires IsClosed(e)
    ensures r.removed != [] <==> |angles| >= 2
    ensures r.removed != [] ==> r.removed == [e] && |r.added| == 1
    ensures r.removed == [] ==> r.added == []
  {
    if |angles| >= 2 then
      var previousIndex := PreviousIndex(angles, selectionAngle);
      var nextIndex := NextIndex(angles, selectionAngle);
      TrimResult([e], [WithAngles(e, angles[nextIndex], angles[previousIndex])])
    else NoTrim
  }

  /**
   * A partial sweep is cut back to the nearest normalised angle on each side
   * of the normalised selection: the piece below keeps the start and ends at
   * the largest angle below, the piece above starts at the smallest angle
   * above and keeps the end.
   */
  function PartialTrim(e: Entity, angles: seq<real>, selectionAngle: real): (r: TrimResult)
    requires e.Arc? || e.Ellipse?
    ensures |r.removed| <= 1 && |r.added| <= 2
    ensures r.removed == [] <==> r.added == []
    ensures r.removed != [] ==> r.removed == [e]
  {
    var normalizedAngles := NormalizeAngles(angles, e.startAngle, e.endAngle);
    var normalizedSelectionAngle := NormalizeAngle(selectionAngle, e.startAngle, e.endAngle);
    SidePieces(e, Below(normalizedAngles, normalizedSelectionAngle), Above(normalizedAngles, normalizedSelectionAngle))
  }

  /** The pieces cut back to the largest lesser angle and the smallest greater angle. */
  function SidePieces(e: Entity, lesserAngles: seq<real>, greaterAngles: seq<real>): (r: TrimResult)
    requires e.Arc? || e.Ellipse?
    ensures |r.removed| <= 1 && |r.added| <= 2
    ensures r.removed == [] <==> r.added == []
    ensures r.removed != [] ==> r.removed == [e]
  {
    if lesserAngles == [] && greaterAngles == [] then NoTrim
    else
      TrimResult([e],
                 (if lesserAngles != [] then [WithEndAngle(e, CorrectAngle(MaxOf(lesserAngles)))] else [])
                 + (if greaterAngles != [] then [WithStartAngle(e, CorrectAngle(MinOf(greaterAngles)))] else []))
  }

  /**
   * The trim of a circle, arc or ellipse from its sorted candidate angles and
   * the selection angle: at most the entity itself is removed, and at most
   * two pieces (one for a closed shape) are added.
   */
  function EllipseTrimFrom(e: Entity, angles: seq<real>, selectionAngle: real): (r: TrimResult)
    requires e.Arc? || e.Circle? || e.Ellipse?
    ensures |r.removed| <= 1 && |r.added| <= 2
    ensures r.removed == [] <==> r.added == []
    ensures r.removed != [] ==> r.removed == [e]
    ensures IsClosed(e) ==> (r.removed != [] <==> |angles| >= 2) && |r.added| <= 1
  {
    if IsClosed(e) then ClosedTrim(e, angles, selectionAngle) else PartialTrim(e, angles, selectionAngle)
  }

  /** The ellipse trim as written: candidate angles filtered against the range even for closed shapes. */
  function EllipseTrimAsWritten(e: Entity, raw: seq<real>, selectionAngle: real): (r: TrimResult)
    requires e.Arc? || e.Circle? || e.Ellipse?
    ensures |r.removed| <= 1 && |r.added| <= 2
    ensures r.removed == [] <==> r.added == []
    ensures r.removed != [] ==> r.removed == [e]
  {
    EllipseTrimFrom(e, CandidateAnglesAsWritten(raw, AngleRange(e).0, AngleRange(e).1), selectionAngle)
  }

  /** The ellipse trim the rest of the model uses: closed shapes keep a cut at angle 0. */
  function EllipseTrim(e: Entity, raw: seq<real>, selectionAngle: real): (r: TrimResult)
    requires e.Arc? || e.Circle? || e.Ellipse?
    ensures |r.removed| <= 1 && |r.added| <= 2
    ensures r.removed == [] <==> r.added == []
    ensures r.removed != [] ==> r.removed == [e]
    ensures IsClosed(e) ==> (r.removed != [] <==> |raw| >= 2) && |r.added| <= 1
  {
    var angles := CandidateAngles(e, raw);
    assert IsClosed(e) ==> |angles| == |multiset(angles)| == |multiset(raw)| == |raw|;
    EllipseTrimFrom(e, angles, selectionAngle)
  }

  /** The correction only changes closed shapes: arcs and partial ellipses trim as written. */
  lemma CorrectionOnlyTouchesClosedShapes(e: Entity, raw: seq<real>, selectionAngle: real)
    requires e.Arc? || e.Ellipse?
    requires !IsClosed(e)
    ensures EllipseTrim(e, raw, selectionAngle) == EllipseTrimAsWritten(e, raw, selectionAngle)
  {
  }

  /**
   * A closed shape with at least two cuts becomes one piece with the same
   * centre, normal and colour, running from the first cut at or after the
   * selection (the smallest cut when there is none) to the last cut before it
   * (the largest cut when there is none).
   */
  lemma ClosedTrimNeighbours(e: Entity, angles: seq<real>, sel: real)
    requires IsClosed(e) && Sorted(angles) && |angles| >= 2
    ensures var r := ClosedTrim(e, angles, sel);
      && r.removed == [e] && |r.added| == 1
      && r.added[0].center == e.center && r.added[0].normal == e.normal && r.added[0].color == e.color
      && (e.Circle? ==> r.added[0] == Arc(e.center, e.radius, r.added[0].startAngle, r.added[0].endAngle, e.normal, e.color))
      && r.added[0].startAngle in angles && r.added[0].endAngle in angles
      && ((exists i | 0 <= i < |angles| :: angles[i] >= sel) ==>
            && r.added[0].startAngle >= sel
            && forall i | 0 <= i < |angles| && angles[i] < r.added[0].startAngle :: angles[i] < sel)
      && ((forall i | 0 <= i < |angles| :: angles[i] < sel) ==> r.added[0].startAngle == angles[0])
      && ((exists i | 0 <= i < |angles| :: angles[i] < sel) ==>
            && r.added[0].endAngle < sel
            && forall i | 0 <= i < |angles| && angles[i] > r.added[0].endAngle :: angles[i] >= sel)
      && ((forall i | 0 <= i < |angles| :: angles[i] >= sel) ==> r.added[0].endAngle == angles[|angles| - 1])
  {
    var p := PreviousIndex(angles, sel);
    var n := NextIndex(angles, sel);
    var piece := WithAngles(e, angles[n], angles[p]);
    assert ClosedTrim(e, angles, sel) == TrimResult([e], [piece]);
    assert piece.startAngle == angles[n] && piece.endAngle == angles[p];
    NextCut(angles, sel);
    PreviousCut(angles, sel);
  }

  /** The next cut is the smallest angle not below the selection, or the smallest of all. */
  lemma NextCut(angles: seq<real>, sel: real)
    requires Sorted(angles) && angles != []
    ensures var n := NextIndex(angles, sel);
      && ((exists i | 0 <= i < |angles| :: angles[i] >= sel) ==>
            angles[n] >= sel && forall i | 0 <= i < |angles| && angles[i] < angles[n] :: angles[i] < sel)
      && ((forall i | 0 <= i < |angles| :: angles[i] < sel) ==> angles[n] == angles[0])
  {
    NeighbourIndices(angles, sel);
    var n := NextIndex(angles, sel);
    forall i | 0 <= i < |angles| && angles[i] < angles[n]
      ensures i < n
    {
    }
  }

  /** The previous cut is the largest angle below the selection, or the largest of all. */
  lemma PreviousCut(angles: seq<real>, sel: real)
    requires Sorted(angles) && angles != []
    ensures var p := PreviousIndex(angles, sel);
      && ((exists i | 0 <= i < |angles| :: angles[i] < sel) ==>
            angles[p] < sel && forall i | 0 <= i < |angles| && angles[i] > angles[p] :: angles[i] >= sel)
      && ((forall i | 0 <= i < |angles| :: angles[i] >= sel) ==> angles[p] == angles[|angles| - 1])
  {
    NeighbourIndices(angles, sel);
    var p := PreviousIndex(angles, sel);
    forall i | 0 <= i < |angles| && angles[i] > angles[p]
      ensures i > p
    {
    }
  }

  /**
   * A partial sweep is trimmed exactly when some normalised cut differs from
   * the normalised selection.  The first piece ends at the largest cut below
   * the selection, the last starts at the smallest cut above it, both reduced
   * to [0, 360).
   */
  lemma PartialTrimSides(e: Entity, angles: seq<real>, sel: real)
    requires e.Arc? || e.Ellipse?
    ensures var na := NormalizeAngles(angles, e.startAngle, e.endAngle);
      var ns := NormalizeAngle(sel, e.startAngle, e.endAngle);
      var r := PartialTrim(e, angles, sel);
      && (r.removed != [] <==> exists a | a in na :: a != ns)
      && ((exists a | a in na :: a < ns) ==>
            exists m | m in na && m < ns ::
              && (forall a | a in na && a < ns :: a <= m)
              && r.added[0] == WithEndAngle(e, CorrectAngle(m)))
      && ((exists a | a in na :: a > ns) ==>
            exists m | m in na && m > ns ::
              && (forall a | a in na && a > ns :: m <= a)
              && r.added[|r.added| - 1] == WithStartAngle(e, CorrectAngle(m)))
  {
    var na := NormalizeAngles(angles, e.startAngle, e.endAngle);
    var ns := NormalizeAngle(sel, e.startAngle, e.endAngle);
    assert PartialTrim(e, angles, sel) == SidePieces(e, Below(na, ns), Above(na, ns));
    SidePiecesTrimmed(e, na, ns);
    if exists a | a in na :: a < ns {
      SidePiecesLower(e, na, ns);
    }
    if exists a | a in na :: a > ns {
      SidePiecesUpper(e, na, ns);
    }
  }

  /** The entity is cut back exactly when some angle differs from `ns`. */
  lemma SidePiecesTrimmed(e: Entity, na: seq<real>, ns: real)
    requires e.Arc? || e.Ellipse?
    ensures SidePieces(e, Below(na, ns), Above(na, ns)).removed != [] <==> exists a | a in na :: a != ns
  {
    if exists a | a in na :: a != ns {
      var a :| a in na && a != ns;
      if a < ns { assert a in Below(na, ns); } else { assert a in Above(na, ns); }
    }
  }

  /** With an angle below `ns`, the first piece ends at the largest of them, reduced to [0, 360). */
  lemma SidePiecesLower(e: Entity, na: seq<real>, ns: real)
    requires e.Arc? || e.Ellipse?
    requires exists a | a in na :: a < ns
    ensures var r := SidePieces(e, Below(na, ns), Above(na, ns));
      exists m | m in na && m < ns ::
        && (forall a | a in na && a < ns :: a <= m)
        && r.added[0] == WithEndAngle(e, CorrectAngle(m))
  {
    var lesser := Below(na, ns);
    var a :| a in na && a < ns;
    assert a in lesser;
    var m := MaxOf(lesser);
    assert SidePieces(e, lesser, Above(na, ns)).added[0] == WithEndAngle(e, CorrectAngle(m));
  }

  /** With an angle above `ns`, the last piece starts at the smallest of them, reduced to [0, 360). */
  lemma SidePiecesUpper(e: Entity, na: seq<real>, ns: real)
    requires e.Arc? || e.Ellipse?
    requires exists a | a in na :: a > ns
    ensures var r := SidePieces(e, Below(na, ns), Above(na, ns));
      exists m | m in na && m > ns ::
        && (forall a | a in na && a > ns :: m <= a)
        && r.added[|r.added| - 1] == WithStartAngle(e, CorrectAngle(m))
  {
    var greater := Above(na, ns);
    var a :| a in na && a > ns;
    assert a in greater;
    var m := MinOf(greater);
    var r := SidePieces(e, Below(na, ns), greater);
    assert r.added[|r.added| - 1] == WithStartAngle(e, CorrectAngle(m));
  }

  /**
   * The unit circle cut by the x axis at angles 0 and 180 and picked at 270:
   * as written, the cut at 0 equals the circle's start angle and is dropped,
   * one cut remains, and nothing is trimmed.
   */
  lemma CircleAtZeroAsWritten(circle: Entity)
    requires circle == Circle(Origin, 1.0, ZAxis, Auto)
    ensures EllipseTrimAsWritten(circle, [0.0, 180.0], 270.0) == NoTrim
  {
    var kept := Excluding([0.0, 180.0], 0.0, 360.0);
    assert kept == [180.0];
    assert SortAngles(kept) == [180.0];
  }

  /** With the cut at 0 kept, the same input gives the arc from 0 to 180. */
  lemma CircleAtZeroCorrected(circle: Entity)
    requires circle == Circle(Origin, 1.0, ZAxis, Auto)
    ensures EllipseTrim(circle, [0.0, 180.0], 270.0) == TrimResult([circle], [Arc(Origin, 1.0, 0.0, 180.0, ZAxis, Auto)])
  {
    var angles := [0.0, 180.0];
    assert IsClosed(circle);
    assert SortAngles([180.0]) == [180.0];
    assert SortAngles(angles) == angles;
    assert CandidateAngles(circle, angles) == angles;
    assert Below(angles, 270.0) == angles;
    assert PreviousIndex(angles, 270.0) == 1 && NextIndex(angles, 270.0) == 0;
    assert ClosedTrim(circle, angles, 270.0) == TrimResult([circle], [WithAngles(circle, 0.0, 180.0)]);
  }

  /** The half arc from 0 to 180, cut at 90 and picked at 135, keeps 0 to 90. */
  lemma HalfArcExample(arc: Entity)
    requires arc == Arc(Origin, 1.0, 0.0, 180.0, ZAxis, Auto)
    ensures EllipseTrim(arc, [90.0], 135.0) == TrimResult([arc], [Arc(Origin, 1.0, 0.0, 90.0, ZAxis, Auto)])
  {
    assert !IsClosed(arc);
    assert Excluding([90.0], 0.0, 180.0) == [90.0];
    assert SortAngles([90.0]) == [90.0];
    assert CandidateAngles(arc, [90.0]) == [90.0];
    assert NormalizeAngles([90.0], 0.0, 180.0) == [90.0];
    assert Below([90.0], 135.0) == [90.0];
    assert Above([90.0], 135.0) == [];
    assert SidePieces(arc, [90.0], []) == TrimResult([arc], [WithEndAngle(arc, CorrectAngle(90.0))]);
  }

  /** The parameter angles of the intersection points, in order. */
  function RawAngles(points: seq<Point>, angleOf: Point -> real): (raw: seq<real>)
    ensures |raw| == |points| && forall i | 0 <= i < |points| :: raw[i] == angleOf(points[i])
  {
    seq(|points|, i requires 0 <= i < |points| => angleOf(points[i]))
  }

  /** The arc-like branch of `TrimEllipse`: the entity is cut back on each side that has a cut. */
  method TrimSides(e: Entity, lesserAngles: seq<real>, greaterAngles: seq<real>)
    returns (removed: seq<Entity>, added: seq<Entity>)
    requires e.Arc? || e.Ellipse?
    ensures TrimResult(removed, added) == SidePieces(e, lesserAngles, greaterAngles)
  {
    removed, added := [], [];
    if lesserAngles != [] || greaterAngles != [] {
      removed := removed + [e];
      if lesserAngles != [] {
        added := added + [WithEndAngle(e, CorrectAngle(MaxOf(lesserAngles)))];
      }
      assert added == (if lesserAngles != [] then [WithEndAngle(e, CorrectAngle(MaxOf(lesserAngles)))] else []);
      if greaterAngles != [] {
        added := added + [WithStartAngle(e, CorrectAngle(MinOf(greaterAngles)))];
      }
    }
  }

  /** The circle-like branch of `TrimEllipse`: two cuts are needed, and the piece runs from the next to the previous one. */
  method TrimClosed(e: Entity, angles: seq<real>, selectionAngle: real)
    returns (removed: seq<Entity>, added: seq<Entity>)
    requires IsClosed(e)
    ensures TrimResult(removed, added) == ClosedTrim(e, angles, selectionAngle)
  {
    var previousIndex := PreviousIndex(angles, selectionAngle);
    var nextIndex := NextIndex(angles, selectionAngle);
    removed, added := [], [];
    if |angles| >= 2 {
      removed := removed + [e];
      added := added + [WithAngles(e, angles[nextIndex], angles[previousIndex])];
    }
  }

  /** The arc-like branch of `TrimEllipse`, from the normalisation of the angles on. */
  method TrimPartial(e: Entity, angles: seq<real>, selectionAngle: real)
    returns (removed: seq<Entity>, added: seq<Entity>)
    requires e.Arc? || e.Ellipse?
    ensures TrimResult(removed, added) == PartialTrim(e, angles, selectionAngle)
  {
    var normalizedAngles := NormalizeAngles(angles, e.startAngle, e.endAngle);
    var normalizedSelectionAngle := NormalizeAngle(selectionAngle, e.startAngle, e.endAngle);
    var lesserAngles := Below(normalizedAngles, normalizedSelectionAngle);
    var greaterAngles := Above(normalizedAngles, normalizedSelectionAngle);
    removed, added := TrimSides(e, lesserAngles, greaterAngles);
  }

  /** `TrimEllipse`: computes the candidate and selection angles, then trims as a closed shape or as an arc. */
  method TrimEllipse(e: Entity, pivot: Point, intersectionPoints: seq<Point>, angleOf: Point -> real)
    returns (removed: seq<Entity>, added: seq<Entity>)
    requires e.Arc? || e.Circle? || e.Ellipse?
    ensures TrimResult(removed, added) == EllipseTrim(e, RawAngles(intersectionPoints, angleOf), angleOf(pivot))
  {
    var angles := CandidateAngles(e, RawAngles(intersectionPoints, angleOf));
    var selectionAngle := angleOf(pivot);
    if IsClosed(e) {
      removed, added := TrimClosed(e, angles, selectionAngle);
    } else {
      removed, added := TrimPartial(e, angles, selectionAngle);
    }
  }

  /**
   * `Trim`: nothing happens without an intersection point or for an entity
   * other than a line, arc, circle or ellipse; otherwise the line or ellipse
   * trim decides.
   */
  method Trim(e: Entity, pivot: Point, pairResults: seq<Option<seq<Option<Point>>>>, angleOf: Point -> real)
    returns (removed: seq<Entity>, added: seq<Entity>)
    ensures Flatten(pairResults) == [] ==> removed == [] && added == []
    ensures !(e.Line? || e.Arc? || e.Circle? || e.Ellipse?) ==> removed == [] && added == []
    ensures Flatten(pairResults) != [] && e.Line? ==>
      TrimResult(removed, added) == LineTrim(e, pivot, Flatten(pairResults))
    ensures Flatten(pairResults) != [] && (e.Arc? || e.Circle? || e.Ellipse?) ==>
      TrimResult(removed, added) == EllipseTrim(e, RawAngles(Flatten(pairResults), angleOf), angleOf(pivot))
  {
    var intersectionPoints := Flatten(pairResults);
    if intersectionPoints != [] {
      match Kind(e)
      case LineKind =>
        removed, added := TrimLine(e, pivot, intersectionPoints);
      case ArcKind =>
        removed, added := TrimEllipse(e, pivot, intersectionPoints, angleOf);
      case CircleKind =>
        removed, added := TrimEllipse(e, pivot, intersectionPoints, angleOf);
      case EllipseKind =>
        removed, added := TrimEllipse(e, pivot, intersectionPoints, angleOf);
      case _ =>
        removed, added := [], [];
    } else {
      removed, added := [], [];
    }
  }
}
