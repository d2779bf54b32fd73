/**
 * The VPORT table of a DXF file: the view ports it holds and the code/value
 * pairs it writes, each view port introduced by a pair with group code 0.
 */
module DxfViewPorts {
  import opened Wrappers

  datatype DxfCodePair = DxfCodePair(code: int, value: string)

  /** A view port, reduced to the code/value pairs it writes. */
  datatype DxfViewPort = DxfViewPort(valuePairs: seq<DxfCodePair>)

  /** The text of the pair that starts each view port's entry. */
  const ViewPortText: string := "VPORT"

  datatype DxfTableType = ViewPort | OtherTableType

  datatype DxfViewPortTable = DxfViewPortTable(viewPorts: seq<DxfViewPort>)

  /** `TableType`: a view port table is always of type ViewPort. */
  function TableType(t: DxfViewPortTable): (k: DxfTableType)
    ensures k == ViewPort
  {
    ViewPort
  }

  /** The parameterless constructor: a table with no view port, which writes no pair. */
  function EmptyViewPortTable(): (t: DxfViewPortTable)
    ensures t.viewPorts == [] && GetTableValuePairs(t) == []
  {
    DxfViewPortTable([])
  }

  /** The total number of pairs a list of view ports writes: one header pair plus its own pairs each. */
  function PairCount(vs: seq<DxfViewPort>): nat {
    if vs == [] then 0 else PairCount(vs[..|vs| - 1]) + 1 + |vs[|vs| - 1].valuePairs|
  }

  /** The pairs of the view ports of `vs`, in order, each preceded by `(0, VPORT)`. */
  function ValuePairsOf(vs: seq<DxfViewPort>): (ps: seq<DxfCodePair>)
    ensures |ps| == PairCount(vs)
  {
    if vs == [] then []
    else ValuePairsOf(vs[..|vs| - 1]) + [DxfCodePair(0, ViewPortText)] + vs[|vs| - 1].valuePairs
  }

  /** `GetTableValuePairs`: the header pair and the pairs of each view port, in table order. */
  function GetTableValuePairs(t: DxfViewPortTable): (ps: seq<DxfCodePair>)
    ensures |ps| == PairCount(t.viewPorts)
    ensures t.viewPorts == [] <==> ps == []
    ensures t.viewPorts != [] ==> ps[0] == DxfCodePair(0, ViewPortText)
  {
    if t.viewPorts == [] then []
    else
      ValuePairsStart(t.viewPorts);
      ValuePairsOf(t.viewPorts)
  }

  /** A non-empty table's pairs start with the header pair of its first view port. */
  lemma {:induction false} ValuePairsStart(vs: seq<DxfViewPort>)
    requires vs != []
    ensures |ValuePairsOf(vs)| > 0 && ValuePairsOf(vs)[0] == DxfCodePair(0, ViewPortText)
    decreases |vs|
  {
    if |vs| > 1 {
      ValuePairsStart(vs[..|vs| - 1]);
    }
  }

  /** The view-port-level concatenation: the pairs of two lists written one after the other. */
  lemma {:induction false} ValuePairsAppend(a: seq<DxfViewPort>, b: seq<DxfViewPort>)
    ensures ValuePairsOf(a + b) == ValuePairsOf(a) + ValuePairsOf(b)
    decreases |b|
  {
    if b == [] {
      assert a + b == a;
    } else {
      assert (a + b)[..|a + b| - 1] == a + b[..|b| - 1];
      ValuePairsAppend(a, b[..|b| - 1]);
    }
  }

  /** The entry of the i-th view port starts right after the pairs of those before it, with the header pair. */
  lemma EntryStarts(vs: seq<DxfViewPort>, i: nat)
    requires i < |vs|
    ensures PairCount(vs[..i]) < |ValuePairsOf(vs)|
    ensures ValuePairsOf(vs)[PairCount(vs[..i])] == DxfCodePair(0, ViewPortText)
  {
    assert vs == vs[..i] + vs[i..];
    ValuePairsAppend(vs[..i], vs[i..]);
    ValuePairsStart(vs[i..]);
  }

  /** Whether no pair in `ps` has group code 0. */
  predicate NoEntryStart(ps: seq<DxfCodePair>) {
    forall i | 0 <= i < |ps| :: ps[i].code != 0
  }

  /** The pairs up to the next code-0 pair. */
  function TakeBody(ps: seq<DxfCodePair>): (body: seq<DxfCodePair>)
    ensures |body| <= |ps| && body == ps[..|body|] && NoEntryStart(body)
    ensures |body| < |ps| ==> ps[|body|].code == 0
  {
    if ps == [] || ps[0].code == 0 then [] else [ps[0]] + TakeBody(ps[1..])
  }

  /**
   * Reads view ports back from a stream of pairs: each code-0 pair starts an
   * entry, whose body runs to the next code-0 pair.  Fails on a stream that
   * does not start with a code-0 pair.
   */
  function ReadViewPorts(ps: seq<DxfCodePair>): (r: Option<seq<DxfViewPort>>)
    ensures r == Some([]) <==> ps == []
    ensures r.Some? && ps != [] ==> ps[0] == DxfCodePair(0, ViewPortText)
    ensures r.Some? ==> |r.value| <= |ps| && forall i | 0 <= i < |r.value| :: NoEntryStart(r.value[i].valuePairs)
    decreases |ps|
  {
    if ps == [] then Some([])
    else if ps[0] != DxfCodePair(0, ViewPortText) then None
    else
      var body := TakeBody(ps[1..]);
      match ReadViewPorts(ps[1 + |body|..])
      case None => None
      case Some(rest) => Some([DxfViewPort(body)] + rest)
  }

  /** A body without code-0 pairs is read whole, up to the following header. */
  lemma {:induction false} TakeBodyOf(body: seq<DxfCodePair>, rest: seq<DxfCodePair>)
    requires NoEntryStart(body)
    requires rest == [] || rest[0].code == 0
    ensures TakeBody(body + rest) == body
    decreases |body|
  {
    if body != [] {
      assert (body + rest)[1..] == body[1..] + rest;
      TakeBodyOf(body[1..], rest);
    }
  }

  /**
   * Reading the pairs of a table back gives its view ports, provided no view
   * port writes a code-0 pair of its own: the header pairs are the only
   * entry boundaries.
   */
  lemma {:induction false} ReadBackViewPorts(vs: seq<DxfViewPort>)
    requires forall i | 0 <= i < |vs| :: NoEntryStart(vs[i].valuePairs)
    ensures ReadViewPorts(ValuePairsOf(vs)) == Some(vs)
    decreases |vs|
  {
    if vs != [] {
      var first := vs[0];
      var rest := vs[1..];
      assert vs == [first] + rest;
      ValuePairsAppend([first], rest);
      assert ValuePairsOf([first]) == [DxfCodePair(0, ViewPortText)] + first.valuePairs by {
        assert [first][..0] == [];
      }
      var ps := ValuePairsOf(vs);
      var tail := ValuePairsOf(rest);
      assert ps == [DxfCodePair(0, ViewPortText)] + first.valuePairs + tail;
      assert ps[1..] == first.valuePairs + tail;
      if rest != [] {
        ValuePairsStart(rest);
      }
      TakeBodyOf(first.valuePairs, tail);
      assert ps[1 + |first.valuePairs|..] == tail;
      ReadBackViewPorts(rest);
    }
  }

  /** The constructor: a table over a copy of the given view ports, in the same order. */
  function NewViewPortTable(viewPorts: seq<DxfViewPort>): (t: DxfViewPortTable)
    ensures t.viewPorts == viewPorts
    ensures (forall i | 0 <= i < |viewPorts| :: NoEntryStart(viewPorts[i].valuePairs)) ==>
      ReadViewPorts(GetTableValuePairs(t)) == Some(viewPorts)
  {
    if forall i | 0 <= i < |viewPorts| :: NoEntryStart(viewPorts[i].valuePairs) then
      ReadBackViewPorts(viewPorts);
      DxfViewPortTable(viewPorts)
    else DxfViewPortTable(viewPorts)
  }
}
