/**
  Concrete runs of BufferMeshLineGeometry.fromGeometry, proved from its
  contract alone: the polyline of the usage comment at the top of
  MeshLine.js, the degenerate polylines, and a second expansion whose colour
  list no longer matches.
 */
module MeshLineExamples {
  import opened Expansion
  import opened MeshLine

  /** The three points of the usage comment: (0,0,0), (6,0,0), (6,0,6). */
  const A := Vec3(0.0, 0.0, 0.0)
  const B := Vec3(6.0, 0.0, 0.0)
  const C := Vec3(6.0, 0.0, 6.0)

  lemma RibbonOfThree<T>(a: T, b: T, c: T)
    ensures Ribbon([a, b, c]) == SegmentQuad(a, b) + SegmentQuad(b, c)
  {
    assert [a, b, c][1..] == [b, c];
    assert [b, c][1..] == [c];
  }

  /** Expanding the usage example gives eight slots; their miters alternate
      -1, +1, +1, -1 per segment and their positions are the points 0, 0, 1,
      1, 1, 1, 2, 2. */
  method UsageExample() returns (miters: seq<real>, positions: seq<Vec3>)
    ensures miters == [-1.0, 1.0, 1.0, -1.0, -1.0, 1.0, 1.0, -1.0]
    ensures positions == [A, A, B, B, B, B, C, C]
  {
    var g := new BufferMeshLineGeometry();
    var ok;
    ghost var writes, colourWrites;
    ok, writes, colourWrites := g.FromGeometry(Geometry([A, B, C], []));
    RibbonOfThree(A, B, C);
    var m := g.attributes["miter"];
    var p := g.attributes["position"];
    miters := m.data[..];
    positions := [p.Xyz(0), p.Xyz(1), p.Xyz(2), p.Xyz(3), p.Xyz(4), p.Xyz(5), p.Xyz(6), p.Xyz(7)];
  }

  /** A single point expands to empty buffers; an empty polyline makes the
      allocation fail and leaves the geometry without attributes. */
  method DegenerateLines() returns (singlePointFloats: int, emptyOk: bool, emptyAttributes: int)
    ensures singlePointFloats == 0
    ensures !emptyOk && emptyAttributes == 0
  {
    var g := new BufferMeshLineGeometry();
    var ok;
    ghost var writes, colourWrites;
    ok, writes, colourWrites := g.FromGeometry(Geometry([A], []));
    singlePointFloats := g.attributes["position"].data.Length + g.attributes["other"].data.Length
                         + g.attributes["miter"].data.Length;

    var h := new BufferMeshLineGeometry();
    emptyOk, writes, colourWrites := h.FromGeometry(Geometry([], []));
    emptyAttributes := |h.attributes|;
  }

  /** Expanding the three coloured points and then four points without
      colours leaves the first colour buffer registered: it still has eight
      items while the positions now have twelve. */
  method StaleColourAttribute() returns (colourItems: int, positionItems: int)
    ensures colourItems == 8 && positionItems == 12
  {
    var g := new BufferMeshLineGeometry();
    var ok;
    ghost var writes, colourWrites;
    ok, writes, colourWrites := g.FromGeometry(Geometry([A, B, C], [A, B, C]));
    ok, writes, colourWrites := g.FromGeometry(Geometry([A, B, C, A], []));
    colourItems := g.attributes["color"].data.Length / 3;
    positionItems := g.attributes["position"].data.Length / 3;
  }
}
