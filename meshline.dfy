/**
  BufferMeshLineGeometry: the buffer geometry of a MeshLine. fromGeometry
  expands a polyline into flat float attribute buffers ("position", "other",
  "miter" and, when every vertex has a colour, "color") and registers them in
  the geometry's attribute map. The buffers are written in place, slot by
  slot, under the guards of the Expansion module; the contracts tie their
  final contents to the reference Ribbon.
 */
module MeshLine {
  import opened Expansion

  /** Three coordinates as the source reads them, through x, y and z: a vertex
      position or a vertex colour. */
  datatype Vec3 = Vec3(x: real, y: real, z: real)

  const Origin := Vec3(0.0, 0.0, 0.0)

  /** The input geometry: the vertices of one polyline and its colour list. */
  datatype Geometry = Geometry(vertices: seq<Vec3>, colors: seq<Vec3>)

  /** What updateFromObject is handed: a MeshLine (with its geometry) or any
      other scene object. */
  datatype SceneObject = MeshLineObject(geometry: Geometry) | OtherObject

  /** A flat, zero-initialised float buffer read in items of itemSize floats. */
  class Float32Attribute {
    const data: array<real>
    const itemSize: nat
    var needsUpdate: bool

    constructor (length: nat, itemSize: nat)
      ensures data.Length == length && this.itemSize == itemSize && !needsUpdate
      ensures fresh(data)
      ensures forall j :: 0 <= j < length ==> data[j] == 0.0
    {
      data := new real[length](_ => 0.0);
      this.itemSize := itemSize;
      needsUpdate := false;
    }

    /** Item index of a three-float attribute. */
    function Xyz(index: nat): Vec3
      reads data
      requires 3 * index + 2 < data.Length
    {
      Vec3(data[3 * index], data[3 * index + 1], data[3 * index + 2])
    }

    method SetXYZ(index: nat, x: real, y: real, z: real)
      requires itemSize == 3 && 3 * index + 2 < data.Length
      modifies data
      ensures data[..] == old(data[..])[3 * index := x][3 * index + 1 := y][3 * index + 2 := z]
    {
      var at := index * itemSize;
      data[at] := x;
      data[at + 1] := y;
      data[at + 2] := z;
    }

    method SetX(index: nat, x: real)
      requires itemSize == 1 && index < data.Length
      modifies data
      ensures data[..] == old(data[..])[index := x]
    {
      data[index * itemSize] := x;
    }
  }

  /** The three expansion buffers for exp slots: 3 floats per slot for the
      position and the other position, 1 for the miter, in three distinct
      arrays. */
  ghost predicate Layout(positions: Float32Attribute, others: Float32Attribute, miters: Float32Attribute, exp: nat)
  {
    && positions.itemSize == 3 && positions.data.Length == 3 * exp
    && others.itemSize == 3 && others.data.Length == 3 * exp
    && miters.itemSize == 1 && miters.data.Length == exp
    && positions.data != others.data && positions.data != miters.data && others.data != miters.data
  }

  /** Item k of a three-float attribute holds the position of ribbon vertex k. */
  ghost predicate HoldsPositions(a: Float32Attribute, r: seq<RibbonVertex<Vec3>>)
    reads a.data
  {
    && a.itemSize == 3 && a.data.Length == 3 * |r|
    && forall k :: 0 <= k < |r| ==> a.Xyz(k) == r[k].position
  }

  /** Item k of a three-float attribute holds the other position of ribbon vertex k. */
  ghost predicate HoldsOthers(a: Float32Attribute, r: seq<RibbonVertex<Vec3>>)
    reads a.data
  {
    && a.itemSize == 3 && a.data.Length == 3 * |r|
    && forall k :: 0 <= k < |r| ==> a.Xyz(k) == r[k].other
  }

  /** Float k of a one-float attribute holds the miter of ribbon vertex k. */
  ghost predicate HoldsMiters(a: Float32Attribute, r: seq<RibbonVertex<Vec3>>)
    reads a.data
  {
    && a.itemSize == 1 && a.data.Length == |r|
    && forall k :: 0 <= k < |r| ==> a.data[k] == r[k].miter
  }

  /** The attribute names fromGeometry (re)assigns for geometry g. */
  function ExpansionNames(g: Geometry): (names: set<string>)
    ensures "color" in names <==> |g.colors| == |g.vertices|
  {
    {"position", "other", "miter"} + (if |g.colors| == |g.vertices| then {"color"} else {})
  }

  /** The four attribute names fromGeometry registers are pairwise distinct. */
  lemma NamesDistinct()
    ensures "position" != "other" && "position" != "miter" && "position" != "color"
    ensures "other" != "miter" && "other" != "color" && "miter" != "color"
  {
    assert "position"[0] == 'p' && "other"[0] == 'o' && "miter"[0] == 'm' && "color"[0] == 'c';
  }

  /** Writes slot k of the three expansion buffers: setXYZ on the position and
      the other position, setX on the miter. */
  method WriteVertex(positions: Float32Attribute, others: Float32Attribute, miters: Float32Attribute,
                     exp: nat, k: nat, vert: Vec3, neigh: Vec3, miter: real)
    requires Layout(positions, others, miters, exp) && k < exp
    modifies positions.data, others.data, miters.data
    ensures positions.Xyz(k) == vert && others.Xyz(k) == neigh && miters.data[k] == miter
    ensures forall j :: 0 <= j < exp && j != k ==>
      positions.Xyz(j) == old(positions.Xyz(j)) && others.Xyz(j) == old(others.Xyz(j)) && miters.data[j] == old(miters.data[j])
  {
    positions.SetXYZ(k, vert.x, vert.y, vert.z);
    others.SetXYZ(k, neigh.x, neigh.y, neigh.z);
    miters.SetX(k, miter);
  }

  /** Writes slot k of the colour buffer. */
  method WriteColour(colors: Float32Attribute, exp: nat, k: nat, colour: Vec3)
    requires colors.itemSize == 3 && colors.data.Length == 3 * exp && k < exp
    modifies colors.data
    ensures colors.Xyz(k) == colour
    ensures forall j :: 0 <= j < exp && j != k ==> colors.Xyz(j) == old(colors.Xyz(j))
  {
    colors.SetXYZ(k, colour.x, colour.y, colour.z);
  }

  class BufferMeshLineGeometry {
    /** The geometry's named attribute buffers. */
    var attributes: map<string, Float32Attribute>

    constructor ()
      ensures attributes == map[]
    {
      attributes := map[];
    }

    /** The arrays behind the registered attributes. */
    ghost function Buffers(): set<array<real>>
      reads this
    {
      set name | name in attributes :: attributes[name].data
    }

    /** The attributes hold the expansion of g: the positions, other positions
        and miters of its ribbon and, when every vertex has a colour, the
        colours expanded in lockstep with the positions. */
    ghost predicate Expanded(g: Geometry)
      reads this, Buffers()
    {
      && |g.vertices| >= 1
      && "position" in attributes && "other" in attributes && "miter" in attributes
      && HoldsPositions(attributes["position"], Ribbon(g.vertices))
      && HoldsOthers(attributes["other"], Ribbon(g.vertices))
      && HoldsMiters(attributes["miter"], Ribbon(g.vertices))
      && (|g.colors| == |g.vertices| ==>
            "color" in attributes && HoldsPositions(attributes["color"], Ribbon(g.colors)))
    }

    method AddAttribute(name: string, attribute: Float32Attribute)
      modifies this
      ensures attributes == old(attributes)[name := attribute]
    {
      attributes := attributes[name := attribute];
    }

    /** Re-expands the geometry of a MeshLine; any other object is ignored. */
    method UpdateFromObject(obj: SceneObject) returns (ok: bool)
      modifies this
      ensures obj.OtherObject? ==> ok && attributes == old(attributes)
      ensures obj.MeshLineObject? ==> (ok <==> |obj.geometry.vertices| >= 1)
      ensures obj.MeshLineObject? && !ok ==> attributes == old(attributes)
      ensures obj.MeshLineObject? && ok ==> Expanded(obj.geometry)
    {
      match obj
      case MeshLineObject(geometry) =>
        ghost var writes, colourWrites;
        ok, writes, colourWrites := FromGeometry(geometry);
      case OtherObject =>
        ok := true;
    }


    /** Expands the polyline of geometry into fresh attribute buffers.
        ok is false when the polyline has no vertex: the buffer length
        4n - 4 is then negative, allocating it fails and nothing changes.
        writes and colourWrites count how often each slot of the expansion
        and of the colour buffer was written. */
    method FromGeometry(geometry: Geometry) returns (ok: bool, ghost writes: seq<nat>, ghost colourWrites: seq<nat>)
      modifies this
      ensures ok <==> |geometry.vertices| >= 1
      ensures !ok ==> attributes == old(attributes)
      ensures ok ==> Expanded(geometry)
      ensures ok ==> attributes.Keys == old(attributes).Keys + ExpansionNames(geometry)
      ensures ok ==> fresh(attributes["position"]) && fresh(attributes["position"].data) && attributes["position"].needsUpdate
      ensures ok ==> fresh(attributes["other"]) && fresh(attributes["other"].data) && attributes["other"].needsUpdate
      ensures ok ==> fresh(attributes["miter"]) && fresh(attributes["miter"].data) && attributes["miter"].needsUpdate
      ensures ok && |geometry.colors| == |geometry.vertices| ==>
        fresh(attributes["color"]) && fresh(attributes["color"].data) && attributes["color"].needsUpdate
      ensures ok ==> forall name :: name in old(attributes) && name !in ExpansionNames(geometry) ==>
        attributes[name] == old(attributes)[name]
      ensures ok ==> |writes| == |Ribbon(geometry.vertices)| && forall k :: 0 <= k < |writes| ==> writes[k] == 1
      ensures ok && |geometry.colors| == |geometry.vertices| ==>
        |colourWrites| == |Ribbon(geometry.colors)| && forall k :: 0 <= k < |colourWrites| ==> colourWrites[k] == 1
    {
      var srcVerts := geometry.vertices;
      var expCount := |srcVerts| * 4 - 4;
      writes, colourWrites := [], [];
      if expCount * 3 < 0 {
        ok := false;
        return;
      }
      NamesDistinct();
      var positions, otherPositions, miterDir;
      positions, otherPositions, miterDir, writes := AttachExpansion(srcVerts, expCount);

      var srcColors := geometry.colors;
      var hasValidColor := |srcColors| == |srcVerts|;
      if hasValidColor {
        var colors;
        colors, colourWrites := AttachColours(srcColors, expCount);
        assert attributes["position"] == positions && attributes["other"] == otherPositions;
      }
      ok := true;
    }

    /** The first half of fromGeometry: allocates the position, other and
        miter buffers for expCount slots, fills them by the first loop and
        registers them. */
    method AttachExpansion(srcVerts: seq<Vec3>, expCount: int)
      returns (positions: Float32Attribute, otherPositions: Float32Attribute, miterDir: Float32Attribute,
               ghost writes: seq<nat>)
      requires |srcVerts| >= 1 && expCount == |srcVerts| * 4 - 4
      modifies this
      ensures attributes == old(attributes)["position" := positions]["other" := otherPositions]["miter" := miterDir]
      ensures fresh(positions) && fresh(positions.data) && positions.needsUpdate
      ensures fresh(otherPositions) && fresh(otherPositions.data) && otherPositions.needsUpdate
      ensures fresh(miterDir) && fresh(miterDir.data) && miterDir.needsUpdate
      ensures HoldsPositions(positions, Ribbon(srcVerts))
      ensures HoldsOthers(otherPositions, Ribbon(srcVerts))
      ensures HoldsMiters(miterDir, Ribbon(srcVerts))
      ensures |writes| == |Ribbon(srcVerts)| && forall k :: 0 <= k < |writes| ==> writes[k] == 1
    {
      positions := new Float32Attribute(expCount * 3, 3);
      otherPositions := new Float32Attribute(expCount * 3, 3);
      miterDir := new Float32Attribute(expCount, 1);
      writes := ExpandVertices(srcVerts, expCount, positions, otherPositions, miterDir);
      positions.needsUpdate := true;
      otherPositions.needsUpdate := true;
      miterDir.needsUpdate := true;

      AddAttribute("position", positions);
      AddAttribute("other", otherPositions);
      AddAttribute("miter", miterDir);
    }

    /** The second half of fromGeometry, run when every vertex has a colour:
        allocates the colour buffer, fills it by the colour loop and
        registers it. */
    method AttachColours(srcColors: seq<Vec3>, expCount: int) returns (colors: Float32Attribute, ghost writes: seq<nat>)
      requires |srcColors| >= 1 && expCount == |srcColors| * 4 - 4
      modifies this
      ensures attributes == old(attributes)["color" := colors]
      ensures fresh(colors) && fresh(colors.data) && colors.needsUpdate
      ensures HoldsPositions(colors, Ribbon(srcColors))
      ensures |writes| == |Ribbon(srcColors)| && forall k :: 0 <= k < |writes| ==> writes[k] == 1
    {
      colors := new Float32Attribute(expCount * 3, 3);
      writes := ExpandColours(srcColors, expCount, colors);
      colors.needsUpdate := true;
      AddAttribute("color", colors);
    }
  }

  /** The first loop of fromGeometry: every point writes its trailing pair
      when it ends a segment and its leading pair when it starts one. The
      buffers end up holding the ribbon of the polyline, and every slot is
      written exactly once. */
  method ExpandVertices(srcVerts: seq<Vec3>, expCount: int,
                        positions: Float32Attribute, otherPositions: Float32Attribute, miterDir: Float32Attribute)
    returns (ghost writes: seq<nat>)
    requires |srcVerts| >= 1 && expCount == |srcVerts| * 4 - 4
    requires Layout(positions, otherPositions, miterDir, expCount)
    requires forall k :: 0 <= k < expCount ==>
      positions.Xyz(k) == Origin && otherPositions.Xyz(k) == Origin && miterDir.data[k] == 0.0
    modifies positions.data, otherPositions.data, miterDir.data
    ensures HoldsPositions(positions, Ribbon(srcVerts))
    ensures HoldsOthers(otherPositions, Ribbon(srcVerts))
    ensures HoldsMiters(miterDir, Ribbon(srcVerts))
    ensures |writes| == |Ribbon(srcVerts)| && forall k :: 0 <= k < |writes| ==> writes[k] == 1
  {
    writes := seq(expCount, _ => 0);
    var i := 0;
    while i < |srcVerts|
      invariant 0 <= i <= |srcVerts|
      invariant |writes| == expCount
      invariant forall k :: 0 <= k < expCount ==> writes[k] == if SourceIndex(k) < i then 1 else 0
      invariant forall k :: 0 <= k < expCount && SourceIndex(k) < i ==>
        && positions.Xyz(k) == srcVerts[SourceIndex(k)]
        && otherPositions.Xyz(k) == srcVerts[NeighbourIndex(k)]
        && miterDir.data[k] == MiterAt(k)
      invariant forall k :: 0 <= k < expCount && i <= SourceIndex(k) ==>
        positions.Xyz(k) == Origin && otherPositions.Xyz(k) == Origin && miterDir.data[k] == 0.0
    {
      ghost var w := ExpandPoint(srcVerts, expCount, i, positions, otherPositions, miterDir);
      writes := seq(expCount, k requires 0 <= k < expCount => writes[k] + w[k]);
      i := i + 1;
    }
    forall k | 0 <= k < expCount
      ensures positions.Xyz(k) == Ribbon(srcVerts)[k].position
      ensures otherPositions.Xyz(k) == Ribbon(srcVerts)[k].other
      ensures miterDir.data[k] == Ribbon(srcVerts)[k].miter
    {
      RibbonAt(srcVerts, k);
    }
  }

  /** One iteration of the first loop of fromGeometry: point i writes the
      slots it owns (those whose SourceIndex is i) with its own position, the
      neighbour on the segment the pair belongs to, and the pair's miters;
      every other slot keeps its value. w counts the writes per slot. */
  method ExpandPoint(srcVerts: seq<Vec3>, expCount: int, i: nat,
                     positions: Float32Attribute, otherPositions: Float32Attribute, miterDir: Float32Attribute)
    returns (ghost w: seq<nat>)
    requires i < |srcVerts| && expCount == |srcVerts| * 4 - 4
    requires Layout(positions, otherPositions, miterDir, expCount)
    modifies positions.data, otherPositions.data, miterDir.data
    ensures |w| == expCount
    ensures forall k :: 0 <= k < expCount ==> w[k] == if SourceIndex(k) == i then 1 else 0
    ensures forall k :: 0 <= k < expCount && SourceIndex(k) == i ==>
      && positions.Xyz(k) == srcVerts[SourceIndex(k)]
      && otherPositions.Xyz(k) == srcVerts[NeighbourIndex(k)]
      && miterDir.data[k] == MiterAt(k)
    ensures forall k :: 0 <= k < expCount && SourceIndex(k) != i ==>
      && positions.Xyz(k) == old(positions.Xyz(k))
      && otherPositions.Xyz(k) == old(otherPositions.Xyz(k))
      && miterDir.data[k] == old(miterDir.data[k])
  {
    w := seq(expCount, _ => 0);
    var myVert := srcVerts[i];
    var baseIdx := i * 4 - 2;
    if baseIdx >= 0 {
      // the end of segment i-1 -> i
      var neighVert := srcVerts[i - 1];
      WriteVertex(positions, otherPositions, miterDir, expCount, baseIdx, myVert, neighVert, 1.0);
      WriteVertex(positions, otherPositions, miterDir, expCount, baseIdx + 1, myVert, neighVert, -1.0);
      w := w[baseIdx := 1][baseIdx + 1 := 1];
    }
    if baseIdx + 3 < expCount {
      // the start of segment i -> i+1
      var neighVert := srcVerts[i + 1];
      WriteVertex(positions, otherPositions, miterDir, expCount, baseIdx + 2, myVert, neighVert, -1.0);
      WriteVertex(positions, otherPositions, miterDir, expCount, baseIdx + 3, myVert, neighVert, 1.0);
      w := w[baseIdx + 2 := 1][baseIdx + 3 := 1];
    }
  }

  /** One iteration of the colour loop: point i writes its colour into the
      slots it owns; every other slot keeps its value. */
  method ColourPoint(srcColors: seq<Vec3>, expCount: int, i: nat, colors: Float32Attribute)
    returns (ghost w: seq<nat>)
    requires i < |srcColors| && expCount == |srcColors| * 4 - 4
    requires colors.itemSize == 3 && colors.data.Length == 3 * expCount
    modifies colors.data
    ensures |w| == expCount
    ensures forall k :: 0 <= k < expCount ==> w[k] == if SourceIndex(k) == i then 1 else 0
    ensures forall k :: 0 <= k < expCount && SourceIndex(k) == i ==> colors.Xyz(k) == srcColors[i]
    ensures forall k :: 0 <= k < expCount && SourceIndex(k) != i ==> colors.Xyz(k) == old(colors.Xyz(k))
  {
    w := seq(expCount, _ => 0);
    var myColor := srcColors[i];
    var baseIdx := i * 4 - 2;
    if baseIdx >= 0 {
      WriteColour(colors, expCount, baseIdx, myColor);
      WriteColour(colors, expCount, baseIdx + 1, myColor);
      w := w[baseIdx := 1][baseIdx + 1 := 1];
    }
    if baseIdx + 3 < expCount {
      WriteColour(colors, expCount, baseIdx + 2, myColor);
      WriteColour(colors, expCount, baseIdx + 3, myColor);
      w := w[baseIdx + 2 := 1][baseIdx + 3 := 1];
    }
  }

  /** The colour loop of fromGeometry: the same slots as ExpandVertices, each
      receiving the colour of the point whose position it carries. */
  method ExpandColours(srcColors: seq<Vec3>, expCount: int, colors: Float32Attribute)
    returns (ghost writes: seq<nat>)
    requires |srcColors| >= 1 && expCount == |srcColors| * 4 - 4
    requires colors.itemSize == 3 && colors.data.Length == 3 * expCount
    requires forall k :: 0 <= k < expCount ==> colors.Xyz(k) == Origin
    modifies colors.data
    ensures HoldsPositions(colors, Ribbon(srcColors))
    ensures |writes| == |Ribbon(srcColors)| && forall k :: 0 <= k < |writes| ==> writes[k] == 1
  {
    writes := seq(expCount, _ => 0);
    var i := 0;
    while i < |srcColors|
      invariant 0 <= i <= |srcColors|
      invariant |writes| == expCount
      invariant forall k :: 0 <= k < expCount ==> writes[k] == if SourceIndex(k) < i then 1 else 0
      invariant forall k :: 0 <= k < expCount && SourceIndex(k) < i ==> colors.Xyz(k) == srcColors[SourceIndex(k)]
      invariant forall k :: 0 <= k < expCount && i <= SourceIndex(k) ==> colors.Xyz(k) == Origin
    {
      ghost var w := ColourPoint(srcColors, expCount, i, colors);
      writes := seq(expCount, k requires 0 <= k < expCount => writes[k] + w[k]);
      i := i + 1;
    }
    forall k | 0 <= k < expCount
      ensures colors.Xyz(k) == Ribbon(srcColors)[k].position
    {
      RibbonAt(srcColors, k);
    }
  }
}
