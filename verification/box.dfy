/**
 * `Box`: a rectangle of two triangles over four corner vertices, centred on
 * its own origin and translated to its start corner.
 */
module BoxShape {
  import opened Geometry
  import opened ShapeBuffers

  /** The index list: triangles (0, 1, 2) and (1, 3, 2). */
  const QuadIndices: seq<U16> := [0, 1, 2, 1, 3, 2]

  /** Half the width and half the height, as `(float)(e - s) / 2.0f`. */
  function Half(s: int, e: int): real
  {
    (e - s) as real / 2.0
  }

  /** The four vertices the `Box` constructor builds. */
  ghost predicate IsBoxVertices(vertices: seq<VertexData>, halfX: real, halfY: real, color: Float3)
  {
    && |vertices| == 4
    && vertices[0] == VertexData(Float3(-halfX, halfY, 0.0), color, Float2(0.0, 1.0))
    && vertices[1] == VertexData(Float3(halfX, halfY, 0.0), color, Float2(1.0, 1.0))
    && vertices[2] == VertexData(Float3(-halfX, -halfY, 0.0), color, Float2(0.0, 0.0))
    && vertices[3] == VertexData(Float3(halfX, -halfY, 0.0), color, Float2(1.0, 0.0))
  }

  /** Positions and uvs slot by slot, then a loop that colors all four vertices. */
  method BoxVertices(sx: int, sy: int, ex: int, ey: int, color: Float3)
    returns (vertices: seq<VertexData>)
    ensures IsBoxVertices(vertices, Half(sx, ex), Half(sy, ey), color)
  {
    var vs := new VertexData[4](_ => DefaultVertex);
    var halfX := Half(sx, ex);
    var halfY := Half(sy, ey);

    vs[0] := vs[0].(position := Float3(-halfX, halfY, 0.0));
    vs[1] := vs[1].(position := Float3(halfX, halfY, 0.0));
    vs[2] := vs[2].(position := Float3(-halfX, -halfY, 0.0));
    vs[3] := vs[3].(position := Float3(halfX, -halfY, 0.0));

    vs[0] := vs[0].(uv := Float2(0.0, 1.0));
    vs[1] := vs[1].(uv := Float2(1.0, 1.0));
    vs[2] := vs[2].(uv := Float2(0.0, 0.0));
    vs[3] := vs[3].(uv := Float2(1.0, 0.0));

    var i := 0;
    while i < 4
      invariant 0 <= i <= 4
      invariant vs[0].position == Float3(-halfX, halfY, 0.0) && vs[0].uv == Float2(0.0, 1.0)
      invariant vs[1].position == Float3(halfX, halfY, 0.0) && vs[1].uv == Float2(1.0, 1.0)
      invariant vs[2].position == Float3(-halfX, -halfY, 0.0) && vs[2].uv == Float2(0.0, 0.0)
      invariant vs[3].position == Float3(halfX, -halfY, 0.0) && vs[3].uv == Float2(1.0, 0.0)
      invariant forall k :: 0 <= k < i ==> vs[k].color == color
    {
      vs[i] := vs[i].(color := color);
      i := i + 1;
    }
    vertices := vs[..];
  }

  /** The six indices, slot by slot. */
  method BoxIndices() returns (indices: seq<U16>)
    ensures indices == QuadIndices
  {
    var idx := new U16[6](_ => 0);
    idx[0] := 0;
    idx[1] := 1;
    idx[2] := 2;
    idx[3] := 1;
    idx[4] := 3;
    idx[5] := 2;
    indices := idx[..];
  }

  /**
   * `Box(sx, sy, ex, ey, device, color)`: the quad, stored and uploaded by
   * `CreateShape`, placed by a translation to (sx, sy, 0). The C++ default
   * color is white.
   */
  method NewBox(sx: int, sy: int, ex: int, ey: int, color: Float3) returns (s: Shape)
    ensures fresh(s) && s.Valid()
    ensures IsBoxVertices(s.vertices, Half(sx, ex), Half(sy, ey), color)
    ensures s.indices == QuadIndices
    ensures s.verticesMap[..] == s.vertices && s.indexBuffer[..] == s.indices
    ensures s.position == Translation(sx as real, sy as real, 0.0)
    ensures s.rotate == Identity && s.scale == Identity
  {
    var vertices := BoxVertices(sx, sy, ex, ey, color);
    var indices := BoxIndices();
    s := new Shape();
    s.CreateShape(vertices, indices);
    s.SetTransform(Translation(sx as real, sy as real, 0.0), Identity, Identity);
  }

  /**
   * The quad's topology: both triangles use in-range, distinct vertices,
   * every vertex is used, and the triangles share exactly the diagonal 1-2.
   */
  lemma QuadTopology()
    ensures |QuadIndices| == 6
    ensures forall j :: 0 <= j < 6 ==> QuadIndices[j] < 4
    ensures forall v :: 0 <= v < 4 ==> v in QuadIndices
    ensures multiset(QuadIndices[..3]) == multiset{0, 1, 2}
    ensures multiset(QuadIndices[3..]) == multiset{1, 2, 3}
  {
    assert QuadIndices[..3] == [0, 1, 2];
    assert QuadIndices[3..] == [1, 3, 2];
  }

  /**
   * The corners are symmetric about the origin (opposite corners 0-3 and
   * 1-2 are negations of each other), and the texture spans the rectangle
   * corner to corner.
   */
  lemma BoxSymmetricAndTextured(vertices: seq<VertexData>, halfX: real, halfY: real, color: Float3)
    requires IsBoxVertices(vertices, halfX, halfY, color)
    ensures forall i :: 0 <= i < 4 ==>
      && vertices[3 - i].position.x == -vertices[i].position.x
      && vertices[3 - i].position.y == -vertices[i].position.y
    ensures forall i :: 0 <= i < 4 ==> TextureSpans(vertices[i], halfX, halfY)
    ensures forall i :: 0 <= i < 4 ==> vertices[i].color == color
  {
  }
}
