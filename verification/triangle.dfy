/**
 * `Triangle`: an isosceles triangle (equilateral when `sqrt3` is the square
 * root of 3) of side `length`, apex down at y = -height/2 and base up at
 * y = height/2, translated to (x, y, 0). The value of `std::sqrtf(3)` is a
 * parameter.
 */
module TriangleShape {
  import opened Geometry
  import opened ShapeBuffers

  /** The index list: the single triangle (0, 1, 2). */
  const TriangleIndices: seq<U16> := [0, 1, 2]

  /** `std::sqrtf(3) / 2.0f * (float)length`. */
  function Height(length: int, sqrt3: real): real
  {
    sqrt3 / 2.0 * length as real
  }

  /** The three vertices the `Triangle` constructor builds. */
  ghost predicate IsTriangleVertices(vertices: seq<VertexData>, length: int, height: real, color: Float3)
  {
    && |vertices| == 3
    && vertices[0] == VertexData(Float3(0.0, -height / 2.0, 0.0), color, Float2(0.5, 0.0))
    && vertices[1] == VertexData(Float3(length as real / 2.0, height / 2.0, 0.0), color, Float2(1.0, 1.0))
    && vertices[2] == VertexData(Float3((-length) as real / 2.0, height / 2.0, 0.0), color, Float2(0.0, 1.0))
  }

  /** Positions and uvs slot by slot, then a loop that colors all three vertices. */
  method TriangleVertices(length: int, sqrt3: real, color: Float3) returns (vertices: seq<VertexData>)
    ensures IsTriangleVertices(vertices, length, Height(length, sqrt3), color)
  {
    var height := Height(length, sqrt3);
    var vs := new VertexData[3](_ => DefaultVertex);
    vs[0] := vs[0].(position := Float3(0.0, -height / 2.0, 0.0));
    vs[1] := vs[1].(position := Float3(length as real / 2.0, height / 2.0, 0.0));
    vs[2] := vs[2].(position := Float3((-length) as real / 2.0, height / 2.0, 0.0));

    vs[0] := vs[0].(uv := Float2(0.5, 0.0));
    vs[1] := vs[1].(uv := Float2(1.0, 1.0));
    vs[2] := vs[2].(uv := Float2(0.0, 1.0));

    var i := 0;
    while i < 3
      invariant 0 <= i <= 3
      invariant vs[0].position == Float3(0.0, -height / 2.0, 0.0) && vs[0].uv == Float2(0.5, 0.0)
      invariant vs[1].position == Float3(length as real / 2.0, height / 2.0, 0.0) && vs[1].uv == Float2(1.0, 1.0)
      invariant vs[2].position == Float3((-length) as real / 2.0, height / 2.0, 0.0) && vs[2].uv == Float2(0.0, 1.0)
      invariant forall k :: 0 <= k < i ==> vs[k].color == color
    {
      vs[i] := vs[i].(color := color);
      i := i + 1;
    }
    vertices := vs[..];
  }

  /**
   * `Triangle(x, y, length, device, color)`: the triangle, stored and
   * uploaded by `CreateShape`, placed by a translation to (x, y, 0).
   */
  method NewTriangle(x: int, y: int, length: int, sqrt3: real, color: Float3) returns (s: Shape)
    ensures fresh(s) && s.Valid()
    ensures IsTriangleVertices(s.vertices, length, Height(length, sqrt3), color)
    ensures s.indices == TriangleIndices
    ensures s.verticesMap[..] == s.vertices && s.indexBuffer[..] == s.indices
    ensures s.position == Translation(x as real, y as real, 0.0)
    ensures s.rotate == Identity && s.scale == Identity
  {
    var vertices := TriangleVertices(length, sqrt3, color);
    var idx := new U16[3](_ => 0);
    idx[0] := 0;
    idx[1] := 1;
    idx[2] := 2;
    s := new Shape();
    s.CreateShape(vertices, idx[..]);
    s.SetTransform(Translation(x as real, y as real, 0.0), Identity, Identity);
  }

  /**
   * Vertices 1 and 2 mirror each other across the y axis at the base,
   * vertex 0 is the apex on the axis, the bounding box is centred on the
   * origin, and the texture spans that box corner to corner.
   */
  lemma TriangleMirroredAndTextured(vertices: seq<VertexData>, length: int, height: real, color: Float3)
    requires IsTriangleVertices(vertices, length, height, color)
    ensures vertices[2].position.x == -vertices[1].position.x
    ensures vertices[1].position.y == vertices[2].position.y == -vertices[0].position.y
    ensures vertices[0].position.x == 0.0
    ensures forall i :: 0 <= i < 3 ==> TextureSpans(vertices[i], length as real / 2.0, height / 2.0)
    ensures forall i :: 0 <= i < 3 ==> vertices[i].color == color
  {
  }

  /** With sqrt3 * sqrt3 == 3, all three sides have length `length`. */
  lemma TriangleEquilateral(vertices: seq<VertexData>, length: int, sqrt3: real, color: Float3)
    requires sqrt3 * sqrt3 == 3.0
    requires IsTriangleVertices(vertices, length, Height(length, sqrt3), color)
    ensures var l2 := (length * length) as real;
      && Distance2(vertices[0].position, vertices[1].position) == l2
      && Distance2(vertices[1].position, vertices[2].position) == l2
      && Distance2(vertices[2].position, vertices[0].position) == l2
  {
    var l, h := length as real, Height(length, sqrt3);
    assert h * h == 3.0 / 4.0 * (l * l) by {
      calc {
        h * h;
        (sqrt3 / 2.0 * l) * (sqrt3 / 2.0 * l);
        (sqrt3 * sqrt3) / 4.0 * (l * l);
      }
    }
  }
}
