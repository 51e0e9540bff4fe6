/**
 * `Circle`: a triangle fan of 360 one-degree slices around a center vertex.
 * Vertex 0 is the center, vertices 1..360 lie on the rim at 1..360 degrees,
 * and vertex 361 repeats vertex 1. The sine and cosine of each degree are
 * supplied by the caller, standing in for `XMScalarSin`/`XMScalarCos`.
 */
module CircleShape {
  import opened Geometry
  import opened ShapeBuffers

  const VertexCount: nat := 362
  const SliceCount: nat := 360
  const IndexCount: nat := 1080

  /** The vertex indices of slice t of the fan: the center and two rim vertices. */
  function FanTriangle(t: nat): (tri: (U16, U16, U16))
    requires t < SliceCount
  {
    if t < 359 then (0, t + 1, t + 2) else (0, 360, 1)
  }

  /** Index slot j of the index buffer: corner j % 3 of slice j / 3. */
  function FanIndex(j: nat): U16
    requires j < IndexCount
  {
    var tri := FanTriangle(j / 3);
    if j % 3 == 0 then tri.0 else if j % 3 == 1 then tri.1 else tri.2
  }

  const Center: Float2 := Float2(0.5, 0.5)

  /** Rim vertex k: on the circle of the given radius, with matching texture coordinate. */
  function RimVertex(k: nat, r: int, color: Float3, sin: nat -> real, cos: nat -> real): VertexData
  {
    VertexData(Float3(cos(k) * r as real, sin(k) * r as real, 0.0), color,
               Float2((cos(k) + 1.0) / 2.0, (sin(k) + 1.0) / 2.0))
  }

  /** The vertex and index lists the `Circle` constructor hands to `CreateShape`. */
  ghost predicate IsCircle(vertices: seq<VertexData>, indices: seq<U16>, r: int, color: Float3,
                           sin: nat -> real, cos: nat -> real)
  {
    && |vertices| == VertexCount
    && |indices| == IndexCount
    && vertices[0] == VertexData(Origin, color, Center)
    && (forall k :: 1 <= k <= 360 ==> vertices[k] == RimVertex(k, r, color, sin, cos))
    && vertices[361] == vertices[1]
    && (forall j :: 0 <= j < IndexCount ==> indices[j] == FanIndex(j))
  }

  /** The 362 vertices, filled slot by slot; slot 361 is patched with a copy of slot 1. */
  method CircleVertices(r: int, color: Float3, sin: nat -> real, cos: nat -> real)
    returns (vertices: seq<VertexData>)
    ensures |vertices| == VertexCount
    ensures vertices[0] == VertexData(Origin, color, Center)
    ensures forall k :: 1 <= k <= 360 ==> vertices[k] == RimVertex(k, r, color, sin, cos)
    ensures vertices[361] == vertices[1]
  {
    var vs := new VertexData[VertexCount](_ => DefaultVertex);
    vs[0] := VertexData(Origin, color, Center);

    var i := 1;
    while i < 361
      invariant 1 <= i <= 361
      invariant vs[0] == VertexData(Origin, color, Center)
      invariant forall k :: 1 <= k < i ==> vs[k] == RimVertex(k, r, color, sin, cos)
    {
      var s := sin(i);
      var c := cos(i);
      vs[i] := VertexData(Float3(c * r as real, s * r as real, 0.0), color,
                          Float2((c + 1.0) / 2.0, (s + 1.0) / 2.0));
      i := i + 1;
    }
    vs[361] := vs[1];
    vertices := vs[..];
  }

  /** The 1080 indices: 359 slices written by the loop, then the closing slice. */
  method CircleIndices() returns (indices: seq<U16>)
    ensures |indices| == IndexCount
    ensures forall j :: 0 <= j < IndexCount ==> indices[j] == FanIndex(j)
  {
    var idx := new U16[IndexCount](_ => 0);
    var i := 0;
    while i < 359
      invariant 0 <= i <= 359
      invariant forall j :: 0 <= j < 3 * i ==> idx[j] == FanIndex(j)
    {
      idx[i * 3] := 0;
      idx[i * 3 + 1] := i + 1;
      idx[i * 3 + 2] := i + 2;
      i := i + 1;
    }
    idx[359 * 3] := 0;
    idx[359 * 3 + 1] := 360;
    idx[359 * 3 + 2] := 1;
    indices := idx[..];
  }

  /**
   * `Circle(x, y, r, device, color)`: the fan, stored and uploaded by
   * `CreateShape`, placed by a translation to (x, y, 0).
   */
  method NewCircle(x: int, y: int, r: int, color: Float3, sin: nat -> real, cos: nat -> real)
    returns (s: Shape)
    ensures fresh(s) && s.Valid()
    ensures IsCircle(s.vertices, s.indices, r, color, sin, cos)
    ensures s.verticesMap[..] == s.vertices && s.indexBuffer[..] == s.indices
    ensures s.position == Translation(x as real, y as real, 0.0)
    ensures s.rotate == Identity && s.scale == Identity
  {
    var vertices := CircleVertices(r, color, sin, cos);
    var indices := CircleIndices();
    s := new Shape();
    s.CreateShape(vertices, indices);
    s.SetTransform(Translation(x as real, y as real, 0.0), Identity, Identity);
  }

  /** Every index refers to one of vertices 0..360, all inside the 362-vertex buffer. */
  lemma FanIndicesInBounds()
    ensures forall j :: 0 <= j < IndexCount ==> 0 <= FanIndex(j) <= 360 < VertexCount
  {
  }

  /** Every slice starts at the center vertex and spans two distinct rim vertices. */
  lemma FanSlicesAroundCenter()
    ensures forall t :: 0 <= t < SliceCount ==>
      var tri := FanTriangle(t);
      tri.0 == 0 && 1 <= tri.1 <= 360 && 1 <= tri.2 <= 360 && tri.1 != tri.2
  {
  }

  /**
   * The fan closes: each slice ends on the rim vertex where the next one
   * begins, and the last slice ends back on vertex 1 where the first begins.
   */
  lemma FanCloses()
    ensures forall t :: 0 <= t < SliceCount - 1 ==> FanTriangle(t).2 == FanTriangle(t + 1).1
    ensures FanTriangle(SliceCount - 1).2 == FanTriangle(0).1
  {
  }

  /** Some slot of the index buffer refers to vertex v. */
  ghost predicate Referenced(v: int)
  {
    exists j :: 0 <= j < IndexCount && FanIndex(j) == v
  }

  /** Vertices 0..360 are each used by some index; vertex 361 by none. */
  lemma FanVertexUse()
    ensures forall v :: 0 <= v <= 360 ==> Referenced(v)
    ensures !Referenced(361)
  {
    forall v | 0 <= v <= 360
      ensures Referenced(v)
    {
      if v == 0 {
        assert FanIndex(0) == 0;
      } else if v < 360 {
        assert FanIndex(3 * (v - 1) + 1) == v;
      } else {
        assert FanIndex(1078) == 360;
      }
    }
  }

  /**
   * When sine and cosine behave as such (each within [-1, 1] and their
   * squares summing to 1), every rim vertex lies on the circle of radius r
   * and its texture coordinate lies in the unit square.
   */
  lemma RimOnCircle(k: nat, r: int, color: Float3, sin: nat -> real, cos: nat -> real)
    requires -1.0 <= sin(k) <= 1.0 && -1.0 <= cos(k) <= 1.0
    requires sin(k) * sin(k) + cos(k) * cos(k) == 1.0
    ensures var v := RimVertex(k, r, color, sin, cos);
      && v.position.x * v.position.x + v.position.y * v.position.y == (r * r) as real
      && 0.0 <= v.uv.x <= 1.0 && 0.0 <= v.uv.y <= 1.0
  {
    var s, c, rr := sin(k), cos(k), r as real;
    calc {
      (c * rr) * (c * rr) + (s * rr) * (s * rr);
      (c * c + s * s) * (rr * rr);
      rr * rr;
    }
  }
}
