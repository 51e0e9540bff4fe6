/**
 * `Line`: a two-vertex line list with its own vertex buffer and world
 * matrix; it does not share code with `Shape`.
 */
module LineShape {
  import opened Geometry
  import Alignment

  class Line {
    var vertices: seq<VertexData>
    /** The mapped upload memory of the vertex buffer. */
    var verticesMap: array<VertexData>
    /** `SizeInBytes` and `StrideInBytes` of the vertex buffer view. */
    var sizeInBytes: nat
    var strideInBytes: nat
    var constBufferWidth: nat
    /** The world matrix in the mapped constant buffer. */
    var world: Matrix

    /** A line holds two vertices, both uploaded to the mapped vertex buffer. */
    ghost predicate Valid()
      reads this, verticesMap
    {
      && |vertices| == 2
      && verticesMap[..] == vertices
      && sizeInBytes == 2 * VertexStride
      && strideInBytes == VertexStride
    }

    /**
     * `Line(x1, y1, x2, y2, device)`: a red segment from the origin to
     * (x2 - x1, y2 - y1), translated to (x1, y1, 0) by overwriting the
     * identity that the constant buffer was initialised with.
     */
    constructor (x1: real, y1: real, x2: real, y2: real)
      ensures Valid() && fresh(verticesMap)
      ensures vertices[0] == VertexData(Origin, Red, Float2(0.0, 0.0))
      ensures vertices[1] == VertexData(Float3(x2 - x1, y2 - y1, 0.0), Red, Float2(1.0, 0.0))
      ensures constBufferWidth == 256
      ensures world == Translation(x1, y1, 0.0)
    {
      var vs := [DefaultVertex];
      vs := vs + [DefaultVertex];

      vs := vs[0 := vs[0].(position := Origin)];
      vs := vs[0 := vs[0].(color := Red)];
      vs := vs[0 := vs[0].(uv := Float2(0.0, 0.0))];

      vs := vs[1 := vs[1].(position := Float3(x2 - x1, y2 - y1, 0.0))];
      vs := vs[1 := vs[1].(color := vs[0].color)];
      vs := vs[1 := vs[1].(uv := Float2(1.0, 0.0))];

      vertices := vs;
      verticesMap := new VertexData[0];
      sizeInBytes, strideInBytes := 0, 0;
      constBufferWidth := 0;
      world := Identity;
      new;
      CreateVertexBufferView();
      CreateTransform();
      world := Translation(x1, y1, 0.0);
    }

    /** Copies `vertices` into a new upload buffer that stays mapped. */
    method CreateVertexBufferView()
      modifies this`verticesMap, this`sizeInBytes, this`strideInBytes
      ensures fresh(verticesMap) && verticesMap[..] == vertices
      ensures sizeInBytes == Uint32(VertexStride * |vertices|) && strideInBytes == VertexStride
    {
      var size := VertexStride * |vertices|;
      verticesMap := Upload(vertices);
      sizeInBytes := Uint32(size);
      strideInBytes := VertexStride;
    }

    /** Allocates a 256-byte-aligned constant buffer and writes the identity into it. */
    method CreateTransform()
      modifies this`constBufferWidth, this`world
      ensures constBufferWidth == 256 && world == Identity
    {
      Alignment.MatrixConstantBufferSize();
      constBufferWidth := Alignment.AlignUp256(Alignment.MatrixSize);
      world := Identity;
    }

    /** Records a non-indexed line-list draw over both vertices, one instance. */
    method Draw() returns (call: DrawCall)
      requires Valid()
      ensures call.DrawInstanced? && call.topology == LineList
      ensures call.vertexCount == |vertices| && call.instanceCount == 1
      ensures call.startVertex == 0 && call.startInstance == 0
    {
      call := DrawInstanced(LineList, 2, 1, 0, 0);
    }
  }
}
