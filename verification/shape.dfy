/**
 * The CPU side of `Shape`: the vertex and index lists it was created from,
 * the upload buffers they are copied into, the buffer views, the world
 * transform and the indexed draw it records. GPU resources themselves
 * (heaps, descriptors, GPU addresses) are not modelled.
 */
module ShapeBuffers {
  import opened Geometry
  import Alignment

  datatype VertexBufferView = VertexBufferView(sizeInBytes: nat, strideInBytes: nat)

  datatype IndexFormat = R16Uint

  datatype IndexBufferView = IndexBufferView(format: IndexFormat, sizeInBytes: nat)

  class Shape {
    /** The vertices and indices the shape was created from. */
    var vertices: seq<VertexData>
    var indices: seq<U16>

    /** The mapped upload memory of the vertex buffer; it stays mapped. */
    var verticesMap: array<VertexData>
    /** The upload memory of the index buffer, written once and unmapped. */
    var indexBuffer: array<U16>

    var vertexBufferView: VertexBufferView
    var indexBufferView: IndexBufferView

    /** Width of the constant buffer that holds the world matrix. */
    var constBufferWidth: nat
    /** The world matrix as seen by the shader through the mapped constant buffer. */
    var world: Matrix

    var position: Matrix
    var rotate: Matrix
    var scale: Matrix

    /** The mapped vertex buffer has one slot per stored vertex. */
    ghost predicate Valid()
      reads this
    {
      verticesMap.Length == |vertices|
    }

    /**
     * `Shape()` does nothing; fields the C++ leaves uninitialised start out
     * empty or as the identity here.
     */
    constructor ()
      ensures Valid()
      ensures vertices == [] && indices == []
    {
      vertices := [];
      indices := [];
      verticesMap := new VertexData[0];
      indexBuffer := new U16[0];
      vertexBufferView := VertexBufferView(0, 0);
      indexBufferView := IndexBufferView(R16Uint, 0);
      constBufferWidth := 0;
      world := Identity;
      position := Identity;
      rotate := Identity;
      scale := Identity;
    }

    /**
     * Stores the lists verbatim, then builds the vertex buffer, the index
     * buffer and the world-matrix constant buffer from the stored lists.
     */
    method CreateShape(vertex: seq<VertexData>, index: seq<U16>)
      modifies this
      ensures Valid()
      ensures vertices == vertex && indices == index
      ensures fresh(verticesMap) && verticesMap[..] == vertex
      ensures fresh(indexBuffer) && indexBuffer[..] == index
      ensures vertexBufferView == VertexBufferView(Uint32(VertexStride * |vertex|), VertexStride)
      ensures indexBufferView == IndexBufferView(R16Uint, Uint32(IndexSize * |index|))
      ensures constBufferWidth == 256 && world == Identity
      ensures position == old(position) && rotate == old(rotate) && scale == old(scale)
    {
      vertices := vertex;
      indices := index;

      CreateVertexBufferView();
      CreateIndexBufferView();
      CreateTransform();
    }

    /** Copies `vertices` into a new upload buffer that stays mapped. */
    method CreateVertexBufferView()
      modifies this`verticesMap, this`vertexBufferView
      ensures fresh(verticesMap) && verticesMap[..] == vertices
      ensures vertexBufferView.sizeInBytes == Uint32(VertexStride * |vertices|)
      ensures vertexBufferView.strideInBytes == VertexStride
    {
      var size := VertexStride * |vertices|;
      verticesMap := Upload(vertices);
      vertexBufferView := VertexBufferView(Uint32(size), VertexStride);
    }

    /** Copies `indices` into a new upload buffer of 16-bit indices. */
    method CreateIndexBufferView()
      modifies this`indexBuffer, this`indexBufferView
      ensures fresh(indexBuffer) && indexBuffer[..] == indices
      ensures indexBufferView == IndexBufferView(R16Uint, Uint32(IndexSize * |indices|))
    {
      var size := IndexSize * |indices|;
      indexBuffer := Upload(indices);
      indexBufferView := IndexBufferView(R16Uint, Uint32(size));
    }

    /** Allocates a 256-byte-aligned constant buffer and writes the identity into it. */
    method CreateTransform()
      modifies this`constBufferWidth, this`world
      ensures constBufferWidth % 256 == 0 && Alignment.MatrixSize <= constBufferWidth
      ensures constBufferWidth == 256 && world == Identity
    {
      Alignment.MatrixConstantBufferSize();
      Alignment.AlignUp256Bounds(Alignment.MatrixSize);
      constBufferWidth := Alignment.AlignUp256(Alignment.MatrixSize);
      world := Identity;
    }

    /**
     * Uploads `scale * rotate * position` as the world matrix and records one
     * instance of an indexed triangle-list draw over every stored index.
     */
    method Draw() returns (call: DrawCall)
      modifies this`world
      ensures world == Mul(Mul(scale, rotate), position)
      ensures call.DrawIndexedInstanced? && call.topology == TriangleList
      ensures call.indexCount == Uint32(|indices|) && call.instanceCount == 1
      ensures call.startIndex == 0 && call.baseVertex == 0 && call.startInstance == 0
    {
      world := Mul(Mul(scale, rotate), position);
      call := DrawIndexedInstanced(TriangleList, Uint32(|indices|), 1, 0, 0, 0);
    }

    method SetTransform(position: Matrix, rotation: Matrix, scale: Matrix)
      modifies this`position, this`rotate, this`scale
      ensures this.position == position && rotate == rotation && this.scale == scale
    {
      this.position := position;
      rotate := rotation;
      this.scale := scale;
    }

    /**
     * Rewrites the texture coordinate of every mapped vertex in place, one
     * per stored vertex; positions and colors in the mapped buffer, and the
     * stored vertex list, stay as they were.
     */
    method SetUV(uv: seq<Float2>)
      requires Valid()
      requires |uv| >= |vertices|
      modifies verticesMap
      ensures forall i :: 0 <= i < verticesMap.Length ==>
        && verticesMap[i].uv == uv[i]
        && verticesMap[i].position == old(verticesMap[i].position)
        && verticesMap[i].color == old(verticesMap[i].color)
    {
      var i := 0;
      while i < |vertices|
        invariant 0 <= i <= |vertices|
        invariant forall k :: 0 <= k < i ==>
          verticesMap[k] == old(verticesMap[k]).(uv := uv[k])
        invariant forall k :: i <= k < verticesMap.Length ==>
          verticesMap[k] == old(verticesMap[k])
      {
        verticesMap[i] := verticesMap[i].(uv := Float2(uv[i].x, uv[i].y));
        i := i + 1;
      }
    }

    /** The texture coordinates of the stored vertices (not of the mapped copy). */
    method GetUV() returns (result: seq<Float2>)
      ensures |result| == |vertices|
      ensures forall i :: 0 <= i < |vertices| ==> result[i] == vertices[i].uv
    {
      var buffer := new Float2[|vertices|];
      var i := 0;
      while i < |vertices|
        invariant 0 <= i <= |vertices|
        invariant forall k :: 0 <= k < i ==> buffer[k] == vertices[k].uv
      {
        buffer[i] := vertices[i].uv;
        i := i + 1;
      }
      result := buffer[..];
    }
  }

  /**
   * `GetUV` is unaffected by `SetUV`: `SetUV` writes only the mapped copy,
   * so the texture coordinates read back are those the shape was created with.
   */
  method SetThenGetUV(s: Shape, uv: seq<Float2>) returns (before: seq<Float2>, after: seq<Float2>)
    requires s.Valid() && |uv| >= |s.vertices|
    modifies s.verticesMap
    ensures |before| == |after| == |s.vertices|
    ensures forall i :: 0 <= i < |s.vertices| ==> before[i] == after[i] == s.vertices[i].uv
  {
    before := s.GetUV();
    s.SetUV(uv);
    after := s.GetUV();
  }
}
