/**
 * Value types shared by the shapes: the vertex record (`Shape::VertexData`
 * and its identical twin `Line::VertexData`), the transform matrices as
 * symbolic values, index and size types with their C++ widths, and the
 * draw calls a shape records on a command list.
 */
module Geometry {

  datatype Float2 = Float2(x: real, y: real)
  datatype Float3 = Float3(x: real, y: real, z: real)

  const Origin: Float3 := Float3(0.0, 0.0, 0.0)
  const White: Float3 := Float3(1.0, 1.0, 1.0)
  const Red: Float3 := Float3(1.0, 0.0, 0.0)

  /** One vertex as laid out in the vertex buffer: position, color, texture coordinate. */
  datatype VertexData = VertexData(position: Float3, color: Float3, uv: Float2)

  /**
   * A value-initialised `VertexData` (as in `std::vector<VertexData>(n)`):
   * zero position and uv, and the default member initialiser's white color.
   */
  const DefaultVertex: VertexData := VertexData(Origin, White, Float2(0.0, 0.0))

  /**
   * The texture is stretched corner to corner over the rectangle
   * [-halfX, halfX] x [-halfY, halfY] in the plane z = 0: u = 0 and u = 1
   * map to x = -halfX and x = halfX, v = 0 and v = 1 to y = -halfY and y = halfY.
   */
  ghost predicate TextureSpans(v: VertexData, halfX: real, halfY: real)
  {
    v.position == Float3((2.0 * v.uv.x - 1.0) * halfX, (2.0 * v.uv.y - 1.0) * halfY, 0.0)
  }

  /** Squared distance between two positions. */
  function Distance2(a: Float3, b: Float3): real
  {
    (a.x - b.x) * (a.x - b.x) + (a.y - b.y) * (a.y - b.y) + (a.z - b.z) * (a.z - b.z)
  }

  /** `sizeof(VertexData)`: eight 4-byte floats. */
  const VertexStride: nat := 32

  /** `sizeof(unsigned short)`. */
  const IndexSize: nat := 2

  /** A 16-bit vertex index (`unsigned short`). */
  type U16 = x: int | 0 <= x < 0x1_0000

  /** Narrowing a size to a 32-bit `UINT` field keeps the value modulo 2^32. */
  function Uint32(n: nat): (r: nat)
    ensures r < 0x1_0000_0000
    ensures n < 0x1_0000_0000 ==> r == n
  {
    n % 0x1_0000_0000
  }

  /**
   * Transform matrices, kept symbolic: the identity, a translation, or a
   * product the model does not evaluate.
   */
  datatype Matrix =
    | Identity
    | Translation(x: real, y: real, z: real)
    | Product(left: Matrix, right: Matrix)

  /** Matrix product, simplified only where a factor is the identity. */
  function Mul(a: Matrix, b: Matrix): (m: Matrix)
    ensures a == Identity ==> m == b
    ensures b == Identity ==> m == a
  {
    if a == Identity then b
    else if b == Identity then a
    else Product(a, b)
  }

  datatype Topology = TriangleList | LineList

  /** The draw commands recorded by `Shape::Draw` and `Line::Draw`. */
  datatype DrawCall =
    | DrawIndexedInstanced(topology: Topology, indexCount: nat, instanceCount: nat,
                           startIndex: nat, baseVertex: int, startInstance: nat)
    | DrawInstanced(topology: Topology, vertexCount: nat, instanceCount: nat,
                    startVertex: nat, startInstance: nat)

  /**
   * `std::copy` into freshly mapped upload memory: the mapped array holds
   * exactly the source elements afterwards. Its previous contents are
   * whatever the allocation left there.
   */
  method Upload<T(0)>(source: seq<T>) returns (mapped: array<T>)
    ensures fresh(mapped)
    ensures mapped[..] == source
  {
    mapped := new T[|source|];
    var i := 0;
    while i < |source|
      invariant 0 <= i <= |source|
      invariant forall k :: 0 <= k < i ==> mapped[k] == source[k]
    {
      mapped[i] := source[i];
      i := i + 1;
    }
  }
}
