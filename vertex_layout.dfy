/** Byte arithmetic of the triangle's vertex data: the Vertex struct (a three-float position
    and a four-float colour), the three-vertex array, the input layout both triangle
    entities give their pipeline, and the vertex-buffer view they bind. */
module VertexLayout {
  import opened Calls

  const FloatSize: nat := 4
  /** sizeof(Float3) and sizeof(Float4). */
  const Float3Size: nat := 3 * FloatSize
  const Float4Size: nat := 4 * FloatSize

  /** sizeof(Vertex): Position then Color, no padding. */
  const VertexStride: nat := Float3Size + Float4Size

  /** The triangle's vertex array has three entries. */
  const TriangleVertexCount: nat := 3

  /** sizeof(Vertices). */
  const VerticesSize: nat := TriangleVertexCount * VertexStride

  /** sizeof(ConstantBufferPayload): one float, Time. */
  const ConstantBufferPayloadSize: nat := FloatSize

  function FormatSize(f: Format): nat {
    match f
    case R32G32B32Float => 3 * FloatSize
    case R32G32B32A32Float => 4 * FloatSize
  }

  /** POSITION as R32G32B32_FLOAT at offset 0, COLOR as R32G32B32A32_FLOAT at offset 12. */
  const InputLayout: seq<InputElement> := [
    InputElement("POSITION", R32G32B32Float, 0),
    InputElement("COLOR", R32G32B32A32Float, 12)
  ]

  /** Each element starts where the previous one ends, the first at offset 0. */
  predicate Packed(layout: seq<InputElement>) {
    (|layout| > 0 ==> layout[0].offset == 0) &&
    forall k :: 0 < k < |layout| ==> layout[k].offset == layout[k - 1].offset + FormatSize(layout[k - 1].format)
  }

  /** Bytes one vertex occupies under a layout. */
  function LayoutSize(layout: seq<InputElement>): nat {
    if layout == [] then 0 else layout[|layout| - 1].offset + FormatSize(layout[|layout| - 1].format)
  }

  /** The input layout describes Vertex exactly: COLOR follows the three-float POSITION with
      no gap, and the layout spans one whole vertex stride. */
  lemma InputLayoutMatchesVertex()
    ensures Packed(InputLayout)
    ensures InputLayout[1].offset == Float3Size
    ensures LayoutSize(InputLayout) == VertexStride
  {
  }

  /** The vertex-buffer view both entities bind: the whole vertex array, one vertex stride. */
  function VertexBufferView(buffer: Ptr): (c: Call)
    ensures c.SetVertexBuffer? && c.buffer == buffer
    ensures c.sizeInBytes == TriangleVertexCount * c.strideInBytes && c.strideInBytes == VertexStride
  {
    SetVertexBuffer(buffer, VerticesSize, VertexStride)
  }

  /** Every draw in a command sequence reads only vertices inside the vertex buffer bound
      most recently before it. */
  predicate DrawsWithinBoundBuffer(cs: seq<Call>) {
    forall j :: 0 <= j < |cs| && cs[j].DrawInstanced? ==>
      exists i :: 0 <= i < j && cs[i].SetVertexBuffer? && cs[i].strideInBytes > 0 &&
        (forall m :: i < m < j ==> !cs[m].SetVertexBuffer?) &&
        cs[j].startVertex + cs[j].vertexCount <= cs[i].sizeInBytes / cs[i].strideInBytes
  }
}
