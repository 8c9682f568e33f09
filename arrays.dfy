/**
 * The vertex layout bookkeeping of src/renderer/arrays.h and arrays.cpp: a
 * `VertexBufferLayout` is an append-only list of vertex attributes with a
 * running stride, and `VertexArray::AddBuffer` hands the attributes to the
 * GPU at locations 0, 1, 2, ... with byte offsets that are the prefix sums
 * of the attribute sizes.
 */
module VertexLayout {
  import opened CppInt
  import opened WorldTypes

  type uint8 = x: int | 0 <= x < 0x100
  type uint32 = x: int | 0 <= x < 0x1_0000_0000
  type uint64 = x: int | 0 <= x < 0x1_0000_0000_0000_0000

  const GL_FALSE: uint8 := 0
  const GL_TRUE: uint8 := 1
  const GL_UNSIGNED_BYTE: uint32 := 0x1401
  const GL_UNSIGNED_INT: uint32 := 0x1405
  const GL_FLOAT: uint32 := 0x1406

  /** `VertexAttribute`: the GL component type, the component count and the normalisation flag. */
  datatype VertexAttribute = VertexAttribute(glType: uint32, count: uint32, normalized: uint8)

  /** `VertexAttribute::GetSizeOfType`: the byte size of one component of a GL type, 0 for any other type. */
  function GetSizeOfType(glType: uint32): (n: uint32)
    ensures glType == GL_FLOAT || glType == GL_UNSIGNED_INT ==> n == 4
    ensures glType == GL_UNSIGNED_BYTE ==> n == 1
    ensures n == 0 <==> glType !in {GL_FLOAT, GL_UNSIGNED_INT, GL_UNSIGNED_BYTE}
  {
    match glType
    case 0x1406 => 4
    case 0x1405 => 4
    case 0x1401 => 1
    case _ => 0
  }

  /** The bytes one attribute takes in a vertex. */
  function AttributeSize(a: VertexAttribute): nat {
    a.count * GetSizeOfType(a.glType)
  }

  /** The bytes a list of attributes takes in a vertex, without wrap-around. */
  function LayoutBytes(attributes: seq<VertexAttribute>): nat
    decreases |attributes|
  {
    if attributes == [] then 0
    else LayoutBytes(attributes[..|attributes| - 1]) + AttributeSize(attributes[|attributes| - 1])
  }

  /** Adding an attribute adds its size. */
  lemma LayoutBytesAppend(attributes: seq<VertexAttribute>, a: VertexAttribute)
    ensures LayoutBytes(attributes + [a]) == LayoutBytes(attributes) + AttributeSize(a)
  {
    assert (attributes + [a])[..|attributes|] == attributes;
  }

  /** The `std::runtime_error` the generic `Push` throws, with its message. */
  datatype PushError = RuntimeError(message: string)

  /** `VertexBufferLayout`: the attribute list and the stride, the sum of the attribute sizes as `unsigned int`. */
  class VertexBufferLayout {
    var attributes: seq<VertexAttribute>
    var stride: uint32

    /** The stride is the total size of the attributes, wrapped to 32 bits. */
    ghost predicate Valid()
      reads this
    {
      stride == WrapU32(LayoutBytes(attributes))
    }

    /** A new layout: no attributes, stride 0. */
    constructor ()
      ensures Valid() && attributes == [] && stride == 0
    {
      attributes, stride := [], 0;
    }

    /** `GetElements`: the attributes in the order they were pushed, whose sizes sum to the stride. */
    function GetElements(): (elements: seq<VertexAttribute>)
      reads this
      ensures Valid() ==> WrapU32(LayoutBytes(elements)) == stride
    {
      attributes
    }

    /** `GetStride`: the bytes of one vertex, the attribute sizes summed as `unsigned int`. */
    function GetStride(): (s: uint32)
      reads this
      ensures Valid() ==> s == WrapU32(LayoutBytes(attributes))
    {
      stride
    }

    /** Appends attribute `a`, adding its size to the stride in 32-bit arithmetic. */
    method Append(a: VertexAttribute)
      requires Valid()
      modifies this
      ensures Valid()
      ensures attributes == old(attributes) + [a]
      ensures stride == WrapU32(old(stride) + AttributeSize(a))
    {
      LayoutBytesAppend(attributes, a);
      WrapU32Add(LayoutBytes(attributes), AttributeSize(a));
      attributes := attributes + [a];
      stride := WrapU32(stride + AttributeSize(a));
    }

    /** `Push<float>`: `count` unnormalised floats, 4 bytes each. */
    method PushFloat(count: uint32)
      requires Valid()
      modifies this
      ensures Valid()
      ensures attributes == old(attributes) + [VertexAttribute(GL_FLOAT, count, GL_FALSE)]
      ensures stride == WrapU32(old(stride) + 4 * count)
    {
      Append(VertexAttribute(GL_FLOAT, count, GL_FALSE));
    }

    /** `Push<unsigned int>`: `count` unnormalised unsigned ints, 4 bytes each. */
    method PushUnsignedInt(count: uint32)
      requires Valid()
      modifies this
      ensures Valid()
      ensures attributes == old(attributes) + [VertexAttribute(GL_UNSIGNED_INT, count, GL_FALSE)]
      ensures stride == WrapU32(old(stride) + 4 * count)
    {
      Append(VertexAttribute(GL_UNSIGNED_INT, count, GL_FALSE));
    }

    /** `Push<unsigned char>`: `count` bytes, the only kind normalised to [0, 1]. */
    method PushUnsignedChar(count: uint32)
      requires Valid()
      modifies this
      ensures Valid()
      ensures attributes == old(attributes) + [VertexAttribute(GL_UNSIGNED_BYTE, count, GL_TRUE)]
      ensures stride == WrapU32(old(stride) + count)
    {
      Append(VertexAttribute(GL_UNSIGNED_BYTE, count, GL_TRUE));
    }

    /** The generic `Push<T>` for any other T: throws, and the layout is left as it was. */
    method PushUnsupported(count: uint32) returns (e: PushError)
      ensures e == RuntimeError("unsupported vertex attribute type pushed")
    {
      e := RuntimeError("unsupported vertex attribute type pushed");
    }
  }

  /** The arguments of one `glVertexAttribPointer` call. */
  datatype AttributePointer = AttributePointer(
    location: uint32, count: uint32, glType: uint32, normalized: uint8, stride: uint32, offset: uint64)

  /**
   * The offset `AddBuffer` accumulates over a list of attributes: each step
   * adds `count * GetSizeOfType(type)`, computed as `unsigned int`.
   */
  function OffsetBytes(attributes: seq<VertexAttribute>): nat
    decreases |attributes|
  {
    if attributes == [] then 0
    else OffsetBytes(attributes[..|attributes| - 1]) + WrapU32(AttributeSize(attributes[|attributes| - 1]))
  }

  /** The pointer `AddBuffer` sets for attribute i. */
  function PointerAt(elements: seq<VertexAttribute>, stride: uint32, i: nat): AttributePointer
    requires i < |elements| < U32
  {
    var e := elements[i];
    AttributePointer(i, e.count, e.glType, e.normalized, stride, WrapU64(OffsetBytes(elements[..i])))
  }

  /**
   * The attribute loop of `VertexArray::AddBuffer` over `layout.GetElements()`
   * with stride `layout.GetStride()`: attribute i goes to location i at the
   * accumulated `size_t` offset. Also returns the offset after the loop.
   */
  method AddBuffer(layout: VertexBufferLayout) returns (pointers: seq<AttributePointer>, offset: uint64)
    requires |layout.GetElements()| < U32
    ensures |pointers| == |layout.GetElements()|
    ensures forall i :: 0 <= i < |layout.GetElements()| ==>
      pointers[i] == PointerAt(layout.GetElements(), layout.GetStride(), i)
    ensures offset == WrapU64(OffsetBytes(layout.GetElements()))
    ensures layout.Valid() && LayoutBytes(layout.GetElements()) < U32 ==> offset == layout.GetStride()
  {
    var elements := layout.GetElements();
    var stride := layout.GetStride();
    pointers, offset := [], 0;
    for i := 0 to |elements|
      invariant |pointers| == i
      invariant forall k :: 0 <= k < i ==> pointers[k] == PointerAt(elements, stride, k)
      invariant offset == WrapU64(OffsetBytes(elements[..i]))
    {
      var element := elements[i];
      pointers := pointers + [AttributePointer(i, element.count, element.glType, element.normalized, stride, offset)];
      assert elements[..i + 1][..i] == elements[..i];
      WrapU64Add(OffsetBytes(elements[..i]), WrapU32(element.count * GetSizeOfType(element.glType)));
      offset := WrapU64(offset + WrapU32(element.count * GetSizeOfType(element.glType)));
    }
    assert elements[..|elements|] == elements;
    if layout.Valid() && LayoutBytes(elements) < U32 {
      FinalOffsetIsStride(layout);
    }
  }

  /** The offsets wrap to the same 32-bit value as the layout size, that is, to the stride. */
  lemma {:induction false} OffsetMatchesStride(attributes: seq<VertexAttribute>)
    ensures WrapU32(OffsetBytes(attributes)) == WrapU32(LayoutBytes(attributes))
    decreases |attributes|
  {
    if attributes != [] {
      var front, size := attributes[..|attributes| - 1], AttributeSize(attributes[|attributes| - 1]);
      OffsetMatchesStride(front);
      calc {
        WrapU32(OffsetBytes(attributes));
        WrapU32(WrapU32(size) + OffsetBytes(front));
        { WrapU32Add(size, OffsetBytes(front)); }
        WrapU32(OffsetBytes(front) + size);
        { WrapU32Add(OffsetBytes(front), size); }
        WrapU32(WrapU32(OffsetBytes(front)) + size);
        WrapU32(WrapU32(LayoutBytes(front)) + size);
        { WrapU32Add(LayoutBytes(front), size); }
        WrapU32(LayoutBytes(attributes));
      }
    }
  }

  /** Below 4 GiB per vertex nothing wraps: the offsets are the exact prefix sums of the attribute sizes. */
  lemma {:induction false} OffsetIsLayoutBytes(attributes: seq<VertexAttribute>)
    requires LayoutBytes(attributes) < U32
    ensures OffsetBytes(attributes) == LayoutBytes(attributes)
    decreases |attributes|
  {
    if attributes != [] {
      OffsetIsLayoutBytes(attributes[..|attributes| - 1]);
    }
  }

  /**
   * After the loop of `AddBuffer` on a layout built by its `Push` methods,
   * the accumulated offset equals the stride, so the attributes exactly
   * tile each vertex.
   */
  lemma FinalOffsetIsStride(layout: VertexBufferLayout)
    requires layout.Valid() && LayoutBytes(layout.attributes) < U32
    ensures WrapU64(OffsetBytes(layout.attributes)) == layout.stride
  {
    OffsetIsLayoutBytes(layout.attributes);
  }

  /** The layout `CreateChunkMesh` pushes: one float attribute per `BlockVertex` field. */
  method MeshLayout() returns (layout: VertexBufferLayout)
    ensures fresh(layout) && layout.Valid()
    ensures |layout.attributes| == |BlockVertexComponents|
    ensures forall i :: 0 <= i < |BlockVertexComponents| ==>
      layout.attributes[i] == VertexAttribute(GL_FLOAT, BlockVertexComponents[i], GL_FALSE)
    ensures layout.stride == 44
  {
    layout := new VertexBufferLayout();
    layout.PushFloat(3);
    layout.PushFloat(3);
    layout.PushFloat(3);
    layout.PushFloat(2);
  }

  /** The mesh's attributes sit at byte offsets 0, 12, 24 and 36 of a 44-byte vertex. */
  lemma MeshLayoutOffsets()
    ensures var mesh := seq(4, i requires 0 <= i < 4 => VertexAttribute(GL_FLOAT, BlockVertexComponents[i], GL_FALSE));
      && OffsetBytes(mesh[..0]) == 0 && OffsetBytes(mesh[..1]) == 12
      && OffsetBytes(mesh[..2]) == 24 && OffsetBytes(mesh[..3]) == 36
      && OffsetBytes(mesh) == LayoutBytes(mesh) == 44
  {
    var mesh := seq(4, i requires 0 <= i < 4 => VertexAttribute(GL_FLOAT, BlockVertexComponents[i], GL_FALSE));
    assert mesh[..4] == mesh;
    assert mesh[..3][..2] == mesh[..2] && mesh[..2][..1] == mesh[..1] && mesh[..1][..0] == mesh[..0];
    assert LayoutBytes(mesh[..1]) == 12;
    assert LayoutBytes(mesh[..2]) == 24;
    assert LayoutBytes(mesh[..3]) == 36;
  }
}
