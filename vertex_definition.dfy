/** The vertex layout of the terrain mesh (Willow/VertexDefinition.cs,
    `VertexPositionNormalTextureHeight`): position, normal, texture
    coordinate, height, slope and tangent, packed as 32-bit floats. */
module VertexDefinitions {

  datatype ElementFormat = Single | Vector2 | Vector3 | Vector4

  datatype ElementUsage = Position | Normal | TextureCoordinate | Tangent

  /** One vertex element: its byte offset, format, usage and usage index. */
  datatype VertexElement = VertexElement(offset: int, format: ElementFormat, usage: ElementUsage, usageIndex: nat)

  /** `sizeof(float)`. */
  const FloatSize := 4

  /** How many floats a format takes. */
  function Floats(f: ElementFormat): (n: nat)
    ensures 1 <= n <= 4
  {
    match f
    case Single => 1
    case Vector2 => 2
    case Vector3 => 3
    case Vector4 => 4
  }

  function Bytes(e: VertexElement): int {
    FloatSize * Floats(e.format)
  }

  /** The element table, in the order of the struct's fields. */
  const VertexElements: seq<VertexElement> := [
    VertexElement(FloatSize * 0, Vector3, Position, 0),
    VertexElement(FloatSize * 3, Vector3, Normal, 0),
    VertexElement(FloatSize * 6, Vector2, TextureCoordinate, 0),
    VertexElement(FloatSize * 8, Single, TextureCoordinate, 1),
    VertexElement(FloatSize * 9, Single, TextureCoordinate, 2),
    VertexElement(FloatSize * 10, Vector4, Tangent, 0)]

  /** Each element starts where the one before it ends, the first at 0. */
  ghost predicate Packed(es: seq<VertexElement>) {
    && (|es| > 0 ==> es[0].offset == 0)
    && forall i :: 0 < i < |es| ==> es[i].offset == es[i - 1].offset + Bytes(es[i - 1])
  }

  /** The bytes a vertex with these elements takes. */
  function Stride(es: seq<VertexElement>): (n: int)
    ensures |es| == 0 ==> n == 0
  {
    if |es| == 0 then 0 else es[|es| - 1].offset + Bytes(es[|es| - 1])
  }

  /** The table is packed, and a vertex takes 14 floats (56 bytes), the size
      the struct's commented-out `SizeInBytes` names. */
  lemma LayoutIsPacked()
    ensures Packed(VertexElements)
    ensures Stride(VertexElements) == FloatSize * 14
  {
  }

  /** The offsets, in floats, are 0, 3, 6, 8, 9 and 10. */
  lemma LayoutOffsets()
    ensures |VertexElements| == 6
    ensures forall i :: 0 <= i < 6 ==> VertexElements[i].offset == FloatSize * [0, 3, 6, 8, 9, 10][i]
  {
  }

  /** In a packed layout the elements do not overlap: an earlier element ends
      at or before a later one starts. */
  lemma {:induction false} PackedElementsDisjoint(es: seq<VertexElement>, i: int, j: int)
    requires Packed(es) && 0 <= i < j < |es|
    ensures es[i].offset + Bytes(es[i]) <= es[j].offset
    decreases j - i
  {
    if j > i + 1 {
      PackedElementsDisjoint(es, i, j - 1);
      assert es[j - 1].offset < es[j - 1].offset + Bytes(es[j - 1]);
    }
  }

  /** In a packed layout every element lies inside the stride. */
  lemma {:induction false} PackedElementsWithinStride(es: seq<VertexElement>, i: int)
    requires Packed(es) && 0 <= i < |es|
    ensures 0 <= es[i].offset && es[i].offset + Bytes(es[i]) <= Stride(es)
  {
    if i < |es| - 1 {
      PackedElementsDisjoint(es, i, |es| - 1);
    }
    if i > 0 {
      PackedElementsDisjoint(es, 0, i);
    }
  }

  /** No two elements share a usage and usage index; the three texture
      coordinates use indices 0, 1 and 2. */
  lemma UsagesDistinct()
    ensures forall i, j :: 0 <= i < j < |VertexElements| ==>
      (VertexElements[i].usage, VertexElements[i].usageIndex) != (VertexElements[j].usage, VertexElements[j].usageIndex)
    ensures (set e | e in VertexElements && e.usage == TextureCoordinate :: e.usageIndex) == {0, 1, 2}
  {
  }
}
