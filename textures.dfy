/**
 * Atlas tile arithmetic of `render::Texture::GetTextureCoords`: tile `index`
 * of an atlas cut into `count` x `count` equal tiles, numbered row-major from
 * the top-left corner of the image, as a rectangle in texture space, whose
 * vertical axis points up (hence the flip).
 *
 * Coordinates are exact: each is the numerator of a fraction whose
 * denominator is `count` (so 1.0 in texture space is `count`).
 */
module Textures {
  import opened CppInt

  /** `render::TextureCoords`: the corners of a rectangle, in units of 1/count. */
  datatype TextureCoords = TextureCoords(minX: int, minY: int, maxX: int, maxY: int)

  function GetTextureCoords(index: int, count: int): (r: TextureCoords)
    requires count != 0
    ensures index >= 0 && count > 0 ==>
      && r.minX == index % count
      && r.minY == count - (index / count + 1)
  {
    var x := TruncRem(index, count);
    var y := TruncDiv(index, count);
    var width := 1;
    var height := 1;
    var y' := count - y - height;
    var coords := TextureCoords(x, y', x + width, y' + height);
    if index >= 0 && count > 0 then
      TruncAgreesOnNonNegative(index, count);
      coords
    else
      coords
  }

  /** Every tile is 1/count wide and 1/count tall, whatever the index. */
  lemma TileSize(index: int, count: int)
    requires count != 0
    ensures GetTextureCoords(index, count).maxX - GetTextureCoords(index, count).minX == 1
    ensures GetTextureCoords(index, count).maxY - GetTextureCoords(index, count).minY == 1
  {
  }

  /** A tile of the atlas lies within the unit square [0, count]^2. */
  lemma {:induction false} TileWithinUnitSquare(index: int, count: int)
    requires count > 0 && 0 <= index < count * count
    ensures var r := GetTextureCoords(index, count);
      0 <= r.minX < r.maxX <= count && 0 <= r.minY < r.maxY <= count
  {
    RowBelowCount(index, count);
  }

  lemma RowBelowCount(index: int, count: int)
    requires count > 0 && 0 <= index < count * count
    ensures index / count < count
  {
    var row := index / count;
    assert index == row * count + index % count;
    if row >= count {
      MultiplyMonotone(row, count, count);
    }
  }

  /** Distinct tiles of the atlas occupy distinct rectangles. */
  lemma {:induction false} DistinctTiles(i: int, j: int, count: int)
    requires count > 0 && 0 <= i && 0 <= j && i != j
    ensures GetTextureCoords(i, count) != GetTextureCoords(j, count)
  {
    assert i == i / count * count + i % count;
    assert j == j / count * count + j % count;
  }

  /** Tile `index + count` is the tile right below tile `index`: same column, one row lower. */
  lemma {:induction false} NextRowIsBelow(index: int, count: int)
    requires count > 0 && index >= 0
    ensures GetTextureCoords(index + count, count).minX == GetTextureCoords(index, count).minX
    ensures GetTextureCoords(index, count).minY - GetTextureCoords(index + count, count).minY == 1
  {
    var q, m := index / count, index % count;
    DivModUnique(index + count, count, q + 1, m);
  }

  /** Row 0 of the atlas is the top band [1 - 1/count, 1] of texture space. */
  lemma {:induction false} TopRowIsAtTop(index: int, count: int)
    requires count > 0 && 0 <= index < count
    ensures GetTextureCoords(index, count).maxY == count
    ensures GetTextureCoords(index, count).minY == count - 1
  {
    assert index / count == 0;
  }
}
