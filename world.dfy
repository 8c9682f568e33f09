/**
 * The block registry (which atlas tile and tint each face of each block type
 * shows) and the flat addressing of a chunk's blocks.
 */
module World {
  import opened CppInt
  import opened Textures
  import opened WorldTypes

  /** The terrain atlas is 16 x 16 tiles. */
  const AtlasCount: int := 16

  /** The "missing" tile, shown for AIR and for every type the registry does not list. */
  const MissingTile: int := 31

  /**
   * The switch of `GetBlockTexture`: the atlas tile and the tint of one face
   * of one block type. Total: every value of the enum, named or not, is mapped.
   */
  function BlockTile(t: BlockType, face: BlockFace): (r: (int, Tint))
    ensures 0 <= r.0 < AtlasCount * AtlasCount
    ensures r.1 == GrassGreen <==> t == GRASS && face == TOP
    ensures t == AIR || !IsNamed(t) ==> r == (MissingTile, White)
  {
    if t == GRASS then
      (match face
       case TOP => (0, GrassGreen)
       case BOTTOM => (2, White)
       case _ => (3, White))
    else if t == DIRT then (2, White)
    else if t == STONE then (1, White)
    else if t == WOOD then
      (match face
       case TOP | BOTTOM => (21, White)
       case _ => (20, White))
    else if t == LEAVES then (53, White)
    else if t == COBBLESTONE then (16, White)
    else if t == BEDROCK then (17, White)
    else (MissingTile, White)
  }

  /**
   * `GetBlockTexture`: the atlas rectangle of the face's tile, one tile wide
   * and tall, and its tint, which is green for the top of GRASS only.
   */
  function GetBlockTexture(t: BlockType, face: BlockFace): (r: BlockTexture)
    ensures r.coords.maxX - r.coords.minX == 1 && r.coords.maxY - r.coords.minY == 1
    ensures r.color == (if t == GRASS && face == TOP then GrassGreen else White)
    ensures t == AIR || !IsNamed(t) ==> r.coords == GetTextureCoords(MissingTile, AtlasCount)
  {
    var (tile, tint) := BlockTile(t, face);
    TileSize(tile, AtlasCount);
    BlockTexture(GetTextureCoords(tile, AtlasCount), tint)
  }

  /** The tiles of the grass and wood blocks, which differ between faces. */
  lemma GrassAndWoodTiles(face: BlockFace)
    ensures BlockTile(GRASS, face) ==
      (if face == TOP then (0, GrassGreen) else if face == BOTTOM then (2, White) else (3, White))
    ensures BlockTile(WOOD, face) ==
      (if face == TOP || face == BOTTOM then (21, White) else (20, White))
  {
  }

  /** Every face of every block type samples a rectangle inside the atlas. */
  lemma BlockTextureInsideAtlas(t: BlockType, face: BlockFace)
    ensures var r := GetBlockTexture(t, face).coords;
      0 <= r.minX < r.maxX <= AtlasCount && 0 <= r.minY < r.maxY <= AtlasCount
  {
    TileWithinUnitSquare(BlockTile(t, face).0, AtlasCount);
  }

  /** `InChunkBounds`: the position lies inside a width x height x depth chunk. */
  predicate InChunkBounds(x: int, y: int, z: int, width: int, height: int, depth: int) {
    0 <= x < width && 0 <= y < height && 0 <= z < depth
  }

  /** A chunk that has a position in bounds has at least one block in every dimension. */
  lemma InBoundsChunkIsNonEmpty(x: int, y: int, z: int, width: int, height: int, depth: int)
    requires InChunkBounds(x, y, z, width, height, depth)
    ensures width > 0 && height > 0 && depth > 0 && width * height * depth > 0
  {
    assert GetBlockIndex(x, y, z, width, height, depth) >= 0;
  }

  /** `GetBlockIndex`: the flat index x + y*width + z*width*height. */
  function GetBlockIndex(x: int, y: int, z: int, width: int, height: int, depth: int): (i: int)
    ensures InChunkBounds(x, y, z, width, height, depth) ==> 0 <= i < width * height * depth
  {
    if InChunkBounds(x, y, z, width, height, depth) then
      IndexBelowSize(x, y, z, width, height, depth);
      x + y * width + z * width * height
    else
      x + y * width + z * width * height
  }

  lemma IndexBelowSize(x: int, y: int, z: int, width: int, height: int, depth: int)
    requires InChunkBounds(x, y, z, width, height, depth)
    ensures 0 <= x + y * width + z * width * height < width * height * depth
  {
    var layer := width * height;
    assert x + y * width < layer by {
      MultiplyMonotone(height - 1, y, width);
    }
    MultiplyMonotone(depth - 1, z, layer);
    assert z * width * height == z * layer;
    assert width * height * depth == layer * depth;
  }

  /** The position of flat index `i`: the inverse of GetBlockIndex. */
  function BlockPosition(i: int, width: int, height: int, depth: int): (p: Vec3)
    requires width >= 0 && height >= 0 && depth >= 0
    requires 0 <= i < width * height * depth
    ensures InChunkBounds(p.x, p.y, p.z, width, height, depth)
    ensures GetBlockIndex(p.x, p.y, p.z, width, height, depth) == i
  {
    PositiveDimensions(i, width, height, depth);
    PositionOfIndex(i, width, height, depth);
    CoordinatesNonNegative(i, width, height);
    Vec3(i % width, (i / width) % height, (i / width) / height)
  }

  /** The coordinates BlockPosition computes lie at or above 0, and x and y below the width and height. */
  lemma CoordinatesNonNegative(i: int, width: int, height: int)
    requires i >= 0 && width > 0 && height > 0
    ensures 0 <= i % width < width && 0 <= (i / width) % height < height && 0 <= (i / width) / height
  {
  }

  lemma PositionOfIndex(i: int, width: int, height: int, depth: int)
    requires width > 0 && height > 0 && depth > 0
    requires 0 <= i < width * height * depth
    ensures (i / width) / height < depth
    ensures GetBlockIndex(i % width, (i / width) % height, (i / width) / height, width, height, depth) == i
  {
    var row := i / width;
    var x, y, z := i % width, row % height, row / height;
    assert i == row * width + x;
    assert row == z * height + y;
    if z >= depth {
      MultiplyMonotone(z, depth, height);
      MultiplyMonotone(row, depth * height, width);
    }
    assert i == x + y * width + z * height * width;
    assert z * height * width == z * width * height;
  }

  /** A chunk with any block at all has positive dimensions. */
  lemma PositiveDimensions(i: int, width: int, height: int, depth: int)
    requires width >= 0 && height >= 0 && depth >= 0
    requires 0 <= i < width * height * depth
    ensures width > 0 && height > 0 && depth > 0
  {
  }

  /**
   * GetBlockIndex maps the positions of a chunk one-to-one onto the flat
   * indices 0 .. width*height*depth - 1.
   */
  lemma {:induction false} BlockIndexRoundTrip(x: int, y: int, z: int, width: int, height: int, depth: int)
    requires width >= 0 && height >= 0 && depth >= 0
    requires InChunkBounds(x, y, z, width, height, depth)
    ensures BlockPosition(GetBlockIndex(x, y, z, width, height, depth), width, height, depth) == Vec3(x, y, z)
  {
    var i := GetBlockIndex(x, y, z, width, height, depth);
    assert i == (y + z * height) * width + x;
    DivModUnique(i, width, y + z * height, x);
    DivModUnique(y + z * height, height, z, y);
  }

  /** Distinct in-chunk positions have distinct indices. */
  lemma BlockIndexInjective(a: Vec3, b: Vec3, width: int, height: int, depth: int)
    requires InChunkBounds(a.x, a.y, a.z, width, height, depth)
    requires InChunkBounds(b.x, b.y, b.z, width, height, depth)
    requires GetBlockIndex(a.x, a.y, a.z, width, height, depth) == GetBlockIndex(b.x, b.y, b.z, width, height, depth)
    ensures a == b
  {
    BlockIndexRoundTrip(a.x, a.y, a.z, width, height, depth);
    BlockIndexRoundTrip(b.x, b.y, b.z, width, height, depth);
  }
}
