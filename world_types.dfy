/**
 * The value types of the voxel world: block types, the six faces of a block,
 * the per-face texture choice and the vertex the chunk mesher emits.
 */
module WorldTypes {
  import opened Textures

  /**
   * `BlockType`, a C++ `enum class` over `int`. Its named enumerators are the
   * constants below, but a cast can give it any `int` value: the block-test
   * generator produces 8, which names no block.
   */
  newtype BlockType = x: int | -0x8000_0000 <= x < 0x8000_0000

  const AIR: BlockType := 0
  const DIRT: BlockType := 1
  const GRASS: BlockType := 2
  const STONE: BlockType := 3
  const WOOD: BlockType := 4
  const LEAVES: BlockType := 5
  const COBBLESTONE: BlockType := 6
  const BEDROCK: BlockType := 7

  /** The value names one of the enumerators AIR..BEDROCK. */
  predicate IsNamed(t: BlockType) {
    AIR <= t <= BEDROCK
  }

  /** AIR, the empty block, is the first enumerator and BEDROCK the last. */
  lemma NamedTypes()
    ensures AIR as int == 0 && BEDROCK as int == 7
    ensures forall t: BlockType :: IsNamed(t) <==> 0 <= t as int < 8
  {
  }

  /** The six faces of a block, enumerators 0 to 5 in this order. */
  datatype BlockFace = FRONT | BACK | LEFT | RIGHT | TOP | BOTTOM

  /** The enumerator value of a face. */
  function FaceValue(face: BlockFace): (n: nat)
    ensures n < 6
  {
    match face
    case FRONT => 0
    case BACK => 1
    case LEFT => 2
    case RIGHT => 3
    case TOP => 4
    case BOTTOM => 5
  }

  /** `static_cast<BlockFace>(direction)` for a direction number 0..5. */
  function FaceOf(direction: int): (face: BlockFace)
    requires 0 <= direction < 6
    ensures FaceValue(face) == direction
  {
    if direction == 0 then FRONT
    else if direction == 1 then BACK
    else if direction == 2 then LEFT
    else if direction == 3 then RIGHT
    else if direction == 4 then TOP
    else BOTTOM
  }

  /** The cast of direction numbers 0..5 is a bijection onto the six faces. */
  lemma FaceCastBijective()
    ensures forall face :: FaceOf(FaceValue(face)) == face
    ensures forall i, j :: 0 <= i < 6 && 0 <= j < 6 && FaceOf(i) == FaceOf(j) ==> i == j
  {
    forall face ensures FaceOf(FaceValue(face)) == face {
      match face
      case FRONT =>
      case BACK =>
      case LEFT =>
      case RIGHT =>
      case TOP =>
      case BOTTOM =>
    }
  }

  /** The tint a face texture is multiplied with: white, or the grass-top green. */
  datatype Tint = White | GrassGreen

  /** `BlockTexture`: the atlas rectangle a face shows and its tint. */
  datatype BlockTexture = BlockTexture(coords: TextureCoords, color: Tint)

  /** An integer position or direction, in block units. */
  datatype Vec3 = Vec3(x: int, y: int, z: int) {
    function Plus(other: Vec3): Vec3 {
      Vec3(x + other.x, y + other.y, z + other.z)
    }
    function Minus(other: Vec3): Vec3 {
      Vec3(x - other.x, y - other.y, z - other.z)
    }
  }

  /** A texture-space point, each coordinate in units of 1/AtlasCount. */
  datatype Vec2 = Vec2(u: int, v: int)

  /** `BlockVertex`: position, normal, color and texture coordinate, in that order. */
  datatype BlockVertex = BlockVertex(position: Vec3, normal: Vec3, color: Tint, texcoord: Vec2)

  /** The number of float components of each `BlockVertex` field, in field order. */
  const BlockVertexComponents: seq<nat> := [3, 3, 3, 2]
}
