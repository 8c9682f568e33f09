/**
 * The face-culling chunk mesher `CreateChunkMesh`: every face of a non-AIR
 * block whose neighbour on that side is an AIR block of the same chunk
 * becomes a textured quad of 4 vertices and 6 indices (two triangles).
 *
 * The order of the emitted faces is fixed by the mesher's loops (y outermost,
 * then z, then x, then the six directions), so the specification is the list
 * of emitted faces: VisitOrder lists the block positions in the order the
 * loops visit them, FacesAlong concatenates the faces of each visited block,
 * and DirectionFaces lists a block's faces in the order of the directions. MeshVertices and MeshIndices turn a face list into the
 * vertex and index buffers.
 */
module Mesher {
  import opened CppInt
  import opened Textures
  import opened WorldTypes
  import opened World

  /**
   * `directions`: the unit normal of each face. The source indexes this table
   * by the face's enumerator value, which FaceOf turns back into the face.
   */
  function Normal(face: BlockFace): (n: Vec3)
    ensures Abs(n.x) + Abs(n.y) + Abs(n.z) == 1
  {
    match face
    case FRONT => Vec3(0, 0, 1)
    case BACK => Vec3(0, 0, -1)
    case LEFT => Vec3(-1, 0, 0)
    case RIGHT => Vec3(1, 0, 0)
    case TOP => Vec3(0, 1, 0)
    case BOTTOM => Vec3(0, -1, 0)
  }

  /** The number of entries of `directions`: one per face of a block. */
  const DirectionCount: nat := 6

  /**
   * The block data the mesher reads: a flat array and the chunk's dimensions.
   * The array holds at least one block per position; blocks past the last
   * position are never read.
   */
  datatype Chunk = Chunk(blocks: seq<BlockType>, width: int, height: int, depth: int) {
    predicate Valid() {
      width >= 0 && height >= 0 && depth >= 0 && width * height * depth <= |blocks|
    }

    predicate Contains(p: Vec3) {
      InChunkBounds(p.x, p.y, p.z, width, height, depth)
    }

    function At(p: Vec3): BlockType
      requires Valid() && Contains(p)
    {
      blocks[GetBlockIndex(p.x, p.y, p.z, width, height, depth)]
    }
  }

  /** One emitted face: the block's position, which of its faces, and the block's type. */
  datatype Face = Face(position: Vec3, face: BlockFace, block: BlockType)

  /** The neighbour of `p` across `face` lies in the chunk and is AIR. */
  predicate NeighbourIsAir(c: Chunk, p: Vec3, face: BlockFace)
    requires c.Valid()
  {
    var n := p.Plus(Normal(face));
    c.Contains(n) && c.At(n) == AIR
  }

  /** The faces emitted for the block at `p` by directions 0 .. n-1. */
  function DirectionFaces(c: Chunk, p: Vec3, n: nat): seq<Face>
    requires c.Valid() && c.Contains(p) && n <= 6
  {
    if n == 0 then []
    else
      var face := FaceOf(n - 1);
      DirectionFaces(c, p, n - 1) +
      (if NeighbourIsAir(c, p, face) then [Face(p, face, c.At(p))] else [])
  }

  /** The faces emitted for the block at `p`: none for AIR (nor for a position outside the chunk). */
  function BlockFaces(c: Chunk, p: Vec3): seq<Face>
    requires c.Valid()
  {
    if !c.Contains(p) || c.At(p) == AIR then [] else DirectionFaces(c, p, DirectionCount)
  }

  /** The positions the x loop visits in row (y, z): x = 0 .. xEnd-1. */
  function RowPositions(y: int, z: int, xEnd: int): seq<Vec3>
    decreases xEnd
  {
    if xEnd <= 0 then [] else RowPositions(y, z, xEnd - 1) + [Vec3(xEnd - 1, y, z)]
  }

  /** The positions the z loop visits in layer y: the rows z = 0 .. zEnd-1, each of the given width. */
  function SlicePositions(width: int, y: int, zEnd: int): seq<Vec3>
    decreases zEnd
  {
    if zEnd <= 0 then [] else SlicePositions(width, y, zEnd - 1) + RowPositions(y, zEnd - 1, width)
  }

  /** The positions the y loop visits: the layers y = 0 .. yEnd-1. */
  function LayerPositions(width: int, depth: int, yEnd: int): seq<Vec3>
    decreases yEnd
  {
    if yEnd <= 0 then [] else LayerPositions(width, depth, yEnd - 1) + SlicePositions(width, yEnd - 1, depth)
  }

  /** The order in which the mesher's loops visit the blocks of a chunk. */
  function VisitOrder(width: int, height: int, depth: int): seq<Vec3> {
    LayerPositions(width, depth, height)
  }

  /** The faces emitted for the blocks at `ps`, visited in that order. */
  function FacesAlong(c: Chunk, ps: seq<Vec3>): seq<Face>
    requires c.Valid()
    decreases |ps|
  {
    if ps == [] then [] else BlockFaces(c, ps[0]) + FacesAlong(c, ps[1..])
  }

  /** Every face the mesher emits for a chunk, in emission order. */
  function ChunkFaces(c: Chunk): seq<Face>
    requires c.Valid()
  {
    FacesAlong(c, VisitOrder(c.width, c.height, c.depth))
  }

  /** Visiting the blocks at `ps` and then those at `qs` emits the faces of the first, then of the second. */
  lemma {:induction false} FacesAlongAppend(c: Chunk, ps: seq<Vec3>, qs: seq<Vec3>)
    requires c.Valid()
    ensures FacesAlong(c, ps + qs) == FacesAlong(c, ps) + FacesAlong(c, qs)
    decreases |ps|
  {
    if ps == [] {
      assert ps + qs == qs;
    } else {
      assert (ps + qs)[0] == ps[0] && (ps + qs)[1..] == ps[1..] + qs;
      FacesAlongAppend(c, ps[1..], qs);
    }
  }

  /** Visiting one more block appends that block's faces. */
  lemma FacesAlongLast(c: Chunk, ps: seq<Vec3>, p: Vec3)
    requires c.Valid()
    ensures FacesAlong(c, ps + [p]) == FacesAlong(c, ps) + BlockFaces(c, p)
  {
    FacesAlongAppend(c, ps, [p]);
    assert [p][1..] == [];
  }

  /** The corners of each face of the unit cube, counter-clockwise seen from outside. */
  function Corners(face: BlockFace): seq<Vec3> {
    match face
    case FRONT => [Vec3(0, 0, 1), Vec3(1, 0, 1), Vec3(1, 1, 1), Vec3(0, 1, 1)]
    case BACK => [Vec3(1, 0, 0), Vec3(0, 0, 0), Vec3(0, 1, 0), Vec3(1, 1, 0)]
    case LEFT => [Vec3(0, 0, 0), Vec3(0, 0, 1), Vec3(0, 1, 1), Vec3(0, 1, 0)]
    case RIGHT => [Vec3(1, 0, 1), Vec3(1, 0, 0), Vec3(1, 1, 0), Vec3(1, 1, 1)]
    case TOP => [Vec3(0, 1, 1), Vec3(1, 1, 1), Vec3(1, 1, 0), Vec3(0, 1, 0)]
    case BOTTOM => [Vec3(1, 0, 1), Vec3(0, 0, 1), Vec3(0, 0, 0), Vec3(1, 0, 0)]
  }

  /**
   * The four vertices of a face: the block position plus the face's corners,
   * the face's normal and tint, and the corners of its atlas tile in the order
   * bottom-left, bottom-right, top-right, top-left.
   */
  function Quad(f: Face): (r: seq<BlockVertex>)
    ensures |r| == 4
  {
    var k := Corners(f.face);
    var n := Normal(f.face);
    var texture := GetBlockTexture(f.block, f.face);
    var r := texture.coords;
    [ BlockVertex(f.position.Plus(k[0]), n, texture.color, Vec2(r.minX, r.minY)),
      BlockVertex(f.position.Plus(k[1]), n, texture.color, Vec2(r.maxX, r.minY)),
      BlockVertex(f.position.Plus(k[2]), n, texture.color, Vec2(r.maxX, r.maxY)),
      BlockVertex(f.position.Plus(k[3]), n, texture.color, Vec2(r.minX, r.maxY)) ]
  }

  /** The two triangles (0,1,2) and (2,3,0) of a quad, as offsets from its first vertex. */
  const QuadPattern: seq<int> := [0, 1, 2, 2, 3, 0]

  function QuadIndices(base: int): (r: seq<int>)
    ensures |r| == 6
    ensures forall k :: 0 <= k < 6 ==> r[k] == base + QuadPattern[k]
  {
    [base + 0, base + 1, base + 2, base + 2, base + 3, base + 0]
  }

  /** The vertex buffer of a face list: the faces' quads one after another. */
  function MeshVertices(faces: seq<Face>): seq<BlockVertex> {
    if faces == [] then [] else MeshVertices(faces[..|faces| - 1]) + Quad(faces[|faces| - 1])
  }

  /** The index buffer of n faces: face k uses vertices 4k .. 4k+3. */
  function MeshIndices(n: nat): seq<int> {
    if n == 0 then [] else MeshIndices(n - 1) + QuadIndices(4 * (n - 1))
  }

  lemma {:induction false} MeshVerticesLength(faces: seq<Face>)
    ensures |MeshVertices(faces)| == 4 * |faces|
  {
    if faces != [] {
      MeshVerticesLength(faces[..|faces| - 1]);
    }
  }

  /** Emitting one more face appends its quad and its six indices, based at the old vertex count. */
  lemma MeshAppend(faces: seq<Face>, f: Face)
    ensures MeshVertices(faces + [f]) == MeshVertices(faces) + Quad(f)
    ensures MeshIndices(|faces + [f]|) == MeshIndices(|faces|) + QuadIndices(|MeshVertices(faces)|)
  {
    assert (faces + [f])[..|faces|] == faces;
    MeshVerticesLength(faces);
  }

  /**
   * The buffers after direction d of the block at p: the quad and indices of
   * face d appended exactly when the neighbour across it is an AIR block of
   * the chunk.
   */
  lemma MeshDirectionStep(c: Chunk, p: Vec3, d: nat, faces: seq<Face>, vertices: seq<BlockVertex>, indices: seq<int>)
    requires c.Valid() && c.Contains(p) && d < 6
    requires vertices == MeshVertices(faces + DirectionFaces(c, p, d))
    requires indices == MeshIndices(|faces + DirectionFaces(c, p, d)|)
    ensures var after := faces + DirectionFaces(c, p, d + 1);
      if NeighbourIsAir(c, p, FaceOf(d)) then
        MeshVertices(after) == vertices + Quad(Face(p, FaceOf(d), c.At(p))) &&
        MeshIndices(|after|) == indices + QuadIndices(|vertices|)
      else
        MeshVertices(after) == vertices && MeshIndices(|after|) == indices
  {
    var f := Face(p, FaceOf(d), c.At(p));
    var before := faces + DirectionFaces(c, p, d);
    if NeighbourIsAir(c, p, FaceOf(d)) {
      assert faces + DirectionFaces(c, p, d + 1) == before + [f];
      MeshAppend(before, f);
    } else {
      assert faces + DirectionFaces(c, p, d + 1) == before;
    }
  }
}
