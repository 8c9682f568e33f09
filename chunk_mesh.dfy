/**
 * The loops of `CreateChunkMesh`, one method per loop level (y, z, x, and the
 * six directions), each proved to append exactly the quads and indices of
 * the faces the Mesher module's specification lists for that level.
 */
module ChunkMesh {
  import opened WorldTypes
  import opened World
  import opened Mesher

  /**
   * Concatenation regroups. Dafny knows this, but proving it inside the loop
   * bodies below, with their whole context in scope, is far costlier than
   * calling this lemma, which proves it once on its own.
   */
  lemma Associative(a: seq<Face>, b: seq<Face>, c: seq<Face>)
    ensures (a + b) + c == a + (b + c)
  {
  }

  /**
   * The direction loop of `CreateChunkMesh` for the non-AIR block at (x, y, z):
   * appends the quad and indices of each visible face to the buffers built so far.
   */
  method AppendBlockFaces(blocks: seq<BlockType>, width: int, height: int, depth: int, x: int, y: int, z: int,
                          ghost faces: seq<Face>, vertices: seq<BlockVertex>, indices: seq<int>)
    returns (vertices': seq<BlockVertex>, indices': seq<int>)
    requires Chunk(blocks, width, height, depth).Valid()
    requires InChunkBounds(x, y, z, width, height, depth)
    requires blocks[GetBlockIndex(x, y, z, width, height, depth)] != AIR
    requires vertices == MeshVertices(faces) && indices == MeshIndices(|faces|)
    ensures vertices' == MeshVertices(faces + BlockFaces(Chunk(blocks, width, height, depth), Vec3(x, y, z)))
    ensures indices' == MeshIndices(|faces + BlockFaces(Chunk(blocks, width, height, depth), Vec3(x, y, z))|)
  {
    ghost var c := Chunk(blocks, width, height, depth);
    var position := Vec3(x, y, z);
    var t := blocks[GetBlockIndex(x, y, z, width, height, depth)];
    assert c.Valid() && c.Contains(position) && t == c.At(position);
    assert faces + DirectionFaces(c, position, 0) == faces;
    vertices', indices' := vertices, indices;
    for direction := 0 to 6
      invariant vertices' == MeshVertices(faces + DirectionFaces(c, position, direction))
      invariant indices' == MeshIndices(|faces + DirectionFaces(c, position, direction)|)
    {
      var face := FaceOf(direction);
      MeshDirectionStep(c, position, direction, faces, vertices', indices');
      var neighbour := position.Plus(Normal(face));
      ghost var visible := NeighbourIsAir(c, position, face);
      if InChunkBounds(neighbour.x, neighbour.y, neighbour.z, width, height, depth) {
        var neighborIndex := GetBlockIndex(neighbour.x, neighbour.y, neighbour.z, width, height, depth);
        assert c.At(neighbour) == blocks[neighborIndex];
        if blocks[neighborIndex] == AIR {
          var base := |vertices'|;
          vertices' := vertices' + Quad(Face(position, face, t));
          indices' := indices' + QuadIndices(base);
        }
      } else {
        assert !visible;
      }
    }
  }

  /** The body of the x loop of `CreateChunkMesh`: AIR blocks are skipped, any other block's visible faces appended. */
  method AppendBlock(blocks: seq<BlockType>, width: int, height: int, depth: int, x: int, y: int, z: int,
                     ghost faces: seq<Face>, vertices: seq<BlockVertex>, indices: seq<int>)
    returns (vertices': seq<BlockVertex>, indices': seq<int>)
    requires Chunk(blocks, width, height, depth).Valid()
    requires InChunkBounds(x, y, z, width, height, depth)
    requires vertices == MeshVertices(faces) && indices == MeshIndices(|faces|)
    ensures vertices' == MeshVertices(faces + BlockFaces(Chunk(blocks, width, height, depth), Vec3(x, y, z)))
    ensures indices' == MeshIndices(|faces + BlockFaces(Chunk(blocks, width, height, depth), Vec3(x, y, z))|)
  {
    var index := GetBlockIndex(x, y, z, width, height, depth);
    if blocks[index] != AIR {
      vertices', indices' := AppendBlockFaces(blocks, width, height, depth, x, y, z, faces, vertices, indices);
    } else {
      assert faces + BlockFaces(Chunk(blocks, width, height, depth), Vec3(x, y, z)) == faces;
      vertices', indices' := vertices, indices;
    }
  }

  /** The x loop of `CreateChunkMesh`: appends the faces of row (y, z) to the buffers built so far. */
  method AppendRow(blocks: seq<BlockType>, width: int, height: int, depth: int, y: int, z: int,
                   ghost faces: seq<Face>, vertices: seq<BlockVertex>, indices: seq<int>)
    returns (vertices': seq<BlockVertex>, indices': seq<int>)
    requires Chunk(blocks, width, height, depth).Valid()
    requires 0 <= y < height && 0 <= z < depth
    requires vertices == MeshVertices(faces) && indices == MeshIndices(|faces|)
    ensures vertices' == MeshVertices(faces + FacesAlong(Chunk(blocks, width, height, depth), RowPositions(y, z, width)))
    ensures indices' == MeshIndices(|faces + FacesAlong(Chunk(blocks, width, height, depth), RowPositions(y, z, width))|)
  {
    ghost var c := Chunk(blocks, width, height, depth);
    ghost var emitted := faces;
    assert faces + FacesAlong(c, RowPositions(y, z, 0)) == faces;
    vertices', indices' := vertices, indices;
    for x := 0 to width
      invariant emitted == faces + FacesAlong(c, RowPositions(y, z, x))
      invariant vertices' == MeshVertices(emitted) && indices' == MeshIndices(|emitted|)
    {
      vertices', indices' := AppendBlock(blocks, width, height, depth, x, y, z, emitted, vertices', indices');
      ghost var p := Vec3(x, y, z);
      FacesAlongLast(c, RowPositions(y, z, x), p);
      Associative(faces, FacesAlong(c, RowPositions(y, z, x)), BlockFaces(c, p));
      emitted := emitted + BlockFaces(c, p);
    }
  }

  /** The z loop of `CreateChunkMesh`: appends the faces of layer y to the buffers built so far. */
  method AppendSlice(blocks: seq<BlockType>, width: int, height: int, depth: int, y: int,
                     ghost faces: seq<Face>, vertices: seq<BlockVertex>, indices: seq<int>)
    returns (vertices': seq<BlockVertex>, indices': seq<int>)
    requires Chunk(blocks, width, height, depth).Valid()
    requires 0 <= y < height
    requires vertices == MeshVertices(faces) && indices == MeshIndices(|faces|)
    ensures vertices' == MeshVertices(faces + FacesAlong(Chunk(blocks, width, height, depth), SlicePositions(width, y, depth)))
    ensures indices' == MeshIndices(|faces + FacesAlong(Chunk(blocks, width, height, depth), SlicePositions(width, y, depth))|)
  {
    ghost var c := Chunk(blocks, width, height, depth);
    ghost var emitted := faces;
    assert faces + FacesAlong(c, SlicePositions(width, y, 0)) == faces;
    vertices', indices' := vertices, indices;
    for z := 0 to depth
      invariant emitted == faces + FacesAlong(c, SlicePositions(width, y, z))
      invariant vertices' == MeshVertices(emitted) && indices' == MeshIndices(|emitted|)
    {
      vertices', indices' := AppendRow(blocks, width, height, depth, y, z, emitted, vertices', indices');
      FacesAlongAppend(c, SlicePositions(width, y, z), RowPositions(y, z, width));
      Associative(faces, FacesAlong(c, SlicePositions(width, y, z)), FacesAlong(c, RowPositions(y, z, width)));
      emitted := emitted + FacesAlong(c, RowPositions(y, z, width));
    }
  }

  /**
   * `CreateChunkMesh` without the final GPU mesh construction: the vertex and
   * index buffers of a chunk. The chunk coordinate is accepted and ignored, as
   * in the source: positions are chunk-local.
   */
  method CreateChunkMesh(blocks: seq<BlockType>, chunk: (int, int), width: int, height: int, depth: int)
    returns (vertices: seq<BlockVertex>, indices: seq<int>)
    requires width >= 0 && height >= 0 && depth >= 0 && width * height * depth <= |blocks|
    ensures vertices == MeshVertices(ChunkFaces(Chunk(blocks, width, height, depth)))
    ensures indices == MeshIndices(|ChunkFaces(Chunk(blocks, width, height, depth))|)
  {
    ghost var c := Chunk(blocks, width, height, depth);
    ghost var emitted: seq<Face> := [];
    vertices, indices := [], [];
    for y := 0 to height
      invariant emitted == FacesAlong(c, LayerPositions(width, depth, y))
      invariant vertices == MeshVertices(emitted) && indices == MeshIndices(|emitted|)
    {
      vertices, indices := AppendSlice(blocks, width, height, depth, y, emitted, vertices, indices);
      FacesAlongAppend(c, LayerPositions(width, depth, y), SlicePositions(width, y, depth));
      emitted := emitted + FacesAlong(c, SlicePositions(width, y, depth));
    }
  }
}
