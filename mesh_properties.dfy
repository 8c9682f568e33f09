/**
 * What the chunk mesher's output means: the shape of the vertex and index
 * buffers, exactly which faces are emitted and in which order, the geometry
 * of each quad, and the outcome on a few characteristic chunks.
 */
module MeshProperties {
  import opened Textures
  import opened WorldTypes
  import opened World
  import opened Mesher

  // ---------------------------------------------------------------------------
  // The vertex and index buffers of a face list
  // ---------------------------------------------------------------------------

  /** Vertex k of the buffer is corner k % 4 of face k / 4. */
  lemma {:induction false} MeshVerticesAt(faces: seq<Face>, k: int)
    requires 0 <= k < 4 * |faces|
    ensures |MeshVertices(faces)| == 4 * |faces|
    ensures MeshVertices(faces)[k] == Quad(faces[k / 4])[k % 4]
  {
    MeshVerticesLength(faces);
    var n := |faces| - 1;
    var front := faces[..n];
    MeshVerticesLength(front);
    if k < 4 * n {
      MeshVerticesAt(front, k);
      assert faces[k / 4] == front[k / 4];
    } else {
      CppInt.DivModUnique(k, 4, n, k - 4 * n);
    }
  }

  lemma {:induction false} MeshIndicesLength(n: nat)
    ensures |MeshIndices(n)| == 6 * n
  {
    if n > 0 {
      MeshIndicesLength(n - 1);
    }
  }

  /** Index k of the buffer is entry k % 6 of the two-triangle pattern of quad k / 6. */
  lemma {:induction false} MeshIndicesAt(n: nat, k: int)
    requires 0 <= k < 6 * n
    ensures |MeshIndices(n)| == 6 * n
    ensures MeshIndices(n)[k] == 4 * (k / 6) + QuadPattern[k % 6]
  {
    MeshIndicesLength(n);
    MeshIndicesLength(n - 1);
    if k < 6 * (n - 1) {
      MeshIndicesAt(n - 1, k);
    } else {
      CppInt.DivModUnique(k, 6, n - 1, k - 6 * (n - 1));
    }
  }

  /**
   * The buffers of any face list fit together: four vertices per face, three
   * indices per two vertices, and every index names one of the vertices.
   */
  lemma MeshBuffersConsistent(faces: seq<Face>)
    ensures |MeshVertices(faces)| == 4 * |faces|
    ensures |MeshIndices(|faces|)| == 6 * |faces|
    ensures 2 * |MeshIndices(|faces|)| == 3 * |MeshVertices(faces)|
    ensures forall k :: 0 <= k < |MeshIndices(|faces|)| ==> 0 <= MeshIndices(|faces|)[k] < |MeshVertices(faces)|
  {
    MeshVerticesLength(faces);
    MeshIndicesLength(|faces|);
    forall k | 0 <= k < |MeshIndices(|faces|)|
      ensures 0 <= MeshIndices(|faces|)[k] < |MeshVertices(faces)|
    {
      MeshIndicesAt(|faces|, k);
    }
  }

  // ---------------------------------------------------------------------------
  // Which faces are emitted
  // ---------------------------------------------------------------------------

  /**
   * The mesher emits face f exactly when f's block lies in the chunk and is
   * not AIR, the neighbour across f lies in the chunk and is AIR, and f
   * records that block's type.
   */
  predicate Emitted(c: Chunk, f: Face)
    requires c.Valid()
  {
    && c.Contains(f.position)
    && c.At(f.position) != AIR
    && NeighbourIsAir(c, f.position, f.face)
    && f.block == c.At(f.position)
  }

  lemma {:induction false} DirectionFacesMember(c: Chunk, p: Vec3, n: nat, f: Face)
    requires c.Valid() && c.Contains(p) && n <= 6
    ensures f in DirectionFaces(c, p, n) <==>
      && f.position == p
      && FaceValue(f.face) < n
      && NeighbourIsAir(c, p, f.face)
      && f.block == c.At(p)
  {
    if n > 0 {
      DirectionFacesMember(c, p, n - 1, f);
      FaceCastBijective();
    }
  }

  lemma BlockFacesMember(c: Chunk, p: Vec3, f: Face)
    requires c.Valid()
    ensures f in BlockFaces(c, p) <==> f.position == p && Emitted(c, f)
  {
    if c.Contains(p) {
      DirectionFacesMember(c, p, 6, f);
    }
  }

  /** Visiting the blocks at `ps` emits exactly the emittable faces of those blocks. */
  lemma {:induction false} FacesAlongMember(c: Chunk, ps: seq<Vec3>, f: Face)
    requires c.Valid()
    ensures f in FacesAlong(c, ps) <==> f.position in ps && Emitted(c, f)
    decreases |ps|
  {
    if ps != [] {
      FacesAlongMember(c, ps[1..], f);
      BlockFacesMember(c, ps[0], f);
      assert ps == [ps[0]] + ps[1..];
    }
  }

  // ---------------------------------------------------------------------------
  // The blocks the loops visit
  // ---------------------------------------------------------------------------

  lemma {:induction false} RowPositionsMember(y: int, z: int, xEnd: int, p: Vec3)
    ensures p in RowPositions(y, z, xEnd) <==> p.y == y && p.z == z && 0 <= p.x < xEnd
    decreases xEnd
  {
    if xEnd > 0 {
      RowPositionsMember(y, z, xEnd - 1, p);
    }
  }

  lemma {:induction false} SlicePositionsMember(width: int, y: int, zEnd: int, p: Vec3)
    ensures p in SlicePositions(width, y, zEnd) <==> p.y == y && 0 <= p.z < zEnd && 0 <= p.x < width
    decreases zEnd
  {
    if zEnd > 0 {
      SlicePositionsMember(width, y, zEnd - 1, p);
      RowPositionsMember(y, zEnd - 1, width, p);
    }
  }

  lemma {:induction false} LayerPositionsMember(width: int, depth: int, yEnd: int, p: Vec3)
    ensures p in LayerPositions(width, depth, yEnd) <==> 0 <= p.y < yEnd && 0 <= p.z < depth && 0 <= p.x < width
    decreases yEnd
  {
    if yEnd > 0 {
      LayerPositionsMember(width, depth, yEnd - 1, p);
      SlicePositionsMember(width, yEnd - 1, depth, p);
    }
  }

  /** The loops visit exactly the positions inside the chunk. */
  lemma VisitOrderCoversChunk(width: int, height: int, depth: int, p: Vec3)
    ensures p in VisitOrder(width, height, depth) <==> InChunkBounds(p.x, p.y, p.z, width, height, depth)
  {
    LayerPositionsMember(width, depth, height, p);
  }

  /** Position p is visited before q: by y, then z, then x. */
  predicate PositionBefore(p: Vec3, q: Vec3) {
    || p.y < q.y
    || (p.y == q.y && p.z < q.z)
    || (p.y == q.y && p.z == q.z && p.x < q.x)
  }

  predicate Increasing(ps: seq<Vec3>) {
    forall i, j :: 0 <= i < j < |ps| ==> PositionBefore(ps[i], ps[j])
  }

  lemma IncreasingAppend(ps: seq<Vec3>, qs: seq<Vec3>)
    requires Increasing(ps) && Increasing(qs)
    requires forall p, q :: p in ps && q in qs ==> PositionBefore(p, q)
    ensures Increasing(ps + qs)
  {
    forall i, j | 0 <= i < j < |ps + qs|
      ensures PositionBefore((ps + qs)[i], (ps + qs)[j])
    {
      if j < |ps| {
        assert PositionBefore(ps[i], ps[j]);
      } else if i >= |ps| {
        assert PositionBefore(qs[i - |ps|], qs[j - |ps|]);
      } else {
        assert ps[i] in ps && qs[j - |ps|] in qs;
      }
    }
  }

  /** Every block of row (y, z) before x is visited before block x. */
  lemma RowBeforeNext(y: int, z: int, x: int)
    ensures forall p :: p in RowPositions(y, z, x) ==> PositionBefore(p, Vec3(x, y, z))
  {
    forall p | p in RowPositions(y, z, x)
      ensures PositionBefore(p, Vec3(x, y, z))
    {
      RowPositionsMember(y, z, x, p);
    }
  }

  /** Every block of the rows before z in layer y is visited before row z. */
  lemma SliceBeforeRow(width: int, y: int, z: int)
    ensures forall p, q :: p in SlicePositions(width, y, z) && q in RowPositions(y, z, width) ==> PositionBefore(p, q)
  {
    forall p, q | p in SlicePositions(width, y, z) && q in RowPositions(y, z, width)
      ensures PositionBefore(p, q)
    {
      SlicePositionsMember(width, y, z, p);
      RowPositionsMember(y, z, width, q);
    }
  }

  /** Every block of the layers before y is visited before layer y. */
  lemma LayersBeforeSlice(width: int, depth: int, y: int)
    ensures forall p, q :: p in LayerPositions(width, depth, y) && q in SlicePositions(width, y, depth) ==> PositionBefore(p, q)
  {
    forall p, q | p in LayerPositions(width, depth, y) && q in SlicePositions(width, y, depth)
      ensures PositionBefore(p, q)
    {
      LayerPositionsMember(width, depth, y, p);
      SlicePositionsMember(width, y, depth, q);
    }
  }

  lemma {:induction false} RowPositionsIncreasing(y: int, z: int, xEnd: int)
    ensures Increasing(RowPositions(y, z, xEnd))
    decreases xEnd
  {
    if xEnd > 0 {
      RowPositionsIncreasing(y, z, xEnd - 1);
      RowBeforeNext(y, z, xEnd - 1);
      IncreasingAppend(RowPositions(y, z, xEnd - 1), [Vec3(xEnd - 1, y, z)]);
    }
  }

  lemma {:induction false} SlicePositionsIncreasing(width: int, y: int, zEnd: int)
    ensures Increasing(SlicePositions(width, y, zEnd))
    decreases zEnd
  {
    if zEnd > 0 {
      SlicePositionsIncreasing(width, y, zEnd - 1);
      RowPositionsIncreasing(y, zEnd - 1, width);
      SliceBeforeRow(width, y, zEnd - 1);
      IncreasingAppend(SlicePositions(width, y, zEnd - 1), RowPositions(y, zEnd - 1, width));
    }
  }

  lemma {:induction false} LayerPositionsIncreasing(width: int, depth: int, yEnd: int)
    ensures Increasing(LayerPositions(width, depth, yEnd))
    decreases yEnd
  {
    if yEnd > 0 {
      LayerPositionsIncreasing(width, depth, yEnd - 1);
      SlicePositionsIncreasing(width, yEnd - 1, depth);
      LayersBeforeSlice(width, depth, yEnd - 1);
      IncreasingAppend(LayerPositions(width, depth, yEnd - 1), SlicePositions(width, yEnd - 1, depth));
    }
  }

  /** The loops visit each position once, in y, then z, then x order. */
  lemma VisitOrderIncreasing(width: int, height: int, depth: int)
    ensures Increasing(VisitOrder(width, height, depth))
  {
    LayerPositionsIncreasing(width, depth, height);
  }

  /** A face is in the mesh exactly when the culling rule emits it. */
  lemma ChunkFacesMember(c: Chunk, f: Face)
    requires c.Valid()
    ensures f in ChunkFaces(c) <==> Emitted(c, f)
  {
    FacesAlongMember(c, VisitOrder(c.width, c.height, c.depth), f);
    VisitOrderCoversChunk(c.width, c.height, c.depth, f.position);
  }

  /** A face on the boundary of the chunk whose neighbour would lie outside is never emitted. */
  lemma OutsideNeighbourHidesFace(c: Chunk, f: Face)
    requires c.Valid()
    requires !c.Contains(f.position.Plus(Normal(f.face)))
    ensures f !in ChunkFaces(c)
  {
    ChunkFacesMember(c, f);
  }

  // ---------------------------------------------------------------------------
  // The order of the emitted faces
  // ---------------------------------------------------------------------------

  /** Face a is emitted before face b: by position in visiting order, then by direction number. */
  predicate Before(a: Face, b: Face) {
    || PositionBefore(a.position, b.position)
    || (a.position == b.position && FaceValue(a.face) < FaceValue(b.face))
  }

  predicate Ordered(s: seq<Face>) {
    forall i, j :: 0 <= i < j < |s| ==> Before(s[i], s[j])
  }

  lemma OrderedAppend(a: seq<Face>, b: seq<Face>)
    requires Ordered(a) && Ordered(b)
    requires forall f, g :: f in a && g in b ==> Before(f, g)
    ensures Ordered(a + b)
  {
    forall i, j | 0 <= i < j < |a + b|
      ensures Before((a + b)[i], (a + b)[j])
    {
      if j < |a| {
        assert Before(a[i], a[j]);
      } else if i >= |a| {
        assert Before(b[i - |a|], b[j - |a|]);
      } else {
        assert a[i] in a && b[j - |a|] in b;
      }
    }
  }

  lemma {:induction false} DirectionFacesOrdered(c: Chunk, p: Vec3, n: nat)
    requires c.Valid() && c.Contains(p) && n <= 6
    ensures Ordered(DirectionFaces(c, p, n))
  {
    if n > 0 {
      DirectionFacesOrdered(c, p, n - 1);
      var last := if NeighbourIsAir(c, p, FaceOf(n - 1)) then [Face(p, FaceOf(n - 1), c.At(p))] else [];
      forall f, g | f in DirectionFaces(c, p, n - 1) && g in last
        ensures Before(f, g)
      {
        DirectionFacesMember(c, p, n - 1, f);
      }
      OrderedAppend(DirectionFaces(c, p, n - 1), last);
    }
  }

  /** Visiting increasing positions emits the faces in order. */
  lemma {:induction false} FacesAlongOrdered(c: Chunk, ps: seq<Vec3>)
    requires c.Valid() && Increasing(ps)
    ensures Ordered(FacesAlong(c, ps))
    decreases |ps|
  {
    if ps != [] {
      var first, rest := ps[0], ps[1..];
      assert Increasing(rest) by {
        forall i, j | 0 <= i < j < |rest|
          ensures PositionBefore(rest[i], rest[j])
        {
          assert rest[i] == ps[i + 1] && rest[j] == ps[j + 1];
        }
      }
      FacesAlongOrdered(c, rest);
      if c.Contains(first) {
        DirectionFacesOrdered(c, first, DirectionCount);
      }
      forall f, g | f in BlockFaces(c, first) && g in FacesAlong(c, rest)
        ensures Before(f, g)
      {
        BlockFacesMember(c, first, f);
        FacesAlongMember(c, rest, g);
        var j :| 0 <= j < |rest| && rest[j] == g.position;
        assert PositionBefore(ps[0], ps[j + 1]);
      }
      OrderedAppend(BlockFaces(c, first), FacesAlong(c, rest));
    }
  }

  /**
   * The mesh lists its faces in the loops' order (y outermost, then z, then
   * x, then direction number), each face once.
   */
  lemma ChunkFacesOrdered(c: Chunk)
    requires c.Valid()
    ensures Ordered(ChunkFaces(c))
  {
    VisitOrderIncreasing(c.width, c.height, c.depth);
    FacesAlongOrdered(c, VisitOrder(c.width, c.height, c.depth));
  }

  /** The tail of an ordered list holds every member except the head, which it does not repeat. */
  lemma OrderedTail(s: seq<Face>, f: Face)
    requires Ordered(s) && s != []
    ensures f in s[1..] <==> f in s && f != s[0]
  {
    if f in s[1..] {
      var k :| 1 <= k < |s| && s[k] == f;
      assert Before(s[0], s[k]);
    }
    if f in s && f != s[0] {
      var k :| 0 <= k < |s| && s[k] == f;
      assert s[1..][k - 1] == f;
    }
  }

  /** The head of an ordered list comes before every other member. */
  lemma OrderedHead(s: seq<Face>, f: Face)
    requires Ordered(s) && f in s
    ensures f == s[0] || Before(s[0], f)
  {
    var k :| 0 <= k < |s| && s[k] == f;
    if k > 0 {
      assert Before(s[0], s[k]);
    }
  }

  lemma BeforeAsymmetric(a: Face, b: Face)
    ensures !(Before(a, b) && Before(b, a))
  {
  }

  /** Two ordered face lists with the same members are the same list. */
  lemma {:induction false} OrderedUnique(s: seq<Face>, t: seq<Face>)
    requires Ordered(s) && Ordered(t)
    requires forall f :: f in s <==> f in t
    ensures s == t
  {
    if s != [] {
      assert s[0] in t;
    }
    if t != [] {
      assert t[0] in s;
    }
    if s != [] {
      OrderedHead(s, t[0]);
      OrderedHead(t, s[0]);
      BeforeAsymmetric(s[0], t[0]);
      forall f
        ensures f in s[1..] <==> f in t[1..]
      {
        OrderedTail(s, f);
        OrderedTail(t, f);
      }
      OrderedUnique(s[1..], t[1..]);
      assert s == [s[0]] + s[1..] && t == [t[0]] + t[1..];
    }
  }

  /**
   * The mesher reads only the first width*height*depth blocks: a longer
   * array, such as a cached generator array of an earlier, larger call,
   * meshes exactly as its prefix does.
   */
  lemma TrailingBlocksUnread(c: Chunk)
    requires c.Valid()
    ensures var prefix := Chunk(c.blocks[..c.width * c.height * c.depth], c.width, c.height, c.depth);
      prefix.Valid() && ChunkFaces(c) == ChunkFaces(prefix)
  {
    var prefix := Chunk(c.blocks[..c.width * c.height * c.depth], c.width, c.height, c.depth);
    forall f
      ensures f in ChunkFaces(c) <==> f in ChunkFaces(prefix)
    {
      ChunkFacesMember(c, f);
      ChunkFacesMember(prefix, f);
    }
    ChunkFacesOrdered(c);
    ChunkFacesOrdered(prefix);
    OrderedUnique(ChunkFaces(c), ChunkFaces(prefix));
  }

  // ---------------------------------------------------------------------------
  // Characteristic chunks
  // ---------------------------------------------------------------------------

  /** A chunk of nothing but AIR has an empty mesh. */
  lemma AllAirChunkIsEmpty(c: Chunk)
    requires c.Valid()
    requires forall i :: 0 <= i < |c.blocks| ==> c.blocks[i] == AIR
    ensures ChunkFaces(c) == []
    ensures MeshVertices(ChunkFaces(c)) == [] && MeshIndices(|ChunkFaces(c)|) == []
  {
    if ChunkFaces(c) != [] {
      ChunkFacesMember(c, ChunkFaces(c)[0]);
    }
  }

  /** A chunk without any AIR block has an empty mesh: every neighbour is solid or outside. */
  lemma SolidChunkIsEmpty(c: Chunk)
    requires c.Valid()
    requires forall i :: 0 <= i < |c.blocks| ==> c.blocks[i] != AIR
    ensures ChunkFaces(c) == []
    ensures MeshVertices(ChunkFaces(c)) == [] && MeshIndices(|ChunkFaces(c)|) == []
  {
    if ChunkFaces(c) != [] {
      ChunkFacesMember(c, ChunkFaces(c)[0]);
    }
  }

  /** The faces of a lone block at the origin of a chunk at least 2 blocks in every direction. */
  function LoneBlockFaces(t: BlockType): seq<Face> {
    var o := Vec3(0, 0, 0);
    [ Face(o, FRONT, t), Face(o, RIGHT, t), Face(o, TOP, t) ]
  }

  /** Only the origin has flat index 0. */
  lemma IndexZeroIsOrigin(c: Chunk, p: Vec3)
    requires c.Valid() && c.Contains(p)
    requires GetBlockIndex(p.x, p.y, p.z, c.width, c.height, c.depth) == 0
    ensures p == Vec3(0, 0, 0)
  {
    BlockIndexInjective(p, Vec3(0, 0, 0), c.width, c.height, c.depth);
  }

  /**
   * A single solid block in the corner at the origin shows exactly its FRONT,
   * RIGHT and TOP faces, in that order: 12 vertices and 18 indices. Its other
   * three neighbours lie outside the chunk.
   */
  lemma LoneBlockAtOrigin(c: Chunk)
    requires c.Valid() && c.width >= 2 && c.height >= 2 && c.depth >= 2
    requires c.blocks[0] != AIR
    requires forall i :: 0 < i < |c.blocks| ==> c.blocks[i] == AIR
    ensures ChunkFaces(c) == LoneBlockFaces(c.blocks[0])
    ensures |MeshVertices(ChunkFaces(c))| == 12 && |MeshIndices(|ChunkFaces(c)|)| == 18
  {
    var t := c.blocks[0];
    var expected := LoneBlockFaces(t);
    forall f
      ensures f in ChunkFaces(c) <==> f in expected
    {
      ChunkFacesMember(c, f);
      if c.Contains(f.position) && c.At(f.position) != AIR {
        if f.position != Vec3(0, 0, 0) {
          IndexZeroIsOrigin(c, f.position);
        }
      }
      var o := Vec3(0, 0, 0);
      assert c.At(o) == t;
      assert c.At(Vec3(0, 0, 1)) == AIR;
      assert c.At(Vec3(1, 0, 0)) == AIR;
      assert c.At(Vec3(0, 1, 0)) == AIR;
    }
    ChunkFacesOrdered(c);
    assert Ordered(expected);
    OrderedUnique(ChunkFaces(c), expected);
    MeshBuffersConsistent(expected);
  }

  // ---------------------------------------------------------------------------
  // The geometry of a quad
  // ---------------------------------------------------------------------------

  /** The plane of a block's face: a coordinate fixed at the block's near or far side. */
  predicate OnFacePlane(face: BlockFace, block: Vec3, v: Vec3) {
    match face
    case FRONT => v.z == block.z + 1
    case BACK => v.z == block.z
    case LEFT => v.x == block.x
    case RIGHT => v.x == block.x + 1
    case TOP => v.y == block.y + 1
    case BOTTOM => v.y == block.y
  }

  /** The corner lies on the unit cube of the block. */
  predicate OnBlock(block: Vec3, v: Vec3) {
    && block.x <= v.x <= block.x + 1
    && block.y <= v.y <= block.y + 1
    && block.z <= v.z <= block.z + 1
  }

  /**
   * All four vertices of a face carry the face's normal and the tint the
   * registry gives the block's face: green on the top of GRASS, white
   * everywhere else. The normal is perpendicular to every edge of the quad.
   */
  lemma QuadNormalAndTint(f: Face)
    ensures forall k :: 0 <= k < 4 ==> Quad(f)[k].normal == Normal(f.face) && Quad(f)[k].color == GetBlockTexture(f.block, f.face).color
    ensures forall k :: 0 <= k < 4 ==>
      Quad(f)[k].color == if f.block == GRASS && f.face == TOP then GrassGreen else White
    ensures var n := Normal(f.face);
      forall j, k :: 0 <= j < 4 && 0 <= k < 4 ==>
        var e := Quad(f)[j].position.Minus(Quad(f)[k].position);
        e.x * n.x + e.y * n.y + e.z * n.z == 0
  {
    match f.face
    case FRONT =>
    case BACK =>
    case LEFT =>
    case RIGHT =>
    case TOP =>
    case BOTTOM =>
  }

  /**
   * All four vertices lie on the face's side of the block's unit cube, which
   * is also the side of the neighbour's cube the face is tested against.
   */
  lemma QuadOnFace(f: Face)
    ensures forall k :: 0 <= k < 4 ==> OnFacePlane(f.face, f.position, Quad(f)[k].position)
    ensures forall k :: 0 <= k < 4 ==> OnBlock(f.position, Quad(f)[k].position)
    ensures forall k :: 0 <= k < 4 ==> OnBlock(f.position.Plus(Normal(f.face)), Quad(f)[k].position)
  {
    match f.face
    case FRONT =>
    case BACK =>
    case LEFT =>
    case RIGHT =>
    case TOP =>
    case BOTTOM =>
  }

  /**
   * The vertices form a unit parallelogram run counter-clockwise seen from
   * outside: the cross product e1 x e2 of the edges from the first corner to
   * the second and to the fourth is the outward normal.
   */
  lemma QuadWinding(f: Face)
    ensures var q := Quad(f);
      var e1 := q[1].position.Minus(q[0].position);
      var e2 := q[3].position.Minus(q[0].position);
      && Vec3(e1.y * e2.z - e1.z * e2.y, e1.z * e2.x - e1.x * e2.z, e1.x * e2.y - e1.y * e2.x) == Normal(f.face)
      && e1 == q[2].position.Minus(q[3].position)
  {
    match f.face
    case FRONT =>
    case BACK =>
    case LEFT =>
    case RIGHT =>
    case TOP =>
    case BOTTOM =>
  }

  /**
   * The vertices take the corners of the atlas rectangle bottom-left,
   * bottom-right, top-right, top-left, each corner once. On the four side
   * faces the tile stands upright: the lower edge of the block gets the
   * tile's lower edge and the upper edge its upper edge.
   */
  lemma QuadTexcoords(f: Face)
    ensures var q := Quad(f); var r := GetBlockTexture(f.block, f.face).coords;
      && q[0].texcoord == Vec2(r.minX, r.minY)
      && q[1].texcoord == Vec2(r.maxX, r.minY)
      && q[2].texcoord == Vec2(r.maxX, r.maxY)
      && q[3].texcoord == Vec2(r.minX, r.maxY)
    ensures var q := Quad(f);
      forall j, k :: 0 <= j < k < 4 ==> q[j].texcoord != q[k].texcoord
    ensures var q := Quad(f); var r := GetBlockTexture(f.block, f.face).coords;
      f.face != TOP && f.face != BOTTOM ==>
        forall k :: 0 <= k < 4 ==> q[k].position.y - f.position.y == q[k].texcoord.v - r.minY
  {
    match f.face
    case FRONT =>
    case BACK =>
    case LEFT =>
    case RIGHT =>
    case TOP =>
    case BOTTOM =>
  }
}
