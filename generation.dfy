/**
 * The chunk generators of src/generation.cpp. Each keeps function-local
 * static state in the source; here that state is the fields of a class, so
 * that what a later call returns can be stated in terms of the first.
 *
 * The generators fill a flat block array with triple loops over x, then y,
 * then z. The fill methods are proved against "filled up to the loop
 * cursor" predicates: every position the loops have passed holds its target
 * block, every other position is still AIR.
 */
module Generation {
  import opened CppInt
  import opened WorldTypes
  import opened World

  /** Position p comes before q in the generators' loop order: x, then y, then z. */
  predicate LoopBefore(p: Vec3, q: Vec3) {
    || p.x < q.x
    || (p.x == q.x && p.y < q.y)
    || (p.x == q.x && p.y == q.y && p.z < q.z)
  }

  /** Writing the block at position p changes the block at p and no other. */
  lemma SetBlock(blocks: seq<BlockType>, width: int, height: int, depth: int, p: Vec3, t: BlockType, q: Vec3)
    requires |blocks| == width * height * depth
    requires InChunkBounds(p.x, p.y, p.z, width, height, depth)
    requires InChunkBounds(q.x, q.y, q.z, width, height, depth)
    ensures var after := blocks[GetBlockIndex(p.x, p.y, p.z, width, height, depth) := t];
      after[GetBlockIndex(q.x, q.y, q.z, width, height, depth)] ==
        if q == p then t else blocks[GetBlockIndex(q.x, q.y, q.z, width, height, depth)]
  {
    if GetBlockIndex(q.x, q.y, q.z, width, height, depth) == GetBlockIndex(p.x, p.y, p.z, width, height, depth) {
      BlockIndexInjective(p, q, width, height, depth);
    }
  }

  /**
   * A chunk with no position in bounds: some dimension is zero or negative.
   * Neither generator's loops write anything then, so the freshly built
   * vector stays AIR throughout, however long its size product makes it.
   */
  ghost predicate AirWithoutPositions(blocks: seq<BlockType>, width: int, height: int, depth: int) {
    (width <= 0 || height <= 0 || depth <= 0) ==> forall i :: 0 <= i < |blocks| ==> blocks[i] == AIR
  }

  // ---------------------------------------------------------------------------
  // FlatWorldGenerator
  // ---------------------------------------------------------------------------

  /** The block the flat generator places at height y: the branches of its innermost loop body. */
  function FlatLayer(y: int): BlockType {
    if y == 0 then BEDROCK
    else if y < 4 then STONE
    else if y < 8 then DIRT
    else if y < 9 then GRASS
    else AIR
  }

  /**
   * From the bottom of the chunk up: one layer of BEDROCK, three of STONE,
   * four of DIRT, one of GRASS, AIR above.
   */
  lemma FlatLayers(y: int)
    requires y >= 0
    ensures y == 0 <==> FlatLayer(y) == BEDROCK
    ensures 1 <= y < 4 <==> FlatLayer(y) == STONE
    ensures 4 <= y < 8 <==> FlatLayer(y) == DIRT
    ensures y == 8 <==> FlatLayer(y) == GRASS
    ensures y >= 9 <==> FlatLayer(y) == AIR
    ensures IsNamed(FlatLayer(y))
  {
  }

  /** The array holds the flat world: every block is the layer its height calls for, and AIR when no position is in bounds. */
  ghost predicate IsFlatChunk(blocks: seq<BlockType>, width: int, height: int, depth: int) {
    && |blocks| == width * height * depth
    && AirWithoutPositions(blocks, width, height, depth)
    && forall x, y, z :: InChunkBounds(x, y, z, width, height, depth) ==>
        blocks[GetBlockIndex(x, y, z, width, height, depth)] == FlatLayer(y)
  }

  /** The flat fill has reached `cursor`: the blocks before it hold their layer, the others are AIR. */
  ghost predicate FlatUpTo(blocks: seq<BlockType>, width: int, height: int, depth: int, cursor: Vec3) {
    && |blocks| == width * height * depth
    && AirWithoutPositions(blocks, width, height, depth)
    && forall x, y, z :: InChunkBounds(x, y, z, width, height, depth) ==>
        blocks[GetBlockIndex(x, y, z, width, height, depth)] ==
          if LoopBefore(Vec3(x, y, z), cursor) then FlatLayer(y) else AIR
  }

  /** One write of the flat fill moves the cursor past the written position. */
  lemma FlatStep(blocks: seq<BlockType>, width: int, height: int, depth: int, p: Vec3)
    requires InChunkBounds(p.x, p.y, p.z, width, height, depth)
    requires FlatUpTo(blocks, width, height, depth, p)
    ensures FlatUpTo(blocks[GetBlockIndex(p.x, p.y, p.z, width, height, depth) := FlatLayer(p.y)],
                     width, height, depth, Vec3(p.x, p.y, p.z + 1))
  {
    forall x, y, z | InChunkBounds(x, y, z, width, height, depth)
      ensures blocks[GetBlockIndex(p.x, p.y, p.z, width, height, depth) := FlatLayer(p.y)][GetBlockIndex(x, y, z, width, height, depth)] ==
        if LoopBefore(Vec3(x, y, z), Vec3(p.x, p.y, p.z + 1)) then FlatLayer(y) else AIR
    {
      SetBlock(blocks, width, height, depth, p, FlatLayer(p.y), Vec3(x, y, z));
    }
  }

  /** The z loop of `FlatWorldGenerator` for column (x, y). */
  method FillFlatColumn(blocks: seq<BlockType>, width: int, height: int, depth: int, x: int, y: int)
    returns (blocks': seq<BlockType>)
    requires 0 <= x < width && 0 <= y < height
    requires FlatUpTo(blocks, width, height, depth, Vec3(x, y, 0))
    ensures FlatUpTo(blocks', width, height, depth, Vec3(x, y + 1, 0))
  {
    blocks' := blocks;
    var z := 0;
    while z < depth
      invariant 0 <= z && (z <= depth || z == 0)
      invariant FlatUpTo(blocks', width, height, depth, Vec3(x, y, z))
    {
      var p := Vec3(x, y, z);
      var index := GetBlockIndex(x, y, z, width, height, depth);
      FlatStep(blocks', width, height, depth, p);
      if y == 0 {
        blocks' := blocks'[index := BEDROCK];
      } else if y < 4 {
        blocks' := blocks'[index := STONE];
      } else if y < 8 {
        blocks' := blocks'[index := DIRT];
      } else if y < 9 {
        blocks' := blocks'[index := GRASS];
      } else {
        assert blocks'[index := FlatLayer(y)] == blocks';
      }
      z := z + 1;
    }
  }

  /** The y loop of `FlatWorldGenerator` for slab x. */
  method FillFlatSlab(blocks: seq<BlockType>, width: int, height: int, depth: int, x: int)
    returns (blocks': seq<BlockType>)
    requires 0 <= x < width
    requires FlatUpTo(blocks, width, height, depth, Vec3(x, 0, 0))
    ensures FlatUpTo(blocks', width, height, depth, Vec3(x + 1, 0, 0))
  {
    blocks' := blocks;
    var y := 0;
    while y < height
      invariant 0 <= y && (y <= height || y == 0)
      invariant FlatUpTo(blocks', width, height, depth, Vec3(x, y, 0))
    {
      blocks' := FillFlatColumn(blocks', width, height, depth, x, y);
      y := y + 1;
    }
  }

  /** The function-local statics of `FlatWorldGenerator`. */
  class FlatWorld {
    /** The static `blocks` vector: sized by the first call, returned by every call. */
    var blocks: seq<BlockType>
    /** The static `cached` flag: the first call has filled `blocks`. */
    var cached: bool
    /** The dimensions of the first call. */
    ghost var size: (int, int, int)

    ghost predicate Valid()
      reads this
    {
      cached ==> IsFlatChunk(blocks, size.0, size.1, size.2)
    }

    /** The statics before the first call. */
    constructor ()
      ensures Valid() && !cached
    {
      blocks, cached := [], false;
      size := (0, 0, 0);
    }

    /**
     * `FlatWorldGenerator`: the first call fills a width x height x depth flat
     * world and caches it; every later call returns that same array, whatever
     * its chunk coordinate and dimensions. The chunk coordinate is unused.
     */
    method Generate(chunk: (int, int), width: int, height: int, depth: int) returns (r: seq<BlockType>)
      requires Valid()
      requires !cached ==> width * height * depth >= 0
      modifies this
      ensures Valid() && cached && r == blocks
      ensures old(cached) ==> blocks == old(blocks) && size == old(size)
      ensures !old(cached) ==> size == (width, height, depth) && IsFlatChunk(r, width, height, depth)
    {
      if cached {
        return blocks;
      }
      var filled := seq(width * height * depth, _ => AIR);
      var x := 0;
      while x < width
        invariant 0 <= x && (x <= width || x == 0)
        invariant FlatUpTo(filled, width, height, depth, Vec3(x, 0, 0))
      {
        filled := FillFlatSlab(filled, width, height, depth, x);
        x := x + 1;
      }
      blocks, size := filled, (width, height, depth);
      cached := true;
      return blocks;
    }
  }

  // ---------------------------------------------------------------------------
  // BlockTestWorldGenerator
  // ---------------------------------------------------------------------------

  /**
   * The block value of chunk (cx, cy): `(BEDROCK*1000 + cx + cy) % (BEDROCK+1) + 1`
   * with C++'s truncating remainder, cast to BlockType.
   */
  function TestBlockValue(cx: int, cy: int): (t: BlockType)
    ensures cx + cy >= -7000 ==> 1 <= t as int <= 8
    ensures cx + cy <= -7000 ==> -6 <= t as int <= 1
  {
    var n, m := BEDROCK as int * 1000 + cx + cy, BEDROCK as int + 1;
    TruncDivRem(n, m);
    (TruncRem(n, m) + 1) as BlockType
  }

  /**
   * From x + y = -7000 up, the value is (cx + cy) mod 8, plus one: it cycles
   * through 1 .. 8 with period 8, and 8 names no block type.
   */
  lemma TestBlockValueCycles(cx: int, cy: int)
    requires cx + cy >= -7000
    ensures TestBlockValue(cx, cy) as int == (cx + cy) % 8 + 1
    ensures TestBlockValue(cx, cy) == TestBlockValue(cx + 8, cy) == TestBlockValue(cx, cy + 8)
    ensures IsNamed(TestBlockValue(cx, cy)) <==> (cx + cy) % 8 != 7
  {
    var n := 7000 + cx + cy;
    TruncAgreesOnNonNegative(n, 8);
    TruncAgreesOnNonNegative(n + 8, 8);
    assert n % 8 == (cx + cy) % 8 by {
      DivModUnique(n, 8, (cx + cy) / 8 + 875, (cx + cy) % 8);
    }
    assert (n + 8) % 8 == n % 8 by {
      DivModUnique(n + 8, 8, n / 8 + 1, n % 8);
    }
  }

  /** The box the block-test generator fills: 2 <= x < width-2, 0 <= y < 5, 2 <= z < depth-2. */
  predicate InTestBox(p: Vec3, width: int, depth: int) {
    2 <= p.x < width - 2 && 0 <= p.y < 5 && 2 <= p.z < depth - 2
  }

  /** The array holds block `t` in the test box and AIR everywhere else, all of it when no position is in bounds. */
  ghost predicate IsTestChunk(blocks: seq<BlockType>, t: BlockType, width: int, height: int, depth: int) {
    && |blocks| == width * height * depth
    && AirWithoutPositions(blocks, width, height, depth)
    && forall x, y, z :: InChunkBounds(x, y, z, width, height, depth) ==>
        blocks[GetBlockIndex(x, y, z, width, height, depth)] ==
          if InTestBox(Vec3(x, y, z), width, depth) then t else AIR
  }

  /** The test fill has reached `cursor`: box positions before it hold `t`, all others are AIR. */
  ghost predicate TestUpTo(blocks: seq<BlockType>, t: BlockType, width: int, height: int, depth: int, cursor: Vec3) {
    && |blocks| == width * height * depth
    && AirWithoutPositions(blocks, width, height, depth)
    && forall x, y, z :: InChunkBounds(x, y, z, width, height, depth) ==>
        blocks[GetBlockIndex(x, y, z, width, height, depth)] ==
          if InTestBox(Vec3(x, y, z), width, depth) && LoopBefore(Vec3(x, y, z), cursor) then t else AIR
  }

  /** One write of the test fill, at a position of the box, moves the cursor past it. */
  lemma TestStep(blocks: seq<BlockType>, t: BlockType, width: int, height: int, depth: int, p: Vec3)
    requires InChunkBounds(p.x, p.y, p.z, width, height, depth) && InTestBox(p, width, depth)
    requires TestUpTo(blocks, t, width, height, depth, p)
    ensures TestUpTo(blocks[GetBlockIndex(p.x, p.y, p.z, width, height, depth) := t],
                     t, width, height, depth, Vec3(p.x, p.y, p.z + 1))
  {
    forall x, y, z | InChunkBounds(x, y, z, width, height, depth)
      ensures blocks[GetBlockIndex(p.x, p.y, p.z, width, height, depth) := t][GetBlockIndex(x, y, z, width, height, depth)] ==
        if InTestBox(Vec3(x, y, z), width, depth) && LoopBefore(Vec3(x, y, z), Vec3(p.x, p.y, p.z + 1)) then t else AIR
    {
      SetBlock(blocks, width, height, depth, p, t, Vec3(x, y, z));
    }
  }

  /** The z loop of `BlockTestWorldGenerator` for column (x, y). */
  method FillTestColumn(blocks: seq<BlockType>, t: BlockType, width: int, height: int, depth: int, x: int, y: int)
    returns (blocks': seq<BlockType>)
    requires 2 <= x < width - 2 && 0 <= y < 5 && y < height && depth >= 0
    requires TestUpTo(blocks, t, width, height, depth, Vec3(x, y, 2))
    ensures TestUpTo(blocks', t, width, height, depth, Vec3(x, y + 1, 2))
  {
    blocks' := blocks;
    var z := 2;
    while z < depth - 2
      invariant 2 <= z && (z <= depth - 2 || depth - 2 < 2)
      invariant TestUpTo(blocks', t, width, height, depth, Vec3(x, y, z))
    {
      TestStep(blocks', t, width, height, depth, Vec3(x, y, z));
      blocks' := blocks'[GetBlockIndex(x, y, z, width, height, depth) := t];
      z := z + 1;
    }
  }

  /** The y loop of `BlockTestWorldGenerator` for slab x: always the five layers 0 .. 4. */
  method FillTestSlab(blocks: seq<BlockType>, t: BlockType, width: int, height: int, depth: int, x: int)
    returns (blocks': seq<BlockType>)
    requires 2 <= x < width - 2
    requires depth > 4 ==> height >= 5
    requires TestUpTo(blocks, t, width, height, depth, Vec3(x, 0, 2))
    ensures TestUpTo(blocks', t, width, height, depth, Vec3(x + 1, 0, 2))
  {
    blocks' := blocks;
    for y := 0 to 5
      invariant TestUpTo(blocks', t, width, height, depth, Vec3(x, y, 2))
    {
      if depth > 4 {
        blocks' := FillTestColumn(blocks', t, width, height, depth, x, y);
      } else {
        assert TestUpTo(blocks', t, width, height, depth, Vec3(x, y + 1, 2));
      }
    }
  }

  /** The fresh array of `BlockTestWorldGenerator` for block value t. */
  method FillTestChunk(t: BlockType, width: int, height: int, depth: int) returns (blocks: seq<BlockType>)
    requires width * height * depth >= 0
    requires width > 4 && depth > 4 ==> height >= 5
    ensures IsTestChunk(blocks, t, width, height, depth)
  {
    blocks := seq(width * height * depth, _ => AIR);
    var x := 2;
    while x < width - 2
      invariant 2 <= x && (x <= width - 2 || width - 2 < 2)
      invariant TestUpTo(blocks, t, width, height, depth, Vec3(x, 0, 2))
    {
      blocks := FillTestSlab(blocks, t, width, height, depth, x);
      x := x + 1;
    }
  }

  /** The function-local static `block_map` of `BlockTestWorldGenerator`. */
  class BlockTestWorld {
    /** The cached array of each block value generated so far. */
    var blockMap: map<BlockType, seq<BlockType>>
    /** The dimensions of the call that generated each cached array. */
    ghost var sizes: map<BlockType, (int, int, int)>

    ghost predicate Valid()
      reads this
    {
      && blockMap.Keys == sizes.Keys
      && forall t :: t in blockMap ==> IsTestChunk(blockMap[t], t, sizes[t].0, sizes[t].1, sizes[t].2)
    }

    /** The empty cache before the first call. */
    constructor ()
      ensures Valid() && blockMap == map[]
    {
      blockMap := map[];
      sizes := map[];
    }

    /**
     * `BlockTestWorldGenerator`: the chunk's block value selects a cached
     * array; an uncached value gets a fresh array of the call's dimensions,
     * filled with that value in the test box. Chunks with the same value get
     * the same array, with the dimensions of the first of them.
     */
    method Generate(chunk: (int, int), width: int, height: int, depth: int) returns (r: seq<BlockType>)
      requires Valid()
      requires TestBlockValue(chunk.0, chunk.1) !in blockMap ==>
        width * height * depth >= 0 && (width > 4 && depth > 4 ==> height >= 5)
      modifies this
      ensures Valid()
      ensures var t := TestBlockValue(chunk.0, chunk.1);
        && t in blockMap && r == blockMap[t]
        && (t in old(blockMap) ==> blockMap == old(blockMap) && sizes == old(sizes))
        && (t !in old(blockMap) ==>
              blockMap == old(blockMap)[t := r] && sizes == old(sizes)[t := (width, height, depth)])
    {
      var block := TestBlockValue(chunk.0, chunk.1);
      if block !in blockMap {
        var blocks := FillTestChunk(block, width, height, depth);
        blockMap := blockMap[block := blocks];
        sizes := sizes[block := (width, height, depth)];
      }
      return blockMap[block];
    }
  }

  // ---------------------------------------------------------------------------
  // LuaWorldGenerator::GetChunk
  // ---------------------------------------------------------------------------

  /** The type tag `lua_getglobal` reports for a missing global: LUA_TNIL, which equals LUA_OK. */
  const LuaNil := 0

  /** The function-local static `defaultChunk` of `GetChunk`, shared by every generator. */
  class DefaultChunk {
    /** The static vector: sized by the first call, never written again. */
    var blocks: seq<BlockType>
    /** The static has been constructed, by the first call. */
    var initialised: bool
    /** The dimensions of the first call. */
    ghost var size: (int, int, int)

    /** Once constructed, the vector is AIR throughout, one block per position of the first call's chunk. */
    ghost predicate Valid()
      reads this
    {
      initialised ==> size.0 * size.1 * size.2 >= 0 && blocks == seq(size.0 * size.1 * size.2, _ => AIR)
    }

    constructor ()
      ensures Valid() && !initialised
    {
      blocks, initialised := [], false;
      size := (0, 0, 0);
    }
  }

  /** A Lua-scripted generator: its interpreter state is present, or moved out (`L == nullptr`). */
  class LuaWorldGenerator {
    var loaded: bool

    constructor (loaded: bool)
      ensures this.loaded == loaded
    {
      this.loaded := loaded;
    }

    /**
     * `GetChunk`: the static default chunk (all AIR, sized by the first call)
     * on every path: a moved-out state, a global reported as anything but
     * LUA_OK (= LUA_TNIL), a `generate_chunk` that is not a function, and the
     * fall-through. `globalType` is the tag `lua_getglobal` reports.
     */
    method GetChunk(defaults: DefaultChunk, chunk: (int, int), width: int, height: int, depth: int, globalType: int)
      returns (r: seq<BlockType>)
      requires defaults.Valid()
      requires !defaults.initialised ==> width * height * depth >= 0
      modifies defaults
      ensures defaults.Valid() && defaults.initialised && r == defaults.blocks
      ensures old(defaults.initialised) ==> defaults.blocks == old(defaults.blocks) && defaults.size == old(defaults.size)
      ensures !old(defaults.initialised) ==> defaults.size == (width, height, depth)
      ensures |r| == defaults.size.0 * defaults.size.1 * defaults.size.2
      ensures forall i :: 0 <= i < |r| ==> r[i] == AIR
    {
      if !defaults.initialised {
        defaults.blocks := seq(width * height * depth, _ => AIR);
        defaults.size := (width, height, depth);
        defaults.initialised := true;
      }
      if !loaded {
        r := defaults.blocks;
      } else if globalType != LuaNil {
        r := defaults.blocks;
      } else {
        // The global is nil, which is not a function: the last `return` is never reached.
        r := defaults.blocks;
      }
    }
  }

  /** Every block of the default chunk, at every position of the first call's chunk, is AIR. */
  lemma DefaultChunkIsAir(defaults: DefaultChunk)
    requires defaults.Valid() && defaults.initialised
    ensures var (width, height, depth) := defaults.size;
      && |defaults.blocks| == width * height * depth
      && forall x, y, z :: InChunkBounds(x, y, z, width, height, depth) ==>
           defaults.blocks[GetBlockIndex(x, y, z, width, height, depth)] == AIR
  {
  }
}
