# Voxel world core: chunk meshing, generation, atlas tiles, vertex layout

A Dafny model of the core of a small voxel-world renderer. The renderer is written in C++ and draws with OpenGL. It has four parts:

- **Chunk mesher** (`CreateChunkMesh`, src/world.cpp).
  - A chunk is a flat array of block types, addressed by `GetBlockIndex`.
  - The mesher walks the chunk with y outermost, then z, then x, then the six face directions.
  - A face is emitted for every face of a non-AIR block whose neighbour on that side lies in the chunk and is AIR.
  - Each emitted face becomes a quad of four vertices and six indices (two triangles). The quad's texture and tint come from the block registry `GetBlockTexture`.
- **World generators** (src/generation.cpp).
  - `FlatWorldGenerator` layers BEDROCK, STONE, DIRT and GRASS and caches the first chunk it builds.
  - `BlockTestWorldGenerator` fills a box with a block value derived from the chunk coordinate, and caches one array per value.
  - `LuaWorldGenerator::GetChunk` always answers with an all-AIR default chunk.
- **Atlas tile arithmetic** (`Texture::GetTextureCoords`, src/renderer/textures.cpp). It maps tile `index` of a `count` × `count` atlas to its rectangle in texture space, with the vertical axis flipped.
- **Vertex layout bookkeeping** (src/renderer/arrays.h, arrays.cpp).
  - `VertexBufferLayout` is an append-only attribute list with a running 32-bit stride.
  - `VertexArray::AddBuffer` gives attribute i location i. Its byte offset is the prefix sum of the sizes of the attributes before it.

Files:

| file | module | what |
|---|---|---|
| cpp_int.dfy | CppInt | C++ truncating `/` and `%`, unsigned wrap-around |
| textures.dfy | Textures | `GetTextureCoords` and the atlas tiling lemmas |
| world_types.dfy | WorldTypes | `BlockType`, `BlockFace`, `BlockTexture`, `BlockVertex` |
| world.dfy | World | `GetBlockTexture`, `InChunkBounds`, `GetBlockIndex` and its inverse |
| mesher.dfy | Mesher | the specification of the mesher's output: the emitted face list and its vertex and index buffers |
| chunk_mesh.dfy | ChunkMesh | `CreateChunkMesh` as imperative loops, proved to produce exactly those buffers |
| mesh_properties.dfy | MeshProperties | what the output means: which faces, in which order, buffer shape, quad geometry, characteristic chunks |
| generation.dfy | Generation | the three generators, with their static caches as class fields |
| arrays.dfy | VertexLayout | `GetSizeOfType`, `VertexBufferLayout`, the `AddBuffer` offset loop |

### Modelling choices

- **`BlockType` values.** `BlockType` is an `int`-backed enum class, modelled as a 32-bit `newtype` with the eight named constants. A cast can produce an unnamed value: the block-test generator produces 8.
- **Integer division and remainder.** C++ `/` and `%` on `int` truncate toward zero; Dafny's are Euclidean. `CppInt.TruncDiv` and `CppInt.TruncRem` model the C++ operators, and every integer `/` or `%` in the source goes through them. The float divisions of `GetTextureCoords` are exact in units of 1/count (next line).
- **Texture coordinates.** They are exact: each is stored in units of 1/count, i.e. as the numerator over `count`.
- **Tints.** The float tints are modelled as two tags: `White` is (1, 1, 1) and `GrassGreen` is (0.7, 1.0, 0.4).
- **How the mesher is specified.**
  - `VisitOrder` lists the block positions in the order the loops visit them.
  - `FacesAlong` concatenates each visited block's faces.
  - `DirectionFaces` lists one block's faces in direction order.
  - `MeshVertices` and `MeshIndices` turn the face list into the buffers.
- **How the mesher is implemented.**
  - `CreateChunkMesh` and its per-loop-level methods append to the buffers step by step, as the source does.
  - Their `ensures` tie the result to `MeshVertices(ChunkFaces(...))` and `MeshIndices(|ChunkFaces(...)|)`.
- **Function-local statics.**
  - `FlatWorld` holds `blocks` and `cached`.
  - `BlockTestWorld` holds `block_map`.
  - `DefaultChunk` holds `GetChunk`'s `defaultChunk`.
  - Each is a class whose methods change these fields. Ghost fields record the dimensions of the call that filled each cached array, and each class's `Valid` invariant says what that array holds.
- **`GetChunk` never returns a generated chunk.**
  - `lua_getglobal` returns the type tag of the global it pushes, and the source compares that tag with `LUA_OK`. Since `LUA_OK` and `LUA_TNIL` are both 0, any global that is defined takes the error path.
  - A missing global is nil, which is not a function, so the later check also returns.
  - The final `return defaultChunk` returns the same value, but no input reaches it.
  - So every path returns the default chunk. The model has one branch per path, and the Lua type tag is a parameter.

## Model

| member | source | states |
|---|---|---|
| CppInt.TruncDivRem | src/generation.cpp:39 | C++ `int` division and remainder: `a == b*(a/b) + a%b`, with a remainder that has the dividend's sign and is smaller in magnitude than the divisor |
| Textures.GetTextureCoords | src/renderer/textures.cpp:94-106 | for index ≥ 0, min_x = index mod count and the row index/count is flipped: min_y = count − (index div count + 1), in units of 1/count |
| Textures.TileSize | src/renderer/textures.cpp:99-100 | every tile is exactly 1/count wide and 1/count tall |
| Textures.TileWithinUnitSquare | src/renderer/textures.cpp:96-105 | for 0 ≤ index < count², the tile lies inside the unit square |
| Textures.DistinctTiles | src/renderer/textures.cpp:96-105 | distinct non-negative indices give distinct rectangles |
| Textures.NextRowIsBelow | src/renderer/textures.cpp:96-97 | tiles index and index+count share min_x, and their min_y differ by 1/count (one row down) |
| Textures.TopRowIsAtTop | src/renderer/textures.cpp:103 | the vertical flip: row 0 occupies [1 − 1/count, 1] |
| WorldTypes.NamedTypes | src/world.h:8-17 | AIR is enumerator 0 and BEDROCK 7, and a value names a block type iff it lies in 0..7 |
| WorldTypes.FaceCastBijective | src/world.h:19-26 | `static_cast<BlockFace>` and the enumerator value are inverse on 0..5 |
| World.BlockTile | src/world.cpp:9-39 | every block type and face gets a tile inside the 16×16 atlas; only the GRASS top face is tinted; AIR and unnamed values get the fallback tile 31 untinted |
| World.GrassAndWoodTiles | src/world.cpp:10-30 | GRASS shows tile 0 on top (tinted), 2 below and 3 on the sides; WOOD shows 21 on top and bottom and 20 on the sides |
| World.GetBlockTexture | src/world.cpp:5-40 | the texture is one atlas tile, 1/16 wide and tall; its tint is green exactly for the top of GRASS; AIR and unnamed values show the fallback tile |
| World.BlockTextureInsideAtlas | src/world.cpp:5-40 | the texture `GetBlockTexture` returns for any block and face is a rectangle inside the atlas |
| World.InBoundsChunkIsNonEmpty | src/world.cpp:42-44 | `InChunkBounds` holds only in a chunk with at least one block in every dimension, so w·h·d > 0 |
| World.GetBlockIndex | src/world.cpp:46-48 | an in-bounds position (`InChunkBounds`, src/world.cpp:42-44) has an index inside the w·h·d array |
| World.BlockPosition | src/world.cpp:46-48 | every index of the array is the index of some in-bounds position (the inverse of GetBlockIndex) |
| World.BlockIndexRoundTrip | src/world.cpp:46-48 | BlockPosition(GetBlockIndex(p)) == p for in-bounds p |
| World.BlockIndexInjective | src/world.cpp:46-48 | distinct in-bounds positions have distinct indices |
| Mesher.Normal | src/world.cpp:51-58 | each entry of the direction table is a unit vector along one axis |
| Mesher.Quad | src/world.cpp:93-140 | a face becomes exactly four vertices; their corners, normal, tint and texture coordinates are stated by QuadOnFace, QuadWinding, QuadNormalAndTint and QuadTexcoords |
| Mesher.FacesAlongAppend | src/world.cpp:64-66 | visiting one run of blocks and then another emits the first run's faces, then the second's |
| Mesher.MeshAppend | src/world.cpp:103-149 | emitting one more face appends its four vertices, and six indices based at the old vertex count |
| Mesher.MeshDirectionStep | src/world.cpp:77-149 | one direction of one block: when the neighbour is an in-chunk AIR block, it appends exactly that face's quad and indices; otherwise it leaves both buffers unchanged |
| ChunkMesh.AppendBlockFaces | src/world.cpp:77-151 | the direction loop appends exactly the buffers of the block's emitted faces |
| ChunkMesh.AppendBlock | src/world.cpp:68-151 | the x-loop body: an AIR block adds nothing, any other block adds its faces |
| ChunkMesh.AppendRow | src/world.cpp:66-152 | the x loop appends the faces of a row |
| ChunkMesh.AppendSlice | src/world.cpp:65-153 | the z loop appends the faces of a layer |
| ChunkMesh.CreateChunkMesh | src/world.cpp:50-154 | for a block array of at least w·h·d blocks, the vertex and index buffers are exactly those of the chunk's emitted faces, in the loops' order |
| MeshProperties.MeshVerticesAt | src/world.cpp:103-140 | vertex k is corner k mod 4 of face k div 4 |
| MeshProperties.MeshIndicesAt | src/world.cpp:142-149 | index k is 4·(k div 6) plus entry k mod 6 of the pattern 0,1,2,2,3,0 |
| MeshProperties.MeshBuffersConsistent | src/world.cpp:103-149 | 4 vertices and 6 indices per face, and every index names an existing vertex |
| MeshProperties.DirectionFacesMember | src/world.cpp:77-92 | the direction loop emits a face exactly when the neighbour across it lies in the chunk and is AIR |
| MeshProperties.FacesAlongMember | src/world.cpp:68-92 | the faces emitted along a list of positions are exactly the emittable faces of blocks at those positions |
| MeshProperties.VisitOrderCoversChunk | src/world.cpp:64-66 | the loops visit exactly the in-bounds positions |
| MeshProperties.VisitOrderIncreasing | src/world.cpp:64-66 | the loops visit positions strictly increasing in (y, z, x), so each is visited once |
| MeshProperties.ChunkFacesMember | src/world.cpp:64-92 | a face is in the mesh iff its block is in the chunk and not AIR, and its neighbour across the face is in the chunk and AIR |
| MeshProperties.OutsideNeighbourHidesFace | src/world.cpp:84-86 | a face whose neighbour lies outside the chunk is never emitted |
| MeshProperties.ChunkFacesOrdered | src/world.cpp:64-77 | faces appear ordered by y, z, x, then direction number |
| MeshProperties.OrderedUnique | src/world.cpp:64-77 | an order-respecting face list is determined by its members |
| MeshProperties.TrailingBlocksUnread | src/world.cpp:64-92 | blocks past the first w·h·d are never read: a longer array gives the same faces as its w·h·d prefix |
| MeshProperties.AllAirChunkIsEmpty | src/world.cpp:71-74 | a chunk of nothing but AIR gives empty buffers |
| MeshProperties.SolidChunkIsEmpty | src/world.cpp:84-91 | a chunk with no AIR block gives empty buffers |
| MeshProperties.LoneBlockAtOrigin | src/world.cpp:64-149 | a single block at the origin of an otherwise empty chunk (at least 2 in each dimension) yields its FRONT, RIGHT and TOP faces in that order: 12 vertices, 18 indices |
| MeshProperties.QuadNormalAndTint | src/world.cpp:93-140 | every vertex carries the face's normal and its block's tint, green exactly on the top of GRASS; the normal is perpendicular to every edge of the quad |
| MeshProperties.QuadOnFace | src/world.cpp:103-140 | all four corners lie on the face's plane and on both the block's unit cube and its neighbour's |
| MeshProperties.QuadWinding | src/world.cpp:103-140 | the corners form a unit parallelogram, counter-clockwise seen from outside (edge cross product = outward normal) |
| MeshProperties.QuadTexcoords | src/world.cpp:97-140 | the corners take the atlas rectangle's bottom-left, bottom-right, top-right, top-left, each once; on the side faces the tile stands upright, its lower edge on the block's lower edge |
| Generation.FlatLayers | src/generation.cpp:18-26 | layer 0 BEDROCK, 1–3 STONE, 4–7 DIRT, 8 GRASS, AIR above |
| Generation.FillFlatColumn | src/generation.cpp:17-27 | the z loop moves the fill cursor one column on |
| Generation.FillFlatSlab | src/generation.cpp:16-28 | the y loop moves the fill cursor from slab x to slab x+1 |
| Generation.FlatWorld.constructor | src/generation.cpp:7-10 | before the first call nothing is cached, and the invariant holds |
| Generation.FlatWorld.Generate | src/generation.cpp:6-33 | the first call returns a w·h·d flat world and caches it, all AIR when some dimension is not positive; every later call returns the same array whatever its arguments |
| Generation.TestBlockValue | src/generation.cpp:39 | the block value lies in 1..8 when cx+cy ≥ −7000, and in −6..1 below |
| Generation.TestBlockValueCycles | src/generation.cpp:39 | from cx+cy ≥ −7000 the value is (cx+cy) mod 8 + 1, periodic with period 8 in either coordinate; it names a block type iff (cx+cy) mod 8 ≠ 7 |
| Generation.FillTestColumn | src/generation.cpp:47-49 | the z loop moves the box-fill cursor from (x, y, 2) to (x, y+1, 2) |
| Generation.FillTestSlab | src/generation.cpp:46-50 | the y loop over the five layers 0..4 moves the box-fill cursor from slab x to slab x+1 |
| Generation.FillTestChunk | src/generation.cpp:43-51 | a fresh array holds the value in the box 2 ≤ x < w−2, 0 ≤ y < 5, 2 ≤ z < d−2 and AIR everywhere else, all of it when some dimension is not positive |
| Generation.BlockTestWorld.constructor | src/generation.cpp:36 | the cache starts empty, and the invariant holds |
| Generation.BlockTestWorld.Generate | src/generation.cpp:35-57 | a cached value returns its array and leaves the cache unchanged; a new value caches and returns a fresh box array of the call's dimensions |
| Generation.DefaultChunk.constructor | src/generation.cpp:104 | before the first `GetChunk` call the static is not yet built, and the invariant holds |
| Generation.LuaWorldGenerator.GetChunk | src/generation.cpp:103-125 | every path, on every call, returns the static default chunk, which the first call sizes and no call changes: its length is the product of the first call's dimensions and every block is AIR |
| Generation.DefaultChunkIsAir | src/generation.cpp:104 | the cached default chunk is AIR at every position of the first call's chunk |
| VertexLayout.GetSizeOfType | src/renderer/arrays.h:15-23 | 4 for GL_FLOAT and GL_UNSIGNED_INT, 1 for GL_UNSIGNED_BYTE, 0 exactly for every other type |
| VertexLayout.VertexBufferLayout.constructor | src/renderer/arrays.h:33 | a new layout has no attributes and stride 0 |
| VertexLayout.VertexBufferLayout.GetElements | src/renderer/arrays.h:40 | the attribute list, whose sizes sum to the stride modulo 2³² |
| VertexLayout.VertexBufferLayout.GetStride | src/renderer/arrays.h:41 | the stride, the sum of the attribute sizes modulo 2³² |
| VertexLayout.VertexBufferLayout.Append | src/renderer/arrays.cpp:49-50 | the shared body of the `Push` specialisations: appends the attribute, adds its size to the 32-bit stride, and keeps stride = Σ count·size |
| VertexLayout.VertexBufferLayout.PushFloat | src/renderer/arrays.cpp:47-51 | appends {GL_FLOAT, n, GL_FALSE}, keeps earlier attributes, adds 4n to the 32-bit stride, and keeps stride = Σ count·size |
| VertexLayout.VertexBufferLayout.PushUnsignedInt | src/renderer/arrays.cpp:53-57 | appends {GL_UNSIGNED_INT, n, GL_FALSE}, adds 4n, and keeps the stride invariant |
| VertexLayout.VertexBufferLayout.PushUnsignedChar | src/renderer/arrays.cpp:59-63 | appends {GL_UNSIGNED_BYTE, n, GL_TRUE} (the only normalised kind), adds n, and keeps the stride invariant |
| VertexLayout.VertexBufferLayout.PushUnsupported | src/renderer/arrays.h:35-38 | the generic `Push<T>` throws a runtime error with the source's message and changes nothing |
| VertexLayout.AddBuffer | src/renderer/arrays.h:82-90 | over `layout.GetElements()`, attribute i gets location i, its own count, type and flag, `layout.GetStride()`, and the offset Σ count·size over attributes 0..i−1; for a layout built by `Push` under 4 GiB per vertex, the final offset is the stride |
| VertexLayout.OffsetMatchesStride | src/renderer/arrays.h:84-90 | the accumulated offset and the stride agree modulo 2³² |
| VertexLayout.FinalOffsetIsStride | src/renderer/arrays.h:84-90 | for a layout under 4 GiB per vertex, the offset after the loop equals `GetStride()` |
| VertexLayout.MeshLayout | src/world.cpp:157-161 | the mesh layout is four float attributes of 3, 3, 3 and 2 components, one per `BlockVertex` field, with stride 44 |
| VertexLayout.MeshLayoutOffsets | src/world.cpp:157-161 | the mesh attributes sit at byte offsets 0, 12, 24 and 36 |

## Left out

- GPU objects are not modelled: the `Mesh` built at the end of `CreateChunkMesh` (src/world.cpp:164), the GL calls in `AddBuffer` and `VertexArray`, and texture loading. They are calls into OpenGL.
- The float values of tints and texture coordinates are not modelled. Tints are tags, and coordinates are exact multiples of 1/count, so there is no IEEE rounding.
- Mesh indices are unbounded integers, while the source builds them as `unsigned int` from `vertices.size() - 4`. They wrap only beyond 2³² vertices.
- `GetBlockIndex` is modelled for in-bounds positions. For negative coordinates the source's `size_t` arithmetic wraps; every caller passes non-negative coordinates, and the callers that do not check `InChunkBounds` (src/world.cpp:68, src/generation.cpp:19-25) stay in bounds by their loop ranges. The one exception is src/generation.cpp:48, whose y runs to 4 whatever the height; see the next lines.
- The `int` product `width * height * depth`, and `7000 + cx + cy` in the block-test generator, are modelled without 32-bit overflow.
- The chunk coordinate argument of `CreateChunkMesh`, `FlatWorldGenerator` and `GetChunk` is accepted and unused, as in the source (`inChunk` at src/world.cpp:62 is never read). `BlockTestWorldGenerator` does use it, for its block value.
- Generation.FillTestChunk and Generation.BlockTestWorld.Generate: require height ≥ 5 when a fresh value's box is non-empty (width and depth above 4). With height 2 to 4 the y loop reaches past the chunk's height and its writes alias other positions of the array (for 5×2×5, flat indices 22, 27, 32, 37 and 42 are the positions (2,0,2), (2,1,2), (2,0,3), (2,1,3) and (2,0,4)); with height 0 or 1 they run past the end of the array. Neither is modelled.
- Generation.FlatWorld.Generate, Generation.FillTestChunk, Generation.BlockTestWorld.Generate and Generation.LuaWorldGenerator.GetChunk: require `width * height * depth ≥ 0` when they size a new array. A negative product is converted to a huge `size_t`, and the `std::vector` constructor throws; that exception is not modelled. Negative dimensions whose product is non-negative are modelled: the array has the product's length, no position is in bounds, the loops write nothing, and every block is AIR.
- ChunkMesh.CreateChunkMesh: requires non-negative dimensions. With a negative dimension the source's loops run no iteration (or only outer ones that read nothing) and return empty buffers, whatever the array; that case is not modelled. Arrays longer than w·h·d are modelled (see MeshProperties.TrailingBlocksUnread).
- `Push<int>` is declared (src/renderer/arrays.h:47-48) but never defined, so a program that calls it does not link. It has no model.
- VertexLayout.AddBuffer: requires fewer than 2³² attributes, because the source's `unsigned int` loop counter would wrap and never end.
- The Lua side is not modelled: `LuaWorldGenerator` construction, destruction and moves, and the interpreter (src/generation.cpp:59-101). The interpreter state is reduced to loaded or moved, and the type of `generate_chunk` is a parameter of `GetChunk`.
- The error messages written to `std::cerr` are not modelled, nor are the Lua stack pops.
- The loops of `CreateChunkMesh` are split into one method per loop level, and the generators' loops likewise. `AppendSlice`, `AppendRow` and `AppendBlockFaces` each hold one loop of the source; `AppendBlock` holds no loop, it is the body of the x loop.
- The emitted face records the block type, and the quad computes the texture from it. In the source, `GetBlockTexture` is called just before the vertices are built; the values are the same.
- The `terrain` texture argument is not modelled. Its only role is to call `GetTextureCoords`, which is modelled as a function of the tile index and the atlas count.
