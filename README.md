# Cube index buffers of the instancing / geometry-shader / vertex-shader demo

This project models how the demo scene builds the geometry for its two box
drawers, and proves properties of it in Dafny:

- the **instanced** drawer (`generateInstancingTriangleDrawerForBoxes`) gets
  one cube, which is 8 corners and 36 indices, plus one instance direction per
  entity;
- the **replicated** drawer (`generateTriangleDrawerForBoxes`) gets one copy of
  the cube per entity, all in one vertex buffer and one index buffer. The
  indices of copy i are shifted by a running `baseIndex`, which grows by 8 per
  entity.

Modules, one per concern:

- `Geometry` (`geometry.dfy`) holds the shared vocabulary:
  - the C++ `unsigned int`, as the newtype `u32`, so every sum that would
    wrap around is a verification error;
  - positions with exact real coordinates;
  - the per-axis sign patterns that place a corner around a centre;
  - integer vectors, for triangle orientation.
- `Cube` (`cube.dfy`) holds the fixed cube:
  - its corner sign table and its 36-entry index list;
  - the six faces;
  - lemmas about its topology: a triangle list, every index below 8, each face
    a quad of four distinct corners split along a shared edge, and every
    triangle wound to face out of the cube.
- `Replication` (`replication.dfy`) holds the replicated buffers as
  specification functions, with:
  - the closed form of every entry;
  - cross-replica isolation;
  - bounds;
  - the theorem that the replicated buffers assemble the same positions as an
    instanced draw of the single cube.
- `Scene` (`scene.dfy`) holds the two generator functions as methods. They
  push onto growing buffers in a loop, the way the source does, and are proved
  against the `Replication` functions. This module also holds the counts the
  drawers receive.

A drawer object is modelled by the data it is handed: the contents of its
buffers and the index and instance counts. The random coordinates drawn for
each entity are an input sequence.

The code writes the cube's corners and indices inline in the loop, so the
replicated buffers here are defined for the cube.
`Replication.ReplicatedCornersAt` and `Replication.ReplicatedIndicesAt` state
that each copy is the base cube translated to its centre, with its indices
rebased by 8 per copy; `Replication.ReplicationMatchesInstancing` states that
the result draws what the instanced cube draws.

## Model

| member | source | states |
|---|---|---|
| `Cube.CubePatternIsTriangleList` | InstancingvsGeomShadervsVertexShader/Scene.cpp:83-131 | The cube index list has `CUBE_INDICES` = 36 entries. Its length is a multiple of 3. Every entry is below `CUBE_VERTICES` = 8. |
| `Cube.CubePatternIsFaces` | InstancingvsGeomShadervsVertexShader/Scene.cpp:85-131 | The index list is the front, back, left, right, top and bottom face blocks, concatenated in that order. |
| `Cube.CubePatternFaceBlock` | InstancingvsGeomShadervsVertexShader/Scene.cpp:85-131 | Block k of six indices is the k-th face in push order. |
| `Cube.FaceIsQuad` | InstancingvsGeomShadervsVertexShader/Scene.cpp:85-131 | Each face block has these properties: (1) it names exactly four distinct corners; (2) its second triangle (c, b, d) reuses the edge (b, c) of its first triangle (a, b, c); (3) its corners are exactly the four cube corners on that face's side of its axis. |
| `Cube.FaceWinding` | InstancingvsGeomShadervsVertexShader/Scene.cpp:85-131 | Both triangles of each face block are wound the same way: the cross product of each triangle's edges points outward through that face. |
| `Cube.TrianglesFaceOut` | InstancingvsGeomShadervsVertexShader/Scene.cpp:83-131 | Every one of the 12 triangles of the cube index list, triangle t with corners `3t`, `3t + 1` and `3t + 2`, faces out through face `t / 2` in push order. |
| `Cube.CornerSignsDistinct` | InstancingvsGeomShadervsVertexShader/Scene.cpp:72-80 | The eight corners are eight different sign combinations, so no corner is pushed twice. |
| `Cube.CubeCornersAtOrigin` | InstancingvsGeomShadervsVertexShader/Scene.cpp:72-80 | The sign table gives exactly the eight `(±QUAD_HALF_SIZE, ±QUAD_HALF_SIZE, ±QUAD_HALF_SIZE)` corners pushed for the instanced cube, in the same order. |
| `Cube.CubeCornersTranslate` | InstancingvsGeomShadervsVertexShader/Scene.cpp:184-192 | Corner k around a centre is corner k of the cube around the origin, moved by the centre. It lies at `centre ± h` on every axis. |
| `Replication.ShiftedPattern` | InstancingvsGeomShadervsVertexShader/Scene.cpp:195-240 | The cube index list rebased onto `baseIndex` has 36 entries, each in `[baseIndex, baseIndex + 8)`. |
| `Replication.ReplicatedIndices` | InstancingvsGeomShadervsVertexShader/Scene.cpp:178-243 | The index buffer of n boxes has `36 * n` entries. Every entry is below `8 * n`, the size of the vertex buffer. |
| `Replication.ReplicatedIndicesAt` | InstancingvsGeomShadervsVertexShader/Scene.cpp:195-242 | Entry j of the index buffer is `8 * (j / 36)` plus entry `j % 36` of the cube index list. The buffer is the cube pattern shifted by `8 * i` for each box i, concatenated in order. |
| `Replication.TriangleCorner` | InstancingvsGeomShadervsVertexShader/Scene.cpp:195-242 | Corner m of triangle t of the buffer is corner m of cube triangle `t % 12`, shifted by `8 * (t / 12)`. |
| `Replication.TriangleStaysInReplica` | InstancingvsGeomShadervsVertexShader/Scene.cpp:195-242 | Cross-replica isolation: all three corners of triangle t lie in `[8 * (t / 12), 8 * (t / 12) + 8)`, the vertices of box `t / 12`. |
| `Replication.ReplicatedCorners` | InstancingvsGeomShadervsVertexShader/Scene.cpp:179-192 | The vertex buffer of the boxes has 8 entries per centre. |
| `Replication.ReplicatedCornersAt` | InstancingvsGeomShadervsVertexShader/Scene.cpp:184-192 | Vertex j of the buffer is corner `j % 8` of the base cube, translated by centre `j / 8`. |
| `Replication.ReplicatedCornersBounded` | InstancingvsGeomShadervsVertexShader/Scene.cpp:180-192 | Suppose every centre lies within `±r` on each axis, as the `RandomFloat(-POSITION_OFFSET, POSITION_OFFSET)` draws do. Then every vertex lies within `±(r + h)`. |
| `Replication.ReplicationMatchesInstancing` | InstancingvsGeomShadervsVertexShader/Scene.cpp:169-243 | Take the centres as instance directions. An indexed draw of the replicated buffers then assembles exactly the positions that an instanced draw of the single cube assembles, in the same order. The instanced draw translates every vertex by its instance's direction, as the header comment at InstancingTriangleDrawer/Drawer.h:14-17 describes. |
| `Scene.PushCubeCorners` | InstancingvsGeomShadervsVertexShader/Scene.cpp:184-192 | The eight `x ± QUAD_HALF_SIZE, y ± QUAD_HALF_SIZE, z ± QUAD_HALF_SIZE` pushes append the cube around the centre, given by the sign table. |
| `Scene.PushCubeIndices` | InstancingvsGeomShadervsVertexShader/Scene.cpp:194-240 | The 36 pushes of `baseIndex + k`, face by face, append the cube index list rebased onto `baseIndex`. No sum wraps around. |
| `Scene.GenerateInstancingTriangleDrawerForBoxes` | InstancingvsGeomShadervsVertexShader/Scene.cpp:65-166 | The instanced drawer gets these buffers: the vertex buffer is the cube around the origin; the index buffer is the cube index list; the instance buffer is the entity directions. Its index count is 36, which equals `indices.size()`. Its instance count is `NUM_ENTITIES`, which equals `instanceDirections.size()`. Every index names a vertex. |
| `Scene.GenerateTriangleDrawerForBoxes` | InstancingvsGeomShadervsVertexShader/Scene.cpp:169-261 | The loop keeps `baseIndex == 8 * i`, `positions` equal to the boxes of the first i centres, and `indices` equal to the first i shifted patterns. The drawer ends with `8 * NUM_ENTITIES` vertices and `36 * NUM_ENTITIES` indices. Its index count equals `indices.size()`, every index is below the vertex count, and the buffers assemble the same positions as the instanced drawer. |
| `Scene.ThreeBoxes` | InstancingvsGeomShadervsVertexShader/Scene.cpp:178-243 | Three boxes give 24 vertices and 108 indices. Index 35, the last of box 0, is 7. Index 36, the first of box 1, is 8. |

## Left out

- The sphere drawers `generateTriangleDrawerForSpheres` and `generateInstancingTriangleDrawerForSpheres` (Scene.cpp:263-341) are not modelled: their geometry comes from `GeometryGenerator::CreateSphere`, which is not part of this model.
- The point-expansion drawers `generateCubeGeneratorDrawer` and `generateSphereGeneratorDrawer` (Scene.cpp:35-63, 343-371) are not modelled. They only upload a list of random points and set the vertex count to `NUM_ENTITIES`.
- All Direct3D plumbing is left out, because these are foreign calls and global singletons whose code is not available. This covers `Utils::CreateInitializedBuffer`, `ShaderResourcesManager::Buffer`, `Utils::Hash`, the `ASSERT`s on buffer handles, `DrawManager::AddDrawer`, and the identity world matrix. A drawer is modelled by the buffer contents and counts it receives, not by GPU handles.
- `Utils::RandomFloat` is replaced by an input sequence. The generators take the entity centres (or directions) as input. The `[-50, 50]` range of the draws appears only as a hypothesis of `Replication.ReplicatedCornersBounded`.
- Coordinates are exact reals, not 32-bit floats, so rounding in `x ± QUAD_HALF_SIZE` is not modelled.
- The `reserve` calls and the byte sizes passed to buffer creation are left out. They are allocation hints and struct layouts, not behaviour.
- Scene variant selection by commented-out lines in `Scene::Scene` is not modelled, and neither is the empty `Scene::Update`.
- The instanced draw itself (`Replication.FetchInstanced`) follows the header comment that the instancing drawer translates each vertex by its instance direction. The shader code that does this is not part of this model.
- `Scene.GenerateInstancingTriangleDrawerForBoxes` and `Scene.GenerateTriangleDrawerForBoxes` require exactly `NUM_ENTITIES` inputs, because the source loops run exactly that many times. The general statements about any number of boxes are in `Replication`.
