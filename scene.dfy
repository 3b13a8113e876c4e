/**
  The two box drawers of the scene: the instanced drawer, given one cube and
  one direction per entity, and the replicated drawer, given one copy of the
  cube per entity in a single vertex buffer and a single index buffer.

  A drawer is modelled by the data it is handed: the contents of the buffers
  uploaded for it and the counts stored into its vertex-shader data. The
  random coordinates the source draws for each entity are the input sequence.
 */
module Scene {
  import opened Geometry
  import opened Cube
  import opened Replication

  /** The number of entities every drawer of the scene draws. */
  const NumEntities: nat := 10000

  /** What the triangle-list drawer is handed. */
  datatype TriangleDrawerData = TriangleDrawerData(
    vertexBuffer: seq<Point>,
    indexBuffer: seq<u32>,
    indicesCount: u32)

  /** What the instancing triangle drawer is handed. */
  datatype InstancingDrawerData = InstancingDrawerData(
    vertexBuffer: seq<Point>,
    indexBuffer: seq<u32>,
    instanceBuffer: seq<Point>,
    indicesCount: u32,
    instancesCount: u32)

  /** Pushes the eight corners of the cube of half-size `h` around `c`, in corner order. */
  method PushCubeCorners(positions: seq<Point>, c: Point, h: real) returns (r: seq<Point>)
    ensures r == positions + CubeCorners(c, h)
  {
    r := positions;
    r := r + [Point(c.x - h, c.y + h, c.z - h)];
    r := r + [Point(c.x + h, c.y + h, c.z - h)];
    r := r + [Point(c.x - h, c.y - h, c.z - h)];
    r := r + [Point(c.x + h, c.y - h, c.z - h)];

    r := r + [Point(c.x - h, c.y + h, c.z + h)];
    r := r + [Point(c.x + h, c.y + h, c.z + h)];
    r := r + [Point(c.x - h, c.y - h, c.z + h)];
    r := r + [Point(c.x + h, c.y - h, c.z + h)];
  }

  /**
    Pushes the cube's 36 indices rebased onto the corners starting at vertex
    `baseIndex`, face by face. Every sum is an `unsigned int` sum that must not
    wrap around.
   */
  method PushCubeIndices(indices: seq<u32>, baseIndex: u32) returns (r: seq<u32>)
    requires baseIndex as int + CubeVertices <= U32Limit
    ensures r == indices + ShiftedPattern(baseIndex as nat)
  {
    r := indices;
    // Front face
    r := r + [baseIndex + 0, baseIndex + 1, baseIndex + 2, baseIndex + 2, baseIndex + 1, baseIndex + 3];
    // Back face
    r := r + [baseIndex + 5, baseIndex + 4, baseIndex + 7, baseIndex + 7, baseIndex + 4, baseIndex + 6];
    // Left face
    r := r + [baseIndex + 4, baseIndex + 0, baseIndex + 6, baseIndex + 6, baseIndex + 0, baseIndex + 2];
    // Right face
    r := r + [baseIndex + 1, baseIndex + 5, baseIndex + 3, baseIndex + 3, baseIndex + 5, baseIndex + 7];
    // Top face
    r := r + [baseIndex + 4, baseIndex + 5, baseIndex + 0, baseIndex + 0, baseIndex + 5, baseIndex + 1];
    // Bottom face
    r := r + [baseIndex + 2, baseIndex + 3, baseIndex + 6, baseIndex + 6, baseIndex + 3, baseIndex + 7];
  }

  /**
    The instanced box drawer: the eight corners of one cube around the origin,
    its 36 indices, and one instance direction per entity; the drawer is told
    the number of indices and the number of instances.
   */
  method GenerateInstancingTriangleDrawerForBoxes(directions: seq<Point>) returns (d: InstancingDrawerData)
    requires |directions| == NumEntities
    ensures d.vertexBuffer == CubeCorners(Origin, QuadHalfSize)
    ensures d.indexBuffer == CubePattern
    ensures d.instanceBuffer == directions
    ensures d.indicesCount as int == |d.indexBuffer| == CubeIndices
    ensures d.instancesCount as int == |d.instanceBuffer| == NumEntities
    ensures IndicesInRange(d.vertexBuffer, d.indexBuffer)
  {
    var h := QuadHalfSize;
    var positions: seq<Point> := [];
    positions := positions + [Point(-h, h, -h)];
    positions := positions + [Point(h, h, -h)];
    positions := positions + [Point(-h, -h, -h)];
    positions := positions + [Point(h, -h, -h)];

    positions := positions + [Point(-h, h, h)];
    positions := positions + [Point(h, h, h)];
    positions := positions + [Point(-h, -h, h)];
    positions := positions + [Point(h, -h, h)];

    var indices: seq<u32> := [];
    indices := indices + [0, 1, 2, 2, 1, 3];  // front face
    indices := indices + [5, 4, 7, 7, 4, 6];  // back face
    indices := indices + [4, 0, 6, 6, 0, 2];  // left face
    indices := indices + [1, 5, 3, 3, 5, 7];  // right face
    indices := indices + [4, 5, 0, 0, 5, 1];  // top face
    indices := indices + [2, 3, 6, 6, 3, 7];  // bottom face

    assert positions == CubeCorners(Origin, h) by { CubeCornersAtOrigin(h); }
    assert indices == CubePattern;

    var instanceDirections: seq<Point> := [];
    for i := 0 to NumEntities
      invariant instanceDirections == directions[..i]
    {
      instanceDirections := instanceDirections + [directions[i]];
    }
    assert directions[..NumEntities] == directions;

    CubePatternIsTriangleList();
    d := InstancingDrawerData(positions, indices, instanceDirections,
                              |indices| as u32, |instanceDirections| as u32);
  }

  /**
    The replicated box drawer: for entity i, the eight corners of the cube
    around centre i and the cube's indices rebased by `baseIndex`, which
    advances by one cube's corners per entity. The drawer is told the number
    of indices. Every index names a vertex of the buffer, and the buffers
    assemble the same positions as the instanced drawer given the centres as
    directions.
   */
  method GenerateTriangleDrawerForBoxes(centres: seq<Point>) returns (d: TriangleDrawerData)
    requires |centres| == NumEntities
    ensures d.vertexBuffer == ReplicatedCorners(centres, QuadHalfSize)
    ensures d.indexBuffer == ReplicatedIndices(NumEntities)
    ensures |d.vertexBuffer| == CubeVertices * NumEntities
    ensures d.indicesCount as int == |d.indexBuffer| == CubeIndices * NumEntities
    ensures IndicesInRange(d.vertexBuffer, d.indexBuffer)
    ensures Fetch(d.vertexBuffer, d.indexBuffer) == FetchInstanced(CubeCorners(Origin, QuadHalfSize), CubePattern, centres)
  {
    var positions: seq<Point> := [];
    var indices: seq<u32> := [];
    var baseIndex: u32 := 0;
    for i := 0 to NumEntities
      invariant baseIndex as int == CubeVertices * i
      invariant positions == ReplicatedCorners(centres[..i], QuadHalfSize)
      invariant indices == ReplicatedIndices(i)
    {
      positions := PushCubeCorners(positions, centres[i], QuadHalfSize);
      indices := PushCubeIndices(indices, baseIndex);
      baseIndex := baseIndex + CubeVertices as u32;
      assert centres[..i + 1][..i] == centres[..i];
    }
    assert centres[..NumEntities] == centres;

    ReplicationMatchesInstancing(centres, QuadHalfSize);
    d := TriangleDrawerData(positions, indices, |indices| as u32);
  }

  /**
    Three replicated boxes: 24 vertices and 108 indices; the last index of the
    first box names one of its corners, the first index of the second box
    names that box's first corner.
   */
  lemma ThreeBoxes(centres: seq<Point>, h: real)
    requires |centres| == 3
    ensures |ReplicatedCorners(centres, h)| == 24
    ensures |ReplicatedIndices(3)| == 108
    ensures ReplicatedIndices(3)[35] == 7 && ReplicatedIndices(3)[36] == 8
  {
    CubePatternIsTriangleList();
    ReplicatedIndicesAt(3, 35);
    ReplicatedIndicesAt(3, 36);
  }
}
