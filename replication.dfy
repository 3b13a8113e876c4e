/**
  The replicated-boxes buffers as values: one copy of the cube's corners and
  indices per entity, the indices of copy i rebased onto that copy's corners.
  Also what an indexed draw and an instanced draw assemble from their buffers,
  so that the replicated buffers can be compared with the instanced ones.
 */
module Replication {
  import opened Geometry
  import opened Cube

  /** The cube index list rebased onto the cube whose first corner is vertex `base`. */
  function ShiftedPattern(base: nat): (r: seq<u32>)
    requires base + CubeVertices <= U32Limit
    ensures |r| == CubeIndices
    ensures forall j :: 0 <= j < |r| ==> base <= r[j] as int < base + CubeVertices
  {
    CubePatternIsTriangleList();
    seq(CubeIndices, j requires 0 <= j < CubeIndices => (base + CubePattern[j] as int) as u32)
  }

  /**
    The index buffer of `n` replicated cubes: the cube index list rebased by
    `CubeVertices * i` for replica i, concatenated in replica order. Defined
    only while every index fits in an `unsigned int`.
   */
  function ReplicatedIndices(n: nat): (r: seq<u32>)
    requires CubeVertices * n <= U32Limit
    ensures |r| == CubeIndices * n
    ensures forall j :: 0 <= j < |r| ==> r[j] as int < CubeVertices * n
  {
    if n == 0 then [] else ReplicatedIndices(n - 1) + ShiftedPattern(CubeVertices * (n - 1))
  }

  /** Entry j of the replicated index buffer is cube index j % 36 of replica j / 36. */
  lemma {:induction false} ReplicatedIndicesAt(n: nat, j: nat)
    requires CubeVertices * n <= U32Limit && j < CubeIndices * n
    ensures ReplicatedIndices(n)[j] as int == CubeVertices * (j / CubeIndices) + CubePattern[j % CubeIndices] as int
  {
    var prev := CubeIndices * (n - 1);
    if j < prev {
      ReplicatedIndicesAt(n - 1, j);
    } else {
      assert j / CubeIndices == n - 1;
      assert j % CubeIndices == j - prev;
    }
  }

  /** Vertex `v` is one of the corners of replica `i`. */
  predicate InReplica(v: u32, i: nat)
  {
    CubeVertices * i <= v as int < CubeVertices * (i + 1)
  }

  /** Corner m of triangle t of the replicated buffer is replica t / 12's copy of corner m of cube triangle t % 12. */
  lemma TriangleCorner(n: nat, t: nat, m: nat)
    requires CubeVertices * n <= U32Limit && t < 12 * n && m < 3
    ensures 3 * t + m < |ReplicatedIndices(n)| && 3 * (t % 12) + m < |CubePattern|
    ensures ReplicatedIndices(n)[3 * t + m] as int == CubeVertices * (t / 12) + CubePattern[3 * (t % 12) + m] as int
  {
    var i, k := t / 12, t % 12;
    var j := 3 * t + m;
    assert t == 12 * i + k;
    assert j == 36 * i + (3 * k + m) && 3 * k + m < 36;
    assert j / 36 == i && j % 36 == 3 * k + m;
    ReplicatedIndicesAt(n, j);
  }

  /**
    Cross-replica isolation: the three corners of triangle t of the replicated
    buffer all belong to replica t / 12.
   */
  lemma TriangleStaysInReplica(n: nat, t: nat)
    requires CubeVertices * n <= U32Limit && t < 12 * n
    ensures 3 * t + 2 < |ReplicatedIndices(n)|
    ensures InReplica(ReplicatedIndices(n)[3 * t], t / 12)
    ensures InReplica(ReplicatedIndices(n)[3 * t + 1], t / 12)
    ensures InReplica(ReplicatedIndices(n)[3 * t + 2], t / 12)
  {
    CubePatternIsTriangleList();
    TriangleCorner(n, t, 0);
    TriangleCorner(n, t, 1);
    TriangleCorner(n, t, 2);
  }

  /**
    The vertex buffer of the replicated cubes: the eight corners of the cube of
    half-size `h` around each centre, in centre order.
   */
  function ReplicatedCorners(centres: seq<Point>, h: real): (r: seq<Point>)
    ensures |r| == CubeVertices * |centres|
  {
    if centres == [] then []
    else ReplicatedCorners(centres[..|centres| - 1], h) + CubeCorners(centres[|centres| - 1], h)
  }

  /** Vertex j of the replicated buffer is base corner j % 8 moved to centre j / 8. */
  lemma {:induction false} ReplicatedCornersAt(centres: seq<Point>, h: real, j: nat)
    requires j < CubeVertices * |centres|
    ensures ReplicatedCorners(centres, h)[j] == Translate(CubeCorners(Origin, h)[j % CubeVertices], centres[j / CubeVertices])
  {
    var n := |centres|;
    var init := centres[..n - 1];
    if j < CubeVertices * (n - 1) {
      ReplicatedCornersAt(init, h, j);
    } else {
      var k := j - CubeVertices * (n - 1);
      assert j / CubeVertices == n - 1 && j % CubeVertices == k;
      CubeCornersTranslate(centres[n - 1], h, k);
    }
  }

  /** Every coordinate of `p` lies in [-r, r]. */
  predicate WithinBox(p: Point, r: real)
  {
    -r <= p.x <= r && -r <= p.y <= r && -r <= p.z <= r
  }

  /**
    When every centre lies in the box [-r, r] on each axis, every vertex of
    the replicated buffer lies in the box grown by the half-size `h`.
   */
  lemma ReplicatedCornersBounded(centres: seq<Point>, h: real, r: real)
    requires 0.0 <= h
    requires forall i :: 0 <= i < |centres| ==> WithinBox(centres[i], r)
    ensures forall j :: 0 <= j < |ReplicatedCorners(centres, h)| ==> WithinBox(ReplicatedCorners(centres, h)[j], r + h)
  {
    forall j | 0 <= j < |ReplicatedCorners(centres, h)|
      ensures WithinBox(ReplicatedCorners(centres, h)[j], r + h)
    {
      ReplicatedCornersAt(centres, h, j);
      CubeCornersTranslate(centres[j / CubeVertices], h, j % CubeVertices);
    }
  }

  /** Every index names a vertex of the buffer. */
  predicate IndicesInRange(vertices: seq<Point>, indices: seq<u32>)
  {
    forall j :: 0 <= j < |indices| ==> indices[j] as int < |vertices|
  }

  /** The positions an indexed triangle-list draw assembles: the vertex each index names, in index order. */
  function Fetch(vertices: seq<Point>, indices: seq<u32>): seq<Point>
    requires IndicesInRange(vertices, indices)
  {
    seq(|indices|, j requires 0 <= j < |indices| => vertices[indices[j]])
  }

  /**
    The positions an instanced draw assembles: the indexed triangle list once
    per instance, in instance order, every vertex moved by that instance's
    direction.
   */
  function FetchInstanced(vertices: seq<Point>, indices: seq<u32>, directions: seq<Point>): seq<Point>
    requires IndicesInRange(vertices, indices)
  {
    if directions == [] then []
    else
      var d := directions[|directions| - 1];
      FetchInstanced(vertices, indices, directions[..|directions| - 1]) +
      seq(|indices|, j requires 0 <= j < |indices| => Translate(vertices[indices[j]], d))
  }

  /**
    The replicated buffers draw what the instanced cube draws: with the
    centres as instance directions, the replicated vertex and index buffers
    assemble exactly the positions, in the same order, that the eight base
    corners and the cube index list assemble in an instanced draw.
   */
  lemma {:induction false} ReplicationMatchesInstancing(centres: seq<Point>, h: real)
    requires CubeVertices * |centres| <= U32Limit
    ensures IndicesInRange(ReplicatedCorners(centres, h), ReplicatedIndices(|centres|))
    ensures IndicesInRange(CubeCorners(Origin, h), CubePattern)
    ensures Fetch(ReplicatedCorners(centres, h), ReplicatedIndices(|centres|))
         == FetchInstanced(CubeCorners(Origin, h), CubePattern, centres)
  {
    CubePatternIsTriangleList();
    var n := |centres|;
    if n > 0 {
      var init, d := centres[..n - 1], centres[n - 1];
      ReplicationMatchesInstancing(init, h);
      var verts, idx := ReplicatedCorners(centres, h), ReplicatedIndices(n);
      var verts', idx' := ReplicatedCorners(init, h), ReplicatedIndices(n - 1);
      var base := CubeVertices * (n - 1);
      var lhs := Fetch(verts, idx);
      var rhs := FetchInstanced(CubeCorners(Origin, h), CubePattern, centres);
      assert |lhs| == |rhs|;
      forall j | 0 <= j < |lhs| ensures lhs[j] == rhs[j] {
        if j < CubeIndices * (n - 1) {
          assert idx[j] == idx'[j];
          assert verts[idx[j]] == verts'[idx'[j]];
        } else {
          var k := j - CubeIndices * (n - 1);
          var p := CubePattern[k];
          assert idx[j] as int == base + p as int;
          assert verts[idx[j]] == CubeCorners(d, h)[p];
          CubeCornersTranslate(d, h, p as nat);
        }
      }
    }
  }
}
