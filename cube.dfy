/**
  The fixed cube mesh of the box drawers: eight corners around a centre and
  thirty-six indices, written as six faces of two triangles each.
 */
module Cube {
  import opened Geometry

  const CubeVertices: nat := 8
  const CubeIndices: nat := 36
  const QuadHalfSize: real := 0.125

  /**
    The side of the centre each of the eight corners lies on, in the order the
    corners are pushed: the four corners with z below the centre first, then
    the four above; within each, top-left, top-right, bottom-left, bottom-right.
   */
  const CornerSigns: seq<SignTriple> := [
    SignTriple(Neg, Pos, Neg), SignTriple(Pos, Pos, Neg),
    SignTriple(Neg, Neg, Neg), SignTriple(Pos, Neg, Neg),
    SignTriple(Neg, Pos, Pos), SignTriple(Pos, Pos, Pos),
    SignTriple(Neg, Neg, Pos), SignTriple(Pos, Neg, Pos)]

  /** The eight corners of the cube of half-size `h` around `c`. */
  function CubeCorners(c: Point, h: real): seq<Point>
  {
    seq(CubeVertices, k requires 0 <= k < CubeVertices => Offset(c, CornerSigns[k], h))
  }

  /** The corners of the cube of half-size `h` around the origin, written out. */
  lemma CubeCornersAtOrigin(h: real)
    ensures CubeCorners(Origin, h) == [
      Point(-h, h, -h), Point(h, h, -h), Point(-h, -h, -h), Point(h, -h, -h),
      Point(-h, h, h), Point(h, h, h), Point(-h, -h, h), Point(h, -h, h)]
  {
  }

  datatype Face = Front | Back | Left | Right | Top | Bottom

  /** The faces in the order their indices are pushed. */
  const FaceOrder: seq<Face> := [Front, Back, Left, Right, Top, Bottom]

  /** The six indices of one face: two triangles (a, b, c) and (c, b, d). */
  function FaceIndices(f: Face): seq<u32>
  {
    match f
    case Front => [0, 1, 2, 2, 1, 3]
    case Back => [5, 4, 7, 7, 4, 6]
    case Left => [4, 0, 6, 6, 0, 2]
    case Right => [1, 5, 3, 3, 5, 7]
    case Top => [4, 5, 0, 0, 5, 1]
    case Bottom => [2, 3, 6, 6, 3, 7]
  }

  /** The axis a face is perpendicular to. */
  function FaceAxis(f: Face): Axis
  {
    match f
    case Front => Z
    case Back => Z
    case Left => X
    case Right => X
    case Top => Y
    case Bottom => Y
  }

  /** The side of the centre a face lies on, along its axis. */
  function FaceSide(f: Face): Sign
  {
    match f
    case Front => Neg
    case Back => Pos
    case Left => Neg
    case Right => Pos
    case Top => Pos
    case Bottom => Neg
  }

  /**
    The 36-entry index list of one cube, relative to its first corner: the
    face blocks of `FaceOrder`, one after the other. It is written out flat,
    not as the concatenation of `FaceIndices`, because the verifier equates a
    flat literal with the rebased pushes entry by entry; `CubePatternIsFaces`
    ties the two forms together.
   */
  const CubePattern: seq<u32> := [
    0, 1, 2, 2, 1, 3,
    5, 4, 7, 7, 4, 6,
    4, 0, 6, 6, 0, 2,
    1, 5, 3, 3, 5, 7,
    4, 5, 0, 0, 5, 1,
    2, 3, 6, 6, 3, 7]

  /**
    The cube index list is a triangle list of `CubeIndices` entries, every one
    naming one of the `CubeVertices` corners.
   */
  lemma CubePatternIsTriangleList()
    ensures |CubePattern| == CubeIndices && |CubePattern| % 3 == 0
    ensures forall j :: 0 <= j < |CubePattern| ==> CubePattern[j] as int < CubeVertices
  {
  }

  /** The cube index list is the six face blocks, in push order. */
  lemma CubePatternIsFaces()
    ensures CubePattern == FaceIndices(Front) + FaceIndices(Back) + FaceIndices(Left)
                         + FaceIndices(Right) + FaceIndices(Top) + FaceIndices(Bottom)
  {
  }

  /** Block k of six indices of the cube index list is the k-th face in push order. */
  lemma CubePatternFaceBlock(k: nat)
    requires k < |FaceOrder|
    ensures 6 * k + 6 <= |CubePattern|
    ensures CubePattern[6 * k..6 * k + 6] == FaceIndices(FaceOrder[k])
  {
    CubePatternIsFaces();
  }

  /** The eight corners of a cube are pairwise different sign patterns. */
  lemma CornerSignsDistinct()
    ensures |CornerSigns| == CubeVertices
    ensures forall i, j :: 0 <= i < j < |CornerSigns| ==> CornerSigns[i] != CornerSigns[j]
  {
  }

  /**
    Each face block is a quad split along a shared edge: it names exactly four
    distinct corners, its second triangle reuses the edge (b, c) of the first,
    and the four corners are exactly those on the face's side of its axis.
   */
  lemma FaceIsQuad(f: Face)
    ensures var b := FaceIndices(f);
      && |b| == 6
      && b[0] != b[1] && b[0] != b[2] && b[0] != b[5]
      && b[1] != b[2] && b[1] != b[5] && b[2] != b[5]
      && b[3] == b[2] && b[4] == b[1]
    ensures forall j :: 0 <= j < 6 ==>
      FaceIndices(f)[j] < 8 && SignOn(CornerSigns[FaceIndices(f)[j]], FaceAxis(f)) == FaceSide(f)
    ensures forall k: u32 :: k < 8 && SignOn(CornerSigns[k], FaceAxis(f)) == FaceSide(f) ==> k in FaceIndices(f)
  {
  }

  /** The corners of the unit-sign cube, as integer vectors. */
  function CornerVec(k: u32): Vec
    requires k < 8
  {
    SignVec(CornerSigns[k])
  }

  /** Triangle (a, b, c) of the unit-sign cube faces out through `f`. */
  predicate FacesOut(a: u32, b: u32, c: u32, f: Face)
    requires a < 8 && b < 8 && c < 8
  {
    Cross(Sub(CornerVec(b), CornerVec(a)), Sub(CornerVec(c), CornerVec(a)))
      == Scale(4, AxisVec(FaceAxis(f), FaceSide(f)))
  }

  /** The unit-sign corners, as integer vectors. */
  lemma CornerVecValues()
    ensures CornerVec(0) == Vec(-1, 1, -1) && CornerVec(1) == Vec(1, 1, -1)
    ensures CornerVec(2) == Vec(-1, -1, -1) && CornerVec(3) == Vec(1, -1, -1)
    ensures CornerVec(4) == Vec(-1, 1, 1) && CornerVec(5) == Vec(1, 1, 1)
    ensures CornerVec(6) == Vec(-1, -1, 1) && CornerVec(7) == Vec(1, -1, 1)
  {
  }

  /** Triangle (a, b, c) faces out through `f`, given the edge vectors and their cross product. */
  lemma FacesOutBy(a: u32, b: u32, c: u32, f: Face, e1: Vec, e2: Vec, n: Vec)
    requires a < 8 && b < 8 && c < 8
    requires Sub(CornerVec(b), CornerVec(a)) == e1 && Sub(CornerVec(c), CornerVec(a)) == e2
    requires Cross(e1, e2) == n && Scale(4, AxisVec(FaceAxis(f), FaceSide(f))) == n
    ensures FacesOut(a, b, c, f)
  {
  }

  /** Both triangles of a face block are wound so that they face out of the cube. */
  lemma FaceWinding(f: Face)
    ensures var b := FaceIndices(f);
      |b| == 6 && (forall j :: 0 <= j < 6 ==> b[j] < 8)
      && FacesOut(b[0], b[1], b[2], f) && FacesOut(b[3], b[4], b[5], f)
  {
    CornerVecValues();
    match f
    case Front =>
      FacesOutBy(0, 1, 2, f, Vec(2, 0, 0), Vec(0, -2, 0), Vec(0, 0, -4));
      FacesOutBy(2, 1, 3, f, Vec(2, 2, 0), Vec(2, 0, 0), Vec(0, 0, -4));
    case Back =>
      FacesOutBy(5, 4, 7, f, Vec(-2, 0, 0), Vec(0, -2, 0), Vec(0, 0, 4));
      FacesOutBy(7, 4, 6, f, Vec(-2, 2, 0), Vec(-2, 0, 0), Vec(0, 0, 4));
    case Left =>
      FacesOutBy(4, 0, 6, f, Vec(0, 0, -2), Vec(0, -2, 0), Vec(-4, 0, 0));
      FacesOutBy(6, 0, 2, f, Vec(0, 2, -2), Vec(0, 0, -2), Vec(-4, 0, 0));
    case Right =>
      FacesOutBy(1, 5, 3, f, Vec(0, 0, 2), Vec(0, -2, 0), Vec(4, 0, 0));
      FacesOutBy(3, 5, 7, f, Vec(0, 2, 2), Vec(0, 0, 2), Vec(4, 0, 0));
    case Top =>
      FacesOutBy(4, 5, 0, f, Vec(2, 0, 0), Vec(0, 0, -2), Vec(0, 4, 0));
      FacesOutBy(0, 5, 1, f, Vec(2, 0, 2), Vec(2, 0, 0), Vec(0, 4, 0));
    case Bottom =>
      FacesOutBy(2, 3, 6, f, Vec(2, 0, 0), Vec(0, 0, 2), Vec(0, -4, 0));
      FacesOutBy(6, 3, 7, f, Vec(2, 0, -2), Vec(2, 0, 0), Vec(0, -4, 0));
  }

  /**
    Triangle t of the cube index list is the first or second triangle of the
    face block t / 2, by the parity of t.
   */
  lemma TriangleInBlock(t: nat)
    requires t < 12
    ensures 3 * t + 2 < |CubePattern| && |FaceIndices(FaceOrder[t / 2])| == 6
    ensures var b, m := FaceIndices(FaceOrder[t / 2]), 3 * (t % 2);
      CubePattern[3 * t] == b[m] && CubePattern[3 * t + 1] == b[m + 1] && CubePattern[3 * t + 2] == b[m + 2]
  {
    var k := t / 2;
    CubePatternFaceBlock(k);
    assert 3 * t == 6 * k + 3 * (t % 2);
  }

  /** The triangle starting at entry m of a face block, m being 0 or 3, faces out through that face. */
  lemma BlockTriangleFacesOut(f: Face, m: nat)
    requires m == 0 || m == 3
    ensures var b := FaceIndices(f);
      |b| == 6 && b[m] < 8 && b[m + 1] < 8 && b[m + 2] < 8 && FacesOut(b[m], b[m + 1], b[m + 2], f)
  {
    FaceWinding(f);
  }

  /**
    Every one of the 12 triangles of the cube index list faces out of the
    cube, through the face its block belongs to.
   */
  lemma TrianglesFaceOut(t: nat)
    requires t < 12
    ensures 3 * t + 2 < |CubePattern|
    ensures CubePattern[3 * t] < 8 && CubePattern[3 * t + 1] < 8 && CubePattern[3 * t + 2] < 8
    ensures FacesOut(CubePattern[3 * t], CubePattern[3 * t + 1], CubePattern[3 * t + 2], FaceOrder[t / 2])
  {
    TriangleInBlock(t);
    BlockTriangleFacesOut(FaceOrder[t / 2], 3 * (t % 2));
  }

  /**
    The corners of a cube around `c` are the corners of the cube around the
    origin moved by `c`, each at distance `h` from `c` along every axis.
   */
  lemma CubeCornersTranslate(c: Point, h: real, k: nat)
    requires k < CubeVertices
    ensures |CubeCorners(c, h)| == CubeVertices
    ensures CubeCorners(c, h)[k] == Translate(CubeCorners(Origin, h)[k], c)
    ensures var p := CubeCorners(c, h)[k];
      (p.x == c.x - h || p.x == c.x + h) && (p.y == c.y - h || p.y == c.y + h) && (p.z == c.z - h || p.z == c.z + h)
  {
  }
}
