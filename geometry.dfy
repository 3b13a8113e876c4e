/**
  Vocabulary shared by the cube generators: the 32-bit unsigned integers the
  index buffers and draw counts are stored in, vertex positions, and the
  per-axis sign patterns that place a cube corner relative to its centre.
 */
module Geometry {

  /** One past the largest C++ `unsigned int`. */
  const U32Limit: int := 0x1_0000_0000

  /**
    The C++ `unsigned int` of the index buffers, `baseIndex` and the counts
    handed to the drawers. Arithmetic on it is checked: a value that would
    wrap around is a verification error, not a silent modulo.
   */
  newtype u32 = x: int | 0 <= x < 0x1_0000_0000

  /** An `XMFLOAT3` position, with exact real coordinates in place of floats. */
  datatype Point = Point(x: real, y: real, z: real)

  const Origin: Point := Point(0.0, 0.0, 0.0)

  /** Moves `p` by the vector `d`. */
  function Translate(p: Point, d: Point): Point
  {
    Point(p.x + d.x, p.y + d.y, p.z + d.z)
  }

  /** Which side of a centre a corner lies on, along one axis. */
  datatype Sign = Neg | Pos

  function SignValue(s: Sign): int
  {
    if s == Neg then -1 else 1
  }

  datatype Axis = X | Y | Z

  /** The side of the centre a corner lies on, for each of the three axes. */
  datatype SignTriple = SignTriple(sx: Sign, sy: Sign, sz: Sign)

  function SignOn(s: SignTriple, a: Axis): Sign
  {
    match a
    case X => s.sx
    case Y => s.sy
    case Z => s.sz
  }

  /** The coordinate `v` moved by `h` to the side `s`. */
  function Shift(v: real, s: Sign, h: real): real
  {
    if s == Neg then v - h else v + h
  }

  /** The corner of the axis-aligned cube of half-size `h` around `c` on the sides `s`. */
  function Offset(c: Point, s: SignTriple, h: real): Point
  {
    Point(Shift(c.x, s.sx, h), Shift(c.y, s.sy, h), Shift(c.z, s.sz, h))
  }

  /** Integer vectors, for reasoning about the orientation of triangles. */
  datatype Vec = Vec(x: int, y: int, z: int)

  /** The corner `s` of the cube with corners at +-1 on every axis. */
  function SignVec(s: SignTriple): Vec
  {
    Vec(SignValue(s.sx), SignValue(s.sy), SignValue(s.sz))
  }

  function Sub(a: Vec, b: Vec): Vec
  {
    Vec(a.x - b.x, a.y - b.y, a.z - b.z)
  }

  function Scale(k: int, a: Vec): Vec
  {
    Vec(k * a.x, k * a.y, k * a.z)
  }

  /** The cross product. */
  function Cross(a: Vec, b: Vec): Vec
  {
    var a1, a2, a3, b1, b2, b3 := a.x, a.y, a.z, b.x, b.y, b.z;
    Vec(a2 * b3 - a3 * b2, a3 * b1 - a1 * b3, a1 * b2 - a2 * b1)
  }

  /** The unit vector pointing to the side `s` of axis `a`. */
  function AxisVec(a: Axis, s: Sign): Vec
  {
    var v := SignValue(s);
    match a
    case X => Vec(v, 0, 0)
    case Y => Vec(0, v, 0)
    case Z => Vec(0, 0, v)
  }
}
