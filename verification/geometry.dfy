/**
 * 3x3 projective matrices and homogeneous points (the Matrix3x3 / Point3D
 * value types the transform plugin base works with).
 */
module Geometry {

  /** Row-major 3x3 matrix: (x, y, z) maps to (a x + b y + c z, d x + e y + f z, g x + h y + i z). */
  datatype Matrix3x3 = Matrix3x3(a: real, b: real, c: real,
                                 d: real, e: real, f: real,
                                 g: real, h: real, i: real)

  /** A homogeneous point; (x / z, y / z) is the 2D point it stands for when z != 0. */
  datatype Point3D = Point3D(x: real, y: real, z: real)

  const Identity := Matrix3x3(1.0, 0.0, 0.0, 0.0, 1.0, 0.0, 0.0, 0.0, 1.0)

  /**
   * The matrix used when no transform is available (failed hook or no source):
   * every point collapses onto the origin; the resampler recognises it.
   */
  const NoOp := Matrix3x3(0.0, 0.0, 0.0, 0.0, 0.0, 0.0, 0.0, 0.0, 1.0)

  /** The dot product of a row and a column. */
  function Dot(p: real, q: real, r: real, u: real, v: real, w: real): real {
    p * u + q * v + r * w
  }

  /** Matrix times column vector. */
  function Apply(m: Matrix3x3, p: Point3D): Point3D {
    Point3D(Dot(m.a, m.b, m.c, p.x, p.y, p.z),
            Dot(m.d, m.e, m.f, p.x, p.y, p.z),
            Dot(m.g, m.h, m.i, p.x, p.y, p.z))
  }

  /** Matrix product: `Mul(m, n)` applies `n` first, then `m`. */
  function Mul(m: Matrix3x3, n: Matrix3x3): Matrix3x3 {
    Matrix3x3(Dot(m.a, m.b, m.c, n.a, n.d, n.g),
              Dot(m.a, m.b, m.c, n.b, n.e, n.h),
              Dot(m.a, m.b, m.c, n.c, n.f, n.i),
              Dot(m.d, m.e, m.f, n.a, n.d, n.g),
              Dot(m.d, m.e, m.f, n.b, n.e, n.h),
              Dot(m.d, m.e, m.f, n.c, n.f, n.i),
              Dot(m.g, m.h, m.i, n.a, n.d, n.g),
              Dot(m.g, m.h, m.i, n.b, n.e, n.h),
              Dot(m.g, m.h, m.i, n.c, n.f, n.i))
  }

  function Det(m: Matrix3x3): real {
    m.a * (m.e * m.i - m.f * m.h)
    - m.b * (m.d * m.i - m.f * m.g)
    + m.c * (m.d * m.h - m.e * m.g)
  }

  /** Inverse by the adjugate, given the determinant the caller has already checked. */
  function Inverse(m: Matrix3x3, det: real): Matrix3x3
    requires det != 0.0
  {
    Matrix3x3((m.e * m.i - m.f * m.h) / det,
              (m.c * m.h - m.b * m.i) / det,
              (m.b * m.f - m.c * m.e) / det,
              (m.f * m.g - m.d * m.i) / det,
              (m.a * m.i - m.c * m.g) / det,
              (m.c * m.d - m.a * m.f) / det,
              (m.d * m.h - m.e * m.g) / det,
              (m.b * m.g - m.a * m.h) / det,
              (m.a * m.e - m.b * m.d) / det)
  }

  /** The affine translation by (dx, dy). */
  function Translation(dx: real, dy: real): Matrix3x3 {
    Matrix3x3(1.0, 0.0, dx, 0.0, 1.0, dy, 0.0, 0.0, 1.0)
  }

  /** One row of a product applied to a point equals that row applied to the image point. */
  lemma RowTimesColumns(r1: real, r2: real, r3: real,
                        c11: real, c12: real, c13: real,
                        c21: real, c22: real, c23: real,
                        c31: real, c32: real, c33: real,
                        x: real, y: real, z: real)
    ensures Dot(Dot(r1, r2, r3, c11, c21, c31), Dot(r1, r2, r3, c12, c22, c32), Dot(r1, r2, r3, c13, c23, c33), x, y, z)
         == Dot(r1, r2, r3, Dot(c11, c12, c13, x, y, z), Dot(c21, c22, c23, x, y, z), Dot(c31, c32, c33, x, y, z))
  {
    assert (r1 * c11 + r2 * c21 + r3 * c31) * x == r1 * c11 * x + r2 * c21 * x + r3 * c31 * x;
    assert (r1 * c12 + r2 * c22 + r3 * c32) * y == r1 * c12 * y + r2 * c22 * y + r3 * c32 * y;
    assert (r1 * c13 + r2 * c23 + r3 * c33) * z == r1 * c13 * z + r2 * c23 * z + r3 * c33 * z;
    assert r1 * (c11 * x + c12 * y + c13 * z) == r1 * c11 * x + r1 * c12 * y + r1 * c13 * z;
    assert r2 * (c21 * x + c22 * y + c23 * z) == r2 * c21 * x + r2 * c22 * y + r2 * c23 * z;
    assert r3 * (c31 * x + c32 * y + c33 * z) == r3 * c31 * x + r3 * c32 * y + r3 * c33 * z;
  }

  /** Composition of matrices is composition of the point maps. */
  lemma ApplyMul(m: Matrix3x3, n: Matrix3x3, p: Point3D)
    ensures Apply(Mul(m, n), p) == Apply(m, Apply(n, p))
  {
    RowTimesColumns(m.a, m.b, m.c, n.a, n.b, n.c, n.d, n.e, n.f, n.g, n.h, n.i, p.x, p.y, p.z);
    RowTimesColumns(m.d, m.e, m.f, n.a, n.b, n.c, n.d, n.e, n.f, n.g, n.h, n.i, p.x, p.y, p.z);
    RowTimesColumns(m.g, m.h, m.i, n.a, n.b, n.c, n.d, n.e, n.f, n.g, n.h, n.i, p.x, p.y, p.z);
  }
}
