/** The affine part of a 2D transform matrix, with the constructors and the
    post-concatenation the camera uses.  The coefficients follow the usual
    3x3 row-major layout
        | scaleX skewX  transX |
        | skewY  scaleY transY |
        |   0      0      1    |
    so a point (x, y) goes to
        (scaleX * x + skewX * y + transX, skewY * x + scaleY * y + transY).
    The perspective row is always (0, 0, 1) for the matrices built here.
 */
module Matrix {

  datatype Vec2 = Vec2(x: real, y: real)

  function Add(p: Vec2, q: Vec2): Vec2 { Vec2(p.x + q.x, p.y + q.y) }
  function Sub(p: Vec2, q: Vec2): Vec2 { Vec2(p.x - q.x, p.y - q.y) }
  function Neg(p: Vec2): Vec2 { Vec2(-p.x, -p.y) }

  datatype Affine = Affine(scaleX: real, skewX: real, transX: real,
                           skewY: real, scaleY: real, transY: real)

  /** Cosine and sine of a rotation angle, standing in for the trigonometry
      that turns a number of degrees into a rotation matrix. */
  datatype Rotation = Rotation(cos: real, sin: real)

  /** The rotation by zero degrees. */
  const NoRotation := Rotation(1.0, 0.0)

  /** Where the matrix sends a point. */
  function Apply(m: Affine, p: Vec2): Vec2 {
    Vec2(m.scaleX * p.x + m.skewX * p.y + m.transX,
         m.skewY * p.x + m.scaleY * p.y + m.transY)
  }

  /** `CreateTranslation(dx, dy)`: every point moves by (dx, dy); shown on
      (0, 0) and the two unit points, which fix an affine map. */
  function Translation(dx: real, dy: real): (m: Affine)
    ensures Apply(m, Vec2(0.0, 0.0)) == Vec2(dx, dy)
    ensures Apply(m, Vec2(1.0, 0.0)) == Vec2(1.0 + dx, dy)
    ensures Apply(m, Vec2(0.0, 1.0)) == Vec2(dx, 1.0 + dy)
  {
    Affine(1.0, 0.0, dx, 0.0, 1.0, dy)
  }

  /** `CreateScale(sx, sy)`: (0, 0) stays put and the unit points are
      stretched by sx and sy. */
  function Scale(sx: real, sy: real): (m: Affine)
    ensures Apply(m, Vec2(0.0, 0.0)) == Vec2(0.0, 0.0)
    ensures Apply(m, Vec2(1.0, 0.0)) == Vec2(sx, 0.0)
    ensures Apply(m, Vec2(0.0, 1.0)) == Vec2(0.0, sy)
  {
    Affine(sx, 0.0, 0.0, 0.0, sy, 0.0)
  }

  /** `CreateRotationDegrees`, given the angle's cosine and sine: (0, 0) stays
      put, (1, 0) goes to (cos, sin) and (0, 1) to (-sin, cos), which is
      counter-clockwise in a y-up frame (clockwise on a y-down screen). */
  function RotationMatrix(rot: Rotation): (m: Affine)
    ensures Apply(m, Vec2(0.0, 0.0)) == Vec2(0.0, 0.0)
    ensures Apply(m, Vec2(1.0, 0.0)) == Vec2(rot.cos, rot.sin)
    ensures Apply(m, Vec2(0.0, 1.0)) == Vec2(-rot.sin, rot.cos)
  {
    Affine(rot.cos, -rot.sin, 0.0, rot.sin, rot.cos, 0.0)
  }

  /** The matrix product a * b, which applies b first and then a. */
  function Concat(a: Affine, b: Affine): Affine {
    Affine(a.scaleX * b.scaleX + a.skewX * b.skewY,
           a.scaleX * b.skewX + a.skewX * b.scaleY,
           a.scaleX * b.transX + a.skewX * b.transY + a.transX,
           a.skewY * b.scaleX + a.scaleY * b.skewY,
           a.skewY * b.skewX + a.scaleY * b.scaleY,
           a.skewY * b.transX + a.scaleY * b.transY + a.transY)
  }

  /** The identity transform. */
  const Identity := Affine(1.0, 0.0, 0.0, 0.0, 1.0, 0.0)

  /** `a.PostConcat(b)`: the product b * a.  Post-concatenating the identity,
      or post-concatenating onto it, changes nothing. */
  function PostConcat(a: Affine, b: Affine): (m: Affine)
    ensures b == Identity ==> m == a
    ensures a == Identity ==> m == b
  {
    Concat(b, a)
  }

  /** The product of two matrices applies the right factor first. */
  lemma ConcatApplies(a: Affine, b: Affine, p: Vec2)
    ensures Apply(Concat(a, b), p) == Apply(a, Apply(b, p))
  {
    var q := Apply(b, p);
    calc {
      Apply(a, q).x;
      a.scaleX * (b.scaleX * p.x + b.skewX * p.y + b.transX)
        + a.skewX * (b.skewY * p.x + b.scaleY * p.y + b.transY) + a.transX;
      (a.scaleX * b.scaleX + a.skewX * b.skewY) * p.x
        + (a.scaleX * b.skewX + a.skewX * b.scaleY) * p.y
        + (a.scaleX * b.transX + a.skewX * b.transY + a.transX);
      Apply(Concat(a, b), p).x;
    }
    calc {
      Apply(a, q).y;
      a.skewY * (b.scaleX * p.x + b.skewX * p.y + b.transX)
        + a.scaleY * (b.skewY * p.x + b.scaleY * p.y + b.transY) + a.transY;
      (a.skewY * b.scaleX + a.scaleY * b.skewY) * p.x
        + (a.skewY * b.skewX + a.scaleY * b.scaleY) * p.y
        + (a.skewY * b.transX + a.scaleY * b.transY + a.transY);
      Apply(Concat(a, b), p).y;
    }
  }

  /** `a.PostConcat(b)` applies `a` first and then `b`. */
  lemma PostConcatApplies(a: Affine, b: Affine, p: Vec2)
    ensures Apply(PostConcat(a, b), p) == Apply(b, Apply(a, p))
  {
    ConcatApplies(b, a, p);
  }

  /** A chain of post-concatenations applies its factors from left to right. */
  lemma PostConcatChainApplies(a: Affine, b: Affine, c: Affine, d: Affine, e: Affine, p: Vec2)
    ensures Apply(PostConcat(PostConcat(PostConcat(PostConcat(a, b), c), d), e), p)
         == Apply(e, Apply(d, Apply(c, Apply(b, Apply(a, p)))))
  {
    var ab := PostConcat(a, b);
    var abc := PostConcat(ab, c);
    var abcd := PostConcat(abc, d);
    PostConcatApplies(a, b, p);
    PostConcatApplies(ab, c, p);
    PostConcatApplies(abc, d, p);
    PostConcatApplies(abcd, e, p);
  }
}
