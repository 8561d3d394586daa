/**
 * The rotation matrices of the TNM046 utility library: mat4rotx, mat4roty
 * and mat4rotz. Each takes an angle and fills a column-major array with
 * its cosine and sine; the model takes the two values c and s themselves,
 * so the facts that hold for any angle are stated for c*c + s*s == 1.
 *
 * mat4rotz as written stores 0 in its last entry (row 3, column 3) where
 * a rotation has 1. RotZ reproduces that entry; RotZAffine is the matrix
 * with the 1 restored, and the lemmas about z-rotations that behave like
 * the other two are stated for it.
 */
module Rotation {
  import opened Mat4

  /** mat4rotx: rotation about the x axis. */
  function RotX(c: real, s: real): Array16
  {
    [1.0, 0.0, 0.0, 0.0,
     0.0, c, s, 0.0,
     0.0, -s, c, 0.0,
     0.0, 0.0, 0.0, 1.0]
  }

  /** mat4roty: rotation about the y axis. */
  function RotY(c: real, s: real): Array16
  {
    [c, 0.0, -s, 0.0,
     0.0, 1.0, 0.0, 0.0,
     s, 0.0, c, 0.0,
     0.0, 0.0, 0.0, 1.0]
  }

  /** mat4rotz as written: its last entry is 0. */
  function RotZ(c: real, s: real): Array16
  {
    [c, s, 0.0, 0.0,
     -s, c, 0.0, 0.0,
     0.0, 0.0, 1.0, 0.0,
     0.0, 0.0, 0.0, 0.0]
  }

  /** mat4rotz with the last entry 1, as a rotation about the z axis has it. */
  function RotZAffine(c: real, s: real): Array16
  {
    [c, s, 0.0, 0.0,
     -s, c, 0.0, 0.0,
     0.0, 0.0, 1.0, 0.0,
     0.0, 0.0, 0.0, 1.0]
  }

  /** The vector (x, y, z, w). */
  function Vec(x: real, y: real, z: real, w: real): Vector
  {
    [x, y, z, w]
  }

  /** RotX turns y towards z and leaves x and w alone. */
  lemma RotXApply(c: real, s: real, x: real, y: real, z: real, w: real)
    ensures Apply(Columns(RotX(c, s)), Vec(x, y, z, w))
         == Vec(x, c * y - s * z, s * y + c * z, w)
  {
    ColumnsOf(RotX(c, s));
    var m := Columns(RotX(c, s));
    var u := Apply(m, Vec(x, y, z, w));
    assert u[0] == x;
    assert u[1] == c * y - s * z;
    assert u[2] == s * y + c * z;
    assert u[3] == w;
  }

  /** RotY turns z towards x and leaves y and w alone. */
  lemma RotYApply(c: real, s: real, x: real, y: real, z: real, w: real)
    ensures Apply(Columns(RotY(c, s)), Vec(x, y, z, w))
         == Vec(c * x + s * z, y, c * z - s * x, w)
  {
    ColumnsOf(RotY(c, s));
    var m := Columns(RotY(c, s));
    var u := Apply(m, Vec(x, y, z, w));
    assert u[0] == c * x + s * z;
    assert u[1] == y;
    assert u[2] == c * z - s * x;
    assert u[3] == w;
  }

  /** RotZ as written turns x towards y, keeps z, and always yields w == 0. */
  lemma RotZApply(c: real, s: real, x: real, y: real, z: real, w: real)
    ensures Apply(Columns(RotZ(c, s)), Vec(x, y, z, w))
         == Vec(c * x - s * y, s * x + c * y, z, 0.0)
  {
    ColumnsOf(RotZ(c, s));
    var m := Columns(RotZ(c, s));
    var u := Apply(m, Vec(x, y, z, w));
    assert u[0] == c * x - s * y;
    assert u[1] == s * x + c * y;
    assert u[2] == z;
    assert u[3] == 0.0;
  }

  /** RotZAffine turns x towards y and leaves z and w alone. */
  lemma RotZAffineApply(c: real, s: real, x: real, y: real, z: real, w: real)
    ensures Apply(Columns(RotZAffine(c, s)), Vec(x, y, z, w))
         == Vec(c * x - s * y, s * x + c * y, z, w)
  {
    ColumnsOf(RotZAffine(c, s));
    var m := Columns(RotZAffine(c, s));
    var u := Apply(m, Vec(x, y, z, w));
    assert u[0] == c * x - s * y;
    assert u[1] == s * x + c * y;
    assert u[2] == z;
    assert u[3] == w;
  }

  /** The x and y rotations are affine; mat4rotz as written is not. */
  lemma Affinity(c: real, s: real)
    ensures IsAffine(Columns(RotX(c, s)))
    ensures IsAffine(Columns(RotY(c, s)))
    ensures !IsAffine(Columns(RotZ(c, s)))
    ensures IsAffine(Columns(RotZAffine(c, s)))
  {
  }

  /** The zero angle (c, s) = (1, 0) gives the identity, except in mat4rotz as written. */
  lemma ZeroAngle()
    ensures Columns(RotX(1.0, 0.0)) == Identity()
    ensures Columns(RotY(1.0, 0.0)) == Identity()
    ensures Columns(RotZAffine(1.0, 0.0)) == Identity()
    ensures Columns(RotZ(1.0, 0.0)) != Identity()
  {
    ColumnsOf(RotX(1.0, 0.0));
    ColumnsOf(RotY(1.0, 0.0));
    ColumnsOf(RotZAffine(1.0, 0.0));
    assert Columns(RotZ(1.0, 0.0))[3][3] == 0.0;
  }

  /**
   * Two x rotations make one: the angles add, by the sum formulas
   * cos(a + b) = cos a cos b - sin a sin b and sin(a + b) = sin a cos b + cos a sin b.
   */
  lemma RotXCompose(c1: real, s1: real, c2: real, s2: real, c: real, s: real)
    requires c == c1 * c2 - s1 * s2 && s == s1 * c2 + c1 * s2
    ensures Product(Columns(RotX(c1, s1)), Columns(RotX(c2, s2))) == Columns(RotX(c, s))
  {
    var a, b := Columns(RotX(c1, s1)), Columns(RotX(c2, s2));
    var r := Columns(RotX(c, s));
    var ns2, ns := -s2, -s;
    ColumnsOf(RotX(c2, s2));
    ColumnsOf(RotX(c, s));
    assert b == [Vec(1.0, 0.0, 0.0, 0.0), Vec(0.0, c2, s2, 0.0), Vec(0.0, ns2, c2, 0.0), Vec(0.0, 0.0, 0.0, 1.0)];
    assert r == [Vec(1.0, 0.0, 0.0, 0.0), Vec(0.0, c, s, 0.0), Vec(0.0, ns, c, 0.0), Vec(0.0, 0.0, 0.0, 1.0)];
    RotXApply(c1, s1, 1.0, 0.0, 0.0, 0.0);
    RotXApply(c1, s1, 0.0, c2, s2, 0.0);
    RotXApply(c1, s1, 0.0, ns2, c2, 0.0);
    RotXApply(c1, s1, 0.0, 0.0, 0.0, 1.0);
    assert c1 * ns2 - s1 * c2 == ns && s1 * ns2 + c1 * c2 == c;
    assert Product(a, b) == [Apply(a, b[0]), Apply(a, b[1]), Apply(a, b[2]), Apply(a, b[3])];
  }

  /** Two y rotations make one: the angles add. */
  lemma RotYCompose(c1: real, s1: real, c2: real, s2: real, c: real, s: real)
    requires c == c1 * c2 - s1 * s2 && s == s1 * c2 + c1 * s2
    ensures Product(Columns(RotY(c1, s1)), Columns(RotY(c2, s2))) == Columns(RotY(c, s))
  {
    var a, b := Columns(RotY(c1, s1)), Columns(RotY(c2, s2));
    var r := Columns(RotY(c, s));
    var ns2, ns := -s2, -s;
    ColumnsOf(RotY(c2, s2));
    ColumnsOf(RotY(c, s));
    assert b == [Vec(c2, 0.0, ns2, 0.0), Vec(0.0, 1.0, 0.0, 0.0), Vec(s2, 0.0, c2, 0.0), Vec(0.0, 0.0, 0.0, 1.0)];
    assert r == [Vec(c, 0.0, ns, 0.0), Vec(0.0, 1.0, 0.0, 0.0), Vec(s, 0.0, c, 0.0), Vec(0.0, 0.0, 0.0, 1.0)];
    RotYApply(c1, s1, c2, 0.0, ns2, 0.0);
    RotYApply(c1, s1, 0.0, 1.0, 0.0, 0.0);
    RotYApply(c1, s1, s2, 0.0, c2, 0.0);
    RotYApply(c1, s1, 0.0, 0.0, 0.0, 1.0);
    assert c1 * c2 + s1 * ns2 == c && c1 * ns2 - s1 * c2 == ns;
    assert c1 * s2 + s1 * c2 == s && c1 * c2 - s1 * s2 == c;
    assert Product(a, b) == [Apply(a, b[0]), Apply(a, b[1]), Apply(a, b[2]), Apply(a, b[3])];
  }

  /** Two corrected z rotations make one: the angles add. */
  lemma RotZAffineCompose(c1: real, s1: real, c2: real, s2: real, c: real, s: real)
    requires c == c1 * c2 - s1 * s2 && s == s1 * c2 + c1 * s2
    ensures Product(Columns(RotZAffine(c1, s1)), Columns(RotZAffine(c2, s2))) == Columns(RotZAffine(c, s))
  {
    var a, b := Columns(RotZAffine(c1, s1)), Columns(RotZAffine(c2, s2));
    var r := Columns(RotZAffine(c, s));
    var ns2, ns := -s2, -s;
    ColumnsOf(RotZAffine(c2, s2));
    ColumnsOf(RotZAffine(c, s));
    assert b == [Vec(c2, s2, 0.0, 0.0), Vec(ns2, c2, 0.0, 0.0), Vec(0.0, 0.0, 1.0, 0.0), Vec(0.0, 0.0, 0.0, 1.0)];
    assert r == [Vec(c, s, 0.0, 0.0), Vec(ns, c, 0.0, 0.0), Vec(0.0, 0.0, 1.0, 0.0), Vec(0.0, 0.0, 0.0, 1.0)];
    RotZAffineApply(c1, s1, c2, s2, 0.0, 0.0);
    RotZAffineApply(c1, s1, ns2, c2, 0.0, 0.0);
    RotZAffineApply(c1, s1, 0.0, 0.0, 1.0, 0.0);
    RotZAffineApply(c1, s1, 0.0, 0.0, 0.0, 1.0);
    assert c1 * ns2 - s1 * c2 == ns && s1 * ns2 + c1 * c2 == c;
    assert Product(a, b) == [Apply(a, b[0]), Apply(a, b[1]), Apply(a, b[2]), Apply(a, b[3])];
  }

  /** For a true angle, rotating by -angle undoes an x rotation, on either side. */
  lemma RotXInverse(c: real, s: real)
    requires c * c + s * s == 1.0
    ensures Product(Columns(RotX(c, s)), Columns(RotX(c, -s))) == Identity()
    ensures Product(Columns(RotX(c, -s)), Columns(RotX(c, s))) == Identity()
  {
    RotXCompose(c, s, c, -s, 1.0, 0.0);
    RotXCompose(c, -s, c, s, 1.0, 0.0);
    ZeroAngle();
  }

  /** For a true angle, rotating by -angle undoes a y rotation, on either side. */
  lemma RotYInverse(c: real, s: real)
    requires c * c + s * s == 1.0
    ensures Product(Columns(RotY(c, s)), Columns(RotY(c, -s))) == Identity()
    ensures Product(Columns(RotY(c, -s)), Columns(RotY(c, s))) == Identity()
  {
    RotYCompose(c, s, c, -s, 1.0, 0.0);
    RotYCompose(c, -s, c, s, 1.0, 0.0);
    ZeroAngle();
  }

  /** For a true angle, rotating by -angle undoes a corrected z rotation, on either side. */
  lemma RotZAffineInverse(c: real, s: real)
    requires c * c + s * s == 1.0
    ensures Product(Columns(RotZAffine(c, s)), Columns(RotZAffine(c, -s))) == Identity()
    ensures Product(Columns(RotZAffine(c, -s)), Columns(RotZAffine(c, s))) == Identity()
  {
    RotZAffineCompose(c, s, c, -s, 1.0, 0.0);
    RotZAffineCompose(c, -s, c, s, 1.0, 0.0);
    ZeroAngle();
  }

  /**
   * mat4rotz as written has no inverse for any angle: its last column is
   * zero, so no matrix undoes it from the left, and its last row is zero,
   * so none undoes it from the right.
   */
  lemma RotZSingular(c: real, s: real, m: Matrix)
    ensures Product(m, Columns(RotZ(c, s))) != Identity()
    ensures Product(Columns(RotZ(c, s)), m) != Identity()
  {
    var z := Columns(RotZ(c, s));
    ColumnsOf(RotZ(c, s));
    assert z[3] == Zero;
    assert Product(m, z)[3][3] == 0.0;
    RotZApply(c, s, m[3][0], m[3][1], m[3][2], m[3][3]);
    assert m[3] == Vec(m[3][0], m[3][1], m[3][2], m[3][3]);
    assert Product(z, m)[3][3] == 0.0;
  }
}
