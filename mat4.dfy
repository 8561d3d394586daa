/**
 * 4x4 matrices of the TNM046 utility library.
 *
 * The library passes a matrix around as 16 numbers in column-major order,
 * the layout OpenGL reads when a matrix uniform is uploaded untransposed
 * (section 2.11.4 of the OpenGL 3.3 Core Profile specification): the entry
 * in row r and column c is stored at index 4*c + r. The algebra is stated
 * on the same numbers viewed as four columns. Entries are reals, so the
 * algebra holds exactly where the library's floats only approximate it.
 */
module Mat4 {

  /** The library's std::array<float, 16>: sixteen entries, column-major. */
  type Array16 = s: seq<real> | |s| == 16 witness seq(16, _ => 0.0)

  /** A homogeneous vector (x, y, z, w); also one column of a matrix. */
  type Vector = v: seq<real> | |v| == 4 witness [0.0, 0.0, 0.0, 0.0]

  const Zero: Vector := [0.0, 0.0, 0.0, 0.0]

  /** A matrix as its four columns: m[c][r] is the entry in row r, column c. */
  type Matrix = m: seq<Vector> | |m| == 4 witness [Zero, Zero, Zero, Zero]

  /** The matrix an array holds: column c is entries 4*c .. 4*c + 3. */
  function Columns(s: Array16): (m: Matrix)
    ensures forall c, r | 0 <= c < 4 && 0 <= r < 4 :: m[c][r] == s[4 * c + r]
  {
    seq(4, c requires 0 <= c < 4 => s[4 * c .. 4 * c + 4])
  }

  /** The array that holds a matrix: its columns one after another. */
  function Flatten(m: Matrix): Array16
  {
    var first: seq<real> := m[0];
    first + m[1] + m[2] + m[3]
  }

  /** Entry (r, c) of a matrix is written to index 4*c + r. */
  lemma FlattenAt(m: Matrix, c: nat, r: nat)
    requires c < 4 && r < 4
    ensures Flatten(m)[4 * c + r] == m[c][r]
  {
  }

  /** The matrix applied to a column vector: m * v. */
  function Apply(m: Matrix, v: Vector): Vector
  {
    seq(4, r requires 0 <= r < 4 =>
      m[0][r] * v[0] + m[1][r] * v[1] + m[2][r] * v[2] + m[3][r] * v[3])
  }

  /** The matrix product a * b: column c is a applied to column c of b. */
  function Product(a: Matrix, b: Matrix): Matrix
  {
    seq(4, c requires 0 <= c < 4 => Apply(a, b[c]))
  }

  /** The multiplicative identity (declared, without a body, by the library). */
  function Identity(): Matrix
  {
    [[1.0, 0.0, 0.0, 0.0],
     [0.0, 1.0, 0.0, 0.0],
     [0.0, 0.0, 1.0, 0.0],
     [0.0, 0.0, 0.0, 1.0]]
  }

  /** The last row is (0, 0, 0, 1): the matrix is an affine transform. */
  predicate IsAffine(m: Matrix)
  {
    m[0][3] == 0.0 && m[1][3] == 0.0 && m[2][3] == 0.0 && m[3][3] == 1.0
  }

  /** Two matrices with the same entries are equal. */
  lemma Extensional(x: Matrix, y: Matrix)
    requires forall c, r | 0 <= c < 4 && 0 <= r < 4 :: x[c][r] == y[c][r]
    ensures x == y
  {
    forall c | 0 <= c < 4 ensures x[c] == y[c] {
      assert forall r | 0 <= r < 4 :: x[c][r] == y[c][r];
    }
  }

  /** Reading an array as columns and writing them back gives the array. */
  lemma FlattenColumns(s: Array16)
    ensures Flatten(Columns(s)) == s
  {
    var m := Columns(s);
    forall idx | 0 <= idx < 16 ensures Flatten(m)[idx] == s[idx] {
      if idx < 8 {
        if idx < 4 { assert Flatten(m)[idx] == m[0][idx]; }
        else { assert Flatten(m)[idx] == m[1][idx - 4]; }
      } else {
        if idx < 12 { assert Flatten(m)[idx] == m[2][idx - 8]; }
        else { assert Flatten(m)[idx] == m[3][idx - 12]; }
      }
    }
  }

  /** Writing a matrix out and reading it back gives the matrix. */
  lemma ColumnsFlatten(m: Matrix)
    ensures Columns(Flatten(m)) == m
  {
    var s := Flatten(m);
    forall c, r | 0 <= c < 4 && 0 <= r < 4 ensures Columns(s)[c][r] == m[c][r] {
      assert s[4 * c + r] == m[c][r];
    }
    Extensional(Columns(s), m);
  }

  /** The four columns of an array, entry by entry. */
  lemma ColumnsOf(s: Array16)
    ensures Columns(s) == [[s[0], s[1], s[2], s[3]], [s[4], s[5], s[6], s[7]],
                           [s[8], s[9], s[10], s[11]], [s[12], s[13], s[14], s[15]]]
  {
    var m: Matrix := [[s[0], s[1], s[2], s[3]], [s[4], s[5], s[6], s[7]],
                      [s[8], s[9], s[10], s[11]], [s[12], s[13], s[14], s[15]]];
    forall c, r | 0 <= c < 4 && 0 <= r < 4 ensures Columns(s)[c][r] == m[c][r] {
      if c == 0 { } else if c == 1 { } else if c == 2 { } else { }
    }
    Extensional(Columns(s), m);
  }

  /** Different arrays hold different matrices. */
  lemma ColumnsInjective(s: Array16, t: Array16)
    requires Columns(s) == Columns(t)
    ensures s == t
  {
    FlattenColumns(s);
    FlattenColumns(t);
  }

  /**
   * The running sum of mat4mult's innermost loop after its first n steps:
   * terms k = 0 .. n-1 of row j of m1 times column i of m2, read from the
   * arrays.
   */
  function Dot(m1: Array16, m2: Array16, i: nat, j: nat, n: nat): real
    requires i < 4 && j < 4 && n <= 4
  {
    if n == 0 then 0.0
    else Dot(m1, m2, i, j, n - 1) + m1[4 * (n - 1) + j] * m2[4 * i + (n - 1)]
  }

  /** After all four steps the running sum is the product's entry. */
  lemma DotComplete(m1: Array16, m2: Array16, i: nat, j: nat)
    requires i < 4 && j < 4
    ensures Dot(m1, m2, i, j, 4) == Product(Columns(m1), Columns(m2))[i][j]
  {
    var a, b := Columns(m1), Columns(m2);
    assert Dot(m1, m2, i, j, 1) == m1[j] * m2[4 * i];
    assert Dot(m1, m2, i, j, 2) == Dot(m1, m2, i, j, 1) + m1[4 + j] * m2[4 * i + 1];
    assert Dot(m1, m2, i, j, 3) == Dot(m1, m2, i, j, 2) + m1[8 + j] * m2[4 * i + 2];
    assert Product(a, b)[i][j] == a[0][j] * b[i][0] + a[1][j] * b[i][1] + a[2][j] * b[i][2] + a[3][j] * b[i][3];
  }

  /**
   * mat4mult: the result starts at zero and entry 4*i + j accumulates the
   * four products of row j of m1 and column i of m2, in three nested loops.
   * Entries not yet reached stay zero and finished entries are not touched
   * again.
   */
  method Mat4Mult(m1: Array16, m2: Array16) returns (product: Array16)
    ensures Columns(product) == Product(Columns(m1), Columns(m2))
  {
    ghost var p := Flatten(Product(Columns(m1), Columns(m2)));
    var results := new real[16](_ => 0.0);
    for i := 0 to 4
      invariant forall idx | 0 <= idx < 4 * i :: results[idx] == p[idx]
      invariant forall idx | 4 * i <= idx < 16 :: results[idx] == 0.0
    {
      for j := 0 to 4
        invariant forall idx | 0 <= idx < 4 * i + j :: results[idx] == p[idx]
        invariant forall idx | 4 * i + j <= idx < 16 :: results[idx] == 0.0
      {
        for k := 0 to 4
          invariant results[4 * i + j] == Dot(m1, m2, i, j, k)
          invariant forall idx | 0 <= idx < 4 * i + j :: results[idx] == p[idx]
          invariant forall idx | 4 * i + j < idx < 16 :: results[idx] == 0.0
        {
          results[4 * i + j] := results[4 * i + j] + m1[4 * k + j] * m2[4 * i + k];
        }
        DotComplete(m1, m2, i, j);
        FlattenAt(Product(Columns(m1), Columns(m2)), i, j);
      }
    }
    product := results[..];
    assert product == p;
    ColumnsFlatten(Product(Columns(m1), Columns(m2)));
  }

  /** Applying the identity changes nothing. */
  lemma ApplyIdentity(v: Vector)
    ensures Apply(Identity(), v) == v
  {
    var w := Apply(Identity(), v);
    assert w[0] == v[0] && w[1] == v[1] && w[2] == v[2] && w[3] == v[3];
  }

  /** The identity's column c picks out column c. */
  lemma ApplyBasis(m: Matrix, c: nat)
    requires c < 4
    ensures Apply(m, Identity()[c]) == m[c]
  {
    var w := Apply(m, Identity()[c]);
    if c == 0 {
      assert w[0] == m[c][0] && w[1] == m[c][1] && w[2] == m[c][2] && w[3] == m[c][3];
    } else if c == 1 {
      assert w[0] == m[c][0] && w[1] == m[c][1] && w[2] == m[c][2] && w[3] == m[c][3];
    } else if c == 2 {
      assert w[0] == m[c][0] && w[1] == m[c][1] && w[2] == m[c][2] && w[3] == m[c][3];
    } else {
      assert w[0] == m[c][0] && w[1] == m[c][1] && w[2] == m[c][2] && w[3] == m[c][3];
    }
  }

  /** The identity is neutral on the left. */
  lemma LeftIdentity(m: Matrix)
    ensures Product(Identity(), m) == m
  {
    forall c | 0 <= c < 4 ensures Product(Identity(), m)[c] == m[c] {
      ApplyIdentity(m[c]);
    }
  }

  /** The identity is neutral on the right. */
  lemma RightIdentity(m: Matrix)
    ensures Product(m, Identity()) == m
  {
    forall c | 0 <= c < 4 ensures Product(m, Identity())[c] == m[c] {
      ApplyBasis(m, c);
    }
  }

  /** Sixteen-term regrouping: (x Y) z == x (Y z) for a row x, a 4x4 Y and a column z. */
  lemma Regroup(x0: real, x1: real, x2: real, x3: real,
                y00: real, y01: real, y02: real, y03: real,
                y10: real, y11: real, y12: real, y13: real,
                y20: real, y21: real, y22: real, y23: real,
                y30: real, y31: real, y32: real, y33: real,
                z0: real, z1: real, z2: real, z3: real)
    ensures (x0 * y00 + x1 * y10 + x2 * y20 + x3 * y30) * z0
          + (x0 * y01 + x1 * y11 + x2 * y21 + x3 * y31) * z1
          + (x0 * y02 + x1 * y12 + x2 * y22 + x3 * y32) * z2
          + (x0 * y03 + x1 * y13 + x2 * y23 + x3 * y33) * z3
         == x0 * (y00 * z0 + y01 * z1 + y02 * z2 + y03 * z3)
          + x1 * (y10 * z0 + y11 * z1 + y12 * z2 + y13 * z3)
          + x2 * (y20 * z0 + y21 * z1 + y22 * z2 + y23 * z3)
          + x3 * (y30 * z0 + y31 * z1 + y32 * z2 + y33 * z3)
  {
  }

  /** Row r of (a * b) v equals row r of a (b v). */
  lemma ApplyProductAt(a: Matrix, b: Matrix, v: Vector, r: nat)
    requires r < 4
    ensures Apply(Product(a, b), v)[r] == Apply(a, Apply(b, v))[r]
  {
    Regroup(a[0][r], a[1][r], a[2][r], a[3][r],
            b[0][0], b[0][1], b[0][2], b[0][3],
            b[1][0], b[1][1], b[1][2], b[1][3],
            b[2][0], b[2][1], b[2][2], b[2][3],
            b[3][0], b[3][1], b[3][2], b[3][3],
            v[0], v[1], v[2], v[3]);
  }

  /** Applying a * b to v applies b first, then a. */
  lemma ApplyProduct(a: Matrix, b: Matrix, v: Vector)
    ensures Apply(Product(a, b), v) == Apply(a, Apply(b, v))
  {
    forall r | 0 <= r < 4
      ensures Apply(Product(a, b), v)[r] == Apply(a, Apply(b, v))[r]
    {
      ApplyProductAt(a, b, v, r);
    }
  }

  /** The product is associative, so a chain of transforms may be grouped either way. */
  lemma Associative(a: Matrix, b: Matrix, c: Matrix)
    ensures Product(Product(a, b), c) == Product(a, Product(b, c))
  {
    forall j | 0 <= j < 4
      ensures Product(Product(a, b), c)[j] == Product(a, Product(b, c))[j]
    {
      ApplyProduct(a, b, c[j]);
    }
  }

  /** The product of two affine transforms is affine. */
  lemma AffineProduct(a: Matrix, b: Matrix)
    requires IsAffine(a) && IsAffine(b)
    ensures IsAffine(Product(a, b))
  {
    assert Product(a, b)[0][3] == a[0][3] * b[0][0] + a[1][3] * b[0][1] + a[2][3] * b[0][2] + a[3][3] * b[0][3];
    assert Product(a, b)[1][3] == a[0][3] * b[1][0] + a[1][3] * b[1][1] + a[2][3] * b[1][2] + a[3][3] * b[1][3];
    assert Product(a, b)[2][3] == a[0][3] * b[2][0] + a[1][3] * b[2][1] + a[2][3] * b[2][2] + a[3][3] * b[2][3];
    assert Product(a, b)[3][3] == a[0][3] * b[3][0] + a[1][3] * b[3][1] + a[2][3] * b[3][2] + a[3][3] * b[3][3];
  }
}
