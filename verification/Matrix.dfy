/**
  Real matrices, as far as the direction filter needs them, and the block-scalar matrices: those
  of the form M (x) I3, in which every 3x3 block is a multiple of the identity.
 */
module Matrix {

  type Mat = seq<seq<real>>

  ghost predicate Shape(m: Mat, rows: nat, cols: nat) {
    |m| == rows && forall i :: 0 <= i < rows ==> |m[i]| == cols
  }

  /** sum over k < n of a[i][k] * b[k][j] */
  function Dot(a: Mat, b: Mat, i: nat, j: nat, n: nat): real
    requires i < |a| && n <= |a[i]| && n <= |b| && forall k :: 0 <= k < n ==> j < |b[k]|
  {
    if n == 0 then 0.0 else Dot(a, b, i, j, n - 1) + a[i][n - 1] * b[n - 1][j]
  }

  function Mul(a: Mat, b: Mat, rows: nat, inner: nat, cols: nat): (m: Mat)
    requires Shape(a, rows, inner) && Shape(b, inner, cols)
    ensures Shape(m, rows, cols)
    ensures forall i, j :: 0 <= i < rows && 0 <= j < cols ==> m[i][j] == Dot(a, b, i, j, inner)
  {
    seq(rows, i requires 0 <= i < rows => seq(cols, j requires 0 <= j < cols => Dot(a, b, i, j, inner)))
  }

  function Plus(a: Mat, b: Mat, rows: nat, cols: nat): (m: Mat)
    requires Shape(a, rows, cols) && Shape(b, rows, cols)
    ensures Shape(m, rows, cols)
    ensures forall i, j :: 0 <= i < rows && 0 <= j < cols ==> m[i][j] == a[i][j] + b[i][j]
  {
    seq(rows, i requires 0 <= i < rows => seq(cols, j requires 0 <= j < cols => a[i][j] + b[i][j]))
  }

  function Minus(a: Mat, b: Mat, rows: nat, cols: nat): (m: Mat)
    requires Shape(a, rows, cols) && Shape(b, rows, cols)
    ensures Shape(m, rows, cols)
    ensures forall i, j :: 0 <= i < rows && 0 <= j < cols ==> m[i][j] == a[i][j] - b[i][j]
  {
    seq(rows, i requires 0 <= i < rows => seq(cols, j requires 0 <= j < cols => a[i][j] - b[i][j]))
  }

  function Times(k: real, a: Mat, rows: nat, cols: nat): (m: Mat)
    requires Shape(a, rows, cols)
    ensures Shape(m, rows, cols)
    ensures forall i, j :: 0 <= i < rows && 0 <= j < cols ==> m[i][j] == a[i][j] * k
  {
    seq(rows, i requires 0 <= i < rows => seq(cols, j requires 0 <= j < cols => a[i][j] * k))
  }

  function Transpose(a: Mat, rows: nat, cols: nat): (m: Mat)
    requires Shape(a, rows, cols)
    ensures Shape(m, cols, rows)
    ensures forall i, j :: 0 <= i < cols && 0 <= j < rows ==> m[i][j] == a[j][i]
  {
    seq(cols, i requires 0 <= i < cols => seq(rows, j requires 0 <= j < rows => a[j][i]))
  }

  function Identity(n: nat): (m: Mat)
    ensures Shape(m, n, n)
    ensures forall i, j :: 0 <= i < n && 0 <= j < n ==> m[i][j] == if i == j then 1.0 else 0.0
  {
    seq(n, i requires 0 <= i < n => seq(n, j requires 0 <= j < n => if i == j then 1.0 else 0.0))
  }

  lemma Extensional(a: Mat, b: Mat, rows: nat, cols: nat)
    requires Shape(a, rows, cols) && Shape(b, rows, cols)
    requires forall i, j :: 0 <= i < rows && 0 <= j < cols ==> a[i][j] == b[i][j]
    ensures a == b
  {
    forall i | 0 <= i < rows
      ensures a[i] == b[i]
    {
    }
  }

  // ----- 3x3 inverse by cofactors -----

  function Det3(m: Mat): real
    requires Shape(m, 3, 3)
  {
    m[0][0] * (m[1][1] * m[2][2] - m[1][2] * m[2][1])
    - m[0][1] * (m[1][0] * m[2][2] - m[1][2] * m[2][0])
    + m[0][2] * (m[1][0] * m[2][1] - m[1][1] * m[2][0])
  }

  function Adjugate3(m: Mat): (a: Mat)
    requires Shape(m, 3, 3)
    ensures Shape(a, 3, 3)
  {
    [[m[1][1] * m[2][2] - m[1][2] * m[2][1], m[0][2] * m[2][1] - m[0][1] * m[2][2], m[0][1] * m[1][2] - m[0][2] * m[1][1]],
     [m[1][2] * m[2][0] - m[1][0] * m[2][2], m[0][0] * m[2][2] - m[0][2] * m[2][0], m[0][2] * m[1][0] - m[0][0] * m[1][2]],
     [m[1][0] * m[2][1] - m[1][1] * m[2][0], m[0][1] * m[2][0] - m[0][0] * m[2][1], m[0][0] * m[1][1] - m[0][1] * m[1][0]]]
  }

  function Inverse3(m: Mat): (r: Mat)
    requires Shape(m, 3, 3) && Det3(m) != 0.0
    ensures Shape(r, 3, 3)
  {
    Times(1.0 / Det3(m), Adjugate3(m), 3, 3)
  }

  // ----- block-scalar matrices -----

  /** m (x) I3 for a rows x cols matrix m. */
  function Lift(m: Mat, rows: nat, cols: nat): (r: Mat)
    requires Shape(m, rows, cols)
    ensures Shape(r, 3 * rows, 3 * cols)
  {
    seq(3 * rows, i requires 0 <= i < 3 * rows =>
      seq(3 * cols, j requires 0 <= j < 3 * cols => if i % 3 == j % 3 then m[i / 3][j / 3] else 0.0))
  }

  lemma LiftAt(m: Mat, rows: nat, cols: nat, i: nat, j: nat, d: nat, e: nat)
    requires Shape(m, rows, cols) && i < rows && j < cols && d < 3 && e < 3
    ensures Lift(m, rows, cols)[3 * i + d][3 * j + e] == if d == e then m[i][j] else 0.0
  {
    assert (3 * i + d) / 3 == i && (3 * i + d) % 3 == d && (3 * j + e) / 3 == j && (3 * j + e) % 3 == e;
  }

  lemma DotStep(x: Mat, y: Mat, i: nat, j: nat, k: nat)
    requires i < |x| && k + 1 <= |x[i]| && k + 1 <= |y| && forall r :: 0 <= r < k + 1 ==> j < |y[r]|
    ensures Dot(x, y, i, j, k + 1) == Dot(x, y, i, j, k) + x[i][k] * y[k][j]
  {
  }

  lemma DotStep3(x: Mat, y: Mat, i: nat, j: nat, k: nat)
    requires i < |x| && k + 3 <= |x[i]| && k + 3 <= |y| && forall r :: 0 <= r < k + 3 ==> j < |y[r]|
    ensures Dot(x, y, i, j, k + 3)
         == Dot(x, y, i, j, k) + x[i][k] * y[k][j] + x[i][k + 1] * y[k + 1][j] + x[i][k + 2] * y[k + 2][j]
  {
    assert Dot(x, y, i, j, k + 2) == Dot(x, y, i, j, k + 1) + x[i][k + 1] * y[k + 1][j];
  }

  /** A block of three products, at most one of them not zero. */
  lemma BlockProduct(a: real, b: real, d: nat, e: nat)
    requires d < 3 && e < 3
    ensures (if d == 0 then a else 0.0) * (if 0 == e then b else 0.0)
          + (if d == 1 then a else 0.0) * (if 1 == e then b else 0.0)
          + (if d == 2 then a else 0.0) * (if 2 == e then b else 0.0)
         == if d == e then a * b else 0.0
  {
  }

  lemma {:induction false} LiftDot(
    a: Mat, b: Mat, rows: nat, inner: nat, cols: nat, i: nat, d: nat, j: nat, e: nat, n: nat)
    requires Shape(a, rows, inner) && Shape(b, inner, cols)
    requires i < rows && j < cols && d < 3 && e < 3 && n <= inner
    ensures Dot(Lift(a, rows, inner), Lift(b, inner, cols), 3 * i + d, 3 * j + e, 3 * n)
         == if d == e then Dot(a, b, i, j, n) else 0.0
  {
    hide Lift;
    if n > 0 {
      LiftDot(a, b, rows, inner, cols, i, d, j, e, n - 1);
      LiftDotStep(a, b, rows, inner, cols, i, d, j, e, n - 1);
    }
  }

  lemma LiftDotStep(
    a: Mat, b: Mat, rows: nat, inner: nat, cols: nat, i: nat, d: nat, j: nat, e: nat, m: nat)
    requires Shape(a, rows, inner) && Shape(b, inner, cols)
    requires i < rows && j < cols && d < 3 && e < 3 && m < inner
    requires Dot(Lift(a, rows, inner), Lift(b, inner, cols), 3 * i + d, 3 * j + e, 3 * m)
          == if d == e then Dot(a, b, i, j, m) else 0.0
    ensures Dot(Lift(a, rows, inner), Lift(b, inner, cols), 3 * i + d, 3 * j + e, 3 * (m + 1))
         == if d == e then Dot(a, b, i, j, m + 1) else 0.0
  {
    hide Lift, Dot;
    DotStep(a, b, i, j, m);
    DotStep3(Lift(a, rows, inner), Lift(b, inner, cols), 3 * i + d, 3 * j + e, 3 * m);
    LiftAt(a, rows, inner, i, m, d, 0);
    LiftAt(a, rows, inner, i, m, d, 1);
    LiftAt(a, rows, inner, i, m, d, 2);
    LiftAt(b, inner, cols, m, j, 0, e);
    LiftAt(b, inner, cols, m, j, 1, e);
    LiftAt(b, inner, cols, m, j, 2, e);
    BlockProduct(a[i][m], b[m][j], d, e);
  }

  /** Lifting is a homomorphism of products. */
  lemma LiftMul(a: Mat, b: Mat, rows: nat, inner: nat, cols: nat)
    requires Shape(a, rows, inner) && Shape(b, inner, cols)
    ensures Mul(Lift(a, rows, inner), Lift(b, inner, cols), 3 * rows, 3 * inner, 3 * cols)
         == Lift(Mul(a, b, rows, inner, cols), rows, cols)
  {
    forall i, j | 0 <= i < 3 * rows && 0 <= j < 3 * cols
      ensures Dot(Lift(a, rows, inner), Lift(b, inner, cols), i, j, 3 * inner)
           == Lift(Mul(a, b, rows, inner, cols), rows, cols)[i][j]
    {
      LiftDot(a, b, rows, inner, cols, i / 3, i % 3, j / 3, j % 3, inner);
    }
    Extensional(Mul(Lift(a, rows, inner), Lift(b, inner, cols), 3 * rows, 3 * inner, 3 * cols),
                Lift(Mul(a, b, rows, inner, cols), rows, cols), 3 * rows, 3 * cols);
  }

  lemma LiftPlus(a: Mat, b: Mat, rows: nat, cols: nat)
    requires Shape(a, rows, cols) && Shape(b, rows, cols)
    ensures Plus(Lift(a, rows, cols), Lift(b, rows, cols), 3 * rows, 3 * cols) == Lift(Plus(a, b, rows, cols), rows, cols)
  {
    Extensional(Plus(Lift(a, rows, cols), Lift(b, rows, cols), 3 * rows, 3 * cols),
                Lift(Plus(a, b, rows, cols), rows, cols), 3 * rows, 3 * cols);
  }

  lemma LiftMinus(a: Mat, b: Mat, rows: nat, cols: nat)
    requires Shape(a, rows, cols) && Shape(b, rows, cols)
    ensures Minus(Lift(a, rows, cols), Lift(b, rows, cols), 3 * rows, 3 * cols) == Lift(Minus(a, b, rows, cols), rows, cols)
  {
    Extensional(Minus(Lift(a, rows, cols), Lift(b, rows, cols), 3 * rows, 3 * cols),
                Lift(Minus(a, b, rows, cols), rows, cols), 3 * rows, 3 * cols);
  }

  lemma LiftTimes(k: real, a: Mat, rows: nat, cols: nat)
    requires Shape(a, rows, cols)
    ensures Times(k, Lift(a, rows, cols), 3 * rows, 3 * cols) == Lift(Times(k, a, rows, cols), rows, cols)
  {
    Extensional(Times(k, Lift(a, rows, cols), 3 * rows, 3 * cols),
                Lift(Times(k, a, rows, cols), rows, cols), 3 * rows, 3 * cols);
  }

  lemma LiftTranspose(a: Mat, rows: nat, cols: nat)
    requires Shape(a, rows, cols)
    ensures Transpose(Lift(a, rows, cols), 3 * rows, 3 * cols) == Lift(Transpose(a, rows, cols), cols, rows)
  {
    Extensional(Transpose(Lift(a, rows, cols), 3 * rows, 3 * cols),
                Lift(Transpose(a, rows, cols), cols, rows), 3 * cols, 3 * rows);
  }

  lemma LiftIdentity(n: nat)
    ensures Identity(3 * n) == Lift(Identity(n), n, n)
  {
    forall i, j | 0 <= i < 3 * n && 0 <= j < 3 * n
      ensures Identity(3 * n)[i][j] == Lift(Identity(n), n, n)[i][j]
    {
      assert i == j <==> i / 3 == j / 3 && i % 3 == j % 3;
    }
    Extensional(Identity(3 * n), Lift(Identity(n), n, n), 3 * n, 3 * n);
  }

  /** The determinant of a multiple of the identity, and its inverse as the cofactor formula computes it. */
  lemma LiftInverse(s: real)
    ensures Det3(Lift([[s]], 1, 1)) == s * s * s
    ensures Det3(Lift([[s]], 1, 1)) != 0.0 <==> s != 0.0
    ensures s != 0.0 ==> Inverse3(Lift([[s]], 1, 1)) == Lift([[1.0 / s]], 1, 1)
  {
    var m := Lift([[s]], 1, 1);
    assert m[0][0] == s && m[1][1] == s && m[2][2] == s;
    assert m[0][1] == 0.0 && m[0][2] == 0.0 && m[1][0] == 0.0 && m[1][2] == 0.0 && m[2][0] == 0.0 && m[2][1] == 0.0;
    if s != 0.0 {
      assert s * s != 0.0;
      assert s * s * s != 0.0;
      assert s * s * (1.0 / (s * s * s)) == 1.0 / s;
      Extensional(Inverse3(m), Lift([[1.0 / s]], 1, 1), 3, 3);
    }
  }

  /** A multiple of the identity has an inverse, by whatever formula, if and only if it is not zero. */
  lemma LiftInvertibleIff(s: real)
    ensures (exists w :: Shape(w, 3, 3) && Mul(Lift([[s]], 1, 1), w, 3, 3, 3) == Identity(3)) <==> s != 0.0
  {
    hide Lift, Mul, Identity, Det3, Inverse3;
    if s != 0.0 {
      var k := 1.0 / s;
      LiftMul([[s]], [[k]], 1, 1, 1);
      LiftIdentity(1);
      OneByOne(s, k);
      assert Shape(Lift([[k]], 1, 1), 3, 3);
    }
    forall w | Shape(w, 3, 3) && Mul(Lift([[s]], 1, 1), w, 3, 3, 3) == Identity(3)
      ensures s != 0.0
    {
      if s == 0.0 {
        ZeroTimes(w);
      }
    }
  }

  lemma OneByOne(s: real, k: real)
    requires s * k == 1.0
    ensures Mul([[s]], [[k]], 1, 1, 1) == Identity(1)
  {
    var m := Mul([[s]], [[k]], 1, 1, 1);
    assert m[0][0] == Dot([[s]], [[k]], 0, 0, 1) == s * k;
    Extensional(m, Identity(1), 1, 1);
  }

  lemma ZeroTimes(w: Mat)
    requires Shape(w, 3, 3)
    ensures Mul(Lift([[0.0]], 1, 1), w, 3, 3, 3) != Identity(3)
  {
    var z := Lift([[0.0]], 1, 1);
    DotStep3(z, w, 0, 0, 0);
    assert Mul(z, w, 3, 3, 3)[0][0] == 0.0 != Identity(3)[0][0];
  }

  /** A column of n blocks of three, read as n rows: row b is block b. */
  function Axes(v: Mat, n: nat): (m: Mat)
    requires Shape(v, 3 * n, 1)
    ensures Shape(m, n, 3)
    ensures forall b, d :: 0 <= b < n && 0 <= d < 3 ==> m[b][d] == v[3 * b + d][0]
  {
    seq(n, b requires 0 <= b < n => seq(3, d requires 0 <= d < 3 => v[3 * b + d][0]))
  }

  /** A block-scalar matrix acts on every axis alike. */
  lemma {:induction false} LiftApply(m: Mat, v: Mat, rows: nat, inner: nat, i: nat, d: nat, n: nat)
    requires Shape(m, rows, inner) && Shape(v, 3 * inner, 1) && i < rows && d < 3 && n <= inner
    ensures Dot(Lift(m, rows, inner), v, 3 * i + d, 0, 3 * n) == Dot(m, Axes(v, inner), i, d, n)
  {
    hide Lift;
    if n > 0 {
      var k := n - 1;
      LiftApply(m, v, rows, inner, i, d, k);
      DotStep3(Lift(m, rows, inner), v, 3 * i + d, 0, 3 * k);
      LiftAt(m, rows, inner, i, k, d, 0);
      LiftAt(m, rows, inner, i, k, d, 1);
      LiftAt(m, rows, inner, i, k, d, 2);
      assert Axes(v, inner)[k][d] == v[3 * k + d][0];
    }
  }
}
