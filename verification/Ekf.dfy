/**
  The direction filter: a six-state constant-velocity Kalman filter on unit bearings.

  The code works on full 6x6, 3x6 and 3x3 matrices.  Every one of them except the state is
  block-scalar, so the covariance is three numbers: the variance a of each position component, its
  covariance b with the matching velocity component, and the variance c of the velocity.
 */
module Ekf {
  import opened Prelude
  import opened Matrix

  /** The matrix with rows (x, y) and (z, w). */
  function M22(x: real, y: real, z: real, w: real): (m: Mat)
    ensures Shape(m, 2, 2)
  {
    [[x, y], [z, w]]
  }

  datatype Cov = Cov(a: real, b: real, c: real) {
    function Block(): (m: Mat)
      ensures Shape(m, 2, 2)
    {
      M22(a, b, b, c)
    }

    /** The covariance of one axis is positive definite, and position and velocity never anticorrelate. */
    predicate Healthy() {
      a > 0.0 && b >= 0.0 && c > 0.0 && a * c - b * b > 0.0
    }
  }

  const INITIAL := Cov(0.5, 0.0, 0.5)

  const MAX_STEP := 0.5

  // ----- the three-number filter -----

  function PredictCov(p: Cov, q: real, dt: real): Cov {
    Cov(p.a + 2.0 * p.b * dt + p.c * dt * dt + q * dt, p.b + p.c * dt, p.c + q * dt)
  }

  /** With a singular innovation covariance the value here is arbitrary; see Updated. */
  function CorrectCov(p: Cov, r: real): Cov {
    if p.a + r == 0.0 then p
    else Cov(p.a * r / (p.a + r), p.b * r / (p.a + r), p.c - p.b * p.b / (p.a + r))
  }

  // ----- the matrices of the code -----

  function Covariance(p: Cov): (m: Mat)
    ensures Shape(m, 6, 6)
  {
    Lift(p.Block(), 2, 2)
  }

  function Transition(dt: real): (f: Mat)
    ensures Shape(f, 6, 6)
  {
    seq(6, i requires 0 <= i < 6 =>
      seq(6, j requires 0 <= j < 6 => if i == j then 1.0 else if j == i + 3 then dt else 0.0))
  }

  function Observation(): (h: Mat)
    ensures Shape(h, 3, 6)
  {
    seq(3, i requires 0 <= i < 3 => seq(6, j requires 0 <= j < 6 => if i == j then 1.0 else 0.0))
  }

  /** F * P * F^T + I * q * dt */
  function PredictP(m: Mat, q: real, dt: real): (m': Mat)
    requires Shape(m, 6, 6)
    ensures Shape(m', 6, 6)
  {
    var f := Transition(dt);
    Plus(Mul(Mul(f, m, 6, 6, 6), Transpose(f, 6, 6), 6, 6, 6), Times(dt, Times(q, Identity(6), 6, 6), 6, 6), 6, 6)
  }

  /** H * P * H^T + R */
  function InnovationCovariance(m: Mat, r: real): (s: Mat)
    requires Shape(m, 6, 6)
    ensures Shape(s, 3, 3)
  {
    var h := Observation();
    Plus(Mul(Mul(h, m, 3, 6, 6), Transpose(h, 3, 6), 3, 6, 3), Times(r, Identity(3), 3, 3), 3, 3)
  }

  /** P * H^T * S^-1 */
  function Gain(m: Mat, r: real): (k: Mat)
    requires Shape(m, 6, 6) && Det3(InnovationCovariance(m, r)) != 0.0
    ensures Shape(k, 6, 3)
  {
    Mul(Mul(m, Transpose(Observation(), 3, 6), 6, 6, 3), Inverse3(InnovationCovariance(m, r)), 6, 3, 3)
  }

  /** (I - K * H) * P */
  function CorrectP(m: Mat, k: Mat): (m': Mat)
    requires Shape(m, 6, 6) && Shape(k, 6, 3)
    ensures Shape(m', 6, 6)
  {
    Mul(Minus(Identity(6), Mul(k, Observation(), 6, 3, 6), 6, 6), m, 6, 6, 6)
  }

  // ----- the matrices are block-scalar -----

  lemma TransitionLifted(dt: real)
    ensures Transition(dt) == Lift(M22(1.0, dt, 0.0, 1.0), 2, 2)
  {
    Extensional(Transition(dt), Lift(M22(1.0, dt, 0.0, 1.0), 2, 2), 6, 6);
  }

  lemma ObservationLifted()
    ensures Observation() == Lift([[1.0, 0.0]], 1, 2)
  {
    Extensional(Observation(), Lift([[1.0, 0.0]], 1, 2), 3, 6);
  }

  lemma Dot2(x: Mat, y: Mat, i: nat, j: nat)
    requires i < |x| && |x[i]| >= 2 && |y| >= 2 && forall k :: 0 <= k < 2 ==> j < |y[k]|
    ensures Dot(x, y, i, j, 2) == x[i][0] * y[0][j] + x[i][1] * y[1][j]
  {
    assert Dot(x, y, i, j, 1) == Dot(x, y, i, j, 0) + x[i][0] * y[0][j];
  }

  lemma Mul22(m: Mat, m': Mat, x: real, y: real, z: real, w: real)
    requires Shape(m, 2, 2) && Shape(m', 2, 2)
    requires x == m[0][0] * m'[0][0] + m[0][1] * m'[1][0] && y == m[0][0] * m'[0][1] + m[0][1] * m'[1][1]
    requires z == m[1][0] * m'[0][0] + m[1][1] * m'[1][0] && w == m[1][0] * m'[0][1] + m[1][1] * m'[1][1]
    ensures Mul(m, m', 2, 2, 2) == M22(x, y, z, w)
  {
    Dot2(m, m', 0, 0);
    Dot2(m, m', 0, 1);
    Dot2(m, m', 1, 0);
    Dot2(m, m', 1, 1);
    Extensional(Mul(m, m', 2, 2, 2), M22(x, y, z, w), 2, 2);
  }

  lemma Transpose22(x: real, y: real, z: real, w: real)
    ensures Transpose(M22(x, y, z, w), 2, 2) == M22(x, z, y, w)
  {
    Extensional(Transpose(M22(x, y, z, w), 2, 2), M22(x, z, y, w), 2, 2);
  }

  lemma ScaledIdentity2(q: real, dt: real, n: real)
    requires n == q * dt
    ensures Times(dt, Times(q, Identity(2), 2, 2), 2, 2) == M22(n, 0.0, 0.0, n)
  {
    Extensional(Times(dt, Times(q, Identity(2), 2, 2), 2, 2), M22(n, 0.0, 0.0, n), 2, 2);
  }

  /** One axis of the prediction. */
  function PredictAxis(f: Mat, b: Mat, q: real, dt: real): (m: Mat)
    requires Shape(f, 2, 2) && Shape(b, 2, 2)
    ensures Shape(m, 2, 2)
  {
    Plus(Mul(Mul(f, b, 2, 2, 2), Transpose(f, 2, 2), 2, 2, 2), Times(dt, Times(q, Identity(2), 2, 2), 2, 2), 2, 2)
  }

  lemma PredictAxisIs(p: Cov, q: real, dt: real)
    ensures PredictAxis(M22(1.0, dt, 0.0, 1.0), p.Block(), q, dt) == PredictCov(p, q, dt).Block()
  {
    hide Mul, Transpose, Times, PredictCov;
    var f, n := M22(1.0, dt, 0.0, 1.0), q * dt;
    var x, y := p.a + dt * p.b, p.b + dt * p.c;
    var u := x + y * dt;
    Mul22(f, p.Block(), x, y, p.b, p.c);
    Transpose22(1.0, dt, 0.0, 1.0);
    Mul22(M22(x, y, p.b, p.c), M22(1.0, 0.0, dt, 1.0), u, y, y, p.c);
    ScaledIdentity2(q, dt, n);
    PredictArithmetic(p, q, dt);
    Extensional(PredictAxis(f, p.Block(), q, dt), PredictCov(p, q, dt).Block(), 2, 2);
  }

  lemma PredictArithmetic(p: Cov, q: real, dt: real)
    ensures var p', x, y := PredictCov(p, q, dt), p.a + dt * p.b, p.b + dt * p.c;
      p' == Cov(x + y * dt + q * dt, y, p.c + q * dt)
  {
    assert (p.b + dt * p.c) * dt == p.b * dt + p.c * dt * dt;
  }

  lemma PredictLifted(f: Mat, b: Mat, q: real, dt: real)
    requires Shape(f, 2, 2) && Shape(b, 2, 2) && Transition(dt) == Lift(f, 2, 2)
    ensures PredictP(Lift(b, 2, 2), q, dt) == Lift(PredictAxis(f, b, q, dt), 2, 2)
  {
    hide Lift, Mul, Plus, Times, Transpose, Identity, Transition;
    LiftMul(f, b, 2, 2, 2);
    LiftTranspose(f, 2, 2);
    LiftMul(Mul(f, b, 2, 2, 2), Transpose(f, 2, 2), 2, 2, 2);
    LiftIdentity(2);
    LiftTimes(q, Identity(2), 2, 2);
    LiftTimes(dt, Times(q, Identity(2), 2, 2), 2, 2);
    LiftPlus(Mul(Mul(f, b, 2, 2, 2), Transpose(f, 2, 2), 2, 2, 2), Times(dt, Times(q, Identity(2), 2, 2), 2, 2), 2, 2);
  }

  /** The covariance prediction of the 6x6 filter is the three-number prediction. */
  lemma PredictRefines(p: Cov, q: real, dt: real)
    ensures PredictP(Covariance(p), q, dt) == Covariance(PredictCov(p, q, dt))
  {
    TransitionLifted(dt);
    PredictLifted(M22(1.0, dt, 0.0, 1.0), p.Block(), q, dt);
    PredictAxisIs(p, q, dt);
  }

  // ----- one axis of the measurement update -----

  const AXIS_OBSERVATION: Mat := [[1.0, 0.0]]

  function InnovationAxis(b: Mat, r: real): (s: Mat)
    requires Shape(b, 2, 2)
    ensures Shape(s, 1, 1)
  {
    var h := AXIS_OBSERVATION;
    Plus(Mul(Mul(h, b, 1, 2, 2), Transpose(h, 1, 2), 1, 2, 1), Times(r, Identity(1), 1, 1), 1, 1)
  }

  function GainAxis(b: Mat, s: real): (k: Mat)
    requires Shape(b, 2, 2) && s != 0.0
    ensures Shape(k, 2, 1)
  {
    Mul(Mul(b, Transpose(AXIS_OBSERVATION, 1, 2), 2, 2, 1), [[1.0 / s]], 2, 1, 1)
  }

  function CorrectAxis(b: Mat, k: Mat): (m: Mat)
    requires Shape(b, 2, 2) && Shape(k, 2, 1)
    ensures Shape(m, 2, 2)
  {
    Mul(Minus(Identity(2), Mul(k, AXIS_OBSERVATION, 2, 1, 2), 2, 2), b, 2, 2, 2)
  }

  lemma Dot1(x: Mat, y: Mat, i: nat, j: nat)
    requires i < |x| && |x[i]| >= 1 && |y| >= 1 && j < |y[0]|
    ensures Dot(x, y, i, j, 1) == x[i][0] * y[0][j]
  {
    assert Dot(x, y, i, j, 1) == Dot(x, y, i, j, 0) + x[i][0] * y[0][j];
  }

  lemma InnovationAxisIs(p: Cov, r: real)
    ensures InnovationAxis(p.Block(), r) == [[p.a + r]]
  {
    var h, b := AXIS_OBSERVATION, p.Block();
    var hb := Mul(h, b, 1, 2, 2);
    Dot2(h, b, 0, 0);
    Dot2(h, b, 0, 1);
    Dot2(hb, Transpose(h, 1, 2), 0, 0);
    Extensional(InnovationAxis(b, r), [[p.a + r]], 1, 1);
  }

  lemma GainAxisIs(p: Cov, s: real)
    requires s != 0.0
    ensures GainAxis(p.Block(), s) == [[p.a / s], [p.b / s]]
  {
    var b, ht := p.Block(), Transpose(AXIS_OBSERVATION, 1, 2);
    var bh := Mul(b, ht, 2, 2, 1);
    Dot2(b, ht, 0, 0);
    Dot2(b, ht, 1, 0);
    Dot1(bh, [[1.0 / s]], 0, 0);
    Dot1(bh, [[1.0 / s]], 1, 0);
    assert p.a * (1.0 / s) == p.a / s && p.b * (1.0 / s) == p.b / s;
    Extensional(GainAxis(b, s), [[p.a / s], [p.b / s]], 2, 1);
  }

  lemma CorrectAxisIs(p: Cov, r: real)
    requires p.a + r != 0.0
    ensures CorrectAxis(p.Block(), [[p.a / (p.a + r)], [p.b / (p.a + r)]]) == CorrectCov(p, r).Block()
  {
    var s := p.a + r;
    var g, f := p.a / s, p.b / s;
    var k, h := [[g], [f]], AXIS_OBSERVATION;
    CorrectAxisFactor(g, f);
    CorrectArithmetic(p, r, g, f);
    hide Mul, Minus, CorrectCov;
    var p' := CorrectCov(p, r);
    Mul22(M22(1.0 - g, 0.0, 0.0 - f, 1.0), p.Block(), p'.a, p'.b, p'.b, p'.c);
  }

  lemma CorrectAxisFactor(g: real, f: real)
    ensures Minus(Identity(2), Mul([[g], [f]], AXIS_OBSERVATION, 2, 1, 2), 2, 2) == M22(1.0 - g, 0.0, 0.0 - f, 1.0)
  {
    var k, h := [[g], [f]], AXIS_OBSERVATION;
    Dot1(k, h, 0, 0);
    Dot1(k, h, 0, 1);
    Dot1(k, h, 1, 0);
    Dot1(k, h, 1, 1);
    Extensional(Minus(Identity(2), Mul(k, h, 2, 1, 2), 2, 2), M22(1.0 - g, 0.0, 0.0 - f, 1.0), 2, 2);
  }

  lemma CorrectArithmetic(p: Cov, r: real, g: real, f: real)
    requires p.a + r != 0.0 && g == p.a / (p.a + r) && f == p.b / (p.a + r)
    ensures CorrectCov(p, r) == Cov((1.0 - g) * p.a, (1.0 - g) * p.b, p.c - f * p.b)
    ensures (1.0 - g) * p.b == p.b - f * p.a
  {
    var s := p.a + r;
    assert g * s == p.a && f * s == p.b;
    Quotient(1.0 - g, s, r);
    Quotient((1.0 - g) * p.a, s, p.a * r);
    Quotient((1.0 - g) * p.b, s, p.b * r);
    Quotient(f * p.b, s, p.b * p.b);
    Quotient(f * p.a, s, p.a * p.b);
    Quotient(g * p.b, s, p.a * p.b);
  }

  lemma Quotient(x: real, s: real, y: real)
    requires s != 0.0 && x * s == y
    ensures x == y / s
  {
  }

  // ----- the measurement update of the 6x6 filter -----

  lemma InnovationRefines(p: Cov, r: real)
    ensures InnovationCovariance(Covariance(p), r) == Lift([[p.a + r]], 1, 1)
  {
    InnovationLifted(p.Block(), r);
    InnovationAxisIs(p, r);
  }

  /** The innovation covariance is singular exactly if a + r is 0. */
  lemma SingularIff(p: Cov, r: real)
    ensures Det3(InnovationCovariance(Covariance(p), r)) == 0.0 <==> p.a + r == 0.0
  {
    hide Det3, Lift, Covariance, InnovationCovariance;
    InnovationRefines(p, r);
    LiftInverse(p.a + r);
  }

  lemma InnovationLifted(b: Mat, r: real)
    requires Shape(b, 2, 2)
    ensures InnovationCovariance(Lift(b, 2, 2), r) == Lift(InnovationAxis(b, r), 1, 1)
  {
    hide Lift, Mul, Plus, Times, Transpose, Identity, Observation;
    var h := AXIS_OBSERVATION;
    ObservationLifted();
    LiftMul(h, b, 1, 2, 2);
    LiftTranspose(h, 1, 2);
    LiftMul(Mul(h, b, 1, 2, 2), Transpose(h, 1, 2), 1, 2, 1);
    LiftIdentity(1);
    LiftTimes(r, Identity(1), 1, 1);
    LiftPlus(Mul(Mul(h, b, 1, 2, 2), Transpose(h, 1, 2), 1, 2, 1), Times(r, Identity(1), 1, 1), 1, 1);
  }

  lemma GainRefines(p: Cov, r: real)
    requires p.a + r != 0.0
    ensures Det3(InnovationCovariance(Covariance(p), r)) != 0.0
    ensures Gain(Covariance(p), r) == Lift([[p.a / (p.a + r)], [p.b / (p.a + r)]], 2, 1)
  {
    InnovationRefines(p, r);
    LiftInverse(p.a + r);
    GainLifted(p.Block(), p.a + r, r);
    GainAxisIs(p, p.a + r);
  }

  lemma GainLifted(b: Mat, s: real, r: real)
    requires Shape(b, 2, 2) && s != 0.0
    requires InnovationCovariance(Lift(b, 2, 2), r) == Lift([[s]], 1, 1)
    requires Det3(Lift([[s]], 1, 1)) != 0.0 && Inverse3(Lift([[s]], 1, 1)) == Lift([[1.0 / s]], 1, 1)
    ensures Gain(Lift(b, 2, 2), r) == Lift(GainAxis(b, s), 2, 1)
  {
    hide Lift, Mul, Transpose, Observation, InnovationCovariance, Inverse3, Det3;
    var h := AXIS_OBSERVATION;
    ObservationLifted();
    LiftTranspose(h, 1, 2);
    LiftMul(b, Transpose(h, 1, 2), 2, 2, 1);
    LiftMul(Mul(b, Transpose(h, 1, 2), 2, 2, 1), [[1.0 / s]], 2, 1, 1);
  }

  lemma CorrectLifted(b: Mat, k: Mat)
    requires Shape(b, 2, 2) && Shape(k, 2, 1)
    ensures CorrectP(Lift(b, 2, 2), Lift(k, 2, 1)) == Lift(CorrectAxis(b, k), 2, 2)
  {
    hide Lift, Mul, Minus, Identity, Observation;
    var h := AXIS_OBSERVATION;
    ObservationLifted();
    LiftMul(k, h, 2, 1, 2);
    LiftIdentity(2);
    LiftMinus(Identity(2), Mul(k, h, 2, 1, 2), 2, 2);
    LiftMul(Minus(Identity(2), Mul(k, h, 2, 1, 2), 2, 2), b, 2, 2, 2);
  }

  /** The covariance correction of the 6x6 filter is the three-number correction. */
  lemma CorrectRefines(p: Cov, r: real)
    requires p.a + r != 0.0
    ensures Det3(InnovationCovariance(Covariance(p), r)) != 0.0
    ensures CorrectP(Covariance(p), Gain(Covariance(p), r)) == Covariance(CorrectCov(p, r))
  {
    GainRefines(p, r);
    CorrectLifted(p.Block(), [[p.a / (p.a + r)], [p.b / (p.a + r)]]);
    CorrectAxisIs(p, r);
  }

  // ----- the state vector -----

  function PredictX(x: Mat, dt: real): (x': Mat)
    requires Shape(x, 6, 1)
    ensures Shape(x', 6, 1)
  {
    Mul(Transition(dt), x, 6, 6, 1)
  }

  function Innovation(z: Mat, x: Mat): (y: Mat)
    requires Shape(z, 3, 1) && Shape(x, 6, 1)
    ensures Shape(y, 3, 1)
  {
    Minus(z, Mul(Observation(), x, 3, 6, 1), 3, 1)
  }

  /** innovation^T * S^-1 * innovation */
  function Nis(y: Mat, s: Mat): real
    requires Shape(y, 3, 1) && Shape(s, 3, 3) && Det3(s) != 0.0
  {
    Mul(Mul(Transpose(y, 3, 1), Inverse3(s), 1, 3, 3), y, 1, 3, 1)[0][0]
  }

  function CorrectX(x: Mat, k: Mat, y: Mat): (x': Mat)
    requires Shape(x, 6, 1) && Shape(k, 6, 3) && Shape(y, 3, 1)
    ensures Shape(x', 6, 1)
  {
    Plus(x, Mul(k, y, 6, 3, 1), 6, 1)
  }

  function SquaredLength(y: Mat): real
    requires Shape(y, 3, 1)
  {
    y[0][0] * y[0][0] + y[1][0] * y[1][0] + y[2][0] * y[2][0]
  }

  /** Every axis moves with its own velocity. */
  lemma PredictXIs(x: Mat, dt: real, d: nat)
    requires Shape(x, 6, 1) && d < 3
    ensures PredictX(x, dt)[d][0] == x[d][0] + dt * x[d + 3][0]
    ensures PredictX(x, dt)[d + 3][0] == x[d + 3][0]
  {
    hide Lift;
    var f := M22(1.0, dt, 0.0, 1.0);
    TransitionLifted(dt);
    LiftApply(f, x, 2, 2, 0, d, 2);
    LiftApply(f, x, 2, 2, 1, d, 2);
    Dot2(f, Axes(x, 2), 0, d);
    Dot2(f, Axes(x, 2), 1, d);
  }

  lemma InnovationIs(z: Mat, x: Mat, d: nat)
    requires Shape(z, 3, 1) && Shape(x, 6, 1) && d < 3
    ensures Innovation(z, x)[d][0] == z[d][0] - x[d][0]
  {
    hide Lift;
    ObservationLifted();
    LiftApply(AXIS_OBSERVATION, x, 1, 2, 0, d, 2);
    Dot2(AXIS_OBSERVATION, Axes(x, 2), 0, d);
  }

  /** NIS is the squared innovation over a + r. */
  lemma NisIs(y: Mat, p: Cov, r: real)
    requires Shape(y, 3, 1) && p.a + r != 0.0
    ensures Det3(InnovationCovariance(Covariance(p), r)) != 0.0
    ensures Nis(y, InnovationCovariance(Covariance(p), r)) == SquaredLength(y) / (p.a + r)
  {
    var s := p.a + r;
    InnovationRefines(p, r);
    LiftInverse(s);
    NisOfScalar(y, 1.0 / s);
    assert SquaredLength(y) * (1.0 / s) == SquaredLength(y) / s;
  }

  lemma NisOfScalar(y: Mat, w: real)
    requires Shape(y, 3, 1)
    ensures Mul(Mul(Transpose(y, 3, 1), Lift([[w]], 1, 1), 1, 3, 3), y, 1, 3, 1)[0][0] == SquaredLength(y) * w
  {
    var yt, m := Transpose(y, 3, 1), Lift([[w]], 1, 1);
    var row := Mul(yt, m, 1, 3, 3);
    ScalarRow(y, w, 0);
    ScalarRow(y, w, 1);
    ScalarRow(y, w, 2);
    DotStep3(row, y, 0, 0, 0);
    hide Lift, Mul, Transpose;
    SumOfScaled(y[0][0], y[1][0], y[2][0], w);
  }

  lemma ScalarRow(y: Mat, w: real, e: nat)
    requires Shape(y, 3, 1) && e < 3
    ensures Mul(Transpose(y, 3, 1), Lift([[w]], 1, 1), 1, 3, 3)[0][e] == y[e][0] * w
  {
    hide Lift;
    DotStep3(Transpose(y, 3, 1), Lift([[w]], 1, 1), 0, e, 0);
    LiftAt([[w]], 1, 1, 0, 0, 0, e);
    LiftAt([[w]], 1, 1, 0, 0, 1, e);
    LiftAt([[w]], 1, 1, 0, 0, 2, e);
  }

  lemma SumOfScaled(a: real, b: real, c: real, w: real)
    ensures (a * w) * a + (b * w) * b + (c * w) * c == (a * a + b * b + c * c) * w
  {
    assert (a * w) * a == a * a * w && (b * w) * b == b * b * w && (c * w) * c == c * c * w;
  }

  /** The correction moves position and velocity of every axis along the innovation. */
  lemma CorrectXIs(x: Mat, p: Cov, r: real, y: Mat, d: nat)
    requires Shape(x, 6, 1) && Shape(y, 3, 1) && d < 3 && p.a + r != 0.0
    ensures Det3(InnovationCovariance(Covariance(p), r)) != 0.0
    ensures CorrectX(x, Gain(Covariance(p), r), y)[d][0] == x[d][0] + p.a / (p.a + r) * y[d][0]
    ensures CorrectX(x, Gain(Covariance(p), r), y)[d + 3][0] == x[d + 3][0] + p.b / (p.a + r) * y[d][0]
  {
    GainRefines(p, r);
    ApplyGain(x, [[p.a / (p.a + r)], [p.b / (p.a + r)]], y, d);
  }

  lemma ApplyGain(x: Mat, k: Mat, y: Mat, d: nat)
    requires Shape(x, 6, 1) && Shape(k, 2, 1) && Shape(y, 3, 1) && d < 3
    ensures CorrectX(x, Lift(k, 2, 1), y)[d][0] == x[d][0] + k[0][0] * y[d][0]
    ensures CorrectX(x, Lift(k, 2, 1), y)[d + 3][0] == x[d + 3][0] + k[1][0] * y[d][0]
  {
    hide Lift;
    LiftApply(k, y, 2, 1, 0, d, 1);
    LiftApply(k, y, 2, 1, 1, d, 1);
    Dot1(k, Axes(y, 1), 0, d);
    Dot1(k, Axes(y, 1), 1, d);
  }

  // ----- positive definiteness -----

  /** v^T * m * v */
  function Quadratic(m: Mat, v: Mat): real
    requires Shape(m, 6, 6) && Shape(v, 6, 1)
  {
    Mul(Transpose(v, 6, 1), Mul(m, v, 6, 6, 1), 1, 6, 1)[0][0]
  }

  predicate Zero(v: Mat)
    requires |v| == 6 && forall k :: 0 <= k < 6 ==> |v[k]| == 1
  {
    forall k :: 0 <= k < 6 ==> v[k][0] == 0.0
  }

  ghost predicate PositiveDefinite(m: Mat)
    requires Shape(m, 6, 6)
  {
    forall v :: Shape(v, 6, 1) && !Zero(v) ==> Quadratic(m, v) > 0.0
  }

  /** The quadratic form of one axis. */
  function AxisForm(p: Cov, x: real, y: real): real {
    p.a * x * x + 2.0 * p.b * x * y + p.c * y * y
  }

  /** The quadratic form of the 6x6 covariance is the sum over the axes. */
  lemma QuadraticIs(p: Cov, v: Mat)
    requires Shape(v, 6, 1)
    ensures Quadratic(Covariance(p), v)
         == AxisForm(p, v[0][0], v[3][0]) + AxisForm(p, v[1][0], v[4][0]) + AxisForm(p, v[2][0], v[5][0])
  {
    var pv := Mul(Covariance(p), v, 6, 6, 1);
    CovarianceTimes(p, v, 0);
    CovarianceTimes(p, v, 1);
    CovarianceTimes(p, v, 2);
    hide Covariance, AxisForm;
    var vt := Transpose(v, 6, 1);
    DotStep3(vt, pv, 0, 0, 3);
    DotStep3(vt, pv, 0, 0, 0);
    AxisTerms(p, v[0][0], v[3][0]);
    AxisTerms(p, v[1][0], v[4][0]);
    AxisTerms(p, v[2][0], v[5][0]);
  }

  lemma CovarianceTimes(p: Cov, v: Mat, d: nat)
    requires Shape(v, 6, 1) && d < 3
    ensures var pv := Mul(Covariance(p), v, 6, 6, 1);
      pv[d][0] == p.a * v[d][0] + p.b * v[d + 3][0] && pv[d + 3][0] == p.b * v[d][0] + p.c * v[d + 3][0]
  {
    var b := p.Block();
    LiftApply(b, v, 2, 2, 0, d, 2);
    LiftApply(b, v, 2, 2, 1, d, 2);
    hide Lift;
    Dot2(b, Axes(v, 2), 0, d);
    Dot2(b, Axes(v, 2), 1, d);
  }

  lemma AxisTerms(p: Cov, x: real, y: real)
    ensures AxisForm(p, x, y) == x * (p.a * x + p.b * y) + y * (p.b * x + p.c * y)
  {
  }

  predicate Square(w: real, s: real) {
    w == s * s
  }

  lemma SquareNotNegative(w: real, s: real)
    requires Square(w, s)
    ensures w >= 0.0
  {
  }

  lemma SquareNotZero(w: real, s: real)
    requires Square(w, s) && s != 0.0
    ensures w != 0.0
  {
    ProductNotZero(s, s, w);
  }

  /** a q = (a x + b y)^2 + (a c - b^2) y^2 */
  lemma AxisPositive(p: Cov, x: real, y: real)
    requires p.a > 0.0 && p.a * p.c - p.b * p.b > 0.0
    ensures AxisForm(p, x, y) >= 0.0
    ensures x != 0.0 || y != 0.0 ==> AxisForm(p, x, y) > 0.0
  {
    var q, s, d := AxisForm(p, x, y), p.a * x + p.b * y, p.a * p.c - p.b * p.b;
    var w, t := s * s, y * y;
    CompleteSquare(p, x, y);
    assert Square(w, s) && Square(t, y);
    hide AxisForm, Square;
    if y == 0.0 && x != 0.0 {
      ProductNotZero(p.a, x, s);
    }
    SumOfSquares(q, p.a, w, s, d, t, y);
  }

  lemma CompleteSquare(p: Cov, x: real, y: real)
    ensures var s := p.a * x + p.b * y;
      p.a * AxisForm(p, x, y) == s * s + (p.a * p.c - p.b * p.b) * (y * y)
  {
    var s := p.a * x + p.b * y;
    assert s * s == p.a * p.a * x * x + 2.0 * p.a * p.b * x * y + p.b * p.b * y * y;
    assert p.a * AxisForm(p, x, y) == p.a * p.a * x * x + 2.0 * p.a * p.b * x * y + p.a * p.c * y * y;
  }

  lemma ProductNotZero(a: real, x: real, w: real)
    requires w == a * x && a != 0.0 && x != 0.0
    ensures w != 0.0
  {
  }

  lemma SumOfSquares(q: real, a: real, w: real, s: real, d: real, t: real, y: real)
    requires a > 0.0 && d > 0.0 && Square(w, s) && Square(t, y) && a * q == w + d * t
    ensures q >= 0.0 && (s != 0.0 || y != 0.0 ==> q > 0.0)
  {
    hide Square;
    SquareNotNegative(w, s);
    SquareNotNegative(t, y);
    if s != 0.0 {
      SquareNotZero(w, s);
    }
    if y != 0.0 {
      SquareNotZero(t, y);
    }
    Signs(q, a, w, d, t);
  }

  lemma Signs(q: real, a: real, w: real, d: real, t: real)
    requires a > 0.0 && d > 0.0 && w >= 0.0 && t >= 0.0 && a * q == w + d * t
    ensures q >= 0.0 && (w > 0.0 || t > 0.0 ==> q > 0.0)
  {
    var u := d * t;
    assert u >= 0.0 && (t > 0.0 ==> u > 0.0);
    NotNegative(q, a);
    if w > 0.0 || t > 0.0 {
      PositiveFactor(q, a);
    }
  }

  lemma NotNegative(x: real, s: real)
    requires s > 0.0 && s * x >= 0.0
    ensures x >= 0.0
  {
  }

  /** The 6x6 covariance is positive definite if and only if the covariance of one axis is. */
  lemma PositiveDefiniteIff(p: Cov)
    ensures PositiveDefinite(Covariance(p)) <==> p.a > 0.0 && p.a * p.c - p.b * p.b > 0.0
  {
    hide PositiveDefinite, Covariance;
    if p.a > 0.0 && p.a * p.c - p.b * p.b > 0.0 {
      AxesGiveMatrix(p);
    }
    if PositiveDefinite(Covariance(p)) {
      MatrixGivesAxis(p);
    }
  }

  lemma AxesGiveMatrix(p: Cov)
    requires p.a > 0.0 && p.a * p.c - p.b * p.b > 0.0
    ensures PositiveDefinite(Covariance(p))
  {
    hide Quadratic, Covariance, AxisForm;
    forall v | Shape(v, 6, 1) && !Zero(v)
      ensures Quadratic(Covariance(p), v) > 0.0
    {
      QuadraticIs(p, v);
      AxisPositive(p, v[0][0], v[3][0]);
      AxisPositive(p, v[1][0], v[4][0]);
      AxisPositive(p, v[2][0], v[5][0]);
    }
  }

  /** The vectors (1, 0) and (-b, a) along one axis. */
  lemma MatrixGivesAxis(p: Cov)
    requires PositiveDefinite(Covariance(p))
    ensures p.a > 0.0 && p.a * p.c - p.b * p.b > 0.0
  {
    hide PositiveDefinite, Covariance;
    OneAxis(p, 1.0, 0.0);
    OneAxis(p, 0.0 - p.b, p.a);
    AxisDeterminant(p);
    hide AxisForm;
    PositiveFactor(p.a * p.c - p.b * p.b, p.a);
  }

  lemma AxisDeterminant(p: Cov)
    ensures AxisForm(p, 0.0 - p.b, p.a) == p.a * (p.a * p.c - p.b * p.b)
  {
    assert p.a * (0.0 - p.b) * (0.0 - p.b) == p.a * p.b * p.b;
    assert 2.0 * p.b * (0.0 - p.b) * p.a == 0.0 - 2.0 * (p.a * p.b * p.b);
    assert p.a * (p.a * p.c - p.b * p.b) == p.c * p.a * p.a - p.a * p.b * p.b;
  }

  /** A vector along one axis. */
  lemma OneAxis(p: Cov, x: real, y: real)
    requires PositiveDefinite(Covariance(p)) && (x != 0.0 || y != 0.0)
    ensures AxisForm(p, x, y) > 0.0
  {
    hide Quadratic, Covariance;
    var v := [[x], [0.0], [0.0], [y], [0.0], [0.0]];
    QuadraticIs(p, v);
    assert AxisForm(p, 0.0, 0.0) == 0.0;
    assert v[0][0] == x && v[3][0] == y && !Zero(v);
  }

  // ----- health of the covariance -----

  /** Prediction keeps the covariance positive definite and never narrows it. */
  lemma PredictHealthy(p: Cov, q: real, dt: real)
    requires p.Healthy() && q >= 0.0 && dt >= 0.0
    ensures var p' := PredictCov(p, q, dt);
      p'.Healthy() && p'.a >= p.a && p'.b >= p.b && p'.c >= p.c
  {
    var p', n := PredictCov(p, q, dt), q * dt;
    assert n >= 0.0 && p.b * dt >= 0.0 && p.c * dt >= 0.0 && p.c * dt * dt >= 0.0;
    Determinant(p, n, dt);
    assert n * p.c >= 0.0 && p'.a * n >= 0.0;
  }

  lemma Determinant(p: Cov, n: real, dt: real)
    ensures var a' := p.a + 2.0 * p.b * dt + p.c * dt * dt + n;
      a' * (p.c + n) - (p.b + p.c * dt) * (p.b + p.c * dt) == (p.a * p.c - p.b * p.b) + n * p.c + a' * n
  {
    var a' := p.a + 2.0 * p.b * dt + p.c * dt * dt + n;
    assert (p.a + 2.0 * p.b * dt + p.c * dt * dt) * p.c - (p.b + p.c * dt) * (p.b + p.c * dt) == p.a * p.c - p.b * p.b;
    assert a' * (p.c + n) == a' * p.c + a' * n;
    assert a' * p.c == (p.a + 2.0 * p.b * dt + p.c * dt * dt) * p.c + n * p.c;
  }

  /** An accepted measurement leaves a variance below both the prediction's and the sensor's. */
  lemma CorrectHealthy(p: Cov, r: real)
    requires p.Healthy() && r > 0.0
    ensures var p' := CorrectCov(p, r);
      && p'.Healthy() && p'.a < p.a && p'.a < r && p'.b <= p.b && p'.c <= p.c
      && p'.a * (p.a + r) == p.a * r
  {
    hide CorrectCov;
    var w, h := r / (p.a + r), p.b / (p.a + r);
    CorrectedBy(p, r, w, h);
    CorrectedHealthy(p, r, w, h, CorrectCov(p, r));
  }

  /** The correction in terms of the fractions r and b have of the innovation variance. */
  predicate Correction(p: Cov, r: real, w: real, h: real, p': Cov) {
    w * (p.a + r) == r && h * (p.a + r) == p.b && p' == Cov(p.a * w, p.b * w, p.c - h * p.b)
  }

  lemma CorrectedHealthy(p: Cov, r: real, w: real, h: real, p': Cov)
    requires p.Healthy() && r > 0.0 && Correction(p, r, w, h, p')
    ensures p'.Healthy() && p'.a < p.a && p'.a < r && p'.b <= p.b && p'.c <= p.c
    ensures p'.a * (p.a + r) == p.a * r
  {
    hide *;
    CorrectedDefinite(p, r, w, h, p');
    CorrectedNarrower(p, r, w, h, p');
    CorrectedProduct(p, r, w, h, p');
  }

  lemma CorrectedDefinite(p: Cov, r: real, w: real, h: real, p': Cov)
    requires p.Healthy() && r > 0.0 && Correction(p, r, w, h, p')
    ensures p'.Healthy()
  {
    ProperFraction(p.a, r, w);
    Bounds(p.a, p.b, r, w, h);
    hide Cov.Healthy;
    ScaledHealthy(p, r, w, h);
  }

  lemma CorrectedNarrower(p: Cov, r: real, w: real, h: real, p': Cov)
    requires p.Healthy() && r > 0.0 && Correction(p, r, w, h, p')
    ensures p'.a < p.a && p'.a < r && p'.b <= p.b && p'.c <= p.c
  {
    ProperFraction(p.a, r, w);
    Bounds(p.a, p.b, r, w, h);
  }

  lemma CorrectedProduct(p: Cov, r: real, w: real, h: real, p': Cov)
    requires p.Healthy() && r > 0.0 && Correction(p, r, w, h, p')
    ensures p'.a * (p.a + r) == p.a * r
  {
    ProperFraction(p.a, r, w);
  }

  lemma ProperFraction(a: real, r: real, w: real)
    requires a > 0.0 && r > 0.0 && w * (a + r) == r
    ensures 0.0 < w < 1.0 && a * w * (a + r) == a * r
  {
    var s := a + r;
    assert (1.0 - w) * s == a;
    PositiveFactor(w, s);
    PositiveFactor(1.0 - w, s);
    assert a * w * s == a * (w * s);
  }

  lemma ScaledHealthy(p: Cov, r: real, w: real, h: real)
    requires p.Healthy() && r > 0.0 && w > 0.0 && w * (p.a + r) == r && h * (p.a + r) == p.b
    requires p.a * w > 0.0 && p.b * w >= 0.0
    ensures Cov(p.a * w, p.b * w, p.c - h * p.b).Healthy()
  {
    CorrectedDeterminant(p, r, w, h);
    var det := p.a * p.c - p.b * p.b;
    assert w * det > 0.0;
    PositiveVelocityVariance(p.a * w, p.b * w, p.c - h * p.b);
  }

  lemma PositiveVelocityVariance(a: real, b: real, c: real)
    requires a > 0.0 && a * c - b * b > 0.0
    ensures c > 0.0
  {
    assert b * b >= 0.0;
  }

  lemma CorrectedBy(p: Cov, r: real, w: real, h: real)
    requires p.a + r != 0.0 && w == r / (p.a + r) && h == p.b / (p.a + r)
    ensures CorrectCov(p, r) == Cov(p.a * w, p.b * w, p.c - h * p.b)
  {
    var s := p.a + r;
    assert w * s == r && h * s == p.b;
    Quotient(p.a * w, s, p.a * r);
    Quotient(p.b * w, s, p.b * r);
    Quotient(h * p.b, s, p.b * p.b);
  }

  lemma Bounds(a: real, b: real, r: real, w: real, h: real)
    requires a > 0.0 && b >= 0.0 && r > 0.0 && 0.0 < w < 1.0 && w * (a + r) == r && h * (a + r) == b
    ensures 0.0 < a * w < a && a * w < r && 0.0 <= b * w <= b && h * b >= 0.0
  {
    assert a * w == w * a && w * a + w * r == r && w * r > 0.0;
    assert a * (1.0 - w) > 0.0 && b * (1.0 - w) >= 0.0;
    assert h >= 0.0 by {
      if b > 0.0 {
        PositiveFactor(h, a + r);
      }
    }
  }

  lemma CorrectedDeterminant(p: Cov, r: real, w: real, h: real)
    requires w * (p.a + r) == r && h * (p.a + r) == p.b
    ensures p.a * w * (p.c - h * p.b) - p.b * w * (p.b * w) == w * (p.a * p.c - p.b * p.b)
  {
    var s := p.a + r;
    calc {
      p.a * (p.c - h * p.b) - w * p.b * p.b;
      { assert w * p.b * p.b == w * p.b * (h * s) == (w * s) * (h * p.b); }
      p.a * p.c - p.a * (h * p.b) - r * (h * p.b);
      { assert p.a * (h * p.b) + r * (h * p.b) == s * (h * p.b) == h * s * p.b; }
      p.a * p.c - p.b * p.b;
    }
    assert p.a * w * (p.c - h * p.b) - p.b * w * (p.b * w) == w * (p.a * (p.c - h * p.b) - w * p.b * p.b);
  }

  lemma PositiveFactor(x: real, s: real)
    requires s > 0.0 && (x * s > 0.0 || s * x > 0.0)
    ensures x > 0.0
  {
  }

  // ----- runs -----

  datatype Outcome = Ignored | Initialized | Rejected | Reacquired | Accepted

  /**
    The filter without its mean; applied is the time predicted over since initialization at start.
    Not defined means that mean and covariance are NaN in the code, and cov is meaningless.
   */
  datatype Core = Core(ready: bool, defined: bool, cov: Cov, lastT: real, start: real, applied: real)

  const UNINITIALIZED := Core(false, true, INITIAL, 0.0, 0.0, 0.0)

  function StepLength(s: Core, t: real): real {
    Clamp(t - s.lastT, 0.0, MAX_STEP)
  }

  function Predicted(s: Core, q: real, t: real): Core {
    var dt := StepLength(s, t);
    s.(cov := PredictCov(s.cov, q, dt), lastT := Max(s.lastT, t), applied := s.applied + dt)
  }

  /** The Kalman correction; the inverse of a singular innovation covariance is NaN, and so is all it enters. */
  function Updated(p: Core, r: real): Core {
    if p.defined && p.cov.a + r != 0.0 then p.(cov := CorrectCov(p.cov, r)) else p.(defined := false)
  }

  /** One measurement with noise r at time t; a rejected one has been predicted for all the same. */
  function Step(s: Core, q: real, t: real, r: real, outcome: Outcome): Core {
    match outcome
    case Ignored => s
    case Initialized => Core(true, s.defined, s.cov, t, t, 0.0)
    case Rejected => Predicted(s, q, t)
    case Reacquired => Predicted(s, q, t).(defined := true, cov := INITIAL)
    case Accepted => Updated(Predicted(s, q, t), r)
  }

  predicate Possible(s: Core, outcome: Outcome) {
    outcome.Ignored? || (outcome.Initialized? <==> !s.ready)
  }

  datatype Measurement = Measurement(t: real, r: real, outcome: Outcome)

  function Run(q: real, ms: seq<Measurement>): Core {
    if ms == [] then UNINITIALIZED
    else
      var m := ms[|ms| - 1];
      Step(Run(q, ms[..|ms| - 1]), q, m.t, m.r, m.outcome)
  }

  predicate PossibleRun(q: real, ms: seq<Measurement>) {
    ms == [] ||
    (PossibleRun(q, ms[..|ms| - 1]) && Possible(Run(q, ms[..|ms| - 1]), ms[|ms| - 1].outcome))
  }

  predicate NoiseIs(r: real, ms: seq<Measurement>) {
    forall m :: m in ms ==> m.r == r
  }

  /** The covariance stays positive definite, and every innovation covariance is positive. */
  predicate AlwaysHealthy(q: real, ms: seq<Measurement>) {
    && Run(q, ms).defined && Run(q, ms).cov.Healthy()
    && (ms == [] ||
        var s, m := Run(q, ms[..|ms| - 1]), ms[|ms| - 1];
        && AlwaysHealthy(q, ms[..|ms| - 1])
        && (m.outcome.Rejected? || m.outcome.Reacquired? || m.outcome.Accepted? ==>
              Predicted(s, q, m.t).cov.a + m.r > 0.0))
  }

  lemma StepHealthy(s: Core, q: real, t: real, r: real, outcome: Outcome)
    requires s.defined && s.cov.Healthy() && q >= 0.0 && r > 0.0
    ensures Step(s, q, t, r, outcome).defined && Step(s, q, t, r, outcome).cov.Healthy()
    ensures Predicted(s, q, t).cov.Healthy() && Predicted(s, q, t).cov.a + r > 0.0
    ensures outcome.Accepted? ==>
      Step(s, q, t, r, outcome).cov.a < r && Step(s, q, t, r, outcome).cov.a < Predicted(s, q, t).cov.a
    ensures outcome.Rejected? ==>
      var p := Step(s, q, t, r, outcome).cov; p.a >= s.cov.a && p.b >= s.cov.b && p.c >= s.cov.c
  {
    var p := Predicted(s, q, t).cov;
    PredictHealthy(s.cov, q, StepLength(s, t));
    CorrectHealthy(p, r);
  }

  /** The 6x6 covariance is free of NaN and positive definite throughout a run. */
  ghost predicate AlwaysDefinite(q: real, ms: seq<Measurement>) {
    && Run(q, ms).defined && PositiveDefinite(Covariance(Run(q, ms).cov))
    && (ms == [] || AlwaysDefinite(q, ms[..|ms| - 1]))
  }

  lemma {:induction false} HealthyIsDefinite(q: real, ms: seq<Measurement>)
    requires AlwaysHealthy(q, ms)
    ensures AlwaysDefinite(q, ms)
  {
    hide *;
    HealthyAtEnd(q, ms);
    if ms != [] {
      HealthyIsDefinite(q, ms[..|ms| - 1]);
    }
    DefiniteAtEnd(q, ms);
  }

  lemma HealthyAtEnd(q: real, ms: seq<Measurement>)
    requires AlwaysHealthy(q, ms)
    ensures Run(q, ms).defined && PositiveDefinite(Covariance(Run(q, ms).cov))
    ensures ms == [] || AlwaysHealthy(q, ms[..|ms| - 1])
  {
    hide PositiveDefinite, Covariance, Run;
    PositiveDefiniteIff(Run(q, ms).cov);
  }

  lemma DefiniteAtEnd(q: real, ms: seq<Measurement>)
    requires Run(q, ms).defined && PositiveDefinite(Covariance(Run(q, ms).cov))
    requires ms == [] || AlwaysDefinite(q, ms[..|ms| - 1])
    ensures AlwaysDefinite(q, ms)
  {
    hide PositiveDefinite, Covariance, Run;
  }

  /** On every run the 6x6 covariance stays positive definite and every innovation covariance positive. */
  lemma {:induction false} HealthyOverRuns(q: real, ms: seq<Measurement>)
    requires q >= 0.0 && forall m :: m in ms ==> m.r > 0.0
    ensures AlwaysHealthy(q, ms) && AlwaysDefinite(q, ms)
  {
    HealthyRun(q, ms);
    HealthyIsDefinite(q, ms);
  }

  lemma {:induction false} HealthyRun(q: real, ms: seq<Measurement>)
    requires q >= 0.0 && forall m :: m in ms ==> m.r > 0.0
    ensures AlwaysHealthy(q, ms)
  {
    if ms != [] {
      var n := |ms| - 1;
      HealthyRun(q, ms[..n]);
      StepHealthy(Run(q, ms[..n]), q, ms[n].t, ms[n].r, ms[n].outcome);
    }
  }

  /** An initialization followed by n rejections half a second apart. */
  function Rejections(n: nat, r: real): seq<Measurement> {
    if n == 0 then [Measurement(0.0, r, Initialized)]
    else Rejections(n - 1, r) + [Measurement(0.5 * n as real, r, Rejected)]
  }

  lemma {:induction false} RejectionsGrow(q: real, n: nat, r: real)
    ensures Rejections(n, r) != [] && PossibleRun(q, Rejections(n, r))
    ensures NoiseIs(r, Rejections(n, r))
    ensures var s := Run(q, Rejections(n, r));
      && s.ready && s.defined && s.lastT == 0.5 * n as real && s.cov.c == 0.5 + q * (0.5 * n as real)
      && (n == 0 ==> s.cov == INITIAL)
  {
    var ms := Rejections(n, r);
    assert ms[..|ms| - 1] == if n == 0 then [] else Rejections(n - 1, r);
    if n > 0 {
      RejectionsGrow(q, n - 1, r);
      assert StepLength(Run(q, Rejections(n - 1, r)), 0.5 * n as real) == 0.5;
    }
  }

  /** Without negative process noise the variance gains at least an eighth per rejection. */
  lemma {:induction false} VarianceGrows(q: real, n: nat, r: real)
    requires q >= 0.0
    ensures var p := Run(q, Rejections(n, r)).cov; p.a >= 0.5 + 0.125 * n as real && p.b >= 0.0
  {
    var ms := Rejections(n, r);
    assert ms[..|ms| - 1] == if n == 0 then [] else Rejections(n - 1, r);
    if n > 0 {
      VarianceGrows(q, n - 1, r);
      RejectionsGrow(q, n - 1, r);
      var s := Run(q, Rejections(n - 1, r));
      assert Run(q, ms) == Step(s, q, 0.5 * n as real, r, Rejected);
      assert q * (0.5 * (n - 1) as real) >= 0.0;
      HalfSecond(s, q, 0.5 * n as real);
    }
  }

  lemma HalfSecond(s: Core, q: real, t: real)
    requires q >= 0.0 && t == s.lastT + 0.5 && s.cov.b >= 0.0 && s.cov.c >= 0.5
    ensures var p := Predicted(s, q, t).cov; p.a >= s.cov.a + 0.125 && p.b >= 0.0
  {
    assert StepLength(s, t) == 0.5;
  }

  /**
    The noise settings that keep the 6x6 covariance positive definite on every possible run are
    exactly a process noise that is not negative and a measurement noise that is positive.  The
    code checks neither.
   */
  lemma NoiseCondition(q: real, r: real)
    ensures (forall ms :: PossibleRun(q, ms) && NoiseIs(r, ms) ==> AlwaysDefinite(q, ms)) <==> q >= 0.0 && r > 0.0
  {
    hide AlwaysDefinite, PossibleRun;
    if q >= 0.0 && r > 0.0 {
      forall ms | PossibleRun(q, ms) && NoiseIs(r, ms)
        ensures AlwaysDefinite(q, ms)
      {
        HealthyOverRuns(q, ms);
      }
    } else {
      var ms;
      if q < 0.0 {
        ms := NegativeProcessNoise(q, r);
      } else {
        ms := NoMeasurementNoise(q, r);
      }
    }
  }

  /** Where either variance is not positive, the matrix is not positive definite. */
  lemma NotDefinite(q: real, ms: seq<Measurement>)
    requires Run(q, ms).cov.a <= 0.0 || Run(q, ms).cov.c <= 0.0
    ensures !AlwaysDefinite(q, ms)
  {
    hide PositiveDefinite, Covariance, Run;
    var p := Run(q, ms).cov;
    PositiveDefiniteIff(p);
    if p.a > 0.0 {
      assert p.a * p.c <= 0.0 && p.b * p.b >= 0.0;
    }
  }

  lemma NegativeProcessNoise(q: real, r: real) returns (ms: seq<Measurement>)
    requires q < 0.0
    ensures PossibleRun(q, ms) && NoiseIs(r, ms) && !AlwaysDefinite(q, ms)
  {
    hide Run, Rejections, PossibleRun, Step;
    var n := ManySteps(0.0 - q);
    ms := Rejections(n, r);
    RejectionsGrow(q, n, r);
    HalfSteps(q, n as real);
    NotDefinite(q, ms);
  }

  lemma HalfSteps(q: real, n: real)
    requires n * (0.0 - q) >= 1.0
    ensures 0.5 + q * (0.5 * n) <= 0.0
  {
    assert q * (0.5 * n) == 0.0 - 0.5 * (n * (0.0 - q));
  }

  lemma ManySteps(k: real) returns (n: nat)
    requires k > 0.0
    ensures n as real * k >= 1.0
  {
    var u := 1.0 / k;
    assert u * k == 1.0;
    PositiveFactor(u, k);
    n := u.Floor + 1;
    assert (n as real - u) * k >= 0.0;
  }

  /** Without measurement noise: wait until the variance outgrows it, then accept. */
  lemma NoMeasurementNoise(q: real, r: real) returns (ms: seq<Measurement>)
    requires q >= 0.0 && r <= 0.0
    ensures PossibleRun(q, ms) && NoiseIs(r, ms) && !AlwaysDefinite(q, ms)
  {
    hide Run, Rejections, PossibleRun, AlwaysDefinite, Step;
    var n := (8.0 * (0.0 - r)).Floor;
    var wait := Rejections(n, r);
    RejectionsGrow(q, n, r);
    VarianceGrows(q, n, r);
    var s, m := Run(q, wait), Measurement(0.5 * n as real, r, Accepted);
    ms := wait + [m];
    AppendRun(q, wait, m);
    AcceptedTooSoon(s, q, m.t, r);
    NotDefinite(q, ms);
  }

  lemma AcceptedTooSoon(s: Core, q: real, t: real, r: real)
    requires s.defined && t == s.lastT && s.cov.a > 0.0 && s.cov.a + r > 0.0 && r <= 0.0
    ensures Step(s, q, t, r, Accepted).cov.a <= 0.0
  {
    assert StepLength(s, t) == 0.0;
    assert Predicted(s, q, t).cov == s.cov;
    var a, v := s.cov.a, s.cov.a + r;
    assert a * r <= 0.0;
    var x := a * r / v;
    assert x * v == a * r;
    NotPositive(x, v);
  }

  /**
    Without measurement noise two accepted measurements with the time stamp of the first one are
    enough to make mean and covariance NaN, whatever the process noise.
   */
  lemma ZeroNoiseBreaks(q: real, ms: seq<Measurement>)
    requires ms == [Measurement(0.0, 0.0, Initialized), Measurement(0.0, 0.0, Accepted), Measurement(0.0, 0.0, Accepted)]
    ensures PossibleRun(q, ms) && !Run(q, ms).defined
  {
    assert ms[..2][..1] == [ms[0]] && ms[..1][..0] == [];
    assert PossibleRun(q, ms[..1]) && Run(q, ms[..1]) == Core(true, true, INITIAL, 0.0, 0.0, 0.0);
    assert PossibleRun(q, ms[..2]) && Run(q, ms[..2]).ready && Run(q, ms[..2]).cov.a == 0.0;
  }

  /** Only a reacquisition brings the filter back from NaN. */
  lemma {:induction false} NotANumberStays(q: real, before: seq<Measurement>, ms: seq<Measurement>)
    requires PossibleRun(q, before) && PossibleRun(q, before + ms) && !Run(q, before).defined
    requires forall m :: m in ms ==> !m.outcome.Reacquired?
    ensures !Run(q, before + ms).defined
  {
    if ms == [] {
      assert before + ms == before;
    } else {
      var n := |ms| - 1;
      assert (before + ms)[..|before| + n] == before + ms[..n];
      NotANumberStays(q, before, ms[..n]);
    }
  }

  lemma AppendRun(q: real, ms: seq<Measurement>, m: Measurement)
    ensures Run(q, ms + [m]) == Step(Run(q, ms), q, m.t, m.r, m.outcome)
    ensures PossibleRun(q, ms) && Possible(Run(q, ms), m.outcome) ==> PossibleRun(q, ms + [m])
  {
    assert (ms + [m])[..|ms|] == ms;
  }

  /** The dt of every prediction of the run fits below the clamp. */
  predicate NoLongGap(q: real, ms: seq<Measurement>) {
    ms == [] ||
    var s, m := Run(q, ms[..|ms| - 1]), ms[|ms| - 1];
    && NoLongGap(q, ms[..|ms| - 1])
    && (m.outcome.Rejected? || m.outcome.Reacquired? || m.outcome.Accepted? ==> m.t - s.lastT <= MAX_STEP)
  }

  /**
    The filter clock never runs backwards, whatever order measurements arrive in, and the time
    predicted over is the time elapsed exactly if no forward gap exceeds the clamp.
   */
  lemma {:induction false} FilterClock(q: real, ms: seq<Measurement>)
    requires PossibleRun(q, ms)
    ensures var s := Run(q, ms);
      && s.applied <= s.lastT - s.start
      && (s.applied == s.lastT - s.start <==> NoLongGap(q, ms))
      && (!s.ready ==> s == UNINITIALIZED)
    ensures ms != [] && Run(q, ms[..|ms| - 1]).ready ==> Run(q, ms[..|ms| - 1]).lastT <= Run(q, ms).lastT
  {
    if ms != [] {
      var n := |ms| - 1;
      FilterClock(q, ms[..n]);
      if !Run(q, ms[..n]).ready {
        NotReadyNoGap(q, ms[..n]);
      }
    }
  }

  lemma {:induction false} NotReadyNoGap(q: real, ms: seq<Measurement>)
    requires PossibleRun(q, ms) && !Run(q, ms).ready
    ensures NoLongGap(q, ms)
  {
    if ms != [] {
      NotReadyNoGap(q, ms[..|ms| - 1]);
    }
  }

  /**
    A rejected measurement is not neutral: predicting in two steps instead of one widens the
    position variance, unless a step is empty or there is no process noise.
   */
  lemma RejectionWidens(p: Cov, q: real, d: real, e: real)
    requires q >= 0.0 && d >= 0.0 && e >= 0.0
    ensures var two, one := PredictCov(PredictCov(p, q, d), q, e), PredictCov(p, q, d + e);
      && two.a - one.a == q * d * e * e && two.b - one.b == q * d * e && two.c == one.c
      && (two == one <==> q == 0.0 || d == 0.0 || e == 0.0)
  {
    SplitVariance(p, q, d, e);
    SplitCovariance(p, q, d, e);
    hide PredictCov;
    if q > 0.0 && d > 0.0 && e > 0.0 {
      assert q * d > 0.0 && q * d * e > 0.0;
    }
  }

  lemma SplitVariance(p: Cov, q: real, d: real, e: real)
    ensures PredictCov(PredictCov(p, q, d), q, e).a - PredictCov(p, q, d + e).a == q * d * e * e
  {
    SplitTerms(p.a, p.b, p.c, q, q * d, d, e);
  }

  lemma SplitCovariance(p: Cov, q: real, d: real, e: real)
    ensures PredictCov(PredictCov(p, q, d), q, e).b - PredictCov(p, q, d + e).b == q * d * e
    ensures PredictCov(PredictCov(p, q, d), q, e).c == PredictCov(p, q, d + e).c
  {
    hide PredictCov;
    var p1 := PredictCov(p, q, d);
    PredictTerms(p, q, d);
    PredictTerms(p1, q, e);
    PredictTerms(p, q, d + e);
    CrossTerms(p.b, p.c, q, q * d, d, e, p1.b, p1.c);
  }

  lemma PredictTerms(p: Cov, q: real, t: real)
    ensures PredictCov(p, q, t).b == p.b + p.c * t && PredictCov(p, q, t).c == p.c + q * t
  {
  }

  lemma CrossTerms(b: real, c: real, q: real, n: real, d: real, e: real, b1: real, c1: real)
    requires n == q * d && b1 == b + c * d && c1 == c + n
    ensures b1 + c1 * e == b + c * (d + e) + n * e && c1 + q * e == c + q * (d + e)
  {
    assert c * (d + e) == c * d + c * e && (c + n) * e == c * e + n * e;
    assert q * (d + e) == q * d + q * e;
  }

  lemma SplitTerms(a: real, b: real, c: real, q: real, n: real, d: real, e: real)
    requires n == q * d
    ensures (a + 2.0 * b * d + c * d * d + q * d) + 2.0 * (b + c * d) * e + (c + n) * e * e + q * e
         == a + 2.0 * b * (d + e) + c * (d + e) * (d + e) + q * (d + e) + n * e * e
  {
    Squared(c, n, d, e);
    Doubled(b, c, d, e);
    assert q * (d + e) == n + q * e;
  }

  lemma Squared(c: real, n: real, d: real, e: real)
    ensures (c + n) * e * e == c * e * e + n * e * e
    ensures c * (d + e) * (d + e) == c * d * d + 2.0 * c * d * e + c * e * e
  {
  }

  lemma Doubled(b: real, c: real, d: real, e: real)
    ensures 2.0 * (b + c * d) * e == 2.0 * b * e + 2.0 * c * d * e
    ensures 2.0 * b * (d + e) == 2.0 * b * d + 2.0 * b * e
  {
  }

  lemma NotPositive(x: real, s: real)
    requires s > 0.0 && x * s <= 0.0
    ensures x <= 0.0
  {
  }

  // ----- the node -----

  datatype Decision = Pass | Reject | Reacquire

  /**
    What the code decides outside the filter: whether the message is finite and can be rotated
    into the tracking frame, whether the enforced first-arrival gate lets it through, and what the
    bearing gate says (Pass as well when it is disabled or the source is not acoustic).
   */
  datatype Env = Env(usable: bool, firstArrival: bool, bearing: Decision)

  /** Eigen's normalized() and norm() on three components. */
  ghost predicate Units(unit: Mat -> Mat) {
    forall v :: Shape(v, 3, 1) ==> Shape(unit(v), 3, 1)
  }

  function Sum(vs: seq<Mat>): (m: Mat)
    requires forall v :: v in vs ==> Shape(v, 3, 1)
    ensures Shape(m, 3, 1)
  {
    if vs == [] then [[0.0], [0.0], [0.0]] else Plus(Sum(vs[..|vs| - 1]), vs[|vs| - 1], 3, 1)
  }

  /** The direction that is published for the last estimates. */
  function Averaged(unit: Mat -> Mat, norm: Mat -> real, vs: seq<Mat>): Mat
    requires vs != [] && forall v :: v in vs ==> Shape(v, 3, 1)
  {
    if norm(Sum(vs)) < 0.000001 then vs[|vs| - 1] else unit(Sum(vs))
  }

  class DirectionEkf {
    const q: real
    const gate: real
    const averageWindow: nat
    const unit: Mat -> Mat
    const norm: Mat -> real
    var x: Mat
    var P: Mat
    var lastT: real
    var ready: bool
    /** Whether x and P are numbers; otherwise they, and what is published of them, stand for NaN. */
    var defined: bool
    var history: seq<Mat>
    ghost var cov: Cov
    ghost var start: real
    ghost var applied: real
    /** The estimates published since initialization or the last reacquisition. */
    ghost var published: seq<Mat>

    ghost function State(): Core
      reads this
    {
      Core(ready, defined, cov, lastT, start, applied)
    }

    ghost predicate Valid()
      reads this
    {
      && Units(unit) && 1 <= averageWindow <= 100
      && Shape(x, 6, 1) && P == Covariance(cov)
      && (forall v :: v in published ==> Shape(v, 3, 1))
      && history == Last(published, averageWindow)
    }

    constructor (q: real, gate: real, averageWindow: nat, unit: Mat -> Mat, norm: Mat -> real)
      requires 1 <= averageWindow <= 100 && Units(unit)
      ensures Valid() && State() == UNINITIALIZED && published == []
      ensures this.q == q && this.gate == gate && this.averageWindow == averageWindow
      ensures this.unit == unit && this.norm == norm
      ensures forall i :: 0 <= i < 6 ==> x[i][0] == 0.0
    {
      this.q, this.gate, this.averageWindow, this.unit, this.norm := q, gate, averageWindow, unit, norm;
      x := seq(6, _ => [0.0]);
      P := Times(0.5, Identity(6), 6, 6);
      lastT, ready, defined, history := 0.0, false, true, [];
      cov, start, applied, published := INITIAL, 0.0, 0.0, [];
      new;
      InitialCovariance();
    }

    method Predict(t: real)
      requires Valid() && ready
      modifies this`x, this`P, this`lastT, this`cov, this`applied
      ensures Valid() && State() == Predicted(old(State()), q, t)
      ensures x == PredictX(old(x), StepLength(old(State()), t))
    {
      var dt := Clamp(t - lastT, 0.0, MAX_STEP);
      PredictRefines(cov, q, dt);
      x := PredictX(x, dt);
      P := PredictP(P, q, dt);
      lastT := Max(lastT, t);
      cov, applied := PredictCov(cov, q, dt), applied + dt;
    }

    /** Publishes the average of the last averageWindow estimates. */
    method Publish() returns (out: Mat)
      requires Valid()
      modifies this`history, this`published
      ensures Valid() && published == old(published) + [unit(x[..3])]
      ensures out == Averaged(unit, norm, Last(published, averageWindow))
    {
      LastSnoc(published, averageWindow, unit(x[..3]));
      published := published + [unit(x[..3])];
      history := history + [unit(x[..3])];
      if |history| > averageWindow {
        history := history[1..];
      }
      var sum := [[0.0], [0.0], [0.0]];
      for i := 0 to |history|
        invariant sum == Sum(history[..i])
      {
        assert history[..i + 1][..i] == history[..i];
        sum := Plus(sum, history[i], 3, 1);
      }
      assert history[..|history|] == history;
      out := if norm(sum) < 0.000001 then unit(x[..3]) else unit(sum);
    }

    /** Starts over at z: the reacquisition branch. */
    method StartOver(z: Mat, t: real)
      requires Valid() && Shape(z, 3, 1) && ready
      modifies this`x, this`P, this`defined, this`lastT, this`cov, this`history, this`published
      ensures Valid() && State() == old(State()).(defined := true, cov := INITIAL, lastT := Max(old(lastT), t))
      ensures x == z + [[0.0], [0.0], [0.0]] && published == []
    {
      x := z + [[0.0], [0.0], [0.0]];
      P := Times(0.5, Identity(6), 6, 6);
      InitialCovariance();
      defined := true;
      lastT := Max(lastT, t);
      history := [];
      cov, published := INITIAL, [];
    }

    /** The Kalman correction, unless the innovation is too unlikely; a NaN is not. */
    method Correct(z: Mat, r: real) returns (accepted: bool)
      requires Valid() && Shape(z, 3, 1)
      modifies this`x, this`P, this`defined, this`cov
      ensures Valid() && accepted == !Exceeds(InnovationNis(z, old(x), old(State()), r), gate)
      ensures State() == if accepted then Updated(old(State()), r) else old(State())
      ensures defined ==> x == if accepted then Corrected(unit, old(x), old(cov), r, z) else old(x)
    {
      hide CorrectCov, Gain, CorrectP, CorrectX, Nis, InnovationCovariance, Innovation, Covariance, Det3, SquaredLength,
        PositiveDefinite, Last;
      SingularIff(cov, r);
      var innovation, S := Innovation(z, x), InnovationCovariance(P, r);
      if !defined || Det3(S) == 0.0 {
        defined := false;
        return true;
      }
      NisIs(innovation, cov, r);
      if Nis(innovation, S) > gate {
        return false;
      }
      CorrectRefines(cov, r);
      var K := Gain(P, r);
      x := CorrectX(x, K, innovation);
      P := CorrectP(P, K);
      cov := CorrectCov(cov, r);
      x := unit(x[..3]) + x[3..];
      return true;
    }

    /** One measurement z, a unit vector, with noise r at time t. */
    method Update(z: Mat, t: real, r: real, env: Env) returns (outcome: Outcome, out: Mat)
      requires Valid() && Shape(z, 3, 1)
      modifies this
      ensures Valid() && State() == Step(old(State()), q, t, r, outcome) && Possible(old(State()), outcome)
      ensures outcome == Expected(env, old(ready), gate, ExpectedNis(z, old(x), old(State()), q, t, r))
      ensures defined ==> x == MeanAfter(unit, old(x), old(State()), q, t, r, z, outcome)
      ensures published == match outcome
        case Ignored => old(published)
        case Rejected => old(published)
        case Reacquired => [unit(x[..3])]
        case _ => old(published) + [unit(x[..3])]
      ensures outcome.Initialized? || outcome.Reacquired? || outcome.Accepted? ==>
        published != [] && out == Averaged(unit, norm, Last(published, averageWindow))
    {
      hide PredictX, Covariance, CorrectCov, Corrected, Innovation, SquaredLength, Averaged, PredictCov;
      out := [];
      if !env.usable || !env.firstArrival {
        return Ignored, out;
      }
      if !ready {
        x := z + x[3..];
        lastT := t;
        ready := true;
        start, applied := t, 0.0;
        out := Publish();
        return Initialized, out;
      }
      Predict(t);
      if env.bearing == Reject {
        return Rejected, out;
      }
      if env.bearing == Reacquire {
        StartOver(z, t);
        out := Publish();
        return Reacquired, out;
      }
      var accepted := Correct(z, r);
      if !accepted {
        return Rejected, out;
      }
      out := Publish();
      return Accepted, out;
    }
  }

  /** The squared innovation over its variance; None is NaN. */
  function InnovationNis(z: Mat, x: Mat, s: Core, r: real): Option<real>
    requires Shape(z, 3, 1) && Shape(x, 6, 1)
  {
    if !s.defined || s.cov.a + r == 0.0 then None
    else Some(SquaredLength(Innovation(z, x)) / (s.cov.a + r))
  }

  /** The NIS after the prediction to time t. */
  function ExpectedNis(z: Mat, x: Mat, s: Core, q: real, t: real, r: real): Option<real>
    requires Shape(z, 3, 1) && Shape(x, 6, 1)
  {
    InnovationNis(z, PredictX(x, StepLength(s, t)), Predicted(s, q, t), r)
  }

  /** No comparison with NaN holds. */
  predicate Exceeds(nis: Option<real>, gate: real) {
    nis.Some? && nis.value > gate
  }

  /** What becomes of a measurement with the given NIS. */
  function Expected(env: Env, ready: bool, gate: real, nis: Option<real>): Outcome {
    if !env.usable || !env.firstArrival then Ignored
    else if !ready then Initialized
    else if env.bearing == Reject then Rejected
    else if env.bearing == Reacquire then Reacquired
    else if Exceeds(nis, gate) then Rejected
    else Accepted
  }

  /** The mean after the correction, its position normalized. */
  function Corrected(unit: Mat -> Mat, x: Mat, p: Cov, r: real, z: Mat): (x': Mat)
    requires Shape(x, 6, 1) && Shape(z, 3, 1) && Units(unit)
    ensures Shape(x', 6, 1)
  {
    if p.a + r == 0.0 then x
    else
      CorrectRefines(p, r);
      var y := CorrectX(x, Gain(Covariance(p), r), Innovation(z, x));
      unit(y[..3]) + y[3..]
  }

  /** The mean after a measurement that leaves it defined. */
  function MeanAfter(unit: Mat -> Mat, x: Mat, s: Core, q: real, t: real, r: real, z: Mat, outcome: Outcome): (x': Mat)
    requires Shape(x, 6, 1) && Shape(z, 3, 1) && Units(unit)
    ensures Shape(x', 6, 1)
  {
    var xp := PredictX(x, StepLength(s, t));
    match outcome
    case Ignored => x
    case Initialized => z + x[3..]
    case Rejected => xp
    case Reacquired => z + [[0.0], [0.0], [0.0]]
    case Accepted => Corrected(unit, xp, Predicted(s, q, t).cov, r, z)
  }

  /** A measurement of the position itself, at the time of the last one, has no innovation. */
  lemma NothingNew(z: Mat, x: Mat, s: Core, q: real, r: real)
    requires Shape(z, 3, 1) && Shape(x, 6, 1) && (forall d :: 0 <= d < 3 ==> x[d][0] == z[d][0])
    requires s.defined && s.cov.a + r > 0.0
    ensures ExpectedNis(z, x, s, q, s.lastT, r) == Some(0.0)
  {
    assert StepLength(s, s.lastT) == 0.0 && Predicted(s, q, s.lastT).cov == s.cov;
    var x' := PredictX(x, 0.0);
    forall d: nat | d < 3
      ensures Innovation(z, x')[d][0] == 0.0
    {
      PredictXIs(x, 0.0, d);
      InnovationIs(z, x', d);
    }
    NisOfNothing(Innovation(z, x'), s.cov.a + r);
    hide PredictX, Innovation, SquaredLength;
    assert ExpectedNis(z, x, s, q, s.lastT, r) == InnovationNis(z, x', Predicted(s, q, s.lastT), r);
  }

  lemma NisOfNothing(y: Mat, v: real)
    requires Shape(y, 3, 1) && (forall d :: 0 <= d < 3 ==> y[d][0] == 0.0) && v > 0.0
    ensures SquaredLength(y) / v == 0.0
  {
    assert SquaredLength(y) == 0.0;
  }

  /**
    Without measurement noise, any new node that gets one direction three times with one time stamp
    has a mean and a covariance of NaN, unless a bearing gate or the first-arrival gate intervenes.
   */
  method ZeroNoiseNode(q: real, gate: real, averageWindow: nat, unit: Mat -> Mat, norm: Mat -> real, z: Mat, t: real)
    returns (node: DirectionEkf, outcomes: seq<Outcome>)
    requires 1 <= averageWindow <= 100 && Units(unit) && Shape(z, 3, 1) && gate >= 0.0
    ensures outcomes == [Initialized, Accepted, Accepted] && !node.defined
  {
    hide PredictX, Covariance, CorrectCov, Corrected, Innovation, SquaredLength, Averaged, PredictCov, ExpectedNis;
    var env := Env(true, true, Pass);
    node := new DirectionEkf(q, gate, averageWindow, unit, norm);
    var first, second, third, out;
    first, out := node.Update(z, t, 0.0, env);
    NothingNew(z, node.x, node.State(), q, 0.0);
    SecondHasNoVariance(node.State(), q, t);
    second, out := node.Update(z, t, 0.0, env);
    ThirdIsNaN(z, node.x, node.State(), q, t);
    third, out := node.Update(z, t, 0.0, env);
    outcomes := [first, second, third];
  }

  lemma SecondHasNoVariance(s: Core, q: real, t: real)
    requires s == Core(true, true, INITIAL, t, t, 0.0)
    ensures var s' := Step(s, q, t, 0.0, Accepted); s'.ready && s'.defined && s'.cov.a == 0.0 && s'.lastT == t
  {
    assert StepLength(s, t) == 0.0;
    assert Predicted(s, q, t).cov == INITIAL;
  }

  lemma ThirdIsNaN(z: Mat, x: Mat, s: Core, q: real, t: real)
    requires Shape(z, 3, 1) && Shape(x, 6, 1) && s.cov.a == 0.0 && s.lastT == t
    ensures ExpectedNis(z, x, s, q, t, 0.0) == None && !Step(s, q, t, 0.0, Accepted).defined
  {
    assert StepLength(s, t) == 0.0;
    assert Predicted(s, q, t).cov.a == 0.0;
  }

  /**
    A correction pulls every position component towards the measurement by a factor strictly
    between 0 and 1 before the position is normalized again, and adds to the velocity in proportion.
   */
  lemma CorrectedMean(unit: Mat -> Mat, x: Mat, p: Cov, r: real, z: Mat, d: nat) returns (y: Mat)
    requires Shape(x, 6, 1) && Shape(z, 3, 1) && Units(unit) && p.Healthy() && r > 0.0 && d < 3
    ensures var g := p.a / (p.a + r);
      && 0.0 < g < 1.0
      && Shape(y, 3, 1) && Corrected(unit, x, p, r, z)[..3] == unit(y)
      && y[d][0] == x[d][0] + g * (z[d][0] - x[d][0])
      && Corrected(unit, x, p, r, z)[d + 3][0] == x[d + 3][0] + p.b / (p.a + r) * (z[d][0] - x[d][0])
  {
    GainBetween(p.a, r);
    CorrectRefines(p, r);
    InnovationIs(z, x, d);
    CorrectXIs(x, p, r, Innovation(z, x), d);
    var m := CorrectX(x, Gain(Covariance(p), r), Innovation(z, x));
    y := m[..3];
    assert Corrected(unit, x, p, r, z)[d + 3] == m[3..][d];
  }

  lemma GainBetween(a: real, r: real)
    requires a > 0.0 && r > 0.0
    ensures 0.0 < a / (a + r) < 1.0
  {
    var w := a / (a + r);
    assert w * (a + r) == a && (1.0 - w) * (a + r) == r;
    PositiveFactor(w, a + r);
    PositiveFactor(1.0 - w, a + r);
  }

  lemma InitialCovariance()
    ensures Times(0.5, Identity(6), 6, 6) == Covariance(INITIAL)
  {
    LiftIdentity(2);
    LiftTimes(0.5, Identity(2), 2, 2);
    Extensional(Times(0.5, Identity(2), 2, 2), INITIAL.Block(), 2, 2);
  }
}