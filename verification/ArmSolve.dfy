/**
  Aiming one arm: joints 1 and 4 turn the microphone, the other joints keep a fixed pose.

  The geometry (rotations, angles, the wrapped difference of angles) is a parameter; lengths and
  angles are reals.
 */
module ArmSolve {
  import opened Prelude

  const PI := 3.141592653589793
  const HALF_PI := 1.5707963267948966
  const YAW_LIMIT := 3.0543
  const TABLE_STEP := 0.02
  const REFINE_MARGIN := 0.025
  const ROUNDS := 16

  /** The six joint angles of an arm. */
  datatype Joints = Joints(j1: real, j2: real, j3: real, j4: real, j5: real, j6: real)

  /**
    normal is the direction the microphone faces, yaw the atan2 of a direction's horizontal part,
    rotate a turn about the vertical axis, angle the angle between two directions, and wrap
    std::remainder(x, 2 * pi).
   */
  datatype Geometry = Geometry(
    normal: Joints -> Vec, yaw: Vec -> real, rotate: (real, Vec) -> Vec,
    angle: (Vec, Vec) -> real, wrap: real -> real, penalty: real)

  datatype WristSample = WristSample(q4: real, normal: Vec)

  datatype Candidate = Candidate(cost: real, joints: Joints)

  /** The fixed pose with joints 1 and 4 replaced. */
  function Posed(fixed: Joints, q1: real, q4: real): (q: Joints)
    ensures q.j1 == q1 && q.j4 == q4 && SamePose(q, fixed)
  {
    fixed.(j1 := q1, j4 := q4)
  }

  /** Joints 2, 3, 5 and 6 agree. */
  predicate SamePose(a: Joints, b: Joints) {
    a.j2 == b.j2 && a.j3 == b.j3 && a.j5 == b.j5 && a.j6 == b.j6
  }

  /** The best yaw for a given joint 4, and what it costs. */
  function Evaluate(g: Geometry, current: Joints, desired: Vec, fixed: Joints, q4: real): (c: Candidate)
    ensures -YAW_LIMIT <= c.joints.j1 <= YAW_LIMIT && c.joints.j4 == q4 && SamePose(c.joints, fixed)
  {
    var baseNormal := g.normal(Posed(fixed, 0.0, q4));
    var rawQ1 := g.yaw(desired) - g.yaw(baseNormal);
    var q1 := Clamp(current.j1 + g.wrap(rawQ1 - current.j1), -YAW_LIMIT, YAW_LIMIT);
    var error := g.angle(g.rotate(q1, baseNormal), desired);
    var d1, d4 := q1 - current.j1, q4 - current.j4;
    Candidate(error * error + g.penalty * (d1 * d1 + d4 * d4), Posed(fixed, q1, q4))
  }

  function Cost(g: Geometry, current: Joints, desired: Vec, fixed: Joints): real -> real {
    q4 => Evaluate(g, current, desired, fixed, q4).cost
  }

  // ----- the lookup table -----

  function SampleAngle(k: int): real {
    k as real * TABLE_STEP - HALF_PI
  }

  /** The table covers the range of joint 4 in steps of 0.02. */
  predicate FullTable(lookup: seq<WristSample>) {
    |lookup| == 158 && forall k :: 0 <= k < |lookup| ==> lookup[k].q4 == SampleAngle(k)
  }

  lemma TableInRange(lookup: seq<WristSample>)
    requires FullTable(lookup)
    ensures forall k :: 0 <= k < |lookup| ==> -HALF_PI <= lookup[k].q4 <= HALF_PI
    ensures HALF_PI < SampleAngle(158)
  {
  }

  method ConfigureFixedPose(g: Geometry, joints: Joints) returns (fixed: Joints, lookup: seq<WristSample>)
    ensures fixed == joints && FullTable(lookup)
    ensures forall k :: 0 <= k < |lookup| ==> lookup[k].normal == g.normal(Posed(joints, 0.0, lookup[k].q4))
  {
    fixed := joints;
    lookup := [];
    var q4 := -HALF_PI;
    while q4 <= HALF_PI
      invariant q4 == SampleAngle(|lookup|) && |lookup| <= 158
      invariant forall k :: 0 <= k < |lookup| ==>
        lookup[k].q4 == SampleAngle(k) && lookup[k].normal == g.normal(Posed(joints, 0.0, lookup[k].q4))
      decreases 158 - |lookup|
    {
      lookup := lookup + [WristSample(q4, g.normal(Posed(fixed, 0.0, q4)))];
      q4 := q4 + TABLE_STEP;
    }
  }

  // ----- the search -----

  /** f falls strictly up to m and rises strictly after it. */
  ghost predicate Unimodal(f: real -> real, low: real, high: real, m: real) {
    && low <= m <= high
    && (forall u, v :: low <= u < v <= m ==> f(u) > f(v))
    && (forall u, v :: m <= u < v <= high ==> f(u) < f(v))
  }

  /** (2/3)^n */
  function Shrink(n: nat): real {
    if n == 0 then 1.0 else Shrink(n - 1) * 2.0 / 3.0
  }

  /** After so many rounds, the interval is narrower by that factor and still holds every minimum. */
  ghost predicate Narrowed(f: real -> real, low0: real, high0: real, low: real, high: real, round: nat) {
    && low0 <= low <= high <= high0 && high - low == (high0 - low0) * Shrink(round)
    && forall m :: Unimodal(f, low0, high0, m) ==> low <= m <= high
  }

  lemma Narrower(f: real -> real, low0: real, high0: real, low: real, high: real, round: nat, left: real, right: real)
    requires Narrowed(f, low0, high0, low, high, round)
    requires left == low + (high - low) / 3.0 && right == high - (high - low) / 3.0
    ensures if f(left) < f(right) then Narrowed(f, low0, high0, low, right, round + 1)
            else Narrowed(f, low0, high0, left, high, round + 1)
  {
    TwoThirds(high - low, high0 - low0, Shrink(round), Shrink(round + 1));
    hide Shrink;
    forall m | Unimodal(f, low0, high0, m)
      ensures if f(left) < f(right) then m <= right else left <= m
    {
      assert left == right ==> low == high;
      MinimumStays(f, low0, high0, left, right, m);
    }
    hide Unimodal;
  }

  lemma TwoThirds(width: real, d: real, s: real, s': real)
    requires width == d * s && s' == s * 2.0 / 3.0
    ensures width - width / 3.0 == d * s'
  {
  }

  lemma MinimumStays(f: real -> real, low0: real, high0: real, left: real, right: real, m: real)
    requires Unimodal(f, low0, high0, m) && low0 <= left <= right <= high0 && (left == right ==> left <= m)
    ensures if f(left) < f(right) then m <= right else left <= m
  {
  }

  /**
    Sixteen rounds of ternary search.  Whatever f is, the result stays in the interval; if f is
    unimodal, the interval still holds its minimum when it has shrunk to (2/3)^16 of its width.
   */
  method Refine(f: real -> real, low0: real, high0: real) returns (mid: real)
    requires low0 <= high0
    ensures low0 <= mid <= high0
    ensures forall m :: Unimodal(f, low0, high0, m) ==> Abs(mid - m) <= 0.5 * (high0 - low0) * Shrink(ROUNDS)
  {
    var low, high := low0, high0;
    for round := 0 to ROUNDS
      invariant Narrowed(f, low0, high0, low, high, round)
    {
      hide Narrowed;
      var left := low + (high - low) / 3.0;
      var right := high - (high - low) / 3.0;
      Narrower(f, low0, high0, low, high, round, left, right);
      if f(left) < f(right) {
        high := right;
      } else {
        low := left;
      }
    }
    hide Unimodal, Shrink;
    mid := 0.5 * (low + high);
    assert 0.5 * (high - low) == 0.5 * (high0 - low0) * Shrink(ROUNDS);
  }

  /** Unimodal over the whole range of joint 4. */
  ghost predicate ServoUnimodal(f: real -> real, m: real) {
    Unimodal(f, -HALF_PI, HALF_PI, m)
  }

  ghost predicate BestOf(f: real -> real, lookup: seq<WristSample>, best: nat) {
    best < |lookup| && forall k :: 0 <= k < |lookup| ==> f(lookup[best].q4) <= f(lookup[k].q4)
  }

  /** The sample of least cost lies within one step of the minimum of a unimodal cost. */
  lemma BestSampleNearMinimum(f: real -> real, lookup: seq<WristSample>, best: nat, m: real)
    requires FullTable(lookup) && BestOf(f, lookup, best) && ServoUnimodal(f, m)
    ensures Abs(lookup[best].q4 - m) <= TABLE_STEP
  {
    TableInRange(lookup);
    if best > 0 {
      assert f(lookup[best].q4) <= f(lookup[best - 1].q4);
    }
    if best + 1 < |lookup| {
      assert f(lookup[best].q4) <= f(lookup[best + 1].q4);
    }
  }

  /** Refining around the best sample comes within 0.025 * (2/3)^16 of the minimum. */
  lemma RefinedNearMinimum(f: real -> real, lookup: seq<WristSample>, best: nat, low: real, high: real, mid: real,
                           m: real)
    requires FullTable(lookup) && BestOf(f, lookup, best) && ServoUnimodal(f, m)
    requires low == Max(-HALF_PI, lookup[best].q4 - REFINE_MARGIN)
    requires high == Min(HALF_PI, lookup[best].q4 + REFINE_MARGIN)
    requires forall m :: Unimodal(f, low, high, m) ==> Abs(mid - m) <= 0.5 * (high - low) * Shrink(ROUNDS)
    ensures Abs(mid - m) <= REFINE_MARGIN * Shrink(ROUNDS)
  {
    BestSampleNearMinimum(f, lookup, best, m);
    NarrowedUnimodal(f, low, high, m);
    ShrinkPositive(ROUNDS);
    hide Unimodal, ServoUnimodal, Shrink, BestOf, FullTable;
    Shrunk(Abs(mid - m), low, high, Shrink(ROUNDS));
  }

  lemma Shrunk(d: real, low: real, high: real, s: real)
    requires d <= 0.5 * (high - low) * s && high - low <= 2.0 * REFINE_MARGIN && s > 0.0
    ensures d <= REFINE_MARGIN * s
  {
    ScaleMono(0.5 * (high - low), REFINE_MARGIN, s);
  }

  lemma NarrowedUnimodal(f: real -> real, low: real, high: real, m: real)
    requires ServoUnimodal(f, m) && -HALF_PI <= low <= m <= high <= HALF_PI
    ensures Unimodal(f, low, high, m)
  {
  }

  lemma ScaleMono(x: real, y: real, k: real)
    requires x <= y && k >= 0.0
    ensures x * k <= y * k
  {
  }

  lemma {:induction false} ShrinkPositive(n: nat)
    ensures Shrink(n) > 0.0
  {
    if n > 0 {
      ShrinkPositive(n - 1);
    }
  }

  /** Some point within 0.025 * (2/3)^16 of m costs at least c. */
  ghost predicate NearOptimal(f: real -> real, m: real, c: real) {
    exists q :: Abs(q - m) <= REFINE_MARGIN * Shrink(ROUNDS) && c <= f(q)
  }

  /** The lookup loop: the cheapest sample. */
  method FindBestSample(g: Geometry, current: Joints, desired: Vec, fixed: Joints, lookup: seq<WristSample>)
    returns (best: Joints, bestCost: Option<real>, bestQ4: real, ghost at: nat)
    ensures lookup == [] ==> best == current && bestCost == None && bestQ4 == current.j4
    ensures lookup != [] ==>
      && BestOf(Cost(g, current, desired, fixed), lookup, at) && bestQ4 == lookup[at].q4
      && best == Evaluate(g, current, desired, fixed, bestQ4).joints
      && bestCost == Some(Evaluate(g, current, desired, fixed, bestQ4).cost)
  {
    best, bestCost, bestQ4, at := current, None, current.j4, 0;
    for i := 0 to |lookup|
      invariant i > 0 ==> at < i && bestQ4 == lookup[at].q4
      invariant i > 0 ==> best == Evaluate(g, current, desired, fixed, bestQ4).joints
      invariant i > 0 ==> bestCost == Some(Evaluate(g, current, desired, fixed, bestQ4).cost)
      invariant i > 0 ==> forall k :: 0 <= k < i ==> bestCost.value <= Evaluate(g, current, desired, fixed, lookup[k].q4).cost
      invariant i == 0 ==> bestCost == None && best == current && bestQ4 == current.j4
    {
      var c := Evaluate(g, current, desired, fixed, lookup[i].q4);
      if bestCost.None? || c.cost < bestCost.value {
        bestCost, best, bestQ4, at := Some(c.cost), c.joints, lookup[i].q4, i;
      }
    }
  }

  /**
    The target for one arm.  It keeps the fixed pose and the joint limits and is at least as good
    as every sample of the table; if the cost is unimodal in joint 4, it is at least as good as a
    point within 0.025 * (2/3)^16 of the true minimum.
   */
  method Solve(g: Geometry, current: Joints, desired: Vec, fixed: Joints, lookup: seq<WristSample>)
    returns (best: Joints)
    requires FullTable(lookup)
    ensures SamePose(best, fixed) && -HALF_PI <= best.j4 <= HALF_PI && -YAW_LIMIT <= best.j1 <= YAW_LIMIT
    ensures best == Evaluate(g, current, desired, fixed, best.j4).joints
    ensures var f := Cost(g, current, desired, fixed);
      && (forall k :: 0 <= k < |lookup| ==> f(best.j4) <= f(lookup[k].q4))
      && (forall m :: ServoUnimodal(f, m) ==> NearOptimal(f, m, f(best.j4)))
  {
    hide *;
    ghost var at, f := 0, Cost(g, current, desired, fixed);
    var bestCost, bestQ4;
    best, bestCost, bestQ4, at := FindBestSample(g, current, desired, fixed, lookup);
    SampleIs(f, lookup, at);
    var low := Max(-HALF_PI, bestQ4 - REFINE_MARGIN);
    var high := Min(HALF_PI, bestQ4 + REFINE_MARGIN);
    Surrounds(bestQ4, low, high);
    var mid := Refine(Cost(g, current, desired, fixed), low, high);
    var refined := Evaluate(g, current, desired, fixed, mid);
    CostIs(g, current, desired, fixed, mid);
    CostIs(g, current, desired, fixed, bestQ4);
    if refined.cost < bestCost.value {
      best := refined.joints;
    }
    BetterOfTwo(f, lookup, at, low, high, mid, f(best.j4));
  }

  lemma SampleIs(f: real -> real, lookup: seq<WristSample>, at: nat)
    requires FullTable(lookup) && (lookup != [] ==> BestOf(f, lookup, at))
    ensures lookup != [] && at < |lookup| && -HALF_PI <= lookup[at].q4 <= HALF_PI
  {
    TableInRange(lookup);
  }

  lemma Surrounds(q4: real, low: real, high: real)
    requires -HALF_PI <= q4 <= HALF_PI && low == Max(-HALF_PI, q4 - REFINE_MARGIN) && high == Min(HALF_PI, q4 + REFINE_MARGIN)
    ensures -HALF_PI <= low <= q4 <= high <= HALF_PI
  {
  }

  lemma CostIs(g: Geometry, current: Joints, desired: Vec, fixed: Joints, q4: real)
    ensures Cost(g, current, desired, fixed)(q4) == Evaluate(g, current, desired, fixed, q4).cost
  {
    hide Evaluate;
  }

  lemma BetterOfTwo(f: real -> real, lookup: seq<WristSample>, best: nat, low: real, high: real, mid: real, c: real)
    requires FullTable(lookup) && BestOf(f, lookup, best)
    requires low == Max(-HALF_PI, lookup[best].q4 - REFINE_MARGIN)
    requires high == Min(HALF_PI, lookup[best].q4 + REFINE_MARGIN)
    requires forall m :: Unimodal(f, low, high, m) ==> Abs(mid - m) <= 0.5 * (high - low) * Shrink(ROUNDS)
    requires c <= f(lookup[best].q4) && c <= f(mid)
    ensures forall k :: 0 <= k < |lookup| ==> c <= f(lookup[k].q4)
    ensures forall m :: ServoUnimodal(f, m) ==> NearOptimal(f, m, c)
  {
    hide FullTable, SampleAngle, Shrink, ServoUnimodal, Unimodal;
    forall m | ServoUnimodal(f, m)
      ensures NearOptimal(f, m, c)
    {
      RefinedNearMinimum(f, lookup, best, low, high, mid, m);
    }
  }
}
