/**
  The gate in front of a classifier's published directions.  A bearing far from the last accepted
  one is held back until enough consecutive challengers agree with each other.

  Directions are real vectors; the square root is an arbitrary function with its defining
  property.
 */
module BearingGate {
  import opened Prelude

  function Dot(a: Vec, b: Vec): real {
    a.x * b.x + a.y * b.y + a.z * b.z
  }

  function Scale(k: real, a: Vec): Vec {
    Vec(k * a.x, k * a.y, k * a.z)
  }

  function Halfway(a: Vec, b: Vec): Vec {
    Vec(0.5 * a.x + 0.5 * b.x, 0.5 * a.y + 0.5 * b.y, 0.5 * a.z + 0.5 * b.z)
  }

  ghost predicate IsNorm(norm: Vec -> real) {
    forall v :: norm(v) >= 0.0 && norm(v) * norm(v) == Dot(v, v)
  }

  /** None for a vector too short to have a direction, and for one with a NaN or infinite component. */
  function Normalize(norm: Vec -> real, v: Option<Vec>): Option<Vec> {
    if v.None? || norm(v.value) < 0.000000001 then None else Some(Scale(1.0 / norm(v.value), v.value))
  }

  lemma NormalizeIsUnit(norm: Vec -> real, v: Vec)
    requires IsNorm(norm) && Normalize(norm, Some(v)).Some?
    ensures var u := Normalize(norm, Some(v)).value;
      Dot(u, u) == 1.0 && v == Scale(norm(v), u)
  {
    var m := norm(v);
    var k := 1.0 / m;
    assert m * k == 1.0;
    assert Dot(Scale(k, v), Scale(k, v)) == k * k * Dot(v, v) == (k * m) * (k * m);
    assert m * (k * v.x) == v.x && m * (k * v.y) == v.y && m * (k * v.z) == v.z;
  }

  datatype Config = Config(enabled: bool, maxJumpCos: real, coneCos: real, confirm: nat, timeout: real) {
    /** parse_args demands confirm >= 1; the cone's cosine is cos(15 degrees). */
    predicate Valid() {
      confirm >= 1 && coneCos <= 1.0
    }
  }

  datatype Gate = Gate(lastDir: Option<Vec>, lastTime: real, rejectDir: Option<Vec>, rejectCount: nat)

  datatype Outcome = Outcome(gate: Gate, publish: bool, retargeted: bool)

  const UNARMED := Gate(None, 0.0, None, 0)

  /** What one call decides for an already normalized candidate. */
  function Decide(norm: Vec -> real, cfg: Config, g: Gate, candidate: Option<Vec>, now: real): Outcome {
    if candidate.None? then
      Outcome(g, false, false)
    else
      var c := candidate.value;
      if !cfg.enabled || g.lastDir.None? || now - g.lastTime > cfg.timeout then
        Outcome(Gate(Some(c), now, None, 0), true, false)
      else if Near(cfg, c, g.lastDir.value) then
        Outcome(Gate(Normalize(norm, Some(Halfway(c, g.lastDir.value))), now, None, 0), true, false)
      else
        var agrees := Agrees(cfg, g, c);
        var n := if agrees then g.rejectCount + 1 else 1;
        if n >= cfg.confirm then
          Outcome(Gate(Some(c), now, None, 0), true, true)
        else
          Outcome(g.(rejectDir := if agrees then g.rejectDir else Some(c), rejectCount := n), false, false)
  }

  predicate Near(cfg: Config, c: Vec, anchor: Vec) {
    Dot(c, anchor) >= cfg.maxJumpCos
  }

  predicate Agrees(cfg: Config, g: Gate, c: Vec) {
    g.rejectDir.Some? && Dot(c, g.rejectDir.value) >= cfg.coneCos
  }

  class BearingGate {
    const norm: Vec -> real
    const cfg: Config
    const degrees: real -> real
    var lastDir: Option<Vec>
    var lastTime: real
    var rejectDir: Option<Vec>
    var rejectCount: nat
    var lastRejectAngle: Option<real>

    ghost function State(): Gate
      reads this
    {
      Gate(lastDir, lastTime, rejectDir, rejectCount)
    }

    /** degrees stands for the arc cosine, in degrees, of a clamped cosine. */
    constructor (norm: Vec -> real, cfg: Config, degrees: real -> real)
      ensures State() == UNARMED && lastRejectAngle == None
      ensures this.norm == norm && this.cfg == cfg && this.degrees == degrees
    {
      this.norm, this.cfg, this.degrees := norm, cfg, degrees;
      lastDir, lastTime, rejectDir, rejectCount, lastRejectAngle := None, 0.0, None, 0, None;
    }

    method Accept(direction: Option<Vec>, now: real) returns (publish: bool, retargeted: bool)
      modifies this
      ensures Outcome(State(), publish, retargeted)
           == Decide(norm, cfg, old(State()), Normalize(norm, direction), now)
      ensures publish ==> lastRejectAngle == None
      ensures !publish && Normalize(norm, direction).Some? ==>
                && old(lastDir).Some?
                && lastRejectAngle
                   == Some(degrees(Clamp(Dot(Normalize(norm, direction).value, old(lastDir).value), -1.0, 1.0)))
      ensures Normalize(norm, direction).None? ==> lastRejectAngle == old(lastRejectAngle)
    {
      var candidate := Normalize(norm, direction);
      if candidate.None? {
        return false, false;
      }
      var c := candidate.value;
      if !cfg.enabled || lastDir.None? || now - lastTime > cfg.timeout {
        lastDir, lastTime := candidate, now;
        rejectDir, rejectCount := None, 0;
        lastRejectAngle := None;
        return true, false;
      }
      if Dot(c, lastDir.value) >= cfg.maxJumpCos {
        lastDir := Normalize(norm, Some(Halfway(c, lastDir.value)));
        lastTime := now;
        rejectDir, rejectCount := None, 0;
        lastRejectAngle := None;
        return true, false;
      }
      lastRejectAngle := Some(degrees(Clamp(Dot(c, lastDir.value), -1.0, 1.0)));
      if rejectDir.Some? && Dot(c, rejectDir.value) >= cfg.coneCos {
        rejectCount := rejectCount + 1;
      } else {
        rejectDir, rejectCount := candidate, 1;
      }
      if rejectCount >= cfg.confirm {
        lastDir, lastTime := candidate, now;
        rejectDir, rejectCount := None, 0;
        lastRejectAngle := None;
        return true, true;
      }
      return false, false;
    }
  }

  // ----- runs -----

  datatype Call = Call(direction: Option<Vec>, now: real)

  function After(norm: Vec -> real, cfg: Config, calls: seq<Call>): Gate {
    if calls == [] then UNARMED
    else
      var c := calls[|calls| - 1];
      Decide(norm, cfg, After(norm, cfg, calls[..|calls| - 1]), Normalize(norm, c.direction), c.now).gate
  }

  /** The candidates of a run, without the calls that have no direction. */
  function Candidates(norm: Vec -> real, calls: seq<Call>): seq<Vec> {
    if calls == [] then []
    else
      var u := Normalize(norm, calls[|calls| - 1].direction);
      Candidates(norm, calls[..|calls| - 1]) + if u.Some? then [u.value] else []
  }

  /** cs all lie beyond the jump limit from anchor, and in the cone of the first of them. */
  ghost predicate Challengers(cfg: Config, cs: seq<Vec>, anchor: Vec) {
    forall i :: 0 <= i < |cs| ==> !Near(cfg, cs[i], anchor) && Dot(cs[i], cs[0]) >= cfg.coneCos
  }

  /** The pending challengers are the last rejectCount candidates heard. */
  ghost predicate Streak(cfg: Config, g: Gate, heard: seq<Vec>) {
    var held := Last(heard, g.rejectCount);
    && g.rejectCount <= |heard|
    && g.rejectCount < cfg.confirm
    && (g.rejectCount > 0 <==> g.rejectDir.Some?)
    && (g.rejectCount > 0 ==>
          g.lastDir.Some? && g.rejectDir.value == held[0] && Challengers(cfg, held, g.lastDir.value))
  }

  lemma StreakStep(norm: Vec -> real, cfg: Config, g: Gate, heard: seq<Vec>, u: Vec, now: real)
    requires cfg.Valid() && Streak(cfg, g, heard) && Dot(u, u) == 1.0
    ensures var out := Decide(norm, cfg, g, Some(u), now);
      && Streak(cfg, out.gate, heard + [u])
      && (out.retargeted ==>
            && g.lastDir.Some? && cfg.confirm <= |heard| + 1
            && Challengers(cfg, Last(heard + [u], cfg.confirm), g.lastDir.value))
  {
    hide Last, Challengers;
    if g.lastDir.Some? && !Near(cfg, u, g.lastDir.value) {
      if Agrees(cfg, g, u) {
        LastMore(heard, u, g.rejectCount);
        OneMoreChallenger(cfg, Last(heard, g.rejectCount), u, g.lastDir.value);
      } else {
        LastMore(heard, u, 0);
        assert Last(heard + [u], 1) == [u];
        OneChallenger(cfg, u, g.lastDir.value);
      }
    }
  }

  lemma LastMore(heard: seq<Vec>, u: Vec, n: nat)
    requires n <= |heard|
    ensures |Last(heard, n)| == n && Last(heard + [u], n + 1) == Last(heard, n) + [u]
  {
  }

  lemma OneMoreChallenger(cfg: Config, held: seq<Vec>, u: Vec, anchor: Vec)
    requires held != [] && Challengers(cfg, held, anchor) && !Near(cfg, u, anchor) && Dot(u, held[0]) >= cfg.coneCos
    ensures Challengers(cfg, held + [u], anchor)
  {
  }

  lemma OneChallenger(cfg: Config, u: Vec, anchor: Vec)
    requires cfg.Valid() && Dot(u, u) == 1.0 && !Near(cfg, u, anchor)
    ensures Challengers(cfg, [u], anchor)
  {
  }

  /** From call number since on, the anchor stayed put and every candidate heard is still pending. */
  ghost predicate HeldSince(norm: Vec -> real, cfg: Config, calls: seq<Call>, since: nat) {
    var g := After(norm, cfg, calls);
    && since <= |calls|
    && |Candidates(norm, calls)| == |Candidates(norm, calls[..since])| + g.rejectCount
    && forall j :: since <= j <= |calls| ==> After(norm, cfg, calls[..j]).lastDir == g.lastDir
  }

  lemma {:induction false} PendingChallengers(norm: Vec -> real, cfg: Config, calls: seq<Call>) returns (since: nat)
    requires IsNorm(norm) && cfg.Valid()
    ensures Streak(cfg, After(norm, cfg, calls), Candidates(norm, calls))
    ensures HeldSince(norm, cfg, calls, since)
  {
    if calls == [] {
      since := 0;
    } else {
      var n := |calls| - 1;
      var before, call := calls[..n], calls[n];
      var u, g := Normalize(norm, call.direction), After(norm, cfg, before);
      since := PendingChallengers(norm, cfg, before);
      if u.Some? {
        NormalizeIsUnit(norm, call.direction.value);
        StreakStep(norm, cfg, g, Candidates(norm, before), u.value, call.now);
      }
      since := HeldStep(norm, cfg, calls, since);
    }
  }

  lemma HeldStep(norm: Vec -> real, cfg: Config, calls: seq<Call>, since: nat) returns (since': nat)
    requires calls != [] && HeldSince(norm, cfg, calls[..|calls| - 1], since)
    ensures HeldSince(norm, cfg, calls, since')
  {
    var n := |calls| - 1;
    var before, g, g' := calls[..n], After(norm, cfg, calls[..n]), After(norm, cfg, calls);
    var u := Normalize(norm, calls[n].direction);
    assert calls[..n + 1] == calls;
    since' := if g'.rejectCount == 0 && u.Some? then n + 1
              else if u.Some? && !Agrees(cfg, g, u.value) then n else since;
    assert calls[..since'] == if since' <= n then before[..since'] else calls;
    forall j | since' <= j <= n + 1
      ensures After(norm, cfg, calls[..j]).lastDir == g'.lastDir
    {
      if j <= n {
        assert calls[..j] == before[..j];
      }
    }
  }

  /**
    A retarget is earned: the last confirm candidates all lay beyond the jump limit from one
    anchor, which stayed in force while they were heard, and all lay in the cone of the first.
   */
  lemma RetargetIsConfirmed(norm: Vec -> real, cfg: Config, calls: seq<Call>, call: Call) returns (since: nat)
    requires IsNorm(norm) && cfg.Valid()
    requires Decide(norm, cfg, After(norm, cfg, calls), Normalize(norm, call.direction), call.now).retargeted
    ensures since <= |calls|
    ensures forall j :: since <= j <= |calls| ==>
      After(norm, cfg, calls[..j]).lastDir == After(norm, cfg, calls).lastDir
    ensures After(norm, cfg, calls).lastDir.Some?
    ensures var all := Candidates(norm, calls + [call]);
      && |all| == |Candidates(norm, calls[..since])| + cfg.confirm
      && Challengers(cfg, Last(all, cfg.confirm), After(norm, cfg, calls).lastDir.value)
  {
    since := PendingChallengers(norm, cfg, calls);
    assert (calls + [call])[..|calls|] == calls;
    var u, g := Normalize(norm, call.direction).value, After(norm, cfg, calls);
    NormalizeIsUnit(norm, call.direction.value);
    StreakStep(norm, cfg, g, Candidates(norm, calls), u, call.now);
    if cfg.confirm == 1 {
      since := |calls|;
      assert calls[..since] == calls;
    }
  }

  /** Between calls the challenger count stays below the number that confirms. */
  lemma {:induction false} ChallengerCountBounded(norm: Vec -> real, cfg: Config, calls: seq<Call>)
    requires IsNorm(norm) && cfg.Valid()
    ensures After(norm, cfg, calls).rejectCount < cfg.confirm
    ensures After(norm, cfg, calls).rejectCount > 0 <==> After(norm, cfg, calls).rejectDir.Some?
  {
    var since := PendingChallengers(norm, cfg, calls);
  }

  /** Challengers that agree with u so far. */
  function Progress(cfg: Config, g: Gate, u: Vec): nat {
    if Agrees(cfg, g, u) then g.rejectCount else 0
  }

  /** Whether some call publishes when direction u is offered at the given times. */
  predicate Publishes(norm: Vec -> real, cfg: Config, g: Gate, u: Vec, times: seq<real>)
    decreases |times|
  {
    times != [] &&
    var out := Decide(norm, cfg, g, Some(u), times[0]);
    out.publish || Publishes(norm, cfg, out.gate, u, times[1..])
  }

  /** A direction that persists gets through: confirm - Progress calls are enough, at any times. */
  lemma {:induction false} PersistentDirectionPublishes(
    norm: Vec -> real, cfg: Config, g: Gate, u: Vec, times: seq<real>)
    requires cfg.Valid() && Dot(u, u) == 1.0
    requires |times| >= 1 && |times| + Progress(cfg, g, u) >= cfg.confirm
    ensures Publishes(norm, cfg, g, u, times)
    decreases |times|
  {
    var out := Decide(norm, cfg, g, Some(u), times[0]);
    if !out.publish {
      PersistentDirectionPublishes(norm, cfg, out.gate, u, times[1..]);
    }
  }

  /** Two challengers that disagree never add up, whatever was pending. */
  lemma DisagreementStartsOver(norm: Vec -> real, cfg: Config, g: Gate, u: Vec, now: real)
    requires cfg.confirm >= 2 && !Agrees(cfg, g, u)
    ensures !Decide(norm, cfg, g, Some(u), now).retargeted
    ensures Decide(norm, cfg, g, Some(u), now).gate.rejectCount <= 1
  {
  }

  /** A small step moves the anchor to the bisector: as close to the old anchor as to the candidate. */
  lemma AnchorBisects(norm: Vec -> real, cfg: Config, g: Gate, u: Vec, now: real)
    requires IsNorm(norm) && cfg.enabled && g.lastDir.Some? && now - g.lastTime <= cfg.timeout
    requires Dot(u, u) == 1.0 && Dot(g.lastDir.value, g.lastDir.value) == 1.0
    requires Near(cfg, u, g.lastDir.value)
    ensures var g', a := Decide(norm, cfg, g, Some(u), now).gate, g.lastDir.value;
      g'.lastDir.Some? ==>
        && Dot(g'.lastDir.value, g'.lastDir.value) == 1.0
        && Dot(g'.lastDir.value, u) == Dot(g'.lastDir.value, a) >= Dot(u, a)
  {
    var a := g.lastDir.value;
    var v := Halfway(u, a);
    var next := Normalize(norm, Some(v));
    if next.Some? {
      NormalizeIsUnit(norm, v);
      var w, m, k := next.value, norm(v), Dot(u, a);
      HalfwayDots(u, a);
      assert Scale(m, w) == v;
      DotOfScaled(m, w, u);
      DotOfScaled(m, w, a);
      UnitDot(u, a);
      hide Dot, Halfway, Scale;
      assert m * m == 0.5 * (1.0 + k);
      assert Dot(w, u) == m && Dot(w, a) == m;
      HalfAngle(m, k);
    }
  }

  lemma HalfwayDots(u: Vec, a: Vec)
    requires Dot(u, u) == 1.0 && Dot(a, a) == 1.0
    ensures var v, half := Halfway(u, a), 0.5 * (1.0 + Dot(u, a));
      Dot(v, u) == half && Dot(v, a) == half && Dot(v, v) == half
  {
    var v := Halfway(u, a);
    assert Dot(v, u) == 0.5 * (Dot(u, u) + Dot(u, a));
    assert Dot(v, a) == 0.5 * (Dot(u, a) + Dot(a, a));
    assert Dot(v, v) == 0.5 * (Dot(v, u) + Dot(v, a));
  }

  lemma DotOfScaled(m: real, w: Vec, u: Vec)
    ensures Dot(Scale(m, w), u) == m * Dot(w, u)
  {
  }

  lemma HalfAngle(m: real, k: real)
    requires m >= 0.0 && m * m == 0.5 * (1.0 + k) && k <= 1.0
    ensures m >= k
  {
    if m <= 1.0 {
      assert m * m <= m * 1.0;
    }
  }

  lemma UnitDot(a: Vec, b: Vec)
    requires Dot(a, a) == 1.0 && Dot(b, b) == 1.0
    ensures Dot(a, b) <= 1.0
  {
    var d := Vec(a.x - b.x, a.y - b.y, a.z - b.z);
    assert Dot(d, d) == Dot(a, a) - 2.0 * Dot(a, b) + Dot(b, b);
    assert d.x * d.x >= 0.0 && d.y * d.y >= 0.0 && d.z * d.z >= 0.0;
  }
}
