/**
  The arm tracker as a state machine: homing, tracking sessions and the two-arm coordination.

  All callbacks share one mutually exclusive group, so each is one step.  Ruckig, the controller
  manager and the solver's choice are inputs of the steps.
 */
module ArmProtocol {
  import opened Prelude
  import opened ArmSolve

  datatype Control = Trajectory | Tracking | Stopping

  datatype Config = Config(
    dual: bool, requireHome: bool, leadFirst: bool, leadTolerance: real, targetTimeout: real,
    deadband: real, maxTrackingError: real, homeTolerance: real)

  const HOME := Joints(PI / 2.0, -PI / 2.0, -PI / 2.0, 0.0, PI / 2.0, 0.0)

  /**
    One arm: measured joints, fixed pose, Ruckig's position and target, whether Ruckig is in
    velocity mode (bringing the arm to rest), and the last command.
   */
  datatype Arm = Arm(current: Joints, fixed: Joints, position: Joints, target: Joints, stopping: bool, command: Joints) {
    function Seeded(): Arm {
      Arm(current, current, current, current, false, current)
    }

    function Resting(): Arm {
      this.(stopping := true)
    }

    function Aimed(cfg: Config, g: Geometry, candidate: Joints): Arm {
      this.(target := if Moves(cfg, g, candidate) then candidate else target, stopping := false)
    }

    predicate Moves(cfg: Config, g: Geometry, candidate: Joints) {
      g.angle(g.normal(candidate), g.normal(target)) >= cfg.deadband
    }

    function Driven(next: Joints): Arm {
      this.(position := next, command := next.(j2 := fixed.j2, j3 := fixed.j3, j5 := fixed.j5, j6 := fixed.j6))
    }

    /** How far the measured joints are behind Ruckig. */
    function Lag(g: Geometry): real {
      Max(Abs(g.wrap(current.j1 - position.j1)), Abs(current.j4 - position.j4))
    }

    predicate TargetInRange() {
      -HALF_PI <= target.j4 <= HALF_PI
    }
  }

  /** The controller that owns the joints; only the controller manager changes it. */
  datatype Owner = TrajectoryController | TrackingController

  /** Whether joints were ever reported, and how far homing has come. */
  datatype Homing = Homing(joints: bool, requested: bool, reached: bool)

  /** The operator's veto, and the direction to face with the time it was heard. */
  datatype Goal = Goal(veto: bool, have: bool, direction: Vec, at: real)

  /** Whether Arm 1 has locked on, whether Arm 2 follows, and whether its start was reported. */
  datatype Lead = Lead(locked: bool, following: bool, started: bool)

  const UNLOCKED := Lead(false, false, false)

  datatype Tracker = Tracker(
    control: Control, owner: Owner, left: Arm, right: Arm, home: Homing, goal: Goal, lead: Lead)

  // ----- inputs and outputs -----

  /** TimedOut(true): the node gave up waiting, but the switch took place. */
  datatype Switch = Switched | Refused | TimedOut(applied: bool)

  datatype Status = Error | Working | Finished

  datatype Motion = Motion(status: Status, next: Joints, v1: real, v4: real)

  datatype Input =
    | JointState(left: Option<Joints>, right: Option<Joints>)
    | HomeRequest(subscribed: bool)
    | SetTracking(enable: bool, switch: Switch)
    | Direction(toward: Vec, smoothed: Vec, at: real)
    | Veto(on: bool)
    | Tick(now: real, aim: Joints, aimRight: Joints, motion: Motion, motionRight: Motion, restore: Switch)

  /** What the node sends, the control states it enters, and the outcome of controller switches. */
  datatype Output =
    | HomeTrajectory
    | Servo(left: Joints, right: Joints)
    | TargetUpdated
    | Arm2Resolved
    | Arm2Started
    | Arm2Reset
    | Entered(control: Control)
    | OwnerIs(owner: Owner)

  datatype Stepped = Stepped(s: Tracker, out: seq<Output>)

  // ----- steps -----

  function AfterSwitch(owner: Owner, to: Owner, result: Switch): Owner {
    if result == Switched || result == TimedOut(true) then to else owner
  }

  predicate Near(cfg: Config, g: Geometry, x: real, y: real) {
    Abs(g.wrap(x - y)) <= cfg.homeTolerance
  }

  predicate AtHome(cfg: Config, g: Geometry, q: Joints) {
    && Near(cfg, g, q.j1, HOME.j1) && Near(cfg, g, q.j2, HOME.j2) && Near(cfg, g, q.j3, HOME.j3)
    && Near(cfg, g, q.j4, HOME.j4) && Near(cfg, g, q.j5, HOME.j5) && Near(cfg, g, q.j6, HOME.j6)
  }

  function Stopped(cfg: Config, s: Tracker, lead: Lead): Tracker {
    s.(left := s.left.Resting(), right := if cfg.dual then s.right.Resting() else s.right, lead := lead)
  }

  function OnJoints(cfg: Config, g: Geometry, s: Tracker, l: Option<Joints>, r: Option<Joints>): Tracker {
    if l.None? || (cfg.dual && r.None?) then s
    else
      var home := s.home.requested && AtHome(cfg, g, l.value) && (cfg.dual ==> AtHome(cfg, g, r.value));
      var fix := home || !s.home.joints;
      s.(left := s.left.(current := l.value, fixed := if fix then l.value else s.left.fixed),
         right := if cfg.dual then s.right.(current := r.value, fixed := if fix then r.value else s.right.fixed) else s.right,
         home := Homing(true, s.home.requested && !home, s.home.reached || home))
  }

  function OnHome(s: Tracker, subscribed: bool): Stepped {
    if !s.home.joints || s.control != Trajectory then Stepped(s, [])
    else
      Stepped(s.(goal := s.goal.(have := false), home := Homing(true, subscribed, false), lead := UNLOCKED),
              if subscribed then [Arm2Reset, HomeTrajectory] else [Arm2Reset])
  }

  predicate MayTrack(cfg: Config, s: Tracker) {
    && s.control == Trajectory && s.home.joints && (cfg.requireHome ==> s.home.reached)
    && Abs(s.left.current.j4) <= HALF_PI && (cfg.dual ==> Abs(s.right.current.j4) <= HALF_PI)
  }

  function OnEnable(cfg: Config, s: Tracker, switch: Switch): Stepped {
    if !MayTrack(cfg, s) then Stepped(s, [])
    else
      var owner := AfterSwitch(s.owner, TrackingController, switch);
      var s' := Tracker(
        if switch == Switched then Tracking else s.control, owner,
        s.left.Seeded(), if cfg.dual then s.right.Seeded() else s.right,
        s.home, s.goal.(have := false), UNLOCKED);
      Stepped(s', if switch == Switched
                  then [Arm2Reset, OwnerIs(owner), Servo(s.left.current, s.right.current), Entered(Tracking)]
                  else [Arm2Reset, OwnerIs(owner)])
  }

  function OnDisable(cfg: Config, s: Tracker): Stepped {
    if s.control != Tracking then Stepped(s, [])
    else
      Stepped(Tracker(Stopping, s.owner, s.left.Resting(), if cfg.dual then s.right.Resting() else s.right,
                      s.home, s.goal.(have := false), UNLOCKED), [Entered(Stopping), Arm2Reset])
  }

  predicate Available(cfg: Config, s: Tracker, now: real) {
    s.control == Tracking && !s.goal.veto && s.goal.have && now - s.goal.at <= cfg.targetTimeout
  }

  predicate FallenBehind(cfg: Config, g: Geometry, s: Tracker) {
    s.left.Lag(g) > cfg.maxTrackingError || (cfg.dual && s.right.Lag(g) > cfg.maxTrackingError)
  }

  function PointingError(g: Geometry, s: Tracker): real {
    if s.goal.have then g.angle(g.normal(s.left.current), s.goal.direction) else 0.0
  }

  /** Whether this tick works towards a target. */
  predicate ShouldTrack(cfg: Config, g: Geometry, s: Tracker, now: real) {
    Available(cfg, s, now) && !FallenBehind(cfg, g, s)
  }

  function CheckLag(cfg: Config, g: Geometry, s: Tracker): Stepped {
    if s.control == Tracking && FallenBehind(cfg, g, s) then Stepped(s.(control := Stopping), [Entered(Stopping)])
    else Stepped(s, [])
  }

  function Coordinate(cfg: Config, g: Geometry, s: Tracker, aimRight: Joints): Stepped {
    var locked := s.lead.locked || (cfg.leadFirst && PointingError(g, s) <= cfg.leadTolerance);
    if !cfg.leadFirst || locked then
      Stepped(s.(lead := Lead(locked, true, s.lead.started), right := s.right.Aimed(cfg, g, aimRight)), [Arm2Resolved])
    else
      Stepped(s.(lead := Lead(s.lead.locked, false, false), right := s.right.Resting()), [Arm2Reset])
  }

  /** Sets the targets, or brings the arms to rest. */
  function Aim(cfg: Config, g: Geometry, s: Tracker, should: bool, aim: Joints, aimRight: Joints): Stepped {
    if should then
      var s' := s.(left := s.left.Aimed(cfg, g, aim));
      var out := if s.left.Moves(cfg, g, aim) then [TargetUpdated] else [];
      if !cfg.dual then Stepped(s', out)
      else
        var c := Coordinate(cfg, g, s', aimRight);
        Stepped(c.s, out + c.out)
    else if cfg.dual then Stepped(Stopped(cfg, s, UNLOCKED), [Arm2Reset])
    else Stepped(Stopped(cfg, s, s.lead), [])
  }

  predicate Starts(s: Tracker, available: bool, m: Motion) {
    s.lead.following && !s.lead.started && available && (Abs(m.v1) > 0.001 || Abs(m.v4) > 0.001)
  }

  /** One Ruckig cycle for both arms, and the command. */
  function Drive(cfg: Config, s: Tracker, available: bool, m: Motion, m': Motion): Stepped {
    if m.status == Error then Stepped(s, [])
    else
      var s1 := s.(left := s.left.Driven(m.next));
      if !cfg.dual then Stepped(s1, [Servo(s1.left.command, s1.right.command)])
      else if m'.status == Error then Stepped(s1, [])
      else
        var starts := Starts(s, available, m');
        var s2 := s1.(right := s.right.Driven(m'.next), lead := s.lead.(started := s.lead.started || starts));
        Stepped(s2, (if starts then [Arm2Started] else []) + [Servo(s2.left.command, s2.right.command)])
  }

  /** Hands the joints back once a stop has come to rest. */
  function Restore(cfg: Config, s: Tracker, m: Motion, m': Motion, result: Switch): Stepped {
    if s.control != Stopping || m.status != Finished || (cfg.dual && m'.status != Finished) then Stepped(s, [])
    else
      var owner := AfterSwitch(s.owner, TrajectoryController, result);
      if result != Switched then Stepped(s.(owner := owner), [OwnerIs(owner)])
      else Stepped(s.(owner := owner, control := Trajectory, lead := UNLOCKED), [OwnerIs(owner), Entered(Trajectory), Arm2Reset])
  }

  function OnTick(cfg: Config, g: Geometry, s: Tracker, t: Input): Stepped
    requires t.Tick?
  {
    if !s.home.joints || s.control == Trajectory then Stepped(s, [])
    else
      var a := CheckLag(cfg, g, s);
      var b := Aim(cfg, g, a.s, ShouldTrack(cfg, g, s, t.now), t.aim, t.aimRight);
      var c := Drive(cfg, b.s, Available(cfg, s, t.now), t.motion, t.motionRight);
      var d := Restore(cfg, c.s, t.motion, t.motionRight, t.restore);
      Stepped(d.s, a.out + b.out + c.out + d.out)
  }

  function Step(cfg: Config, g: Geometry, s: Tracker, i: Input): Stepped {
    match i
    case JointState(l, r) => Stepped(OnJoints(cfg, g, s, l, r), [])
    case HomeRequest(subscribed) => OnHome(s, subscribed)
    case SetTracking(enable, switch) => if enable then OnEnable(cfg, s, switch) else OnDisable(cfg, s)
    case Direction(toward, smoothed, at) =>
      Stepped(s.(goal := Goal(s.goal.veto, true, if s.goal.have then smoothed else toward, at)), [])
    case Veto(on) => Stepped(s.(goal := s.goal.(veto := on)), [])
    case Tick(_, _, _, _, _, _) => OnTick(cfg, g, s, i)
  }

  /** What the solver promises about the aims of a tick. */
  predicate Legal(cfg: Config, s: Tracker, i: Input) {
    i.Tick? ==>
      && -HALF_PI <= i.aim.j4 <= HALF_PI && SamePose(i.aim, s.left.fixed)
      && (cfg.dual ==> -HALF_PI <= i.aimRight.j4 <= HALF_PI && SamePose(i.aimRight, s.right.fixed))
  }

  predicate Initial(s: Tracker) {
    && s.control == Trajectory && s.owner == TrajectoryController
    && !s.home.joints && !s.home.requested && !s.home.reached
    && !s.goal.veto && !s.goal.have && !s.lead.locked && !s.lead.following && !s.lead.started
  }
}
