/**
  What the arm tracker keeps over every run, whatever Ruckig, the controller manager, the drone
  and the operator do.
 */
module ArmSafety {
  import opened Prelude
  import opened ArmSolve
  import opened ArmProtocol

  /** One tick of a session: whether it had a usable target, and Arm 1's pointing error. */
  datatype TickInfo = TickInfo(usable: bool, error: real)

  /**
    A run so far: the state, everything the node has sent, and for the present (or last) tracking
    session its starting pose, its servo commands, its ticks and the times at which directions
    were heard.
   */
  datatype History = History(
    s: Tracker, out: seq<Output>, poseLeft: Joints, poseRight: Joints, servo: seq<Output>,
    ticks: seq<TickInfo>, heard: seq<real>)

  function Servos(out: seq<Output>): seq<Output> {
    if out == [] then []
    else Servos(out[..|out| - 1]) + if out[|out| - 1].Servo? then [out[|out| - 1]] else []
  }

  predicate Begins(cfg: Config, s: Tracker, i: Input) {
    i.SetTracking? && i.enable && MayTrack(cfg, s) && i.switch == Switched
  }

  function Next(cfg: Config, g: Geometry, h: History, i: Input): History {
    var step := Step(cfg, g, h.s, i);
    if Begins(cfg, h.s, i) then
      History(step.s, h.out + step.out, h.s.left.current, h.s.right.current, Servos(step.out), [], [])
    else
      h.(s := step.s, out := h.out + step.out, servo := h.servo + Servos(step.out),
         ticks := if i.Tick? && h.s.home.joints && h.s.control != Trajectory
                  then h.ticks + [TickInfo(ShouldTrack(cfg, g, h.s, i.now), PointingError(g, h.s))]
                  else h.ticks,
         heard := if i.Direction? then h.heard + [i.at] else h.heard)
  }

  function Start(s: Tracker): History {
    History(s, [], s.left.current, s.right.current, [], [], [])
  }

  function Run(cfg: Config, g: Geometry, s: Tracker, inputs: seq<Input>): History {
    if inputs == [] then Start(s)
    else Next(cfg, g, Run(cfg, g, s, inputs[..|inputs| - 1]), inputs[|inputs| - 1])
  }

  /** The solver keeps its promise on every tick of the run. */
  predicate LegalRun(cfg: Config, g: Geometry, s: Tracker, inputs: seq<Input>) {
    inputs == [] ||
    (LegalRun(cfg, g, s, inputs[..|inputs| - 1])
     && Legal(cfg, Run(cfg, g, s, inputs[..|inputs| - 1]).s, inputs[|inputs| - 1]))
  }

  // ----- sessions -----

  /** Homing and targets: what a session may rely on. */
  predicate SessionOk(cfg: Config, s: Tracker) {
    && (s.home.reached ==> !s.home.requested)
    && (s.control != Trajectory ==>
          && s.home.joints && (cfg.requireHome ==> s.home.reached)
          && TargetsInRange(cfg, s))
  }

  /** What no part of a tick touches. */
  predicate SameBackground(s: Tracker, s': Tracker) {
    && s'.left.fixed == s.left.fixed && s'.right.fixed == s.right.fixed
    && s'.left.current == s.left.current && s'.right.current == s.right.current
    && s'.home.joints == s.home.joints && s'.home.requested == s.home.requested && s'.home.reached == s.home.reached
    && s'.goal.have == s.goal.have && s'.goal.at == s.goal.at
  }

  predicate TargetsInRange(cfg: Config, s: Tracker) {
    s.left.TargetInRange() && (cfg.dual ==> s.right.TargetInRange())
  }

  lemma CoordinateFacts(cfg: Config, g: Geometry, s: Tracker, aimRight: Joints)
    ensures var r := Coordinate(cfg, g, s, aimRight);
      && SameBackground(s, r.s) && r.s.control == s.control && r.s.owner == s.owner && r.s.left == s.left
      && (r.s.right.target == s.right.target || r.s.right.target == aimRight)
  {
    hide PointingError, Arm.Moves;
  }

  lemma AimFacts(cfg: Config, g: Geometry, s: Tracker, should: bool, aim: Joints, aimRight: Joints)
    ensures var r := Aim(cfg, g, s, should, aim, aimRight);
      && SameBackground(s, r.s) && r.s.control == s.control && r.s.owner == s.owner
      && (r.s.left.target == s.left.target || r.s.left.target == aim)
      && (r.s.right.target == s.right.target || (cfg.dual && r.s.right.target == aimRight))
  {
    if should {
      CoordinateFacts(cfg, g, s.(left := s.left.Aimed(cfg, g, aim)), aimRight);
      hide Coordinate, Arm.Moves;
    }
  }

  lemma DriveFacts(cfg: Config, s: Tracker, available: bool, m: Motion, m': Motion)
    ensures var r := Drive(cfg, s, available, m, m');
      && SameBackground(s, r.s) && r.s.control == s.control && r.s.owner == s.owner
      && r.s.left.target == s.left.target && r.s.right.target == s.right.target
  {
  }

  lemma RestoreFacts(cfg: Config, s: Tracker, m: Motion, m': Motion, result: Switch)
    ensures var r := Restore(cfg, s, m, m', result);
      && SameBackground(s, r.s) && r.s.left.target == s.left.target && r.s.right.target == s.right.target
      && (r.s.control == s.control || r.s.control == Trajectory)
  {
  }

  lemma Background3(s0: Tracker, s1: Tracker, s2: Tracker, s3: Tracker, s4: Tracker)
    requires SameBackground(s0, s1) && SameBackground(s1, s2) && SameBackground(s2, s3) && SameBackground(s3, s4)
    ensures SameBackground(s0, s4)
  {
  }

  /** The stages of a tick. */
  lemma TickFacts(cfg: Config, g: Geometry, s: Tracker, t: Input)
    requires t.Tick?
    ensures var r := OnTick(cfg, g, s, t).s;
      && SameBackground(s, r) && (s.control == Trajectory ==> r == s)
      && (r.left.target == s.left.target || r.left.target == t.aim)
      && (r.right.target == s.right.target || (cfg.dual && r.right.target == t.aimRight))
  {
    hide Aim, Drive, Restore, ShouldTrack, Available, FallenBehind, SameBackground;
    if s.home.joints && s.control != Trajectory {
      var a := CheckLag(cfg, g, s).s;
      var b := Aim(cfg, g, a, ShouldTrack(cfg, g, s, t.now), t.aim, t.aimRight).s;
      var c := Drive(cfg, b, Available(cfg, s, t.now), t.motion, t.motionRight).s;
      var d := Restore(cfg, c, t.motion, t.motionRight, t.restore).s;
      CheckLagFacts(cfg, g, s);
      AimFacts(cfg, g, a, ShouldTrack(cfg, g, s, t.now), t.aim, t.aimRight);
      DriveFacts(cfg, b, Available(cfg, s, t.now), t.motion, t.motionRight);
      RestoreFacts(cfg, c, t.motion, t.motionRight, t.restore);
      Background3(s, a, b, c, d);
    } else {
      SameBackgroundRefl(s);
    }
  }

  lemma SameBackgroundRefl(s: Tracker)
    ensures SameBackground(s, s)
  {
  }

  lemma CheckLagFacts(cfg: Config, g: Geometry, s: Tracker)
    ensures var r := CheckLag(cfg, g, s).s;
      && SameBackground(s, r) && r.left == s.left && r.right == s.right && r.owner == s.owner
      && (r.control == s.control || (s.control == Tracking && r.control == Stopping))
  {
  }

  lemma StepKeepsSession(cfg: Config, g: Geometry, s: Tracker, i: Input)
    requires SessionOk(cfg, s) && Legal(cfg, s, i)
    ensures SessionOk(cfg, Step(cfg, g, s, i).s)
  {
    hide OnTick, AtHome;
    if i.Tick? {
      TickFacts(cfg, g, s, i);
    }
  }

  /**
    The pose of a session changes exactly when a joint message reports home while a home request
    is still pending.
   */
  lemma PoseChangesOnlyAtHome(cfg: Config, g: Geometry, s: Tracker, i: Input)
    requires SessionOk(cfg, s) && Legal(cfg, s, i) && s.control != Trajectory
    ensures var s' := Step(cfg, g, s, i).s;
      var reports := i.JointState? && i.left.Some? && (cfg.dual ==> i.right.Some?);
      var home := reports && s.home.requested && AtHome(cfg, g, i.left.value) && (cfg.dual ==> AtHome(cfg, g, i.right.value));
      && s'.left.fixed == (if home then i.left.value else s.left.fixed)
      && s'.right.fixed == (if home && cfg.dual then i.right.value else s.right.fixed)
  {
    hide OnTick, AtHome;
    if i.Tick? {
      TickFacts(cfg, g, s, i);
    }
  }

  lemma {:induction false} ServosAreServo(out: seq<Output>)
    ensures forall o :: o in Servos(out) ==> o.Servo? && o in out
  {
    if out != [] {
      ServosAreServo(out[..|out| - 1]);
    }
  }

  /** A servo command that keeps joints 2, 3, 5 and 6 of both arms. */
  predicate Keeps(cfg: Config, o: Output, left: Joints, right: Joints) {
    o.Servo? ==> SamePose(o.left, left) && (cfg.dual ==> SamePose(o.right, right))
  }

  predicate AllKeep(cfg: Config, out: seq<Output>, left: Joints, right: Joints) {
    forall o :: o in out ==> Keeps(cfg, o, left, right)
  }

  lemma KeepConcat(cfg: Config, a: seq<Output>, b: seq<Output>, left: Joints, right: Joints)
    requires AllKeep(cfg, a, left, right) && AllKeep(cfg, b, left, right)
    ensures AllKeep(cfg, a + b, left, right)
  {
  }

  lemma TickKeepsPose(cfg: Config, g: Geometry, s: Tracker, t: Input)
    requires t.Tick?
    ensures AllKeep(cfg, OnTick(cfg, g, s, t).out, s.left.fixed, s.right.fixed)
    ensures s.control == Trajectory ==> OnTick(cfg, g, s, t).out == []
  {
    hide CheckLag, Aim, Drive, Restore, ShouldTrack, Available, FallenBehind, AllKeep;
    var l, r := s.left.fixed, s.right.fixed;
    if s.home.joints && s.control != Trajectory {
      var a := CheckLag(cfg, g, s);
      var b := Aim(cfg, g, a.s, ShouldTrack(cfg, g, s, t.now), t.aim, t.aimRight);
      var c := Drive(cfg, b.s, Available(cfg, s, t.now), t.motion, t.motionRight);
      var d := Restore(cfg, c.s, t.motion, t.motionRight, t.restore);
      CheckLagFacts(cfg, g, s);
      CheckLagKeepsPose(cfg, g, s, l, r);
      AimFixed(cfg, g, a.s, ShouldTrack(cfg, g, s, t.now), t.aim, t.aimRight);
      DriveKeepsPose(cfg, b.s, Available(cfg, s, t.now), t.motion, t.motionRight);
      RestoreKeepsPose(cfg, c.s, t.motion, t.motionRight, t.restore, l, r);
      KeepConcat(cfg, a.out, b.out, l, r);
      KeepConcat(cfg, a.out + b.out, c.out, l, r);
      KeepConcat(cfg, a.out + b.out + c.out, d.out, l, r);
    } else {
      NothingKeepsPose(cfg, l, r);
    }
  }

  lemma NothingKeepsPose(cfg: Config, l: Joints, r: Joints)
    ensures AllKeep(cfg, [], l, r)
  {
  }

  lemma CheckLagKeepsPose(cfg: Config, g: Geometry, s: Tracker, l: Joints, r: Joints)
    ensures AllKeep(cfg, CheckLag(cfg, g, s).out, l, r)
  {
  }

  lemma AimFixed(cfg: Config, g: Geometry, s: Tracker, should: bool, aim: Joints, aimRight: Joints)
    ensures var r := Aim(cfg, g, s, should, aim, aimRight);
      && r.s.left.fixed == s.left.fixed && r.s.right.fixed == s.right.fixed
      && AllKeep(cfg, r.out, s.left.fixed, s.right.fixed)
  {
    AimFacts(cfg, g, s, should, aim, aimRight);
  }

  lemma DriveKeepsPose(cfg: Config, s: Tracker, available: bool, m: Motion, m': Motion)
    ensures AllKeep(cfg, Drive(cfg, s, available, m, m').out, s.left.fixed, s.right.fixed)
  {
  }

  lemma RestoreKeepsPose(cfg: Config, s: Tracker, m: Motion, m': Motion, result: Switch, l: Joints, r: Joints)
    ensures AllKeep(cfg, Restore(cfg, s, m, m', result).out, l, r)
  {
  }

  /** Every servo command of the session keeps the pose in which the session began. */
  predicate PoseOk(cfg: Config, h: History) {
    cfg.requireHome ==>
      && (h.s.control != Trajectory ==>
            h.s.left.fixed == h.poseLeft && (cfg.dual ==> h.s.right.fixed == h.poseRight))
      && AllKeep(cfg, h.servo, h.poseLeft, h.poseRight)
  }

  lemma NextKeepsPose(cfg: Config, g: Geometry, h: History, i: Input)
    requires SessionOk(cfg, h.s) && Legal(cfg, h.s, i) && PoseOk(cfg, h)
    ensures PoseOk(cfg, Next(cfg, g, h, i))
  {
    var step := Step(cfg, g, h.s, i);
    ServosAreServo(step.out);
    hide OnTick, AtHome, Servos;
    if i.Tick? {
      TickFacts(cfg, g, h.s, i);
      TickKeepsPose(cfg, g, h.s, i);
    }
  }

  // ----- the lead arm -----

  /** Some tick had Arm 1 on target, and every tick from there on had a usable target. */
  ghost predicate LockJustified(cfg: Config, ticks: seq<TickInfo>) {
    exists i :: 0 <= i < |ticks| && ticks[i].error <= cfg.leadTolerance
      && forall j :: i <= j < |ticks| ==> ticks[j].usable
  }

  lemma LockContinues(cfg: Config, ticks: seq<TickInfo>, t: TickInfo)
    requires t.usable && (LockJustified(cfg, ticks) || t.error <= cfg.leadTolerance)
    ensures LockJustified(cfg, ticks + [t])
  {
    var all := ticks + [t];
    if t.error <= cfg.leadTolerance {
      assert all[|ticks|] == t;
    } else {
      var i :| 0 <= i < |ticks| && ticks[i].error <= cfg.leadTolerance && forall j :: i <= j < |ticks| ==> ticks[j].usable;
      assert all[i] == ticks[i];
    }
  }

  /** What aiming does to Arm 2. */
  lemma AimArm2(cfg: Config, g: Geometry, s: Tracker, should: bool, aim: Joints, aimRight: Joints)
    ensures var r := Aim(cfg, g, s, should, aim, aimRight);
      var lead := s.lead.locked || (cfg.leadFirst && PointingError(g, s) <= cfg.leadTolerance);
      && (cfg.dual && r.s.lead.locked ==> should && lead)
      && (!cfg.dual ==> r.s.lead.locked == s.lead.locked)
      && (!cfg.leadFirst ==> r.s.lead.locked ==> s.lead.locked)
      && (Arm2Resolved in r.out ==> cfg.dual && should && (!cfg.leadFirst || lead))
      && (r.s.right.target != s.right.target ==> Arm2Resolved in r.out)
  {
    hide Arm.Moves;
    if should {
      assert PointingError(g, s.(left := s.left.Aimed(cfg, g, aim))) == PointingError(g, s);
    }
  }

  lemma TickArm2(cfg: Config, g: Geometry, s: Tracker, t: Input)
    requires t.Tick? && s.home.joints && s.control != Trajectory
    ensures var r := OnTick(cfg, g, s, t);
      var should, lead := ShouldTrack(cfg, g, s, t.now), s.lead.locked || (cfg.leadFirst && PointingError(g, s) <= cfg.leadTolerance);
      && (cfg.dual && r.s.lead.locked ==> should && lead)
      && (r.s.lead.locked && (!cfg.dual || !cfg.leadFirst) ==> s.lead.locked)
      && (Arm2Resolved in r.out ==> cfg.dual && should && (!cfg.leadFirst || lead))
      && (r.s.right.target != s.right.target ==> Arm2Resolved in r.out)
  {
    hide CheckLag, Aim, Drive, Restore, ShouldTrack, Available, FallenBehind;
    var a := CheckLag(cfg, g, s);
    var b := Aim(cfg, g, a.s, ShouldTrack(cfg, g, s, t.now), t.aim, t.aimRight);
    var c := Drive(cfg, b.s, Available(cfg, s, t.now), t.motion, t.motionRight);
    CheckLagArm2(cfg, g, s);
    AimArm2(cfg, g, a.s, ShouldTrack(cfg, g, s, t.now), t.aim, t.aimRight);
    DriveArm2(cfg, b.s, Available(cfg, s, t.now), t.motion, t.motionRight);
    RestoreArm2(cfg, c.s, t.motion, t.motionRight, t.restore);
  }

  lemma CheckLagArm2(cfg: Config, g: Geometry, s: Tracker)
    ensures var r := CheckLag(cfg, g, s);
      && r.s.lead.locked == s.lead.locked && r.s.right == s.right && Arm2Resolved !in r.out
      && PointingError(g, r.s) == PointingError(g, s)
  {
  }

  lemma DriveArm2(cfg: Config, s: Tracker, available: bool, m: Motion, m': Motion)
    ensures var r := Drive(cfg, s, available, m, m');
      r.s.lead.locked == s.lead.locked && r.s.right.target == s.right.target && Arm2Resolved !in r.out
  {
  }

  lemma RestoreArm2(cfg: Config, s: Tracker, m: Motion, m': Motion, result: Switch)
    ensures var r := Restore(cfg, s, m, m', result);
      (r.s.lead.locked ==> s.lead.locked) && r.s.right.target == s.right.target && Arm2Resolved !in r.out
  {
  }

  ghost predicate LockOk(cfg: Config, h: History) {
    h.s.lead.locked ==> cfg.dual && cfg.leadFirst && LockJustified(cfg, h.ticks)
  }

  /**
    With the lead policy, Arm 2 gets a new target only on a tick of a session in which some tick
    had Arm 1 within tolerance, and every tick since then, this one included, had a usable target.
   */
  lemma Arm2FollowsLock(cfg: Config, g: Geometry, h: History, i: Input)
    requires SessionOk(cfg, h.s) && LockOk(cfg, h)
    ensures LockOk(cfg, Next(cfg, g, h, i))
    ensures Arm2Resolved in Step(cfg, g, h.s, i).out ==>
      cfg.dual && i.Tick? && ShouldTrack(cfg, g, h.s, i.now)
      && (cfg.leadFirst ==> LockJustified(cfg, Next(cfg, g, h, i).ticks))
    ensures i.Tick? && Step(cfg, g, h.s, i).s.right.target != h.s.right.target ==> Arm2Resolved in Step(cfg, g, h.s, i).out
  {
    hide OnTick, AtHome, Servos, ShouldTrack, LockJustified, TargetsInRange;
    if i.Tick? && h.s.home.joints && h.s.control != Trajectory {
      TickArm2(cfg, g, h.s, i);
      var t := TickInfo(ShouldTrack(cfg, g, h.s, i.now), PointingError(g, h.s));
      if t.usable && (LockJustified(cfg, h.ticks) || t.error <= cfg.leadTolerance) {
        LockContinues(cfg, h.ticks, t);
      }
    } else if i.Tick? {
      IdleTick(cfg, g, h.s, i);
    }
  }

  lemma IdleTick(cfg: Config, g: Geometry, s: Tracker, t: Input)
    requires t.Tick? && (!s.home.joints || s.control == Trajectory)
    ensures OnTick(cfg, g, s, t) == Stepped(s, [])
  {
  }

  // ----- fresh directions -----

  /** A direction used in a session was heard in that session. */
  predicate HeardOk(h: History) {
    h.s.control == Tracking && h.s.goal.have ==> h.heard != [] && h.s.goal.at == h.heard[|h.heard| - 1]
  }

  lemma TickDirection(cfg: Config, g: Geometry, s: Tracker, t: Input)
    requires t.Tick?
    ensures OnTick(cfg, g, s, t).s.control == Tracking ==> s.control == Tracking
  {
    hide Aim, Drive, ShouldTrack, Available, FallenBehind, SameBackground;
    if s.home.joints && s.control != Trajectory {
      var a := CheckLag(cfg, g, s).s;
      var b := Aim(cfg, g, a, ShouldTrack(cfg, g, s, t.now), t.aim, t.aimRight).s;
      AimFacts(cfg, g, a, ShouldTrack(cfg, g, s, t.now), t.aim, t.aimRight);
      DriveFacts(cfg, b, Available(cfg, s, t.now), t.motion, t.motionRight);
    }
  }

  lemma JointsFacts(cfg: Config, g: Geometry, s: Tracker, l: Option<Joints>, r: Option<Joints>)
    ensures var s' := OnJoints(cfg, g, s, l, r);
      && s'.control == s.control && s'.owner == s.owner && s'.goal.have == s.goal.have
      && s'.goal.at == s.goal.at && s'.lead.started == s.lead.started
  {
    hide AtHome;
  }

  lemma HomeFacts(s: Tracker, subscribed: bool)
    ensures var s' := OnHome(s, subscribed).s;
      s'.control == s.control && s'.owner == s.owner && (s'.goal.have ==> s.goal.have) && s'.goal.at == s.goal.at
  {
  }

  lemma EnableFacts(cfg: Config, s: Tracker, switch: Switch)
    ensures var s', begins := OnEnable(cfg, s, switch).s, MayTrack(cfg, s) && switch == Switched;
      && s'.control == (if begins then Tracking else s.control) && (begins ==> !s'.goal.have)
      && (s'.goal.have ==> s.goal.have) && s'.goal.at == s.goal.at
  {
    hide MayTrack;
  }

  lemma DisableFacts(cfg: Config, s: Tracker)
    ensures var s' := OnDisable(cfg, s).s;
      && s'.control == (if s.control == Tracking then Stopping else s.control) && s'.owner == s.owner
      && (s'.goal.have ==> s.goal.have) && s'.goal.at == s.goal.at
  {
  }

  lemma NextHears(cfg: Config, g: Geometry, h: History, i: Input)
    requires HeardOk(h)
    ensures HeardOk(Next(cfg, g, h, i))
  {
    hide OnTick, OnJoints, OnHome, OnEnable, OnDisable, Servos, ShouldTrack, PointingError;
    match i
    case JointState(l, r) => JointsFacts(cfg, g, h.s, l, r);
    case HomeRequest(subscribed) => HomeFacts(h.s, subscribed);
    case SetTracking(enable, switch) => EnableFacts(cfg, h.s, switch); DisableFacts(cfg, h.s);
    case Direction(toward, smoothed, at) =>
    case Veto(on) =>
    case Tick(_, _, _, _, _, _) =>
      TickDirection(cfg, g, h.s, i);
      TickFacts(cfg, g, h.s, i);
  }

  /** A tick only works towards a direction that is no older than the timeout. */
  lemma TrackedDirectionIsFresh(cfg: Config, g: Geometry, h: History, now: real)
    requires HeardOk(h) && ShouldTrack(cfg, g, h.s, now)
    ensures h.heard != [] && now - h.heard[|h.heard| - 1] <= cfg.targetTimeout
  {
  }

  // ----- outputs in order -----

  /** What a watcher of the outputs knows: a pending start, the control state, the joints' owner. */
  datatype Monitor = Monitor(pending: bool, control: Control, owner: Owner)

  function Successor(c: Control): Control {
    match c
    case Trajectory => Tracking
    case Tracking => Stopping
    case Stopping => Trajectory
  }

  function Move(m: Monitor, o: Output): Monitor {
    match o
    case Arm2Started => m.(pending := true)
    case Arm2Reset => m.(pending := false)
    case Entered(c) => m.(control := c)
    case OwnerIs(w) => m.(owner := w)
    case _ => m
  }

  /**
    Arm 2 is not reported to start twice without a reset, the control states follow each other in
    a cycle, and (strictly) home trajectories and servo commands go to the owner of the joints.
   */
  predicate Accepts(strict: bool, m: Monitor, o: Output) {
    match o
    case Arm2Started => !m.pending
    case Entered(c) => c == Successor(m.control)
    case HomeTrajectory => strict ==> m.owner == TrajectoryController && m.control == Trajectory
    case Servo(_, _) => strict ==> m.owner == TrackingController
    case _ => true
  }

  function Watch(m: Monitor, out: seq<Output>): Monitor {
    if out == [] then m else Move(Watch(m, out[..|out| - 1]), out[|out| - 1])
  }

  predicate AllAccepted(strict: bool, m: Monitor, out: seq<Output>) {
    out == [] ||
    (AllAccepted(strict, m, out[..|out| - 1]) && Accepts(strict, Watch(m, out[..|out| - 1]), out[|out| - 1]))
  }

  /** One stage of a step, from what the watcher knew before to what it knows after. */
  predicate Stage(strict: bool, out: seq<Output>, before: Monitor, after: Monitor) {
    AllAccepted(strict, before, out) && Watch(before, out) == after
  }

  lemma {:induction false} StageConcat(strict: bool, a: seq<Output>, b: seq<Output>, x: Monitor, y: Monitor, z: Monitor)
    requires Stage(strict, a, x, y) && Stage(strict, b, y, z)
    ensures Stage(strict, a + b, x, z)
  {
    if b == [] {
      assert a + b == a;
    } else {
      var n := |b| - 1;
      StageConcat(strict, a, b[..n], x, y, Watch(y, b[..n]));
      assert (a + b)[..|a + b| - 1] == a + b[..n];
    }
  }

  lemma Stage0(strict: bool, x: Monitor)
    ensures Stage(strict, [], x, x)
  {
  }

  lemma Stage1(strict: bool, o: Output, x: Monitor)
    requires Accepts(strict, x, o)
    ensures Stage(strict, [o], x, Move(x, o))
  {
    var s := [o];
    assert s[..|s| - 1] == [] && s[|s| - 1] == o;
    assert AllAccepted(strict, x, s[..|s| - 1]) && Watch(x, s[..|s| - 1]) == x;
  }

  lemma Stage2(strict: bool, o: Output, p: Output, x: Monitor)
    requires Accepts(strict, x, o) && Accepts(strict, Move(x, o), p)
    ensures Stage(strict, [o, p], x, Move(Move(x, o), p))
  {
    Stage1(strict, o, x);
    Stage1(strict, p, Move(x, o));
    StageConcat(strict, [o], [p], x, Move(x, o), Move(Move(x, o), p));
    assert [o] + [p] == [o, p];
  }

  /** A step with more outputs than one stage lemma covers. */
  lemma Stage3(strict: bool, o: Output, p: Output, q: Output, x: Monitor)
    requires Accepts(strict, x, o) && Accepts(strict, Move(x, o), p) && Accepts(strict, Move(Move(x, o), p), q)
    ensures Stage(strict, [o, p, q], x, Move(Move(Move(x, o), p), q))
  {
    var y := Move(Move(x, o), p);
    Stage2(strict, o, p, x);
    Stage1(strict, q, y);
    StageConcat(strict, [o, p], [q], x, y, Move(y, q));
    assert [o, p] + [q] == [o, p, q];
  }

  function View(s: Tracker): Monitor {
    Monitor(s.lead.started, s.control, s.owner)
  }

  /** The trajectory controller owns the joints exactly in the Trajectory state. */
  predicate Owned(s: Tracker) {
    s.owner == TrajectoryController <==> s.control == Trajectory
  }

  /** A home trajectory or a servo command. */
  predicate Sends(out: seq<Output>) {
    exists o :: o in out && (o.HomeTrajectory? || o.Servo?)
  }

  lemma SendsConcat(a: seq<Output>, b: seq<Output>)
    ensures Sends(a + b) <==> Sends(a) || Sends(b)
  {
    if Sends(a + b) {
      var o :| o in a + b && (o.HomeTrajectory? || o.Servo?);
      assert o in a || o in b;
    }
    if Sends(a) {
      var o :| o in a && (o.HomeTrajectory? || o.Servo?);
      assert o in a + b;
    }
    if Sends(b) {
      var o :| o in b && (o.HomeTrajectory? || o.Servo?);
      assert o in a + b;
    }
  }

  /**
    A home trajectory or a servo command is sent from a state in which the joints do not belong to
    whom the node thinks.  What it sends when it begins to track follows a switch that has succeeded.
   */
  predicate Misdirects(cfg: Config, g: Geometry, s: Tracker, i: Input) {
    !Owned(s) && !i.SetTracking? && Sends(Step(cfg, g, s, i).out)
  }

  lemma HomeStage(strict: bool, s: Tracker, subscribed: bool)
    requires strict ==> Owned(s) || !Sends(OnHome(s, subscribed).out)
    ensures Stage(strict, OnHome(s, subscribed).out, View(s), View(OnHome(s, subscribed).s))
  {
    var x := View(s);
    Stage0(strict, x);
    Stage1(strict, Arm2Reset, x);
    if s.home.joints && s.control == Trajectory && subscribed {
      assert HomeTrajectory in [Arm2Reset, HomeTrajectory];
      assert OnHome(s, subscribed).out == [Arm2Reset, HomeTrajectory];
      Stage2(strict, Arm2Reset, HomeTrajectory, x);
    }
  }

  lemma EnableStage(strict: bool, cfg: Config, s: Tracker, switch: Switch)
    ensures var r := OnEnable(cfg, s, switch); Stage(strict, r.out, View(s), View(r.s))
  {
    var x := View(s);
    if MayTrack(cfg, s) {
      var w := OwnerIs(AfterSwitch(s.owner, TrackingController, switch));
      Stage2(strict, Arm2Reset, w, x);
      if switch == Switched {
        var y := Move(Move(x, Arm2Reset), w);
        var v := Servo(s.left.current, s.right.current);
        Stage2(strict, v, Entered(Tracking), y);
        StageConcat(strict, [Arm2Reset, w], [v, Entered(Tracking)], x, y, Move(y, Entered(Tracking)));
        assert [Arm2Reset, w] + [v, Entered(Tracking)] == [Arm2Reset, w, v, Entered(Tracking)];
      }
    } else {
      Stage0(strict, x);
    }
  }

  lemma DisableStage(strict: bool, cfg: Config, s: Tracker)
    ensures var r := OnDisable(cfg, s); Stage(strict, r.out, View(s), View(r.s))
  {
    Stage0(strict, View(s));
    if s.control == Tracking {
      Stage2(strict, Entered(Stopping), Arm2Reset, View(s));
    }
  }

  lemma CheckLagStage(strict: bool, cfg: Config, g: Geometry, s: Tracker)
    ensures var r := CheckLag(cfg, g, s); Stage(strict, r.out, View(s), View(r.s)) && !Sends(r.out)
  {
    hide FallenBehind;
    Stage0(strict, View(s));
    if s.control == Tracking {
      Stage1(strict, Entered(Stopping), View(s));
    }
  }

  lemma CoordinateStage(strict: bool, cfg: Config, g: Geometry, s: Tracker, aimRight: Joints)
    ensures var r := Coordinate(cfg, g, s, aimRight); Stage(strict, r.out, View(s), View(r.s)) && !Sends(r.out)
  {
    hide Arm.Moves, PointingError, Stage;
    Stage1(strict, Arm2Resolved, View(s));
    Stage1(strict, Arm2Reset, View(s));
  }

  lemma AimStage(strict: bool, cfg: Config, g: Geometry, s: Tracker, should: bool, aim: Joints, aimRight: Joints)
    ensures var r := Aim(cfg, g, s, should, aim, aimRight); Stage(strict, r.out, View(s), View(r.s)) && !Sends(r.out)
  {
    hide Coordinate, Stage, AllAccepted, Watch;
    var x := View(s);
    if should {
      var s' := s.(left := s.left.Aimed(cfg, g, aim));
      var moves := s.left.Moves(cfg, g, aim);
      var out := if moves then [TargetUpdated] else [];
      hide Arm.Aimed, Arm.Moves;
      assert Stage(strict, out, x, x) by {
        if moves {
          Stage1(strict, TargetUpdated, x);
        } else {
          Stage0(strict, x);
        }
      }
      if cfg.dual {
        var c := Coordinate(cfg, g, s', aimRight);
        CoordinateStage(strict, cfg, g, s', aimRight);
        StageConcat(strict, out, c.out, x, x, View(c.s));
        SendsConcat(out, c.out);
      }
    } else if cfg.dual {
      Stage1(strict, Arm2Reset, x);
    } else {
      Stage0(strict, x);
    }
  }

  lemma DriveStage(strict: bool, cfg: Config, s: Tracker, available: bool, m: Motion, m': Motion)
    requires strict ==> s.owner == TrackingController || !Sends(Drive(cfg, s, available, m, m').out)
    ensures var r := Drive(cfg, s, available, m, m'); Stage(strict, r.out, View(s), View(r.s))
  {
    hide Stage;
    var r, x := Drive(cfg, s, available, m, m'), View(s);
    Stage0(strict, x);
    if r.out != [] {
      var v := Servo(r.s.left.command, r.s.right.command);
      assert v in r.out;
      Stage1(strict, v, x);
      if cfg.dual && Starts(s, available, m') {
        Stage2(strict, Arm2Started, v, x);
        assert r.out == [Arm2Started] + [v] == [Arm2Started, v];
      } else {
        assert r.out == [v];
      }
    }
  }

  lemma RestoreStage(strict: bool, cfg: Config, s: Tracker, m: Motion, m': Motion, result: Switch)
    ensures var r := Restore(cfg, s, m, m', result); Stage(strict, r.out, View(s), View(r.s)) && !Sends(r.out)
  {
    var r := Restore(cfg, s, m, m', result);
    var x, w := View(s), OwnerIs(AfterSwitch(s.owner, TrajectoryController, result));
    if r.out == [] {
      Stage0(strict, x);
    } else if result != Switched {
      Stage1(strict, w, x);
    } else {
      Stage3(strict, w, Entered(Trajectory), Arm2Reset, x);
    }
  }

  /** The stages of a tick that does anything. */
  datatype Stages = Stages(a: Stepped, b: Stepped, c: Stepped, d: Stepped)

  function StagesOf(cfg: Config, g: Geometry, s: Tracker, t: Input): Stages
    requires t.Tick?
  {
    var a := CheckLag(cfg, g, s);
    var b := Aim(cfg, g, a.s, ShouldTrack(cfg, g, s, t.now), t.aim, t.aimRight);
    var c := Drive(cfg, b.s, Available(cfg, s, t.now), t.motion, t.motionRight);
    Stages(a, b, c, Restore(cfg, c.s, t.motion, t.motionRight, t.restore))
  }

  lemma TickIsStages(cfg: Config, g: Geometry, s: Tracker, t: Input)
    requires t.Tick?
    ensures var r, v := OnTick(cfg, g, s, t), StagesOf(cfg, g, s, t);
      r == if s.home.joints && s.control != Trajectory then Stepped(v.d.s, v.a.out + v.b.out + v.c.out + v.d.out)
           else Stepped(s, [])
  {
    hide CheckLag, Aim, Drive, Restore, ShouldTrack, Available;
  }

  /** The lag check and the aim send nothing and leave the owner alone; neither does the restoring send. */
  lemma StagesFacts(strict: bool, cfg: Config, g: Geometry, s: Tracker, t: Input)
    requires t.Tick?
    ensures var v := StagesOf(cfg, g, s, t);
      && Stage(strict, v.a.out, View(s), View(v.a.s)) && Stage(strict, v.b.out, View(v.a.s), View(v.b.s))
      && Stage(strict, v.d.out, View(v.c.s), View(v.d.s))
      && !Sends(v.a.out) && !Sends(v.b.out) && !Sends(v.d.out) && v.b.s.owner == s.owner
      && ((strict ==> s.owner == TrackingController || !Sends(v.c.out)) ==>
            Stage(strict, v.c.out, View(v.b.s), View(v.c.s)))
  {
    hide CheckLag, Aim, Drive, Restore, ShouldTrack, Available, FallenBehind, Stage, SameBackground, Sends;
    var v := StagesOf(cfg, g, s, t);
    CheckLagFacts(cfg, g, s);
    CheckLagStage(strict, cfg, g, s);
    AimFacts(cfg, g, v.a.s, ShouldTrack(cfg, g, s, t.now), t.aim, t.aimRight);
    AimStage(strict, cfg, g, v.a.s, ShouldTrack(cfg, g, s, t.now), t.aim, t.aimRight);
    if strict ==> s.owner == TrackingController || !Sends(v.c.out) {
      DriveStage(strict, cfg, v.b.s, Available(cfg, s, t.now), t.motion, t.motionRight);
    }
    RestoreStage(strict, cfg, v.c.s, t.motion, t.motionRight, t.restore);
  }

  lemma TickStage(strict: bool, cfg: Config, g: Geometry, s: Tracker, t: Input)
    requires t.Tick? && (strict ==> Owned(s) || !Sends(OnTick(cfg, g, s, t).out))
    ensures var r := OnTick(cfg, g, s, t); Stage(strict, r.out, View(s), View(r.s))
  {
    hide OnTick, StagesOf, Stage, Sends;
    TickIsStages(cfg, g, s, t);
    if s.home.joints && s.control != Trajectory {
      var v := StagesOf(cfg, g, s, t);
      SendsConcat(v.a.out + v.b.out + v.c.out, v.d.out);
      SendsConcat(v.a.out + v.b.out, v.c.out);
      StagesFacts(strict, cfg, g, s, t);
      StageConcat(strict, v.a.out, v.b.out, View(s), View(v.a.s), View(v.b.s));
      StageConcat(strict, v.a.out + v.b.out, v.c.out, View(s), View(v.b.s), View(v.c.s));
      StageConcat(strict, v.a.out + v.b.out + v.c.out, v.d.out, View(s), View(v.c.s), View(v.d.s));
    } else {
      Stage0(strict, View(s));
    }
  }

  /** No switch took effect after the node had given up on it. */
  predicate Honest(i: Input) {
    (i.SetTracking? ==> i.switch != TimedOut(true)) && (i.Tick? ==> i.restore != TimedOut(true))
  }

  lemma StepStage(strict: bool, cfg: Config, g: Geometry, s: Tracker, i: Input)
    requires strict ==> !Misdirects(cfg, g, s, i)
    ensures var r := Step(cfg, g, s, i); Stage(strict, r.out, View(s), View(r.s)) && (Owned(s) && Honest(i) ==> Owned(r.s))
  {
    OwnershipCondition(cfg, g, s, i);
    StepOutputs(strict, cfg, g, s, i);
  }

  lemma StepOutputs(strict: bool, cfg: Config, g: Geometry, s: Tracker, i: Input)
    requires strict ==> !Misdirects(cfg, g, s, i)
    ensures var r := Step(cfg, g, s, i); Stage(strict, r.out, View(s), View(r.s))
  {
    hide OnTick, OnJoints, OnHome, OnEnable, OnDisable, Stage;
    match i
    case JointState(l, r) => JointsFacts(cfg, g, s, l, r); Stage0(strict, View(s));
    case HomeRequest(subscribed) => HomeStage(strict, s, subscribed);
    case SetTracking(enable, switch) =>
      if enable {
        EnableStage(strict, cfg, s, switch);
      } else {
        DisableStage(strict, cfg, s);
      }
    case Direction(toward, smoothed, at) => Stage0(strict, View(s));
    case Veto(on) => Stage0(strict, View(s));
    case Tick(_, _, _, _, _, _) => TickStage(strict, cfg, g, s, i);
  }

  // ----- whole runs -----

  const ASLEEP := Monitor(false, Trajectory, TrajectoryController)

  /**
    Over every run from the initial state: sessions rest on a reached home and targets in range,
    every servo command of a session keeps the pose it began with, Arm 2 follows a justified lock,
    directions are of this session, starts alternate with resets, and the control states cycle.
   */
  lemma {:induction false} TrackerRuns(cfg: Config, g: Geometry, s: Tracker, inputs: seq<Input>)
    requires Initial(s) && LegalRun(cfg, g, s, inputs)
    ensures var h := Run(cfg, g, s, inputs);
      && SessionOk(cfg, h.s) && PoseOk(cfg, h) && LockOk(cfg, h) && HeardOk(h)
      && Stage(false, h.out, ASLEEP, View(h.s))
  {
    if inputs == [] {
      Stage0(false, ASLEEP);
    } else {
      var n := |inputs| - 1;
      TrackerRuns(cfg, g, s, inputs[..n]);
      var h, i := Run(cfg, g, s, inputs[..n]), inputs[n];
      var step := Step(cfg, g, h.s, i);
      StepKeepsSession(cfg, g, h.s, i);
      NextKeepsPose(cfg, g, h, i);
      Arm2FollowsLock(cfg, g, h, i);
      NextHears(cfg, g, h, i);
      StepStage(false, cfg, g, h.s, i);
      hide Step, SessionOk, PoseOk, LockOk, HeardOk, Stage, Legal, Begins, Servos, ShouldTrack, PointingError;
      StageConcat(false, h.out, step.out, ASLEEP, View(h.s), View(step.s));
    }
  }

  /** If every switch is honest, the outputs of the whole run go to the owner of the joints. */
  lemma {:induction false} CommandsReachTheOwner(cfg: Config, g: Geometry, s: Tracker, inputs: seq<Input>)
    requires Initial(s) && forall i :: i in inputs ==> Honest(i)
    ensures var h := Run(cfg, g, s, inputs); Owned(h.s) && Stage(true, h.out, ASLEEP, View(h.s))
  {
    if inputs == [] {
      Stage0(true, ASLEEP);
    } else {
      var n := |inputs| - 1;
      CommandsReachTheOwner(cfg, g, s, inputs[..n]);
      var h, i := Run(cfg, g, s, inputs[..n]), inputs[n];
      var step := Step(cfg, g, h.s, i);
      StepStage(true, cfg, g, h.s, i);
      hide Step, Stage, Begins, Servos, ShouldTrack, PointingError;
      StageConcat(true, h.out, step.out, ASLEEP, View(h.s), View(step.s));
    }
  }

  lemma {:induction false} AcceptedConcat(strict: bool, a: seq<Output>, b: seq<Output>, x: Monitor)
    ensures Watch(x, a + b) == Watch(Watch(x, a), b)
    ensures AllAccepted(strict, x, a + b) <==> AllAccepted(strict, x, a) && AllAccepted(strict, Watch(x, a), b)
  {
    if b == [] {
      assert a + b == a;
    } else {
      var n := |b| - 1;
      AcceptedConcat(strict, a, b[..n], x);
      assert (a + b)[..|a + b| - 1] == a + b[..n];
    }
  }

  /** What a step sends from a state with another owner is not accepted. */
  lemma MisdirectedIsRejected(cfg: Config, g: Geometry, s: Tracker, i: Input)
    requires Misdirects(cfg, g, s, i)
    ensures !AllAccepted(true, View(s), Step(cfg, g, s, i).out)
  {
    hide OnTick, OnJoints, OnHome, OnEnable, OnDisable;
    match i
    case HomeRequest(subscribed) => HomeIsRejected(s, subscribed);
    case Tick(_, _, _, _, _, _) => TickIsRejected(cfg, g, s, i);
    case _ =>
  }

  lemma HomeIsRejected(s: Tracker, subscribed: bool)
    requires !Owned(s) && Sends(OnHome(s, subscribed).out)
    ensures !AllAccepted(true, View(s), OnHome(s, subscribed).out)
  {
    var out := OnHome(s, subscribed).out;
    assert out == [Arm2Reset, HomeTrajectory];
    assert out[..1] == [Arm2Reset] && out[..1][..0] == [];
    assert Watch(View(s), out[..1]).owner == s.owner;
  }

  lemma TickIsRejected(cfg: Config, g: Geometry, s: Tracker, t: Input)
    requires t.Tick? && !Owned(s) && Sends(OnTick(cfg, g, s, t).out)
    ensures !AllAccepted(true, View(s), OnTick(cfg, g, s, t).out)
  {
    hide OnTick, StagesOf, Sends, AllAccepted, Watch;
    var v := StagesOf(cfg, g, s, t);
    TickIsStages(cfg, g, s, t);
    NothingSent();
    StagesFacts(false, cfg, g, s, t);
    SendsConcat(v.a.out + v.b.out + v.c.out, v.d.out);
    SendsConcat(v.a.out + v.b.out, v.c.out);
    SendsConcat(v.a.out, v.b.out);
    AcceptedConcat(true, v.a.out + v.b.out + v.c.out, v.d.out, View(s));
    AcceptedConcat(true, v.a.out + v.b.out, v.c.out, View(s));
    AcceptedConcat(true, v.a.out, v.b.out, View(s));
    DriveIsRejected(cfg, g, s, t);
  }

  lemma NothingSent()
    ensures !Sends([])
  {
  }

  lemma DriveIsRejected(cfg: Config, g: Geometry, s: Tracker, t: Input)
    requires t.Tick? && s.owner != TrackingController && Sends(StagesOf(cfg, g, s, t).c.out)
    ensures var v := StagesOf(cfg, g, s, t); !AllAccepted(true, View(v.b.s), v.c.out)
    ensures var v := StagesOf(cfg, g, s, t); Watch(Watch(View(s), v.a.out), v.b.out) == View(v.b.s)
  {
    var v := StagesOf(cfg, g, s, t);
    StagesFacts(false, cfg, g, s, t);
    StageWatches(v.a.out, View(s), View(v.a.s));
    StageWatches(v.b.out, View(v.a.s), View(v.b.s));
    hide CheckLag, Aim, Restore, ShouldTrack, Available, Drive, Watch, AllAccepted, Stage, Sends;
    ServoIsRejected(cfg, v.b.s, Available(cfg, s, t.now), t.motion, t.motionRight);
  }

  lemma ServoIsRejected(cfg: Config, s: Tracker, available: bool, m: Motion, m': Motion)
    requires s.owner != TrackingController && Sends(Drive(cfg, s, available, m, m').out)
    ensures !AllAccepted(true, View(s), Drive(cfg, s, available, m, m').out)
  {
    var out := Drive(cfg, s, available, m, m').out;
    assert out != [];
    var n := |out| - 1;
    assert out[n].Servo? && (out[..n] == [] || out[..n] == [Arm2Started]);
    hide Drive;
    assert [Arm2Started][..0] == [];
    assert Watch(View(s), out[..n]).owner == s.owner;
  }

  /** Whatever has happened, what was sent has been accepted up to the present view. */
  lemma {:induction false} RunWatched(cfg: Config, g: Geometry, s: Tracker, inputs: seq<Input>)
    requires Initial(s)
    ensures var h := Run(cfg, g, s, inputs); Watch(ASLEEP, h.out) == View(h.s)
  {
    hide Step, Stage, Run;
    if inputs == [] {
      RunEmpty(cfg, g, s);
    } else {
      var n := |inputs| - 1;
      RunWatched(cfg, g, s, inputs[..n]);
      RunLast(cfg, g, s, inputs);
      var h := Run(cfg, g, s, inputs[..n]);
      StepStage(false, cfg, g, h.s, inputs[n]);
      StageWatches(Step(cfg, g, h.s, inputs[n]).out, View(h.s), View(Step(cfg, g, h.s, inputs[n]).s));
      AcceptedConcat(false, h.out, Step(cfg, g, h.s, inputs[n]).out, ASLEEP);
    }
  }

  lemma StageWatches(out: seq<Output>, x: Monitor, y: Monitor)
    requires Stage(false, out, x, y)
    ensures Watch(x, out) == y
  {
  }

  /**
    Exactly when all commands of a run reach the owner of the joints: if and only if no home trajectory
    and no servo command is sent from a state that a late switch has left with another owner.
   */
  lemma {:induction false} CommandsReachTheOwnerIff(cfg: Config, g: Geometry, s: Tracker, inputs: seq<Input>)
    requires Initial(s)
    ensures AllAccepted(true, ASLEEP, Run(cfg, g, s, inputs).out)
       <==> forall k :: 0 <= k < |inputs| ==> !Misdirects(cfg, g, Run(cfg, g, s, inputs[..k]).s, inputs[k])
  {
    hide Step, Stage, Run, Misdirects;
    if inputs == [] {
      RunEmpty(cfg, g, s);
    } else {
      var n := |inputs| - 1;
      var init := inputs[..n];
      CommandsReachTheOwnerIff(cfg, g, s, init);
      RunLast(cfg, g, s, inputs);
      RunWatched(cfg, g, s, init);
      var h := Run(cfg, g, s, init);
      AcceptedConcat(true, h.out, Step(cfg, g, h.s, inputs[n]).out, ASLEEP);
      StepAcceptedIff(cfg, g, h.s, inputs[n]);
      forall k | 0 <= k < n
        ensures init[..k] == inputs[..k] && init[k] == inputs[k]
      {
      }
    }
  }

  lemma StepAcceptedIff(cfg: Config, g: Geometry, s: Tracker, i: Input)
    ensures AllAccepted(true, View(s), Step(cfg, g, s, i).out) <==> !Misdirects(cfg, g, s, i)
  {
    hide Step, Misdirects;
    if Misdirects(cfg, g, s, i) {
      MisdirectedIsRejected(cfg, g, s, i);
    } else {
      StepOutputs(true, cfg, g, s, i);
    }
  }

  /**
    The node homes, is asked to track, gives up on the switch, and the switch takes effect all the
    same: the trajectory for the next home request goes to a controller that no longer owns the joints.
   */
  lemma LateSwitchMisdirects(cfg: Config, g: Geometry, s: Tracker, inputs: seq<Input>)
    requires Initial(s) && Abs(g.wrap(0.0)) <= cfg.homeTolerance
    requires inputs == [JointState(Some(HOME), Some(HOME)), HomeRequest(true), JointState(Some(HOME), Some(HOME)),
                        SetTracking(true, TimedOut(true)), HomeRequest(true)]
    ensures var h := Run(cfg, g, s, inputs); !Owned(h.s) && !AllAccepted(true, ASLEEP, h.out)
  {
    hide AllAccepted, Watch, AtHome, Begins, Servos, ShouldTrack, OnTick, Run;
    AtHomeAtHome(cfg, g);
    assert inputs[..4][..3] == inputs[..3] && inputs[..3][..2] == inputs[..2] && inputs[..2][..1] == inputs[..1];
    RunEmpty(cfg, g, s);
    assert inputs[..1][..0] == [];
    RunLast(cfg, g, s, inputs[..1]);
    RunLast(cfg, g, s, inputs[..2]);
    RunLast(cfg, g, s, inputs[..3]);
    RunLast(cfg, g, s, inputs[..4]);
    RunLast(cfg, g, s, inputs);
    var h3 := Run(cfg, g, s, inputs[..3]);
    assert h3.s.control == Trajectory && h3.s.home.reached && h3.s.left.current == HOME;
    assert Run(cfg, g, s, inputs[..4]).out == h3.out + [Arm2Reset, OwnerIs(TrackingController)];
    LastCommandMisdirected(h3.out);
  }

  lemma RunEmpty(cfg: Config, g: Geometry, s: Tracker)
    ensures Run(cfg, g, s, []) == Start(s)
  {
  }

  lemma RunLast(cfg: Config, g: Geometry, s: Tracker, inputs: seq<Input>)
    requires inputs != []
    ensures var h, i := Run(cfg, g, s, inputs[..|inputs| - 1]), inputs[|inputs| - 1];
      var h', step := Run(cfg, g, s, inputs), Step(cfg, g, h.s, i);
      h'.s == step.s && h'.out == h.out + step.out
  {
    hide Step, Begins, Servos, ShouldTrack;
  }

  lemma AtHomeAtHome(cfg: Config, g: Geometry)
    requires Abs(g.wrap(0.0)) <= cfg.homeTolerance
    ensures AtHome(cfg, g, HOME)
  {
  }

  lemma LastCommandMisdirected(out: seq<Output>)
    ensures !AllAccepted(true, ASLEEP, (out + [Arm2Reset, OwnerIs(TrackingController)]) + [Arm2Reset, HomeTrajectory])
  {
    var taken := out + [Arm2Reset, OwnerIs(TrackingController)];
    var all := taken + [Arm2Reset, HomeTrajectory];
    assert taken[..|taken| - 1] == out + [Arm2Reset];
    assert all[..|all| - 1] == taken + [Arm2Reset] && (taken + [Arm2Reset])[..|taken|] == taken;
    assert Watch(ASLEEP, taken).owner == TrackingController;
    assert Watch(ASLEEP, taken + [Arm2Reset]).owner == TrackingController;
  }

  /** Whether the step asks the controller manager for a switch. */
  predicate Attempts(cfg: Config, g: Geometry, s: Tracker, i: Input) {
    || (i.SetTracking? && i.enable && MayTrack(cfg, s))
    || (i.Tick? && s.home.joints && CheckLag(cfg, g, s).s.control == Stopping
        && i.motion.status == Finished && (cfg.dual ==> i.motionRight.status == Finished))
  }

  lemma TickOwner(cfg: Config, g: Geometry, s: Tracker, t: Input)
    requires t.Tick?
    ensures var r, attempts := OnTick(cfg, g, s, t).s, Attempts(cfg, g, s, t);
      && r.owner == (if attempts then AfterSwitch(s.owner, TrajectoryController, t.restore) else s.owner)
      && (r.control == Trajectory <==> s.control == Trajectory || (attempts && t.restore == Switched))
      && (attempts ==> s.control != Trajectory)
  {
    hide CheckLag, Aim, Drive, ShouldTrack, Available, FallenBehind, SameBackground;
    CheckLagFacts(cfg, g, s);
    if s.home.joints && s.control != Trajectory {
      var a := CheckLag(cfg, g, s).s;
      var b := Aim(cfg, g, a, ShouldTrack(cfg, g, s, t.now), t.aim, t.aimRight).s;
      AimFacts(cfg, g, a, ShouldTrack(cfg, g, s, t.now), t.aim, t.aimRight);
      DriveFacts(cfg, b, Available(cfg, s, t.now), t.motion, t.motionRight);
    }
  }

  /** A step loses track of the joints' owner exactly if it gives up on a switch that takes effect. */
  lemma OwnershipCondition(cfg: Config, g: Geometry, s: Tracker, i: Input)
    ensures Owned(s) ==> (Owned(Step(cfg, g, s, i).s) <==> !(Attempts(cfg, g, s, i) && !Honest(i)))
  {
    hide OnTick, OnJoints, OnHome, OnEnable, OnDisable, MayTrack, CheckLag;
    match i
    case JointState(l, r) => JointsFacts(cfg, g, s, l, r);
    case HomeRequest(subscribed) => HomeFacts(s, subscribed);
    case SetTracking(enable, switch) =>
      EnableOwner(cfg, s, switch);
      DisableFacts(cfg, s);
    case Direction(toward, smoothed, at) =>
    case Veto(on) =>
    case Tick(_, _, _, _, _, _) => TickOwner(cfg, g, s, i);
  }

  lemma EnableOwner(cfg: Config, s: Tracker, switch: Switch)
    ensures var s' := OnEnable(cfg, s, switch).s;
      && s'.owner == (if MayTrack(cfg, s) then AfterSwitch(s.owner, TrackingController, switch) else s.owner)
      && s'.control == (if MayTrack(cfg, s) && switch == Switched then Tracking else s.control)
      && (MayTrack(cfg, s) ==> s.control == Trajectory)
  {
  }

  /** Between two reports that Arm 2 started there is a reset, on every run. */
  lemma {:induction false} ResetBetweenStarts(m: Monitor, out: seq<Output>, i: nat, j: nat)
    requires AllAccepted(false, m, out) && i < j < |out| && out[i] == Arm2Started && out[j] == Arm2Started
    ensures exists k :: i < k < j && out[k] == Arm2Reset
  {
    var n := |out| - 1;
    if j < n {
      ResetBetweenStarts(m, out[..n], i, j);
    } else {
      NotPending(m, out[..n], i);
    }
  }

  lemma {:induction false} NotPending(m: Monitor, out: seq<Output>, i: nat)
    requires !Watch(m, out).pending && i < |out| && out[i] == Arm2Started
    ensures exists k :: i < k < |out| && out[k] == Arm2Reset
  {
    var n := |out| - 1;
    if out[n] != Arm2Reset {
      NotPending(m, out[..n], i);
    }
  }

  // ----- without the homing requirement -----

  /** A pose that is home except for joint 2. */
  const NEARLY_HOME := HOME.(j2 := HOME.j2 + 1.0)

  /**
    Without the homing requirement, a session may begin while a home request is pending, and its
    pose changes as soon as the joints report home.
   */
  lemma PoseChangesMidSession(g: Geometry, s: Tracker)
    requires Initial(s) && Abs(g.wrap(0.0)) <= 0.035
    ensures var cfg := Config(false, false, true, 0.1, 0.75, 0.003, 0.5, 0.035);
      var begin := [JointState(Some(NEARLY_HOME), None), HomeRequest(true), SetTracking(true, Switched)];
      var h, h' := Run(cfg, g, s, begin), Run(cfg, g, s, begin + [JointState(Some(HOME), None)]);
      && h.s.control == Tracking && h'.s.control == Tracking
      && h.s.left.fixed == NEARLY_HOME && h'.s.left.fixed == HOME && !SamePose(HOME, NEARLY_HOME)
  {
    var cfg := Config(false, false, true, 0.1, 0.75, 0.003, 0.5, 0.035);
    var a, b, c, d := JointState(Some(NEARLY_HOME), None), HomeRequest(true), SetTracking(true, Switched), JointState(Some(HOME), None);
    hide Run, AtHome;
    assert [a, b, c, d][..3] == [a, b, c] && [a, b, c][..2] == [a, b] && [a, b][..1] == [a] && [a][..0] == [];
    assert [a, b, c] + [d] == [a, b, c, d];
    RunEmpty(cfg, g, s);
    RunLast(cfg, g, s, [a]);
    RunLast(cfg, g, s, [a, b]);
    RunLast(cfg, g, s, [a, b, c]);
    RunLast(cfg, g, s, [a, b, c, d]);
    AtHomeAtHome(cfg, g);
    NotRequested(cfg, g, s, NEARLY_HOME);
    var s2 := Run(cfg, g, s, [a, b]).s;
    assert s2.left.current == NEARLY_HOME && s2.left.fixed == NEARLY_HOME && s2.home.requested && MayTrack(cfg, s2);
  }

  /** The first report fixes the pose, whatever it is. */
  lemma NotRequested(cfg: Config, g: Geometry, s: Tracker, q: Joints)
    requires Initial(s) && !cfg.dual
    ensures var s' := OnJoints(cfg, g, s, Some(q), None);
      s'.left.current == q && s'.left.fixed == q && s'.home == Homing(true, false, false) && s'.control == Trajectory
  {
  }
}
