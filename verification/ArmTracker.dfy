/**
  The arm tracker node.  Its callbacks update fields in place; each is one step of the state
  machine, for some behaviour of Ruckig and of the controller manager.
 */
module ArmTracker {
  import opened Prelude
  import opened ArmSolve
  import opened ArmProtocol

  /** Ruckig's answer for one cycle. */
  method Cycle() returns (m: Motion) {
    m := *;
  }

  /** The controller manager's answer to a switch request. */
  method RequestSwitch() returns (result: Switch) {
    result := *;
  }

  class ArmTracker {
    const cfg: Config
    const g: Geometry
    var control: Control
    var left: Arm
    var right: Arm
    var leftLookup: seq<WristSample>
    var rightLookup: seq<WristSample>
    var home: Homing
    var goal: Goal
    var lead: Lead
    ghost var owner: Owner
    ghost var sent: seq<Output>

    ghost function State(): Tracker
      reads this
    {
      Tracker(control, owner, left, right, home, goal, lead)
    }

    ghost predicate Valid()
      reads this
    {
      home.joints ==> FullTable(leftLookup) && (cfg.dual ==> FullTable(rightLookup))
    }

    constructor (cfg: Config, g: Geometry)
      ensures Valid() && Initial(State()) && sent == [] && this.cfg == cfg && this.g == g
    {
      this.cfg, this.g := cfg, g;
      var rest := Joints(0.0, 0.0, 0.0, 0.0, 0.0, 0.0);
      left := Arm(rest, rest, rest, rest, false, rest);
      right := Arm(rest, rest, rest, rest, false, rest);
      leftLookup, rightLookup := [], [];
      control := Trajectory;
      home, goal, lead := Homing(false, false, false), Goal(false, false, Vec(1.0, 0.0, 0.0), 0.0), UNLOCKED;
      owner, sent := TrajectoryController, [];
    }

    /** None stands for a message that lacks one of the arm's joints. */
    method JointCallback(l: Option<Joints>, r: Option<Joints>)
      requires Valid()
      modifies this`left, this`right, this`leftLookup, this`rightLookup
      modifies this`home
      ensures Valid() && State() == OnJoints(cfg, g, old(State()), l, r)
    {
      hide AtHome, FullTable;
      if l.None? || (cfg.dual && r.None?) {
        return;
      }
      left := left.(current := l.value);
      if cfg.dual {
        right := right.(current := r.value);
      }
      if !home.joints {
        ConfigurePoses(l.value, if cfg.dual then r.value else l.value);
      }
      if home.requested && AtHome(cfg, g, l.value) && (cfg.dual ==> AtHome(cfg, g, r.value)) {
        home := home.(requested := false);
        home := home.(reached := true);
        ConfigurePoses(l.value, if cfg.dual then r.value else l.value);
      }
      home := home.(joints := true);
    }

    method ConfigurePoses(l: Joints, r: Joints)
      modifies this`left, this`right, this`leftLookup, this`rightLookup
      ensures left == old(left).(fixed := l) && right == if cfg.dual then old(right).(fixed := r) else old(right)
      ensures FullTable(leftLookup) && (cfg.dual ==> FullTable(rightLookup))
    {
      var fixed;
      fixed, leftLookup := ConfigureFixedPose(g, l);
      left := left.(fixed := fixed);
      if cfg.dual {
        fixed, rightLookup := ConfigureFixedPose(g, r);
        right := right.(fixed := fixed);
      }
    }

    method ResetArm2Start()
      modifies this`lead, this`sent
      ensures lead == old(lead).(following := false, started := false) && sent == old(sent) + [Arm2Reset]
    {
      lead := lead.(following := false, started := false);
      sent := sent + [Arm2Reset];
    }

    /** subscribed says whether the trajectory topic has a subscriber. */
    method RequestHome(subscribed: bool) returns (success: bool)
      requires Valid()
      modifies this`goal, this`home, this`lead, this`sent
      ensures Valid() && State() == OnHome(old(State()), subscribed).s
      ensures sent == old(sent) + OnHome(old(State()), subscribed).out
      ensures success <==> HomeTrajectory in OnHome(old(State()), subscribed).out
    {
      if !home.joints || control != Trajectory {
        assert sent == sent + [];
        return false;
      }
      goal := goal.(have := false);
      home := home.(requested := true);
      home := home.(reached := false);
      lead := lead.(locked := false);
      ResetArm2Start();
      if !subscribed {
        home := home.(requested := false);
        return false;
      }
      sent := sent + [HomeTrajectory];
      assert sent == old(sent) + [Arm2Reset, HomeTrajectory];
      return true;
    }

    method SwitchControllers(to: Owner) returns (result: Switch)
      modifies this`owner, this`sent
      ensures owner == AfterSwitch(old(owner), to, result) && sent == old(sent) + [OwnerIs(owner)]
    {
      result := RequestSwitch();
      owner := AfterSwitch(owner, to, result);
      sent := sent + [OwnerIs(owner)];
    }

    method StartTracking() returns (success: bool, ghost switch: Switch)
      requires Valid()
      modifies this
      ensures Valid() && State() == OnEnable(cfg, old(State()), switch).s
      ensures sent == old(sent) + OnEnable(cfg, old(State()), switch).out
      ensures success <==> control == Tracking
    {
      hide FullTable;
      switch := Refused;
      if control == Tracking {
        assert sent == sent + [];
        return true, switch;
      }
      if control == Stopping || !home.joints || (cfg.requireHome && !home.reached)
        || Abs(left.current.j4) > HALF_PI || (cfg.dual && Abs(right.current.j4) > HALF_PI) {
        assert sent == sent + [];
        return false, switch;
      }
      goal := goal.(have := false);
      lead := lead.(locked := false);
      ResetArm2Start();
      ConfigurePoses(left.current, right.current);
      left := left.Seeded();
      if cfg.dual {
        right := right.Seeded();
      }
      var result := SwitchControllers(TrackingController);
      switch := result;
      if result != Switched {
        assert sent == old(sent) + [Arm2Reset, OwnerIs(owner)];
        return false, switch;
      }
      sent := sent + [Servo(left.current, right.current), Entered(Tracking)];
      control := Tracking;
      assert sent == old(sent) + [Arm2Reset, OwnerIs(owner), Servo(left.current, right.current), Entered(Tracking)];
      return true, switch;
    }

    method StopTracking()
      requires Valid()
      modifies this`control, this`goal, this`lead, this`left, this`right, this`sent
      ensures Valid() && State() == OnDisable(cfg, old(State())).s
      ensures sent == old(sent) + OnDisable(cfg, old(State())).out
    {
      hide FullTable;
      if control != Tracking {
        assert sent == sent + [];
        return;
      }
      control := Stopping;
      sent := sent + [Entered(Stopping)];
      goal := goal.(have := false);
      lead := lead.(locked := false);
      ResetArm2Start();
      BeginVelocityStop();
      assert sent == old(sent) + [Entered(Stopping), Arm2Reset];
    }

    method BeginVelocityStop()
      modifies this`left, this`right
      ensures left == old(left).Resting()
      ensures right == if cfg.dual then old(right).Resting() else old(right)
    {
      left := left.Resting();
      if cfg.dual {
        right := right.Resting();
      }
    }

    /** smoothed is the blend of the present direction with the new one. */
    method DirectionCallback(toward: Vec, smoothed: Vec, at: real)
      requires Valid()
      modifies this`goal
      ensures Valid() && Stepped(State(), []) == Step(cfg, g, old(State()), Direction(toward, smoothed, at))
    {
      if !goal.have {
        goal := goal.(direction := toward);
        goal := goal.(have := true);
      } else {
        goal := goal.(direction := smoothed);
      }
      goal := goal.(at := at);
    }

    method ValidCallback(valid: bool)
      requires Valid()
      modifies this`goal
      ensures Valid() && Stepped(State(), []) == Step(cfg, g, old(State()), Veto(!valid))
    {
      goal := goal.(veto := !valid);
    }

    /** Stops tracking when an arm has fallen behind Ruckig. */
    method CheckTrackingError()
      requires Valid()
      modifies this`control, this`sent
      ensures Valid() && State() == CheckLag(cfg, g, old(State())).s
      ensures sent == old(sent) + CheckLag(cfg, g, old(State())).out
    {
      if control == Tracking && left.Lag(g) > cfg.maxTrackingError {
        control := Stopping;
        sent := sent + [Entered(Stopping)];
      }
      if cfg.dual && control == Tracking {
        if right.Lag(g) > cfg.maxTrackingError {
          control := Stopping;
          sent := sent + [Entered(Stopping)];
        }
      }
    }

    /** Arm 2 takes the target if the policy allows it. */
    method CoordinateArm2() returns (ghost aimRight: Joints)
      requires Valid() && home.joints && cfg.dual
      modifies this`lead, this`right, this`sent
      ensures Valid() && State() == Coordinate(cfg, g, old(State()), aimRight).s
      ensures sent == old(sent) + Coordinate(cfg, g, old(State()), aimRight).out
      ensures -HALF_PI <= aimRight.j4 <= HALF_PI && SamePose(aimRight, old(right).fixed)
    {
      hide FullTable, SamePose, NearOptimal, ServoUnimodal;
      aimRight := Posed(right.fixed, 0.0, 0.0);
      var shouldTrack := !cfg.leadFirst;
      if cfg.leadFirst {
        if (if goal.have then g.angle(g.normal(left.current), goal.direction) else 0.0) <= cfg.leadTolerance {
          lead := lead.(locked := true);
        }
        shouldTrack := lead.locked;
      }
      if shouldTrack {
        lead := lead.(following := true);
        sent := sent + [Arm2Resolved];
        aimRight := Retarget2();
      } else {
        right := right.Resting();
        ResetArm2Start();
      }
    }

    method Retarget2() returns (ghost aim: Joints)
      requires FullTable(rightLookup)
      modifies this`right
      ensures right == old(right).Aimed(cfg, g, aim)
      ensures -HALF_PI <= aim.j4 <= HALF_PI && SamePose(aim, old(right).fixed)
    {
      var candidate := Solve(g, right.position, goal.direction, right.fixed, rightLookup);
      aim := candidate;
      if g.angle(g.normal(candidate), g.normal(right.target)) >= cfg.deadband {
        right := right.(target := candidate);
      }
      right := right.(stopping := false);
    }

    method Retarget1() returns (ghost aim: Joints)
      requires FullTable(leftLookup)
      modifies this`left, this`sent
      ensures left == old(left).Aimed(cfg, g, aim)
      ensures sent == old(sent) + if old(left).Moves(cfg, g, aim) then [TargetUpdated] else []
      ensures -HALF_PI <= aim.j4 <= HALF_PI && SamePose(aim, old(left).fixed)
    {
      var candidate := Solve(g, left.position, goal.direction, left.fixed, leftLookup);
      aim := candidate;
      if g.angle(g.normal(candidate), g.normal(left.target)) >= cfg.deadband {
        left := left.(target := candidate);
        sent := sent + [TargetUpdated];
      }
      left := left.(stopping := false);
    }

    /** Sets the targets, or brings the arms to rest. */
    method SetTargets(should: bool) returns (ghost aim: Joints, ghost aimRight: Joints)
      requires Valid() && home.joints
      modifies this`lead, this`left, this`right, this`sent
      ensures Valid() && State() == Aim(cfg, g, old(State()), should, aim, aimRight).s
      ensures sent == old(sent) + Aim(cfg, g, old(State()), should, aim, aimRight).out
      ensures -HALF_PI <= aim.j4 <= HALF_PI && SamePose(aim, old(left).fixed)
      ensures cfg.dual ==> -HALF_PI <= aimRight.j4 <= HALF_PI && SamePose(aimRight, old(right).fixed)
    {
      hide FullTable, SamePose, Coordinate, Arm.Aimed, Arm.Moves;
      aim, aimRight := Posed(left.fixed, 0.0, 0.0), Posed(right.fixed, 0.0, 0.0);
      if should {
        aim := Retarget1();
        if cfg.dual {
          aimRight := CoordinateArm2();
        }
      } else {
        BeginVelocityStop();
        if cfg.dual {
          lead := lead.(locked := false);
          ResetArm2Start();
        }
      }
    }

    /** One Ruckig cycle for both arms, and the command. */
    method DriveArms(available: bool) returns (m: Motion, m': Motion)
      requires Valid()
      modifies this`left, this`right, this`lead, this`sent
      ensures Valid() && State() == Drive(cfg, old(State()), available, m, m').s
      ensures sent == old(sent) + Drive(cfg, old(State()), available, m, m').out
    {
      hide FullTable;
      m := Cycle();
      m' := m;
      if m.status == Error {
        assert sent == sent + [];
        return;
      }
      left := left.Driven(m.next);
      if cfg.dual {
        m' := Cycle();
        if m'.status == Error {
          assert sent == sent + [];
          return;
        }
        right := right.Driven(m'.next);
        if lead.following && !lead.started && available && (Abs(m'.v1) > 0.001 || Abs(m'.v4) > 0.001) {
          sent := sent + [Arm2Started];
          lead := lead.(started := true);
        }
      }
      sent := sent + [Servo(left.command, right.command)];
    }

    /** Hands the joints back once a stop has come to rest. */
    method FinishStop(m: Motion, m': Motion) returns (ghost result: Switch)
      requires Valid()
      modifies this`control, this`lead, this`owner, this`sent
      ensures Valid() && State() == Restore(cfg, old(State()), m, m', result).s
      ensures sent == old(sent) + Restore(cfg, old(State()), m, m', result).out
    {
      hide FullTable;
      result := Refused;
      if control != Stopping || m.status != Finished || (cfg.dual && m'.status != Finished) {
        assert sent == sent + [];
        return;
      }
      var answer := SwitchControllers(TrajectoryController);
      result := answer;
      if answer != Switched {
        return;
      }
      control := Trajectory;
      sent := sent + [Entered(Trajectory)];
      lead := lead.(locked := false);
      ResetArm2Start();
      assert sent == old(sent) + [OwnerIs(owner), Entered(Trajectory), Arm2Reset];
    }

    /** The timer callback; tick is what the environment contributed to it. */
    method Update(now: real) returns (ghost tick: Input)
      requires Valid()
      modifies this
      ensures Valid() && tick.Tick? && tick.now == now && Legal(cfg, old(State()), tick)
      ensures State() == OnTick(cfg, g, old(State()), tick).s
      ensures sent == old(sent) + OnTick(cfg, g, old(State()), tick).out
    {
      hide FullTable, SamePose, CheckLag, Aim, Drive, Restore, OnTick, ShouldTrack, PointingError, FallenBehind;
      ghost var aim, aimRight, result := Posed(left.fixed, 0.0, 0.0), Posed(right.fixed, 0.0, 0.0), Refused;
      ghost var still := Motion(Error, left.position, 0.0, 0.0);
      tick := Tick(now, aim, aimRight, still, still, Refused);
      if !home.joints {
        NothingOnTick(cfg, g, State(), tick);
        assert sent == sent + [];
        return;
      }
      var available := control == Tracking && !goal.veto && goal.have && now - goal.at <= cfg.targetTimeout;
      if control == Trajectory {
        NothingOnTick(cfg, g, State(), tick);
        assert sent == sent + [];
        return;
      }
      ghost var s0 := State();
      CheckTrackingError();
      ghost var s1 := State();
      var should := control == Tracking && available;
      StillTracking(cfg, g, s0, now);
      aim, aimRight := SetTargets(should);
      ghost var s2 := State();
      var m, m' := DriveArms(available);
      ghost var s3 := State();
      result := FinishStop(m, m');
      tick := Tick(now, aim, aimRight, m, m', result);
      StagesOfTick(cfg, g, s0, tick, s1, s2, s3);
    }
  }

  /** After the lag check the node is tracking exactly if it was and no arm has fallen behind. */
  lemma StillTracking(cfg: Config, g: Geometry, s: Tracker, now: real)
    ensures CheckLag(cfg, g, s).s.control == Tracking && Available(cfg, s, now) <==> ShouldTrack(cfg, g, s, now)
    ensures var r := CheckLag(cfg, g, s).s; r.left == s.left && r.right == s.right && r.home == s.home
  {
  }

  lemma NothingOnTick(cfg: Config, g: Geometry, s: Tracker, t: Input)
    requires t.Tick? && (!s.home.joints || s.control == Trajectory)
    ensures OnTick(cfg, g, s, t) == Stepped(s, [])
  {
  }

  lemma StagesOfTick(cfg: Config, g: Geometry, s: Tracker, t: Input, s1: Tracker, s2: Tracker, s3: Tracker)
    requires t.Tick? && s.home.joints && s.control != Trajectory && s1 == CheckLag(cfg, g, s).s
    requires s2 == Aim(cfg, g, s1, ShouldTrack(cfg, g, s, t.now), t.aim, t.aimRight).s
    requires s3 == Drive(cfg, s2, Available(cfg, s, t.now), t.motion, t.motionRight).s
    ensures OnTick(cfg, g, s, t).s == Restore(cfg, s3, t.motion, t.motionRight, t.restore).s
    ensures OnTick(cfg, g, s, t).out
         == CheckLag(cfg, g, s).out + Aim(cfg, g, s1, ShouldTrack(cfg, g, s, t.now), t.aim, t.aimRight).out
          + Drive(cfg, s2, Available(cfg, s, t.now), t.motion, t.motionRight).out
          + Restore(cfg, s3, t.motion, t.motionRight, t.restore).out
  {
    hide CheckLag, Aim, Drive, Restore, ShouldTrack, Available;
  }
}
