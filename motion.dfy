/** The motion layer of the environment: how move resolves its target pose from
    optional arguments, how traj_tracking_vel turns a pose error into one joint
    velocity per arm joint, and which commands move sends per waypoint. */
module Motion {
  import opened Values
  import opened Sim

  /** The keyword arguments of move. None stands for an argument left at None. */
  datatype MoveArgs = MoveArgs(
    absolutePos: Option<Vec3>,
    relativePos: Option<Vec3>,
    absoluteGlobalEuler: Option<Vec3>,
    relativeGlobalEuler: Option<Vec3>,
    relativeLocalEuler: Option<Vec3>,
    absoluteGlobalQuat: Option<Quat>,
    relativeAzi: Option<(real, real)>,
    numSteps: int,
    maxJointVel: real,
    posGain: real,
    velGain: real)

  /** move's defaults: no target given, 50 steps, 0.20 rad/s joint cap, gains 20 and 5. */
  const DefaultMoveArgs: MoveArgs :=
    MoveArgs(None, None, None, None, None, None, None, 50, 0.20, 20.0, 5.0)

  /** The speed cap move puts on both finger joints. */
  const FingerMaxVelocity: real := 0.10

  /** The columns of the spatial Jacobian kept for the arm solve. */
  const ArmColumns: nat := 7

  /** What the robot base class provides: the arm's body id, its joint count and
      force limits, and the two finger joints with their force limit. */
  datatype Robot = Robot(
    pandaId: BodyId,
    numJointArm: nat,
    maxJointForce: seq<real>,
    leftFinger: int,
    rightFinger: int,
    maxFingerForce: real)
  {
    /** A force limit for every arm joint, and no more arm joints than solved velocities. */
    predicate Valid() { |maxJointForce| >= numJointArm && numJointArm <= ArmColumns }
  }

  /** The environment's fixed collaborators. */
  datatype Controller = Controller(geo: Geometry, la: LinAlg, robot: Robot)

  // ---------------------------------------------------------------------------
  // Target-pose resolution

  /** The one position argument in effect. */
  datatype PosSource = AbsolutePos(pos: Vec3) | RelativePos(offset: Vec3)

  /** The one orientation argument in effect. */
  datatype OrnSource =
    | AbsoluteGlobalEuler(euler: Vec3)
    | RelativeGlobalEuler(euler: Vec3)
    | RelativeLocalEuler(euler: Vec3)
    | AbsoluteGlobalQuat(quat: Quat)
    | RelativeAzi(yaw: real, pitch: real)

  /** The position chosen by move's first if-chain. */
  function TargetPos(a: MoveArgs, ee: Vec3): Vec3
  {
    if a.absolutePos.Some? then a.absolutePos.value
    else if a.relativePos.Some? then Add(ee, a.relativePos.value)
    else ee
  }

  /** The orientation chosen by move's second if-chain. */
  function TargetOrn(g: Geometry, a: MoveArgs, ee: Quat): Quat
  {
    if a.absoluteGlobalEuler.Some? then g.euler2quat(a.absoluteGlobalEuler.value)
    else if a.relativeGlobalEuler.Some? then g.quatMult(g.euler2quat(a.relativeGlobalEuler.value), ee)
    else if a.relativeLocalEuler.Some? then g.quatMult(ee, g.euler2quat(a.relativeLocalEuler.value))
    else if a.absoluteGlobalQuat.Some? then a.absoluteGlobalQuat.value
    else if a.relativeAzi.Some? then
      var yawFirst := g.quatMult(g.euler2quat(Vec3(a.relativeAzi.value.0, 0.0, 0.0)), ee);
      g.quatMult(yawFirst, g.euler2quat(Vec3(0.0, a.relativeAzi.value.1, 0.0)))
    else StraightDown
  }

  /** The first argument that is given, if any. */
  function FirstGiven<T>(s: seq<Option<T>>): (r: Option<T>)
    ensures r.None? <==> forall i :: 0 <= i < |s| ==> s[i].None?
    ensures r.Some? ==> exists i :: 0 <= i < |s| && s[i] == r && forall j :: 0 <= j < i ==> s[j].None?
    decreases |s|
  {
    if s == [] then None
    else if s[0].Some? then s[0]
    else
      var r := FirstGiven(s[1..]);
      assert forall i :: 1 <= i < |s| ==> s[i] == s[1..][i - 1];
      r
  }

  /** Two argument lists that agree up to and including a given argument have
      the same first given argument. */
  lemma {:induction false} FirstGivenAgreeingPrefix<T>(s: seq<Option<T>>, t: seq<Option<T>>, k: nat)
    requires k < |s| && k < |t| && s[k].Some? && s[..k + 1] == t[..k + 1]
    ensures FirstGiven(s) == FirstGiven(t)
    decreases k
  {
    assert s[0] == s[..k + 1][0] && t[0] == t[..k + 1][0];
    if s[0].None? {
      assert s[1..][..k] == s[..k + 1][1..] && t[1..][..k] == t[..k + 1][1..];
      FirstGivenAgreeingPrefix(s[1..], t[1..], k - 1);
    }
  }

  /** The position arguments in priority order. */
  function PosCandidates(a: MoveArgs): seq<Option<PosSource>>
  {
    [ if a.absolutePos.Some? then Some(AbsolutePos(a.absolutePos.value)) else None,
      if a.relativePos.Some? then Some(RelativePos(a.relativePos.value)) else None ]
  }

  /** The orientation arguments in priority order. */
  function OrnCandidates(a: MoveArgs): seq<Option<OrnSource>>
  {
    [ if a.absoluteGlobalEuler.Some? then Some(AbsoluteGlobalEuler(a.absoluteGlobalEuler.value)) else None,
      if a.relativeGlobalEuler.Some? then Some(RelativeGlobalEuler(a.relativeGlobalEuler.value)) else None,
      if a.relativeLocalEuler.Some? then Some(RelativeLocalEuler(a.relativeLocalEuler.value)) else None,
      if a.absoluteGlobalQuat.Some? then Some(AbsoluteGlobalQuat(a.absoluteGlobalQuat.value)) else None,
      if a.relativeAzi.Some? then Some(RelativeAzi(a.relativeAzi.value.0, a.relativeAzi.value.1)) else None ]
  }

  /** What one position argument means, given the current end-effector position. */
  function PosMeaning(src: Option<PosSource>, ee: Vec3): Vec3
  {
    match src
    case None => ee
    case Some(AbsolutePos(p)) => p
    case Some(RelativePos(d)) => Add(ee, d)
  }

  /** What one orientation argument means, given the current end-effector
      orientation: global relative rotations compose on the left of the current
      orientation, local ones on the right, and azimuth is a yaw on the left
      followed by a pitch on the right. */
  function OrnMeaning(g: Geometry, src: Option<OrnSource>, ee: Quat): Quat
  {
    match src
    case None => StraightDown
    case Some(AbsoluteGlobalEuler(e)) => g.euler2quat(e)
    case Some(RelativeGlobalEuler(e)) => g.quatMult(g.euler2quat(e), ee)
    case Some(RelativeLocalEuler(e)) => g.quatMult(ee, g.euler2quat(e))
    case Some(AbsoluteGlobalQuat(q)) => q
    case Some(RelativeAzi(yaw, pitch)) =>
      g.quatMult(g.quatMult(g.euler2quat(Vec3(yaw, 0.0, 0.0)), ee), g.euler2quat(Vec3(0.0, pitch, 0.0)))
  }

  /** The target position is the meaning of the first position argument given,
      or the current position when none is. */
  lemma TargetPosIsFirstGiven(a: MoveArgs, ee: Vec3)
    ensures TargetPos(a, ee) == PosMeaning(FirstGiven(PosCandidates(a)), ee)
  {
    var c := PosCandidates(a);
    assert c[1..][1..] == [];
  }

  /** The target orientation is the meaning of the first orientation argument
      given, or straight down when none is. */
  lemma TargetOrnIsFirstGiven(g: Geometry, a: MoveArgs, ee: Quat)
    ensures TargetOrn(g, a, ee) == OrnMeaning(g, FirstGiven(OrnCandidates(a)), ee)
  {
    var c0 := OrnCandidates(a);
    var c1 := c0[1..];
    var c2 := c1[1..];
    var c3 := c2[1..];
    var c4 := c3[1..];
    if c0[0].Some? {
    } else if c1[0].Some? {
      assert FirstGiven(c0) == FirstGiven(c1);
    } else if c2[0].Some? {
      assert FirstGiven(c0) == FirstGiven(c1) == FirstGiven(c2);
    } else if c3[0].Some? {
      assert FirstGiven(c0) == FirstGiven(c1) == FirstGiven(c2) == FirstGiven(c3);
    } else {
      assert c4[1..] == [];
      assert FirstGiven(c0) == FirstGiven(c1) == FirstGiven(c2) == FirstGiven(c3) == FirstGiven(c4) == c4[0];
    }
  }

  /** Once an orientation argument is given, arguments of lower priority do not
      matter: two calls that agree up to it resolve to the same orientation. */
  lemma LowerPriorityOrnIgnored(g: Geometry, a: MoveArgs, b: MoveArgs, ee: Quat, k: nat)
    requires k < 5 && OrnCandidates(a)[k].Some?
    requires OrnCandidates(a)[..k + 1] == OrnCandidates(b)[..k + 1]
    ensures TargetOrn(g, a, ee) == TargetOrn(g, b, ee)
  {
    TargetOrnIsFirstGiven(g, a, ee);
    TargetOrnIsFirstGiven(g, b, ee);
    FirstGivenAgreeingPrefix(OrnCandidates(a), OrnCandidates(b), k);
  }

  /** move called with its defaults holds the current position and turns the
      gripper straight down. */
  lemma DefaultMoveTargets(c: Controller, ee: Pose)
    ensures TargetPos(DefaultMoveArgs, ee.pos) == ee.pos
    ensures TargetOrn(c.geo, DefaultMoveArgs, ee.quat) == StraightDown
    ensures PlannedPath(c, ee, DefaultMoveArgs) == c.geo.trajTimeScaling(ee.pos, ee.pos, 50)
  {
  }

  /** An absolute position wins over a relative one. */
  lemma AbsolutePosWins(a: MoveArgs, b: MoveArgs, ee: Vec3)
    requires a.absolutePos.Some? && a.absolutePos == b.absolutePos
    ensures TargetPos(a, ee) == TargetPos(b, ee) == a.absolutePos.value
  {
    TargetPosIsFirstGiven(a, ee);
    TargetPosIsFirstGiven(b, ee);
  }

  // ---------------------------------------------------------------------------
  // traj_tracking_vel

  /** The gains-weighted errors stacked as a 6-element column: position above orientation. */
  function StackErrors(posGain: real, posErr: Vec3, velGain: real, ornErr: Vec3): (e: seq<real>)
    ensures |e| == 6
    ensures forall i :: 0 <= i < 3 ==> e[i] == posGain * Components(posErr)[i]
    ensures forall i :: 0 <= i < 3 ==> e[3 + i] == velGain * Components(ornErr)[i]
  {
    Components(Scale(posGain, posErr)) + Components(Scale(velGain, ornErr))
  }

  /** The rotation from the current to the target orientation, in the world frame. */
  function OrientationError(g: Geometry, target: Quat, ee: Quat): Vec3
  {
    g.logRot(MatMul(g.quat2rot(target), Transpose(g.quat2rot(ee))))
  }

  /** The joint positions handed to the Jacobian query: the arm joints followed
      by three zeros for the finger joints. */
  function JacobianJoints(arm: seq<real>): (q: seq<real>)
    ensures |q| == |arm| + 3
    ensures q[..|arm|] == arm
    ensures q[|arm|] == 0.0 && q[|arm| + 1] == 0.0 && q[|arm| + 2] == 0.0
  {
    arm + [0.0, 0.0, 0.0]
  }

  /** numpy's m[:, :n]: every row cut to its first n entries (fewer if shorter). */
  function FirstColumns(m: Matrix, n: nat): (r: Matrix)
    ensures |r| == |m|
    ensures forall i :: 0 <= i < |m| ==> |r[i]| == (if |m[i]| < n then |m[i]| else n) && r[i] == m[i][..|r[i]|]
  {
    seq(|m|, i requires 0 <= i < |m| => if |m[i]| < n then m[i] else m[i][..n])
  }

  /** The spatial Jacobian of the arm at the simulator state after `log`. */
  function SpatialJacobian(c: Controller, p: Physics, log: seq<Event>): Matrix
  {
    var jac := p.jacobianOf(log, JacobianJoints(p.armJointsOf(log)));
    FirstColumns(c.geo.fullJacob(jac.0, jac.1), ArmColumns)
  }

  /** The weighted pose error at the simulator state after `log`. */
  function TrackingError(c: Controller, p: Physics, log: seq<Event>, targetPos: Vec3, targetQuat: Quat,
                         posGain: real, velGain: real): seq<real>
  {
    var ee := p.eePoseOf(log);
    StackErrors(posGain, Sub(targetPos, ee.pos), velGain, OrientationError(c.geo, targetQuat, ee.quat))
  }

  /** The except-branch of traj_tracking_vel: a failed solve becomes a zero column. */
  function HoldOnFailure(solved: Option<Vel7>): (v: Vel7)
    ensures solved.Some? ==> v == solved.value
    ensures solved.None? ==> forall i :: 0 <= i < 7 ==> v[i] == 0.0
  {
    if solved.Some? then solved.value else Zeros(7)
  }

  /** traj_tracking_vel: the joint velocities that drive the end effector from
      its pose after `log` toward the target pose. */
  function TrackingVelocity(c: Controller, p: Physics, log: seq<Event>, targetPos: Vec3, targetQuat: Quat,
                            posGain: real, velGain: real): Vel7
  {
    HoldOnFailure(c.la.pinvDot(SpatialJacobian(c, p, log),
                               TrackingError(c, p, log, targetPos, targetQuat, posGain, velGain)))
  }

  /** The error column has the position error, scaled by posGain, above the
      orientation error, scaled by velGain. */
  lemma TrackingErrorLayout(c: Controller, p: Physics, log: seq<Event>, targetPos: Vec3, targetQuat: Quat,
                            posGain: real, velGain: real)
    ensures var e := TrackingError(c, p, log, targetPos, targetQuat, posGain, velGain);
            var ee := p.eePoseOf(log);
            var o := OrientationError(c.geo, targetQuat, ee.quat);
            && |e| == 6
            && e[0] == posGain * (targetPos.x - ee.pos.x)
            && e[1] == posGain * (targetPos.y - ee.pos.y)
            && e[2] == posGain * (targetPos.z - ee.pos.z)
            && e[3] == velGain * o.x && e[4] == velGain * o.y && e[5] == velGain * o.z
  {
  }

  /** At the target position, with no orientation error, the error column is zero. */
  lemma ErrorVanishesAtTarget(c: Controller, p: Physics, log: seq<Event>, targetQuat: Quat,
                              posGain: real, velGain: real)
    requires OrientationError(c.geo, targetQuat, p.eePoseOf(log).quat) == Vec3(0.0, 0.0, 0.0)
    ensures TrackingError(c, p, log, p.eePoseOf(log).pos, targetQuat, posGain, velGain) == Zeros(6)
  {
    var e := TrackingError(c, p, log, p.eePoseOf(log).pos, targetQuat, posGain, velGain);
    assert forall i :: 0 <= i < 6 ==> e[i] == Zeros(6)[i];
  }

  /** When the pseudo-inverse raises, every arm joint is commanded to stand
      still, and the solver's error goes no further. */
  lemma FailedSolveHoldsArm(c: Controller, p: Physics, log: seq<Event>, targetPos: Vec3, targetQuat: Quat,
                            posGain: real, velGain: real)
    requires c.la.pinvDot(SpatialJacobian(c, p, log),
                          TrackingError(c, p, log, targetPos, targetQuat, posGain, velGain)).None?
    ensures TrackingVelocity(c, p, log, targetPos, targetQuat, posGain, velGain) == Zeros(7)
  {
    var v := TrackingVelocity(c, p, log, targetPos, targetQuat, posGain, velGain);
    assert forall i :: 0 <= i < 7 ==> v[i] == Zeros(7)[i];
  }

  // ---------------------------------------------------------------------------
  // The commands move sends

  /** The velocity commands for the first n arm joints, in joint order. */
  function ArmCommands(r: Robot, jd: Vel7, maxJointVel: real, n: nat): (cmds: seq<Event>)
    requires r.Valid() && n <= r.numJointArm
    ensures |cmds| == n
    ensures forall i :: 0 <= i < n ==> cmds[i] == Motor(r.pandaId, i, jd[i], r.maxJointForce[i], maxJointVel)
  {
    if n == 0 then []
    else ArmCommands(r, jd, maxJointVel, n - 1) + [Motor(r.pandaId, n - 1, jd[n - 1], r.maxJointForce[n - 1], maxJointVel)]
  }

  /** The two finger commands: both fingers at the held finger velocity. */
  function FingerCommands(r: Robot, fingerVel: real): seq<Event>
  {
    [Motor(r.pandaId, r.leftFinger, fingerVel, r.maxFingerForce, FingerMaxVelocity),
     Motor(r.pandaId, r.rightFinger, fingerVel, r.maxFingerForce, FingerMaxVelocity)]
  }

  /** Everything one iteration of move's loop sends, when the simulator has
      received `log` so far and the waypoint is `waypoint`. */
  function WaypointBlock(c: Controller, p: Physics, log: seq<Event>, waypoint: Vec3, targetOrn: Quat,
                         a: MoveArgs, fingerVel: real): seq<Event>
    requires c.robot.Valid()
  {
    var jd := TrackingVelocity(c, p, log, waypoint, targetOrn, a.posGain, a.velGain);
    ArmCommands(c.robot, jd, a.maxJointVel, c.robot.numJointArm) + FingerCommands(c.robot, fingerVel) + [Tick]
  }

  /** Everything move's loop sends for the waypoints `traj`, starting after `log`. */
  function MoveTrace(c: Controller, p: Physics, log: seq<Event>, traj: seq<Vec3>, targetOrn: Quat,
                     a: MoveArgs, fingerVel: real): seq<Event>
    requires c.robot.Valid()
    decreases |traj|
  {
    if traj == [] then []
    else
      var before := MoveTrace(c, p, log, traj[..|traj| - 1], targetOrn, a, fingerVel);
      before + WaypointBlock(c, p, log + before, traj[|traj| - 1], targetOrn, a, fingerVel)
  }

  /** The trace for one more waypoint is the old trace and that waypoint's block. */
  lemma MoveTraceSnoc(c: Controller, p: Physics, log: seq<Event>, traj: seq<Vec3>, k: nat,
                      targetOrn: Quat, a: MoveArgs, fingerVel: real)
    requires c.robot.Valid() && k < |traj|
    ensures var before := MoveTrace(c, p, log, traj[..k], targetOrn, a, fingerVel);
            MoveTrace(c, p, log, traj[..k + 1], targetOrn, a, fingerVel)
              == before + WaypointBlock(c, p, log + before, traj[k], targetOrn, a, fingerVel)
  {
    assert traj[..k + 1][..k] == traj[..k];
  }

  /** The waypoints move follows: the time-scaled path from the current position to the target. */
  function PlannedPath(c: Controller, ee: Pose, a: MoveArgs): seq<Vec3>
  {
    c.geo.trajTimeScaling(ee.pos, TargetPos(a, ee.pos), a.numSteps)
  }

  /** One waypoint's commands: every arm joint at its solved velocity with its
      own force limit and the call's speed cap, then both fingers at the held
      finger velocity capped at 0.10, then exactly one tick. */
  predicate IsWaypointBlock(b: seq<Event>, r: Robot, jd: Vel7, maxJointVel: real, fingerVel: real)
    requires r.Valid()
  {
    var n := r.numJointArm;
    && |b| == n + 3
    && (forall i :: 0 <= i < n ==> b[i] == Motor(r.pandaId, i, jd[i], r.maxJointForce[i], maxJointVel))
    && b[n] == Motor(r.pandaId, r.leftFinger, fingerVel, r.maxFingerForce, FingerMaxVelocity)
    && b[n + 1] == Motor(r.pandaId, r.rightFinger, fingerVel, r.maxFingerForce, FingerMaxVelocity)
    && b[n + 2] == Tick
  }

  /** The k-th block of m events of s (empty when s is too short). */
  function Block(s: seq<Event>, k: nat, m: nat): seq<Event>
  {
    if k * m + m <= |s| then s[k * m..k * m + m] else []
  }

  /** The events of s before its k-th block of m. */
  function Before(s: seq<Event>, k: nat, m: nat): seq<Event>
  {
    if k * m <= |s| then s[..k * m] else s
  }

  lemma MulSucc(k: nat, m: nat)
    ensures k * m + m == (k + 1) * m
  {
  }

  lemma MulMonotone(a: nat, b: nat, m: nat)
    requires a <= b
    ensures a * m <= b * m
  {
  }

  /** Blocks of a prefix are blocks of the whole. */
  lemma BlockInPrefix(pre: seq<Event>, post: seq<Event>, k: nat, m: nat)
    requires k * m + m <= |pre|
    ensures Block(pre + post, k, m) == Block(pre, k, m)
    ensures Before(pre + post, k, m) == Before(pre, k, m)
  {
  }

  /** The block that starts right after a prefix of k blocks is what follows it. */
  lemma BlockAfterPrefix(pre: seq<Event>, post: seq<Event>, k: nat, m: nat)
    requires |pre| == k * m && |post| == m
    ensures Block(pre + post, k, m) == post
    ensures Before(pre + post, k, m) == pre
  {
    assert (pre + post)[k * m..k * m + m] == post;
    assert (pre + post)[..k * m] == pre;
  }

  /** trace is one block of m events per waypoint of traj and nothing else;
      the velocities of block k are solved from the end-effector state just
      before it, toward waypoint k. */
  predicate Shaped(c: Controller, p: Physics, log: seq<Event>, traj: seq<Vec3>, targetOrn: Quat,
                   a: MoveArgs, fingerVel: real, trace: seq<Event>, m: nat)
    requires c.robot.Valid()
  {
    && |trace| == |traj| * m
    && forall k :: 0 <= k < |traj| ==>
         IsWaypointBlock(Block(trace, k, m), c.robot,
                         TrackingVelocity(c, p, log + Before(trace, k, m), traj[k], targetOrn, a.posGain, a.velGain),
                         a.maxJointVel, fingerVel)
  }

  /** move's loop sends one waypoint block per waypoint and nothing else. */
  lemma {:induction false} MoveTraceShape(c: Controller, p: Physics, log: seq<Event>, traj: seq<Vec3>,
                                          targetOrn: Quat, a: MoveArgs, fingerVel: real)
    requires c.robot.Valid()
    ensures Shaped(c, p, log, traj, targetOrn, a, fingerVel,
                   MoveTrace(c, p, log, traj, targetOrn, a, fingerVel), c.robot.numJointArm + 3)
    decreases |traj|
  {
    var m := c.robot.numJointArm + 3;
    if traj == [] {
      assert |traj| * m == 0;
    } else {
      var L := |traj|;
      var front := traj[..L - 1];
      var before := MoveTrace(c, p, log, front, targetOrn, a, fingerVel);
      var last := WaypointBlock(c, p, log + before, traj[L - 1], targetOrn, a, fingerVel);
      MoveTraceShape(c, p, log, front, targetOrn, a, fingerVel);
      WaypointBlockShape(c, p, log + before, traj[L - 1], targetOrn, a, fingerVel);
      ShapeExtend(c, p, log, traj, targetOrn, a, fingerVel, before, last, m);
      assert MoveTrace(c, p, log, traj, targetOrn, a, fingerVel) == before + last;
    }
  }

  /** Appending the block of the last waypoint to a trace shaped for the others
      gives a trace shaped for all of them. */
  lemma ShapeExtend(c: Controller, p: Physics, log: seq<Event>, traj: seq<Vec3>, targetOrn: Quat,
                    a: MoveArgs, fingerVel: real, before: seq<Event>, last: seq<Event>, m: nat)
    requires c.robot.Valid() && traj != [] && m == c.robot.numJointArm + 3
    requires Shaped(c, p, log, traj[..|traj| - 1], targetOrn, a, fingerVel, before, m)
    requires IsWaypointBlock(last, c.robot,
                             TrackingVelocity(c, p, log + before, traj[|traj| - 1], targetOrn, a.posGain, a.velGain),
                             a.maxJointVel, fingerVel)
    ensures Shaped(c, p, log, traj, targetOrn, a, fingerVel, before + last, m)
  {
    var L := |traj|;
    var trace := before + last;
    MulSucc(L - 1, m);
    forall k | 0 <= k < L
      ensures IsWaypointBlock(Block(trace, k, m), c.robot,
                              TrackingVelocity(c, p, log + Before(trace, k, m), traj[k], targetOrn, a.posGain, a.velGain),
                              a.maxJointVel, fingerVel)
    {
      if k < L - 1 {
        MulMonotone(k + 1, L - 1, m);
        MulSucc(k, m);
        BlockInPrefix(before, last, k, m);
        assert traj[k] == traj[..L - 1][k];
      } else {
        BlockAfterPrefix(before, last, k, m);
      }
    }
  }

  /** One iteration's commands have the shape of a waypoint block. */
  lemma WaypointBlockShape(c: Controller, p: Physics, log: seq<Event>, waypoint: Vec3, targetOrn: Quat,
                           a: MoveArgs, fingerVel: real)
    requires c.robot.Valid()
    ensures IsWaypointBlock(WaypointBlock(c, p, log, waypoint, targetOrn, a, fingerVel), c.robot,
                            TrackingVelocity(c, p, log, waypoint, targetOrn, a.posGain, a.velGain),
                            a.maxJointVel, fingerVel)
  {
  }

  /** A log with no ticks in it counts zero ticks. */
  lemma {:induction false} NoTicks(s: seq<Event>)
    requires forall i :: 0 <= i < |s| ==> s[i] != Tick
    ensures CountTicks(s) == 0
    decreases |s|
  {
    if s != [] {
      NoTicks(s[..|s| - 1]);
    }
  }

  /** move advances the simulation exactly once per waypoint: len(traj_pos)
      ticks, whatever num_steps was. */
  lemma {:induction false} MoveTraceTicks(c: Controller, p: Physics, log: seq<Event>, traj: seq<Vec3>,
                                          targetOrn: Quat, a: MoveArgs, fingerVel: real)
    requires c.robot.Valid()
    ensures CountTicks(MoveTrace(c, p, log, traj, targetOrn, a, fingerVel)) == |traj|
    decreases |traj|
  {
    if traj != [] {
      MoveTraceTicks(c, p, log, traj[..|traj| - 1], targetOrn, a, fingerVel);
      MoveTraceTicksStep(c, p, log, traj, targetOrn, a, fingerVel);
    }
  }

  /** One more waypoint adds exactly one tick to the trace. */
  lemma MoveTraceTicksStep(c: Controller, p: Physics, log: seq<Event>, traj: seq<Vec3>,
                           targetOrn: Quat, a: MoveArgs, fingerVel: real)
    requires c.robot.Valid() && traj != []
    ensures CountTicks(MoveTrace(c, p, log, traj, targetOrn, a, fingerVel))
         == CountTicks(MoveTrace(c, p, log, traj[..|traj| - 1], targetOrn, a, fingerVel)) + 1
  {
    var L := |traj|;
    var before := MoveTrace(c, p, log, traj[..L - 1], targetOrn, a, fingerVel);
    var block := WaypointBlock(c, p, log + before, traj[L - 1], targetOrn, a, fingerVel);
    assert MoveTrace(c, p, log, traj, targetOrn, a, fingerVel) == before + block;
    WaypointBlockTicks(c, p, log + before, traj[L - 1], targetOrn, a, fingerVel);
    CountTicksAppend(before, block);
  }

  /** One waypoint block holds exactly one tick, at its end. */
  lemma WaypointBlockTicks(c: Controller, p: Physics, log: seq<Event>, waypoint: Vec3, targetOrn: Quat,
                           a: MoveArgs, fingerVel: real)
    requires c.robot.Valid()
    ensures CountTicks(WaypointBlock(c, p, log, waypoint, targetOrn, a, fingerVel)) == 1
  {
    var jd := TrackingVelocity(c, p, log, waypoint, targetOrn, a.posGain, a.velGain);
    var cmds := ArmCommands(c.robot, jd, a.maxJointVel, c.robot.numJointArm) + FingerCommands(c.robot, fingerVel);
    NoTicks(cmds);
    CountTicksAppend(cmds, [Tick]);
    assert CountTicks([Tick]) == 1 by {
      assert [Tick][..0] == [];
    }
  }
}
