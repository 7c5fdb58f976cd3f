/** The physics simulator as the environment sees it: a supply of body ids, a
    set of live bodies, an append-only log of the commands it has received, and
    a physics oracle that answers queries as a function of that log. */
module Sim {
  import opened Values

  /** One command sent to the simulator. */
  datatype Event =
    | CreateBin(id: BodyId)
        // the bin mesh, static, at (0.5, 0, 0) turned a quarter turn about z
    | LoadUrdf(path: string, pos: Vec3, yaw: real, fixedBase: bool, id: BodyId)
    | RemoveBody(id: BodyId)
    | Motor(body: BodyId, joint: int, targetVelocity: real, force: real, maxVelocity: real)
        // setJointMotorControl2 in velocity-control mode
    | Tick
        // one stepSimulation

  /** The simulator's answers, as functions of the commands received so far.
      Commands the log leaves out (the friction settings, the robot's reset) are
      folded into the oracle: they are fixed by the logged loads and the
      environment's friction constants, so a deterministic engine whose
      unlogged inputs are fixed that way fits. */
  datatype Physics = Physics(
    heightOf: (seq<Event>, BodyId) -> real,
    eePoseOf: seq<Event> -> Pose,
    armJointsOf: seq<Event> -> seq<real>,
    jacobianOf: (seq<Event>, seq<real>) -> (Matrix, Matrix))

  /** The end-effector's position and orientation. */
  datatype Pose = Pose(pos: Vec3, quat: Quat)

  /** The removals of the given bodies, in order. */
  function Removals(ids: seq<BodyId>): (r: seq<Event>)
    ensures |r| == |ids|
    ensures forall i :: 0 <= i < |ids| ==> r[i] == RemoveBody(ids[i])
  {
    if ids == [] then [] else Removals(ids[..|ids| - 1]) + [RemoveBody(ids[|ids| - 1])]
  }

  /** n simulation ticks. */
  function Ticks(n: nat): (r: seq<Event>)
    ensures |r| == n
    ensures forall i :: 0 <= i < n ==> r[i] == Tick
  {
    if n == 0 then [] else Ticks(n - 1) + [Tick]
  }

  /** The number of ticks in a log. */
  function CountTicks(log: seq<Event>): nat
  {
    if log == [] then 0
    else CountTicks(log[..|log| - 1]) + (if log[|log| - 1] == Tick then 1 else 0)
  }

  lemma {:induction false} CountTicksAppend(a: seq<Event>, b: seq<Event>)
    ensures CountTicks(a + b) == CountTicks(a) + CountTicks(b)
    decreases |b|
  {
    if b == [] {
      assert a + b == a;
    } else {
      var b' := b[..|b| - 1];
      assert (a + b)[..|a + b| - 1] == a + b';
      CountTicksAppend(a, b');
    }
  }

  /** An id above every id of a finite set. */
  ghost function Above(s: set<BodyId>): (b: BodyId)
    ensures forall id :: id in s ==> id < b
    decreases |s|
  {
    if s == {} then 0
    else
      var m :| m in s;
      var b := Above(s - {m});
      assert forall id :: id in s ==> id == m || id in s - {m};
      if b > m then b else m + 1
  }

  /** A finite set of ids always leaves some id unused. */
  lemma UnusedIdExists(s: set<BodyId>)
    ensures exists id: BodyId :: id !in s
  {
    assert Above(s) !in s;
  }

  class Simulator {
    /** Every command received, oldest first. Methods only ever append. */
    var log: seq<Event>
    /** The bodies currently in the world. */
    var live: set<BodyId>
    const physics: Physics

    constructor (physics: Physics)
      ensures log == [] && live == {} && this.physics == physics
    {
      this.physics := physics;
      log := [];
      live := {};
    }

    /** getBasePositionAndOrientation(id)[0][2]. */
    function BaseHeight(id: BodyId): real
      reads this
    {
      physics.heightOf(log, id)
    }

    /** The end-effector pose, as the robot base class reports it. */
    function EePose(): Pose
      reads this
    {
      physics.eePoseOf(log)
    }

    method RemoveBody(id: BodyId)
      modifies this
      ensures live == old(live) - {id}
      ensures log == old(log) + [Event.RemoveBody(id)]
    {
      live := live - {id};
      log := log + [Event.RemoveBody(id)];
    }

    /** createCollisionShape / createVisualShape / createMultiBody for the bin. */
    method CreateBin() returns (id: BodyId)
      modifies this
      ensures id !in old(live)
      ensures live == old(live) + {id}
      ensures log == old(log) + [Event.CreateBin(id)]
    {
      UnusedIdExists(live);
      id :| id !in live;
      live := live + {id};
      log := log + [Event.CreateBin(id)];
    }

    method LoadUrdf(path: string, pos: Vec3, yaw: real, fixedBase: bool) returns (id: BodyId)
      modifies this
      ensures id !in old(live)
      ensures live == old(live) + {id}
      ensures log == old(log) + [Event.LoadUrdf(path, pos, yaw, fixedBase, id)]
    {
      UnusedIdExists(live);
      id :| id !in live;
      live := live + {id};
      log := log + [Event.LoadUrdf(path, pos, yaw, fixedBase, id)];
    }

    method SetJointVelocity(body: BodyId, joint: int, targetVelocity: real, force: real, maxVelocity: real)
      modifies this
      ensures live == old(live)
      ensures log == old(log) + [Motor(body, joint, targetVelocity, force, maxVelocity)]
    {
      log := log + [Motor(body, joint, targetVelocity, force, maxVelocity)];
    }

    method StepSimulation()
      modifies this
      ensures live == old(live)
      ensures log == old(log) + [Tick]
    {
      log := log + [Tick];
    }
  }
}
