# GraspEnv: a verified model of the panda-gym grasping environment

This project models the episode controller of the grasping environment for the Franka Panda arm
(`panda_gym/grasp_env.py`, class `GraspEnv`), together with the proofs about it:

- **resetting a task** (`reset_task`):
  - It removes the bodies of the previous task and empties the object registry.
  - It adds the bin and loads one body per (model file, placement) pair. Before each load it raises
    that placement by 0.1 m *in place*, in the caller's task.
  - It lets the scene settle for ten simulation ticks, then records every registered body's height.
- **resetting the environment** (`reset`): the first call starts the simulator session and loads the
  plane and the table. Every call then resets the task and zeroes the step counter.
- **the end of a step** (`step`, after its grasp choreography):
  - It clears every registered body that rose more than 3 cm above its recorded height. Heights are
    read before anything is removed, and the order of the list is kept.
  - It answers reward 1 exactly when the registry is then empty, done = true and an empty info map.
- **moving the arm** (`move`):
  - It resolves the target position and orientation from its optional arguments in their priority
    order, and plans a time-scaled path.
  - For every waypoint it sends one velocity command per arm joint, the same command to both
    fingers (capped at 0.10), and one simulation tick.
- **the tracking controller** (`traj_tracking_vel`):
  - It stacks the gain-weighted position and orientation errors into a 6-entry column.
  - It queries the Jacobian at the arm joints followed by three zero finger joints, keeps its first
    seven columns and applies the pseudo-inverse.
  - A failed solve yields a zero 7-vector.

The files:

- `values.dfy` (module `Values`): vectors, quaternions, matrices, and the two libraries the
  environment calls. These are the geometry helpers of module `alano` and numpy's
  `pinv(..).dot(..)`. Both are records of arbitrary functions, so nothing is claimed about their
  mathematics.
- `simulator.dfy` (module `Sim`): the physics simulator as the environment sees it.
  - The `Simulator` class holds an append-only log of the commands it received and the set of live
    bodies.
  - Its physics oracle answers height, end-effector pose, arm-joint and Jacobian queries as
    functions of that log. Some commands that do change the physics are left out of the log: the
    `changeDynamics` friction settings and the robot's reset. Their effect sits inside the oracle,
    because the logged loads and the friction constants mu and sigma fix them. Any deterministic
    engine fits whose unlogged inputs are fixed that way.
  - A newly created body gets an id that is not currently live. PyBullet reuses freed ids, and so
    may the model.
- `registry.dfy` (module `Registry`): the object list and its recorded heights. This covers the lift
  test, the ids `clear_obj` collects and the ids that survive it, Python's `list.remove`, and the
  reward.
- `motion.dfy` (module `Motion`):
  - the resolution of `move`'s target pose;
  - the error column and Jacobian preparation of `traj_tracking_vel`;
  - `MoveTrace`, the exact list of commands that `move`'s loop sends.
- `grasp_env.dfy` (module `GraspEnvironment`): the `GraspEnv` class. Its methods update its fields
  and the simulator in place, in the order the Python code does, and are proved against the
  functions above.

The invariant `GraspEnv.Valid()` holds through every operation:

- Every registered id is a live body with a recorded height, and is listed once.
- Once the session is started, the plane and the table are two distinct live bodies that are never
  in the registry.

`Step` follows the code as written. The bin is registered like an object, so it counts in the
reward, although the code's own comment at line 221 asks whether all *objects* were removed (see
Findings).

## Model

| member | source | states |
|---|---|---|
| GraspEnvironment.GraspEnv.constructor | panda_gym/grasp_env.py:58-61 | a new environment has an empty object list, an empty height map and no simulator session yet |
| GraspEnvironment.GraspEnv.ResetTask | panda_gym/grasp_env.py:95-150 | keeps `Valid()`. The first k placements of the caller's task (k = the shorter of the two lists) are raised by 0.1 in place and the rest are untouched. The list becomes the bin's id followed by one id per loaded object, and all of them are fresh. The simulator receives exactly: the removals of the old ids, the bin, one load per object at its raised placement, and 10 ticks. Only the old ids leave the world and only the new ones enter it. The height map holds each listed id's height after settling |
| GraspEnvironment.GraspEnv.ClearTable | panda_gym/grasp_env.py:99-117 | every old body is removed and the registry is cleared. The bin, with an id that is not live, is then added to the world and becomes the list's only entry |
| GraspEnvironment.GraspEnv.RemoveListedBodies | panda_gym/grasp_env.py:100-101 | one removal per listed id, in list order, and exactly those bodies leave the world |
| GraspEnvironment.GraspEnv.LoadObjects | panda_gym/grasp_env.py:119-129 | zip stops at the shorter list. Each used placement is raised once, in place, before its load. Loads are appended in order at the raised placement with the placement's yaw. The new ids are distinct, were not live, and are appended to the list |
| GraspEnvironment.GraspEnv.LoadOne | panda_gym/grasp_env.py:122-129 | placement j alone is raised. The body is loaded at the raised position with a fresh id, which is appended |
| GraspEnvironment.GraspEnv.SettleAndRecord | panda_gym/grasp_env.py:143-150 | exactly 10 ticks, no change to the world, then the height map of every listed id read after those ticks |
| GraspEnvironment.RaisedPrefix | panda_gym/grasp_env.py:122-123 | entry i is raised by the spawn lift when i < k and unchanged otherwise; the length is kept |
| GraspEnvironment.LoadEvents | panda_gym/grasp_env.py:124-128 | load i is the i-th model file at the i-th placement's (x, y, z) with its yaw, dynamic base, and the i-th id |
| GraspEnvironment.HeightRecord | panda_gym/grasp_env.py:147-150 | keys are exactly the listed ids and each value is that id's height in the given simulator state |
| GraspEnvironment.ResetTwiceRaisesTwice | panda_gym/grasp_env.py:122-123 | two resets with the same task leave each used placement 0.2 higher (the offset accumulates in the caller's task), every placement beyond the zip unchanged, and the paths unchanged |
| GraspEnvironment.Raised | panda_gym/grasp_env.py:123 | one placement with 0.1 added to its height and nothing else changed; its meaning is stated by `RaisedPrefix` and `RaisedTwice` |
| GraspEnvironment.RaisedTwice | panda_gym/grasp_env.py:122-123 | raising the same first k placements twice adds 0.2 to each of them and leaves the rest unchanged |
| GraspEnvironment.GraspEnv.Reset | panda_gym/grasp_env.py:152-188 | keeps `Valid()`, starts the session and sets the step counter to 0. An already loaded plane and table keep their ids; on the first call both get fresh ids. The log gains exactly: the two fixed-base loads of plane and table (first call only), then the task reset's removals, bin, loads at the raised placements and 10 ticks. The new registry is fresh, the live set loses exactly the old ids and gains the new ones (and the plane and table on the first call), the placements are raised as in `ResetTask`, and the height map is recorded after settling |
| GraspEnvironment.GraspEnv.LoadScene | panda_gym/grasp_env.py:157-170 | on the first call, the plane at (0, 0, -1) and the table at (0.4, 0, -0.625), both fixed-base, are loaded with fresh, distinct ids and the session counts as started. Later calls change nothing |
| GraspEnvironment.SceneLoads | panda_gym/grasp_env.py:163-170 | the scene loads are empty exactly when the session is already started |
| GraspEnvironment.GraspEnv.ClearObj | panda_gym/grasp_env.py:229-240 | keeps `Valid()`. The list becomes the survivors, read at the state before any removal, in their order. The log gains one removal per lifted id in list order, and exactly the lifted bodies leave the world. Recorded heights are unchanged |
| GraspEnvironment.GraspEnv.CollectLifted | panda_gym/grasp_env.py:230-236 | the collected ids are exactly the lifted ones, in list order, and reading the heights changes nothing |
| GraspEnvironment.GraspEnv.RemoveCollected | panda_gym/grasp_env.py:238-240 | one simulator removal per collected id in order. The list loses exactly the collected ids and keeps its order |
| GraspEnvironment.GraspEnv.RemoveOne | panda_gym/grasp_env.py:239-240 | `list.remove` of a not-yet-removed id is the same as adding it to the removed set; the body leaves the world |
| GraspEnvironment.GraspEnv.Step | panda_gym/grasp_env.py:221-227 | the clear's effect as in `ClearObj`: the survivors stay listed, and the log and live set lose exactly the lifted bodies, in list order. After clearing, the reward is 1 if and only if every registered id (the bin included) was lifted, and otherwise 0. done is true and info is empty |
| GraspEnvironment.GraspEnv.CorrectedStep | panda_gym/grasp_env.py:221-227 | the end of step with the corrected reward: it clears exactly like `Step`, with the same new list, log and live set, and the reward is `IntendedReward` of the list before the clear. done is true and info is empty |
| GraspEnvironment.StaticBinMeansNoReward | panda_gym/grasp_env.py:221-226 | as written, a step whose bin stays at its recorded height earns reward 0 |
| GraspEnvironment.GraspEnv.Move | panda_gym/grasp_env.py:261-339 | the world is unchanged. The log gains exactly `MoveTrace` over the planned path toward the resolved target orientation: per waypoint, the arm commands, both finger commands and one tick |
| GraspEnvironment.GraspEnv.SendWaypoint | panda_gym/grasp_env.py:301-337 | one loop iteration: `TrackingVelocity` is solved at the current state. Then joint i is commanded with velocity i, its own force limit and the speed cap; then both fingers at the held finger velocity capped at 0.10; then one tick |
| Registry.LiftedIds | panda_gym/grasp_env.py:232-236 | an id is collected if and only if it is listed and rose strictly more than 0.03 above its recorded height. List order is kept and no duplicates are introduced |
| Registry.Survivors | panda_gym/grasp_env.py:229-240 | an id survives if and only if it is listed and not lifted; list order is kept |
| Registry.LiftedSurvivorsPartition | panda_gym/grasp_env.py:229-240 | every listed entry is either collected or survives, so the two counts add up to the list's length |
| Registry.LiftedIdsSnoc | panda_gym/grasp_env.py:232-236 | when the collecting loop looks at a new id, it appends that id if and only if the id is lifted |
| Registry.Lifted | panda_gym/grasp_env.py:235 | the lift test: the height now minus the recorded height is strictly above 0.03. Stated through `LiftedIds` and `Survivors` |
| Registry.RemoveFirst | panda_gym/grasp_env.py:240 | `list.remove(x)` on a list holding x: one element shorter. `RemoveFirstSplits` states which element goes |
| Registry.RemoveFirstSplits | panda_gym/grasp_env.py:240 | `list.remove(x)` cuts the list at the first occurrence of x and drops exactly that element |
| Registry.RemoveFirstWithout | panda_gym/grasp_env.py:238-240 | on a list without repeats, removing a not-yet-dropped member is the same as dropping it by set |
| Registry.WithoutLiftedIsSurvivors | panda_gym/grasp_env.py:238-240 | dropping exactly the lifted ids from the list leaves the survivors |
| Registry.Reward | panda_gym/grasp_env.py:223-226 | the reward is 0 or 1, and 1 if and only if the list is empty |
| Registry.RewardIffAllLifted | panda_gym/grasp_env.py:221-226 | the reward after clearing is 1 if and only if every listed id was lifted |
| Registry.StaticBinBlocksReward | panda_gym/grasp_env.py:113-117 | if the head of the list (the bin, a static body) is still at its recorded height, the reward is 0 |
| Registry.LiftedObjectGetsNoReward | panda_gym/grasp_env.py:221-226 | concrete case: the bin stays and the one object rises 10 cm. The reward as written is 0 and the corrected reward is 1 |
| Registry.IntendedReward | panda_gym/grasp_env.py:221-226 | corrected rule: 0 or 1, and 1 if and only if every listed entry after the bin was lifted |
| Registry.IntendedRewardIffOnlyBinLeft | panda_gym/grasp_env.py:221-226 | on a list without repeats, the corrected reward is 1 exactly when the clear leaves nothing registered, or only the bin |
| Motion.TargetPosIsFirstGiven | panda_gym/grasp_env.py:264-270 | the target position is the meaning of the first given position argument (absolute, then relative to the end effector), or the current position when neither is given |
| Motion.TargetPos | panda_gym/grasp_env.py:264-270 | move's position chain; its meaning is proved by `TargetPosIsFirstGiven` and `AbsolutePosWins` |
| Motion.DefaultMoveTargets | panda_gym/grasp_env.py:242-259 | with move's defaults (no target, 50 steps), the target is the current position, the orientation is straight down, and the path is planned between the current position and itself over 50 steps |
| Motion.AbsolutePosWins | panda_gym/grasp_env.py:265-266 | an absolute position decides the target whatever relative position is passed with it |
| Motion.TargetOrnIsFirstGiven | panda_gym/grasp_env.py:272-290 | the target orientation is the meaning of the first given of: absolute Euler, relative global Euler (composed on the left), relative local Euler (on the right), absolute quaternion, azimuth (yaw on the left, then pitch on the right). With none given it is straight down |
| Motion.TargetOrn | panda_gym/grasp_env.py:272-290 | move's orientation chain; its meaning is proved by `TargetOrnIsFirstGiven` and `LowerPriorityOrnIgnored` |
| Motion.LowerPriorityOrnIgnored | panda_gym/grasp_env.py:272-290 | once an orientation argument is given, arguments of lower priority do not change the resolved orientation |
| Motion.StackErrors | panda_gym/grasp_env.py:369-371 | six entries: posGain times the position error, then velGain times the orientation error |
| Motion.TrackingErrorLayout | panda_gym/grasp_env.py:346-371 | the error column has entries posGain·(target − ee) for x, y, z, then velGain times the orientation error taken from the end-effector pose |
| Motion.ErrorVanishesAtTarget | panda_gym/grasp_env.py:346-371 | at the target position, with no orientation error, the error column is zero |
| Motion.OrientationError | panda_gym/grasp_env.py:349-352 | `log_rot` of the target rotation times the transposed current rotation, in the world frame; used by `TrackingErrorLayout` |
| Motion.TrackingError | panda_gym/grasp_env.py:346-371 | the stacked error column at the current end-effector pose; its layout is `TrackingErrorLayout` and its zero is `ErrorVanishesAtTarget` |
| Motion.SpatialJacobian | panda_gym/grasp_env.py:354-367 | the Jacobian queried at `JacobianJoints` of the current arm joints, assembled by `full_jacob_pb` and cut by `FirstColumns` to 7 columns |
| Motion.TrackingVelocity | panda_gym/grasp_env.py:341-374 | traj_tracking_vel: the pseudo-inverse of `SpatialJacobian` applied to `TrackingError`, with `HoldOnFailure` on a LinAlgError; `FailedSolveHoldsArm` states the failure case |
| Motion.JacobianJoints | panda_gym/grasp_env.py:354-356 | the Jacobian is queried at the arm joints followed by three zeros |
| Motion.FirstColumns | panda_gym/grasp_env.py:366-367 | `[:, :7]`: every row is cut to its first 7 entries (or kept whole if shorter), and the row count is kept |
| Motion.HoldOnFailure | panda_gym/grasp_env.py:368-373 | a successful solve is passed through; a failed one becomes the zero 7-vector |
| Motion.FailedSolveHoldsArm | panda_gym/grasp_env.py:368-373 | when the pseudo-inverse raises, the tracking velocity is the zero 7-vector |
| Motion.ArmCommands | panda_gym/grasp_env.py:308-314 | command i is joint i at velocity i with force limit i and the call's speed cap, for i < n |
| Motion.PlannedPath | panda_gym/grasp_env.py:292-295 | the waypoints: `traj_time_scaling` from the current position to `TargetPos` over num_steps; used in `Move`'s contract |
| Motion.FingerCommands | panda_gym/grasp_env.py:317-328 | the left, then the right finger at the held finger velocity with the finger force limit, capped at 0.10; shape stated by `WaypointBlockShape` |
| Motion.WaypointBlock | panda_gym/grasp_env.py:301-337 | one iteration's commands solved at the given state; its shape is `WaypointBlockShape` and its tick count `WaypointBlockTicks` |
| Motion.MoveTrace | panda_gym/grasp_env.py:298-337 | the whole loop's commands, each block solved at the state after the earlier ones; its meaning is `MoveTraceShape` and `MoveTraceTicks`, and `Move` is proved to send exactly it |
| Motion.MoveTraceSnoc | panda_gym/grasp_env.py:299-337 | one more loop iteration appends exactly one waypoint block, solved at the state after the previous ones |
| Motion.WaypointBlockShape | panda_gym/grasp_env.py:301-337 | one iteration's commands are n arm commands, the left and the right finger command at the held finger velocity capped at 0.10, and one tick |
| Motion.MoveTraceShape | panda_gym/grasp_env.py:298-337 | move's log is one block of n+3 commands per waypoint and nothing else. Block k is solved from the end-effector state just before it, toward waypoint k |
| Motion.WaypointBlockTicks | panda_gym/grasp_env.py:337 | each waypoint block holds exactly one tick |
| Motion.MoveTraceTicks | panda_gym/grasp_env.py:298-337 | move advances the simulation exactly once per planned waypoint, whatever num_steps was |
| Sim.Simulator.RemoveBody | panda_gym/grasp_env.py:101 | the body leaves the world and one removal is logged |
| Sim.Simulator.BaseHeight | panda_gym/grasp_env.py:149 | `getBasePositionAndOrientation(id)[0][2]`: the physics oracle's height of the body after the commands received so far |
| Sim.Simulator.EePose | panda_gym/grasp_env.py:262 | the physics oracle's end-effector pose after the commands received so far |
| Sim.Simulator.SetJointVelocity | panda_gym/grasp_env.py:309-314 | one velocity-control motor command is logged with its body, joint, target velocity, force and speed cap; the world is unchanged |
| Sim.Simulator.StepSimulation | panda_gym/grasp_env.py:337 | one tick is logged; the world is unchanged |
| Sim.Simulator.CreateBin | panda_gym/grasp_env.py:108-116 | the bin gets an id that is not live, enters the world, and one bin creation is logged |
| Sim.Simulator.LoadUrdf | panda_gym/grasp_env.py:124-128 | the body gets an id that is not live, enters the world, and one load with its file, position, yaw and base flag is logged |

## Left out

- `step`'s choreography (lines 200-219) is not modelled: the arm reset by inverse kinematics, the
  gripper commands and the three `move` calls. `Step` is the part after it. The choreography also
  passes `numSteps=` to `move`, whose parameter is `num_steps`. Python would reject that call, so
  the keyword mismatch is out of the model. The choreography uses the action itself as a position,
  with its yaw as the z coordinate (lines 207-209). The model does not capture that either.
  - Dropping the choreography has a cost. Its inverse-kinematics resets and `grasp` calls (lines
    203-215) add nothing to the log that the oracle reads. `Step` called straight after `Reset`
    therefore reads heights at the very log they were recorded at, so nothing counts as lifted and
    the reward is 0.
  - In the model, a lifted state is reached only through `Move` calls, or by other commands logged
    between the reset and the step.
- Methods of the robot base class are not part of this model: `init_pb`, `reset_robot`,
  `reset_arm_joints_ik`, `grasp`, `_get_obs`, `_get_ee` and `_get_arm_joints`.
  - `Reset` starts the session by loading only the plane and the table. The robot's reset (line
    182) may change the simulator without a logged command, and may reset the held finger velocity.
    The model leaves `fingerCurVel` unchanged across `Reset`.
  - The arm is not a body in the model's world. Nothing keeps the bin's or an object's id apart
    from the arm's body id (`Robot.pandaId`), which PyBullet would never hand out twice.
  - The end-effector pose and the arm joints are physics-oracle answers.
  - Neither `Reset` nor `Step` returns an observation.
- Three PyBullet calls are not modelled:
  - The `changeDynamics` friction settings (lines 131-141, 172-179). They do change the physics:
    friction decides whether a grasped object rises, and so the height `clear_obj` tests at line
    235. They are not logged. Their effect is folded into the physics oracle, since each follows a
    logged load with the fixed constants mu and sigma.
  - The collision and visual shapes of the bin.
  - `getNumJoints`.
  - The bin's fixed pose (0.5, 0, 0, a quarter turn about z) is in the meaning of the `CreateBin`
    event rather than in its fields.
  - Orientations are passed as yaw angles rather than as quaternions. The table's orientation is
    the identity, which is yaw 0.
- The geometry helpers are arbitrary functions, and so is the pseudo-inverse: `quatMult`,
  `euler2quat`, `quat2rot`, `log_rot`, `traj_time_scaling` and `full_jacob_pb`. Floating point is
  not modelled (`real`).
- `SendWaypoint`: the solved velocity is taken as a 7-vector. The model therefore assumes the arm
  has at most 7 joints and a force limit for each of them (`Robot.Valid`), and that the sliced
  Jacobian has 7 columns.
- Placements are modelled as (x, y, z, yaw) records. A placement list longer than four entries, or
  one entry shared by two placements (Python list aliasing), is not modelled. Writing a placement
  back into the caller's task stands for the in-place update of the shared list.
- A missing task (`task=None`) is not modelled: the source would fail on it.
- The `report` and `visualize` stubs raise NotImplementedError and are not modelled.
- The commented-out contact check in `move` is not modelled. Neither is the `height` list that
  `clear_obj` fills and never reads: `CollectLifted` keeps the list, but nothing is proved about it.
- `test/test_hammer.py` is not part of this model.

## Findings

The comment above the reward check (line 221) says it checks whether all objects were removed.
`reset_task` creates the bin separately from the objects (lines 107-117), but appends its id to the
same list. The model follows the code in `Step`, and this table records the discrepancy.
`GraspEnv.CorrectedStep` is the end of step with the corrected reward.

| source | as written | input that shows it | evidently intended | confidence | as-written member | corrected member |
|---|---|---|---|---|---|---|
| panda_gym/grasp_env.py:113-117 | the bin (a static body, mass 0) is appended to the object list and tested by `clear_obj` like an object. It never rises, so the list never empties and the reward is always 0 | bin 0 stays at height 0.0 and object 1 rises from 0.0 to 0.1: the survivors are [0] and the reward is 0 | reward 1 when every object other than the bin was lifted | not executed | Registry.StaticBinBlocksReward | Registry.IntendedReward |
