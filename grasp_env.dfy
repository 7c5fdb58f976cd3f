/** The grasping environment: the object registry it rebuilds on every task
    reset, the post-grasp check of step, and the command loop of move. The
    simulator is the abstract one of module Sim; the robot base class supplies
    the constants in Motion.Robot. */
module GraspEnvironment {
  import opened Values
  import opened Sim
  import opened Registry
  import opened Motion

  /** One object's placement in a task: position and yaw. */
  datatype InitState = InitState(x: real, y: real, z: real, yaw: real)

  /** The height added to a placement, in place, before its object is loaded (metres). */
  const SpawnLift: real := 0.1

  /** The simulation ticks reset_task waits for the objects to settle. */
  const SettleTicks: nat := 10

  /** The placement after reset_task's in-place `obj_init_state[-2] += 0.1`. */
  function Raised(s: InitState): InitState
  {
    s.(z := s.z + SpawnLift)
  }

  /** The placements after the first k have been raised once. */
  function RaisedPrefix(states: seq<InitState>, k: nat): (r: seq<InitState>)
    ensures |r| == |states|
    ensures forall i :: 0 <= i < |states| ==> r[i] == if i < k then Raised(states[i]) else states[i]
  {
    seq(|states|, i requires 0 <= i < |states| => if i < k then Raised(states[i]) else states[i])
  }

  function Min(a: nat, b: nat): nat { if a < b then a else b }

  /** The loadURDF calls for objects with these files, placements and ids. */
  function LoadEvents(paths: seq<string>, states: seq<InitState>, ids: seq<BodyId>): (r: seq<Event>)
    requires |paths| == |states| == |ids|
    ensures |r| == |ids|
    ensures forall i :: 0 <= i < |ids| ==>
              r[i] == LoadUrdf(paths[i], Vec3(states[i].x, states[i].y, states[i].z), states[i].yaw, false, ids[i])
  {
    if ids == [] then []
    else
      var n := |ids| - 1;
      LoadEvents(paths[..n], states[..n], ids[..n])
        + [LoadUrdf(paths[n], Vec3(states[n].x, states[n].y, states[n].z), states[n].yaw, false, ids[n])]
  }

  /** The height map reset_task records: each listed id to its height after `log`. */
  function HeightRecord(p: Physics, log: seq<Event>, ids: seq<BodyId>): (m: map<BodyId, real>)
    ensures m.Keys == Elems(ids)
    ensures forall id :: id in m ==> m[id] == p.heightOf(log, id)
  {
    map id | id in ids :: p.heightOf(log, id)
  }

  function Elems(s: seq<BodyId>): (r: set<BodyId>)
    ensures forall x :: x in r <==> x in s
  {
    set x | x in s
  }

  /** One more load appended to the log of the first j, after placement j was raised. */
  lemma LoadEventsSnoc(paths: seq<string>, orig: seq<InitState>, states: seq<InitState>,
                       ids: seq<BodyId>, j: nat, id: BodyId)
    requires j < |paths| && j < |orig| && |ids| == j
    requires states == RaisedPrefix(orig, j)[j := Raised(orig[j])]
    ensures states == RaisedPrefix(orig, j + 1)
    ensures LoadEvents(paths[..j + 1], states[..j + 1], ids + [id])
              == LoadEvents(paths[..j], RaisedPrefix(orig, j)[..j], ids)
                 + [LoadUrdf(paths[j], Vec3(states[j].x, states[j].y, states[j].z), states[j].yaw, false, id)]
  {
    assert paths[..j + 1][..j] == paths[..j];
    assert states[..j + 1][..j] == RaisedPrefix(orig, j)[..j];
    assert (ids + [id])[..j] == ids;
  }

  /** Ids listed once each, none of them among the given bodies. */
  ghost predicate FreshIds(ids: seq<BodyId>, live: set<BodyId>)
  {
    Distinct(ids) && forall t :: 0 <= t < |ids| ==> ids[t] !in live
  }

  /** Appending an id that is neither among the bodies nor already listed keeps
      the list fresh. */
  lemma FreshIdsSnoc(ids: seq<BodyId>, live: set<BodyId>, id: BodyId)
    requires FreshIds(ids, live) && id !in live + Elems(ids)
    ensures FreshIds(ids + [id], live)
    ensures Elems(ids + [id]) == Elems(ids) + {id}
  {
    assert forall t :: 0 <= t < |ids| ==> (ids + [id])[t] == ids[t];
  }

  /** The bin, fresh among the remaining bodies, followed by objects fresh among
      those and the bin, is a fresh registry. */
  lemma FreshRegistry(bin: BodyId, loaded: seq<BodyId>, remaining: set<BodyId>, live: set<BodyId>)
    requires bin !in remaining && live == remaining + {bin}
    requires FreshIds(loaded, live)
    ensures FreshIds([bin] + loaded, remaining)
    ensures Elems([bin] + loaded) == {bin} + Elems(loaded)
  {
    var ids := [bin] + loaded;
    assert forall t :: 1 <= t < |ids| ==> ids[t] == loaded[t - 1];
  }

  /** Extending a prefix of a list without repeats by its next id: that id is
      new, and the set and the removals grow by exactly it. */
  lemma RemovalPrefixStep(ids: seq<BodyId>, j: nat)
    requires Distinct(ids) && j < |ids|
    ensures ids[j] !in Elems(ids[..j])
    ensures Elems(ids[..j + 1]) == Elems(ids[..j]) + {ids[j]}
    ensures Removals(ids[..j + 1]) == Removals(ids[..j]) + [RemoveBody(ids[j])]
  {
    assert ids[..j + 1] == ids[..j] + [ids[j]];
    assert ids[..j + 1][..j] == ids[..j];
  }

  /** Every listed id is a live body with a recorded height, listed once; once
      connected, the plane and the table are two live bodies that are never listed. */
  ghost predicate SceneValid(ids: seq<BodyId>, heights: map<BodyId, real>, live: set<BodyId>,
                             connected: bool, plane: BodyId, table: BodyId)
  {
    && Distinct(ids)
    && Recorded(ids, heights)
    && (forall id :: id in ids ==> id in live)
    && (connected ==> plane in live && table in live && plane != table && plane !in ids && table !in ids)
  }

  /** Replacing the listed bodies by fresh ones, and recording a height for
      each, keeps the scene valid. */
  lemma ReplacedRegistryValid(oldIds: seq<BodyId>, oldHeights: map<BodyId, real>, live: set<BodyId>,
                              connected: bool, plane: BodyId, table: BodyId,
                              ids: seq<BodyId>, heights: map<BodyId, real>)
    requires SceneValid(oldIds, oldHeights, live, connected, plane, table)
    requires FreshIds(ids, live - Elems(oldIds))
    requires heights.Keys == Elems(ids)
    ensures SceneValid(ids, heights, live - Elems(oldIds) + Elems(ids), connected, plane, table)
  {
    if connected {
      forall t | 0 <= t < |ids|
        ensures ids[t] != plane && ids[t] != table
      {
        assert ids[t] !in live - Elems(oldIds);
      }
    }
  }

  /** Dropping some listed bodies from the list and from the world keeps the
      scene valid. */
  lemma ClearedRegistryValid(ids: seq<BodyId>, heights: map<BodyId, real>, live: set<BodyId>,
                             connected: bool, plane: BodyId, table: BodyId,
                             dropped: seq<BodyId>, kept: seq<BodyId>)
    requires SceneValid(ids, heights, live, connected, plane, table)
    requires forall id :: id in dropped ==> id in ids
    requires forall id :: id in kept ==> id in ids && id !in dropped
    requires Distinct(kept)
    ensures SceneValid(kept, heights, live - Elems(dropped), connected, plane, table)
  {
  }

  /** The loads reset makes before its first task: the plane and the table, both
      with a fixed base; nothing once the scene is loaded. */
  function SceneLoads(connected: bool, urdfRoot: string, plane: BodyId, table: BodyId): (r: seq<Event>)
    ensures connected <==> r == []
  {
    if connected then []
    else [LoadUrdf(urdfRoot + "/plane.urdf", Vec3(0.0, 0.0, -1.0), 0.0, true, plane),
          LoadUrdf(urdfRoot + "/table/table.urdf", Vec3(0.400, 0.000, -0.630 + 0.005), 0.0, true, table)]
  }

  /** The bodies reset adds before its first task. */
  function SceneBodies(connected: bool, plane: BodyId, table: BodyId): set<BodyId>
  {
    if connected then {} else {plane, table}
  }

  /** The task dictionary passed to reset: model files and placements. The
      environment writes the placements back, as the source does through the
      shared list objects. */
  class Task {
    var objPaths: seq<string>
    var objInitStates: seq<InitState>

    constructor (paths: seq<string>, states: seq<InitState>)
      ensures objPaths == paths && objInitStates == states
    {
      objPaths := paths;
      objInitStates := states;
    }
  }

  class GraspEnv {
    const sim: Simulator
    const ctl: Controller
    /** pybullet_data's directory of model files. */
    const urdfRoot: string

    /** Whether the simulator session has been started and the scene loaded. */
    var connected: bool
    var planeId: BodyId
    var tableId: BodyId
    /** _obj_id_list: the bin's id, then one id per loaded object. */
    var objIds: seq<BodyId>
    /** _obj_initial_height_list: id to the height recorded after settling. */
    var initialHeight: map<BodyId, real>
    var stepElapsed: int
    /** The finger velocity the robot base class holds between moves. */
    var fingerCurVel: real

    /** The robot's constants are consistent and the registry satisfies SceneValid. */
    ghost predicate Valid()
      reads this, sim
    {
      ctl.robot.Valid() && SceneValid(objIds, initialHeight, sim.live, connected, planeId, tableId)
    }

    constructor (sim: Simulator, ctl: Controller, urdfRoot: string, fingerVel: real)
      requires ctl.robot.Valid()
      ensures Valid()
      ensures this.sim == sim && this.ctl == ctl && this.urdfRoot == urdfRoot
      ensures !connected && objIds == [] && initialHeight == map[] && fingerCurVel == fingerVel
    {
      this.sim := sim;
      this.ctl := ctl;
      this.urdfRoot := urdfRoot;
      connected := false;
      planeId, tableId := 0, 0;
      objIds := [];
      initialHeight := map[];
      stepElapsed := 0;
      fingerCurVel := fingerVel;
    }

    /** reset_task: remove the previous task's bodies, add the bin and one body
        per (path, placement) pair, let them settle, and record every listed
        body's height. */
    method ResetTask(task: Task)
      requires Valid()
      modifies this`objIds, this`initialHeight, sim, task
      ensures Valid()
      ensures task.objPaths == old(task.objPaths)
      ensures var k := Min(|old(task.objPaths)|, |old(task.objInitStates)|);
              && task.objInitStates == RaisedPrefix(old(task.objInitStates), k)
              && |objIds| == 1 + k
              && sim.log == old(sim.log) + Removals(old(objIds)) + [CreateBin(objIds[0])]
                            + LoadEvents(task.objPaths[..k], task.objInitStates[..k], objIds[1..])
                            + Ticks(SettleTicks)
      ensures FreshIds(objIds, old(sim.live) - Elems(old(objIds)))
      ensures sim.live == old(sim.live) - Elems(old(objIds)) + Elems(objIds)
      ensures initialHeight == HeightRecord(sim.physics, sim.log, objIds)
    {
      ghost var oldIds, oldHeights, live0 := objIds, initialHeight, sim.live;
      ghost var c0, p0, t0 := connected, planeId, tableId;
      assert SceneValid(oldIds, oldHeights, live0, c0, p0, t0);
      var binId := ClearTable();
      assert connected == c0 && planeId == p0 && tableId == t0;
      ghost var log1, live1 := sim.log, sim.live;
      ghost var loaded := LoadObjects(task);
      assert connected == c0 && planeId == p0 && tableId == t0;
      assert objIds[1..] == loaded;
      FreshRegistry(binId, loaded, live0 - Elems(oldIds), live1);
      SettleAndRecord();
      assert connected == c0 && planeId == p0 && tableId == t0;
      ReplacedRegistryValid(oldIds, oldHeights, live0, c0, p0, t0, objIds, initialHeight);
    }

    /** reset_task up to the load loop: remove the listed bodies, empty the
        registry, and add the bin as its first entry. */
    method ClearTable() returns (binId: BodyId)
      modifies this`objIds, this`initialHeight, sim
      ensures objIds == [binId] && initialHeight == map[]
      ensures binId !in old(sim.live) - Elems(old(objIds))
      ensures sim.live == old(sim.live) - Elems(old(objIds)) + {binId}
      ensures sim.log == old(sim.log) + Removals(old(objIds)) + [CreateBin(binId)]
    {
      RemoveListedBodies();
      objIds := [];
      initialHeight := map[];
      binId := sim.CreateBin();
      objIds := objIds + [binId];
    }

    /** reset_task's first loop: remove every listed body from the simulator. */
    method RemoveListedBodies()
      modifies sim
      ensures sim.log == old(sim.log) + Removals(objIds)
      ensures sim.live == old(sim.live) - Elems(objIds)
    {
      var i := 0;
      while i < |objIds|
        invariant 0 <= i <= |objIds|
        invariant sim.log == old(sim.log) + Removals(objIds[..i])
        invariant sim.live == old(sim.live) - Elems(objIds[..i])
      {
        assert objIds[..i + 1] == objIds[..i] + [objIds[i]];
        assert Elems(objIds[..i + 1]) == Elems(objIds[..i]) + {objIds[i]};
        sim.RemoveBody(objIds[i]);
        i := i + 1;
      }
      assert objIds[..i] == objIds;
    }

    /** reset_task's load loop: for each (path, placement) pair, raise the
        placement in place, load the body there and append its id. */
    method LoadObjects(task: Task) returns (ghost loaded: seq<BodyId>)
      modifies this`objIds, sim, task
      ensures task.objPaths == old(task.objPaths)
      ensures var k := Min(|old(task.objPaths)|, |old(task.objInitStates)|);
              && task.objInitStates == RaisedPrefix(old(task.objInitStates), k)
              && |loaded| == k
              && sim.log == old(sim.log) + LoadEvents(task.objPaths[..k], task.objInitStates[..k], loaded)
      ensures objIds == old(objIds) + loaded
      ensures FreshIds(loaded, old(sim.live))
      ensures sim.live == old(sim.live) + Elems(loaded)
    {
      ghost var states0, ids0, live0, log0 := task.objInitStates, objIds, sim.live, sim.log;
      var k := Min(|task.objPaths|, |task.objInitStates|);
      loaded := [];
      var j := 0;
      while j < k
        invariant 0 <= j <= k && |loaded| == j
        invariant task.objPaths == old(task.objPaths)
        invariant task.objInitStates == RaisedPrefix(states0, j)
        invariant objIds == ids0 + loaded
        invariant FreshIds(loaded, live0)
        invariant sim.live == live0 + Elems(loaded)
        invariant sim.log == log0 + LoadEvents(task.objPaths[..j], task.objInitStates[..j], loaded)
      {
        var id := LoadOne(task, j);
        ghost var state := task.objInitStates[j];
        ghost var e := LoadUrdf(task.objPaths[j], Vec3(state.x, state.y, state.z), state.yaw, false, id);
        ConcatAssoc(ids0, loaded, [id]);
        ConcatAssoc(log0, LoadEvents(task.objPaths[..j], RaisedPrefix(states0, j)[..j], loaded), [e]);
        LoadEventsSnoc(task.objPaths, states0, task.objInitStates, loaded, j, id);
        FreshIdsSnoc(loaded, live0, id);
        loaded := loaded + [id];
        j := j + 1;
      }
    }

    /** One pass of the load loop: raise placement j in place, load object j
        there, and append its id. */
    method LoadOne(task: Task, j: nat) returns (id: BodyId)
      requires j < |task.objPaths| && j < |task.objInitStates|
      modifies this`objIds, sim, task
      ensures task.objPaths == old(task.objPaths)
      ensures task.objInitStates == old(task.objInitStates)[j := Raised(old(task.objInitStates)[j])]
      ensures objIds == old(objIds) + [id]
      ensures id !in old(sim.live) && sim.live == old(sim.live) + {id}
      ensures var state := task.objInitStates[j];
              sim.log == old(sim.log) + [LoadUrdf(task.objPaths[j], Vec3(state.x, state.y, state.z), state.yaw, false, id)]
    {
      var state := Raised(task.objInitStates[j]);
      task.objInitStates := task.objInitStates[j := state];
      id := sim.LoadUrdf(task.objPaths[j], Vec3(state.x, state.y, state.z), state.yaw, false);
      objIds := objIds + [id];
    }

    /** reset_task's last two loops: ten simulation ticks, then every listed
        body's current height stored under its id in the emptied map. */
    method SettleAndRecord()
      requires initialHeight == map[]
      modifies this`initialHeight, sim
      ensures sim.live == old(sim.live)
      ensures sim.log == old(sim.log) + Ticks(SettleTicks)
      ensures initialHeight == HeightRecord(sim.physics, sim.log, objIds)
    {
      var t := 0;
      while t < SettleTicks
        invariant 0 <= t <= SettleTicks
        invariant initialHeight == map[]
        invariant sim.live == old(sim.live)
        invariant sim.log == old(sim.log) + Ticks(t)
      {
        sim.StepSimulation();
        t := t + 1;
      }

      var r := 0;
      ghost var settled := sim.log;
      assert HeightRecord(sim.physics, sim.log, objIds[..0]) == initialHeight;
      while r < |objIds|
        invariant 0 <= r <= |objIds|
        invariant sim.live == old(sim.live) && sim.log == settled
        invariant initialHeight == HeightRecord(sim.physics, sim.log, objIds[..r])
      {
        assert objIds[..r + 1] == objIds[..r] + [objIds[r]];
        initialHeight := initialHeight[objIds[r] := sim.BaseHeight(objIds[r])];
        r := r + 1;
      }
      assert objIds[..r] == objIds;
    }

    /** reset: start the session and load the scene on the first call, then
        reset the task and the step counter. */
    method Reset(task: Task)
      requires Valid()
      modifies this`connected, this`planeId, this`tableId, this`objIds, this`initialHeight, this`stepElapsed
      modifies sim, task
      ensures Valid() && connected && stepElapsed == 0
      ensures old(connected) ==> planeId == old(planeId) && tableId == old(tableId)
      ensures task.objPaths == old(task.objPaths)
      ensures var k := Min(|old(task.objPaths)|, |old(task.objInitStates)|);
              && task.objInitStates == RaisedPrefix(old(task.objInitStates), k)
              && |objIds| == 1 + k
      ensures !old(connected) ==> planeId !in old(sim.live) && tableId !in old(sim.live) + {planeId}
      ensures var k := Min(|old(task.objPaths)|, |old(task.objInitStates)|);
              sim.log == old(sim.log) + SceneLoads(old(connected), urdfRoot, planeId, tableId)
                         + Removals(old(objIds)) + [CreateBin(objIds[0])]
                         + LoadEvents(task.objPaths[..k], task.objInitStates[..k], objIds[1..])
                         + Ticks(SettleTicks)
      ensures var scene := old(sim.live) + SceneBodies(old(connected), planeId, tableId);
              && FreshIds(objIds, scene - Elems(old(objIds)))
              && sim.live == scene - Elems(old(objIds)) + Elems(objIds)
      ensures initialHeight == HeightRecord(sim.physics, sim.log, objIds)
    {
      ghost var ids0 := objIds;
      LoadScene();
      ghost var log1, live1, p1, t1 := sim.log, sim.live, planeId, tableId;
      assert objIds == ids0;
      ResetTask(task);
      assert connected && planeId == p1 && tableId == t1;
      stepElapsed := 0;
    }

    /** reset's first-call branch: start the session and load the plane and the
        table, each with a fixed base. */
    method LoadScene()
      requires Valid()
      modifies this`connected, this`planeId, this`tableId, sim
      ensures Valid() && connected
      ensures old(connected) ==> planeId == old(planeId) && tableId == old(tableId)
      ensures !old(connected) ==> planeId !in old(sim.live) && tableId !in old(sim.live) + {planeId}
      ensures sim.log == old(sim.log) + SceneLoads(old(connected), urdfRoot, planeId, tableId)
      ensures sim.live == old(sim.live) + SceneBodies(old(connected), planeId, tableId)
    {
      if !connected {
        planeId := sim.LoadUrdf(urdfRoot + "/plane.urdf", Vec3(0.0, 0.0, -1.0), 0.0, true);
        tableId := sim.LoadUrdf(urdfRoot + "/table/table.urdf", Vec3(0.400, 0.000, -0.630 + 0.005), 0.0, true);
        connected := true;
      }
    }

    /** clear_obj: read every listed body's height, then remove (from the
        simulator and from the list) those that rose more than the threshold. */
    method ClearObj()
      requires Valid()
      modifies this`objIds, sim
      ensures Valid()
      ensures objIds == Survivors(old(objIds), initialHeight, sim.physics, old(sim.log))
      ensures initialHeight == old(initialHeight)
      ensures var lifted := LiftedIds(old(objIds), initialHeight, sim.physics, old(sim.log));
              && sim.log == old(sim.log) + Removals(lifted)
              && sim.live == old(sim.live) - Elems(lifted)
    {
      ghost var ids0, live0 := objIds, sim.live;
      ghost var c0, p0, t0 := connected, planeId, tableId;
      assert SceneValid(ids0, initialHeight, live0, c0, p0, t0);
      var toRemove := CollectLifted();
      RemoveCollected(toRemove);
      assert connected == c0 && planeId == p0 && tableId == t0;
      WithoutLiftedIsSurvivors(ids0, Elems(toRemove), initialHeight, sim.physics, old(sim.log));
      ClearedRegistryValid(ids0, initialHeight, live0, c0, p0, t0, toRemove, objIds);
    }

    /** clear_obj's first loop: read every listed body's height, and collect the
        ids that rose more than the threshold, in list order. */
    method CollectLifted() returns (toRemove: seq<BodyId>)
      requires Recorded(objIds, initialHeight)
      ensures toRemove == LiftedIds(objIds, initialHeight, sim.physics, sim.log)
    {
      var height: seq<real> := [];
      toRemove := [];
      var i := 0;
      while i < |objIds|
        invariant 0 <= i <= |objIds| && |height| == i
        invariant toRemove == LiftedIds(objIds[..i], initialHeight, sim.physics, sim.log)
      {
        assert objIds[..i + 1] == objIds[..i] + [objIds[i]];
        LiftedIdsSnoc(objIds[..i], objIds[i], initialHeight, sim.physics, sim.log);
        var h := sim.BaseHeight(objIds[i]);
        height := height + [h];
        if h - initialHeight[objIds[i]] > LiftThreshold {
          toRemove := toRemove + [objIds[i]];
        }
        i := i + 1;
      }
      assert objIds[..i] == objIds;
    }

    /** clear_obj's second loop: remove each collected id from the simulator and
        its first occurrence from the list. */
    method RemoveCollected(toRemove: seq<BodyId>)
      requires Distinct(objIds) && Distinct(toRemove)
      requires forall id :: id in toRemove ==> id in objIds
      modifies this`objIds, sim
      ensures objIds == Without(old(objIds), Elems(toRemove))
      ensures sim.log == old(sim.log) + Removals(toRemove)
      ensures sim.live == old(sim.live) - Elems(toRemove)
    {
      ghost var ids0, log0, live0 := objIds, sim.log, sim.live;
      var j := 0;
      WithoutNothing(objIds);
      assert Elems(toRemove[..0]) == {};
      while j < |toRemove|
        invariant 0 <= j <= |toRemove|
        invariant objIds == Without(ids0, Elems(toRemove[..j]))
        invariant sim.log == log0 + Removals(toRemove[..j])
        invariant sim.live == live0 - Elems(toRemove[..j])
      {
        var id := toRemove[j];
        RemovalPrefixStep(toRemove, j);
        ConcatAssoc(log0, Removals(toRemove[..j]), [RemoveBody(id)]);
        RemoveOne(ids0, Elems(toRemove[..j]), id);
        j := j + 1;
      }
      assert toRemove[..j] == toRemove;
    }

    /** One pass of clear_obj's removal loop: remove the body from the
        simulator and the first occurrence of its id from the list. */
    method RemoveOne(ghost ids0: seq<BodyId>, ghost removed: set<BodyId>, id: BodyId)
      requires Distinct(ids0) && id in ids0 && id !in removed
      requires objIds == Without(ids0, removed)
      modifies this`objIds, sim
      ensures objIds == Without(ids0, removed + {id})
      ensures sim.log == old(sim.log) + [RemoveBody(id)]
      ensures sim.live == old(sim.live) - {id}
    {
      RemoveFirstWithout(ids0, removed, id);
      sim.RemoveBody(id);
      objIds := RemoveFirst(objIds, id);
    }

    /** The end of step, after the grasp choreography: clear lifted objects and
        report the reward, done = True and an empty info dictionary. */
    method Step() returns (reward: int, done: bool, info: map<string, string>)
      requires Valid()
      modifies this`objIds, sim
      ensures Valid()
      ensures objIds == Survivors(old(objIds), initialHeight, sim.physics, old(sim.log))
      ensures initialHeight == old(initialHeight)
      ensures var lifted := LiftedIds(old(objIds), initialHeight, sim.physics, old(sim.log));
              && sim.log == old(sim.log) + Removals(lifted)
              && sim.live == old(sim.live) - Elems(lifted)
      ensures reward == Reward(objIds)
      ensures reward == 1 <==> forall id :: id in old(objIds) ==> Lifted(sim.physics, old(sim.log), old(initialHeight), id)
      ensures done && info == map[]
    {
      ClearObj();
      RewardIffAllLifted(old(objIds), initialHeight, sim.physics, old(sim.log));
      if |objIds| == 0 {
        reward := 1;
      } else {
        reward := 0;
      }
      done := true;
      info := map[];
    }

    /** The end of step with the corrected reward: the bin at the head of the
        list does not count as an object left on the table. */
    method CorrectedStep() returns (reward: int, done: bool, info: map<string, string>)
      requires Valid()
      modifies this`objIds, sim
      ensures Valid()
      ensures objIds == Survivors(old(objIds), initialHeight, sim.physics, old(sim.log))
      ensures initialHeight == old(initialHeight)
      ensures var lifted := LiftedIds(old(objIds), initialHeight, sim.physics, old(sim.log));
              && sim.log == old(sim.log) + Removals(lifted)
              && sim.live == old(sim.live) - Elems(lifted)
      ensures reward == IntendedReward(old(objIds), initialHeight, sim.physics, old(sim.log))
      ensures done && info == map[]
    {
      var ids0 := objIds;
      ClearObj();
      IntendedRewardIffOnlyBinLeft(ids0, initialHeight, sim.physics, old(sim.log));
      if objIds == [] || (ids0 != [] && objIds == [ids0[0]]) {
        reward := 1;
      } else {
        reward := 0;
      }
      done := true;
      info := map[];
    }

    /** move: resolve the target pose, plan the waypoints, and for each waypoint
        send the arm and finger velocity commands and one tick. */
    method Move(args: MoveArgs)
      requires Valid()
      modifies sim
      ensures Valid()
      ensures sim.live == old(sim.live)
      ensures sim.log == old(sim.log)
                         + MoveTrace(ctl, sim.physics, old(sim.log), PlannedPath(ctl, old(sim.EePose()), args),
                                     TargetOrn(ctl.geo, args, old(sim.EePose()).quat), args, fingerCurVel)
    {
      var ee := sim.EePose();
      var targetPos := TargetPos(args, ee.pos);
      var targetOrn := TargetOrn(ctl.geo, args, ee.quat);
      var trajPos := ctl.geo.trajTimeScaling(ee.pos, targetPos, args.numSteps);

      ghost var log0 := sim.log;
      var numSteps := |trajPos|;
      var step := 0;
      while step < numSteps
        invariant 0 <= step <= numSteps
        invariant sim.live == old(sim.live)
        invariant sim.log == log0 + MoveTrace(ctl, sim.physics, log0, trajPos[..step], targetOrn, args, fingerCurVel)
      {
        ghost var before := MoveTrace(ctl, sim.physics, log0, trajPos[..step], targetOrn, args, fingerCurVel);
        SendWaypoint(trajPos[step], targetOrn, args);
        ghost var block := WaypointBlock(ctl, sim.physics, log0 + before, trajPos[step], targetOrn, args, fingerCurVel);
        ConcatAssoc(log0, before, block);
        MoveTraceSnoc(ctl, sim.physics, log0, trajPos, step, targetOrn, args, fingerCurVel);
        step := step + 1;
      }
      assert trajPos[..numSteps] == trajPos;
    }

    /** One iteration of move's loop: solve the joint velocities for the
        waypoint, command every arm joint, then both fingers, then tick once. */
    method SendWaypoint(waypoint: Vec3, targetOrn: Quat, args: MoveArgs)
      requires ctl.robot.Valid()
      modifies sim
      ensures sim.live == old(sim.live)
      ensures sim.log == old(sim.log) + WaypointBlock(ctl, sim.physics, old(sim.log), waypoint, targetOrn, args, fingerCurVel)
    {
      var jointDot := TrackingVelocity(ctl, sim.physics, sim.log, waypoint, targetOrn, args.posGain, args.velGain);
      ghost var log0 := sim.log;
      var i := 0;
      while i < ctl.robot.numJointArm
        invariant 0 <= i <= ctl.robot.numJointArm
        invariant sim.live == old(sim.live)
        invariant sim.log == log0 + ArmCommands(ctl.robot, jointDot, args.maxJointVel, i)
      {
        sim.SetJointVelocity(ctl.robot.pandaId, i, jointDot[i], ctl.robot.maxJointForce[i], args.maxJointVel);
        i := i + 1;
      }
      var arm := sim.log;
      sim.SetJointVelocity(ctl.robot.pandaId, ctl.robot.leftFinger, fingerCurVel, ctl.robot.maxFingerForce, FingerMaxVelocity);
      sim.SetJointVelocity(ctl.robot.pandaId, ctl.robot.rightFinger, fingerCurVel, ctl.robot.maxFingerForce, FingerMaxVelocity);
      assert sim.log == arm + FingerCommands(ctl.robot, fingerCurVel);
      sim.StepSimulation();
    }
  }

  /** Two resets with the same task raise each used placement twice: the
      caller's task keeps the accumulated offset. */
  method ResetTwiceRaisesTwice(env: GraspEnv, task: Task)
    requires env.Valid()
    modifies env`objIds, env`initialHeight, env.sim, task
    ensures task.objPaths == old(task.objPaths) && |task.objInitStates| == |old(task.objInitStates)|
    ensures forall i :: 0 <= i < Min(|task.objPaths|, |task.objInitStates|) ==>
              task.objInitStates[i] == old(task.objInitStates)[i].(z := old(task.objInitStates)[i].z + 0.2)
    ensures forall i :: Min(|task.objPaths|, |task.objInitStates|) <= i < |task.objInitStates| ==>
              task.objInitStates[i] == old(task.objInitStates)[i]
  {
    ghost var states0 := task.objInitStates;
    var k := Min(|task.objPaths|, |task.objInitStates|);
    env.ResetTask(task);
    assert task.objInitStates == RaisedPrefix(states0, k);
    env.ResetTask(task);
    assert task.objInitStates == RaisedPrefix(RaisedPrefix(states0, k), k);
    RaisedTwice(states0, k);
  }

  /** Raising the same placements twice lifts each of them by twice the spawn lift. */
  lemma RaisedTwice(states: seq<InitState>, k: nat)
    ensures forall i :: 0 <= i < |states| && i < k ==>
              RaisedPrefix(RaisedPrefix(states, k), k)[i] == states[i].(z := states[i].z + 0.2)
    ensures forall i :: k <= i < |states| ==> RaisedPrefix(RaisedPrefix(states, k), k)[i] == states[i]
  {
  }

  /** As written, a registry whose bin stays where it was recorded never earns the reward. */
  method StaticBinMeansNoReward(env: GraspEnv) returns (reward: int)
    requires env.Valid() && env.objIds != []
    requires env.sim.BaseHeight(env.objIds[0]) == env.initialHeight[env.objIds[0]]
    modifies env`objIds, env.sim
    ensures reward == 0
  {
    StaticBinBlocksReward(env.objIds, env.initialHeight, env.sim.physics, env.sim.log);
    var done: bool;
    var info: map<string, string>;
    reward, done, info := env.Step();
  }
}
