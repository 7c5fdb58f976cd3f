/** The object registry: the ordered list of object ids with the heights they
    were recorded at, and the lift test that decides which objects count as
    grasped. Everything here is a pure function of the id list, the recorded
    heights and the simulator's height oracle at one moment. */
module Registry {
  import opened Values
  import opened Sim

  /** How far above its recorded height a body must rise to count as lifted (metres). */
  const LiftThreshold: real := 0.03

  predicate Distinct(s: seq<BodyId>)
  {
    forall i, j :: 0 <= i < j < |s| ==> s[i] != s[j]
  }

  /** Every id of the list has a recorded initial height. */
  predicate Recorded(ids: seq<BodyId>, init: map<BodyId, real>)
  {
    forall id :: id in ids ==> id in init
  }

  /** a is a subsequence of b: its elements appear in b in the same relative order. */
  predicate IsSubsequence(a: seq<BodyId>, b: seq<BodyId>)
    decreases |b|
  {
    if a == [] then true
    else if b == [] then false
    else if a[0] == b[0] then IsSubsequence(a[1..], b[1..])
    else IsSubsequence(a, b[1..])
  }

  /** The body's height now, minus its recorded height, is strictly above the threshold. */
  predicate Lifted(p: Physics, log: seq<Event>, init: map<BodyId, real>, id: BodyId)
    requires id in init
  {
    p.heightOf(log, id) - init[id] > LiftThreshold
  }

  /** The ids clear_obj collects for removal, in list order. */
  function LiftedIds(ids: seq<BodyId>, init: map<BodyId, real>, p: Physics, log: seq<Event>): (r: seq<BodyId>)
    requires Recorded(ids, init)
    ensures forall id :: id in r <==> id in ids && Lifted(p, log, init, id)
    ensures IsSubsequence(r, ids)
    ensures Distinct(ids) ==> Distinct(r)
    decreases |ids|
  {
    if ids == [] then []
    else
      var rest := LiftedIds(ids[1..], init, p, log);
      assert forall id :: id in ids <==> id == ids[0] || id in ids[1..];
      if Lifted(p, log, init, ids[0]) then [ids[0]] + rest else rest
  }

  /** The ids that stay registered: those not lifted, in list order. */
  function Survivors(ids: seq<BodyId>, init: map<BodyId, real>, p: Physics, log: seq<Event>): (r: seq<BodyId>)
    requires Recorded(ids, init)
    ensures forall id :: id in r <==> id in ids && !Lifted(p, log, init, id)
    ensures IsSubsequence(r, ids)
    ensures Distinct(ids) ==> Distinct(r)
    decreases |ids|
  {
    if ids == [] then []
    else
      var rest := Survivors(ids[1..], init, p, log);
      assert forall id :: id in ids <==> id == ids[0] || id in ids[1..];
      if Lifted(p, log, init, ids[0]) then rest else [ids[0]] + rest
  }

  /** Every id is either lifted or survives, never both. */
  lemma {:induction false} LiftedSurvivorsPartition(ids: seq<BodyId>, init: map<BodyId, real>, p: Physics, log: seq<Event>)
    requires Recorded(ids, init)
    ensures |LiftedIds(ids, init, p, log)| + |Survivors(ids, init, p, log)| == |ids|
    decreases |ids|
  {
    if ids != [] {
      LiftedSurvivorsPartition(ids[1..], init, p, log);
    }
  }

  /** Collecting lifted ids one at a time, as the first loop of clear_obj does. */
  lemma {:induction false} LiftedIdsSnoc(ids: seq<BodyId>, x: BodyId, init: map<BodyId, real>, p: Physics, log: seq<Event>)
    requires Recorded(ids + [x], init)
    ensures Recorded(ids, init)
    ensures LiftedIds(ids + [x], init, p, log)
         == LiftedIds(ids, init, p, log) + (if Lifted(p, log, init, x) then [x] else [])
    decreases |ids|
  {
    assert forall id :: id in ids ==> id in ids + [x];
    if ids == [] {
      assert ids + [x] == [x];
    } else {
      assert (ids + [x])[1..] == ids[1..] + [x];
      LiftedIdsSnoc(ids[1..], x, init, p, log);
    }
  }

  /** The list with every member of S dropped, order kept. */
  function Without(s: seq<BodyId>, S: set<BodyId>): (r: seq<BodyId>)
    ensures forall id :: id in r <==> id in s && id !in S
    decreases |s|
  {
    if s == [] then []
    else
      assert forall id :: id in s <==> id == s[0] || id in s[1..];
      (if s[0] in S then [] else [s[0]]) + Without(s[1..], S)
  }

  /** Python's list.remove: drop the first occurrence of x. */
  function RemoveFirst(s: seq<BodyId>, x: BodyId): (r: seq<BodyId>)
    requires x in s
    ensures |r| == |s| - 1
    decreases |s|
  {
    if s[0] == x then s[1..]
    else
      assert x in s[1..] by {
        var k :| 0 <= k < |s| && s[k] == x;
        assert s[1..][k - 1] == x;
      }
      [s[0]] + RemoveFirst(s[1..], x)
  }

  /** The position of the first occurrence of x. */
  function FirstIndex(s: seq<BodyId>, x: BodyId): (i: nat)
    requires x in s
    ensures i < |s| && s[i] == x
    ensures forall k :: 0 <= k < i ==> s[k] != x
    decreases |s|
  {
    if s[0] == x then 0
    else
      assert x in s[1..] by {
        var k :| 0 <= k < |s| && s[k] == x;
        assert s[1..][k - 1] == x;
      }
      1 + FirstIndex(s[1..], x)
  }

  /** list.remove cuts the list at the first occurrence of x and drops exactly that element. */
  lemma {:induction false} RemoveFirstSplits(s: seq<BodyId>, x: BodyId)
    requires x in s
    ensures var i := FirstIndex(s, x); RemoveFirst(s, x) == s[..i] + s[i + 1..]
    decreases |s|
  {
    if s[0] != x {
      var t := s[1..];
      assert x in t by {
        var k :| 0 <= k < |s| && s[k] == x;
        assert t[k - 1] == x;
      }
      RemoveFirstSplits(t, x);
      var j := FirstIndex(t, x);
      assert FirstIndex(s, x) == j + 1;
      assert s[..j + 1] == [s[0]] + t[..j];
      assert s[j + 2..] == t[j + 1..];
      ConcatAssoc([s[0]], t[..j], t[j + 1..]);
    }
  }

  /** Dropping nothing keeps the whole list. */
  lemma {:induction false} WithoutNothing(s: seq<BodyId>)
    ensures Without(s, {}) == s
    decreases |s|
  {
    if s != [] {
      WithoutNothing(s[1..]);
    }
  }

  /** Dropping an id that is not in the list changes nothing. */
  lemma {:induction false} WithoutAbsent(s: seq<BodyId>, S: set<BodyId>, y: BodyId)
    requires y !in s
    ensures Without(s, S + {y}) == Without(s, S)
    decreases |s|
  {
    if s != [] {
      WithoutAbsent(s[1..], S, y);
    }
  }

  lemma DistinctTail(s: seq<BodyId>)
    requires Distinct(s) && s != []
    ensures Distinct(s[1..]) && s[0] !in s[1..]
  {
    forall i, j | 0 <= i < j < |s[1..]| ensures s[1..][i] != s[1..][j] {
      assert s[1..][i] == s[i + 1] && s[1..][j] == s[j + 1];
    }
    forall k | 0 <= k < |s[1..]| ensures s[1..][k] != s[0] {
      assert s[1..][k] == s[k + 1];
    }
  }

  lemma RemoveFirstBehindHead(x: BodyId, w: seq<BodyId>, y: BodyId)
    requires y in w && x != y
    ensures RemoveFirst([x] + w, y) == [x] + RemoveFirst(w, y)
  {
    assert ([x] + w)[0] == x && ([x] + w)[1..] == w;
  }

  /** On a list without repeats, list.remove of a not yet dropped member is the
      same as adding it to the dropped set. */
  lemma {:induction false} RemoveFirstWithout(s: seq<BodyId>, S: set<BodyId>, y: BodyId)
    requires Distinct(s) && y in s && y !in S
    ensures y in Without(s, S)
    ensures RemoveFirst(Without(s, S), y) == Without(s, S + {y})
    decreases |s|
  {
    DistinctTail(s);
    var t := s[1..];
    if s[0] == y {
      assert Without(s, S) == [y] + Without(t, S);
      assert Without(s, S + {y}) == Without(t, S + {y});
      WithoutAbsent(t, S, y);
    } else {
      assert y in t;
      RemoveFirstWithout(t, S, y);
      if s[0] in S {
        assert Without(s, S) == Without(t, S);
        assert Without(s, S + {y}) == Without(t, S + {y});
      } else {
        assert Without(s, S) == [s[0]] + Without(t, S);
        assert Without(s, S + {y}) == [s[0]] + Without(t, S + {y});
        RemoveFirstBehindHead(s[0], Without(t, S), y);
      }
    }
  }

  /** Dropping exactly the lifted ids leaves the survivors. */
  lemma {:induction false} WithoutLiftedIsSurvivors(ids: seq<BodyId>, S: set<BodyId>, init: map<BodyId, real>, p: Physics, log: seq<Event>)
    requires Recorded(ids, init)
    requires forall id :: id in ids ==> (id in S <==> Lifted(p, log, init, id))
    ensures Without(ids, S) == Survivors(ids, init, p, log)
    decreases |ids|
  {
    if ids != [] {
      assert forall id :: id in ids[1..] ==> id in ids;
      WithoutLiftedIsSurvivors(ids[1..], S, init, p, log);
    }
  }

  /** The step reward: 1 when nothing is left registered, otherwise 0. */
  function Reward(remaining: seq<BodyId>): (r: int)
    ensures r == 0 || r == 1
    ensures r == 1 <==> remaining == []
  {
    if remaining == [] then 1 else 0
  }

  /** Reward 1 after the clear exactly when every registered id was lifted. */
  lemma RewardIffAllLifted(ids: seq<BodyId>, init: map<BodyId, real>, p: Physics, log: seq<Event>)
    requires Recorded(ids, init)
    ensures Reward(Survivors(ids, init, p, log)) == 1 <==> forall id :: id in ids ==> Lifted(p, log, init, id)
  {
    var r := Survivors(ids, init, p, log);
    if r != [] {
      assert r[0] in r;
    }
  }

  // ---------------------------------------------------------------------------
  // The bin is registered too. reset_task puts the bin's id at the head of the
  // list and records its height like any object's, and clear_obj tests it like
  // any object. The bin is a static body (mass 0): it never rises, so the list
  // never empties and the reward as written is always 0.

  /** As written: a bin that stays at its recorded height keeps the reward at 0,
      whatever happens to the objects. */
  lemma StaticBinBlocksReward(ids: seq<BodyId>, init: map<BodyId, real>, p: Physics, log: seq<Event>)
    requires Recorded(ids, init) && ids != []
    requires p.heightOf(log, ids[0]) == init[ids[0]]
    ensures Reward(Survivors(ids, init, p, log)) == 0
  {
    assert ids[0] in ids;
    assert ids[0] in Survivors(ids, init, p, log);
  }

  /** A concrete case: bin 0 stays put, object 1 rises 10 cm, and the reward as
      written is 0 although the evidently intended reward is 1. */
  lemma LiftedObjectGetsNoReward()
    ensures Reward(Survivors([0, 1], map[0 := 0.0, 1 := 0.0],
                             Physics((l: seq<Event>, id: BodyId) => if id == 0 then 0.0 else 0.1,
                                     (l: seq<Event>) => Sim.Pose(Vec3(0.0, 0.0, 0.0), StraightDown),
                                     (l: seq<Event>) => [],
                                     (l: seq<Event>, q: seq<real>) => ([], [])),
                             [])) == 0
    ensures IntendedReward([0, 1], map[0 := 0.0, 1 := 0.0],
                           Physics((l: seq<Event>, id: BodyId) => if id == 0 then 0.0 else 0.1,
                                   (l: seq<Event>) => Sim.Pose(Vec3(0.0, 0.0, 0.0), StraightDown),
                                   (l: seq<Event>) => [],
                                   (l: seq<Event>, q: seq<real>) => ([], [])),
                           []) == 1
  {
    var p := Physics((l: seq<Event>, id: BodyId) => if id == 0 then 0.0 else 0.1,
                     (l: seq<Event>) => Sim.Pose(Vec3(0.0, 0.0, 0.0), StraightDown),
                     (l: seq<Event>) => [],
                     (l: seq<Event>, q: seq<real>) => ([], []));
    var init := map[0 := 0.0, 1 := 0.0];
    StaticBinBlocksReward([0, 1], init, p, []);
    assert [0, 1][1..] == [1];
    assert Lifted(p, [], init, 1);
  }

  /** The objects of a registry list: everything after the bin at its head. */
  function Objects(ids: seq<BodyId>): (r: seq<BodyId>)
    ensures ids != [] ==> ids == [ids[0]] + r
    ensures ids == [] ==> r == []
  {
    if ids == [] then [] else ids[1..]
  }

  /** Corrected reward: 1 exactly when every object other than the bin was lifted. */
  function IntendedReward(ids: seq<BodyId>, init: map<BodyId, real>, p: Physics, log: seq<Event>): (r: int)
    requires Recorded(ids, init)
    ensures r == 0 || r == 1
    ensures r == 1 <==> forall k :: 1 <= k < |ids| ==> Lifted(p, log, init, ids[k])
  {
    var objects := Objects(ids);
    assert forall id :: id in objects ==> id in ids;
    assert forall k :: 1 <= k < |ids| ==> ids[k] == objects[k - 1];
    RewardIffAllLifted(objects, init, p, log);
    Reward(Survivors(objects, init, p, log))
  }

  /** The corrected reward is 1 exactly when the clear leaves nothing registered
      but the bin. */
  lemma IntendedRewardIffOnlyBinLeft(ids: seq<BodyId>, init: map<BodyId, real>, p: Physics, log: seq<Event>)
    requires Recorded(ids, init) && Distinct(ids)
    ensures var r := Survivors(ids, init, p, log);
            IntendedReward(ids, init, p, log) == 1 <==> r == [] || (ids != [] && r == [ids[0]])
  {
    if ids != [] {
      DistinctTail(ids);
      var rest := Survivors(ids[1..], init, p, log);
      assert Objects(ids) == ids[1..];
      if rest != [] {
        assert rest[0] in rest;
      }
    }
  }
}
