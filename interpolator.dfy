/**
 * The interpolator: at most one correction target per object; each tick
 * every tracked object moves a fraction 1/stepsLeft of the way to its
 * target, and on its last step snaps position and linear velocity onto the
 * target and stops being tracked. Values are real numbers.
 */
module Interpolation {
  import opened Wire

  datatype Vec2 = Vec2(x: real, y: real)

  /** A correction in flight: how far along it is and the state it ends in. */
  datatype TargetParam = TargetParam(
    curStep: int, numSteps: int,
    targetPos: Vec2, targetVel: Vec2, targetAngle: real, targetAngV: real)

  /** The kinematic state of a simulated object. */
  datatype Body = Body(x: real, y: real, vx: real, vy: real, angle: real, angV: real)

  /** The objects a target can be attached to: scene objects by id, and the two cannons. */
  datatype ObjKey = Obj(id: Uint32) | Cannon1 | Cannon2

  /** An obstacle factory, known to the controller only by reference. */
  datatype FactoryRef = FactoryRef(name: string)

  /** The physics world, known to the controller only by reference. */
  datatype WorldRef = WorldRef(name: string)

  function StepsLeft(p: TargetParam): int
  {
    p.numSteps - p.curStep
  }

  /** interpolate(s, T, v): v moved a fraction 1/s of the way to T. */
  function Interpolate(stepsLeft: int, target: real, source: real): (r: real)
    requires stepsLeft != 0
  {
    (target - source) / stepsLeft as real + source
  }

  /** For s >= 1 the result lies between source and target, and for s == 1 it is the target. */
  lemma InterpolateBetween(s: int, target: real, source: real)
    requires s >= 1
    ensures source <= target ==> source <= Interpolate(s, target, source) <= target
    ensures target <= source ==> target <= Interpolate(s, target, source) <= source
    ensures s == 1 ==> Interpolate(s, target, source) == target
    ensures s > 1 && source != target ==> Interpolate(s, target, source) != target
  {
    var d := target - source;
    var sr := s as real;
    assert Interpolate(s, target, source) - source == d / sr;
    if d >= 0.0 {
      assert 0.0 <= d / sr <= d;
    } else {
      assert d <= d / sr <= 0.0;
    }
    if s > 1 && d != 0.0 {
      assert d / sr * sr == d;
    }
  }

  /**
   * One tick of fixedUpdate for one object: on its last step (stepsLeft <=
   * 1) position and linear velocity snap to the target and the angle is
   * left alone; otherwise every channel moves 1/stepsLeft of the way.
   */
  function StepBody(b: Body, p: TargetParam): (r: Body)
    ensures StepsLeft(p) <= 1 ==>
              r == Body(p.targetPos.x, p.targetPos.y, p.targetVel.x, p.targetVel.y, b.angle, b.angV)
    ensures StepsLeft(p) > 1 ==> var s := StepsLeft(p) as real;
      && r.x - b.x == (p.targetPos.x - b.x) / s && r.y - b.y == (p.targetPos.y - b.y) / s
      && r.vx - b.vx == (p.targetVel.x - b.vx) / s && r.vy - b.vy == (p.targetVel.y - b.vy) / s
      && r.angle - b.angle == (p.targetAngle - b.angle) / s && r.angV - b.angV == (p.targetAngV - b.angV) / s
  {
    var s := StepsLeft(p);
    if s <= 1 then
      b.(x := p.targetPos.x, y := p.targetPos.y, vx := p.targetVel.x, vy := p.targetVel.y)
    else
      Body(Interpolate(s, p.targetPos.x, b.x), Interpolate(s, p.targetPos.y, b.y),
           Interpolate(s, p.targetVel.x, b.vx), Interpolate(s, p.targetVel.y, b.vy),
           Interpolate(s, p.targetAngle, b.angle), Interpolate(s, p.targetAngV, b.angV))
  }

  /** The target after one tick: one step further along. */
  function Advance(p: TargetParam): (q: TargetParam)
    ensures q.curStep == p.curStep + 1 && StepsLeft(q) == StepsLeft(p) - 1
    ensures q.(curStep := p.curStep) == p
  {
    p.(curStep := p.curStep + 1)
  }

  /** The blend fraction curStep/numSteps fixedUpdate computes on a blend step is in [0, 1]. */
  lemma BlendFraction(p: TargetParam)
    requires p.curStep >= 0 && StepsLeft(p) >= 2
    ensures p.numSteps > 0
    ensures 0.0 <= p.curStep as real / p.numSteps as real <= 1.0
  {
    var c, n := p.curStep as real, p.numSteps as real;
    assert c / n * n == c;
  }

  // ---------------------------------------------------------------- convergence

  /** The body after k ticks of the same target (no physics in between), and the target then. */
  function Ticks(b: Body, p: TargetParam, k: nat): (Body, TargetParam)
  {
    if k == 0 then (b, p)
    else
      var prev := Ticks(b, p, k - 1);
      (StepBody(prev.0, prev.1), Advance(prev.1))
  }

  /** The value a channel has after k ticks of a fresh n-step target: the linear closed form. */
  function Blend(v0: real, target: real, n: nat, k: nat): real
    requires n >= 1
  {
    target + (v0 - target) * (n - k) as real / n as real
  }

  /** One blend step from the closed form at k gives the closed form at k + 1. */
  lemma BlendStep(v0: real, target: real, n: nat, k: nat)
    requires n >= 1 && k + 2 <= n
    ensures Interpolate(n - k, target, Blend(v0, target, n, k)) == Blend(v0, target, n, k + 1)
  {
    var d, s, nr := v0 - target, (n - k) as real, n as real;
    var v := Blend(v0, target, n, k);
    assert v - target == d * s / nr;
    calc {
      Interpolate(n - k, target, v);
      (target - v) / s + v;
      target + (v - target) * (s - 1.0) / s;
      { assert (v - target) * (s - 1.0) / s == d * (s - 1.0) / nr by {
          assert (d * s / nr) * (s - 1.0) / s == d * (s - 1.0) / nr;
        } }
      target + d * (s - 1.0) / nr;
    }
  }

  /** After k ticks the target is k steps further along. */
  lemma {:induction false} TicksTarget(b: Body, p: TargetParam, k: nat)
    ensures Ticks(b, p, k).1 == p.(curStep := p.curStep + k)
  {
    if k > 0 {
      TicksTarget(b, p, k - 1);
    }
  }

  /**
   * A target created with curStep 0 and n >= 1 steps: after k < n ticks
   * every channel follows the linear closed form Blend.
   */
  lemma {:induction false} TicksClosedForm(b: Body, p: TargetParam, k: nat)
    requires p.curStep == 0 && p.numSteps >= 1 && k < p.numSteps
    ensures Ticks(b, p, k).0 == Body(
              Blend(b.x, p.targetPos.x, p.numSteps, k), Blend(b.y, p.targetPos.y, p.numSteps, k),
              Blend(b.vx, p.targetVel.x, p.numSteps, k), Blend(b.vy, p.targetVel.y, p.numSteps, k),
              Blend(b.angle, p.targetAngle, p.numSteps, k), Blend(b.angV, p.targetAngV, p.numSteps, k))
  {
    var n := p.numSteps;
    if k == 0 {
      BlendStart(b.x, p.targetPos.x, n);
      BlendStart(b.y, p.targetPos.y, n);
      BlendStart(b.vx, p.targetVel.x, n);
      BlendStart(b.vy, p.targetVel.y, n);
      BlendStart(b.angle, p.targetAngle, n);
      BlendStart(b.angV, p.targetAngV, n);
    } else {
      TicksClosedForm(b, p, k - 1);
      TicksTarget(b, p, k - 1);
      var prev := Ticks(b, p, k - 1);
      assert StepsLeft(prev.1) == n - (k - 1) >= 2;
      assert Ticks(b, p, k).0 == StepBody(prev.0, prev.1);
      BlendStep(b.x, p.targetPos.x, n, k - 1);
      BlendStep(b.y, p.targetPos.y, n, k - 1);
      BlendStep(b.vx, p.targetVel.x, n, k - 1);
      BlendStep(b.vy, p.targetVel.y, n, k - 1);
      BlendStep(b.angle, p.targetAngle, n, k - 1);
      BlendStep(b.angV, p.targetAngV, n, k - 1);
    }
  }

  lemma BlendStart(v0: real, target: real, n: nat)
    requires n >= 1
    ensures Blend(v0, target, n, 0) == v0
  {
    assert (v0 - target) * n as real / n as real == v0 - target;
  }

  /** Strictly before the last tick, a channel of the closed form lies strictly between start and target. */
  lemma BlendStrictlyBetween(v0: real, target: real, n: nat, k: nat)
    requires 1 <= n && 0 < k < n && v0 != target
    ensures v0 < target ==> v0 < Blend(v0, target, n, k) < target
    ensures target < v0 ==> target < Blend(v0, target, n, k) < v0
  {
    var d, m, nr := v0 - target, (n - k) as real, n as real;
    assert 0.0 < m < nr;
    var e := d * m / nr;
    assert e * nr == d * m;
    if d < 0.0 {
      assert d * m < 0.0 && d * m > d * nr;
      assert d < e < 0.0;
    } else {
      assert d * m > 0.0 && d * m < d * nr;
      assert 0.0 < e < d;
    }
  }

  /**
   * Convergence: on the n-th tick of a fresh n-step target the position
   * and linear velocity land exactly on the target, and the target is then
   * due for removal.
   */
  lemma TicksConverge(b: Body, p: TargetParam)
    requires p.curStep == 0 && p.numSteps >= 1
    ensures Ticks(b, p, p.numSteps).0.x == p.targetPos.x
    ensures Ticks(b, p, p.numSteps).0.y == p.targetPos.y
    ensures Ticks(b, p, p.numSteps).0.vx == p.targetVel.x
    ensures Ticks(b, p, p.numSteps).0.vy == p.targetVel.y
  {
    var n := p.numSteps;
    TicksClosedForm(b, p, n - 1);
    TicksTarget(b, p, n - 1);
    var prev := Ticks(b, p, n - 1);
    assert StepsLeft(prev.1) == 1;
    assert Ticks(b, p, n).0 == StepBody(prev.0, prev.1);
  }

  /** The objects whose target ends this tick. */
  function Snapped(cache: map<ObjKey, TargetParam>): set<ObjKey>
  {
    set k | k in cache && StepsLeft(cache[k]) <= 1
  }

  /** The targets after a tick: every survivor one step further along. */
  function Survivors(cache: map<ObjKey, TargetParam>): map<ObjKey, TargetParam>
  {
    map k | k in cache && StepsLeft(cache[k]) > 1 :: Advance(cache[k])
  }

  /** The bodies after a tick: every tracked one stepped towards its target, the rest unchanged. */
  function StepBodies(bodies: map<ObjKey, Body>, cache: map<ObjKey, TargetParam>): map<ObjKey, Body>
    requires cache.Keys <= bodies.Keys
  {
    map k | k in bodies :: if k in cache then StepBody(bodies[k], cache[k]) else bodies[k]
  }

  // ---------------------------------------------------------------- controller

  class NetPhysicsController {
    var itprCount: int
    var ovrdCount: int
    var stepSum: int
    var objRotation: Uint64
    /** At most one target per object. */
    var cache: map<ObjKey, TargetParam>
    var deleteCache: seq<ObjKey>
    var obstacleFacts: seq<FactoryRef>
    var world: Option<WorldRef>
    /** The short UID init pushed to the world. */
    var worldShortUID: Option<Uint32>
    /** Whether a scene-linking callback is installed. */
    var linked: bool

    constructor ()
      ensures itprCount == 0 && ovrdCount == 0 && stepSum == 0 && objRotation == 0
      ensures cache == map[] && deleteCache == [] && obstacleFacts == []
      ensures world == None && worldShortUID == None && !linked
    {
      itprCount, ovrdCount, stepSum, objRotation := 0, 0, 0, 0;
      cache, deleteCache, obstacleFacts := map[], [], [];
      world, worldShortUID, linked := None, None, false;
    }

    /** Stores the world and the link function and hands the short UID to the world. */
    method Init(w: WorldRef, shortUID: Uint32)
      modifies this
      ensures world == Some(w) && worldShortUID == Some(shortUID) && linked
      ensures itprCount == old(itprCount) && ovrdCount == old(ovrdCount) && stepSum == old(stepSum)
      ensures objRotation == old(objRotation) && cache == old(cache) && deleteCache == old(deleteCache)
      ensures obstacleFacts == old(obstacleFacts)
    {
      world := Some(w);
      worldShortUID := Some(shortUID);
      linked := true;
    }

    method Dispose()
      modifies this
      ensures world == None && !linked
      ensures itprCount == old(itprCount) && ovrdCount == old(ovrdCount) && stepSum == old(stepSum)
      ensures objRotation == old(objRotation) && cache == old(cache) && deleteCache == old(deleteCache)
      ensures obstacleFacts == old(obstacleFacts) && worldShortUID == old(worldShortUID)
    {
      world := None;
      linked := false;
    }

    /** Appends a factory; its id is its index, cast to 32 bits. */
    method AttachFactory(f: FactoryRef) returns (id: Uint32)
      modifies this
      ensures obstacleFacts == old(obstacleFacts) + [f]
      ensures id == (|obstacleFacts| % 0x1_0000_0000 + 0xFFFF_FFFF) % 0x1_0000_0000
      ensures |old(obstacleFacts)| < 0xFFFF_FFFF ==> id == |old(obstacleFacts)|
      ensures itprCount == old(itprCount) && ovrdCount == old(ovrdCount) && stepSum == old(stepSum)
      ensures objRotation == old(objRotation) && cache == old(cache) && deleteCache == old(deleteCache)
      ensures world == old(world) && worldShortUID == old(worldShortUID) && linked == old(linked)
    {
      obstacleFacts := obstacleFacts + [f];
      id := (|obstacleFacts| % 0x1_0000_0000 + 0xFFFF_FFFF) % 0x1_0000_0000;
    }

    /** Zeroes the statistics and drops every target; factories and the rotation cursor stay. */
    method Reset()
      modifies this
      ensures itprCount == 0 && ovrdCount == 0 && stepSum == 0
      ensures cache == map[] && deleteCache == []
      ensures objRotation == old(objRotation) && obstacleFacts == old(obstacleFacts)
      ensures world == old(world) && worldShortUID == old(worldShortUID) && linked == old(linked)
    {
      itprCount, ovrdCount, stepSum := 0, 0, 0;
      cache := map[];
      deleteCache := [];
    }

    /** Installs param as obj's only target, replacing any previous one. */
    method AddObject(obj: ObjKey, param: TargetParam)
      modifies this
      ensures cache == old(cache)[obj := param]
      ensures stepSum == old(stepSum) + param.numSteps && itprCount == old(itprCount) + 1
      ensures ovrdCount == old(ovrdCount) && objRotation == old(objRotation)
      ensures deleteCache == old(deleteCache) && obstacleFacts == old(obstacleFacts)
      ensures world == old(world) && worldShortUID == old(worldShortUID) && linked == old(linked)
    {
      cache := cache - {obj};
      cache := cache[obj := param];
      stepSum := stepSum + param.numSteps;
      itprCount := itprCount + 1;
    }

    method Contains(obj: ObjKey) returns (b: bool)
      ensures b <==> obj in cache
    {
      b := obj in cache;
    }

    /**
     * One tick: every tracked body steps towards its target, targets on
     * their last step are removed (and counted as overrides), and every
     * other target moves one step along.
     */
    method FixedUpdate(bodies: map<ObjKey, Body>) returns (newBodies: map<ObjKey, Body>)
      requires cache.Keys <= bodies.Keys && deleteCache == []
      modifies this
      ensures newBodies == StepBodies(bodies, old(cache))
      ensures cache == Survivors(old(cache))
      ensures ovrdCount == old(ovrdCount) + |Snapped(old(cache))|
      ensures deleteCache == []
      ensures itprCount == old(itprCount) && stepSum == old(stepSum) && objRotation == old(objRotation)
      ensures obstacleFacts == old(obstacleFacts)
      ensures world == old(world) && worldShortUID == old(worldShortUID) && linked == old(linked)
    {
      var advanced, dead;
      newBodies, advanced, dead := StepAll(bodies, cache);
      ovrdCount := ovrdCount + |dead|;
      deleteCache := deleteCache + dead;
      cache := EraseAll(advanced, deleteCache);
      assert forall k :: k in deleteCache <==> k in Snapped(old(cache)) by {
        assert forall k :: k in deleteCache <==> k in (set j | 0 <= j < |dead| :: dead[j]);
      }
      deleteCache := [];
    }
  }

  /** The bodies once the objects in done have been stepped. */
  function StepBodiesOn(bodies: map<ObjKey, Body>, cache: map<ObjKey, TargetParam>, done: set<ObjKey>): map<ObjKey, Body>
    requires done <= cache.Keys <= bodies.Keys
  {
    map k | k in bodies :: if k in done then StepBody(bodies[k], cache[k]) else bodies[k]
  }

  /** The targets once those of the objects in done have been advanced. */
  function AdvanceOn(cache: map<ObjKey, TargetParam>, done: set<ObjKey>): map<ObjKey, TargetParam>
  {
    map k | k in cache :: if k in done then Advance(cache[k]) else cache[k]
  }

  /** The objects in done whose target ended. */
  function SnappedIn(cache: map<ObjKey, TargetParam>, done: set<ObjKey>): set<ObjKey>
    requires done <= cache.Keys
  {
    set k | k in done && StepsLeft(cache[k]) <= 1
  }

  /** Stepping one more object updates exactly its entry. */
  lemma StepOneMore(bodies: map<ObjKey, Body>, cache: map<ObjKey, TargetParam>, done: set<ObjKey>, k: ObjKey)
    requires done <= cache.Keys <= bodies.Keys && k in cache && k !in done
    ensures StepBodiesOn(bodies, cache, done)[k] == bodies[k]
    ensures StepBodiesOn(bodies, cache, done + {k})
         == StepBodiesOn(bodies, cache, done)[k := StepBody(bodies[k], cache[k])]
    ensures AdvanceOn(cache, done)[k] == cache[k]
    ensures AdvanceOn(cache, done + {k}) == AdvanceOn(cache, done)[k := Advance(cache[k])]
    ensures SnappedIn(cache, done + {k})
         == if StepsLeft(cache[k]) <= 1 then SnappedIn(cache, done) + {k} else SnappedIn(cache, done)
    ensures k !in SnappedIn(cache, done)
  {
  }

  /** One iteration of the first loop of fixedUpdate: visits object k. */
  method VisitOne(bodies: map<ObjKey, Body>, cache: map<ObjKey, TargetParam>, ghost done: set<ObjKey>, k: ObjKey,
                  newBodies: map<ObjKey, Body>, advanced: map<ObjKey, TargetParam>, dead: seq<ObjKey>)
    returns (newBodies': map<ObjKey, Body>, advanced': map<ObjKey, TargetParam>, dead': seq<ObjKey>)
    requires done <= cache.Keys <= bodies.Keys && k in cache && k !in done
    requires newBodies == StepBodiesOn(bodies, cache, done) && advanced == AdvanceOn(cache, done)
    requires (forall j :: j in dead <==> j in SnappedIn(cache, done)) && |dead| == |SnappedIn(cache, done)|
    ensures newBodies' == StepBodiesOn(bodies, cache, done + {k})
    ensures advanced' == AdvanceOn(cache, done + {k})
    ensures forall j :: j in dead' <==> j in SnappedIn(cache, done + {k})
    ensures |dead'| == |SnappedIn(cache, done + {k})|
  {
    StepOneMore(bodies, cache, done, k);
    var param := advanced[k];
    dead' := dead;
    if StepsLeft(param) <= 1 {
      dead' := dead + [k];
    }
    newBodies' := newBodies[k := StepBody(newBodies[k], param)];
    advanced' := advanced[k := Advance(param)];
  }

  /**
   * The first loop of fixedUpdate, over every cached object: the stepped
   * bodies, every target advanced by one step, and the objects whose target
   * ended, each listed once.
   */
  method StepAll(bodies: map<ObjKey, Body>, cache: map<ObjKey, TargetParam>)
    returns (newBodies: map<ObjKey, Body>, advanced: map<ObjKey, TargetParam>, dead: seq<ObjKey>)
    requires cache.Keys <= bodies.Keys
    ensures newBodies == StepBodies(bodies, cache)
    ensures advanced == map k | k in cache :: Advance(cache[k])
    ensures forall k :: k in dead <==> k in Snapped(cache)
    ensures |dead| == |Snapped(cache)|
  {
    newBodies, advanced, dead := bodies, cache, [];
    var todo := cache.Keys;
    assert newBodies == StepBodiesOn(bodies, cache, {});
    assert advanced == AdvanceOn(cache, {});
    assert SnappedIn(cache, {}) == {};
    while todo != {}
      invariant todo <= cache.Keys
      invariant newBodies == StepBodiesOn(bodies, cache, cache.Keys - todo)
      invariant advanced == AdvanceOn(cache, cache.Keys - todo)
      invariant forall k :: k in dead <==> k in SnappedIn(cache, cache.Keys - todo)
      invariant |dead| == |SnappedIn(cache, cache.Keys - todo)|
      decreases todo
    {
      var k :| k in todo;
      ghost var done := cache.Keys - todo;
      newBodies, advanced, dead := VisitOne(bodies, cache, done, k, newBodies, advanced, dead);
      todo := todo - {k};
      assert cache.Keys - todo == done + {k};
    }
    assert cache.Keys - todo == cache.Keys;
    AllStepped(bodies, cache);
  }

  /** Once every cached object has been visited, the partial results are the whole tick's. */
  lemma AllStepped(bodies: map<ObjKey, Body>, cache: map<ObjKey, TargetParam>)
    requires cache.Keys <= bodies.Keys
    ensures StepBodiesOn(bodies, cache, cache.Keys) == StepBodies(bodies, cache)
    ensures AdvanceOn(cache, cache.Keys) == map k | k in cache :: Advance(cache[k])
    ensures SnappedIn(cache, cache.Keys) == Snapped(cache)
  {
  }

  /** The second loop of fixedUpdate: erases every listed object from the targets. */
  method EraseAll(cache: map<ObjKey, TargetParam>, dead: seq<ObjKey>) returns (c: map<ObjKey, TargetParam>)
    ensures c == map k | k in cache && k !in dead :: cache[k]
  {
    c := cache;
    for i := 0 to |dead|
      invariant c == map k | k in cache && k !in dead[..i] :: cache[k]
    {
      assert dead[..i + 1] == dead[..i] + [dead[i]];
      c := c - {dead[i]};
    }
    assert dead[..|dead|] == dead;
  }
}
