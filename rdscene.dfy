/**
 * The lockstep rocket demo's game scene, as far as it handles data: the
 * ids it hands out to obstacles, the round-robin queue of ids whose state
 * the host broadcasts, the rule that turns a received state into an
 * interpolation target, the drain of the message cache up to the current
 * tick, and the framing of what it sends and receives.
 *
 * Box2D is represented by the kinematic state of each tracked object (a
 * map from object key to Body) and by a world-step function passed to
 * fixedUpdate; the transport by the state it reports and the messages it
 * delivers, with every broadcast recorded in a ghost log. Rounding a
 * physics value to the float sent on the wire, and the direction (cos, sin)
 * of an angle, are functions the scene is built with.
 */
module LockstepScene {
  import opened Wire
  import opened NetEvents
  import opened NetCaching
  import opened Interpolation
  import opened Transport
  import opened LockstepMessages

  /** M_PI_2. */
  const HalfPi: real := 1.5707963267948966
  /** How far one unit of vertical input turns a cannon per update. */
  const TurnRate: real := 0.05
  /** How many ticks ahead reset and fire inputs are scheduled. */
  const InputDelay: nat := 2
  const NumCrates: nat := 15
  /** How many state messages the host sends per update. */
  const StatesPerUpdate: nat := 5
  /** The cap on an interpolation's step count. */
  const MaxSteps: int := 30

  /** The crate pyramid. */
  const Boxes: seq<(real, real)> := [
    (14.5, 14.25),
    (13.0, 12.0), (16.0, 12.0),
    (11.5, 9.75), (14.5, 9.75), (17.5, 9.75),
    (13.0, 7.5), (16.0, 7.5),
    (11.5, 5.25), (14.5, 5.25), (17.5, 5.25),
    (10.0, 3.0), (13.0, 3.0), (16.0, 3.0), (19.0, 3.0)]

  // ---------------------------------------------------------------- step rule

  function Abs(r: real): real
  {
    if r < 0.0 then -r else r
  }

  function Max(a: int, b: int): int
  {
    if a < b then b else a
  }

  function Min(a: int, b: int): int
  {
    if a < b then a else b
  }

  /** The largest r <= k with r * r <= 900 * distSq. */
  function PosTermFrom(distSq: real, k: nat): (r: nat)
    requires distSq >= 0.0
    ensures r <= k && (r * r) as real <= 900.0 * distSq
    ensures r < k ==> 900.0 * distSq < ((r + 1) * (r + 1)) as real
  {
    if (k * k) as real <= 900.0 * distSq then k else PosTermFrom(distSq, k - 1)
  }

  /**
   * (int)(30 * dist) capped at 30, where dist is the square root of distSq:
   * the largest r <= 30 with r * r <= 900 * distSq.
   */
  function PosTerm(distSq: real): (r: nat)
    requires distSq >= 0.0
  {
    PosTermFrom(distSq, 30)
  }

  /** (int)(10 * |angle difference|). */
  function AngTerm(delta: real): (r: int)
  {
    (10.0 * Abs(delta)).Floor
  }

  /**
   * processState's step count: max(0, min(30, max(posTerm, angTerm))).
   * The position term is capped before the max, which min(30, max(a, b))
   * == max(min(30, a), min(30, b)) allows.
   */
  function StepCount(distSq: real, delta: real): int
    requires distSq >= 0.0
  {
    Max(0, Min(MaxSteps, Max(PosTerm(distSq), AngTerm(delta))))
  }

  /** processCannon's step count: the angle term alone. */
  function CannonStepCount(delta: real): int
  {
    Max(0, Min(MaxSteps, AngTerm(delta)))
  }

  lemma FloorBounds(x: real)
    ensures x.Floor as real <= x < (x.Floor + 1) as real
  {
  }

  lemma {:induction false} SquareMonotone(a: nat, b: nat)
    requires a <= b
    ensures a * a <= b * b
  {
    assert a * a <= a * b <= b * b;
  }

  /**
   * The step count is min(30, max(floor(30 * dist), floor(10 * |delta|))):
   * it lies in [0, 30], one of the two terms reaches it, and neither term
   * reaches the next integer unless the cap was hit.
   */
  lemma StepCountMeaning(distSq: real, delta: real)
    requires distSq >= 0.0
    ensures var r := StepCount(distSq, delta);
      && 0 <= r <= MaxSteps
      && ((r * r) as real <= 900.0 * distSq || r as real <= 10.0 * Abs(delta))
      && (r < MaxSteps ==> 900.0 * distSq < ((r + 1) * (r + 1)) as real && 10.0 * Abs(delta) < (r + 1) as real)
  {
    var p, a, x := PosTerm(distSq), AngTerm(delta), 10.0 * Abs(delta);
    FloorBounds(x);
    var r := StepCount(distSq, delta);
    if a <= p {
      assert r == p;
    } else if a < MaxSteps {
      assert r == a && 0 <= p < a;
      SquareMonotone(p + 1, r + 1);
    } else {
      assert r == MaxSteps;
    }
  }

  /** No steps exactly when the distance is below 1/30 and the angle difference below 1/10. */
  lemma StepCountZero(distSq: real, delta: real)
    requires distSq >= 0.0
    ensures StepCount(distSq, delta) == 0 <==> 900.0 * distSq < 1.0 && 10.0 * Abs(delta) < 1.0
  {
    var p, a, x := PosTerm(distSq), AngTerm(delta), 10.0 * Abs(delta);
    FloorBounds(x);
    if p >= 1 {
      SquareMonotone(1, p);
    }
    StepCountMeaning(distSq, delta);
  }

  /** A larger distance and a larger angle difference never give fewer steps. */
  lemma {:induction false} StepCountMonotone(d1: real, a1: real, d2: real, a2: real)
    requires 0.0 <= d1 <= d2 && Abs(a1) <= Abs(a2)
    ensures StepCount(d1, a1) <= StepCount(d2, a2)
  {
    PosTermMonotone(d1, d2, 30);
  }

  lemma {:induction false} PosTermMonotone(d1: real, d2: real, k: nat)
    requires 0.0 <= d1 <= d2
    ensures PosTermFrom(d1, k) <= PosTermFrom(d2, k)
  {
    if (k * k) as real > 900.0 * d2 {
      PosTermMonotone(d1, d2, k - 1);
    }
  }

  /** Below 1/30 of a unit of distance the position term vanishes: the cannon rule is the general rule there. */
  lemma CannonStepCountIsStepCount(distSq: real, delta: real)
    requires 0.0 <= distSq && 900.0 * distSq < 1.0
    ensures CannonStepCount(delta) == StepCount(distSq, delta)
    ensures 0 <= CannonStepCount(delta) <= MaxSteps
  {
    var p := PosTerm(distSq);
    if p >= 1 {
      SquareMonotone(1, p);
    }
  }

  /** The square of the distance from body b to (x, y). */
  function DistSq(b: Body, x: real, y: real): (r: real)
    ensures r >= 0.0
  {
    (b.x - x) * (b.x - x) + (b.y - y) * (b.y - y)
  }

  /** The target processState hands the interpolator for object b and received state p. */
  function StateTarget(b: Body, p: ObjParam): (t: TargetParam)
    ensures t.curStep == 0 && 0 <= t.numSteps <= MaxSteps
    ensures t.targetPos == Vec2(FloatValue(p.x), FloatValue(p.y))
    ensures t.targetVel == Vec2(FloatValue(p.vx), FloatValue(p.vy))
    ensures t.targetAngle == FloatValue(p.angle) && t.targetAngV == FloatValue(p.vAngular)
  {
    var x, y, angle := FloatValue(p.x), FloatValue(p.y), FloatValue(p.angle);
    StepCountMeaning(DistSq(b, x, y), b.angle - angle);
    TargetParam(0, StepCount(DistSq(b, x, y), b.angle - angle),
      Vec2(x, y), Vec2(FloatValue(p.vx), FloatValue(p.vy)), angle, FloatValue(p.vAngular))
  }

  /** The target processCannon hands the interpolator: only the angle moves, and it stops turning. */
  function CannonTarget(c: Body, angle: Float32): (t: TargetParam)
    ensures t.curStep == 0 && 0 <= t.numSteps <= MaxSteps
    ensures t.targetPos == Vec2(c.x, c.y) && t.targetVel == Vec2(c.vx, c.vy)
    ensures t.targetAngle == FloatValue(angle) && t.targetAngV == 0.0
  {
    TargetParam(0, CannonStepCount(c.angle - FloatValue(angle)),
      Vec2(c.x, c.y), Vec2(c.vx, c.vy), FloatValue(angle), 0.0)
  }

  // ---------------------------------------------------------------- the id queue

  /** The ids 0 .. n-1 in order. */
  function Ids(n: nat): (r: seq<Uint32>)
    requires n <= 0x1_0000_0000
    ensures |r| == n && forall i | 0 <= i < n :: r[i] == i
  {
    seq(n, i requires 0 <= i < n => i)
  }

  /** packState's effect on the queue: the front id goes to the back. */
  function RotateOnce(q: seq<Uint32>): (r: seq<Uint32>)
    requires q != []
    ensures |r| == |q|
  {
    q[1..] + [q[0]]
  }

  /** The queue after k calls of packState. */
  function Rotated(q: seq<Uint32>, k: nat): (r: seq<Uint32>)
    ensures |r| == |q|
  {
    if k == 0 || q == [] then q else RotateOnce(Rotated(q, k - 1))
  }

  /** Up to a full cycle, k packStates move the first k ids to the back, in order. */
  lemma {:induction false} RotatedPrefix(q: seq<Uint32>, k: nat)
    requires k <= |q|
    ensures Rotated(q, k) == q[k..] + q[..k]
  {
    if k == 0 {
      assert q[0..] + q[..0] == q;
    } else {
      RotatedPrefix(q, k - 1);
      var prev := q[k - 1..] + q[..k - 1];
      assert prev[0] == q[k - 1] && prev[1..] == q[k..] + q[..k - 1];
      assert q[..k - 1] + [q[k - 1]] == q[..k];
    }
  }

  lemma {:induction false} RotatedCompose(q: seq<Uint32>, a: nat, b: nat)
    ensures Rotated(Rotated(q, a), b) == Rotated(q, a + b)
  {
    if b > 0 && q != [] {
      RotatedCompose(q, a, b - 1);
      assert Rotated(Rotated(q, a), b) == RotateOnce(Rotated(Rotated(q, a), b - 1));
      assert Rotated(q, a + b) == RotateOnce(Rotated(q, a + b - 1));
    }
  }

  /** Rotating keeps the queue's contents. */
  lemma {:induction false} RotatedMembers(q: seq<Uint32>, k: nat)
    ensures multiset(Rotated(q, k)) == multiset(q)
  {
    if k > 0 && q != [] {
      RotatedMembers(q, k - 1);
      var p := Rotated(q, k - 1);
      assert p == [p[0]] + p[1..];
    }
  }

  /**
   * The k-th packState of a cycle packs q[k], so |q| of them pack every
   * id once, in queue order, and give the queue back; after that the
   * round-robin repeats.
   */
  lemma RotatedCycle(q: seq<Uint32>, k: nat)
    ensures k < |q| ==> Rotated(q, k)[0] == q[k]
    ensures Rotated(q, |q|) == q
    ensures Rotated(q, k + |q|) == Rotated(q, k)
  {
    if k < |q| {
      RotatedPrefix(q, k);
    }
    RotatedPrefix(q, |q|);
    assert q[|q|..] + q[..|q|] == q;
    RotatedCompose(q, |q|, k);
  }

  /** The bodies of a freshly populated world: object i is objs[i]. */
  function Placed(objs: seq<Body>): (m: map<ObjKey, Body>)
    requires |objs| <= 0x1_0000_0000
    ensures forall k :: k in m <==> k.Obj? && k.id < |objs|
  {
    map i: Uint32 | i < |objs| :: Obj(i) := objs[i]
  }

  lemma PlacedSnoc(objs: seq<Body>, i: nat)
    requires i < |objs| <= 0x1_0000_0000
    ensures Placed(objs[..i + 1]) == Placed(objs[..i])[Obj(i) := objs[i]]
    ensures Obj(i) !in Placed(objs[..i])
  {
    var a, b := Placed(objs[..i + 1]), Placed(objs[..i])[Obj(i) := objs[i]];
    forall k | k in a
      ensures a[k] == b[k]
    {
      assert objs[..i + 1][k.id] == objs[k.id];
      if k.id < i {
        assert objs[..i][k.id] == objs[k.id];
      }
    }
    assert a.Keys == b.Keys;
  }

  function CrateAt(i: nat): Body
    requires i < NumCrates
  {
    Body(Boxes[i].0, Boxes[i].1, 0.0, 0.0, 0.0, 0.0)
  }

  function Crates(): (r: seq<Body>)
    ensures |r| == NumCrates
  {
    seq(NumCrates, i requires 0 <= i < NumCrates => CrateAt(i))
  }

  /** The ids 0..n-1 are exactly the object keys that Placed gives n objects. */
  lemma IdsPlaced(n: nat)
    requires n <= 0x1_0000_0000
    ensures forall id: Uint32 :: id in Ids(n) <==> id < n
  {
    forall id: Uint32 | id < n
      ensures id in Ids(n)
    {
      assert Ids(n)[id] == id;
    }
  }

  /**
   * The objects populate adds, in id order: at start the crates then the
   * two walls, on a reset the two walls then the crates.
   */
  function Layout(isInit: bool, wall1: Body, wall2: Body): (r: seq<Body>)
    ensures |r| == NumCrates + 2
  {
    if isInit then Crates() + [wall1, wall2] else [wall1, wall2] + Crates()
  }

  /** A cannon put back at its start: a new one at rest, a kept one with its velocities. */
  function CannonAt(isInit: bool, bodies: map<ObjKey, Body>, cannon: ObjKey, x: real, y: real, angle: real): Body
    requires !isInit ==> cannon in bodies
  {
    if isInit then Body(x, y, 0.0, 0.0, angle, 0.0) else bodies[cannon].(x := x, y := y, angle := angle)
  }

  // ---------------------------------------------------------------- the cache drain

  /**
   * processCache's loop on the cache contents s at tick now: pop and
   * dispatch the top entry while it is due. The messages popped, in order,
   * and what stays cached.
   */
  function Drain(s: seq<NetData>, now: Uint64): (r: (seq<NetData>, seq<NetData>))
    decreases |s|
  {
    if s == [] then ([], [])
    else
      var i := TopIndex(s);
      if s[i].timestamp > now then ([], s)
      else
        var rest := Drain(Remove(s, i), now);
        ([s[i]] + rest.0, rest.1)
  }

  /** Drain loses and invents nothing: popped and kept together are the cache's messages. */
  lemma {:induction false} DrainPermutes(s: seq<NetData>, now: Uint64)
    ensures multiset(Drain(s, now).0) + multiset(Drain(s, now).1) == multiset(s)
    decreases |s|
  {
    if s != [] && s[TopIndex(s)].timestamp <= now {
      var i := TopIndex(s);
      DrainPermutes(Remove(s, i), now);
      var rest := Drain(Remove(s, i), now);
      assert multiset([s[i]] + rest.0) == multiset{s[i]} + multiset(rest.0);
    }
  }

  /** One step of Drain: a due top message is popped ahead of whatever the rest drains. */
  lemma DrainStep(s: seq<NetData>, now: Uint64)
    requires s != [] && s[TopIndex(s)].timestamp <= now
    ensures Drain(s, now) == ([s[TopIndex(s)]] + Drain(Remove(s, TopIndex(s)), now).0, Drain(Remove(s, TopIndex(s)), now).1)
  {
  }

  /** What processCache's loop keeps: the messages popped so far followed by what is left to drain. */
  ghost predicate DrainsTo(s0: seq<NetData>, popped: seq<NetData>, s: seq<NetData>, now: Uint64)
  {
    Drain(s0, now).0 == popped + Drain(s, now).0 && Drain(s0, now).1 == Drain(s, now).1
  }

  /** Popping the due top message extends what has been popped by that message. */
  lemma DrainAdvance(s0: seq<NetData>, popped: seq<NetData>, s: seq<NetData>, now: Uint64)
    requires DrainsTo(s0, popped, s, now)
    requires s != [] && s[TopIndex(s)].timestamp <= now
    ensures DrainsTo(s0, popped + [s[TopIndex(s)]], Remove(s, TopIndex(s)), now)
  {
    var i := TopIndex(s);
    var rest := Drain(Remove(s, i), now);
    DrainStep(s, now);
    assert Drain(s, now).0 == [s[i]] + rest.0 && Drain(s, now).1 == rest.1;
    calc {
      Drain(s0, now).0;
      popped + Drain(s, now).0;
      popped + ([s[i]] + rest.0);
      (popped + [s[i]]) + rest.0;
    }
  }

  /** Once the top message is not due, everything popped is exactly what Drain pops. */
  lemma DrainDone(s0: seq<NetData>, popped: seq<NetData>, s: seq<NetData>, now: Uint64)
    requires DrainsTo(s0, popped, s, now)
    requires s == [] || s[TopIndex(s)].timestamp > now
    ensures Drain(s0, now) == (popped, s)
  {
    DrainPending(s, now);
    assert popped + [] == popped;
  }

  /** Drain pops nothing from an empty cache or one whose top message is not yet due. */
  lemma DrainPending(s: seq<NetData>, now: Uint64)
    requires s == [] || s[TopIndex(s)].timestamp > now
    ensures Drain(s, now) == ([], s)
  {
  }

  /**
   * Every message popped is due, and the drain stops only when the cache
   * is empty or the message on top is not yet due.
   */
  lemma {:induction false} DrainStopsAtFirstPending(s: seq<NetData>, now: Uint64)
    ensures var r := Drain(s, now);
      && (forall i | 0 <= i < |r.0| :: r.0[i].timestamp <= now)
      && (r.1 == [] || r.1[TopIndex(r.1)].timestamp > now)
    decreases |s|
  {
    if s != [] {
      var i := TopIndex(s);
      if s[i].timestamp <= now {
        DrainStopsAtFirstPending(Remove(s, i), now);
      }
    }
  }

  /** popped is in key order, and no entry of popped has a larger key than one in kept. */
  predicate InKeyOrder(popped: seq<NetData>, kept: seq<NetData>)
  {
    && (forall i, j | 0 <= i < j < |popped| :: KeyLe(popped[i], popped[j]))
    && (forall i, e | 0 <= i < |popped| && e in kept :: KeyLe(popped[i], e))
  }

  /**
   * Messages come out in (flag, timestamp) order, and no message popped
   * has a larger key than one left in the cache.
   */
  lemma {:induction false} DrainOrdered(s: seq<NetData>, now: Uint64)
    ensures InKeyOrder(Drain(s, now).0, Drain(s, now).1)
    decreases |s|
  {
    if s != [] {
      var top := TopIndex(s);
      if s[top].timestamp <= now {
        var t := Remove(s, top);
        var rest := Drain(t, now);
        var r := Drain(s, now);
        assert r == ([s[top]] + rest.0, rest.1);
        DrainOrdered(t, now);
        assert InKeyOrder(rest.0, rest.1);
        forall i, j | 0 <= i < j < |r.0|
          ensures KeyLe(r.0[i], r.0[j])
        {
          assert r.0[j] == rest.0[j - 1] && r.0[j] in rest.0;
          if i > 0 {
            assert r.0[i] == rest.0[i - 1];
            assert KeyLe(rest.0[i - 1], rest.0[j - 1]);
          } else {
            TopFirst(s, now, r.0[j]);
          }
        }
        forall i, e | 0 <= i < |r.0| && e in r.1
          ensures KeyLe(r.0[i], e)
        {
          if i > 0 {
            assert r.0[i] == rest.0[i - 1];
            assert KeyLe(rest.0[i - 1], e);
          } else {
            TopFirst(s, now, e);
          }
        }
      }
    }
  }

  /** The top entry has a key no larger than anything the rest of the drain sees. */
  lemma TopFirst(s: seq<NetData>, now: Uint64, e: NetData)
    requires s != []
    requires e in Drain(Remove(s, TopIndex(s)), now).0 || e in Drain(Remove(s, TopIndex(s)), now).1
    ensures KeyLe(s[TopIndex(s)], e)
  {
    var top := TopIndex(s);
    DrainMember(Remove(s, top), now, e);
    RemoveMember(s, top, e);
    var j :| 0 <= j < |s| && s[j] == e;
    assert KeyLe(s[top], s[j]);
  }

  lemma DrainMember(s: seq<NetData>, now: Uint64, e: NetData)
    requires e in Drain(s, now).0 || e in Drain(s, now).1
    ensures e in s
  {
    var r := Drain(s, now);
    assert e in multiset(r.0) + multiset(r.1);
    assert e in multiset(s);
  }

  lemma RemoveMember(s: seq<NetData>, i: nat, e: NetData)
    requires i < |s| && e in Remove(s, i)
    ensures exists j | 0 <= j < |s| :: s[j] == e
  {
    var k :| 0 <= k < |Remove(s, i)| && Remove(s, i)[k] == e;
    if k < i {
      assert s[k] == e;
    } else {
      assert s[k + 1] == e;
    }
  }

  /**
   * The drain stops at the first entry on top that is not yet due, even
   * when an entry below it is: a fire input scheduled for tick 6 keeps a
   * state message for tick 5 cached at tick 5, since fire inputs rank first.
   */
  lemma DrainBlocks()
    ensures var fire := NetData(6, FireInputFlag, "peer", [], 0);
            var state := NetData(5, StateSyncFlag, "peer", [], 0);
            Drain([state, fire], 5) == ([], [state, fire])
  {
    var fire := NetData(6, FireInputFlag, "peer", [], 0);
    var state := NetData(5, StateSyncFlag, "peer", [], 0);
    assert TopIndex([fire]) == 0;
    assert [state, fire][1..] == [fire];
  }

  // ---------------------------------------------------------------- framing helpers

  /** The crate processFire launches: 1.5 units ahead of the cannon along f, moving at 50 * power along f. */
  function Launch(c: Body, f: Vec2, power: real): Body
  {
    Body(c.x + 1.5 * f.x, c.y + 1.5 * f.y, 50.0 * power * f.x, 50.0 * power * f.y, 0.0, 0.0)
  }

  /** The snapshot packState sends for object id in state b. */
  function Snapshot(toFloat: real -> Float32, id: Uint32, b: Body): ObjParam
  {
    ObjParam(id, toFloat(b.x), toFloat(b.y), toFloat(b.vx), toFloat(b.vy), toFloat(b.angle), toFloat(b.angV))
  }

  /** The bytes broadcast for packState(ts) on object id. */
  function StateFrame(toFloat: real -> Float32, bodies: map<ObjKey, Body>, ts: Uint64, id: Uint32): seq<Byte>
    requires Obj(id) in bodies
  {
    Frame(Packed(ts, StateSyncFlag, EncodeState(Snapshot(toFloat, id, bodies[Obj(id)]))))
  }

  /** The front of a rotated queue is one of its ids. */
  lemma RotatedFront(q: seq<Uint32>, k: nat)
    requires q != []
    ensures Rotated(q, k)[0] in q
  {
    RotatedMembers(q, k);
    assert Rotated(q, k)[0] in multiset(Rotated(q, k));
  }

  /** What n turns of a round robin over q produce: f of the id at the front, then the queue rotates. */
  function RoundRobin<T>(f: Uint32 --> T, q: seq<Uint32>, n: nat): (r: seq<T>)
    requires q != [] && forall id | id in q :: f.requires(id)
    ensures |r| == n
  {
    if n == 0 then []
    else
      RotatedFront(q, n - 1);
      RoundRobin(f, q, n - 1) + [f(Rotated(q, n - 1)[0])]
  }

  /** The k-th turn of the round robin serves the id at the front after k rotations. */
  lemma {:induction false} RoundRobinAt<T>(f: Uint32 --> T, q: seq<Uint32>, n: nat, k: nat)
    requires q != [] && forall id | id in q :: f.requires(id)
    requires k < n
    ensures Rotated(q, k)[0] in q
    ensures RoundRobin(f, q, n)[k] == f(Rotated(q, k)[0])
  {
    RotatedFront(q, k);
    if k < n - 1 {
      RoundRobinAt(f, q, n - 1, k);
    }
  }

  /** Within the first cycle, the round robin serves the ids in queue order. */
  lemma RoundRobinInOrder<T>(f: Uint32 --> T, q: seq<Uint32>, n: nat, k: nat)
    requires q != [] && forall id | id in q :: f.requires(id)
    requires k < n && k < |q|
    ensures RoundRobin(f, q, n)[k] == f(q[k])
  {
    RoundRobinAt(f, q, n, k);
    RotatedCycle(q, k);
  }

  /** After |q| turns every id of q has been served, one turn each when the ids are distinct. */
  lemma RoundRobinCovers<T>(f: Uint32 --> T, q: seq<Uint32>, id: Uint32)
    requires q != [] && forall id | id in q :: f.requires(id)
    requires id in q
    ensures f(id) in RoundRobin(f, q, |q|)
  {
    var k :| 0 <= k < |q| && q[k] == id;
    RoundRobinInOrder(f, q, |q|, k);
  }

  /** The bytes of n consecutive packStates on queue q. */
  function StateFrames(toFloat: real -> Float32, bodies: map<ObjKey, Body>, ts: Uint64, q: seq<Uint32>, n: nat): (r: seq<seq<Byte>>)
    requires q != [] && forall id | id in q :: Obj(id) in bodies
    ensures |r| == n
  {
    RoundRobin(id requires Obj(id) in bodies => StateFrame(toFloat, bodies, ts, id), q, n)
  }

  /** One more packState appends the frame of the id at the front after n rotations. */
  lemma StateFramesSnoc(toFloat: real -> Float32, bodies: map<ObjKey, Body>, ts: Uint64, q: seq<Uint32>, n: nat)
    requires q != [] && forall id | id in q :: Obj(id) in bodies
    ensures Rotated(q, n)[0] in q
    ensures StateFrames(toFloat, bodies, ts, q, n + 1)
         == StateFrames(toFloat, bodies, ts, q, n) + [StateFrame(toFloat, bodies, ts, Rotated(q, n)[0])]
  {
    RotatedFront(q, n);
  }

  /** What preUpdate reads from the input controller. */
  datatype Input = Input(didReset: bool, didFire: bool, firePower: real, vertical: real)

  /** A received message with the bytes the transport delivered. */
  datatype Incoming = Incoming(source: string, bytes: seq<Byte>)

  /** The messages processData caches for an inbox, in order, at tick counter. */
  function Received(inbox: seq<Incoming>, counter: Uint64): (r: seq<NetData>)
    requires forall m | m in inbox :: |m.bytes| >= HeaderLength
    ensures |r| == |inbox|
  {
    seq(|inbox|, i requires 0 <= i < |inbox| => ParseFrame(inbox[i].source, inbox[i].bytes, counter))
  }

  /** The physics world's step, kept to the objects the scene tracks. */
  function WorldStep(physics: map<ObjKey, Body> -> map<ObjKey, Body>, bodies: map<ObjKey, Body>): (r: map<ObjKey, Body>)
    ensures r.Keys == bodies.Keys
  {
    var after := physics(bodies);
    map k | k in bodies :: if k in after then after[k] else bodies[k]
  }

  /** The cannon this peer aims: the first for the host, the second for the client. */
  function OwnCannon(isHost: bool): ObjKey
  {
    if isHost then Cannon1 else Cannon2
  }

  /** The own cannon after preUpdate's turn: the host turns by TurnRate per unit of input, the client the other way. */
  function Turned(c: Body, isHost: bool, vertical: real): Body
  {
    c.(angle := vertical * (if isHost then TurnRate else -TurnRate) + c.angle)
  }

  /** The frames preUpdate sends for the inputs: a reset, then a fire, each stamped two ticks ahead. */
  function InputFrames(toFloat: real -> Float32, input: Input, counter: Uint64, isHost: bool, angle: Float32): (r: seq<seq<Byte>>)
    ensures |r| == (if input.didReset then 1 else 0) + (if input.didFire then 1 else 0)
  {
    var later := (counter + InputDelay) % 0x1_0000_0000_0000_0000;
    (if input.didReset then [Frame(Packed(later, ResetFlag, []))] else [])
    + (if input.didFire then [Frame(Packed(later, FireInputFlag, EncodeFire(FireMsg(isHost, angle, toFloat(input.firePower)))))] else [])
  }

  lemma ConcatAssoc<T>(w: seq<T>, x: seq<T>, y: seq<T>, z: seq<T>)
    ensures w + x + y + z == w + (x + y + z)
  {
  }

  /**
   * The frames preUpdate hands to transmitNetdata, in order: the inputs two
   * ticks ahead, the host's five round-robin states, and the own cannon's
   * angle after the turn.
   */
  function PreUpdateFrames(toFloat: real -> Float32, input: Input, counter: Uint64, isHost: bool,
                           bodies: map<ObjKey, Body>, q: seq<Uint32>): (r: seq<seq<Byte>>)
    requires Cannon1 in bodies && Cannon2 in bodies
    requires forall id | id in q :: Obj(id) in bodies
  {
    var own := OwnCannon(isHost);
    InputFrames(toFloat, input, counter, isHost, toFloat(bodies[own].angle))
    + (if q != [] && isHost then StateFrames(toFloat, bodies, counter, q, StatesPerUpdate) else [])
    + [Frame(Packed(counter, CannonFlag, EncodeCannon(CannonMsg(isHost, toFloat(Turned(bodies[own], isHost, input.vertical).angle)))))]
  }

  /**
   * preUpdate as written sends at least the cannon frame on every update,
   * whatever the input: once checkConnection has dropped the network, that
   * send goes through a null network controller.
   */
  lemma PreUpdateAlwaysSends(toFloat: real -> Float32, input: Input, counter: Uint64, isHost: bool,
                             bodies: map<ObjKey, Body>, q: seq<Uint32>)
    requires Cannon1 in bodies && Cannon2 in bodies
    requires forall id | id in q :: Obj(id) in bodies
    ensures |PreUpdateFrames(toFloat, input, counter, isHost, bodies, q)| >= 1
    ensures !input.didReset && !input.didFire && !isHost ==>
      PreUpdateFrames(toFloat, input, counter, isHost, bodies, q)
        == [Frame(Packed(counter, CannonFlag, EncodeCannon(CannonMsg(false, toFloat(Turned(bodies[Cannon2], false, input.vertical).angle)))))]
  {
  }

  // ---------------------------------------------------------------- dispatch

  /**
   * What processCache's handlers read and write: the id counter, the
   * round-robin queue, the tracked objects, the interpolation targets and
   * whether the scene is complete.
   */
  datatype SceneState = SceneState(
    nextObj: Uint32, objQueue: seq<Uint32>, bodies: map<ObjKey, Body>,
    targets: map<ObjKey, TargetParam>, complete: bool)

  /**
   * Both cannons are tracked, an id is in the map exactly when it is in the
   * round-robin queue, and only tracked objects have targets.
   */
  ghost predicate Consistent(st: SceneState)
  {
    && Cannon1 in st.bodies && Cannon2 in st.bodies
    && (forall id: Uint32 :: Obj(id) in st.bodies <==> id in st.objQueue)
    && st.targets.Keys <= st.bodies.Keys
  }

  /** The handler a cached message's flag selects, with the payload as that handler reads it. */
  datatype Action =
    | FireInput(fire: FireMsg)
    | ResetWorld
    | StateSync(state: ObjParam)
    | CannonAim(aim: CannonMsg)
    | UnknownFlag

  /** A cached message as processCache dispatches it: when it is due, whether another peer sent it, and its action. */
  datatype Command = Command(timestamp: Uint64, fromPeer: bool, action: Action)

  /** The switch of processCache, with each handler's decoding of the payload. */
  function CommandOf(msg: NetData): (c: Command)
    ensures c.timestamp == msg.timestamp && c.fromPeer == (msg.sourceId != "")
    ensures c.action.FireInput? <==> msg.flag == FireInputFlag
    ensures c.action.ResetWorld? <==> msg.flag == ResetFlag
    ensures c.action.StateSync? <==> msg.flag == StateSyncFlag
    ensures c.action.CannonAim? <==> msg.flag == CannonFlag
  {
    Command(msg.timestamp, msg.sourceId != "",
      if msg.flag == FireInputFlag then FireInput(DecodeFire(msg.data))
      else if msg.flag == ResetFlag then ResetWorld
      else if msg.flag == StateSyncFlag then StateSync(DecodeState(msg.data))
      else if msg.flag == CannonFlag then CannonAim(DecodeCannon(msg.data))
      else UnknownFlag)
  }

  function Commands(msgs: seq<NetData>): (cs: seq<Command>)
    ensures |cs| == |msgs|
  {
    seq(|msgs|, i requires 0 <= i < |msgs| => CommandOf(msgs[i]))
  }

  lemma CommandsSnoc(msgs: seq<NetData>, msg: NetData)
    ensures Commands(msgs + [msg]) == Commands(msgs) + [CommandOf(msg)]
  {
    assert forall i | 0 <= i < |msgs| :: (msgs + [msg])[i] == msgs[i];
  }

  /** The level data the handlers use: where the walls are, and the direction (cos, sin) of an angle. */
  datatype Level = Level(wall1: Body, wall2: Body, direction: real -> Vec2)

  /**
   * The effect of one dispatched command at tick now: a due fire input
   * launches a crate from the sender's cannon under the next id, a reset
   * repopulates the world and drops every target, a state or cannon
   * message from another peer sets the target of the object it names (a
   * state for an unknown id is ignored), and anything else, like a fire
   * input not yet due or an unknown flag, changes nothing.
   */
  function Apply(lv: Level, st: SceneState, c: Command, now: Uint64): (r: SceneState)
    requires Cannon1 in st.bodies && Cannon2 in st.bodies
    ensures Cannon1 in r.bodies && Cannon2 in r.bodies
  {
    match c.action
    case FireInput(m) =>
      if c.timestamp > now then st
      else
        var b := Launch(st.bodies[if m.isHost then Cannon1 else Cannon2], lv.direction(FloatValue(m.angle) + HalfPi), FloatValue(m.power));
        st.(objQueue := st.objQueue + [st.nextObj],
            nextObj := (st.nextObj + 1) % 0x1_0000_0000,
            bodies := if Obj(st.nextObj) in st.bodies then st.bodies else st.bodies[Obj(st.nextObj) := b])
    case ResetWorld =>
      SceneState(NumCrates + 2, Ids(NumCrates + 2),
                 Placed(Layout(false, lv.wall1, lv.wall2))
                   [Cannon1 := CannonAt(false, st.bodies, Cannon1, 2.0, 9.0, -HalfPi)]
                   [Cannon2 := CannonAt(false, st.bodies, Cannon2, 30.0, 9.0, HalfPi)],
                 map[], false)
    case StateSync(p) =>
      if !c.fromPeer || Obj(p.objId) !in st.bodies then st
      else st.(targets := st.targets[Obj(p.objId) := StateTarget(st.bodies[Obj(p.objId)], p)])
    case CannonAim(m) =>
      var cannon := if m.isHost then Cannon1 else Cannon2;
      if !c.fromPeer then st
      else st.(targets := st.targets[cannon := CannonTarget(st.bodies[cannon], m.angle)])
    case UnknownFlag => st
  }

  /** The commands cs dispatched one after the other, first to last. */
  function ApplyAll(lv: Level, st: SceneState, cs: seq<Command>, now: Uint64): (r: SceneState)
    requires Cannon1 in st.bodies && Cannon2 in st.bodies
    ensures Cannon1 in r.bodies && Cannon2 in r.bodies
    decreases |cs|
  {
    if cs == [] then st
    else Apply(lv, ApplyAll(lv, st, cs[..|cs| - 1], now), cs[|cs| - 1], now)
  }

  lemma ApplyAllSnoc(lv: Level, st: SceneState, cs: seq<Command>, c: Command, now: Uint64)
    requires Cannon1 in st.bodies && Cannon2 in st.bodies
    ensures ApplyAll(lv, st, cs + [c], now) == Apply(lv, ApplyAll(lv, st, cs, now), c, now)
  {
    assert (cs + [c])[..|cs|] == cs;
  }

  /** Dispatching one more message is one more Apply on its command. */
  lemma ApplyAllMessages(lv: Level, st: SceneState, msgs: seq<NetData>, msg: NetData, now: Uint64)
    requires Cannon1 in st.bodies && Cannon2 in st.bodies
    ensures ApplyAll(lv, st, Commands(msgs + [msg]), now) == Apply(lv, ApplyAll(lv, st, Commands(msgs), now), CommandOf(msg), now)
  {
    CommandsSnoc(msgs, msg);
    ApplyAllSnoc(lv, st, Commands(msgs), CommandOf(msg), now);
  }

  /** Every dispatch keeps the scene consistent. */
  lemma ApplyConsistent(lv: Level, st: SceneState, c: Command, now: Uint64)
    requires Consistent(st)
    ensures Consistent(Apply(lv, st, c, now))
  {
    if c.action.ResetWorld? {
      IdsPlaced(NumCrates + 2);
    }
  }

  /** A drain of any length keeps the scene consistent. */
  lemma {:induction false} ApplyAllConsistent(lv: Level, st: SceneState, cs: seq<Command>, now: Uint64)
    requires Consistent(st)
    ensures Consistent(ApplyAll(lv, st, cs, now))
    decreases |cs|
  {
    if cs != [] {
      ApplyAllConsistent(lv, st, cs[..|cs| - 1], now);
      ApplyConsistent(lv, ApplyAll(lv, st, cs[..|cs| - 1], now), cs[|cs| - 1], now);
    }
  }

  /** Whether c is a fire input due at tick now. */
  predicate DueFire(c: Command, now: Uint64)
  {
    c.action.FireInput? && c.timestamp <= now
  }

  /** How many of cs are fire inputs due at tick now. */
  function DueFires(cs: seq<Command>, now: Uint64): (r: nat)
    ensures r <= |cs|
  {
    if cs == [] then 0
    else DueFires(cs[..|cs| - 1], now) + (if DueFire(cs[|cs| - 1], now) then 1 else 0)
  }

  /** Outside a reset, only a due fire input moves the id queue and counter: by one id. */
  lemma ApplyIds(lv: Level, st: SceneState, c: Command, now: Uint64)
    requires Cannon1 in st.bodies && Cannon2 in st.bodies
    requires !c.action.ResetWorld?
    ensures var r := Apply(lv, st, c, now);
      if DueFire(c, now)
      then r.objQueue == st.objQueue + [st.nextObj] && r.nextObj == (st.nextObj + 1) % 0x1_0000_0000
      else r.objQueue == st.objQueue && r.nextObj == st.nextObj
  {
  }

  /** Counting on by one after counting on by d, modulo 2^32. */
  lemma CountOn(n: nat, d: nat)
    ensures ((n + d) % 0x1_0000_0000 + 1) % 0x1_0000_0000 == (n + d + 1) % 0x1_0000_0000
  {
    var m := n + d;
    var k := m / 0x1_0000_0000;
    assert m == k * 0x1_0000_0000 + m % 0x1_0000_0000;
  }

  /** The k ids handed out one after the other from n on, wrapping at 2^32. */
  function Span(n: Uint32, k: nat): seq<Uint32>
  {
    seq(k, i requires 0 <= i < k => (n + i) % 0x1_0000_0000)
  }

  lemma SpanSnoc(n: Uint32, k: nat)
    ensures Span(n, k + 1) == Span(n, k) + [(n + k) % 0x1_0000_0000]
  {
    assert forall i | 0 <= i < k :: Span(n, k + 1)[i] == Span(n, k)[i];
  }

  /** One more step of FiresAddIds's induction, on the queue alone. */
  lemma QueueStep(q0: seq<Uint32>, n0: Uint32, d: nat, q: seq<Uint32>, n: Uint32, step: bool, q': seq<Uint32>, e: nat)
    requires q == q0 + Span(n0, d) && n == (n0 + d) % 0x1_0000_0000
    requires q' == (if step then q + [n] else q) && e == d + (if step then 1 else 0)
    ensures q' == q0 + Span(n0, e)
  {
    if step {
      SpanSnoc(n0, d);
      SnocAssoc(q0, Span(n0, d), n);
    }
  }

  lemma SnocAssoc<T>(a: seq<T>, b: seq<T>, x: T)
    ensures a + b + [x] == a + (b + [x])
  {
  }

  /**
   * Without a reset among them, the dispatched commands move the id
   * counter on by one for each due fire input, wrapping at 2^32.
   */
  lemma {:induction false} FiresCountOn(lv: Level, st: SceneState, cs: seq<Command>, now: Uint64)
    requires Cannon1 in st.bodies && Cannon2 in st.bodies
    requires forall i | 0 <= i < |cs| :: !cs[i].action.ResetWorld?
    ensures ApplyAll(lv, st, cs, now).nextObj == (st.nextObj + DueFires(cs, now)) % 0x1_0000_0000
    decreases |cs|
  {
    if cs != [] {
      var init, last := cs[..|cs| - 1], cs[|cs| - 1];
      var prev := ApplyAll(lv, st, init, now);
      var d := DueFires(init, now);
      assert prev.nextObj == (st.nextObj + d) % 0x1_0000_0000 by {
        assert forall i | 0 <= i < |init| :: init[i] == cs[i];
        FiresCountOn(lv, st, init, now);
      }
      var step := DueFire(last, now);
      assert ApplyAll(lv, st, cs, now).nextObj == if step then (prev.nextObj + 1) % 0x1_0000_0000 else prev.nextObj by {
        ApplyIds(lv, prev, last, now);
      }
      if step {
        CountOn(st.nextObj, d);
      }
    }
  }

  /**
   * Without a reset among them, the dispatched commands append to the id
   * queue the ids handed out, one for each due fire input, in order.
   */
  lemma {:induction false} FiresAddIds(lv: Level, st: SceneState, cs: seq<Command>, now: Uint64)
    requires Cannon1 in st.bodies && Cannon2 in st.bodies
    requires forall i | 0 <= i < |cs| :: !cs[i].action.ResetWorld?
    ensures ApplyAll(lv, st, cs, now).objQueue == st.objQueue + Span(st.nextObj, DueFires(cs, now))
    decreases |cs|
  {
    if cs != [] {
      var init, last := cs[..|cs| - 1], cs[|cs| - 1];
      var prev := ApplyAll(lv, st, init, now);
      var d := DueFires(init, now);
      assert prev.objQueue == st.objQueue + Span(st.nextObj, d) && prev.nextObj == (st.nextObj + d) % 0x1_0000_0000 by {
        assert forall i | 0 <= i < |init| :: init[i] == cs[i];
        FiresAddIds(lv, st, init, now);
        FiresCountOn(lv, st, init, now);
      }
      var step := DueFire(last, now);
      assert ApplyAll(lv, st, cs, now).objQueue == if step then prev.objQueue + [prev.nextObj] else prev.objQueue by {
        ApplyIds(lv, prev, last, now);
      }
      QueueStep(st.objQueue, st.nextObj, d, prev.objQueue, prev.nextObj, step, ApplyAll(lv, st, cs, now).objQueue, DueFires(cs, now));
    }
  }

  /** The tick counter's increment, wrapping at 2^64. */
  function NextTick(c: Uint64): (r: Uint64)
    ensures r == (c + 1) % 0x1_0000_0000_0000_0000
  {
    if c == 0xFFFF_FFFF_FFFF_FFFF then 0 else c + 1
  }

  // ---------------------------------------------------------------- the scene

  class GameScene {
    var isHost: bool
    var complete: bool
    /** Whether the scene still holds its network controller. */
    var connected: bool
    /** The tick counter. */
    var counter: Uint64
    /** The next id to hand out. */
    var nextObj: Uint32
    /** The ids whose state the host sends, in round-robin order. */
    var objQueue: seq<Uint32>
    /** The tracked objects: those in the id map, and the two cannons. */
    var bodies: map<ObjKey, Body>
    const netCache: NetCache
    const itpr: NetPhysicsController
    /** The two walls, where the physics engine places them. */
    const wall1: Body
    const wall2: Body
    /** Rounding of a physics value to the float that is sent. */
    const toFloat: real -> Float32
    /** (cos a, sin a). */
    const direction: real -> Vec2
    /** Every frame handed to the transport's broadcast, in order. */
    ghost var sent: seq<seq<Byte>>
    /** Every message processCache has popped and dispatched, in order. */
    ghost var processed: seq<NetData>

    /**
     * The handlers' state is consistent, and the interpolator holds no
     * pending deletions between ticks.
     */
    ghost predicate Valid()
      reads this, itpr
    {
      Consistent(State()) && itpr.deleteCache == []
    }

    /** Every queued id is below the next one, and no id is queued twice. */
    ghost predicate IdsUnique()
      reads this
    {
      && (forall i | 0 <= i < |objQueue| :: objQueue[i] < nextObj)
      && (forall i, j | 0 <= i < j < |objQueue| :: objQueue[i] != objQueue[j])
    }

    /** The part of the scene processCache's handlers change. */
    function State(): (st: SceneState)
      reads this, itpr
    {
      SceneState(nextObj, objQueue, bodies, itpr.cache, complete)
    }

    /** The level data the handlers use. */
    function Lv(): Level
    {
      Level(wall1, wall2, direction)
    }

    /** The scene as init leaves it: the world populated for the first time, tick 0. */
    constructor (w1: Body, w2: Body, round: real -> Float32, dir: real -> Vec2, hasNetwork: bool)
      ensures Valid() && IdsUnique()
      ensures !isHost && !complete && connected == hasNetwork && counter == 0
      ensures nextObj == NumCrates + 2 && objQueue == Ids(NumCrates + 2)
      ensures bodies == Placed(Layout(true, w1, w2))
                          [Cannon1 := Body(2.0, 9.0, 0.0, 0.0, -HalfPi, 0.0)]
                          [Cannon2 := Body(30.0, 9.0, 0.0, 0.0, HalfPi, 0.0)]
      ensures netCache.entries == [] && itpr.cache == map[]
      ensures sent == [] && processed == []
    {
      isHost, complete, connected, counter := false, false, hasNetwork, 0;
      nextObj, objQueue, bodies := 0, [], map[];
      netCache := new NetCache();
      itpr := new NetPhysicsController();
      wall1, wall2, toFloat, direction := w1, w2, round, dir;
      sent, processed := [], [];
      new;
      Populate(true);
      netCache.Clear();
    }

    method SetHost(host: bool)
      modifies this
      ensures isHost == host
      ensures complete == old(complete) && connected == old(connected) && counter == old(counter)
      ensures nextObj == old(nextObj) && objQueue == old(objQueue) && bodies == old(bodies)
      ensures sent == old(sent) && processed == old(processed)
    {
      isHost := host;
    }

    /** addObstacle / addObstacleAlt: queue the next id, map it to the object if it is new, count on. */
    method AddObstacle(b: Body)
      modifies this
      ensures objQueue == old(objQueue) + [old(nextObj)]
      ensures nextObj == (old(nextObj) + 1) % 0x1_0000_0000
      ensures bodies == if Obj(old(nextObj)) in old(bodies) then old(bodies) else old(bodies)[Obj(old(nextObj)) := b]
      ensures old(Valid()) ==> Valid()
      ensures old(Valid() && IdsUnique()) && old(nextObj) < 0xFFFF_FFFF ==> IdsUnique() && Obj(old(nextObj)) !in old(bodies)
      ensures isHost == old(isHost) && complete == old(complete) && connected == old(connected)
      ensures counter == old(counter) && sent == old(sent) && processed == old(processed)
    {
      objQueue := objQueue + [nextObj];
      if Obj(nextObj) !in bodies {
        bodies := bodies[Obj(nextObj) := b];
      }
      nextObj := (nextObj + 1) % 0x1_0000_0000;
    }

    /** The addObstacle calls of populate, one per object in order, from an empty scene. */
    method AddAll(objs: seq<Body>)
      requires nextObj == 0 && objQueue == [] && bodies == map[] && |objs| <= NumCrates + 2
      modifies this
      ensures nextObj == |objs| && objQueue == Ids(|objs|) && bodies == Placed(objs)
      ensures isHost == old(isHost) && complete == old(complete) && connected == old(connected)
      ensures counter == old(counter) && sent == old(sent) && processed == old(processed)
    {
      assert objs[..0] == [];
      var i := 0;
      while i < |objs|
        invariant 0 <= i <= |objs|
        invariant nextObj == i && objQueue == Ids(i) && bodies == Placed(objs[..i])
        invariant isHost == old(isHost) && complete == old(complete) && connected == old(connected)
        invariant counter == old(counter) && sent == old(sent) && processed == old(processed)
        modifies this
      {
        PlacedSnoc(objs, i);
        AddObstacle(objs[i]);
        i := i + 1;
      }
      assert objs[..|objs|] == objs;
    }

    /**
     * populate: ids restart at 0, the queue and the id map are emptied, the
     * interpolator is reset, the 17 level objects get ids 0..16 in layout
     * order, and the cannons go back to their starting places.
     */
    method Populate(isInit: bool)
      requires !isInit ==> Cannon1 in bodies && Cannon2 in bodies
      modifies this, itpr
      ensures nextObj == NumCrates + 2 && objQueue == Ids(NumCrates + 2)
      ensures bodies == Placed(Layout(isInit, wall1, wall2))
                          [Cannon1 := CannonAt(isInit, old(bodies), Cannon1, 2.0, 9.0, -HalfPi)]
                          [Cannon2 := CannonAt(isInit, old(bodies), Cannon2, 30.0, 9.0, HalfPi)]
      ensures Valid() && IdsUnique()
      ensures itpr.cache == map[] && itpr.deleteCache == []
      ensures itpr.itprCount == 0 && itpr.ovrdCount == 0 && itpr.stepSum == 0
      ensures itpr.objRotation == old(itpr.objRotation) && itpr.obstacleFacts == old(itpr.obstacleFacts)
      ensures itpr.world == old(itpr.world) && itpr.linked == old(itpr.linked)
      ensures isHost == old(isHost) && complete == old(complete) && connected == old(connected)
      ensures counter == old(counter) && sent == old(sent) && processed == old(processed)
    {
      var c1 := CannonAt(isInit, bodies, Cannon1, 2.0, 9.0, -HalfPi);
      var c2 := CannonAt(isInit, bodies, Cannon2, 30.0, 9.0, HalfPi);
      // At start the crates are added before the walls, on reset after them:
      // Layout lists the objects in the order addObstacle is called.
      var objs := Layout(isInit, wall1, wall2);
      nextObj := 0;
      objQueue := [];
      bodies := map[];
      itpr.Reset();
      AddAll(objs);
      IdsPlaced(|objs|);
      bodies := bodies[Cannon1 := c1][Cannon2 := c2];
    }

    /** reset: the scene is no longer complete and the world is populated again. */
    method Reset()
      requires Valid()
      modifies this, itpr
      ensures Valid() && IdsUnique() && !complete
      ensures nextObj == NumCrates + 2 && objQueue == Ids(NumCrates + 2)
      ensures bodies == Placed(Layout(false, wall1, wall2))
                          [Cannon1 := CannonAt(false, old(bodies), Cannon1, 2.0, 9.0, -HalfPi)]
                          [Cannon2 := CannonAt(false, old(bodies), Cannon2, 30.0, 9.0, HalfPi)]
      ensures itpr.cache == map[]
      ensures isHost == old(isHost) && connected == old(connected) && counter == old(counter)
      ensures sent == old(sent) && processed == old(processed)
    {
      netCache.Clear();
      complete := false;
      Populate(false);
    }

    /** packState: the front id's snapshot; the id goes to the back of the queue. */
    method PackState(ts: Uint64) returns (d: NetData)
      requires Valid() && objQueue != []
      modifies this
      ensures objQueue == RotateOnce(old(objQueue)) && Valid()
      ensures Obj(old(objQueue)[0]) in bodies
      ensures d == Packed(ts, StateSyncFlag, EncodeState(Snapshot(toFloat, old(objQueue)[0], bodies[Obj(old(objQueue)[0])])))
      ensures isHost == old(isHost) && complete == old(complete) && connected == old(connected)
      ensures counter == old(counter) && nextObj == old(nextObj) && bodies == old(bodies)
      ensures sent == old(sent) && processed == old(processed)
    {
      var id := objQueue[0];
      objQueue := objQueue[1..];
      var obj := bodies[Obj(id)];
      d := Packed(ts, StateSyncFlag, EncodeState(Snapshot(toFloat, id, obj)));
      objQueue := objQueue + [id];
    }

    /**
     * processState: a message with no sender (this peer's own echo) and a
     * message about an unknown id change nothing; otherwise the object
     * gets the received state as its interpolation target.
     */
    method ProcessState(d: NetData)
      requires Valid()
      modifies itpr
      ensures Valid()
      ensures var p := DecodeState(d.data);
        itpr.cache == if d.sourceId == "" || Obj(p.objId) !in bodies then old(itpr.cache)
                      else old(itpr.cache)[Obj(p.objId) := StateTarget(bodies[Obj(p.objId)], p)]
      ensures itpr.ovrdCount == old(itpr.ovrdCount) && itpr.objRotation == old(itpr.objRotation)
    {
      if d.sourceId == "" {
        return;
      }
      var p := DecodeState(d.data);
      if Obj(p.objId) !in bodies {
        return;
      }
      itpr.AddObject(Obj(p.objId), StateTarget(bodies[Obj(p.objId)], p));
    }

    /** processCannon: the named cannon gets the received angle as its target; own echoes are ignored. */
    method ProcessCannon(d: NetData)
      requires Valid()
      modifies itpr
      ensures Valid()
      ensures var m := DecodeCannon(d.data);
              var cannon := if m.isHost then Cannon1 else Cannon2;
        itpr.cache == if d.sourceId == "" then old(itpr.cache)
                      else old(itpr.cache)[cannon := CannonTarget(bodies[cannon], m.angle)]
      ensures itpr.ovrdCount == old(itpr.ovrdCount) && itpr.objRotation == old(itpr.objRotation)
    {
      if d.sourceId == "" {
        return;
      }
      var m := DecodeCannon(d.data);
      var cannon := if m.isHost then Cannon1 else Cannon2;
      itpr.AddObject(cannon, CannonTarget(bodies[cannon], m.angle));
    }

    /**
     * processFire: only a fire input that is due (timestamp at most the
     * counter) acts; it launches a new crate 1.5 units ahead of the cannon
     * with speed 50 times the fire power, aimed a quarter turn from the
     * cannon's angle.
     */
    method ProcessFire(d: NetData)
      requires Valid()
      modifies this
      ensures Valid()
      ensures d.timestamp > counter ==> objQueue == old(objQueue) && nextObj == old(nextObj) && bodies == old(bodies)
      ensures d.timestamp <= counter ==>
        var m := DecodeFire(d.data);
        var b := Launch(old(bodies)[if m.isHost then Cannon1 else Cannon2], direction(FloatValue(m.angle) + HalfPi), FloatValue(m.power));
        && objQueue == old(objQueue) + [old(nextObj)]
        && nextObj == (old(nextObj) + 1) % 0x1_0000_0000
        && bodies == if Obj(old(nextObj)) in old(bodies) then old(bodies)
                     else old(bodies)[Obj(old(nextObj)) := b]
      ensures old(IdsUnique()) && old(nextObj) < 0xFFFF_FFFF ==> IdsUnique()
      ensures isHost == old(isHost) && complete == old(complete) && connected == old(connected)
      ensures counter == old(counter) && sent == old(sent) && processed == old(processed)
    {
      if d.timestamp <= counter {
        var m := DecodeFire(d.data);
        var c := bodies[if m.isHost then Cannon1 else Cannon2];
        AddObstacle(Launch(c, direction(FloatValue(m.angle) + HalfPi), FloatValue(m.power)));
      }
    }

    /** The dispatch inside processCache's loop: one popped message to its handler by flag. */
    method Dispatch(next: NetData)
      requires Valid()
      modifies this, itpr
      ensures Valid() && State() == Apply(Lv(), old(State()), CommandOf(next), counter)
      ensures isHost == old(isHost) && connected == old(connected) && counter == old(counter)
      ensures sent == old(sent) && processed == old(processed)
    {
      if next.flag == FireInputFlag {
        ProcessFire(next);
      } else if next.flag == ResetFlag {
        Reset();
      } else if next.flag == StateSyncFlag {
        ProcessState(next);
      } else if next.flag == CannonFlag {
        ProcessCannon(next);
      }
    }

    /**
     * One turn of processCache's loop: stop at an empty cache or a top
     * message that is not yet due, otherwise pop it and dispatch it.
     */
    method ProcessNext(ghost s0: seq<NetData>, ghost st0: SceneState, ghost p0: seq<NetData>, ghost popped: seq<NetData>)
      returns (done: bool, ghost popped': seq<NetData>)
      requires Valid() && processed == p0 + popped && DrainsTo(s0, popped, netCache.entries, counter)
      requires Consistent(st0) && State() == ApplyAll(Lv(), st0, Commands(popped), counter)
      modifies this, itpr, netCache
      ensures Valid() && processed == p0 + popped' && DrainsTo(s0, popped', netCache.entries, counter)
      ensures State() == ApplyAll(Lv(), st0, Commands(popped'), counter)
      ensures done ==> Drain(s0, counter) == (popped', netCache.entries)
      ensures !done ==> |netCache.entries| < old(|netCache.entries|)
      ensures isHost == old(isHost) && connected == old(connected) && counter == old(counter)
      ensures sent == old(sent)
    {
      popped' := popped;
      var empty := netCache.IsEmpty();
      if empty {
        DrainDone(s0, popped, netCache.entries, counter);
        return true, popped';
      }
      var top := netCache.Peek();
      if top.timestamp > counter {
        DrainDone(s0, popped, netCache.entries, counter);
        return true, popped';
      }
      ghost var s := netCache.entries;
      var next := PopTop();
      DrainAdvance(s0, popped, s, counter);
      popped' := popped + [next];
      DispatchLogged(next, st0, popped);
      SnocAssoc(p0, popped, next);
      done := false;
    }

    /** Dispatch, seen as one more step of the left fold over the messages popped so far. */
    method DispatchLogged(next: NetData, ghost st0: SceneState, ghost popped: seq<NetData>)
      requires Valid() && Cannon1 in st0.bodies && Cannon2 in st0.bodies
      requires State() == ApplyAll(Lv(), st0, Commands(popped), counter)
      modifies this, itpr
      ensures Valid() && State() == ApplyAll(Lv(), st0, Commands(popped + [next]), counter)
      ensures isHost == old(isHost) && connected == old(connected) && counter == old(counter)
      ensures sent == old(sent) && processed == old(processed)
    {
      Dispatch(next);
      ApplyAllMessages(Lv(), st0, popped, next, counter);
    }

    /** The pop of processCache's loop: the top message leaves the cache and joins the processed log. */
    method PopTop() returns (next: NetData)
      requires netCache.entries != []
      modifies this, netCache
      ensures next == old(netCache.entries)[TopIndex(old(netCache.entries))]
      ensures netCache.entries == Remove(old(netCache.entries), TopIndex(old(netCache.entries)))
      ensures processed == old(processed) + [next]
      ensures isHost == old(isHost) && complete == old(complete) && connected == old(connected) && counter == old(counter)
      ensures nextObj == old(nextObj) && objQueue == old(objQueue) && bodies == old(bodies) && sent == old(sent)
    {
      next := netCache.Pop();
      processed := processed + [next];
    }

    /**
     * processCache: pops and dispatches cached messages while the one on
     * top is due; fire, reset, state and cannon messages go to their
     * handlers and any other flag is dropped.
     */
    method ProcessCache()
      requires Valid()
      modifies this, itpr, netCache
      ensures Valid()
      ensures netCache.entries == Drain(old(netCache.entries), counter).1
      ensures processed == old(processed) + Drain(old(netCache.entries), counter).0
      ensures State() == ApplyAll(Lv(), old(State()), Commands(Drain(old(netCache.entries), counter).0), counter)
      ensures isHost == old(isHost) && connected == old(connected) && counter == old(counter)
      ensures sent == old(sent)
    {
      var empty := netCache.IsEmpty();
      if empty {
        return;
      }
      ghost var s0 := netCache.entries;
      ghost var st0 := State();
      ghost var p0 := processed;
      ghost var popped: seq<NetData> := [];
      var done := false;
      while !done
        invariant Valid()
        invariant processed == p0 + popped
        invariant DrainsTo(s0, popped, netCache.entries, counter)
        invariant done ==> Drain(s0, counter) == (popped, netCache.entries)
        invariant State() == ApplyAll(Lv(), st0, Commands(popped), counter)
        invariant isHost == old(isHost) && connected == old(connected) && counter == old(counter)
        invariant sent == old(sent)
        decreases !done, |netCache.entries|
      {
        done, popped := ProcessNext(s0, st0, p0, popped);
      }
    }

    /** transmitNetdata: the framed message goes to the transport. */
    method TransmitNetdata(d: NetData)
      requires connected
      modifies this
      ensures sent == old(sent) + [Frame(d)]
      ensures isHost == old(isHost) && complete == old(complete) && connected == old(connected)
      ensures counter == old(counter) && nextObj == old(nextObj) && objQueue == old(objQueue)
      ensures bodies == old(bodies) && processed == old(processed)
    {
      sent := sent + [Frame(d)];
    }

    /** processData: the received frame is cached, stamped with the current tick. */
    method ProcessData(source: string, bytes: seq<Byte>)
      requires |bytes| >= HeaderLength
      modifies netCache
      ensures netCache.entries == old(netCache.entries) + [ParseFrame(source, bytes, counter)]
    {
      var msg := ParseFrame(source, bytes, counter);
      netCache.Push(msg, counter);
    }

    /** checkConnection: anything but CONNECTED drops the network and completes the scene. */
    method CheckConnection(state: TransportState) returns (ok: bool)
      modifies this
      ensures ok <==> state.Connected?
      ensures connected == (old(connected) && ok) && complete == (old(complete) || !ok)
      ensures isHost == old(isHost) && counter == old(counter) && nextObj == old(nextObj)
      ensures objQueue == old(objQueue) && bodies == old(bodies)
      ensures sent == old(sent) && processed == old(processed)
    {
      if state.Connected? {
        return true;
      }
      connected := false;
      complete := true;
      return false;
    }

    /** updateNet: while connected, every delivered message is cached, then the connection is checked. */
    method UpdateNet(inbox: seq<Incoming>, state: TransportState)
      requires forall m | m in inbox :: |m.bytes| >= HeaderLength
      modifies this, netCache
      ensures netCache.entries == old(netCache.entries) + (if old(connected) then Received(inbox, counter) else [])
      ensures connected == (old(connected) && state.Connected?)
      ensures complete == (old(complete) || (old(connected) && !state.Connected?))
      ensures isHost == old(isHost) && counter == old(counter) && nextObj == old(nextObj)
      ensures objQueue == old(objQueue) && bodies == old(bodies)
      ensures sent == old(sent) && processed == old(processed)
    {
      if connected {
        var i := 0;
        while i < |inbox|
          invariant 0 <= i <= |inbox|
          invariant netCache.entries == old(netCache.entries) + Received(inbox, counter)[..i]
          modifies netCache
        {
          assert Received(inbox, counter)[..i + 1] == Received(inbox, counter)[..i] + [Received(inbox, counter)[i]];
          ProcessData(inbox[i].source, inbox[i].bytes);
          i := i + 1;
        }
        assert Received(inbox, counter)[..|inbox|] == Received(inbox, counter);
        var ok := CheckConnection(state);
      }
    }

    /** The network half of fixedUpdate: receive into the cache, then drain what is due. */
    method Receive(inbox: seq<Incoming>, state: TransportState)
      requires Valid()
      requires forall m | m in inbox :: |m.bytes| >= HeaderLength
      modifies this, itpr, netCache
      ensures Valid()
      ensures var cached := old(netCache.entries) + (if old(connected) then Received(inbox, counter) else []);
              var st0 := old(State()).(complete := old(complete) || (old(connected) && !state.Connected?));
        && netCache.entries == Drain(cached, counter).1
        && processed == old(processed) + Drain(cached, counter).0
        && State() == ApplyAll(Lv(), st0, Commands(Drain(cached, counter).0), counter)
      ensures connected == (old(connected) && state.Connected?) && isHost == old(isHost)
      ensures counter == old(counter) && sent == old(sent)
    {
      UpdateNet(inbox, state);
      ProcessCache();
    }

    /** The physics half of fixedUpdate: the world steps, the interpolator steps, the tick is counted. */
    method Tick(physics: map<ObjKey, Body> -> map<ObjKey, Body>)
      requires Valid()
      modifies this, itpr
      ensures Valid()
      ensures bodies == StepBodies(WorldStep(physics, old(bodies)), old(itpr.cache))
      ensures itpr.cache == Survivors(old(itpr.cache))
      ensures counter == NextTick(old(counter))
      ensures nextObj == old(nextObj) && objQueue == old(objQueue) && complete == old(complete)
      ensures connected == old(connected) && isHost == old(isHost)
      ensures sent == old(sent) && processed == old(processed)
    {
      ghost var keys := bodies.Keys;
      bodies := WorldStep(physics, bodies);
      ghost var cache := itpr.cache;
      bodies := itpr.FixedUpdate(bodies);
      assert bodies.Keys == keys;
      assert itpr.cache.Keys <= cache.Keys;
      counter := NextTick(counter);
    }

    /**
     * fixedUpdate: receive, drain the cache, step the world and the
     * interpolator, and count the tick.
     */
    method FixedUpdate(inbox: seq<Incoming>, state: TransportState, physics: map<ObjKey, Body> -> map<ObjKey, Body>)
      requires Valid()
      requires forall m | m in inbox :: |m.bytes| >= HeaderLength
      modifies this, itpr, netCache
      ensures Valid()
      ensures counter == NextTick(old(counter))
      ensures var cached := old(netCache.entries) + (if old(connected) then Received(inbox, old(counter)) else []);
              var st0 := old(State()).(complete := old(complete) || (old(connected) && !state.Connected?));
              var mid := ApplyAll(Lv(), st0, Commands(Drain(cached, old(counter)).0), old(counter));
        && netCache.entries == Drain(cached, old(counter)).1
        && processed == old(processed) + Drain(cached, old(counter)).0
        && mid.targets.Keys <= mid.bodies.Keys
        && nextObj == mid.nextObj && objQueue == mid.objQueue && complete == mid.complete
        && bodies == StepBodies(WorldStep(physics, mid.bodies), mid.targets)
        && itpr.cache == Survivors(mid.targets)
      ensures connected == (old(connected) && state.Connected?) && isHost == old(isHost)
      ensures sent == old(sent)
    {
      Receive(inbox, state);
      ghost var mid := State();
      assert mid.targets.Keys <= mid.bodies.Keys;
      Tick(physics);
      assert nextObj == mid.nextObj && objQueue == mid.objQueue && complete == mid.complete;
      assert bodies == StepBodies(WorldStep(physics, mid.bodies), mid.targets);
      assert itpr.cache == Survivors(mid.targets);
    }

    /** One packState and its transmission: the front id's frame is sent and the id goes to the back. */
    method SendNextState()
      requires Valid() && connected && objQueue != []
      modifies this
      ensures Valid() && Obj(old(objQueue)[0]) in bodies
      ensures bodies == old(bodies) && objQueue == RotateOnce(old(objQueue))
      ensures sent == old(sent) + [StateFrame(toFloat, bodies, counter, old(objQueue)[0])]
      ensures isHost == old(isHost) && complete == old(complete) && connected == old(connected)
      ensures counter == old(counter) && nextObj == old(nextObj) && processed == old(processed)
    {
      var d := PackState(counter);
      TransmitNetdata(d);
    }

    /** The host's part of preUpdate: the next five ids of the round-robin queue are packed and sent. */
    method SendStates()
      requires Valid() && connected && objQueue != []
      modifies this
      ensures Valid()
      ensures bodies == old(bodies) && objQueue == Rotated(old(objQueue), StatesPerUpdate)
      ensures sent == old(sent) + StateFrames(toFloat, bodies, counter, old(objQueue), StatesPerUpdate)
      ensures isHost == old(isHost) && complete == old(complete) && connected == old(connected)
      ensures counter == old(counter) && nextObj == old(nextObj) && processed == old(processed)
    {
      ghost var q := objQueue;
      assert forall id | id in q :: Obj(id) in bodies;
      for i := 0 to StatesPerUpdate
        invariant Valid() && bodies == old(bodies)
        invariant forall id | id in q :: Obj(id) in bodies
        invariant objQueue == Rotated(q, i)
        invariant sent == old(sent) + StateFrames(toFloat, bodies, counter, q, i)
        invariant isHost == old(isHost) && complete == old(complete) && connected == old(connected)
        invariant counter == old(counter) && nextObj == old(nextObj) && processed == old(processed)
      {
        StateFramesSnoc(toFloat, bodies, counter, q, i);
        SendNextState();
        SnocAssoc(old(sent), StateFrames(toFloat, bodies, counter, q, i), StateFrame(toFloat, bodies, counter, Rotated(q, i)[0]));
      }
    }

    /** The input half of preUpdate: a reset, then a fire, each sent for two ticks ahead. */
    method SendInputs(input: Input)
      requires Valid() && connected
      modifies this
      ensures bodies == old(bodies) && objQueue == old(objQueue)
      ensures sent == old(sent) + InputFrames(toFloat, input, old(counter), isHost, toFloat(old(bodies)[OwnCannon(isHost)].angle))
      ensures isHost == old(isHost) && complete == old(complete) && connected == old(connected)
      ensures counter == old(counter) && nextObj == old(nextObj) && processed == old(processed)
    {
      var later := (counter + InputDelay) % 0x1_0000_0000_0000_0000;
      if input.didReset {
        TransmitNetdata(Packed(later, ResetFlag, []));
      }
      var own := OwnCannon(isHost);
      if input.didFire {
        TransmitNetdata(Packed(later, FireInputFlag, EncodeFire(FireMsg(isHost, toFloat(bodies[own].angle), toFloat(input.firePower)))));
      }
    }

    /**
     * preUpdate: a reset or fire input is sent for two ticks ahead; the
     * host sends the next five states of the round-robin queue; the own
     * cannon turns with the vertical input and its angle is sent. Once the
     * network is dropped nothing is sent, and the cannon still turns.
     */
    method PreUpdate(input: Input)
      requires Valid()
      modifies this
      ensures Valid()
      ensures var q := old(objQueue);
              var own := OwnCannon(isHost);
        && objQueue == (if connected && q != [] && isHost then Rotated(q, StatesPerUpdate) else q)
        && bodies == old(bodies)[own := Turned(old(bodies)[own], isHost, input.vertical)]
        && sent == old(sent) + (if connected then PreUpdateFrames(toFloat, input, old(counter), isHost, old(bodies), q) else [])
      ensures isHost == old(isHost) && complete == old(complete) && connected == old(connected)
      ensures counter == old(counter) && nextObj == old(nextObj) && processed == old(processed)
    {
      if connected {
        SendAndTurn(input);
      } else {
        var own := OwnCannon(isHost);
        bodies := bodies[own := Turned(bodies[own], isHost, input.vertical)];
      }
    }

    /** preUpdate while the network is held: every frame is sent, and the own cannon turns. */
    method SendAndTurn(input: Input)
      requires Valid() && connected
      modifies this
      ensures Valid()
      ensures var q := old(objQueue);
              var own := OwnCannon(isHost);
        && objQueue == (if q != [] && isHost then Rotated(q, StatesPerUpdate) else q)
        && bodies == old(bodies)[own := Turned(old(bodies)[own], isHost, input.vertical)]
        && sent == old(sent) + PreUpdateFrames(toFloat, input, old(counter), isHost, old(bodies), q)
      ensures isHost == old(isHost) && complete == old(complete) && connected == old(connected)
      ensures counter == old(counter) && nextObj == old(nextObj) && processed == old(processed)
    {
      ghost var q, b0, s0 := objQueue, bodies, sent;
      assert forall id | id in q :: Obj(id) in b0;
      SendInputs(input);
      ghost var s1 := sent;
      if objQueue != [] && isHost {
        SendStates();
      }
      ghost var s2 := sent;
      TurnAndSendAngle(input);
      ghost var own := OwnCannon(isHost);
      ghost var a := InputFrames(toFloat, input, counter, isHost, toFloat(b0[own].angle));
      ghost var st := if q != [] && isHost then StateFrames(toFloat, b0, counter, q, StatesPerUpdate) else [];
      ghost var c := [Frame(Packed(counter, CannonFlag, EncodeCannon(CannonMsg(isHost, toFloat(Turned(b0[own], isHost, input.vertical).angle)))))];
      assert s1 == s0 + a && s2 == s1 + st && sent == s2 + c;
      assert PreUpdateFrames(toFloat, input, counter, isHost, b0, q) == a + st + c;
      ConcatAssoc(s0, a, st, c);
    }

    /** The end of preUpdate: the own cannon turns with the vertical input and its new angle is sent. */
    method TurnAndSendAngle(input: Input)
      requires Valid() && connected
      modifies this
      ensures Valid()
      ensures var own := OwnCannon(isHost);
        && bodies == old(bodies)[own := Turned(old(bodies)[own], isHost, input.vertical)]
        && sent == old(sent) + [Frame(Packed(counter, CannonFlag, EncodeCannon(CannonMsg(isHost, toFloat(Turned(old(bodies)[own], isHost, input.vertical).angle)))))]
      ensures isHost == old(isHost) && complete == old(complete) && connected == old(connected)
      ensures counter == old(counter) && nextObj == old(nextObj) && objQueue == old(objQueue) && processed == old(processed)
    {
      var own := OwnCannon(isHost);
      bodies := bodies[own := Turned(bodies[own], isHost, input.vertical)];
      TransmitNetdata(Packed(counter, CannonFlag, EncodeCannon(CannonMsg(isHost, toFloat(bodies[own].angle)))));
    }
  }
}
