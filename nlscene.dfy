/**
 * The network lab's game scene: a crate factory that packs a crate's
 * position and scale into an opaque parameter blob and rebuilds the crate
 * from it, the host's ownership bookkeeping for obstacles added at start,
 * and the per-tick pop of inbound events from the event controller.
 * Building the Box2D body and its sprite is left to the engine: a crate is
 * represented by the three values it is built from.
 */
module CrateScene {
  import opened Wire
  import opened LWCodec
  import opened NetEvents
  import opened EventController

  /** What createObstacle builds a crate from: its position and scale. */
  datatype CrateSpec = CrateSpec(x: Float32, y: Float32, scale: Float32)

  /** The blob serializeParams writes: x, y and scale as three floats. */
  function EncodeCrateParams(c: CrateSpec): (r: seq<Byte>)
    ensures |r| == 12
  {
    Encode(FloatV(c.x)) + Encode(FloatV(c.y)) + Encode(FloatV(c.scale))
  }

  /** The three lenient float reads createObstacle makes from a blob. */
  function DecodeCrateParams(params: seq<Byte>): CrateSpec
  {
    var x := Read(FloatKind, params, 0);
    var y := Read(FloatKind, params, x.1);
    var scale := Read(FloatKind, params, y.1);
    CrateSpec(x.0.f, y.0.f, scale.0.f)
  }

  /** Rebuilding a crate from its blob gives back the position and scale it was packed from. */
  lemma CrateParamsRoundTrip(c: CrateSpec)
    ensures DecodeCrateParams(EncodeCrateParams(c)) == c
  {
    var b := EncodeCrateParams(c);
    var ex, ey, es := Encode(FloatV(c.x)), Encode(FloatV(c.y)), Encode(FloatV(c.scale));
    SplitSlice(b, 0, ex + ey, es);
    SplitSlice(b, 0, ex, ey);
    ReadAfterWrite(FloatV(c.x), b, 0);
    ReadAfterWrite(FloatV(c.y), b, 4);
    ReadAfterWrite(FloatV(c.scale), b, 8);
  }

  /** An empty blob rebuilds the crate at the origin with scale 0: every read past the end is 0. */
  lemma CrateParamsEmpty()
    ensures DecodeCrateParams([]) == CrateSpec(0, 0, 0)
  {
  }

  class CrateFactory {
    const serializer: LWSerializer
    const deserializer: LWDeserializer

    constructor ()
    {
      serializer := new LWSerializer();
      deserializer := new LWDeserializer();
    }

    /** serializeParams: resets the serializer and writes x, y, scale in that order. */
    method SerializeParams(c: CrateSpec) returns (blob: seq<Byte>)
      modifies serializer
      ensures blob == EncodeCrateParams(c) && serializer.data == blob
    {
      serializer.Reset();
      serializer.WriteFloat(c.x);
      serializer.WriteFloat(c.y);
      serializer.WriteFloat(c.scale);
      blob := serializer.Serialize();
    }

    /** createObstacle(params): reads x, y, scale back in the same order. */
    method CreateObstacle(params: seq<Byte>) returns (c: CrateSpec)
      modifies deserializer
      ensures c == DecodeCrateParams(params)
      ensures deserializer.data == params
    {
      deserializer.Reset();
      deserializer.Receive(params);
      var x := deserializer.ReadFloat();
      var y := deserializer.ReadFloat();
      var scale := deserializer.ReadFloat();
      c := CrateSpec(x, y, scale);
    }
  }

  /** An obstacle, known to the scene only by reference. */
  datatype ObstacleRef = ObstacleRef(handle: nat)

  class GameScene {
    var isHost: bool
    /** The obstacles added at start, in order. */
    var initObstacles: seq<ObstacleRef>
    /** The world's map of obstacles this peer owns. */
    var owned: map<ObstacleRef, Uint64>
    const network: NetEventController

    constructor (host: bool, controller: NetEventController)
      ensures isHost == host && initObstacles == [] && owned == map[] && network == controller
    {
      isHost, initObstacles, owned := host, [], map[];
      network := controller;
    }

    /** addInitObstacle: the world gets the obstacle; only the host records it as owned. */
    method AddInitObstacle(obj: ObstacleRef)
      modifies this
      ensures initObstacles == old(initObstacles) + [obj]
      ensures owned == if isHost && obj !in old(owned) then old(owned)[obj := 0] else old(owned)
      ensures isHost == old(isHost)
    {
      initObstacles := initObstacles + [obj];
      if isHost && obj !in owned {
        owned := owned[obj := 0];
      }
    }

    /**
     * The inbound part of fixedUpdate: at most one event is popped per
     * tick, and only when one is available at the current tick.
     */
    method PollInbound(updateCount: Uint64) returns (popped: Option<NetEvent>)
      modifies network
      ensures var available := old(network.inQueue) != []
                               && old(network.inQueue)[0].eventTimeStamp <= RelTick(updateCount, network.startGameTimeStamp);
              && (available ==> popped == Some(old(network.inQueue)[0]) && network.inQueue == old(network.inQueue)[1..])
              && (!available ==> popped == None && network.inQueue == old(network.inQueue))
      ensures network.registered == old(network.registered) && network.outQueue == old(network.outQueue)
      ensures network.status == old(network.status) && network.startGameTimeStamp == old(network.startGameTimeStamp)
      ensures network.broadcastLog == old(network.broadcastLog)
    {
      popped := None;
      var available := network.IsInAvailable(updateCount);
      if available {
        var e := network.PopInEvent();
        popped := Some(e);
      }
    }
  }
}
