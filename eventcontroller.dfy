/**
 * NetEventController: frames events for the transport (a one-byte type
 * tag, the sender's tick relative to the game-start epoch, the payload),
 * batches the outbound queue under a per-tick message and byte budget,
 * and releases inbound events once their tick has been reached locally.
 * The transport itself is abstract: what is broadcast is recorded in a
 * ghost log, and the application's update counter is a parameter.
 */
module EventController {
  import opened Wire
  import opened LWCodec
  import opened NetEvents

  /** At most this many events are broadcast per call of sendQueuedOutData. */
  const MaxOutMsg: nat := 10
  /** At most this many wrapped bytes are broadcast per call of sendQueuedOutData. */
  const MaxOutBytes: nat := 100000
  /** A frame's header: the one-byte tag and the eight-byte tick. */
  const MinMsgLength: nat := 9

  /** Session phases of the controller. */
  datatype Status = Idle | Connecting | Connected | InSession | Ready | InGame | NetError

  /** The tick relative to the epoch, as an unsigned 64-bit difference (wrapping). */
  function RelTick(updateCount: Uint64, epoch: Uint64): (t: Uint64)
    ensures epoch <= updateCount ==> t == updateCount - epoch
    ensures updateCount < epoch ==> t == updateCount - epoch + 0x1_0000_0000_0000_0000
  {
    (updateCount - epoch) % 0x1_0000_0000_0000_0000
  }

  // ---------------------------------------------------------------- framing

  /** wrap: [tag][8-byte tick][payload]. */
  function WrapFrame(tag: Byte, tick: Uint64, payload: seq<Byte>): (r: seq<Byte>)
    ensures |r| == MinMsgLength + |payload|
  {
    Encode(ByteV(tag)) + Encode(Uint64V(tick)) + payload
  }

  /** unwrap's reads: the tag, the tick, and the bytes from offset 9 on. */
  function UnwrapFrame(data: seq<Byte>): (Byte, Uint64, seq<Byte>)
    requires |data| >= MinMsgLength
  {
    var tag := Read(ByteKind, data, 0);
    var tick := Read(Uint64Kind, data, tag.1);
    (tag.0.byte, tick.0.u64, data[MinMsgLength..])
  }

  /** Unwrapping a wrapped frame gives back its tag, tick and payload. */
  lemma FrameRoundTrip(tag: Byte, tick: Uint64, payload: seq<Byte>)
    ensures UnwrapFrame(WrapFrame(tag, tick, payload)) == (tag, tick, payload)
  {
    var f := WrapFrame(tag, tick, payload);
    var header := Encode(ByteV(tag)) + Encode(Uint64V(tick));
    SplitSlice(f, 0, header, payload);
    SplitSlice(f, 0, Encode(ByteV(tag)), Encode(Uint64V(tick)));
    ReadAfterWrite(ByteV(tag), f, 0);
    ReadAfterWrite(Uint64V(tick), f, 1);
  }

  /** The tag of kind k: its position in the registry (first registration wins). */
  function TagOf(registered: seq<EventKind>, k: EventKind): (t: nat)
    requires k in registered
    ensures t < |registered| && registered[t] == k
    ensures forall i :: 0 <= i < t ==> registered[i] != k
  {
    if registered[0] == k then 0 else 1 + TagOf(registered[1..], k)
  }

  // ---------------------------------------------------------------- batching

  function Sum(s: seq<nat>): nat
  {
    if s == [] then 0 else Sum(s[..|s| - 1]) + s[|s| - 1]
  }

  lemma SumSnoc(s: seq<nat>, i: nat)
    requires i < |s|
    ensures Sum(s[..i + 1]) == Sum(s[..i]) + s[i]
  {
    assert s[..i + 1][..i] == s[..i];
  }

  /** The first n of the wrapped sizes may all go out in one call. */
  predicate WithinLimits(sizes: seq<nat>, n: nat)
  {
    n <= |sizes| && n <= MaxOutMsg && Sum(sizes[..n]) <= MaxOutBytes
  }

  /** Whatever may go out in one call, any shorter prefix may too. */
  lemma {:induction false} WithinLimitsPrefix(sizes: seq<nat>, k: nat, n: nat)
    requires WithinLimits(sizes, n) && k <= n
    ensures WithinLimits(sizes, k)
  {
    if k < n {
      SumSnoc(sizes, n - 1);
      WithinLimitsPrefix(sizes, k, n - 1);
    }
  }

  /** The size of the batch sendQueuedOutData sends, counting from i with bytes already counted. */
  function BatchFrom(sizes: seq<nat>, i: nat, bytes: nat): (n: nat)
    requires WithinLimits(sizes, i) && bytes == Sum(sizes[..i])
    ensures i <= n <= |sizes| && WithinLimits(sizes, n)
    ensures n < |sizes| ==> !WithinLimits(sizes, n + 1)
    decreases |sizes| - i
  {
    if i == |sizes| then i
    else
      SumSnoc(sizes, i);
      if i + 1 > MaxOutMsg || bytes + sizes[i] > MaxOutBytes then i
      else BatchFrom(sizes, i + 1, bytes + sizes[i])
  }

  /** How many queued events one call of sendQueuedOutData broadcasts. */
  function BatchLength(sizes: seq<nat>): (n: nat)
    ensures n <= |sizes| && n <= MaxOutMsg && Sum(sizes[..n]) <= MaxOutBytes
    ensures n < |sizes| ==> n == MaxOutMsg || Sum(sizes[..n + 1]) > MaxOutBytes
  {
    BatchFrom(sizes, 0, 0)
  }

  /** The batch is the longest prefix within both limits. */
  lemma BatchIsLongest(sizes: seq<nat>, m: nat)
    requires WithinLimits(sizes, m)
    ensures m <= BatchLength(sizes)
  {
    var n := BatchLength(sizes);
    if m > n {
      WithinLimitsPrefix(sizes, n + 1, m);
    }
  }

  /** The batch is the prefix at which the sending loop stops: there is only one such prefix. */
  lemma BatchStopsAt(sizes: seq<nat>, m: nat)
    requires WithinLimits(sizes, m) && (m == |sizes| || !WithinLimits(sizes, m + 1))
    ensures BatchLength(sizes) == m
  {
    BatchIsLongest(sizes, m);
    var n := BatchLength(sizes);
    if n > m {
      WithinLimitsPrefix(sizes, m + 1, n);
    }
  }

  /**
   * An event whose frame alone is over the byte budget is never sent, and
   * neither is anything queued behind it.
   */
  lemma OversizedBlocks(sizes: seq<nat>, k: nat)
    requires k < |sizes| && sizes[k] > MaxOutBytes
    ensures BatchLength(sizes) <= k
  {
    var n := BatchLength(sizes);
    if n > k {
      WithinLimitsPrefix(sizes, k + 1, n);
      SumSnoc(sizes, k);
    }
  }

  /** Both event variants have a tag, as they do on every peer after init. */
  predicate BothRegistered(registered: seq<EventKind>)
  {
    PhysSyncKind in registered && GameStateKind in registered
  }

  /** The frame wrap builds for payload p at the given tick; the tag is cast to a byte. */
  function FrameOf(registered: seq<EventKind>, tick: Uint64, p: Payload): (r: seq<Byte>)
    requires BothRegistered(registered)
    ensures |r| == MinMsgLength + |EncodePayload(p)|
  {
    WrapFrame(TagOf(registered, p.Kind()) % 256, tick, EncodePayload(p))
  }

  function PayloadsOf(events: seq<NetEvent>): (ps: seq<Payload>)
    reads events
    ensures |ps| == |events| && forall i :: 0 <= i < |events| ==> ps[i] == events[i].payload
  {
    seq(|events|, i reads events requires 0 <= i < |events| => events[i].payload)
  }

  /** f applied to each element of s. */
  function Map<A, B>(f: A -> B, s: seq<A>): (r: seq<B>)
    ensures |r| == |s| && forall i :: 0 <= i < |s| ==> r[i] == f(s[i])
  {
    seq(|s|, i requires 0 <= i < |s| => f(s[i]))
  }

  lemma PrefixSnoc<T>(s: seq<T>, i: nat)
    requires i < |s|
    ensures s[..i + 1] == s[..i] + [s[i]]
  {
  }

  lemma SuffixTail<T>(s: seq<T>, i: nat)
    requires i < |s|
    ensures s[i..][1..] == s[i + 1..]
  {
  }

  lemma PayloadsOfSnoc(events: seq<NetEvent>, e: NetEvent)
    ensures PayloadsOf(events + [e]) == PayloadsOf(events) + [e.payload]
  {
    assert (events + [e])[..|events|] == events;
  }

  /** The frames of the payloads ps, in order. */
  function Frames(registered: seq<EventKind>, tick: Uint64, ps: seq<Payload>): (r: seq<seq<Byte>>)
    requires BothRegistered(registered)
  {
    Map((p: Payload) => FrameOf(registered, tick, p), ps)
  }

  /** The sizes of frames, in order. */
  function Sizes(frames: seq<seq<Byte>>): (r: seq<nat>)
  {
    Map((f: seq<Byte>) => |f|, frames)
  }

  /** wrap(e) at the given relative tick. */
  method WrapEvent(registered: seq<EventKind>, tick: Uint64, e: NetEvent) returns (r: seq<Byte>)
    requires BothRegistered(registered)
    ensures r == FrameOf(registered, tick, e.payload)
  {
    var payload := e.Serialize();
    var s := new LWSerializer();
    s.WriteByte(TagOf(registered, e.payload.Kind()) % 256);
    s.WriteUint64(tick);
    s.WriteByteVector(payload);
    r := s.Serialize();
  }

  /**
   * The loop of sendQueuedOutData over queue: the frames it broadcasts, in
   * order, and the events left queued.
   */
  method SendBatch(queue: seq<NetEvent>, registered: seq<EventKind>, tick: Uint64)
    returns (sent: seq<seq<Byte>>, rest: seq<NetEvent>)
    requires BothRegistered(registered)
    ensures var frames := Frames(registered, tick, old(PayloadsOf(queue)));
            var n := BatchLength(Sizes(frames));
            rest == queue[n..] && sent == frames[..n]
  {
    ghost var ps := PayloadsOf(queue);
    ghost var frames := Frames(registered, tick, ps);
    ghost var sizes := Sizes(frames);
    ghost var n: nat := 0;
    rest, sent := queue, [];
    var msgCount := 0;
    var byteCount := 0;
    while rest != []
      invariant n <= |queue| && rest == queue[n..]
      invariant msgCount == n && byteCount == Sum(sizes[..n]) && WithinLimits(sizes, n)
      invariant sent == frames[..n]
      decreases |rest|
    {
      var e := rest[0];
      assert e == queue[n] && e.payload == ps[n];
      var wrapped := WrapEvent(registered, tick, e);
      msgCount := msgCount + 1;
      byteCount := byteCount + |wrapped|;
      SumSnoc(sizes, n);
      if msgCount > MaxOutMsg || byteCount > MaxOutBytes {
        break;
      }
      PrefixSnoc(frames, n);
      SuffixTail(queue, n);
      sent := sent + [wrapped];
      rest := rest[1..];
      n := n + 1;
    }
    BatchStopsAt(sizes, n);
  }

  // ---------------------------------------------------------------- controller

  class NetEventController {
    /** The event variants in registration order; a variant's tag is its index. */
    var registered: seq<EventKind>
    /** Events waiting to be broadcast, oldest first. */
    var outQueue: seq<NetEvent>
    /** Received events waiting to be popped, oldest first. */
    var inQueue: seq<NetEvent>
    var isHost: bool
    var status: Status
    /** The update count at which the game started: tick 0 of every relative tick. */
    var startGameTimeStamp: Uint64
    /** Every frame handed to the transport's broadcast, in order. */
    ghost var broadcastLog: seq<seq<Byte>>

    constructor (host: bool)
      ensures registered == [] && outQueue == [] && inQueue == []
      ensures isHost == host && status == Idle && startGameTimeStamp == 0 && broadcastLog == []
    {
      registered, outQueue, inQueue := [], [], [];
      isHost, status, startGameTimeStamp := host, Idle, 0;
      broadcastLog := [];
    }

    /** Registers PhysSyncEvent then GameStateEvent, fixing their tags on every peer, and goes idle. */
    method Init()
      modifies this
      ensures registered == old(registered) + [PhysSyncKind, GameStateKind]
      ensures status == Idle
      ensures outQueue == old(outQueue) && inQueue == old(inQueue) && isHost == old(isHost)
      ensures startGameTimeStamp == old(startGameTimeStamp) && broadcastLog == old(broadcastLog)
    {
      registered := registered + [PhysSyncKind];
      registered := registered + [GameStateKind];
      status := Idle;
    }

    method PushOutEvent(e: NetEvent)
      modifies this
      ensures outQueue == old(outQueue) + [e]
      ensures registered == old(registered) && inQueue == old(inQueue) && isHost == old(isHost)
      ensures status == old(status) && startGameTimeStamp == old(startGameTimeStamp)
      ensures broadcastLog == old(broadcastLog)
    {
      outQueue := outQueue + [e];
    }

    /** The oldest received event, removed from the queue (which must not be empty). */
    method PopInEvent() returns (e: NetEvent)
      requires inQueue != []
      modifies this
      ensures e == old(inQueue)[0] && inQueue == old(inQueue)[1..]
      ensures registered == old(registered) && outQueue == old(outQueue) && isHost == old(isHost)
      ensures status == old(status) && startGameTimeStamp == old(startGameTimeStamp)
      ensures broadcastLog == old(broadcastLog)
    {
      e := inQueue[0];
      inQueue := inQueue[1..];
    }

    /** An event is available once the local relative tick has reached the sender's tick. */
    method IsInAvailable(updateCount: Uint64) returns (b: bool)
      ensures b <==> inQueue != [] && inQueue[0].eventTimeStamp <= RelTick(updateCount, startGameTimeStamp)
    {
      if inQueue == [] {
        return false;
      }
      var top := inQueue[0];
      b := top.eventTimeStamp <= RelTick(updateCount, startGameTimeStamp);
    }

    /** wrap(e): the event's tag, the current relative tick and its serialized payload. */
    method Wrap(e: NetEvent, updateCount: Uint64) returns (r: seq<Byte>)
      requires BothRegistered(registered)
      ensures r == FrameOf(registered, RelTick(updateCount, startGameTimeStamp), e.payload)
    {
      r := WrapEvent(registered, RelTick(updateCount, startGameTimeStamp), e);
    }

    /**
     * unwrap(data, source): a fresh event of the variant data[0] names,
     * stamped with the sender's tick from bytes 1..8, the local relative
     * tick and the source, and deserialized from bytes 9 on.
     */
    method Unwrap(data: seq<Byte>, source: string, updateCount: Uint64) returns (e: NetEvent)
      requires |data| >= MinMsgLength && data[0] < |registered|
      requires registered[data[0]] == GameStateKind ==> |data| > MinMsgLength
      ensures fresh(e)
      ensures e.payload == DeserializePayload(EmptyPayload(registered[data[0]]), data[MinMsgLength..])
      ensures e.eventTimeStamp == UnwrapFrame(data).1
      ensures e.receiveTimeStamp == RelTick(updateCount, startGameTimeStamp)
      ensures e.sourceId == source
    {
      var d := new LWDeserializer();
      d.Receive(data);
      var eventType := d.ReadByte();
      e := new NetEvent.Empty(registered[eventType]);
      var eventTimeStamp := d.ReadUint64();
      e.SetMetaData(eventTimeStamp, RelTick(updateCount, startGameTimeStamp), source);
      e.Deserialize(data[MinMsgLength..]);
    }

    /** The receive callback's body: the unwrapped event joins the inbound queue. */
    method ReceiveMessage(data: seq<Byte>, source: string, updateCount: Uint64)
      requires |data| >= MinMsgLength && data[0] < |registered|
      requires registered[data[0]] == GameStateKind ==> |data| > MinMsgLength
      modifies this
      ensures |inQueue| == |old(inQueue)| + 1 && inQueue[..|old(inQueue)|] == old(inQueue)
      ensures fresh(inQueue[|old(inQueue)|])
      ensures registered == old(registered) && outQueue == old(outQueue) && isHost == old(isHost)
      ensures inQueue[|old(inQueue)|].payload
                == DeserializePayload(EmptyPayload(registered[data[0]]), data[MinMsgLength..])
      ensures status == old(status) && startGameTimeStamp == old(startGameTimeStamp)
      ensures broadcastLog == old(broadcastLog)
    {
      var e := Unwrap(data, source, updateCount);
      inQueue := inQueue + [e];
    }

    /**
     * sendQueuedOutData: broadcasts the longest prefix of the out queue
     * whose wrapped sizes stay within both limits, popping each event after
     * its broadcast; the first event over a limit and everything behind it
     * stay queued.
     */
    method SendQueuedOutData(updateCount: Uint64)
      requires BothRegistered(registered)
      modifies this
      ensures registered == old(registered) && inQueue == old(inQueue) && isHost == old(isHost)
      ensures status == old(status) && startGameTimeStamp == old(startGameTimeStamp)
      ensures var frames := old(Frames(registered, RelTick(updateCount, startGameTimeStamp), PayloadsOf(outQueue)));
              var n := BatchLength(Sizes(frames));
              && outQueue == old(outQueue)[n..]
              && broadcastLog == old(broadcastLog) + frames[..n]
    {
      var sent, rest := SendBatch(outQueue, registered, RelTick(updateCount, startGameTimeStamp));
      broadcastLog, outQueue := broadcastLog + sent, rest;
    }

    /** The host's part of startGame: GAME_START joins the out queue, which is then flushed. */
    method AnnounceStart(updateCount: Uint64) returns (ghost started: NetEvent)
      requires BothRegistered(registered)
      modifies this
      ensures registered == old(registered) && inQueue == old(inQueue) && isHost == old(isHost)
      ensures status == old(status) && startGameTimeStamp == old(startGameTimeStamp)
      ensures fresh(started) && started.payload == GameState(GameStart)
      ensures var ps := old(PayloadsOf(outQueue)) + [GameState(GameStart)];
              var frames := Frames(registered, RelTick(updateCount, startGameTimeStamp), ps);
              var n := BatchLength(Sizes(frames));
              && outQueue == (old(outQueue) + [started])[n..]
              && broadcastLog == old(broadcastLog) + frames[..n]
    {
      ghost var q0, ps0 := outQueue, PayloadsOf(outQueue);
      var e := new NetEvent.GameStateAlloc(GameStart);
      PushOutEvent(e);
      assert PayloadsOf(outQueue) == ps0 + [GameState(GameStart)] by {
        assert PayloadsOf(q0) == ps0;
        PayloadsOfSnoc(q0, e);
      }
      SendQueuedOutData(updateCount);
      started := e;
    }

    /** startGame: only the host enqueues and flushes GAME_START; every peer latches the epoch. */
    method StartGame(updateCount: Uint64) returns (ghost started: NetEvent?)
      requires BothRegistered(registered)
      modifies this
      ensures registered == old(registered) && inQueue == old(inQueue) && isHost == old(isHost)
      ensures status == old(status) && startGameTimeStamp == updateCount
      ensures !old(isHost) ==> started == null && outQueue == old(outQueue) && broadcastLog == old(broadcastLog)
      ensures old(isHost) ==>
                && started != null && fresh(started) && started.payload == GameState(GameStart)
                && var ps := old(PayloadsOf(outQueue)) + [GameState(GameStart)];
                   var frames := Frames(registered, RelTick(updateCount, old(startGameTimeStamp)), ps);
                   var n := BatchLength(Sizes(frames));
                   && outQueue == (old(outQueue) + [started])[n..]
                   && broadcastLog == old(broadcastLog) + frames[..n]
    {
      started := null;
      if isHost {
        started := AnnounceStart(updateCount);
      }
      startGameTimeStamp := updateCount;
    }
  }
}
