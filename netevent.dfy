/**
 * The event model: every message exchanged during play is a NetEvent,
 * carrying metadata that only the event controller sets (sender tick,
 * receive tick, source peer) and a payload of one of the registered
 * variants. The variants here are the library's two built-in ones:
 * GameStateEvent (start / reset / pause / resume) and PhysSyncEvent (a list
 * of object snapshots, de-duplicated by object id as it is built).
 */
module NetEvents {
  import opened Wire
  import opened LWCodec

  // ---------------------------------------------------------------- GameStateEvent

  const GameStartFlag: Byte := 100
  const GameResetFlag: Byte := 101
  const GamePauseFlag: Byte := 102
  const GameResumeFlag: Byte := 103

  /** Declared in this order, so GameStart is the enum's value 0. */
  datatype GameStateType = GameStart | GameReset | GamePause | GameResume

  function FlagOf(t: GameStateType): Byte
  {
    match t
    case GameStart => GameStartFlag
    case GameReset => GameResetFlag
    case GamePause => GamePauseFlag
    case GameResume => GameResumeFlag
  }

  /** The type's flag byte followed by the byte of the enum value GAME_START, i.e. 0. */
  function SerializeGameState(t: GameStateType): (r: seq<Byte>)
    ensures |r| == 2 && r[1] == 0
    ensures 100 <= r[0] <= 103
  {
    [FlagOf(t), 0]
  }

  /**
   * The type a GameStateEvent holds after deserializing data, when it held
   * current before: only the first byte is looked at, and a flag outside
   * 100..103 leaves the type unchanged.
   */
  function DeserializeGameState(data: seq<Byte>, current: GameStateType): (t: GameStateType)
    requires |data| >= 1
    ensures data[0] !in {GameStartFlag, GameResetFlag, GamePauseFlag, GameResumeFlag} ==> t == current
    ensures data[0] in {GameStartFlag, GameResetFlag, GamePauseFlag, GameResumeFlag} ==> FlagOf(t) == data[0]
  {
    if data[0] == GameStartFlag then GameStart
    else if data[0] == GameResetFlag then GameReset
    else if data[0] == GamePauseFlag then GamePause
    else if data[0] == GameResumeFlag then GameResume
    else current
  }

  /** Deserializing what serialize wrote gives back the type, whatever the event held before. */
  lemma GameStateRoundTrip(t: GameStateType, current: GameStateType)
    ensures DeserializeGameState(SerializeGameState(t), current) == t
  {
    var r := SerializeGameState(t);
    assert r[0] == FlagOf(t);
    match t
    case GameStart =>
    case GameReset =>
    case GamePause =>
    case GameResume =>
  }

  /** The four flags are distinct, so serialize is injective. */
  lemma SerializeGameStateInjective(t: GameStateType, u: GameStateType)
    requires SerializeGameState(t) == SerializeGameState(u)
    ensures t == u
  {
    GameStateRoundTrip(t, GameStart);
    GameStateRoundTrip(u, GameStart);
  }

  // ---------------------------------------------------------------- PhysSyncEvent

  /** One object snapshot: its id and six kinematic floats. */
  datatype ObjParam = ObjParam(objId: Uint32, x: Float32, y: Float32, vx: Float32, vy: Float32,
                               angle: Float32, vAngular: Float32)

  /** The 28 bytes serialize writes for one snapshot: its seven fields in order. */
  function EncodeObjParam(p: ObjParam): (r: seq<Byte>)
    ensures |r| == 28
  {
    Encode(Uint32V(p.objId)) + Encode(FloatV(p.x)) + Encode(FloatV(p.y)) + Encode(FloatV(p.vx))
      + Encode(FloatV(p.vy)) + Encode(FloatV(p.angle)) + Encode(FloatV(p.vAngular))
  }

  /**
   * The seven lenient reads deserialize makes for one snapshot from pos:
   * the snapshot read and where the cursor stops.
   */
  function ReadParam(data: seq<Byte>, pos: nat): (ObjParam, nat)
  {
    var id := Read(Uint32Kind, data, pos);
    var x := Read(FloatKind, data, id.1);
    var y := Read(FloatKind, data, x.1);
    var vx := Read(FloatKind, data, y.1);
    var vy := Read(FloatKind, data, vx.1);
    var angle := Read(FloatKind, data, vy.1);
    var vAngular := Read(FloatKind, data, angle.1);
    (ObjParam(id.0.u32, x.0.f, y.0.f, vx.0.f, vy.0.f, angle.0.f, vAngular.0.f), vAngular.1)
  }

  /** Where seven 4-byte fields were written in a row, each sits 4 bytes after the previous one. */
  lemma Fields<T>(data: seq<T>, pos: nat, e0: seq<T>, e1: seq<T>, e2: seq<T>, e3: seq<T>,
                  e4: seq<T>, e5: seq<T>, e6: seq<T>)
    requires |e0| == |e1| == |e2| == |e3| == |e4| == |e5| == |e6| == 4
    requires pos + 28 <= |data| && data[pos..pos + 28] == e0 + e1 + e2 + e3 + e4 + e5 + e6
    ensures data[pos..pos + 4] == e0 && data[pos + 4..pos + 8] == e1 && data[pos + 8..pos + 12] == e2
    ensures data[pos + 12..pos + 16] == e3 && data[pos + 16..pos + 20] == e4
    ensures data[pos + 20..pos + 24] == e5 && data[pos + 24..pos + 28] == e6
  {
    SplitSlice(data, pos, e0 + e1 + e2 + e3 + e4 + e5, e6);
    SplitSlice(data, pos, e0 + e1 + e2 + e3 + e4, e5);
    SplitSlice(data, pos, e0 + e1 + e2 + e3, e4);
    SplitSlice(data, pos, e0 + e1 + e2, e3);
    SplitSlice(data, pos, e0 + e1, e2);
    SplitSlice(data, pos, e0, e1);
  }

  /** A snapshot read where its record was written comes back whole, and the cursor moves 28 bytes. */
  lemma ReadParamAfterWrite(p: ObjParam, data: seq<Byte>, pos: nat)
    requires pos + 28 <= |data| && data[pos..pos + 28] == EncodeObjParam(p)
    ensures ReadParam(data, pos) == (p, pos + 28)
  {
    Fields(data, pos, Encode(Uint32V(p.objId)), Encode(FloatV(p.x)), Encode(FloatV(p.y)),
           Encode(FloatV(p.vx)), Encode(FloatV(p.vy)), Encode(FloatV(p.angle)), Encode(FloatV(p.vAngular)));
    ReadAfterWrite(Uint32V(p.objId), data, pos);
    ReadAfterWrite(FloatV(p.x), data, pos + 4);
    ReadAfterWrite(FloatV(p.y), data, pos + 8);
    ReadAfterWrite(FloatV(p.vx), data, pos + 12);
    ReadAfterWrite(FloatV(p.vy), data, pos + 16);
    ReadAfterWrite(FloatV(p.angle), data, pos + 20);
    ReadAfterWrite(FloatV(p.vAngular), data, pos + 24);
  }

  /** Fixed-size records laid end to end, in list order. */
  function Records<T>(list: seq<T>, f: T -> seq<Byte>): seq<Byte>
  {
    if list == [] then [] else Records(list[..|list| - 1], f) + f(list[|list| - 1])
  }

  lemma {:induction false} RecordsLength<T>(list: seq<T>, f: T -> seq<Byte>)
    requires forall x :: |f(x)| == 28
    ensures |Records(list, f)| == 28 * |list|
  {
    if list != [] {
      RecordsLength(list[..|list| - 1], f);
    }
  }

  lemma RecordsSnoc<T>(list: seq<T>, x: T, f: T -> seq<Byte>)
    ensures Records(list + [x], f) == Records(list, f) + f(x)
  {
    assert (list + [x])[..|list|] == list;
  }

  lemma {:induction false} RecordsAppend<T>(a: seq<T>, b: seq<T>, f: T -> seq<Byte>)
    ensures Records(a + b, f) == Records(a, f) + Records(b, f)
  {
    if b == [] {
      assert a + b == a;
    } else {
      var b', last := b[..|b| - 1], b[|b| - 1];
      assert b == b' + [last];
      assert a + b == (a + b') + [last];
      RecordsSnoc(a + b', last, f);
      RecordsSnoc(b', last, f);
      RecordsAppend(a, b', f);
    }
  }

  lemma SliceMiddle<T>(x: seq<T>, a: seq<T>, b: seq<T>, c: seq<T>)
    requires x == a + b + c
    ensures x[|a|..|a| + |b|] == b
  {
  }

  /** Record i sits at bytes 28*i .. 28*i + 28. */
  lemma RecordsAt<T>(list: seq<T>, f: T -> seq<Byte>, i: nat)
    requires forall x :: |f(x)| == 28
    requires i < |list|
    ensures |Records(list, f)| == 28 * |list|
    ensures Records(list, f)[28 * i..28 * i + 28] == f(list[i])
  {
    RecordsLength(list, f);
    var before, after := list[..i], list[i + 1..];
    assert list == before + [list[i]] + after;
    RecordsAppend(before + [list[i]], after, f);
    RecordsSnoc(before, list[i], f);
    RecordsLength(before, f);
    SliceMiddle(Records(list, f), Records(before, f), f(list[i]), Records(after, f));
  }

  /** The snapshots' bytes, one 28-byte record per snapshot, in list order. */
  function EncodeParams(list: seq<ObjParam>): (r: seq<Byte>)
    ensures |r| == 28 * |list|
  {
    RecordsLength(list, EncodeObjParam);
    Records(list, EncodeObjParam)
  }

  /** serialize: a 4-byte count (the size cast to Uint32), then the records. */
  function EncodeSyncList(list: seq<ObjParam>): (r: seq<Byte>)
  {
    WordBytes(|list| % 0x1_0000_0000, 4) + EncodeParams(list)
  }

  /**
   * The records a reader rd yields when run i times in a row from pos, and
   * where the cursor stops.
   */
  function ReadRecords<T>(i: nat, data: seq<Byte>, pos: nat, rd: (seq<Byte>, nat) -> (T, nat)): (r: (seq<T>, nat))
    ensures |r.0| == i
  {
    if i == 0 then ([], pos)
    else
      var prev := ReadRecords(i - 1, data, pos, rd);
      var last := rd(data, prev.1);
      (prev.0 + [last.0], last.1)
  }

  /** The snapshots deserialize appends: as many records as the count in the first 4 bytes. */
  function DecodeSyncList(data: seq<Byte>): seq<ObjParam>
    requires |data| >= 4
  {
    ReadRecords(WordValue(data[..4]), data, 4, ReadParam).0
  }

  lemma EncodeParamsPrefix(list: seq<ObjParam>, i: nat)
    requires i < |list|
    ensures EncodeParams(list[..i + 1]) == EncodeParams(list[..i]) + EncodeObjParam(list[i])
  {
    assert list[..i + 1] == list[..i] + [list[i]];
    RecordsSnoc(list[..i], list[i], EncodeObjParam);
  }

  lemma SliceOfSlice<T>(s: seq<T>, lo: nat, hi: nat, i: nat, j: nat)
    requires lo <= hi <= |s| && i <= j <= hi - lo
    ensures s[lo..hi][i..j] == s[lo + i..lo + j]
  {
    forall k | 0 <= k < j - i
      ensures s[lo..hi][i..j][k] == s[lo + i..lo + j][k]
    {
    }
  }

  /** Where r sits at pos in data, its slice i..j sits at pos + i. */
  lemma SliceWithin<T>(s: seq<T>, lo: nat, hi: nat, r: seq<T>, i: nat, j: nat)
    requires lo <= hi <= |s| && s[lo..hi] == r && i <= j <= |r|
    ensures s[lo + i..lo + j] == r[i..j]
  {
    SliceOfSlice(s, lo, hi, i, j);
  }

  /** Record k of list sits at pos + 28*k in data when the records of list sit at pos. */
  lemma RecordAtOffset<T>(list: seq<T>, f: T -> seq<Byte>, data: seq<Byte>, pos: nat, k: nat)
    requires forall x :: |f(x)| == 28
    requires pos + 28 * |list| <= |data| && data[pos..pos + 28 * |list|] == Records(list, f)
    requires k < |list|
    ensures data[pos + 28 * k..pos + 28 * k + 28] == f(list[k])
  {
    RecordsAt(list, f, k);
    SliceWithin(data, pos, pos + 28 * |list|, Records(list, f), 28 * k, 28 * k + 28);
  }

  /** rd reads back, 28 bytes on, whatever f wrote. */
  ghost predicate ReadsBack<T(!new)>(f: T -> seq<Byte>, rd: (seq<Byte>, nat) -> (T, nat))
  {
    forall x: T, data: seq<Byte>, pos: nat {:trigger f(x), rd(data, pos)} ::
      pos + 28 <= |data| && data[pos..pos + 28] == f(x) ==> rd(data, pos) == (x, pos + 28)
  }

  lemma ReadParamReadsBack()
    ensures ReadsBack(EncodeObjParam, ReadParam)
  {
    forall p: ObjParam, data: seq<Byte>, pos: nat | pos + 28 <= |data| && data[pos..pos + 28] == EncodeObjParam(p)
      ensures ReadParam(data, pos) == (p, pos + 28)
    {
      ReadParamAfterWrite(p, data, pos);
    }
  }

  /** Reading i records from where the records of list were written gives back list[..i]. */
  lemma {:induction false} ReadRecordsOfRecords<T(!new)>(list: seq<T>, f: T -> seq<Byte>, rd: (seq<Byte>, nat) -> (T, nat),
                                                 data: seq<Byte>, pos: nat, i: nat)
    requires forall x :: |f(x)| == 28
    requires ReadsBack(f, rd)
    requires pos + 28 * |list| <= |data| && data[pos..pos + 28 * |list|] == Records(list, f)
    requires i <= |list|
    ensures ReadRecords(i, data, pos, rd) == (list[..i], pos + 28 * i)
  {
    if i > 0 {
      ReadRecordsOfRecords(list, f, rd, data, pos, i - 1);
      RecordAtOffset(list, f, data, pos, i - 1);
      assert list[..i] == list[..i - 1] + [list[i - 1]];
    }
  }

  /** An encoded list is the 4-byte count followed by the records. */
  lemma EncodeSyncListParts(list: seq<ObjParam>)
    ensures |EncodeSyncList(list)| == 4 + 28 * |list|
    ensures EncodeSyncList(list)[..4] == WordBytes(|list| % 0x1_0000_0000, 4)
    ensures EncodeSyncList(list)[4..4 + 28 * |list|] == EncodeParams(list)
  {
  }

  /** The leading count of an encoded list reads back as the number of snapshots. */
  lemma SyncListCount(list: seq<ObjParam>)
    requires |list| < 0x1_0000_0000
    ensures |EncodeSyncList(list)| == 4 + 28 * |list|
    ensures WordValue(EncodeSyncList(list)[..4]) == |list|
  {
    var count := WordBytes(|list| % 0x1_0000_0000, 4);
    assert EncodeSyncList(list)[..4] == count;
    WordRoundTrip(|list| % 0x1_0000_0000, 4);
  }

  /**
   * Deserializing what serialize wrote reproduces the snapshot list in
   * order (for fewer than 2^32 snapshots, so that the count survives its
   * cast to Uint32).
   */
  lemma SyncListRoundTrip(list: seq<ObjParam>)
    requires |list| < 0x1_0000_0000
    ensures |EncodeSyncList(list)| == 4 + 28 * |list|
    ensures DecodeSyncList(EncodeSyncList(list)) == list
  {
    var enc := EncodeSyncList(list);
    EncodeSyncListParts(list);
    SyncListCount(list);
    ReadParamReadsBack();
    ReadRecordsOfRecords(list, EncodeObjParam, ReadParam, enc, 4, |list|);
    assert list[..|list|] == list;
  }

  // ---------------------------------------------------------------- NetEvent

  /** The registered event variants (the classes passed to attachEventType). */
  datatype EventKind = PhysSyncKind | GameStateKind

  /**
   * An event's own parameters. A PhysSyncEvent keeps its snapshot list and
   * the set of ids addObj has seen; a GameStateEvent its type.
   */
  datatype Payload =
    | PhysSync(syncList: seq<ObjParam>, objSet: set<Uint32>)
    | GameState(kind: GameStateType)
  {
    function Kind(): EventKind
    {
      if PhysSync? then PhysSyncKind else GameStateKind
    }
  }

  /** What clone() yields: a new, empty event of the same variant. */
  function EmptyPayload(k: EventKind): (p: Payload)
    ensures p.Kind() == k
  {
    match k
    case PhysSyncKind => PhysSync([], {})
    case GameStateKind => GameState(GameStart)
  }

  /** The bytes serialize() returns. */
  function EncodePayload(p: Payload): seq<Byte>
  {
    match p
    case PhysSync(list, _) => EncodeSyncList(list)
    case GameState(t) => SerializeGameState(t)
  }

  /** The payload after deserialize(data) on an event that held p. */
  function DeserializePayload(p: Payload, data: seq<Byte>): (q: Payload)
    requires p.GameState? ==> |data| >= 1
    ensures q.Kind() == p.Kind()
  {
    match p
    case PhysSync(list, ids) =>
      if |data| < 4 then p else PhysSync(list + DecodeSyncList(data), ids)
    case GameState(t) => GameState(DeserializeGameState(data, t))
  }

  /**
   * A PhysSyncEvent ignores input shorter than 4 bytes; otherwise it keeps
   * the snapshots it held, appends the decoded ones after them, and leaves
   * objSet alone, so decoded snapshots are not de-duplicated.
   */
  lemma DeserializeSyncAppends(p: Payload, data: seq<Byte>)
    requires p.PhysSync?
    ensures |data| < 4 ==> DeserializePayload(p, data) == p
    ensures var q := DeserializePayload(p, data);
            && q.PhysSync? && q.objSet == p.objSet
            && |p.syncList| <= |q.syncList| && q.syncList[..|p.syncList|] == p.syncList
  {
  }

  /** The parameters deserialize is documented to recreate (not addObj's bookkeeping). */
  function Parameters(p: Payload): Payload
  {
    match p
    case PhysSync(list, _) => PhysSync(list, {})
    case GameState(_) => p
  }

  /**
   * deserialize is the reverse of serialize: deserializing an event's bytes
   * into a fresh event of its variant recreates all of its parameters.
   */
  lemma PayloadRoundTrip(p: Payload)
    requires p.PhysSync? ==> |p.syncList| < 0x1_0000_0000
    ensures |EncodePayload(p)| >= 2
    ensures DeserializePayload(EmptyPayload(p.Kind()), EncodePayload(p)) == Parameters(p)
  {
    match p
    case PhysSync(list, _) =>
      SyncListRoundTrip(list);
    case GameState(t) =>
      GameStateRoundTrip(t, GameStart);
  }

  /** The snapshot list holds no two snapshots with the same id, and ids lists them all. */
  ghost predicate SyncListValid(list: seq<ObjParam>, ids: set<Uint32>)
  {
    && (forall i, j :: 0 <= i < j < |list| ==> list[i].objId != list[j].objId)
    && (forall id :: id in ids <==> exists i :: 0 <= i < |list| && list[i].objId == id)
  }

  /** Writes one snapshot's seven fields. */
  method WriteObjParam(s: LWSerializer, p: ObjParam)
    modifies s
    ensures s.data == old(s.data) + EncodeObjParam(p)
  {
    ghost var d0 := s.data;
    ghost var written: seq<Byte> := [];
    assert s.data == d0 + written;
    s.WriteUint32(p.objId);
    AppendAssoc(d0, written, Encode(Uint32V(p.objId)));
    written := written + Encode(Uint32V(p.objId));
    s.WriteFloat(p.x);
    AppendAssoc(d0, written, Encode(FloatV(p.x)));
    written := written + Encode(FloatV(p.x));
    s.WriteFloat(p.y);
    AppendAssoc(d0, written, Encode(FloatV(p.y)));
    written := written + Encode(FloatV(p.y));
    s.WriteFloat(p.vx);
    AppendAssoc(d0, written, Encode(FloatV(p.vx)));
    written := written + Encode(FloatV(p.vx));
    s.WriteFloat(p.vy);
    AppendAssoc(d0, written, Encode(FloatV(p.vy)));
    written := written + Encode(FloatV(p.vy));
    s.WriteFloat(p.angle);
    AppendAssoc(d0, written, Encode(FloatV(p.angle)));
    written := written + Encode(FloatV(p.angle));
    s.WriteFloat(p.vAngular);
    AppendAssoc(d0, written, Encode(FloatV(p.vAngular)));
    written := written + Encode(FloatV(p.vAngular));
    assert written == EncodeObjParam(p);
  }

  /** Reads one snapshot's seven fields. */
  method ReadObjParam(d: LWDeserializer) returns (p: ObjParam)
    modifies d
    ensures d.data == old(d.data)
    ensures (p, d.pos) == ReadParam(d.data, old(d.pos))
  {
    var id := d.ReadUint32();
    var x := d.ReadFloat();
    var y := d.ReadFloat();
    var vx := d.ReadFloat();
    var vy := d.ReadFloat();
    var angle := d.ReadFloat();
    var vAngular := d.ReadFloat();
    p := ObjParam(id, x, y, vx, vy, angle, vAngular);
  }

  /** Reads n snapshots one after another, as deserialize's loop does. */
  method ReadObjParams(d: LWDeserializer, n: nat) returns (ps: seq<ObjParam>)
    modifies d
    ensures d.data == old(d.data)
    ensures (ps, d.pos) == ReadRecords(n, d.data, old(d.pos), ReadParam)
  {
    ps := [];
    for i := 0 to n
      invariant d.data == old(d.data)
      invariant (ps, d.pos) == ReadRecords(i, d.data, old(d.pos), ReadParam)
    {
      var p := ReadObjParam(d);
      ps := ps + [p];
    }
  }

  /** Writes the snapshots' records one after another. */
  method WriteObjParams(s: LWSerializer, list: seq<ObjParam>)
    modifies s
    ensures s.data == old(s.data) + EncodeParams(list)
  {
    ghost var d0 := s.data;
    for i := 0 to |list|
      invariant s.data == d0 + EncodeParams(list[..i])
    {
      EncodeParamsPrefix(list, i);
      AppendAssoc(d0, EncodeParams(list[..i]), EncodeObjParam(list[i]));
      WriteObjParam(s, list[i]);
    }
    assert list[..|list|] == list;
  }

  class NetEvent {
    /** The sender's tick when the event was sent. */
    var eventTimeStamp: Uint64
    /** The receiver's tick when the event arrived. */
    var receiveTimeStamp: Uint64
    /** The sending peer; empty for an event that originated locally. */
    var sourceId: string
    var payload: Payload

    /** A new event of variant k, as clone() and the registry's allocator build it. */
    constructor Empty(k: EventKind)
      ensures payload == EmptyPayload(k)
      ensures eventTimeStamp == 0 && receiveTimeStamp == 0 && sourceId == ""
    {
      eventTimeStamp, receiveTimeStamp, sourceId := 0, 0, "";
      payload := EmptyPayload(k);
    }

    /** GameStateEvent::alloc(t). */
    constructor GameStateAlloc(t: GameStateType)
      ensures payload == GameState(t)
      ensures eventTimeStamp == 0 && receiveTimeStamp == 0 && sourceId == ""
    {
      eventTimeStamp, receiveTimeStamp, sourceId := 0, 0, "";
      payload := GameState(t);
    }

    function GetEventTimeStamp(): Uint64
      reads this
    {
      eventTimeStamp
    }

    function GetReceiveTimeStamp(): Uint64
      reads this
    {
      receiveTimeStamp
    }

    function GetSourceId(): string
      reads this
    {
      sourceId
    }

    /**
     * Sets the three metadata fields together and nothing else; the getters
     * then return exactly what was set.
     */
    method SetMetaData(eventTime: Uint64, receiveTime: Uint64, source: string)
      modifies this
      ensures GetEventTimeStamp() == eventTime && GetReceiveTimeStamp() == receiveTime
      ensures GetSourceId() == source
      ensures payload == old(payload)
    {
      eventTimeStamp := eventTime;
      receiveTimeStamp := receiveTime;
      sourceId := source;
    }

    method Clone() returns (e: NetEvent)
      ensures fresh(e) && e.payload == EmptyPayload(payload.Kind())
    {
      e := new NetEvent.Empty(payload.Kind());
    }

    method SetType(t: GameStateType)
      requires payload.GameState?
      modifies this
      ensures payload == GameState(t)
      ensures eventTimeStamp == old(eventTimeStamp) && receiveTimeStamp == old(receiveTimeStamp)
      ensures sourceId == old(sourceId)
    {
      payload := GameState(t);
    }

    /**
     * PhysSyncEvent::addObj: appends the snapshot unless its id was added
     * before; keeps the list free of duplicate ids.
     */
    method AddObj(p: ObjParam)
      requires payload.PhysSync? && SyncListValid(payload.syncList, payload.objSet)
      modifies this
      ensures payload.PhysSync? && SyncListValid(payload.syncList, payload.objSet)
      ensures p.objId in old(payload.objSet) ==> payload == old(payload)
      ensures p.objId !in old(payload.objSet) ==>
                payload == PhysSync(old(payload.syncList) + [p], old(payload.objSet) + {p.objId})
      ensures eventTimeStamp == old(eventTimeStamp) && receiveTimeStamp == old(receiveTimeStamp)
      ensures sourceId == old(sourceId)
    {
      if p.objId in payload.objSet {
        return;
      }
      var list := payload.syncList + [p];
      var ids := payload.objSet + {p.objId};
      forall id | id in ids
        ensures exists i :: 0 <= i < |list| && list[i].objId == id
      {
        if id == p.objId {
          assert list[|list| - 1].objId == id;
        } else {
          var i :| 0 <= i < |payload.syncList| && payload.syncList[i].objId == id;
          assert list[i].objId == id;
        }
      }
      payload := PhysSync(list, ids);
    }

    /** serialize(): the variant's bytes; a PhysSyncEvent starts from a reset serializer. */
    method Serialize() returns (r: seq<Byte>)
      ensures r == EncodePayload(payload)
    {
      match payload
      case GameState(t) =>
        r := SerializeGameState(t);
      case PhysSync(list, _) =>
        var s := new LWSerializer();
        s.Reset();
        s.WriteUint32(|list| % 0x1_0000_0000);
        WriteObjParams(s, list);
        r := s.Serialize();
    }

    /**
     * deserialize(data): a GameStateEvent takes its type from data[0] (which
     * must exist); a PhysSyncEvent ignores input shorter than 4 bytes and
     * otherwise appends the decoded snapshots without touching objSet.
     */
    method Deserialize(data: seq<Byte>)
      requires payload.GameState? ==> |data| >= 1
      modifies this
      ensures payload == DeserializePayload(old(payload), data)
      ensures eventTimeStamp == old(eventTimeStamp) && receiveTimeStamp == old(receiveTimeStamp)
      ensures sourceId == old(sourceId)
    {
      match payload
      case GameState(t) =>
        payload := GameState(DeserializeGameState(data, t));
      case PhysSync(list, ids) =>
        if |data| < 4 {
          return;
        }
        var d := new LWDeserializer();
        d.Reset();
        d.Receive(data);
        var numObjs := d.ReadUint32();
        assert Window(data, 0, 4) == data[..4];
        var added := ReadObjParams(d, numObjs);
        payload := PhysSync(list + added, ids);
    }
  }
}
