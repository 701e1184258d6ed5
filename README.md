# DistributedPhysics data handling, in Dafny

This project models the deterministic data handling of the DistributedPhysics
networked-physics library and of its two demo scenes:

- **Byte codec** (`wire.dfy`, `lwcodec.dfy`). The lightweight serializer
  appends fixed-width big-endian values to a byte buffer. The deserializer
  reads them back from a cursor and is lenient: past the end it returns
  zero, false or byte 0 and leaves the cursor where it is.
- **Events** (`netevent.dfy`). A `NetEvent` carries metadata and the payload
  of one of the two built-in variants:
  - `GameStateEvent`, a two-byte flag encoding;
  - `PhysSyncEvent`, a snapshot list de-duplicated by object id. Its codec is
    not among the files modelled; the model encodes it in the lightweight
    layout, as a count followed by 28-byte records.
- **Event controller** (`eventcontroller.dfy`). `NetEventController` does
  three things:
  - frames events as tag, relative tick and payload;
  - sends each tick the longest prefix of its out queue that stays within 10
    messages and 100000 bytes;
  - gates inbound events on the game-start epoch.
- **Interpolator** (`interpolator.dfy`). `NetPhysicsController` keeps at most
  one correction target per object. It blends each tracked body towards its
  target by `(target - v) / stepsLeft` per tick and snaps on the last step.
  Values are real numbers.
- **Message cache** (`netcache.dfy`). A priority queue of `netdata` ordered by
  flag, then by timestamp.
- **Lockstep rocket demo** (`rdmessages.dfy`, `rdscene.dfy`). Its game scene:
  - hands out consecutive ids;
  - rotates a round-robin queue of ids whose state the host broadcasts;
  - turns received states into interpolation targets with the step-count rule;
  - drains the cache up to the current tick, stopping at the first entry that
    is not due;
  - frames what it sends and receives.
- **Connection status** (`transport.dfy`, `rdnetwork.dfy`, `clientscene.dfy`).
  This covers the rocket demo's `NetworkController`, the lobby client's status
  machine and its room-id conversion `dec2hex`.
- **Crate demo** (`nlscene.dfy`). The crate factory's parameter blob, host
  ownership of initial obstacles, and the one-event-per-tick inbound poll.

Each file is one module. The classes (`LWSerializer`, `LWDeserializer`,
`NetEvent`, `NetEventController`, `NetPhysicsController`, `NetCache`, the
scenes and the network controllers) have the fields the source updates, and
their methods state the whole new state. Each method is tied to a pure function
of the old state, and the lemmas prove the promised properties about those
functions. Transport sends are recorded in ghost logs (`sent`,
`broadcastLog`), and the messages the rocket scene dispatches are recorded in
`processed`. What dispatching a message does to the rocket scene is the
function `Apply` on a `SceneState` value, and a drain of the cache is its left
fold `ApplyAll` over the drained messages.

## Model

| member | source | states |
|---|---|---|
| Wire.WordRoundTrip | source/CULWSerializer.h:66-72 | reading back the n big-endian bytes written for a value below 256^n gives the value |
| Wire.WordBytesOfValue | source/CULWSerializer.h:156-163 | every n-byte window is the encoding of the value read from it, so the word codec is a bijection |
| Wire.Sint32BitsRoundTrip | source/CULWSerializer.h:50-56 | the two's-complement reinterpretation of a signed 32-bit value and its inverse undo each other |
| LWCodec.Encode | source/CULWSerializer.h:22-80 | each write appends exactly the width of its type: 1 for bool and byte, 2, 4 or 8 otherwise |
| LWCodec.ValueOfEncode | source/CULWSerializer.h:42-80 | decoding the bytes of any value as its own type gives the value back |
| LWCodec.ReadAfterWrite | source/CULWSerializer.h:113-172 | reading where a value was written returns that value and moves the cursor just past it |
| LWCodec.ReadPastEnd | source/CULWSerializer.h:114-116 | a read at or past the end returns the type's zero, false or byte 0 and leaves the cursor in place |
| LWCodec.ReadBoolIsOne | source/CULWSerializer.h:113-119 | a bool reads true exactly when the byte is 1 |
| LWCodec.LWSerializer.WriteBool | source/CULWSerializer.h:22-24 | appends one byte, 1 for true and 0 for false, and keeps every earlier byte |
| LWCodec.LWSerializer.WriteByte | source/CULWSerializer.h:26-28 | appends the byte at the end |
| LWCodec.LWSerializer.WriteByteVector | source/CULWSerializer.h:30-32 | appends its argument verbatim |
| LWCodec.LWSerializer.RewriteFirstUint32 | source/CULWSerializer.h:34-40 | overwrites bytes 0..3 with the word, keeps the length and every later byte; it needs at least 4 bytes |
| LWCodec.LWSerializer.WriteFloat | source/CULWSerializer.h:42-48 | appends the float's 4-byte word |
| LWCodec.LWSerializer.WriteSint32 | source/CULWSerializer.h:50-56 | appends the 4-byte two's-complement word |
| LWCodec.LWSerializer.WriteUint16 | source/CULWSerializer.h:58-64 | appends 2 bytes |
| LWCodec.LWSerializer.WriteUint32 | source/CULWSerializer.h:66-72 | appends 4 bytes |
| LWCodec.LWSerializer.WriteUint64 | source/CULWSerializer.h:74-80 | appends 8 bytes |
| LWCodec.LWSerializer.Serialize | source/CULWSerializer.h:82-84 | returns the buffer |
| LWCodec.LWSerializer.Reset | source/CULWSerializer.h:89-91 | empties the buffer |
| LWCodec.LWDeserializer.Receive | source/CULWSerializer.h:108-111 | replaces the buffer and rewinds the cursor to 0 |
| LWCodec.LWDeserializer.ReadBool | source/CULWSerializer.h:113-119 | returns true exactly when the byte at the cursor exists and is 1; the cursor moves as the lenient read says |
| LWCodec.LWDeserializer.ReadByte | source/CULWSerializer.h:121-127 | returns the byte at the cursor, or 0 with the cursor unmoved at the end |
| LWCodec.LWDeserializer.ReadFloat | source/CULWSerializer.h:129-136 | returns the 4-byte word at the cursor and moves 4 on; at the end returns 0 |
| LWCodec.LWDeserializer.ReadSint32 | source/CULWSerializer.h:138-145 | as ReadFloat, decoding two's complement |
| LWCodec.LWDeserializer.ReadUint16 | source/CULWSerializer.h:147-154 | returns the 2-byte word at the cursor and moves 2 on |
| LWCodec.LWDeserializer.ReadUint32 | source/CULWSerializer.h:156-163 | returns the 4-byte word at the cursor and moves 4 on |
| LWCodec.LWDeserializer.ReadUint64 | source/CULWSerializer.h:165-172 | returns the 8-byte word at the cursor and moves 8 on |
| LWCodec.LWDeserializer.Reset | source/CULWSerializer.h:174-177 | empties the buffer and zeroes the cursor |
| NetEvents.SerializeGameState | source/CUGameStateEvent.cpp:59-77 | two bytes: the type's flag (100 to 103), then 0 |
| NetEvents.DeserializeGameState | source/CUGameStateEvent.cpp:83-96 | a first byte outside 100..103 leaves the type unchanged; otherwise the type's flag is that byte; it needs a non-empty input |
| NetEvents.GameStateRoundTrip | source/CUGameStateEvent.cpp:59-97 | deserializing what serialize wrote gives the type back, whatever the event held before |
| NetEvents.SerializeGameStateInjective | source/CUGameStateEvent.cpp:10-13 | distinct types have distinct encodings |
| NetEvents.EncodeObjParam | source/CUPhysSyncEvent.cpp:74-80 | one snapshot is 28 bytes: id, x, y, vx, vy, angle, vAngular |
| NetEvents.ReadParamAfterWrite | source/CUPhysSyncEvent.cpp:97-103 | the seven reads give back the snapshot written at that position |
| NetEvents.RecordsAt | source/CUPhysSyncEvent.cpp:72-81 | record i of an encoded list sits at bytes 28i..28i+28 |
| NetEvents.ReadRecordsOfRecords | source/CUPhysSyncEvent.cpp:95-105 | reading i records where the list was written gives back its first i snapshots, in order |
| NetEvents.SyncListCount | source/CUPhysSyncEvent.cpp:71 | the encoded list is 4 + 28n bytes long and its 4-byte count reads back as n |
| NetEvents.SyncListRoundTrip | source/CUPhysSyncEvent.cpp:69-106 | decoding what serialize wrote reproduces the snapshot list in order, for fewer than 2^32 snapshots |
| NetEvents.DeserializeSyncAppends | source/CUPhysSyncEvent.cpp:88-105 | input shorter than 4 bytes changes nothing; otherwise decoded snapshots go after the existing ones and objSet is untouched |
| NetEvents.PayloadRoundTrip | source/CUNetEvent.h:43-54 | deserializing an event's bytes into a fresh event of its variant recreates all of its parameters |
| NetEvents.WriteObjParams | source/CUPhysSyncEvent.cpp:72-81 | the serializer loop appends exactly the records of the list |
| NetEvents.ReadObjParams | source/CUPhysSyncEvent.cpp:95-105 | the deserializer loop returns the records the lenient reads give |
| NetEvents.NetEvent.GameStateAlloc | source/CUGameStateEvent.cpp:36-40 | alloc(t) builds an event whose type is t |
| NetEvents.NetEvent.SetMetaData | source/CUNetEvent.h:33-37 | sets both ticks and the source together; the getters then return exactly those values, and the payload is unchanged |
| NetEvents.NetEvent.Clone | source/CUGameStateEvent.cpp:32-34 | a fresh, empty event of the same variant |
| NetEvents.NetEvent.SetType | source/CUGameStateEvent.cpp:48-50 | sets the type and nothing else |
| NetEvents.NetEvent.AddObj | source/CUPhysSyncEvent.cpp:46-60 | a known id changes nothing; a new one is appended and recorded; the list never holds two snapshots with one id |
| NetEvents.NetEvent.Serialize | source/CUPhysSyncEvent.cpp:69-83 | starts from a reset serializer, so the bytes depend only on the payload |
| NetEvents.NetEvent.Deserialize | source/CUPhysSyncEvent.cpp:88-106 | the payload becomes what DeserializePayload says; the metadata is untouched |
| EventController.RelTick | source/CUNetEventController.cpp:104 | the update count minus the epoch, wrapping modulo 2^64 |
| EventController.FrameRoundTrip | source/CUNetEventController.cpp:88-107 | unwrapping a wrapped frame gives back its tag, its tick and its payload |
| EventController.TagOf | source/CUNetEventController.cpp:17-20 | a variant's tag is its first index in the registration order |
| EventController.BatchLength | source/CUNetEventController.cpp:45-61 | the batch has at most 10 events and at most 100000 bytes; when it stops short, one more event would break a limit |
| EventController.BatchIsLongest | source/CUNetEventController.cpp:48-59 | every prefix within both limits is no longer than the batch |
| EventController.BatchStopsAt | source/CUNetEventController.cpp:53-55 | the batch is the only prefix within the limits that cannot grow |
| EventController.OversizedBlocks | source/CUNetEventController.cpp:53-59 | an event whose frame alone is over 100000 bytes is never sent, and nothing queued behind it is sent either |
| EventController.FrameOf | source/CUNetEventController.cpp:101-107 | a frame is 9 bytes longer than the event's payload |
| EventController.SendBatch | source/CUNetEventController.cpp:45-61 | the loop broadcasts exactly the frames of the batch, in order, and leaves the rest queued |
| EventController.NetEventController.Init | source/CUNetEventController.cpp:17-28 | registers PhysSyncEvent, then GameStateEvent, and sets the status to IDLE |
| EventController.NetEventController.PushOutEvent | source/CUNetEventController.cpp:84-86 | the event joins the back of the out queue |
| EventController.NetEventController.PopInEvent | source/CUNetEventController.cpp:78-82 | returns and removes the front of the in queue |
| EventController.NetEventController.IsInAvailable | source/CUNetEventController.cpp:70-75 | false on an empty queue; otherwise true exactly when the front event's tick is at most the local relative tick |
| EventController.NetEventController.Wrap | source/CUNetEventController.cpp:101-107 | tag byte, then the 8-byte relative tick, then the serialized payload |
| EventController.NetEventController.Unwrap | source/CUNetEventController.cpp:88-99 | needs at least 9 bytes and a registered tag; sets the sender tick from bytes 1..8, the receive tick and the source, and deserializes bytes 9 on |
| EventController.NetEventController.ReceiveMessage | source/CUNetEventController.cpp:38-43 | the unwrapped event joins the back of the in queue |
| EventController.NetEventController.SendQueuedOutData | source/CUNetEventController.cpp:45-61 | broadcasts the batch's frames in order and pops exactly those events |
| EventController.NetEventController.StartGame | source/CUNetEventController.cpp:30-36 | only the host enqueues GAME_START and flushes; every peer latches the epoch to the update count |
| Interpolation.InterpolateBetween | source/Interpolator.cpp:82-84 | for s >= 1 the result lies between source and target, equals the target for s = 1, and differs from it for s > 1 |
| Interpolation.StepBody | source/Interpolator.cpp:38-67 | with at most one step left, position and velocity snap to the target and the angles stay; otherwise each field moves by (target - v) / stepsLeft |
| Interpolation.Advance | source/Interpolator.cpp:68 | curStep grows by exactly 1 and nothing else in the target changes |
| Interpolation.BlendFraction | source/Interpolator.cpp:47-48 | on every blend step 0 <= curStep / numSteps <= 1 |
| Interpolation.BlendStep | source/Interpolator.cpp:59-66 | one blend step moves from the k-th to the (k+1)-th point of the linear blend |
| Interpolation.TicksTarget | source/Interpolator.cpp:68 | after k ticks the target's curStep has grown by k |
| Interpolation.TicksClosedForm | source/Interpolator.cpp:38-68 | before the last step, each value after k ticks is the k-th point of the linear blend from start to target |
| Interpolation.BlendStart | source/Interpolator.cpp:38-68 | the blend starts at the start value |
| Interpolation.BlendStrictlyBetween | source/Interpolator.cpp:38-68 | strictly between the first and the last tick, each value lies strictly between start and target |
| Interpolation.TicksConverge | source/Interpolator.cpp:38-68 | a target with numSteps n >= 1 lands exactly on the target position and velocity on the n-th tick |
| Interpolation.NetPhysicsController.constructor | source/Interpolator.h:59-60 | all counters and the rotation cursor start at 0, with empty caches |
| Interpolation.NetPhysicsController.Init | source/Interpolator.h:66-70 | stores the world and its short UID and links the scene function; nothing else changes |
| Interpolation.NetPhysicsController.Dispose | source/Interpolator.h:72-75 | drops the world and the link function; nothing else changes |
| Interpolation.NetPhysicsController.AttachFactory | source/Interpolator.h:81-84 | appends the factory and returns its index (size - 1 cast to 32 bits) |
| Interpolation.NetPhysicsController.Reset | source/Interpolator.h:90-96 | zeroes the three counters and empties both caches; factories and the rotation cursor stay |
| Interpolation.NetPhysicsController.AddObject | source/Interpolator.cpp:16-28 | the new target replaces any old one for the object; stepSum grows by numSteps and itprCount by exactly 1 |
| Interpolation.NetPhysicsController.Contains | source/Interpolator.cpp:30-32 | true exactly when the object has a target |
| Interpolation.NetPhysicsController.FixedUpdate | source/Interpolator.cpp:34-80 | every tracked body takes one step; snapped targets are removed and counted; every other target's curStep grows by 1; the delete list ends empty |
| Interpolation.StepAll | source/Interpolator.cpp:35-69 | the loop over the cache steps every tracked body, advances every target and collects exactly the snapped ones |
| Interpolation.AllStepped | source/Interpolator.cpp:35-69 | visiting every key in any order gives the whole-map step |
| Interpolation.EraseAll | source/Interpolator.cpp:71-73 | erasing the delete list keeps exactly the targets not on it |
| NetCaching.StrictCompareIsStrictWeakOrder | source/NetworkData.h:53-60 | the comparator with ties broken is a strict weak order on (flag, timestamp) |
| NetCaching.KeyLeIsLexicographic | source/NetworkData.h:53-60 | the comparator (>=, so not strict) puts on top the entry with the smallest flag, then the smallest timestamp |
| NetCaching.TopIndex | source/NetworkData.h:73-81 | the top entry is no greater than any entry by (flag, timestamp) |
| NetCaching.Remove | source/NetworkData.h:77-81 | pop removes exactly one copy of the top entry |
| NetCaching.RemoveKeepsReach | source/NetworkData.h:92-96 | popping an entry older than t keeps some entry at or after t |
| NetCaching.Skipped | source/NetworkData.h:92-96 | the loop stops at a top entry at or after t, and only entries older than t were removed |
| NetCaching.ClearKeepsPending | source/NetworkData.h:88-90 | clear, as written, leaves a pending entry in the queue |
| NetCaching.NetCache.IsEmpty | source/NetworkData.h:69-71 | true exactly when there are no entries |
| NetCaching.NetCache.Peek | source/NetworkData.h:73-75 | returns an entry with the smallest key and changes nothing |
| NetCaching.NetCache.Pop | source/NetworkData.h:77-81 | returns an entry with the smallest key and removes exactly that entry |
| NetCaching.NetCache.Push | source/NetworkData.h:83-86 | adds exactly one entry, with receivedBy overwritten by the given tick |
| NetCaching.NetCache.Clear | source/NetworkData.h:88-90 | the queue is what clear as written leaves: unchanged |
| NetCaching.NetCache.SkipToTime | source/NetworkData.h:92-96 | pops while the top entry is older than t; needs some entry at or after t |
| NetworkStatus.PolledDecides | source/RDNetwork.cpp:76-96 | the reported state fixes the new status unless it is one of the ignored states; the result is false exactly on the five failure states; polling twice equals polling once |
| NetworkStatus.StatusBeforePoll | source/RDNetwork.cpp:41-53 | a connect call polls from CONNECTING after IDLE or NETERROR, otherwise from the current status |
| NetworkStatus.NetworkController.constructor | source/RDNetwork.cpp:20-25 | IDLE, no room, no connection, host |
| NetworkStatus.NetworkController.Disconnect | source/RDNetwork.cpp:70-74 | always ends IDLE with no connection |
| NetworkStatus.NetworkController.CheckConnection | source/RDNetwork.cpp:76-96 | CONNECTED sets CONNECTED and true, and a host stores the room; NEGOTIATING sets CONNECTING and true; the five failure states set NETERROR and false; other states change nothing and give true |
| NetworkStatus.NetworkController.ConnectAsHost | source/RDNetwork.cpp:41-53 | disconnects first from NETERROR, opens a new room only from IDLE, sets isHost, then polls |
| NetworkStatus.NetworkController.ConnectAsClient | source/RDNetwork.cpp:55-68 | as ConnectAsHost but joins the given room, clears isHost and records the room id |
| NetworkStatus.NetworkController.BroadCast | source/RDNetwork.cpp:98-102 | sends only when CONNECTED |
| ClientLobby.PadLeft | source/NLClientScene.cpp:47 | pads with leading zeros to the width, keeping the digits as the suffix |
| ClientLobby.HexRoundTrip | source/NLClientScene.cpp:47 | the hex digits of v read back as v |
| ClientLobby.HexLength | source/NLClientScene.cpp:47 | v has at most n hex digits exactly when v < 16^n |
| ClientLobby.Dec2HexMeaning | source/NLClientScene.cpp:42-48 | the result reads back as the value, or as 0 from 655366 on, with at least four characters |
| ClientLobby.Dec2HexFiveDigits | source/NLClientScene.cpp:42-48 | as written, 65536 converts to the five characters "10000" |
| ClientLobby.Dec2HexFourDigits | source/NLClientScene.cpp:29-48 | with the documented bound, the result is always exactly four characters and reads back as the value, or as 0 from 65536 on |
| ClientLobby.ClientScene.constructor | source/NLClientScene.cpp:64-116 | starts IDLE, inactive and without a connection |
| ClientLobby.ClientScene.ProcessData | source/NLClientScene.cpp:229-239 | exactly the one byte 255 sets START; a 32-byte message starting with 111 is rebroadcast unchanged only when it has a source |
| ClientLobby.ClientScene.CheckConnection | source/NLClientScene.cpp:250-270 | CONNECTED sets WAIT unless START; NEGOTIATING sets JOIN; the five failure states disconnect, set IDLE and give false; other states give true with no change |
| ClientLobby.ClientScene.SetActive | source/NLClientScene.cpp:135-145 | becoming active resets the status to IDLE and drops the connection; otherwise only the flag changes |
| CrateScene.EncodeCrateParams | source/NLGameScene.cpp:177-181 | 12 bytes: pos.x, pos.y, scale |
| CrateScene.CrateParamsRoundTrip | source/NLGameScene.cpp:174-197 | createObstacle reads back the position and scale serializeParams wrote |
| CrateScene.CrateParamsEmpty | source/NLGameScene.cpp:191-196 | an empty blob reads as position (0, 0) and scale 0 |
| CrateScene.CrateFactory.SerializeParams | source/NLGameScene.cpp:174-183 | resets the serializer and leaves exactly the blob in it |
| CrateScene.CrateFactory.CreateObstacle | source/NLGameScene.cpp:188-199 | decodes the blob in the same order it was written |
| CrateScene.GameScene.AddInitObstacle | source/NLGameScene.cpp:607-614 | only the host records the obstacle as owned, and an existing entry is kept |
| CrateScene.GameScene.PollInbound | source/NLGameScene.cpp:671-677 | pops the front event exactly when it is available, and at most one per tick |
| LockstepMessages.TaggedWord | source/RDGameScene.cpp:791-799 | a tagged value is its tag followed by its big-endian bytes |
| LockstepMessages.Padded | source/RDGameScene.cpp:682-690 | reads past the end see zeros, and reads within see the data |
| LockstepMessages.ReadTaggedWordAfterWrite | source/RDGameScene.cpp:682-690 | a tagged read where a tagged value was written returns it |
| LockstepMessages.ReadTaggedBoolAfterWrite | source/RDGameScene.cpp:648 | a tagged bool reads back |
| LockstepMessages.EncodeState | source/RDGameScene.cpp:598-606 | a state payload is 35 bytes: seven 5-byte tagged values |
| LockstepMessages.EncodeStateFields | source/RDGameScene.cpp:598-606 | the seven values sit at bytes 0, 5, ..., 30 in the order id, x, y, vx, vy, angle, vAngular |
| LockstepMessages.StateRoundTrip | source/RDGameScene.cpp:591-609 | processState reads back the snapshot packState wrote |
| LockstepMessages.EncodeFire | source/RDGameScene.cpp:578-585 | a fire payload is 11 bytes: host flag, angle, power |
| LockstepMessages.FireRoundTrip | source/RDGameScene.cpp:574-589 | processFire reads back what packFire wrote |
| LockstepMessages.EncodeCannon | source/RDGameScene.cpp:623-627 | a cannon payload is 6 bytes: host flag, angle |
| LockstepMessages.CannonRoundTrip | source/RDGameScene.cpp:619-629 | processCannon reads back what packCannon wrote |
| LockstepMessages.EmptyPayloads | source/RDGameScene.cpp:611-617 | an empty payload, as packReset sends, reads as all zeros |
| LockstepMessages.Frame | source/RDGameScene.cpp:791-799 | a frame is the 14-byte header followed by the payload verbatim |
| LockstepMessages.ParseFrame | source/RDGameScene.cpp:801-814 | the payload is taken from byte 14; the source and the local tick are stamped on |
| LockstepMessages.FrameRoundTrip | source/RDGameScene.cpp:791-814 | processData recovers the timestamp, flag and payload transmitNetdata framed |
| LockstepScene.PosTermFrom | source/RDGameScene.cpp:697-699 | the position term is the largest r <= 30 with r*r <= 900 dist^2, i.e. int(30 dist) capped |
| LockstepScene.StepCountMeaning | source/RDGameScene.cpp:697-699 | the step count lies in [0, 30] and is the larger of int(30 dist) and int(10 abs(delta angle)), capped at 30 |
| LockstepScene.StepCountZero | source/RDGameScene.cpp:697-699 | no steps exactly when the distance is under 1/30 of a unit and the angle difference under 1/10 |
| LockstepScene.StepCountMonotone | source/RDGameScene.cpp:697-699 | a larger correction never takes fewer steps |
| LockstepScene.CannonStepCountIsStepCount | source/RDGameScene.cpp:727-728 | the cannon rule is the state rule with only the angle term |
| LockstepScene.StateTarget | source/RDGameScene.cpp:696-706 | a state message becomes a target at step 0 with the sent position, velocity and angles, and a step count in [0, 30] |
| LockstepScene.CannonTarget | source/RDGameScene.cpp:725-733 | a cannon message keeps the cannon's position and velocity and targets the sent angle with angular velocity 0 |
| LockstepScene.Ids | source/RDGameScene.cpp:539-541 | ids are handed out as 0, 1, 2, ... |
| LockstepScene.RotatedPrefix | source/RDGameScene.cpp:591-609 | k round-robin pops move the first k ids to the back |
| LockstepScene.RotatedMembers | source/RDGameScene.cpp:592-607 | rotation keeps the same ids |
| LockstepScene.RotatedCycle | source/RDGameScene.cpp:591-609 | the k-th pop sends q[k]; after |q| pops the queue is back where it started |
| LockstepScene.Placed | source/RDGameScene.cpp:539-541 | the id map of a layout holds exactly the ids below its length |
| LockstepScene.PlacedSnoc | source/RDGameScene.cpp:539-541 | each new obstacle takes a fresh id |
| LockstepScene.IdsPlaced | source/RDGameScene.cpp:381-383 | after populate the queue and the id map hold the same ids |
| LockstepScene.DrainPermutes | source/RDGameScene.cpp:741-766 | the drain loses no message: processed and remaining are a permutation of the cache |
| LockstepScene.DrainStopsAtFirstPending | source/RDGameScene.cpp:741 | every processed message is due, and the loop stops at a top entry that is not due |
| LockstepScene.DrainOrdered | source/RDGameScene.cpp:741-742 | messages are processed in (flag, timestamp) order, before anything left in the cache |
| LockstepScene.DrainBlocks | source/RDGameScene.cpp:741 | a fire input not yet due sits on top (fire inputs rank first) and holds back a due state message below it |
| LockstepScene.RoundRobinAt | source/RDGameScene.cpp:845-849 | the k-th state the host sends is for the front id after k rotations |
| LockstepScene.RoundRobinInOrder | source/RDGameScene.cpp:845-849 | within one lap, ids are sent in queue order |
| LockstepScene.RoundRobinCovers | source/RDGameScene.cpp:845-849 | within |q| sends, every id is sent |
| LockstepScene.StateFramesSnoc | source/RDGameScene.cpp:846-848 | each pass of the loop sends the state of the current front id |
| LockstepScene.InputFrames | source/RDGameScene.cpp:833-843 | a reset frame and then a fire frame, each only when its input fired, scheduled InputDelay ticks ahead |
| LockstepScene.GameScene.constructor | source/RDGameScene.cpp:209-275 | the first populate, tick 0, not host, not complete, empty cache and interpolator |
| LockstepScene.GameScene.SetHost | source/RDGameScene.cpp:294-299 | sets isHost and nothing else |
| LockstepScene.GameScene.AddObstacle | source/RDGameScene.cpp:535-572 | the next id joins the queue and the map (insert does not overwrite); ids stay unique until the counter wraps |
| LockstepScene.GameScene.AddAll | source/RDGameScene.cpp:535-572 | adding the layout one by one gives ids 0..n-1 and the id map of the layout |
| LockstepScene.GameScene.Populate | source/RDGameScene.cpp:376-520 | resets the id counter, the queue, the map and the interpolator, then places the layout and the two cannons |
| LockstepScene.GameScene.Reset | source/RDGameScene.cpp:317-329 | clears complete and repopulates; the cache is left alone |
| LockstepScene.GameScene.PackState | source/RDGameScene.cpp:591-609 | encodes the front id's snapshot and rotates the queue by one; needs a non-empty queue |
| LockstepScene.GameScene.ProcessState | source/RDGameScene.cpp:670-715 | a self-echo or an unknown id changes nothing; otherwise the object's target is replaced by the state's target |
| LockstepScene.GameScene.ProcessCannon | source/RDGameScene.cpp:717-734 | a self-echo changes nothing; otherwise the named cannon's target is replaced by the cannon target |
| LockstepScene.GameScene.ProcessFire | source/RDGameScene.cpp:636-668 | acts only when the message is due: a crate launched from the named cannon takes the next id |
| LockstepScene.CommandOf | source/RDGameScene.cpp:749-765 | the switch of processCache: a message is due at its timestamp, comes from another peer exactly when its source id is non-empty, and selects the fire, reset, state or cannon handler exactly when its flag is that handler's, any other flag doing nothing |
| LockstepScene.Apply | source/RDGameScene.cpp:636-765 | one dispatched command: a due fire input launches a crate from the sender's cannon under the next id; reset repopulates and drops every target; a state or cannon message from another peer sets the named object's target, an unknown id being ignored; anything else changes nothing; both cannons stay tracked |
| LockstepScene.ApplyAll | source/RDGameScene.cpp:741-766 | the commands of the drained messages dispatched first to last keep both cannons tracked |
| LockstepScene.ApplyAllMessages | source/RDGameScene.cpp:741-766 | dispatching one more popped message is one more Apply on its command |
| LockstepScene.ApplyConsistent | source/RDGameScene.cpp:636-765 | every dispatch keeps the cannons tracked, the id queue and id map in step, and targets only on tracked objects |
| LockstepScene.ApplyAllConsistent | source/RDGameScene.cpp:741-766 | a drain of any length keeps the scene consistent |
| LockstepScene.ApplyIds | source/RDGameScene.cpp:636-668 | outside a reset, only a due fire input touches the id queue and counter: it appends the next id and counts on by one, modulo 2^32 |
| LockstepScene.FiresCountOn | source/RDGameScene.cpp:636-668 | without a reset among them, the dispatched commands move the id counter on by the number of due fire inputs, modulo 2^32 |
| LockstepScene.FiresAddIds | source/RDGameScene.cpp:636-668 | without a reset among them, the dispatched commands append to the id queue exactly the consecutive ids handed out, one per due fire input, in order |
| LockstepScene.GameScene.Dispatch | source/RDGameScene.cpp:749-765 | the scene's new state is Apply of the old state and the message's command (CommandOf), and the scene stays consistent |
| LockstepScene.GameScene.DispatchLogged | source/RDGameScene.cpp:741-766 | after one more dispatch the scene state is ApplyAll of the messages popped so far, the new one included |
| LockstepScene.GameScene.PopTop | source/RDGameScene.cpp:742 | takes the top entry out of the cache and records it as processed |
| LockstepScene.GameScene.ProcessNext | source/RDGameScene.cpp:741-766 | one pass of the drain loop keeps the loop's relation to the whole drain, and the scene state stays ApplyAll of the messages popped so far |
| LockstepScene.GameScene.ProcessCache | source/RDGameScene.cpp:736-767 | the cache keeps exactly what the drain up to the current tick leaves, and the scene's new state is ApplyAll over the drained messages, in order |
| LockstepScene.GameScene.TransmitNetdata | source/RDGameScene.cpp:791-799 | broadcasts the frame of the message |
| LockstepScene.GameScene.ProcessData | source/RDGameScene.cpp:801-814 | the parsed frame joins the cache, stamped with the current tick |
| LockstepScene.GameScene.CheckConnection | source/RDGameScene.cpp:769-779 | true exactly when connected; otherwise the network is dropped and the game is complete |
| LockstepScene.GameScene.UpdateNet | source/RDGameScene.cpp:781-789 | with a network, every delivered message joins the cache, then the connection is checked |
| LockstepScene.GameScene.Receive | source/RDGameScene.cpp:864-865 | updateNet then processCache: the arrivals join the cache, the cache keeps what the drain leaves, and the scene state is ApplyAll over the drained messages |
| LockstepScene.GameScene.Tick | source/RDGameScene.cpp:866-868 | the world steps, the interpolator steps the tracked bodies and keeps the surviving targets, the counter grows by 1 modulo 2^64, and the ids and completion stay as they were |
| LockstepScene.GameScene.FixedUpdate | source/RDGameScene.cpp:863-869 | caches what arrives, drains the cache into the scene state with ApplyAll, then the ids and completion are those of that state, the bodies are the world step followed by the interpolation step on its targets, the targets are the survivors, and the counter grows by 1, modulo 2^64 |
| LockstepScene.GameScene.SendNextState | source/RDGameScene.cpp:846 | one packState and its transmission: the front id's state frame is sent and the queue rotates by one |
| LockstepScene.GameScene.SendStates | source/RDGameScene.cpp:845-849 | the host sends five states in round-robin order and the queue ends rotated by five |
| LockstepScene.GameScene.SendInputs | source/RDGameScene.cpp:833-843 | sends the reset and fire frames the input asks for, and changes no body |
| LockstepScene.PreUpdateAlwaysSends | source/RDGameScene.cpp:820-857 | preUpdate as written sends at least one frame for every input, and only the cannon frame for a client with no input |
| LockstepScene.GameScene.PreUpdate | source/RDGameScene.cpp:820-857 | while connected, sends PreUpdateFrames (input frames, the host's five states, the turned own cannon's angle) and rotates the queue as packState does; when disconnected sends nothing and keeps the queue; the own cannon turns either way |
| LockstepScene.GameScene.SendAndTurn | source/RDGameScene.cpp:833-857 | sends exactly PreUpdateFrames, rotates the queue by five for a host, and turns the own cannon |
| LockstepScene.GameScene.TurnAndSendAngle | source/RDGameScene.cpp:852-856 | turns the own cannon by the vertical input and sends the new angle |

## Left out

- Transport I/O. Opening, closing, receiving and broadcasting belong to the
  transport. The model takes the state it reports and the messages it
  delivers as parameters, and records sends in ghost logs.
  `NetEventController::updateNet`, `processReceivedData` and
  `ClientScene::connect`/`disconnect` are covered only through those effects.
- Box2D and the scene graph. Each tracked object is its kinematic state, and
  `_world->update` is a function passed to the rocket scene's fixedUpdate.
  Level geometry beyond the walls' and crates' start positions, the
  obstacles' listeners, contact callbacks and rendering are not modelled.
- IEEE-754 floats. The interpolator works on real numbers. The codecs carry
  floats as opaque 32-bit words, read back as exact reals. Rounding a physics
  value to a float, and cos/sin, are functions the rocket scene is built with.
  `marshall` is a fixed big-endian byte order.
- The dead interpolation methods 1 and 2, the statistics logging, and all
  `CULog`/`TextWriter` logging are not modelled.
- LWCodec.Read: a multi-byte read with fewer than its width of bytes left is
  an over-read in the source. The model reads zero for the missing bytes.
- The rocket scene's `Serializer` is not one of the files modelled. Its
  14-byte header implies a one-byte type tag before each value. The tag
  values are placeholders.
- LockstepMessages.CannonFlag: `CANNON_FLAG` is not defined in the files
  modelled. The model uses 5, distinct from the four flags of NetworkData.h.
- NetEvents.EncodeObjParam, NetEvents.EncodeSyncList, NetEvents.DecodeSyncList
  and NetEvents.SyncListCount: `PhysSyncEvent` serializes with
  `net::NetcodeSerializer`, whose byte format is not in the files modelled.
  The model uses the lightweight codec's untagged layout (a 4-byte count,
  then 28-byte records) and its lenient reads.
- EventController.NetEventController.PopInEvent,
  EventController.NetEventController.IsInAvailable,
  EventController.NetEventController.SendQueuedOutData and
  EventController.SendBatch: the source reads both event queues with `top()`,
  but their container type is not declared in the files modelled. The model
  makes both queues FIFO, with the head at index 0; a priority order on
  events would change which event `top()` returns.
- NetEvents.SerializeGameState, NetEvents.NetEvent.Serialize,
  EventController.WrapEvent and EventController.NetEventController.Wrap:
  `GameStateEvent::serialize` and `NetEventController::wrap` return a
  reference to a local buffer, which dangles once they return, so their
  callers read freed memory. The model returns the evidently intended bytes
  by value.
- NetEvents.EmptyPayload: `GameStateEvent()` leaves its type uninitialised, so
  a cloned game-state event's type is indeterminate until deserialize sets
  it. The model gives it GameStart.
- ClientLobby.Dec2Hex: `strtool::stou32` and `strtool::to_hexstring` are not
  in the files modelled. The model takes the room id as already parsed to a
  32-bit value, and takes lowercase hex digits with zero padding to the width.
- LockstepScene.GameScene.ProcessFire and LockstepScene.GameScene.PreUpdate:
  the source reads the cannon's scene node for the fire angle and position,
  and the obstacle for the cannon angle. The model reads both from the
  cannon's body.
- LockstepScene.GameScene.AddObstacle: the 32-bit id counter wraps after
  2^32 obstacles, after which `insert` keeps the old entry. Uniqueness is
  proved only before the wrap.
- NetCaching.TopIndex: the comparator does not order entries with equal
  (flag, timestamp), and the heap's choice among them is unspecified. The
  model picks the first such entry in insertion order.
- NetEvents.NetEvent.SetMetaData: the source makes the metadata private and
  lets only the event controller set it. Dafny fields carry no access
  control; in the model, the controller's Unwrap is the only caller.
- Interpolation.NetPhysicsController.AddObject: the counters are unbounded
  integers; the source's `long` overflow is not modelled.
- The crate texture's random choice, the UI (buttons, labels, charge bar,
  `didExit`, `didDebug`) and the application lifecycle are not modelled.
- source/RGRagdollModel.cpp, source/RDApp.cpp and data.py are not part of
  this model: Box2D joint construction, app routing and plotting.
- `NetworkController::init`/`dispose` and `NetEventController` asset and
  configuration loading read JSON assets and are not modelled.
- Interpolation.NetPhysicsController.FixedUpdate: the rocket scene passes an
  (int, vector<float>) pair at RDGameScene.cpp:706, while Interpolator.cpp
  defines `Interpolator::` against a targetParam record. Both are modelled as
  one record: curStep, numSteps, target position, velocity, angle and angular
  velocity.

## Findings

| source | as written | input that shows it | evidently intended | confidence | as-written member | corrected member |
|---|---|---|---|---|---|---|
| source/NLClientScene.cpp:42-48 | values up to 655365 pass the reset check, so `to_hexstring(value, 4)` can return five hex digits | "65536" gives "10000" | the documented bound of four characters: reset at 65536 | not executed | ClientLobby.Dec2HexFiveDigits | ClientLobby.Dec2HexFourDigits |
| source/RDGameScene.cpp:775 | checkConnection sets `_network` to null and completes the scene, but the app keeps calling preUpdate while in the game, and preUpdate always transmits the cannon frame through `_network` | a client with no input, the update after the connection drops | preUpdate sends nothing once the network is dropped | not executed | LockstepScene.PreUpdateAlwaysSends | LockstepScene.GameScene.PreUpdate |
