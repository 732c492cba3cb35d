/**
 * `ReviewServer`: one WebSocket session of a shared game-review room. The
 * room, its people counter and the latest board state live in a key/value
 * store shared by all sessions; state changes, chat messages, joins and
 * leaves travel over the store's publish/subscribe channels.
 */
module Review {
  import opened Wrappers
  import opened JsText

  /** System command names (`Protocol.sys.*`). */
  const CreateReviewRoom: string := "createReviewRoom"
  const EnterReviewRoom: string := "enterReviewRoom"
  const ReviewRoomStateUpdate: string := "reviewRoomStateUpdate"
  const ReviewRoomMessage: string := "reviewRoomMessage"
  const LeaveReviewRoom: string := "leaveReviewRoom"
  const JoinReviewRoom: string := "joinReviewRoom"

  /** String truthiness: present and non-empty. */
  predicate TruthyText(x: Option<string>) {
    x.Some? && x.value != ""
  }

  /** The store keys and channels of a room. */
  function PeopleKey(roomId: string): string { roomId + "_people" }
  function LeaveChannel(roomId: string): string { roomId + "_leave" }
  function MessageChannel(roomId: string): string { roomId + "_message" }
  function JoinChannel(roomId: string): string { roomId + "_join" }
  function StateChannel(roomId: string): string { ReviewRoomStateUpdate + "_" + roomId }
  function SnapshotKey(roomId: string): string { StateChannel(roomId) + "_init" }

  /** The four channels a session listens on after entering a room. */
  function RoomChannels(roomId: string): set<string> {
    {StateChannel(roomId), MessageChannel(roomId), JoinChannel(roomId), LeaveChannel(roomId)}
  }

  /** Entering a room subscribes to exactly four distinct channels. */
  lemma RoomChannelsAreFour(roomId: string)
    ensures |RoomChannels(roomId)| == 4
  {
    var s, m, j, l := StateChannel(roomId), MessageChannel(roomId), JoinChannel(roomId), LeaveChannel(roomId);
    assert |s| == |roomId| + 22 && |m| == |roomId| + 8 && |j| == |roomId| + 5 && |l| == |roomId| + 6;
    assert {s, m, j, l} == {s} + {m} + {j} + {l};
    assert |{s} + {m}| == 2;
    assert |{s} + {m} + {j}| == 3;
  }

  lemma SuffixInjective(a: string, b: string, suffix: string)
    requires a + suffix == b + suffix
    ensures a == b
  {
    assert |a| == |b|;
    assert a == (a + suffix)[..|a|];
    assert b == (b + suffix)[..|b|];
  }

  /** Different rooms never share a people counter, a leave channel or a state snapshot. */
  lemma RoomKeysSeparate(r1: string, r2: string)
    requires r1 != r2
    ensures PeopleKey(r1) != PeopleKey(r2)
    ensures LeaveChannel(r1) != LeaveChannel(r2)
    ensures SnapshotKey(r1) != SnapshotKey(r2)
  {
    if PeopleKey(r1) == PeopleKey(r2) {
      SuffixInjective(r1, r2, "_people");
    }
    if LeaveChannel(r1) == LeaveChannel(r2) {
      SuffixInjective(r1, r2, "_leave");
    }
    if SnapshotKey(r1) == SnapshotKey(r2) {
      assert SnapshotKey(r1) == ReviewRoomStateUpdate + "_" + (r1 + "_init");
      assert SnapshotKey(r2) == ReviewRoomStateUpdate + "_" + (r2 + "_init");
      var p := ReviewRoomStateUpdate + "_";
      assert r1 + "_init" == SnapshotKey(r1)[|p|..];
      assert r2 + "_init" == SnapshotKey(r2)[|p|..];
      SuffixInjective(r1, r2, "_init");
    }
  }

  // ---------------------------------------------------------------------
  // Rooms

  /** A review room as stored at creation. */
  datatype Room = Room(uuid: string, sgf: string, roomId: string, roomName: Option<string>,
                       chatBroId: Option<string>, owner: Option<string>)

  type Hash = map<string, string>

  /** A field of a stored hash, `undefined` when absent. */
  function Get(h: Hash, field: string): Option<string> {
    if field in h then Some(h[field]) else None
  }

  /** An optional field: written when defined, left out otherwise. */
  function OptField(field: string, v: Option<string>): Hash {
    if v.Some? then map[field := v.value] else map[]
  }

  /** The hash a room is stored as. */
  function RoomHash(room: Room): Hash {
    map["uuid" := room.uuid, "sgf" := room.sgf, "roomId" := room.roomId]
      + OptField("roomName", room.roomName)
      + OptField("chatBroId", room.chatBroId)
      + OptField("owner", room.owner)
  }

  /** Reading a stored room back gives each of its fields. */
  lemma RoomHashFields(room: Room)
    ensures var h := RoomHash(room);
            && Get(h, "uuid") == Some(room.uuid) && Get(h, "sgf") == Some(room.sgf)
            && Get(h, "roomId") == Some(room.roomId) && Get(h, "roomName") == room.roomName
            && Get(h, "chatBroId") == room.chatBroId && Get(h, "owner") == room.owner
  {
  }

  /** What a session learns on entering a room. */
  datatype RoomInfo = RoomInfo(isOwner: bool, sgf: Option<string>, owner: Option<string>,
                               roomId: Option<string>, chatBroId: Option<string>)

  /** The room information for the stored room `h`, entered by `uuid` under the requested id. */
  function RoomInfoOf(h: Hash, roomId: Option<string>, uuid: Option<string>): (info: RoomInfo)
    ensures info.isOwner <==> uuid == Get(h, "uuid")
    ensures info.roomId == roomId
  {
    RoomInfo(uuid == Get(h, "uuid"), Get(h, "sgf"), Get(h, "owner"), roomId, Get(h, "chatBroId"))
  }

  /** Whoever enters a created room with its creator's uuid, and only they, is its owner. */
  lemma OwnerIsCreator(room: Room, roomId: Option<string>, uuid: Option<string>)
    ensures RoomInfoOf(RoomHash(room), roomId, uuid).isOwner <==> uuid == Some(room.uuid)
    ensures RoomInfoOf(RoomHash(room), roomId, uuid).sgf == Some(room.sgf)
    ensures RoomInfoOf(RoomHash(room), roomId, uuid).owner == room.owner
  {
    RoomHashFields(room);
  }

  // ---------------------------------------------------------------------
  // Board-state snapshots

  /** A review board state as the owner sends it (`history` fields as their JSON text). */
  datatype ReviewState = ReviewState(roomId: Option<string>, cursor: Option<int>, branchCursor: Option<int>,
                                     history: Option<string>, historyCursor: Option<int>,
                                     historySnapshots: Option<string>)

  /** The names of the fields a state update writes. */
  const StateFields: set<string> := {"roomId", "cursor", "branchCursor", "history", "historyCursor", "historySnapshots"}

  /** The stored text of one field of a state; numbers are written in decimal, undefined values not at all. */
  function StateField(s: ReviewState, field: string): Option<string> {
    if field == "roomId" then s.roomId
    else if field == "cursor" then (if s.cursor.Some? then Some(IntToString(s.cursor.value)) else None)
    else if field == "branchCursor" then (if s.branchCursor.Some? then Some(IntToString(s.branchCursor.value)) else None)
    else if field == "history" then s.history
    else if field == "historyCursor" then (if s.historyCursor.Some? then Some(IntToString(s.historyCursor.value)) else None)
    else if field == "historySnapshots" then s.historySnapshots
    else None
  }

  /** The fields written for a state update. */
  function EncodeState(s: ReviewState): (h: Hash)
    ensures forall f :: Get(h, f) == StateField(s, f)
  {
    map f | f in StateFields && StateField(s, f).Some? :: StateField(s, f).value
  }

  /** A JavaScript number in a snapshot: `undefined`, `NaN` or an integer. */
  datatype Num = Undefined | NaN | Value(n: int)

  /** `Number.parseInt` of a stored field; an absent field reads as the text `undefined`, hence `NaN`. */
  function ParseNum(x: Option<string>): (n: Num)
    ensures n != Undefined
    ensures x.None? ==> n == NaN
  {
    if x.None? then
      assert ParseInt("undefined") == None by { ParseIntNonNumeric("undefined"); }
      NaN
    else
      match ParseInt(x.value)
      case None => NaN
      case Some(v) => Value(v)
  }

  /** The state replayed to a session entering a room: stored fields with defaults filled in. */
  datatype Snapshot = Snapshot(rest: Hash, cursor: Num, branchCursor: Num, history: string,
                               historyCursor: Num, historySnapshots: string)

  /** The fields the replay decodes or defaults; every other stored field passes through unchanged. */
  const DecodedFields: set<string> := {"cursor", "branchCursor", "history", "historyCursor", "historySnapshots"}

  /**
   * The snapshot decoding: `cursor` parsed (`NaN` if absent),
   * `branchCursor` parsed or `undefined`, `history` and
   * `historySnapshots` their text or `[]`, `historyCursor` parsed or -1;
   * every other field is passed through.
   */
  function DecodeSnapshot(h: Hash): (snap: Snapshot)
    ensures "branchCursor" !in h ==> snap.branchCursor == Undefined
    ensures "history" !in h ==> snap.history == "[]"
    ensures "historyCursor" !in h ==> snap.historyCursor == Value(-1)
    ensures "historySnapshots" !in h ==> snap.historySnapshots == "[]"
    ensures "cursor" !in h ==> snap.cursor == NaN
  {
    Snapshot(h - DecodedFields,
             ParseNum(Get(h, "cursor")),
             if "branchCursor" in h then ParseNum(Get(h, "branchCursor")) else Undefined,
             if "history" in h then h["history"] else "[]",
             if "historyCursor" in h then ParseNum(Get(h, "historyCursor")) else Value(-1),
             if "historySnapshots" in h then h["historySnapshots"] else "[]")
  }

  function NumOf(x: Option<int>): Num {
    if x.Some? then Value(x.value) else Undefined
  }

  lemma ParseNumOfString(i: int)
    ensures ParseNum(Some(IntToString(i))) == Value(i)
  {
    ParseIntRoundTrip(i);
  }

  /**
   * A stored state update replays as sent: every defined field comes back
   * with its value, and every undefined one with its default.
   */
  lemma SnapshotRoundTrip(s: ReviewState)
    ensures var snap := DecodeSnapshot(EncodeState(s));
            && snap.rest == OptField("roomId", s.roomId)
            && snap.cursor == (if s.cursor.Some? then Value(s.cursor.value) else NaN)
            && snap.branchCursor == NumOf(s.branchCursor)
            && snap.history == s.history.GetOr("[]")
            && snap.historyCursor == Value(s.historyCursor.GetOr(-1))
            && snap.historySnapshots == s.historySnapshots.GetOr("[]")
  {
    SnapshotRest(s);
    SnapshotNumbers(s);
    SnapshotTexts(s);
  }

  /** Only the room id is passed through a replayed state update. */
  lemma SnapshotRest(s: ReviewState)
    ensures DecodeSnapshot(EncodeState(s)).rest == OptField("roomId", s.roomId)
  {
    var h := EncodeState(s);
    assert Get(h, "roomId") == s.roomId;
    assert h - DecodedFields == OptField("roomId", s.roomId);
  }

  /** The numeric fields of a replayed state update come back parsed. */
  lemma SnapshotNumbers(s: ReviewState)
    ensures var snap := DecodeSnapshot(EncodeState(s));
            && snap.cursor == (if s.cursor.Some? then Value(s.cursor.value) else NaN)
            && snap.branchCursor == NumOf(s.branchCursor)
            && snap.historyCursor == Value(s.historyCursor.GetOr(-1))
  {
    var h := EncodeState(s);
    NumberRoundTrip(h, "cursor", s.cursor);
    NumberRoundTrip(h, "branchCursor", s.branchCursor);
    NumberRoundTrip(h, "historyCursor", s.historyCursor);
  }

  /** The text fields of a replayed state update come back as sent, or `[]`. */
  lemma SnapshotTexts(s: ReviewState)
    ensures var snap := DecodeSnapshot(EncodeState(s));
            && snap.history == s.history.GetOr("[]")
            && snap.historySnapshots == s.historySnapshots.GetOr("[]")
  {
    var h := EncodeState(s);
    assert Get(h, "history") == s.history;
    assert Get(h, "historySnapshots") == s.historySnapshots;
  }

  lemma NumberRoundTrip(h: Hash, field: string, v: Option<int>)
    requires Get(h, field) == (if v.Some? then Some(IntToString(v.value)) else None)
    ensures field in h <==> v.Some?
    ensures v.Some? ==> ParseNum(Get(h, field)) == Value(v.value)
  {
    if v.Some? {
      ParseNumOfString(v.value);
    }
  }

  /**
   * Updates merge into the stored snapshot: every field the newer update
   * leaves undefined keeps the value of an earlier one, every defined field
   * takes the newer value, and so each field the newer update leaves out
   * decodes as it did before.
   */
  lemma SnapshotKeepsOlderField(older: Hash, s: ReviewState)
    ensures forall f :: StateField(s, f).None? ==> Get(older + EncodeState(s), f) == Get(older, f)
    ensures forall f :: StateField(s, f).Some? ==> Get(older + EncodeState(s), f) == StateField(s, f)
    ensures var merged, earlier := DecodeSnapshot(older + EncodeState(s)), DecodeSnapshot(older);
            && (s.roomId.None? ==> merged.rest == earlier.rest)
            && (s.cursor.None? ==> merged.cursor == earlier.cursor)
            && (s.branchCursor.None? ==> merged.branchCursor == earlier.branchCursor)
            && (s.history.None? ==> merged.history == earlier.history)
            && (s.historyCursor.None? ==> merged.historyCursor == earlier.historyCursor)
            && (s.historySnapshots.None? ==> merged.historySnapshots == earlier.historySnapshots)
  {
    var h := older + EncodeState(s);
    MergeKeepsFields(older, s);
    if s.roomId.None? {
      MergedRest(older, s);
    }
    DecodeAgrees(h, older, "cursor");
    DecodeAgrees(h, older, "branchCursor");
    DecodeAgrees(h, older, "history");
    DecodeAgrees(h, older, "historyCursor");
    DecodeAgrees(h, older, "historySnapshots");
  }

  /** A merged hash has the newer update's defined fields and the older hash's others. */
  lemma MergeKeepsFields(older: Hash, s: ReviewState)
    ensures forall f :: StateField(s, f).None? ==> Get(older + EncodeState(s), f) == Get(older, f)
    ensures forall f :: StateField(s, f).Some? ==> Get(older + EncodeState(s), f) == StateField(s, f)
  {
    forall f | true
      ensures StateField(s, f).None? ==> Get(older + EncodeState(s), f) == Get(older, f)
      ensures StateField(s, f).Some? ==> Get(older + EncodeState(s), f) == StateField(s, f)
    {
      MergedField(older, EncodeState(s), f);
    }
  }

  /** Two hashes that agree on one field decode that field alike. */
  lemma DecodeAgrees(h1: Hash, h2: Hash, f: string)
    ensures Get(h1, f) == Get(h2, f) ==>
              var d1, d2 := DecodeSnapshot(h1), DecodeSnapshot(h2);
              && (f == "cursor" ==> d1.cursor == d2.cursor)
              && (f == "branchCursor" ==> d1.branchCursor == d2.branchCursor)
              && (f == "history" ==> d1.history == d2.history)
              && (f == "historyCursor" ==> d1.historyCursor == d2.historyCursor)
              && (f == "historySnapshots" ==> d1.historySnapshots == d2.historySnapshots)
  {
  }

  /** A field of a merge comes from the newer hash when it has one, else from the older. */
  lemma MergedField(older: Hash, newer: Hash, f: string)
    ensures Get(older + newer, f) == if f in newer then Get(newer, f) else Get(older, f)
  {
  }

  /** An update without a room id passes the earlier non-numeric fields through unchanged. */
  lemma MergedRest(older: Hash, s: ReviewState)
    requires s.roomId.None?
    ensures (older + EncodeState(s)) - DecodedFields == older - DecodedFields
  {
    var e := EncodeState(s);
    forall f | f in e ensures f in DecodedFields {
      assert Get(e, f) == StateField(s, f);
    }
  }

  // ---------------------------------------------------------------------
  // Frames

  /** The `args` of a system command. */
  datatype CmdArgs = Absent | Strings(items: seq<Option<string>>) | StateArgs(state: ReviewState) | Message(text: string)

  datatype Command = Command(id: Option<int>, name: string, args: CmdArgs)

  /** Positional argument `i` (destructuring `cmd.args`), `undefined` past the end. */
  function Arg(items: seq<Option<string>>, i: nat): Option<string> {
    if i < |items| then items[i] else None
  }

  /** An incoming frame after `JSON.parse` (see `LeelaGoServer`). */
  datatype Frame = Unparseable | Untyped | SysFrame(cmd: Option<Command>) | OtherFrame

  /** What is published on a channel. */
  datatype Payload = Empty | JoinNotice(nickname: Option<string>) | StateJson(state: ReviewState) | Relay(args: CmdArgs)

  datatype Publication = Publication(channel: string, payload: Payload)

  /** The `args` of a reply frame. */
  datatype ReplyArgs =
    | BadParameters
    | NullArgs
    | RoomJson(room: Room)
    | RoomInfoJson(info: RoomInfo)
    | SnapshotJson(snap: Snapshot)
    | Relayed(payload: Payload)
    | JoinCount(count: int, nickname: Option<string>)

  /** A frame sent to the client: a `sys` reply or a `sync` push. */
  datatype Outgoing = SysReply(id: Option<int>, name: string, args: ReplyArgs) | SyncPush(name: string, args: ReplyArgs)

  /** A `message` listener registered on entering a room. */
  datatype Listener = Listener(roomId: string, nickname: Option<string>)

  /** The people counter of a room (`parseInt(value) || 0`). */
  function Count(people: map<string, int>, key: string): int {
    if key in people then people[key] else 0
  }

  /** What one listener pushes for a message on `channel`. */
  function Notification(l: Listener, channel: string, payload: Payload, people: map<string, int>): seq<Outgoing> {
    if channel == StateChannel(l.roomId) then [SyncPush(ReviewRoomStateUpdate, Relayed(payload))]
    else if channel == MessageChannel(l.roomId) then [SyncPush(ReviewRoomMessage, Relayed(payload))]
    else if channel == JoinChannel(l.roomId) then [SyncPush(JoinReviewRoom, JoinCount(Count(people, PeopleKey(l.roomId)), l.nickname))]
    else if channel == LeaveChannel(l.roomId) then [SyncPush(LeaveReviewRoom, Relayed(payload))]
    else []
  }

  /** What all listeners push, in registration order. */
  function Notifications(ls: seq<Listener>, channel: string, payload: Payload, people: map<string, int>): seq<Outgoing> {
    if ls == [] then [] else Notification(ls[0], channel, payload, people) + Notifications(ls[1..], channel, payload, people)
  }

  /** A listener pushes at most one frame per message, and none for a channel of another room. */
  lemma {:induction false} NotificationsBounded(ls: seq<Listener>, channel: string, payload: Payload, people: map<string, int>)
    ensures |Notifications(ls, channel, payload, people)| <= |ls|
    ensures (forall i :: 0 <= i < |ls| ==> channel !in RoomChannels(ls[i].roomId)) ==>
              Notifications(ls, channel, payload, people) == []
  {
    if ls != [] {
      NotificationsBounded(ls[1..], channel, payload, people);
      NotificationBounded(ls[0], channel, payload, people);
      if forall i :: 0 <= i < |ls| ==> channel !in RoomChannels(ls[i].roomId) {
        assert channel !in RoomChannels(ls[0].roomId);
        assert forall i :: 0 <= i < |ls[1..]| ==> channel !in RoomChannels(ls[1..][i].roomId) by {
          forall i | 0 <= i < |ls[1..]| ensures channel !in RoomChannels(ls[1..][i].roomId) {
            assert ls[1..][i] == ls[i + 1];
          }
        }
      }
    }
  }

  /** One listener pushes at most one frame, and none for a channel outside its room. */
  lemma NotificationBounded(l: Listener, channel: string, payload: Payload, people: map<string, int>)
    ensures |Notification(l, channel, payload, people)| <= 1
    ensures channel !in RoomChannels(l.roomId) ==> Notification(l, channel, payload, people) == []
  {
  }

  /** The stored state of room `r` replayed to a session entering it, if there is one. */
  function Replay(hashes: map<string, Hash>, r: string): (out: seq<Outgoing>)
    ensures |out| <= 1
    ensures out != [] <==> SnapshotKey(r) in hashes
  {
    if SnapshotKey(r) in hashes then [SyncPush(ReviewRoomStateUpdate, SnapshotJson(DecodeSnapshot(hashes[SnapshotKey(r)])))]
    else []
  }

  /** An enter command naming a stored room. */
  predicate Finds(cmd: Command, hashes: map<string, Hash>) {
    cmd.args.Strings? && Arg(cmd.args.items, 0).Some? && Arg(cmd.args.items, 0).value in hashes
  }

  /** The room an enter command names. */
  function EnteredRoom(cmd: Command): string
    requires cmd.args.Strings? && Arg(cmd.args.items, 0).Some?
  {
    Arg(cmd.args.items, 0).value
  }

  /** Frames are sent only while the socket is open. */
  function Sending(open: bool, out: seq<Outgoing>): seq<Outgoing> {
    if open then out else []
  }

  // ---------------------------------------------------------------------
  // The shared store

  /** The key/value store with publish/subscribe, as a synchronous object. */
  class Store {
    /** Integer keys (`_people` counters). */
    var people: map<string, int>
    /** Hash keys (rooms and state snapshots). */
    var hashes: map<string, Hash>
    /** Every publication, in order. */
    var published: seq<Publication>

    constructor()
      ensures people == map[] && hashes == map[] && published == []
    {
      people := map[];
      hashes := map[];
      published := [];
    }

    /** `SET key value` */
    method SetCount(key: string, v: int)
      modifies this
      ensures people == old(people)[key := v]
      ensures hashes == old(hashes) && published == old(published)
    {
      people := people[key := v];
    }

    /** `INCR key`: a missing key counts from 0. */
    method Incr(key: string)
      modifies this
      ensures people == old(people)[key := Count(old(people), key) + 1]
      ensures hashes == old(hashes) && published == old(published)
    {
      people := people[key := Count(people, key) + 1];
    }

    /** `DECR key`: a missing key counts from 0. */
    method Decr(key: string)
      modifies this
      ensures people == old(people)[key := Count(old(people), key) - 1]
      ensures hashes == old(hashes) && published == old(published)
    {
      people := people[key := Count(people, key) - 1];
    }

    /** `HMSET key fields`: the fields are merged into the hash, newer values winning. */
    method HMSet(key: string, fields: Hash)
      modifies this
      ensures hashes == old(hashes)[key := (if key in old(hashes) then old(hashes)[key] else map[]) + fields]
      ensures people == old(people) && published == old(published)
    {
      var prior: Hash := if key in hashes then hashes[key] else map[];
      hashes := hashes[key := prior + fields];
    }

    /** `PUBLISH channel payload` */
    method Publish(channel: string, payload: Payload)
      modifies this
      ensures published == old(published) + [Publication(channel, payload)]
      ensures people == old(people) && hashes == old(hashes)
    {
      published := published + [Publication(channel, payload)];
    }
  }

  // ---------------------------------------------------------------------
  // The session

  class ReviewServer {
    const store: Store
    /** The room id of a creator's uuid (the first eight hex digits of its md5). */
    const deriveRoomId: string -> string
    /** The session has a store connection (`this.redis`). */
    var redis: bool
    /** The session has a subscriber connection (`this.redisMessenger`). */
    var messenger: bool
    /** Channels the subscriber connection listens on. */
    var subscriptions: set<string>
    /** The subscriber's `message` listeners, in registration order. */
    var listeners: seq<Listener>
    /** The room this session entered. */
    var roomInfo: Option<RoomInfo>
    /** The socket is open. */
    var open: bool
    /** The keep-alive ping is scheduled. */
    var timerActive: bool
    /** How many `close` events this session emitted. */
    var closeEvents: nat
    /** The delayed store disconnect of `close` is scheduled. */
    var teardownPending: bool
    /** Frames sent to the client, in order. */
    var sent: seq<Outgoing>

    constructor(store: Store, deriveRoomId: string -> string)
      ensures this.store == store && this.deriveRoomId == deriveRoomId
      ensures !redis && !messenger && subscriptions == {} && listeners == [] && roomInfo == None
      ensures open && timerActive && closeEvents == 0 && !teardownPending && sent == []
    {
      this.store := store;
      this.deriveRoomId := deriveRoomId;
      redis := false;
      messenger := false;
      subscriptions := {};
      listeners := [];
      roomInfo := None;
      open := true;
      timerActive := true;
      closeEvents := 0;
      teardownPending := false;
      sent := [];
    }

    /** `handleCreateReviewRoom`: the effect on the session and the store. */
    twostate predicate CreateEffect(cmd: Command, storeError: bool)
      reads this, store
    {
      && roomInfo == old(roomInfo) && open == old(open) && closeEvents == old(closeEvents)
      && timerActive == old(timerActive) && teardownPending == old(teardownPending)
      && store.published == old(store.published)
      && (!cmd.args.Strings? ==> unchanged(this) && unchanged(store))
      && (cmd.args.Strings? && !(TruthyText(Arg(cmd.args.items, 0)) && TruthyText(Arg(cmd.args.items, 1))) ==>
            && sent == old(sent) + Sending(open, [SysReply(cmd.id, cmd.name, BadParameters)])
            && redis == old(redis) && messenger == old(messenger)
            && subscriptions == old(subscriptions) && listeners == old(listeners)
            && store.people == old(store.people) && store.hashes == old(store.hashes))
      && (cmd.args.Strings? && TruthyText(Arg(cmd.args.items, 0)) && TruthyText(Arg(cmd.args.items, 1)) ==>
            var a := cmd.args.items;
            var roomId := deriveRoomId(Arg(a, 0).value);
            var room := Room(Arg(a, 0).value, Arg(a, 1).value, roomId, Arg(a, 3), Arg(a, 4), Arg(a, 2));
            && redis && messenger && subscriptions == {} && listeners == []
            && store.people == old(store.people)[PeopleKey(roomId) := 0]
            && store.hashes == (if storeError then old(store.hashes)
                                else old(store.hashes)[roomId := (if roomId in old(store.hashes) then old(store.hashes)[roomId] else map[]) + RoomHash(room)])
            && sent == old(sent) + Sending(open, [SysReply(cmd.id, cmd.name, if storeError then NullArgs else RoomJson(room))]))
    }

    /**
     * `handleCreateReviewRoom`: a missing or empty uuid or sgf is answered
     * `paramaters bad`. Otherwise the session's store connections are
     * replaced, the room is stored under the id derived from the uuid with
     * its people counter at 0, and the room is sent back (`null` when the
     * store reports an error, in which case the room is not written).
     */
    method HandleCreateReviewRoom(cmd: Command, storeError: bool)
      modifies this, store
      ensures CreateEffect(cmd, storeError)
    {
      if !cmd.args.Strings? {
        return;
      }
      var a := cmd.args.items;
      var uuid, sgf, nickname, roomName, chatBroId := Arg(a, 0), Arg(a, 1), Arg(a, 2), Arg(a, 3), Arg(a, 4);
      if !TruthyText(uuid) || !TruthyText(sgf) {
        sent := sent + Sending(open, [SysReply(cmd.id, cmd.name, BadParameters)]);
        return;
      }
      // The previous connections are ended; the new subscriber starts with no channels.
      subscriptions := {};
      listeners := [];
      redis := true;
      messenger := true;
      var room := Room(uuid.value, sgf.value, deriveRoomId(uuid.value), roomName, chatBroId, nickname);
      StoreRoom(cmd, room, storeError);
    }

    /** The second half of `handleCreateReviewRoom`: the room and its counter are written and the room sent back. */
    method StoreRoom(cmd: Command, room: Room, storeError: bool)
      modifies this, store
      ensures roomInfo == old(roomInfo) && open == old(open) && closeEvents == old(closeEvents)
      ensures timerActive == old(timerActive) && teardownPending == old(teardownPending)
      ensures redis == old(redis) && messenger == old(messenger)
      ensures subscriptions == old(subscriptions) && listeners == old(listeners)
      ensures store.published == old(store.published)
      ensures store.people == old(store.people)[PeopleKey(room.roomId) := 0]
      ensures store.hashes == (if storeError then old(store.hashes)
                               else old(store.hashes)[room.roomId := (if room.roomId in old(store.hashes) then old(store.hashes)[room.roomId] else map[]) + RoomHash(room)])
      ensures sent == old(sent) + Sending(open, [SysReply(cmd.id, cmd.name, if storeError then NullArgs else RoomJson(room))])
    {
      store.SetCount(PeopleKey(room.roomId), 0);
      if !storeError {
        store.HMSet(room.roomId, RoomHash(room));
      }
      sent := sent + Sending(open, [SysReply(cmd.id, cmd.name, if storeError then NullArgs else RoomJson(room))]);
    }

    /** `handleEnterReviewRoom`: the effect on the session and the store. */
    twostate predicate EnterEffect(cmd: Command)
      reads this, store
    {
      && open == old(open) && closeEvents == old(closeEvents) && timerActive == old(timerActive)
      && teardownPending == old(teardownPending)
      && store.hashes == old(store.hashes)
      && (!cmd.args.Strings? ==> unchanged(this) && unchanged(store))
      && (cmd.args.Strings? ==> messenger == (old(messenger) || !old(redis)))
      && (cmd.args.Strings? && !Finds(cmd, old(store.hashes)) ==>
            && !redis && roomInfo == old(roomInfo)
            && sent == old(sent) + Sending(open, [SysReply(cmd.id, cmd.name, NullArgs)])
            && store.people == old(store.people) && store.published == old(store.published)
            && subscriptions == old(subscriptions) && listeners == old(listeners))
      && (Finds(cmd, old(store.hashes)) ==>
            && redis
            && roomInfo == Some(RoomInfoOf(old(store.hashes)[EnteredRoom(cmd)], Some(EnteredRoom(cmd)), Arg(cmd.args.items, 1))))
      && (Finds(cmd, old(store.hashes)) ==>
            sent == old(sent) + Sending(open, [SysReply(cmd.id, cmd.name, RoomInfoJson(roomInfo.value))]
                                              + Replay(old(store.hashes), EnteredRoom(cmd))))
      && (Finds(cmd, old(store.hashes)) ==>
            var r := EnteredRoom(cmd);
            && store.people == old(store.people)[PeopleKey(r) := Count(old(store.people), PeopleKey(r)) + 1]
            && store.published == old(store.published) + [Publication(JoinChannel(r), JoinNotice(Arg(cmd.args.items, 2)))])
      && (Finds(cmd, old(store.hashes)) ==>
            && subscriptions == old(subscriptions) + RoomChannels(EnteredRoom(cmd))
            && listeners == old(listeners) + [Listener(EnteredRoom(cmd), Arg(cmd.args.items, 2))])
    }

    /**
     * `handleEnterReviewRoom`: connects to the store if needed and reads
     * the room. An absent room is answered `null` and the store connection
     * dropped. Otherwise the session records the room (owner exactly when
     * its uuid is the creator's), answers with it, replays the stored
     * snapshot if there is one, increments the people counter, announces
     * the join and subscribes to the room's four channels.
     */
    method HandleEnterReviewRoom(cmd: Command)
      modifies this, store
      ensures EnterEffect(cmd)
    {
      if !cmd.args.Strings? {
        return;
      }
      var roomId := Arg(cmd.args.items, 0);
      if !redis {
        // A new connection and a new subscriber; an earlier subscriber is never ended.
        redis := true;
        messenger := true;
      }
      if roomId.None? || roomId.value !in store.hashes {
        sent := sent + Sending(open, [SysReply(cmd.id, cmd.name, NullArgs)]);
        redis := false;
        return;
      }
      JoinRoom(cmd);
    }

    /** The second half of `handleEnterReviewRoom`, once the named room was found. */
    method JoinRoom(cmd: Command)
      requires Finds(cmd, store.hashes)
      modifies this, store
      ensures open == old(open) && closeEvents == old(closeEvents) && timerActive == old(timerActive)
      ensures teardownPending == old(teardownPending)
      ensures redis == old(redis) && messenger == old(messenger)
      ensures store.hashes == old(store.hashes)
      ensures roomInfo == Some(RoomInfoOf(old(store.hashes)[EnteredRoom(cmd)], Some(EnteredRoom(cmd)), Arg(cmd.args.items, 1)))
      ensures sent == old(sent) + Sending(open, [SysReply(cmd.id, cmd.name, RoomInfoJson(roomInfo.value))]
                                                + Replay(old(store.hashes), EnteredRoom(cmd)))
      ensures var r := EnteredRoom(cmd);
              && store.people == old(store.people)[PeopleKey(r) := Count(old(store.people), PeopleKey(r)) + 1]
              && store.published == old(store.published) + [Publication(JoinChannel(r), JoinNotice(Arg(cmd.args.items, 2)))]
      ensures subscriptions == old(subscriptions) + RoomChannels(EnteredRoom(cmd))
      ensures listeners == old(listeners) + [Listener(EnteredRoom(cmd), Arg(cmd.args.items, 2))]
    {
      var r, uuid, nickname := EnteredRoom(cmd), Arg(cmd.args.items, 1), Arg(cmd.args.items, 2);
      var info := RoomInfoOf(store.hashes[r], Some(r), uuid);
      var snapshot := Replay(store.hashes, r);
      roomInfo := Some(info);
      sent := sent + Sending(open, [SysReply(cmd.id, cmd.name, RoomInfoJson(info))] + snapshot);
      store.Incr(PeopleKey(r));
      store.Publish(JoinChannel(r), JoinNotice(nickname));
      subscriptions := subscriptions + RoomChannels(r);
      listeners := listeners + [Listener(r, nickname)];
    }

    /** `handleReviewRoomUpdate`: the effect on the store; the session is unchanged. */
    twostate predicate UpdateEffect(cmd: Command)
      reads this, store
    {
      && store.people == old(store.people)
      && (!(roomInfo.Some? && roomInfo.value.isOwner && cmd.args.StateArgs? && redis) ==> unchanged(store))
      && (roomInfo.Some? && roomInfo.value.isOwner && cmd.args.StateArgs? && redis ==>
            var state := cmd.args.state;
            var key := SnapshotKey(Interpolated(state.roomId));
            && store.published == old(store.published) + [Publication(StateChannel(Interpolated(state.roomId)), StateJson(state))]
            && store.hashes == old(store.hashes)[key := (if key in old(store.hashes) then old(store.hashes)[key] else map[]) + EncodeState(state)])
      && unchanged(this)
    }

    /**
     * `handleReviewRoomUpdate`: only the owner of the entered room, with a
     * state and a store connection, may update. The state is published on
     * the state channel and merged into the snapshot, both under the room id
     * the state itself names.
     */
    method HandleReviewRoomUpdate(cmd: Command)
      modifies store
      ensures UpdateEffect(cmd)
    {
      if roomInfo.None? || !roomInfo.value.isOwner {
        return;
      }
      if !cmd.args.StateArgs? {
        return;
      }
      if !redis {
        return;
      }
      var state := cmd.args.state;
      var key := StateChannel(Interpolated(state.roomId));
      store.Publish(key, StateJson(state));
      store.HMSet(key + "_init", EncodeState(state));
    }

    /** `handleReviewRoomMessage`: the effect on the store; the session is unchanged. */
    twostate predicate MessageEffect(cmd: Command)
      reads this, store
    {
      && store.people == old(store.people) && store.hashes == old(store.hashes)
      && (!(redis && roomInfo.Some?) ==> store.published == old(store.published))
      && (redis && roomInfo.Some? ==>
            store.published == old(store.published) + [Publication(MessageChannel(Interpolated(roomInfo.value.roomId)), Relay(cmd.args))])
      && unchanged(this)
    }

    /** `handleReviewRoomMessage`: relays the message on the room's message channel when in a room with a store connection. */
    method HandleReviewRoomMessage(cmd: Command)
      modifies store
      ensures MessageEffect(cmd)
    {
      if !redis || roomInfo.None? {
        return;
      }
      store.Publish(MessageChannel(Interpolated(roomInfo.value.roomId)), Relay(cmd.args));
    }

    /** `handleLeaveReviewRoom`: the effect on the store; the session is unchanged. */
    twostate predicate LeaveEffect(cmd: Command)
      reads this, store
    {
      && store.hashes == old(store.hashes)
      && (!(redis && roomInfo.Some?) ==> unchanged(store))
      && (redis && roomInfo.Some? ==>
            var r := Interpolated(roomInfo.value.roomId);
            && store.published == old(store.published) + [Publication(LeaveChannel(r), Empty)]
            && store.people == old(store.people)[PeopleKey(r) := Count(old(store.people), PeopleKey(r)) - 1])
      && unchanged(this)
    }

    /** `handleLeaveReviewRoom`: announces the leave and decrements the people counter; the session stays subscribed. */
    method HandleLeaveReviewRoom(cmd: Command)
      modifies store
      ensures LeaveEffect(cmd)
    {
      if roomInfo.None? || !redis {
        return;
      }
      var r := Interpolated(roomInfo.value.roomId);
      store.Publish(LeaveChannel(r), Empty);
      store.Decr(PeopleKey(r));
    }

    /**
     * `close()` as written: the keep-alive stops, `close` is emitted and the
     * socket terminated; with a store connection the room's leave is
     * announced, its counter decremented and the disconnect scheduled. The
     * room id is read from `roomInfo` even when no room was entered, which
     * throws (`crashed`) before anything reaches the store.
     */
    method CloseAsWritten() returns (crashed: bool)
      modifies this, store
      ensures !timerActive && !open && closeEvents == old(closeEvents) + 1
      ensures crashed <==> old(redis) && old(roomInfo).None?
      ensures redis == old(redis) && messenger == old(messenger) && roomInfo == old(roomInfo)
      ensures sent == old(sent) && subscriptions == old(subscriptions) && listeners == old(listeners)
      ensures store.hashes == old(store.hashes)
      ensures !old(redis) || crashed ==> unchanged(store) && teardownPending == old(teardownPending)
      ensures old(redis) && !crashed ==>
                var r := Interpolated(roomInfo.value.roomId);
                && teardownPending
                && store.published == old(store.published) + [Publication(LeaveChannel(r), Empty)]
                && store.people == old(store.people)[PeopleKey(r) := Count(old(store.people), PeopleKey(r)) - 1]
    {
      timerActive := false;
      closeEvents := closeEvents + 1;
      open := false;
      crashed := false;
      if redis {
        if roomInfo.None? {
          return true;
        }
        var r := Interpolated(roomInfo.value.roomId);
        store.Publish(LeaveChannel(r), Empty);
        store.Decr(PeopleKey(r));
        teardownPending := true;
      }
    }

    /** `close()` as intended: the effect on the session and the store. */
    twostate predicate CloseEffect()
      reads this, store
    {
      && !timerActive && !open && closeEvents == old(closeEvents) + 1
      && redis == old(redis) && messenger == old(messenger) && roomInfo == old(roomInfo)
      && sent == old(sent) && subscriptions == old(subscriptions) && listeners == old(listeners)
      && store.hashes == old(store.hashes)
      && teardownPending == (old(teardownPending) || old(redis))
      && (!(old(redis) && old(roomInfo).Some?) ==> unchanged(store))
      && (old(redis) && old(roomInfo).Some? ==>
            var r := Interpolated(roomInfo.value.roomId);
            && store.published == old(store.published) + [Publication(LeaveChannel(r), Empty)]
            && store.people == old(store.people)[PeopleKey(r) := Count(old(store.people), PeopleKey(r)) - 1])
    }

    /**
     * `close()` as intended: the leave is announced and the counter
     * decremented only for a room actually entered, and the disconnect is
     * scheduled whenever there is a store connection.
     */
    method Close()
      modifies this, store
      ensures CloseEffect()
    {
      timerActive := false;
      closeEvents := closeEvents + 1;
      open := false;
      if redis {
        if roomInfo.Some? {
          var r := Interpolated(roomInfo.value.roomId);
          store.Publish(LeaveChannel(r), Empty);
          store.Decr(PeopleKey(r));
        }
        teardownPending := true;
      }
    }

    /** The delayed part of `close`: the subscriber unsubscribes and both connections end. */
    method Teardown()
      modifies this
      ensures !teardownPending
      ensures old(teardownPending) ==> !redis && !messenger && subscriptions == {} && listeners == []
      ensures !old(teardownPending) ==> unchanged(this)
      ensures roomInfo == old(roomInfo) && open == old(open) && sent == old(sent)
      ensures timerActive == old(timerActive) && closeEvents == old(closeEvents)
    {
      if !teardownPending {
        return;
      }
      // Any subscriber unsubscribes and ends; then the store connection ends.
      subscriptions := {};
      listeners := [];
      messenger := false;
      redis := false;
      teardownPending := false;
    }

    /**
     * A publication reaching the subscriber: every listener whose room the
     * channel belongs to pushes it to the client (a join as the room's
     * current people count with the listener's own nickname).
     */
    method Deliver(channel: string, payload: Payload)
      modifies this`sent
      ensures !(messenger && channel in subscriptions) ==> sent == old(sent)
      ensures messenger && channel in subscriptions ==>
                sent == old(sent) + Sending(open, Notifications(listeners, channel, payload, store.people))
    {
      if !messenger || channel !in subscriptions {
        return;
      }
      sent := sent + Sending(open, Notifications(listeners, channel, payload, store.people));
    }

    /**
     * `handleMessage`: frames that do not parse, have no type, or carry no
     * command close the session; `sys` commands go to the handler of their
     * name and unknown names are ignored, as are frames of other types.
     */
    method HandleMessage(frame: Frame, storeError: bool)
      modifies this, store
      ensures (frame.Unparseable? || frame.Untyped? || frame == SysFrame(None)) ==> CloseEffect()
      ensures frame.SysFrame? && frame.cmd.Some? ==>
                var cmd := frame.cmd.value;
                && (cmd.name == CreateReviewRoom ==> CreateEffect(cmd, storeError))
                && (cmd.name == EnterReviewRoom ==> EnterEffect(cmd))
                && (cmd.name == ReviewRoomStateUpdate ==> UpdateEffect(cmd))
                && (cmd.name == ReviewRoomMessage ==> MessageEffect(cmd))
                && (cmd.name == LeaveReviewRoom ==> LeaveEffect(cmd))
      ensures (frame.OtherFrame? ||
               (frame.SysFrame? && frame.cmd.Some? &&
                frame.cmd.value.name !in {CreateReviewRoom, EnterReviewRoom, ReviewRoomStateUpdate, ReviewRoomMessage, LeaveReviewRoom})) ==>
                unchanged(this) && unchanged(store)
    {
      match frame
      case Unparseable =>
        Close();
      case Untyped =>
        Close();
      case OtherFrame =>
      case SysFrame(None) =>
        Close();
      case SysFrame(Some(cmd)) =>
        if cmd.name == CreateReviewRoom {
          HandleCreateReviewRoom(cmd, storeError);
        } else if cmd.name == EnterReviewRoom {
          HandleEnterReviewRoom(cmd);
        } else if cmd.name == ReviewRoomStateUpdate {
          HandleReviewRoomUpdate(cmd);
        } else if cmd.name == ReviewRoomMessage {
          HandleReviewRoomMessage(cmd);
        } else if cmd.name == LeaveReviewRoom {
          HandleLeaveReviewRoom(cmd);
        }
    }
  }

  /**
   * The source's `close` crashes for a session that created a room and
   * disconnects before entering it: the session has a store connection but
   * no room.
   */
  method CreateThenCloseCrashes(deriveRoomId: string -> string) returns (crashed: bool)
    ensures crashed
  {
    var store := new Store();
    var session := new ReviewServer(store, deriveRoomId);
    var create := Command(Some(1), CreateReviewRoom, Strings([Some("creator"), Some("(;GM[1])")]));
    session.HandleCreateReviewRoom(create, false);
    crashed := session.CloseAsWritten();
  }

  /** The intended `close` after the same sequence leaves the store's publications and counters as they were after the creation. */
  method CreateThenCloseIntended(deriveRoomId: string -> string) returns (published: seq<Publication>, people: int)
    ensures published == []
    ensures people == 0
  {
    var store := new Store();
    var session := new ReviewServer(store, deriveRoomId);
    var create := Command(Some(1), CreateReviewRoom, Strings([Some("creator"), Some("(;GM[1])")]));
    session.HandleCreateReviewRoom(create, false);
    session.Close();
    published := store.published;
    people := Count(store.people, PeopleKey(deriveRoomId("creator")));
  }
}
