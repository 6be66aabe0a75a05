/** The room-state reducer of the Room page: the three pieces of component
    state (`users`, `roomState`, `connectionStatus`), the inbound socket
    events, and the pure `prev => next` update each event performs. */
module Room {
  import opened Wrappers
  import opened Members

  /** A playback position; it is only ever copied, never computed. */
  type Time = int

  datatype RoomState = RoomState(videoUrl: string, isPlaying: bool, currentTime: Time, host: Option<Id>)

  datatype ConnectionStatus = Connecting | Connected | Disconnected | Error

  /** The colour of the status dot in the page header. */
  datatype Colour = Green | Yellow | Red

  /** The four fields of a `RoomState`, as names. */
  datatype Field = VideoUrl | IsPlaying | CurrentTime | Host

  /** The `room-state` payload; `None` marks a field that is missing or falsy. */
  datatype Snapshot = Snapshot(users: Option<seq<Member>>, videoUrl: Option<string>, isPlaying: Option<bool>,
                               currentTime: Option<Time>, host: Option<Id>)

  /** The inbound socket events, with the payload fields the handlers read. */
  datatype Event =
    | Connect
    | Disconnect
    | ConnectError
    | RoomStateEvent(snapshot: Snapshot)
    | RoomMembers(members: seq<Member>)
    | UserJoined(userId: Id, username: string, isHost: bool, joinedAt: Timestamp)
    | UserLeft(userId: Id, username: string)
    | HostChanged(newHostId: Id, isHost: bool)
    | VideoPlay
    | VideoPause
    | VideoSeek(time: Time)
    | VideoUrlChange(url: string)
    | SyncTime(time: Time)
  {
    predicate IsConnectionEvent() { Connect? || Disconnect? || ConnectError? }
    predicate IsMembershipEvent() { UserJoined? || UserLeft? }
    predicate IsVideoEvent() { VideoPlay? || VideoPause? || VideoSeek? || VideoUrlChange? || SyncTime? }
  }

  /** One event as delivered, with the socket's own id at that moment
      (`socket.id`, absent while not connected). */
  datatype Delivery = Delivery(selfId: Option<Id>, event: Event)

  datatype State = State(users: seq<Member>, room: RoomState, status: ConnectionStatus)

  /** What the page sends to the server, and the fixed values it sends. */
  datatype Request = JoinRoom(roomId: string, username: string, isHost: bool)
  datatype Config = Config(roomId: string, username: string, isHost: bool)

  /** The page's state at mount. */
  function Initial(): (s: State)
    ensures s.users == [] && s.status == Connecting
    ensures s.room == RoomState("", false, 0, None)
  {
    State([], RoomState("", false, 0, None), Connecting)
  }

  /** The fields in which two room states differ. */
  function ChangedFields(a: RoomState, b: RoomState): (fs: set<Field>)
    ensures fs == {} <==> a == b
    ensures VideoUrl in fs <==> a.videoUrl != b.videoUrl
    ensures IsPlaying in fs <==> a.isPlaying != b.isPlaying
    ensures CurrentTime in fs <==> a.currentTime != b.currentTime
    ensures Host in fs <==> a.host != b.host
  {
    (if a.videoUrl != b.videoUrl then {VideoUrl} else {})
    + (if a.isPlaying != b.isPlaying then {IsPlaying} else {})
    + (if a.currentTime != b.currentTime then {CurrentTime} else {})
    + (if a.host != b.host then {Host} else {})
  }

  /** The status-dot colour: green when connected, yellow while connecting,
      red otherwise. */
  function Indicator(c: ConnectionStatus): (k: Colour)
    ensures k == Green <==> c == Connected
    ensures k == Yellow <==> c == Connecting
    ensures k == Red <==> c == Disconnected || c == Error
  {
    match c
    case Connected => Green
    case Connecting => Yellow
    case Disconnected => Red
    case Error => Red
  }

  /** `video-play`. */
  function Play(r: RoomState): (r': RoomState)
    ensures r'.isPlaying
    ensures ChangedFields(r, r') <= {IsPlaying}
  {
    r.(isPlaying := true)
  }

  /** `video-pause`. */
  function Pause(r: RoomState): (r': RoomState)
    ensures !r'.isPlaying
    ensures ChangedFields(r, r') <= {IsPlaying}
  {
    r.(isPlaying := false)
  }

  /** `video-seek` and `sync-time`. */
  function Seek(r: RoomState, t: Time): (r': RoomState)
    ensures r'.currentTime == t
    ensures ChangedFields(r, r') <= {CurrentTime}
  {
    r.(currentTime := t)
  }

  /** `video-url-change`. */
  function ChangeUrl(r: RoomState, url: string): (r': RoomState)
    ensures r'.videoUrl == url
    ensures ChangedFields(r, r') <= {VideoUrl}
  {
    r.(videoUrl := url)
  }

  /** `host-changed`: the host is updated only on the client that is itself
      the new host. */
  function ChangeHost(r: RoomState, selfId: Option<Id>, newHostId: Id): (r': RoomState)
    ensures selfId == Some(newHostId) ==> r'.host == Some(newHostId)
    ensures selfId != Some(newHostId) ==> r' == r
    ensures ChangedFields(r, r') <= {Host}
  {
    if selfId == Some(newHostId) then r.(host := Some(newHostId)) else r
  }

  /** `room-state`: both the member list and the room state are replaced,
      missing or falsy fields taking their defaults and `host` copied as is. */
  function ApplySnapshot(s: State, snap: Snapshot): (r: State)
    ensures r.status == s.status
    ensures snap.users.Some? ==> r.users == snap.users.value
    ensures snap.users.None? ==> r.users == []
    ensures snap.videoUrl.Some? ==> r.room.videoUrl == snap.videoUrl.value
    ensures snap.videoUrl.None? ==> r.room.videoUrl == ""
    ensures snap.isPlaying.Some? ==> r.room.isPlaying == snap.isPlaying.value
    ensures snap.isPlaying.None? ==> !r.room.isPlaying
    ensures snap.currentTime.Some? ==> r.room.currentTime == snap.currentTime.value
    ensures snap.currentTime.None? ==> r.room.currentTime == 0
    ensures r.room.host == snap.host
  {
    State(snap.users.GetOr([]),
          RoomState(snap.videoUrl.GetOr(""), snap.isPlaying.GetOr(false), snap.currentTime.GetOr(0), snap.host),
          s.status)
  }

  /** The state a single event leaves behind. */
  function Step(s: State, selfId: Option<Id>, e: Event): (r: State)
    ensures e.IsConnectionEvent() ==> r.users == s.users && r.room == s.room
    ensures e.IsMembershipEvent() || e.HostChanged? || e.IsVideoEvent() ==> r.status == s.status
    ensures e.IsMembershipEvent() ==> r.room == s.room
    ensures e.IsVideoEvent() || e.HostChanged? ==> r.users == s.users
    ensures e.RoomStateEvent? || e.RoomMembers? ==> r.status == s.status
    ensures e.RoomMembers? ==> r.room == s.room && r.users == e.members
  {
    match e
    case Connect => s.(status := Connected)
    case Disconnect => s.(status := Disconnected)
    case ConnectError => s.(status := Error)
    case RoomStateEvent(snap) => ApplySnapshot(s, snap)
    case RoomMembers(members) => s.(users := members)
    case UserJoined(id, name, isHost, at) => s.(users := Join(s.users, id, name, isHost, at))
    case UserLeft(id, _) => s.(users := RemoveById(s.users, id))
    case HostChanged(newHostId, _) => s.(room := ChangeHost(s.room, selfId, newHostId))
    case VideoPlay => s.(room := Play(s.room))
    case VideoPause => s.(room := Pause(s.room))
    case VideoSeek(t) => s.(room := Seek(s.room, t))
    case VideoUrlChange(url) => s.(room := ChangeUrl(s.room, url))
    case SyncTime(t) => s.(room := Seek(s.room, t))
  }

  /** What the page sends in reply to an event: a `join-room` request on
      `connect`, nothing otherwise. */
  function Requests(cfg: Config, e: Event): (rs: seq<Request>)
    ensures |rs| <= 1
    ensures rs != [] <==> e.Connect?
    ensures rs != [] ==> rs[0] == JoinRoom(cfg.roomId, cfg.username, cfg.isHost)
  {
    if e.Connect? then [JoinRoom(cfg.roomId, cfg.username, cfg.isHost)] else []
  }

  /** The state after a stream of deliveries, applied one at a time in order. */
  function Run(s: State, ds: seq<Delivery>): (r: State)
    ensures (forall i :: 0 <= i < |ds| ==> !ds[i].event.IsConnectionEvent()) ==> r.status == s.status
    decreases |ds|
  {
    if ds == [] then s else Step(Run(s, ds[..|ds| - 1]), ds[|ds| - 1].selfId, ds[|ds| - 1].event)
  }

  /** The status a connection event sets. */
  function StatusFor(e: Event): ConnectionStatus
    requires e.IsConnectionEvent()
  {
    match e
    case Connect => Connected
    case Disconnect => Disconnected
    case ConnectError => Error
  }

  /** A member list an event installs wholesale keeps ids distinct. */
  predicate PayloadUnique(e: Event) {
    match e
    case RoomStateEvent(snap) => snap.users.Some? ==> UniqueIds(snap.users.value)
    case RoomMembers(members) => UniqueIds(members)
    case _ => true
  }

  // ---------------------------------------------------------------------
  // Properties of single events
  // ---------------------------------------------------------------------

  /** `user-joined` with an id already present changes nothing. */
  lemma JoinKnownIdIsNoOp(s: State, selfId: Option<Id>, id: Id, name: string, isHost: bool, at: Timestamp)
    requires HasId(s.users, id)
    ensures Step(s, selfId, UserJoined(id, name, isHost, at)) == s
  {
  }

  /** `user-joined` with a new id appends exactly that member at the end. */
  lemma JoinNewIdAppends(s: State, selfId: Option<Id>, id: Id, name: string, isHost: bool, at: Timestamp)
    requires !HasId(s.users, id)
    ensures var r := Step(s, selfId, UserJoined(id, name, isHost, at));
      && |r.users| == |s.users| + 1
      && r.users[..|s.users|] == s.users
      && r.users[|s.users|] == Member(id, name, isHost, at)
      && r.room == s.room && r.status == s.status
  {
  }

  /** After `user-left` no member has the id, every other member stays in
      order, and an absent id leaves the list unchanged. */
  lemma LeaveRemovesId(s: State, selfId: Option<Id>, id: Id, name: string)
    ensures var r := Step(s, selfId, UserLeft(id, name));
      && !HasId(r.users, id)
      && (forall m :: m in r.users <==> m in s.users && m.id != id)
      && IsSubsequence(r.users, s.users)
      && (!HasId(s.users, id) ==> r.users == s.users)
  {
    RemoveIsSubsequence(s.users, id);
    if !HasId(s.users, id) {
      RemoveAbsent(s.users, id);
    }
  }

  /** Join and leave keep member ids pairwise distinct. */
  lemma MembershipPreservesUnique(s: State, selfId: Option<Id>, e: Event)
    requires e.IsMembershipEvent()
    requires UniqueIds(s.users)
    ensures UniqueIds(Step(s, selfId, e).users)
  {
    match e
    case UserJoined(id, name, isHost, at) => JoinPreservesUnique(s.users, id, name, isHost, at);
    case UserLeft(id, _) => RemovePreservesUnique(s.users, id);
  }

  /** `host-changed` ignores its `isHost` field and moves the host only on
      the client whose own id is the new host. */
  lemma HostChangeGuarded(s: State, selfId: Option<Id>, newHostId: Id, b1: bool, b2: bool)
    ensures Step(s, selfId, HostChanged(newHostId, b1)) == Step(s, selfId, HostChanged(newHostId, b2))
    ensures selfId != Some(newHostId) ==> Step(s, selfId, HostChanged(newHostId, b1)) == s
    ensures selfId == Some(newHostId) ==> Step(s, selfId, HostChanged(newHostId, b1)).room.host == Some(newHostId)
  {
  }

  /** `video-play` and `video-pause` are idempotent. */
  lemma PlayPauseIdempotent(s: State, selfId: Option<Id>)
    ensures Step(Step(s, selfId, VideoPlay), selfId, VideoPlay) == Step(s, selfId, VideoPlay)
    ensures Step(Step(s, selfId, VideoPause), selfId, VideoPause) == Step(s, selfId, VideoPause)
  {
  }

  /** Each video event changes exactly the one field it names, to the value
      it carries, and nothing else. */
  lemma VideoEventSetsItsField(s: State, selfId: Option<Id>, e: Event)
    requires e.IsVideoEvent()
    ensures var r := Step(s, selfId, e);
      && r.users == s.users && r.status == s.status
      && (e.VideoPlay? ==> r.room.isPlaying && ChangedFields(s.room, r.room) <= {IsPlaying})
      && (e.VideoPause? ==> !r.room.isPlaying && ChangedFields(s.room, r.room) <= {IsPlaying})
      && (e.VideoSeek? || e.SyncTime? ==> r.room.currentTime == e.time && ChangedFields(s.room, r.room) <= {CurrentTime})
      && (e.VideoUrlChange? ==> r.room.videoUrl == e.url && ChangedFields(s.room, r.room) <= {VideoUrl})
  {
  }

  /** A video event or `host-changed` changes at most one field of the room
      state and leaves the member list and connection status alone. */
  lemma AtMostOneFieldChanges(s: State, selfId: Option<Id>, e: Event)
    requires e.IsVideoEvent() || e.HostChanged?
    ensures var r := Step(s, selfId, e);
      r.users == s.users && r.status == s.status && |ChangedFields(s.room, r.room)| <= 1
  {
  }

  /** `room-state` forgets everything the previous users and room held. */
  lemma SnapshotReplaces(s1: State, s2: State, selfId: Option<Id>, snap: Snapshot)
    ensures Step(s1, selfId, RoomStateEvent(snap)).users == Step(s2, selfId, RoomStateEvent(snap)).users
    ensures Step(s1, selfId, RoomStateEvent(snap)).room == Step(s2, selfId, RoomStateEvent(snap)).room
  {
  }

  /** A `room-state` whose fields are all missing or falsy resets members
      and room to the values at mount. */
  lemma EmptySnapshotResets(s: State, selfId: Option<Id>)
    ensures Step(s, selfId, RoomStateEvent(Snapshot(None, None, None, None, None))) == Initial().(status := s.status)
  {
  }

  /** A snapshot taken of a state, applied anywhere, installs that state's
      members and room exactly. */
  lemma SnapshotRoundTrip(s: State, t: State, selfId: Option<Id>)
    ensures var snap := Snapshot(Some(s.users), Some(s.room.videoUrl), Some(s.room.isPlaying),
                                 Some(s.room.currentTime), s.room.host);
      Step(t, selfId, RoomStateEvent(snap)) == t.(users := s.users, room := s.room)
  {
  }

  /** `room-members` installs the list as given, duplicates included. */
  lemma RoomMembersKeepsDuplicates(s: State, selfId: Option<Id>, m: Member)
    ensures Step(s, selfId, RoomMembers([m, m])).users == [m, m]
    ensures !UniqueIds(Step(s, selfId, RoomMembers([m, m])).users)
  {
    assert [m, m][0].id == [m, m][1].id;
  }

  // ---------------------------------------------------------------------
  // Properties of event streams
  // ---------------------------------------------------------------------

  /** Member ids stay pairwise distinct along any stream whose wholesale
      member lists are themselves free of duplicates. */
  lemma {:induction false} RunPreservesUnique(s: State, ds: seq<Delivery>)
    requires UniqueIds(s.users)
    requires forall i :: 0 <= i < |ds| ==> PayloadUnique(ds[i].event)
    ensures UniqueIds(Run(s, ds).users)
  {
    if ds != [] {
      var last := ds[|ds| - 1];
      RunPreservesUnique(s, ds[..|ds| - 1]);
      var p := Run(s, ds[..|ds| - 1]);
      assert PayloadUnique(last.event);
      match last.event
      case UserJoined(id, name, isHost, at) => JoinPreservesUnique(p.users, id, name, isHost, at);
      case UserLeft(id, _) => RemovePreservesUnique(p.users, id);
      case _ =>
    }
  }

  /** The connection status is the one set by the last connection event of
      the stream, or the starting one when there is none. */
  lemma {:induction false} RunStatusLastWins(s: State, ds: seq<Delivery>, k: int)
    requires -1 <= k < |ds|
    requires k >= 0 ==> ds[k].event.IsConnectionEvent()
    requires forall j :: k < j < |ds| ==> !ds[j].event.IsConnectionEvent()
    ensures Run(s, ds).status == if k >= 0 then StatusFor(ds[k].event) else s.status
  {
    if ds != [] {
      var init := ds[..|ds| - 1];
      if k == |ds| - 1 {
      } else {
        assert forall j :: k < j < |init| ==> init[j] == ds[j];
        RunStatusLastWins(s, init, k);
      }
    }
  }

  /** Running two streams one after the other is running their
      concatenation: events are applied one at a time, in order. */
  lemma {:induction false} RunAppend(s: State, a: seq<Delivery>, b: seq<Delivery>)
    ensures Run(s, a + b) == Run(Run(s, a), b)
    decreases |b|
  {
    if b == [] {
      assert a + b == a;
    } else {
      var ab := a + b;
      assert ab[..|ab| - 1] == a + b[..|b| - 1];
      assert ab[|ab| - 1] == b[|b| - 1];
      RunAppend(s, a, b[..|b| - 1]);
    }
  }

  /** The host changes only through a `room-state` snapshot or a
      `host-changed` naming the receiving client itself. */
  lemma {:induction false} RunHostUnchanged(s: State, ds: seq<Delivery>)
    requires forall i :: 0 <= i < |ds| ==> !ds[i].event.RoomStateEvent?
    requires forall i :: 0 <= i < |ds| && ds[i].event.HostChanged? ==> ds[i].selfId != Some(ds[i].event.newHostId)
    ensures Run(s, ds).room.host == s.room.host
  {
    if ds != [] {
      RunHostUnchanged(s, ds[..|ds| - 1]);
    }
  }

  /** A stream made of connection and video events only leaves the member
      list as it was. */
  lemma {:induction false} RunVideoKeepsUsers(s: State, ds: seq<Delivery>)
    requires forall i :: 0 <= i < |ds| ==> ds[i].event.IsVideoEvent() || ds[i].event.IsConnectionEvent()
    ensures Run(s, ds).users == s.users
  {
    if ds != [] {
      RunVideoKeepsUsers(s, ds[..|ds| - 1]);
    }
  }
}
