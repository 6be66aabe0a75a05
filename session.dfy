/** The Room page as an object: the three `useState` slots are fields, and
    each socket handler is a method that overwrites them with the reducer's
    next value. */
module Session {
  import opened Wrappers
  import opened Members
  import opened Room

  class RoomSession {
    /** The normalised room code, the user name and the requested host flag
        the page was opened with. */
    const roomId: string
    const username: string
    const isHost: bool

    var users: seq<Member>
    var roomState: RoomState
    var connectionStatus: ConnectionStatus

    /** The component state as one value. */
    function View(): State
      reads this
    {
      State(users, roomState, connectionStatus)
    }

    constructor (roomId: string, username: string, isHost: bool)
      ensures View() == Initial()
      ensures this.roomId == roomId && this.username == username && this.isHost == isHost
    {
      this.roomId := roomId;
      this.username := username;
      this.isHost := isHost;
      users := [];
      roomState := RoomState("", false, 0, None);
      connectionStatus := Connecting;
    }

    /** `connect`: marks the session connected and returns the `join-room`
        request the page emits. */
    method OnConnect() returns (req: Request)
      modifies this
      ensures View() == old(View()).(status := Connected)
      ensures [req] == Requests(Config(roomId, username, isHost), Connect)
    {
      connectionStatus := Connected;
      req := JoinRoom(roomId, username, isHost);
    }

    method OnDisconnect()
      modifies this
      ensures View() == old(View()).(status := Disconnected)
    {
      connectionStatus := Disconnected;
    }

    method OnConnectError()
      modifies this
      ensures View() == old(View()).(status := Error)
    {
      connectionStatus := Error;
    }

    /** `room-state`. */
    method OnRoomState(snap: Snapshot)
      modifies this
      ensures View() == Step(old(View()), None, RoomStateEvent(snap))
      ensures connectionStatus == old(connectionStatus)
    {
      users := snap.users.GetOr([]);
      roomState := RoomState(snap.videoUrl.GetOr(""), snap.isPlaying.GetOr(false),
                             snap.currentTime.GetOr(0), snap.host);
    }

    /** `room-members`. */
    method OnRoomMembers(members: seq<Member>)
      modifies this
      ensures users == members
      ensures roomState == old(roomState) && connectionStatus == old(connectionStatus)
    {
      users := members;
    }

    /** `user-joined`. */
    method OnUserJoined(userId: Id, joinedName: string, joinedIsHost: bool, joinedAt: Timestamp)
      modifies this
      ensures View() == Step(old(View()), None, UserJoined(userId, joinedName, joinedIsHost, joinedAt))
      ensures HasId(old(users), userId) ==> users == old(users)
      ensures UniqueIds(old(users)) ==> UniqueIds(users)
    {
      if UniqueIds(users) {
        JoinPreservesUnique(users, userId, joinedName, joinedIsHost, joinedAt);
      }
      users := Join(users, userId, joinedName, joinedIsHost, joinedAt);
    }

    /** `user-left`. */
    method OnUserLeft(userId: Id, leftName: string)
      modifies this
      ensures View() == Step(old(View()), None, UserLeft(userId, leftName))
      ensures !HasId(users, userId)
      ensures UniqueIds(old(users)) ==> UniqueIds(users)
    {
      if UniqueIds(users) {
        RemovePreservesUnique(users, userId);
      }
      users := RemoveById(users, userId);
    }

    /** `host-changed`; `selfId` is the socket's own id. */
    method OnHostChanged(selfId: Option<Id>, newHostId: Id, newIsHost: bool)
      modifies this
      ensures View() == Step(old(View()), selfId, HostChanged(newHostId, newIsHost))
      ensures selfId != Some(newHostId) ==> View() == old(View())
    {
      if selfId == Some(newHostId) {
        roomState := roomState.(host := Some(newHostId));
      }
    }

    method OnVideoPlay()
      modifies this
      ensures View() == Step(old(View()), None, VideoPlay)
      ensures roomState.isPlaying
    {
      roomState := roomState.(isPlaying := true);
    }

    method OnVideoPause()
      modifies this
      ensures View() == Step(old(View()), None, VideoPause)
      ensures !roomState.isPlaying
    {
      roomState := roomState.(isPlaying := false);
    }

    method OnVideoSeek(time: Time)
      modifies this
      ensures View() == Step(old(View()), None, VideoSeek(time))
      ensures roomState.currentTime == time
    {
      roomState := roomState.(currentTime := time);
    }

    method OnVideoUrlChange(url: string)
      modifies this
      ensures View() == Step(old(View()), None, VideoUrlChange(url))
      ensures roomState.videoUrl == url
    {
      roomState := roomState.(videoUrl := url);
    }

    method OnSyncTime(time: Time)
      modifies this
      ensures View() == Step(old(View()), None, SyncTime(time))
      ensures roomState.currentTime == time
    {
      roomState := roomState.(currentTime := time);
    }

    /** The socket's dispatch: runs the handler registered for the event and
        returns what the handler emits. */
    method Handle(selfId: Option<Id>, e: Event) returns (sent: seq<Request>)
      modifies this
      ensures View() == Step(old(View()), selfId, e)
      ensures sent == Requests(Config(roomId, username, isHost), e)
    {
      sent := [];
      match e
      case Connect =>
        var req := OnConnect();
        sent := [req];
      case Disconnect => OnDisconnect();
      case ConnectError => OnConnectError();
      case RoomStateEvent(snap) => OnRoomState(snap);
      case RoomMembers(members) => OnRoomMembers(members);
      case UserJoined(id, name, h, at) => OnUserJoined(id, name, h, at);
      case UserLeft(id, name) => OnUserLeft(id, name);
      case HostChanged(newHostId, h) => OnHostChanged(selfId, newHostId, h);
      case VideoPlay => OnVideoPlay();
      case VideoPause => OnVideoPause();
      case VideoSeek(t) => OnVideoSeek(t);
      case VideoUrlChange(url) => OnVideoUrlChange(url);
      case SyncTime(t) => OnSyncTime(t);
    }

    /** The colour of the status dot for the current status. */
    method StatusColour() returns (k: Colour)
      ensures k == Indicator(connectionStatus)
      ensures k == Green <==> connectionStatus == Connected
    {
      k := Indicator(connectionStatus);
    }
  }
}
