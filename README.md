# Room page state reducer (movie-sync-app client)

This project models the state logic of the client's Room page
(`client/src/pages/Room.jsx`). The page keeps three pieces of state:

- `users`, the member list, each member `{id, username, isHost, joinedAt}`;
- `roomState`, `{videoUrl, isPlaying, currentTime, host}`;
- `connectionStatus`, one of `connecting`, `connected`, `disconnected`, `error`.

Each inbound socket event replaces that state with a new value computed from
the old one and the event payload. The model has four modules:

- `Wrappers` (`wrappers.dfy`): `Option`, standing for a missing value and for
  the JavaScript `x || d` idiom. `None` means a field that is missing or falsy.
- `Members` (`members.dfy`): the member list. `FindById` models `find`,
  `Join` the idempotent append of `user-joined`, and `RemoveById` the
  `filter` of `user-left`. Lemmas cover idempotence, distinct ids, order
  and the join/leave round trip.
- `Room` (`room.dfy`): the state, the events, one pure update per event
  (`Play`, `Pause`, `Seek`, `ChangeUrl`, `ChangeHost`, `ApplySnapshot`),
  the dispatcher `Step`, the `join-room` request sent on `connect`
  (`Requests`), the status colour (`Indicator`), and `Run`, which applies a
  stream of events one at a time. Lemmas cover single events and whole
  streams.
- `Session` (`session.dfy`): the page as a class. The three state slots are
  fields, and there is one method per socket handler. Each method is proved
  to leave the fields equal to `Step` of the old state.

`socket.id` is passed in as `selfId`, which is `None` while not connected.
The `joinedAt` stamp (`new Date()` in the source) is a field of the
`user-joined` event. `currentTime` is an `int`, because it is only copied.

`video-play` and `video-pause` set `isPlaying` to true and false; they do
not toggle it, so each is idempotent.

## Model

| member | source | states |
|---|---|---|
| Room.Initial | client/src/pages/Room.jsx:16-25 | at mount: no members, empty URL, paused at 0, no host, status `connecting` |
| Room.Indicator | client/src/pages/Room.jsx:193-197 | the dot is green exactly when connected, yellow exactly when connecting, red exactly when disconnected or in error |
| Members.FindById | client/src/pages/Room.jsx:85 | `find` returns a member exactly when some member has the id, and what it returns is a member with that id |
| Members.Join | client/src/pages/Room.jsx:83-94 | after a join the id is present; the old list is a prefix of the result; the length grows by one exactly when the id was new, and the new last member carries the payload |
| Members.RemoveById | client/src/pages/Room.jsx:99 | after the filter no member has the id, and a member is kept exactly when it was present and has a different id |
| Members.JoinIdempotent | client/src/pages/Room.jsx:83-86 | joining again with an id already present changes nothing, whatever the second payload says |
| Members.JoinPreservesUnique | client/src/pages/Room.jsx:81-95 | if ids were pairwise distinct before a join, they still are after it |
| Members.RemoveIsSubsequence | client/src/pages/Room.jsx:99 | the filtered list is a subsequence of the old list, so the survivors keep their relative order |
| Members.RemoveAppend | client/src/pages/Room.jsx:99 | filtering the concatenation of two lists is the concatenation of the two filtered lists, so order is preserved |
| Members.RemoveAbsent | client/src/pages/Room.jsx:99 | removing an id no member has leaves the list unchanged |
| Members.RemovePreservesUnique | client/src/pages/Room.jsx:97-100 | if ids were pairwise distinct before a leave, they still are after it |
| Members.RemoveLength | client/src/pages/Room.jsx:99 | with distinct ids, a leave shortens the list by one when the id is present and by nothing otherwise |
| Members.JoinThenLeave | client/src/pages/Room.jsx:81-100 | a leave undoes the join of a new id |
| Room.Play | client/src/pages/Room.jsx:111-114 | `video-play` leaves `isPlaying` true, and `isPlaying` is the only field that may differ |
| Room.Pause | client/src/pages/Room.jsx:116-119 | `video-pause` leaves `isPlaying` false, and `isPlaying` is the only field that may differ |
| Room.Seek | client/src/pages/Room.jsx:121-134 | `video-seek` and `sync-time` set `currentTime` to the payload, and `currentTime` is the only field that may differ |
| Room.ChangeUrl | client/src/pages/Room.jsx:126-129 | `video-url-change` sets `videoUrl` to the payload, and `videoUrl` is the only field that may differ |
| Room.ChangeHost | client/src/pages/Room.jsx:102-108 | the host becomes the new id when the client's own id equals it; otherwise the room state is unchanged; only `host` may differ |
| Room.ApplySnapshot | client/src/pages/Room.jsx:65-74 | `room-state` takes each of `users`, `videoUrl`, `isPlaying`, `currentTime` from the payload when present and truthy and otherwise defaults it to `[]`, `""`, `false`, `0`, field by field; copies `host` with no default; leaves the connection status alone |
| Wrappers.Option.GetOr | client/src/pages/Room.jsx:67-71 | the falsy-default idiom (`x`, or else the default `d`) yields the carried value when there is one and the default otherwise |
| Room.Run | client/src/pages/Room.jsx:42-134 | events are applied one at a time in delivery order; a stream with no connection event keeps the connection status |
| Room.RunAppend | client/src/pages/Room.jsx:42-134 | running two streams one after the other equals running their concatenation |
| Room.Step | client/src/pages/Room.jsx:42-134 | connection events touch only the status; membership events touch only `users`; video and host events never touch `users` or the status; `room-members` sets `users` to its payload list exactly and touches nothing else |
| Room.Requests | client/src/pages/Room.jsx:42-52 | exactly the `connect` event sends one request, a `join-room` with the room code, user name and host flag |
| Room.JoinKnownIdIsNoOp | client/src/pages/Room.jsx:83-86 | `user-joined` with an id already present leaves the whole state unchanged |
| Room.JoinNewIdAppends | client/src/pages/Room.jsx:88-93 | `user-joined` with a new id appends exactly that member at the end; earlier members keep their places; the room state and status are unchanged |
| Room.LeaveRemovesId | client/src/pages/Room.jsx:97-100 | after `user-left` the id is gone, every member with another id is kept in order, and an absent id changes nothing |
| Room.MembershipPreservesUnique | client/src/pages/Room.jsx:81-100 | `user-joined` and `user-left` keep member ids pairwise distinct |
| Room.HostChangeGuarded | client/src/pages/Room.jsx:102-108 | `host-changed` ignores its `isHost` field, changes nothing unless the client is the new host, and then sets the host |
| Room.PlayPauseIdempotent | client/src/pages/Room.jsx:111-119 | applying `video-play` twice is the same as once, and likewise `video-pause` |
| Room.VideoEventSetsItsField | client/src/pages/Room.jsx:110-134 | each video event sets its own field to its value, may change no other room field, and leaves `users` and the status alone |
| Room.AtMostOneFieldChanges | client/src/pages/Room.jsx:102-134 | a video event or `host-changed` changes at most one of the four room fields |
| Room.SnapshotReplaces | client/src/pages/Room.jsx:65-74 | after `room-state`, members and room do not depend on the previous state |
| Room.EmptySnapshotResets | client/src/pages/Room.jsx:65-74 | a `room-state` with every field missing or falsy resets members and room to their values at mount |
| Room.SnapshotRoundTrip | client/src/pages/Room.jsx:65-74 | a snapshot taken of any state, applied to another, installs exactly the first state's members and room |
| Room.RoomMembersKeepsDuplicates | client/src/pages/Room.jsx:76-79 | witness that `room-members` removes no duplicates: the list `[m, m]` is installed as is, and its ids are not distinct |
| Room.RunPreservesUnique | client/src/pages/Room.jsx:65-100 | along any stream whose bulk member lists have distinct ids, member ids stay pairwise distinct |
| Room.RunStatusLastWins | client/src/pages/Room.jsx:42-62 | after a stream, the status is the one set by its last connection event, or the starting status if there was none |
| Room.RunHostUnchanged | client/src/pages/Room.jsx:65-108 | without `room-state` and without a `host-changed` naming the client itself, the host never changes |
| Room.RunVideoKeepsUsers | client/src/pages/Room.jsx:42-134 | a stream of only connection and video events leaves the member list unchanged |
| Session.RoomSession.constructor | client/src/pages/Room.jsx:16-25 | a new page holds the initial state and remembers its room code, user name and host flag |
| Session.RoomSession.OnConnect | client/src/pages/Room.jsx:42-52 | `connect` sets the status to connected, changes nothing else, and returns the `join-room` request |
| Session.RoomSession.OnDisconnect | client/src/pages/Room.jsx:54-57 | `disconnect` sets the status to disconnected, changing nothing else |
| Session.RoomSession.OnConnectError | client/src/pages/Room.jsx:59-62 | `connect_error` sets the status to error, changing nothing else |
| Session.RoomSession.OnRoomState | client/src/pages/Room.jsx:65-74 | the fields become the `room-state` step of the old state |
| Session.RoomSession.OnRoomMembers | client/src/pages/Room.jsx:76-79 | `users` becomes the payload list; nothing else changes |
| Session.RoomSession.OnUserJoined | client/src/pages/Room.jsx:81-95 | the fields become the `user-joined` step; a known id changes nothing; distinct ids stay distinct |
| Session.RoomSession.OnUserLeft | client/src/pages/Room.jsx:97-100 | the fields become the `user-left` step; the id is absent afterwards; distinct ids stay distinct |
| Session.RoomSession.OnHostChanged | client/src/pages/Room.jsx:102-108 | the fields become the `host-changed` step; nothing changes unless the client's own id is the new host |
| Session.RoomSession.OnVideoPlay | client/src/pages/Room.jsx:111-114 | the fields become the `video-play` step, which is playing |
| Session.RoomSession.OnVideoPause | client/src/pages/Room.jsx:116-119 | the fields become the `video-pause` step, which is paused |
| Session.RoomSession.OnVideoSeek | client/src/pages/Room.jsx:121-124 | the fields become the `video-seek` step, whose time is the payload |
| Session.RoomSession.OnVideoUrlChange | client/src/pages/Room.jsx:126-129 | the fields become the `video-url-change` step, whose URL is the payload |
| Session.RoomSession.OnSyncTime | client/src/pages/Room.jsx:131-134 | the fields become the `sync-time` step, whose time is the payload |
| Session.RoomSession.Handle | client/src/pages/Room.jsx:41-134 | any event leaves the fields equal to `Step` of the old state, and the page sends exactly `Requests` for that event |
| Session.RoomSession.StatusColour | client/src/pages/Room.jsx:193-197 | the colour shown is `Indicator` of the current status; green exactly when connected |

## Left out

- Rendering, animation, icons, and the settings and voice-chat toggles (lines 170-328). These are presentation only.
- Socket.IO transport: opening the connection, the `emit` calls and the cleanup `socket.disconnect()` (lines 37, 137-142). The `join-room` request sent on `connect` is modelled as a returned value (`Requests`, `OnConnect`). The manual `get-room-members` refresh (lines 160-164) is not modelled, because it changes no state.
- `roomId.toUpperCase()`: this is Unicode case mapping from the JavaScript library. The session receives the room code already upper-cased.
- Browser and router calls: clipboard copy (lines 145-153), navigation and the redirect when `username` is missing (lines 30-33, 155-157, 166-168), and `console.log`.
- `new Date()` for `joinedAt`: the model takes it as a field of the `user-joined` event.
- React scheduling: `setState` batching and effect re-runs (line 143). Events are applied one at a time, in order.
- The child components `VideoPlayer`, `VoiceChat` and `RoomControls`, and the server, are not part of this model.
- Payloads of the wrong type (a `room-state` whose `users` is a string, say) and JavaScript's `NaN` for `currentTime`. Each payload field has a single typed value here; `None` covers both missing and falsy, which for these field types gives the same default as `||`.
- Room.Seek: `currentTime` is an integer, not a floating-point number. It is only copied, so no arithmetic behaviour is lost.
- Members.FindById: does not state that the member found is the first one with the id. The handler only asks whether a member was found.
