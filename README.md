# Screen-sharing session state machines in Dafny

This project models the two pages of a peer-to-peer screen-sharing web app.
Both pages are small event-driven state machines.

- **The host page** owns one peer. Its open event gives the room code. Each
  viewer's data connection adds the viewer's id to the `connections` list, and
  its close removes that id. A decision step runs after every change of the
  peer, the active stream or the list. While there is no stream, it raises a
  "start sharing" prompt whenever someone is listed. Once there is a stream, it
  calls every listed viewer and puts an `onended` handler on the stream's first
  track. `endSession` releases the stream and the peer and clears everything.
- **The join page** takes a room code, typed or prefilled from the `room` URL
  parameter. It refuses a blank code. Otherwise it creates a peer and, once the
  peer opens, connects to exactly that code. It answers every inbound call and
  shows the call's stream. It resets when the connection closes and clears its
  connecting flag on a peer error. On unmount it destroys the peer it holds.

Each page is a class whose fields are the page's state. Each event handler is a
method. Every method names the fields it may change in a field-level
`modifies` clause, so all other fields stay as they were. What a page does to
the outside world is appended to an `out` effect log: prompts, capture
requests, calls placed and closed, tracks stopped, peers created, connected and
destroyed, calls answered, toasts and navigation.

Modules:

- `Common` (common.dfy): opaque peer ids, peer objects, tracks and media streams.
- `ViewerList` (viewer_list.dfy): the host's list updates as pure functions
  (append, filter), with lemmas on multiplicities, order, idempotence and
  commutation.
- `HostSession` (host_session.dfy): the host page as the class `Host`, plus
  specification functions for its effects and a few client methods that run
  concrete event sequences.
- `RoomCode` (room_code.dfy): `trim` and the blank-code test.
- `ViewerSession` (viewer_session.dfy): the join page as the class `Viewer`,
  with client methods.

In these places the code behaves differently from what one might expect, and
the model follows the code:

- `connections` is a list, not a set. A viewer id that connects twice is
  listed twice and called twice. A close removes every copy
  (`HostSession.DuplicateViewer`).
- The prompt is raised again by every decision step that runs while there is
  no stream and someone is listed. It is not raised once
  (`HostSession.TwoViewersBeforeSharing`).
- While sharing, every decision step calls every listed viewer again,
  including viewers that were already called. A viewer's close places no
  close on that viewer's call (`HostSession.ViewerLeavesWhileSharing`).
- The `onended` handler is overwritten on each loop iteration. When the track
  ends, only the last call placed is closed. The active stream stays set
  (`HostSession.OnlyLastCallClosed`, `HostSession.Host.OnTrackEnded`).
- On the join page, a connection close stops no track and does not destroy
  the peer. A peer error leaves the room code and the stream as they are.

## Model

| member | source | states |
|---|---|---|
| ViewerList.Joined | app/host/page.tsx:37-38 | a connection puts the viewer's id at the end; every earlier entry stays in place, in order |
| ViewerList.JoinedCount | app/host/page.tsx:38 | a connection adds one copy of its own id and no copy of any other id |
| ViewerList.Without | app/host/page.tsx:40-42 | after a close the id is gone; exactly the other ids remain; the length drops by the number of copies removed |
| ViewerList.WithoutCount | app/host/page.tsx:41 | a close removes every copy of the closing id and keeps every other id exactly as often as before |
| ViewerList.WithoutConcat | app/host/page.tsx:41 | filtering distributes over concatenation, so the remaining entries keep their original order |
| ViewerList.WithoutAbsent | app/host/page.tsx:41 | closing an id that is not listed leaves the list unchanged |
| ViewerList.WithoutIdempotent | app/host/page.tsx:41 | a second close for the same id changes nothing |
| ViewerList.ConnectThenClose | app/host/page.tsx:37-42 | a connection followed by its close equals the close alone, so earlier copies of the id go too |
| ViewerList.WithoutCommutes | app/host/page.tsx:40-42 | closes of two ids give the same list in either order |
| HostSession.StopAll | app/host/page.tsx:119 | stopping a stream's tracks stops each track once, in track order |
| HostSession.StopAllStopsEach | app/host/page.tsx:119 | stopping a list of tracks only stops tracks of that list, and stops every one of them |
| HostSession.PlannedCalls | app/host/page.tsx:111-115 | a decision step with a stream places exactly one call per listed entry |
| HostSession.PlannedCallsAt | app/host/page.tsx:111-115 | the i-th call of a decision step goes to the i-th listed viewer, with the active stream and the i-th serial from the first |
| HostSession.PlaceCalls | app/host/page.tsx:111-121 | the `forEach` loop places exactly the planned calls, in list order, advances the serial by the list length, and leaves on the first track the handler of the last call (the handlers unchanged when the list is empty) |
| HostSession.TrackEndEffects | app/host/page.tsx:117-120 | a firing track-end handler closes its one call first and then stops every track of its stream; it closes no other call |
| HostSession.OneCallPerEntry | app/host/page.tsx:107-115 | the calls of a decision step raise no prompt, come in list order with increasing serials, use the active stream and go only to listed viewers |
| HostSession.OnlyLastCallClosed | app/host/page.tsx:111-120 | after a decision step, the first track's handler closes a call exactly when it is the last one placed |
| HostSession.EndSessionEffects | app/host/page.tsx:128-157 | `endSession` always ends by reporting the session's end and navigating home |
| HostSession.EndSessionStopsOnlyWithStream | app/host/page.tsx:132-135 | `endSession` stops tracks exactly when a stream exists, and then every track of it; it places and closes no call and raises no prompt |
| HostSession.EndSessionDestroysOnlyWithPeer | app/host/page.tsx:140-143 | `endSession` destroys a peer exactly when one exists, and then that peer |
| HostSession.EndSessionSecondTime | app/host/page.tsx:128-151 | `endSession` on an already ended state stops no track and destroys no peer; it only reports and navigates |
| HostSession.Host.constructor | app/host/page.tsx:15-31 | mounting starts with an empty room code, no stream and an empty list, and holds the created peer, or no peer when creating it threw |
| HostSession.Host.OnPeerOpen | app/host/page.tsx:33-35 | the peer's assigned id becomes the room code and nothing else changes |
| HostSession.Host.OnConnection | app/host/page.tsx:37-38 | the new viewer is appended and the earlier list is kept as a prefix; nothing else changes |
| HostSession.Host.OnConnectionClose | app/host/page.tsx:40-42 | every copy of the viewer leaves the list and every other id keeps its count; nothing else changes |
| HostSession.Host.Decide | app/host/page.tsx:57-123 | with no peer, nothing happens; with no stream, exactly one prompt is raised if someone is listed and otherwise nothing; with a stream, one call per entry in list order and no prompt, and the first track's handler ends up holding the last call |
| HostSession.Host.CallAll | app/host/page.tsx:111-121 | the page's log gains the planned calls in list order, the call serial advances by the list length, and the first track holds the handler of the last call (the handlers unchanged when the list is empty); every installed handler still closes a call placed with its stream |
| HostSession.Host.OnPromptClicked | app/host/page.tsx:78-87 | clicking Start Sharing requests display capture with video and audio |
| HostSession.Host.OnCaptureSettled | app/host/page.tsx:84-100 | a captured stream becomes the active stream; a failed capture leaves the stream as it was and reports an error toast |
| HostSession.Host.StopTracks | app/host/page.tsx:119 | the tracks are stopped one by one, in order |
| HostSession.Host.OnTrackEnded | app/host/page.tsx:117-120 | when a track with a handler ends, that handler's call, which was placed earlier with that handler's stream, is closed and the stream's tracks stopped; the stream stays active; a track without a handler does nothing |
| HostSession.Host.EndSession | app/host/page.tsx:128-157 | from any state: the tracks are stopped only if a stream exists and the peer is destroyed only if one exists; afterwards there is no stream, no peer, an empty list and an empty room code |
| HostSession.Host.Unmount | app/host/page.tsx:49-51 | unmounting destroys the peer created at mount, if creating it succeeded |
| HostSession.EndSessionTwice | app/host/page.tsx:128-157 | two `endSession` calls leave the same state as one; the second adds only its report and navigation |
| HostSession.TwoViewersBeforeSharing | app/host/page.tsx:63-71 | two viewers joining before sharing give two prompts, one per decision step |
| HostSession.DuplicateViewer | app/host/page.tsx:37-121 | with the decision step run after each change, a viewer id connecting twice is listed twice; the decision step after the capture places two effects, one call per copy; one close leaves the id no longer listed |
| HostSession.ViewerLeavesWhileSharing | app/host/page.tsx:37-121 | with the decision step run after each change, while sharing to V1 and V2, V2's close makes the next decision step add exactly one effect, a new call to V1, and close nothing |
| RoomCode.IsWhitespace | app/join/page.tsx:61 | the characters `trim` removes (limited as listed under Left out): space, tab, line feed and carriage return among them, and never a letter, digit, `-` or `_` |
| RoomCode.TrimStart | app/join/page.tsx:61 | the result is a suffix that does not start with white space, and everything cut off is white space |
| RoomCode.TrimEnd | app/join/page.tsx:61 | the result is a prefix that does not end with white space, and everything cut off is white space |
| RoomCode.TrimBothEmpty | app/join/page.tsx:61 | trimming the start and then the end leaves nothing exactly when every character is white space |
| RoomCode.Trim | app/join/page.tsx:61 | the result is no longer than the code, is empty exactly when every character is white space, and otherwise neither starts nor ends with white space |
| RoomCode.IsBlank | app/join/page.tsx:61 | a code is blank (`!code.trim()`, here and in the button condition at line 172), so that trimming leaves the empty string, exactly when every character is white space |
| RoomCode.TrimKeepsClean | app/join/page.tsx:61 | a code that neither starts nor ends with white space is unchanged by trimming |
| RoomCode.EmptyAndSpacesAreBlank | app/join/page.tsx:61-68 | the empty code and a code of three spaces are both blank |
| ViewerSession.Viewer.constructor | app/join/page.tsx:13-17 | the page starts with an empty code, not connecting, no stream and no peer |
| ViewerSession.Viewer.JoinEnabled | app/join/page.tsx:172 | the join button is enabled exactly when not connecting and the code holds a non-white-space character |
| ViewerSession.Viewer.Prefill | app/join/page.tsx:24-28 | the `room` parameter becomes the code only when present and non-empty; otherwise the code is unchanged |
| ViewerSession.Viewer.OnInput | app/join/page.tsx:171 | editing the field sets the code |
| ViewerSession.Viewer.JoinRoom | app/join/page.tsx:57-79 | a blank code creates no peer, leaves the connecting flag alone and reports an error; any other code sets connecting, creates and holds a fresh peer bound to exactly that code |
| ViewerSession.Viewer.JoinClicked | app/join/page.tsx:172 | an enabled button always starts joining with the typed code: a fresh peer is created, held and bound to that code |
| ViewerSession.Viewer.OnPeerOpen | app/join/page.tsx:84-88 | an opened peer connects to exactly the code it was created for |
| ViewerSession.Viewer.OnConnectionOpen | app/join/page.tsx:93-98 | the connection's open only shows a toast |
| ViewerSession.Viewer.OnCall | app/join/page.tsx:103-107 | every inbound call is answered, whoever the caller is |
| ViewerSession.Viewer.OnCallStream | app/join/page.tsx:112-114 | an answered call's stream becomes the active stream |
| ViewerSession.Viewer.OnConnectionClose | app/join/page.tsx:120-129 | a close clears the connecting flag, the code and the stream, and reports; the peer is kept |
| ViewerSession.Viewer.OnPeerError | app/join/page.tsx:135-147 | a peer error clears only the connecting flag and reports; the code and the stream stay |
| ViewerSession.Viewer.Teardown | app/join/page.tsx:34-38 | unmount destroys the held peer if there is one and leaves none held |
| ViewerSession.TeardownTwice | app/join/page.tsx:34-38 | a second teardown does nothing |
| ViewerSession.BlankCodesRefused | app/join/page.tsx:61-68 | joining with an empty code or a code of spaces starts nothing and creates no peer |
| ViewerSession.TeardownThenClose | app/join/page.tsx:34-38 | after unmount destroys the peer, the close of its connection (handled at lines 120-129) still resets the page and reports the disconnection |
| ViewerSession.JoinWatchLeave | app/join/page.tsx:57-129 | a prefilled join connects to that room, shows the stream of the inbound call, and loses it when the connection closes |

## Left out

- Rendering: the cards, buttons, inputs, the viewer count display, the room
  code and link display (`ShareOptions` is not part of this model), and the
  video element. Playing the received stream (app/join/page.tsx:46-48) is I/O.
- Toasts and navigation are recorded as effects only. Their titles,
  descriptions, durations and styling are not modelled.
- The peer-to-peer library's signalling, transport and id allocation. Peers,
  calls and remote ids are opaque values, and its events are method calls.
  The event methods of `Viewer` require the peer to be one this page created
  (and, for connection and call events, one that opened), because the library
  only raises events on such peers.
- Events on a destroyed peer. Destroying a peer closes its connections, so a
  close event may follow `Teardown` or `EndSession`. The model allows it
  (`ViewerSession.TeardownThenClose`) and does not restrict other events on a
  destroyed peer.
- ViewerSession.Viewer.JoinRoom: `new Peer` is taken not to throw. The host
  page catches such an error, but the join page does not, so a throw there
  would leave the page connecting with no peer.
- Browser media: a stream is an id with a list of track ids. A display capture
  with video always has a video track, so the host's streams are the subset
  type `DisplayStream` with at least one track. `getTracks()[0]` on a trackless
  stream is not modelled.
- React's scheduling. The decision step is a method the caller runs after each
  change of peer, stream or list. Re-render timing, batching of state updates,
  stale closures and updates to an unmounted page are not modelled.
- Logging to the console on errors.
- `URLSearchParams` parsing: the prefill takes the `room` parameter as an
  optional string.
- RoomCode.IsWhitespace: `trim` also removes the other Unicode space
  separators (category Zs, for example U+2003); the model recognises only tab,
  line tab, form feed, space, no-break space, byte order mark and the four line
  terminators.
- ViewerSession.Viewer.JoinClicked: requires the button to be enabled, because
  a disabled button cannot be clicked; a blank code through `joinRoom` itself
  is covered by `JoinRoom`. It does not require that no stream is shown, though
  the page renders the input and the button only then (app/join/page.tsx:169),
  so the model also allows a click while a stream is shown.
- RoomCode.Trim: its contract fixes only when the result is empty and that
  its ends are not white space, not which characters remain in between; the
  page only tests the result for emptiness.
