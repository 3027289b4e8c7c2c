# camconnectit: a Dafny model of the pairing, signalling and transfer core

camconnectit pairs a phone and a laptop through a shared room or session id. The two devices negotiate a WebRTC link, and photos and files then travel over the link's data channel. This project models the four pieces of the system that carry state and rules, and proves properties about them:

- **Chunked file transfer** (`file_transfer.dfy`, module `FileTransfer`, class `FileTransferManager`).
  - The sender emits a `__META__` metadata frame, the file's 16384-byte slices as binary frames, and a final `__END__` frame.
  - The receiver is a two-state machine: either no transfer is open, or one is open with the chunks received so far.
  - On `__END__` the receiver fills a buffer in place with the chunks, in receipt order.
  - Proved: every chunk is a slice of at most 16384 bytes; the chunks concatenate to the file; `max(1, ceil(size / 16384))` chunk frames are sent; the metadata's declared chunk count is bounded both ways; feeding the sender's frames to a receiver in any state delivers the sent file byte for byte, reports progress once per chunk, and leaves no transfer open.
- **Polling signalling store** (`signaling_store.dfy`, module `Signaling`, class `SignalingRoute`).
  - A map from session id to three append-only logs: offers, answers and candidates.
  - POST appends, GET is a pure cursor slice, DELETE drops a session.
  - Proved: POST only ever extends logs, GET's cursor never shrinks, re-polling re-delivers nothing, and a resumed poll hands over exactly the entries appended in between.
- **Room registry and relay** (`relay_server.dfy`, module `Relay`, class `RelayServer`).
  - The `rooms` map of camera, viewer and homePage slots, plus each connection's `currentRoom` and `userRole`.
  - socket.io's part is modelled explicitly. Room membership is a set of socket ids per room name, and each socket is also in the room named by its own id. A closing socket leaves every room before its `disconnect` handler runs.
  - Each handler is a method that updates the maps and appends emissions, each paired with the set of sockets it reaches, to an outbox.
  - Proved: the membership invariant is preserved; every emission reaches only connected sockets; slots are claimed and cleared as the handlers say; a replaced former holder's departure leaves no trace; registering in a new room and leaving it restores the room map.
- **Client negotiation bookkeeping** (`webrtc_connection.dfy`, module `Negotiation`, class `WebRTCConnection`).
  - The three poll cursors, `connectionState`, the data-channel guards, and the choice of which log a polling tick reads.
  - The peer connection, the data channel, the signalling server and the client's callbacks are opaque. The model records what the client asks of them as an ordered list of effects.
  - Proved against the signalling store's own GET: a poll hands over the rest of the log and moves the cursor to its end. Across two polls with appends in between, every entry is handed over exactly once, in order, even when the session did not exist yet at the first poll.

`wrappers.dfy` holds the `Option` type shared by the modules.

The model follows the code as written. These points of its behaviour may be surprising, and the model keeps each of them:

- For a zero-byte file the send loop still reads and sends one empty slice before `__END__`, while the metadata declares 0 chunks (`FileTransfer.ChunkCount`).
- Peer-joined notices pass only between a camera and a viewer (server/server.js:74-80). A homePage is never named in one and is never sent the counterpart's id, though a homePage socket in the room does receive a registering camera's or viewer's announcement broadcast to the room (`Relay.RelayServer.RegistrationNoticesCases`).
- `register` with a role other than camera, viewer or homePage still joins the socket.io room and creates the room entry with three empty slots (server/server.js:42-47). The entry stays until a later registration fills a slot, or until some socket whose last registration named that room disconnects: every slot is then empty, so the entry is deleted (server/server.js:143-165, `Relay.Vacated`).
- POST with an unknown type creates the session before it answers 400 (app/api/signaling/route.ts:11-13, 28-29).
- GET with an unknown type answers 400 only for a session that exists (app/api/signaling/route.ts:63-64). For a session that does not exist it answers with an empty message list, whatever the type (app/api/signaling/route.ts:45-47).
- An answer or ICE candidate with a target goes to the socket.io room named by the target id (server/server.js:111-112, 120-121). That room holds the target while it is connected and is empty once it has gone; a socket that registered in a room whose name equals the id receives it too.
- A socket that registers a second time, in another room or under another role, keeps its old slot. `disconnect` only clears the slot of the last registration, so the earlier slot keeps the id of a closed socket.
- GET accepts a negative cursor and, like `Array.prototype.slice`, counts it from the end of the log; the cursor it returns can then lie before entries it has just delivered, so polling again re-delivers them (`Signaling.NegativeCursorRedelivers`). The client only ever polls from cursors of 0 or more (lib/webrtc.ts:182-197), so this does not arise between the two.
- A client cursor that lies beyond the end of a log stays where it is. This can happen once a session is deleted and re-created. Entries up to that cursor are then never handed over (`Negotiation.PollCatchesUp`, else branch).

## Model

| member | source | states |
|---|---|---|
| FileTransfer.TotalLength | client/lib/fileTransferManager.ts:113 | the running sum of chunk lengths equals the length of the chunks' concatenation |
| FileTransfer.DeclaredChunks | client/lib/fileTransferManager.ts:65 | the declared count n is the ceiling of size / 16384: n·16384 covers the size, (n−1)·16384 does not, and n is 0 exactly for an empty file |
| FileTransfer.Chunks | client/lib/fileTransferManager.ts:79-99 | the send loop reads at least one slice, and the slices concatenate back to the file |
| FileTransfer.ChunkIsSlice | client/lib/fileTransferManager.ts:82-92 | chunk k is exactly bytes [k·16384, min((k+1)·16384, size)) of the file |
| FileTransfer.ChunkCount | client/lib/fileTransferManager.ts:82-106 | the number of chunk frames is max(1, ceil(size/16384)): the declared count, except one empty chunk for an empty file |
| FileTransfer.TransmissionShape | client/lib/fileTransferManager.ts:63-107 | a transfer is one metadata frame, then only binary frames of at most 16384 bytes, then exactly one `__END__` frame |
| FileTransfer.Metadata | client/lib/fileTransferManager.ts:65-74 | the metadata carries the file's name, MIME type, size and the clock value, and declares as many chunks as are sent, or 0 for an empty file |
| FileTransfer.Transmission | client/lib/fileTransferManager.ts:63-107 | the frames are the metadata of this file, then chunk k as frame k+1, then the end marker |
| FileTransfer.Assemble | client/lib/fileTransferManager.ts:113-129 | the file carries the metadata's name, MIME type and timestamp, holds as many bytes as the chunks, and is the original data whenever the chunks are that data's slices |
| FileTransfer.Receive | client/lib/fileTransferManager.ts:41-59 | a metadata frame opens a new transfer; `__END__` delivers exactly when a transfer is open, and then closes it; a binary frame is appended while a transfer is open and reported as progress exactly when a listener is given and the declared count is non-zero; any other text frame changes nothing, open transfer or not; with no transfer open, nothing but a metadata frame changes anything |
| FileTransfer.ReceiveChunks | client/lib/fileTransferManager.ts:50-58 | while a transfer is open, binary frames are appended in order, and each is reported as (received, declared) progress when a listener is given and the declared count is non-zero |
| FileTransfer.IgnoredWhileIdle | client/lib/fileTransferManager.ts:41-59 | with no transfer open, binary frames, `__END__` and other text frames change nothing and report nothing |
| FileTransfer.TransferRoundTrip | client/lib/fileTransferManager.ts:37-137 | the sender's frames, fed to a receiver in any state, deliver a file with the sent name, MIME type, timestamp and bytes, report progress once per chunk, and leave the receiver idle |
| FileTransfer.FortyThousandBytes | client/lib/fileTransferManager.ts:65-93 | a 40000-byte file declares 3 chunks and is sent as slices of 16384, 16384 and 7232 bytes |
| FileTransfer.SumLengths | client/lib/fileTransferManager.ts:113 | the `reduce` loop computes the length of the chunks' concatenation, the size of the assembled file |
| FileTransfer.SetAt | client/lib/fileTransferManager.ts:118 | `set` copies a chunk into the buffer at the offset and leaves every byte before and after the chunk unchanged |
| FileTransfer.Fill | client/lib/fileTransferManager.ts:114-120 | writing the chunks one after another at a running offset fills a buffer of the total size with exactly their concatenation |
| FileTransfer.FileTransferManager.constructor | client/lib/fileTransferManager.ts:18-27 | the handler is installed only when both a channel and a file callback are given; the receiver starts idle |
| FileTransfer.FileTransferManager.SetDataChannel | client/lib/fileTransferManager.ts:29-36 | attaches the channel and records whether a progress callback was given |
| FileTransfer.FileTransferManager.OnMessage | client/lib/fileTransferManager.ts:37-60 | one message takes the receiving fields and the reported notice exactly as the receiver state machine specifies: metadata opens a fresh transfer, chunks are appended only while one is open, `__END__` delivers and resets |
| FileTransfer.FileTransferManager.AssembleFile | client/lib/fileTransferManager.ts:109-137 | the buffer filled chunk by chunk at a running offset holds the chunks' concatenation, wrapped with the metadata's name, MIME type and timestamp; the state resets to idle; without metadata nothing happens |
| FileTransfer.FileTransferManager.SendFile | client/lib/fileTransferManager.ts:63-107 | an unattached channel gets nothing; on an attached channel whose `send` succeeds a given number of times and then throws (a channel that is not, or no longer, open), what gets through is `SentFrames`: nothing if the metadata send throws, else the metadata, the chunks sent before the throw, and the end marker only if nothing threw |
| FileTransfer.FileTransferManager.SendAfterMetadataGoesOut | client/lib/fileTransferManager.ts:77-98 | once the metadata is sent, the chunk frames up to the first throwing `send`, then the end marker only if every chunk went out and `send` still succeeds |
| FileTransfer.SentFramesArePrefix | client/lib/fileTransferManager.ts:63-107 | what `sendFile` gets onto the channel is the full transmission cut after as many frames as `send` accepts: all of it when `send` never throws |
| FileTransfer.CutTransferDeliversNothing | client/lib/fileTransferManager.ts:37-59 | a transmission cut short after the metadata delivers no file: the receiver is left with the transfer open, the chunks that arrived, and only their progress reported |
| FileTransfer.FileTransferManager.SendChunks | client/lib/fileTransferManager.ts:79-99 | the offset-advancing read loop sends the slices of the file in order, stopping at the first `send` that throws; it reports whether every slice went out and how many more sends the channel accepts |
| Signaling.ParseType | app/api/signaling/route.ts:18-30 | exactly "offer", "answer" and "candidate" are accepted, each naming its own log |
| Signaling.Append | app/api/signaling/route.ts:18-27 | a push adds one entry at the end of the chosen log and leaves the other two logs unchanged |
| Signaling.SliceFrom | app/api/signaling/route.ts:55 | `slice(i)` returns the entries from i on for i ≥ 0, nothing past the end, and the last −i entries for negative i |
| Signaling.Get | app/api/signaling/route.ts:35-71 | 400 exactly when the id or the type is missing; an unknown session gets no messages and no cursor, without a type check; a known session gets 400 for an unknown type, else, for any cursor, `slice` of the log from the cursor and a cursor equal to the old cursor plus the count; for a cursor of 0 or more that is the rest of the log and the log's end |
| Signaling.CursorNeverShrinks | app/api/signaling/route.ts:67-70 | the returned cursor is at least the cursor supplied, negative or not |
| Signaling.RepollDeliversNothing | app/api/signaling/route.ts:55-70 | from a cursor of 0 or more, polling again with the returned cursor, before any append, returns nothing and the same cursor |
| Signaling.NegativeCursorRedelivers | app/api/signaling/route.ts:55-70 | a negative cursor counts from the end, and polling again from the cursor it returns re-delivers the entries already handed over |
| Signaling.ResumeAfterAppends | app/api/signaling/route.ts:49-70 | across appends, the poll from the returned cursor delivers exactly the new entries, so the two polls deliver the log from the first cursor on, each entry once, in order |
| Signaling.SignalingRoute.constructor | app/api/signaling/route.ts:5 | the store starts with no sessions |
| Signaling.SignalingRoute.Post | app/api/signaling/route.ts:7-33 | an unknown session is created with empty logs even when the type is rejected; a valid type appends one entry to its log; every other log and session is unchanged, and the store only grows |
| Signaling.SignalingRoute.Delete | app/api/signaling/route.ts:74-87 | 400 without an id, 404 for an unknown session, otherwise that session alone is removed |
| Relay.ParseRole | server/server.js:52-63 | exactly the three role names select a slot, and each selects its own |
| Relay.Claim | server/server.js:44-64 | the registrant's id overwrites the slot of its role; an unknown role writes nothing; the other slots are unchanged |
| Relay.RelayServer.constructor | server/server.js:28 | no rooms, no connections, no memberships, nothing emitted |
| Relay.RelayServer.Connect | server/server.js:30-34 | a new connection starts with no room and no role, and sits in its own socket.io room |
| Relay.RelayServer.Register | server/server.js:37-81 | records the room and role, joins the room, creates the room with empty slots if absent and claims the role's slot; then emits `RegistrationNotices` of the slots the room had before the claim |
| Relay.RelayServer.NotifyRegistration | server/server.js:55-80 | the registration's emissions are exactly `RegistrationNotices` of the slots the room had before |
| Relay.RelayServer.RegistrationNotices | server/server.js:55-80 | a registering camera is told the waiting viewer's id, and a registering viewer the camera's id, by a notice addressed to the registrant alone |
| Relay.RelayServer.RegistrationNoticesCases | server/server.js:52-80 | route-to-viewer is sent exactly when a camera registers with a homePage waiting (to that homePage's own room) or a homePage registers with a camera present (back to it); the registrant is announced exactly when a camera meets a viewer or a viewer meets a camera, to the rest of the room and never to itself; every other notice is a peer-joined to the registrant alone; peer-joined only ever names a camera or a viewer |
| Relay.RelayServer.TransitionToViewer | server/server.js:84-102 | only a homePage in its own, existing room moves to the viewer slot and becomes a viewer; peer-joined notices are exchanged only when a camera is present; otherwise nothing changes |
| Relay.RelayServer.Offer | server/server.js:104-107 | an offer goes to every other socket in the room, never back to the sender, tagged with the sender's id |
| Relay.RelayServer.Answer | server/server.js:109-116 | with a target id, an answer goes to the socket.io room named by that id; without one, to the sender's room minus the sender; either way tagged with the sender's id |
| Relay.RelayServer.IceCandidate | server/server.js:118-125 | a candidate is routed like an answer: to the room named by the target id if one is given, else to the rest of the sender's room |
| Relay.RelayServer.Target | server/server.js:111-115 | the recipients are connected sockets only; a given target reaches the target itself while it is connected; without a target the sender is excluded and every other connected socket registered in the room is reached |
| Relay.RelayServer.ReconnectRequest | server/server.js:127-138 | no-op for a missing room; a camera's request reaches the viewer and a viewer's the camera, only when that slot is held |
| Relay.RelayServer.Disconnect | server/server.js:140-167 | the socket leaves every socket.io room and its connection record; its room's slots become the vacated ones, and the departure notice is addressed under the post-departure membership |
| Relay.RelayServer.ClearSlot | server/server.js:143-166 | the slot is cleared only if it still holds the socket; a departing camera or viewer is reported to the counterpart; the room is deleted exactly when all slots are empty |
| Relay.Depart | server/server.js:140 | on disconnect socket.io removes the socket from every room and keeps the other members; a room survives exactly when it still has a member |
| Relay.DepartKeepsConsistent | server/server.js:140-167 | after a departure the remaining sockets still sit in their own rooms and their registered rooms, and rooms hold only connected sockets |
| Relay.Leave | server/server.js:147-159 | only the slot of the departing role, and only if it holds the departing socket, becomes empty; the room changes exactly when the socket still holds its slot |
| Relay.Vacated | server/server.js:147-165 | other rooms are untouched; the room is removed exactly when its slots are all empty after the departure, and is otherwise updated |
| Relay.DepartureNotice | server/server.js:147-159 | peer-disconnected naming the vacated role is sent exactly when a camera or viewer still holding its slot leaves while the counterpart slot is held; a homePage triggers none |
| Relay.FormerHolderLeavesNoTrace | server/server.js:147-165 | a socket whose slot was taken over leaves an occupied room unchanged and triggers no notice |
| Relay.RegisterThenLeave | server/server.js:44-165 | registering in a new room and leaving it again restores the room map |
| Negotiation.KindOf | lib/webrtc.ts:105 | media is an image exactly when its MIME type starts with "image/" |
| Negotiation.KindOfSubtype | lib/webrtc.ts:105 | every "image/…" type is an image and every "video/…" type a video |
| Negotiation.ReceivedMedia | lib/webrtc.ts:89-113 | only a "media" message reaches the callback, with its bytes, its id and its kind |
| Negotiation.MediaRoundTrip | lib/webrtc.ts:254-287 | what `sendMedia` sends is what the receiving side's callback gets |
| Negotiation.PolledTypes | lib/webrtc.ts:152-158 | the initiator polls answers and not offers, the responder offers and not answers, and both then poll candidates |
| Negotiation.Handled | lib/webrtc.ts:183-191 | one handler call per returned message, in order |
| Negotiation.NextCursor | lib/webrtc.ts:192-194 | a poll that hands over nothing leaves the cursor alone; a poll that hands over messages moves it to the cursor the server returned, and only there |
| Negotiation.CursorAdvancesByDelivered | lib/webrtc.ts:172-198 | for any cursor, a poll moves it by exactly the number of messages it hands over |
| Negotiation.PollCatchesUp | lib/webrtc.ts:172-198 | a poll from a cursor within a known session's log hands over the rest of the log and moves the cursor to its end; otherwise nothing is handed over and the cursor stays |
| Negotiation.PollsDeliverEachEntryOnce | lib/webrtc.ts:172-198 | two polls with appends between them hand over every entry from the first cursor on exactly once, in order, and end at the log's end, also when the session appears only after the first poll |
| Negotiation.PollsResumeKnownSession | lib/webrtc.ts:172-198 | for a session that already exists, the second poll starts where the first ended and together they hand over the log from the first cursor on |
| Negotiation.WebRTCConnection.constructor | lib/webrtc.ts:12-38 | all cursors 0, state "new", no peer connection, no channel, no polling |
| Negotiation.WebRTCConnection.Initialize | lib/webrtc.ts:40-71 | creates the peer connection; the initiator creates the channel and posts its offer; success starts polling and sets "connecting"; a failed offer answers false without polling |
| Negotiation.WebRTCConnection.OnChannelOpen | lib/webrtc.ts:74-78 | channel open sets "connected" and calls onConnected |
| Negotiation.WebRTCConnection.OnChannelClose | lib/webrtc.ts:80-84 | channel close sets "disconnected" and calls onDisconnected |
| Negotiation.WebRTCConnection.OnIceCandidate | lib/webrtc.ts:115-119 | a locally gathered candidate is posted to the candidate log; the end-of-candidates event posts nothing |
| Negotiation.WebRTCConnection.OnChannelMessage | lib/webrtc.ts:86-113 | a media message reaches the media callback; any other message changes nothing |
| Negotiation.WebRTCConnection.HandleDataChannel | lib/webrtc.ts:135-140 | only a non-initiator adopts the channel the peer opened |
| Negotiation.WebRTCConnection.HandleConnectionStateChange | lib/webrtc.ts:121-133 | "connected" sets connected; "disconnected", "failed" and "closed" set disconnected and clean up; other states, or no peer connection, change nothing |
| Negotiation.WebRTCConnection.Cleanup | lib/webrtc.ts:293-312 | polling stops, the channel and the peer connection are closed and dropped if held, and the session is deleted on the server |
| Negotiation.WebRTCConnection.SendMedia | lib/webrtc.ts:254-287 | sends, and answers true, exactly when a channel is held and open and the send does not throw; otherwise (no channel, channel not open, or a caught error) nothing is sent and the answer is false |
| Negotiation.WebRTCConnection.PollSignalingMessages | lib/webrtc.ts:172-198 | the poll reads the cursor of its own type, hands the returned messages in order to that type's handler (a no-op without a peer connection), and moves only that cursor, only when messages came back |
| Negotiation.WebRTCConnection.HandleAll | lib/webrtc.ts:183-191 | the handling loop issues one handler effect per message, in order |
| Negotiation.WebRTCConnection.PollTick | lib/webrtc.ts:142-163 | once disconnected, a tick only stops polling; otherwise it polls answers (initiator) or offers (responder), then candidates, and leaves the third cursor alone |

## Left out

- JSON serialisation: the `__META__` frame carries the metadata as a record. A frame whose JSON does not parse throws before assigning anything, so it is modelled as an ignored text frame. JSON that parses to something other than a metadata record is not modelled. Data-channel messages in lib/webrtc.ts are also records.
- Base64 conversion with `btoa`/`atob` (RFC 4648 section 4), done by browser builtins: media bytes travel unchanged in the model.
- FileReader asynchrony and read errors: the send loop is sequential, and a read error (which stops the transfer without `__END__`) is not modelled. A throwing `send` is modelled as the number of sends that succeed before the channel stops accepting them (`FileTransfer.FileTransferManager.SendFile`); which browser condition makes it throw is not.
- Floating-point progress: progress is reported as the pair (received, declared), not as a percentage.
- The Blob type fallback to "application/octet-stream" in `assembleFile` only affects the intermediate Blob. The delivered File carries the metadata's MIME type, which the `File` constructor lowercases (ASCII letters only); the model carries the type unchanged, so it matches the code for lowercase types only.
- The clock (`Date.now()`) and the random media id are parameters.
- RTCPeerConnection internals (offer/answer creation, description and candidate application, STUN configuration), and errors they throw, are opaque: handling a remote message is one effect. Peer-connection construction failures are not modelled; `Negotiation.WebRTCConnection.Initialize` models only the failure of creating or setting the local offer.
- Timers: `setInterval` is modelled as a polling flag and each tick as an explicit call. A second `initialize` leaks the first interval in the code; the model only records that polling is active.
- fetch and HTTP transport: a poll reads the store's current state directly, and a failed fetch (which aborts the rest of a tick) is not modelled. Session ids are not URL-encoded in the code; the model passes them unchanged.
- `lastIndex` parsing: the model takes the cursor as an integer, so `NaN` from a malformed parameter is not modelled. JavaScript object-prototype keys and non-string session ids are not modelled either.
- socket.io transport: delivery order across sockets and acknowledgements are not modelled. Emissions are recorded with the set of sockets they reach.
- POST bodies that are not JSON: `request.json()` then rejects and the route fails before touching the store (app/api/signaling/route.ts:8). The model takes the parsed session id, type and data as parameters.
- A throwing `onFileReceived` callback: the reset after the callback is then skipped and the transfer stays open (client/lib/fileTransferManager.ts:132-136). The model assumes the callback returns, so delivery always leaves the receiver idle.
- The candidate's content: a locally gathered ICE candidate is recorded as one candidate post (`Negotiation.WebRTCConnection.OnIceCandidate`), without its payload.
- The data channel's `binaryType`: the receiver accepts a binary frame only when it arrives as an ArrayBuffer (client/lib/fileTransferManager.ts:50), and nothing sets `binaryType`. The model assumes every binary frame arrives as an ArrayBuffer; a frame delivered as a Blob would be dropped, and `__END__` would then deliver a short file.
- Socket ids: the server tests slots by JavaScript truthiness, so an empty id would count as an empty slot. socket.io never issues an empty id, and the model treats a slot as held whenever it holds an id.
- HTTPS certificate loading and `server.listen` are not modelled.
- Concurrency: concurrent polls, socket events and channel events are not interleaved; each handler runs atomically.
