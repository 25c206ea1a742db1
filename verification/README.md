# SunoSuno call signalling — a Dafny model

SunoSuno is a chat application with one-to-one video calls and group chats.
This project models its call-signalling core and the list and string logic
around it, and proves properties of that model.

**Server side**
- **Occupancy tracker** (`ActiveCalls`). Records, for each user in a call,
  the session, the partner and the start time. An entry older than one hour
  is reclaimed in two ways: lazily when the user is queried, or by a
  periodic sweep.
- **Signalling router** (`Signaling`). Keeps the registry from user id to
  socket id. It relays offers, answers, ICE candidates, rejections and
  call ends, and it consults and updates the tracker. A per-socket flag
  limits busy notices to one per window.
- **Raw WebSocket relay** (`WebSocketRelay`). An alternative relay that
  forwards `offer`, `answer` and `ice-candidate` messages between
  connections registered under a user id taken from the URL.
- **Group endpoints** (`GroupController`). Build the member list, refuse
  non-members, and hand on the admin role when the admin leaves.

**Client side**
- **Call store** (`ClientCalls`). Holds:
  - the incoming call;
  - the FIFO queue of calls that arrive during a call;
  - a per-sender buffer of ICE candidates that arrive before a peer
    connection exists, replayed in arrival order;
  - answer validation, and the reset when a call ends.
- **Application shell's socket handlers** (`ClientDispatch`). Route each
  signalling event into the store.
- **Group store and create-group dialog** (`GroupStore`, `CreateGroupForm`).
- **HTTP client's token handling** (`AuthTokens`).

**How state is modelled**
- Objects that the source changes in place are Dafny classes: the tracker,
  the router, the relay, the call store, the group store, a group and the
  token store.
- Every store operation has a specification function `...Step` from the old
  state to the new state, the success flag and the messages sent. The
  method is proved equal to that function, and lemmas about the function
  state what the operation guarantees.
- Time is an explicit `now` argument in milliseconds. The one-second
  busy-flag reset and the five-minute sweep are explicit methods.
- Wire payloads are a small `Json` datatype. An absent JavaScript property
  is `None`. A null or absent id is the empty string wherever the source
  only tests truthiness.
- The browser's peer connection is a `Peer` value. It holds the signalling
  and connection states, the remote description and the candidates added
  to it.

## Model

| member | source | states |
|---|---|---|
| ActiveCalls.ActiveCallTracker.AddActiveCall | backend/src/lib/activeCalls.js:41-53 | returns true; the user's entry becomes (session, partner, now), replacing any earlier one; every other entry is unchanged |
| ActiveCalls.ActiveCallTracker.RemoveActiveCall | backend/src/lib/activeCalls.js:60-72 | returns true exactly when the user had an entry; the map afterwards is the old map without that key |
| ActiveCalls.ActiveCallTracker.IsUserInCall | backend/src/lib/activeCalls.js:79-96 | true exactly when an entry exists and is not older than one hour (strictly greater reclaims); a stale entry of that user is deleted, nothing else changes |
| ActiveCalls.ActiveCallTracker.GetActiveCallDetails | backend/src/lib/activeCalls.js:103-105 | the user's entry, or none; never reclaims, however old the entry |
| ActiveCalls.ActiveCallTracker.GetAllActiveCalls | backend/src/lib/activeCalls.js:111-113 | a copy with the same keys and entries, stale ones included |
| ActiveCalls.ActiveCallTracker.RemoveCallSession | backend/src/lib/activeCalls.js:120-135 | deletes exactly the entries of the session and returns how many there were |
| ActiveCalls.ActiveCallTracker.Sweep | backend/src/lib/activeCalls.js:13-32 | deletes exactly the entries older than one hour, keeps every other entry unchanged, and counts the deletions |
| ActiveCalls.AddedEntryInCall | backend/src/lib/activeCalls.js:41-53 | an entry written now reports the user in a call under that session |
| ActiveCalls.WithoutSessionExact | backend/src/lib/activeCalls.js:120-135 | an entry survives removal of a session iff it belongs to another session; survivors are unchanged; none of the session remains |
| ActiveCalls.SessionCount | backend/src/lib/activeCalls.js:120-135 | the count returned plus the surviving entries equals the size before |
| ActiveCalls.RemoveCallSessionIdempotent | backend/src/lib/activeCalls.js:120-135 | a second removal of the same session removes nothing and changes nothing |
| ActiveCalls.LazyReclaimAgreesWithSweep | backend/src/lib/activeCalls.js:79-96 | the lazy check and the sweep agree on who is still in a call; the query touches no other user |
| ActiveCalls.SweepLeavesNoStale | backend/src/lib/activeCalls.js:13-32 | after a sweep no entry is stale at the sweep's time |
| ActiveCalls.SweepMonotone | backend/src/lib/activeCalls.js:13-32 | an earlier sweep followed by a later one equals the later one alone |
| ActiveCalls.StaleBoundary | backend/src/lib/activeCalls.js:87 | an entry exactly one hour old is still in a call; one millisecond older is reclaimed |
| Signaling.SynthesizedSessionId | backend/src/lib/socket.js:143 | the made-up session id is non-empty, starts with `from_to_`, and the rest is the decimal time |
| Signaling.SynthesizedSessionIdsDiffer | backend/src/lib/socket.js:143 | ids made up for the same pair at different times differ |
| Signaling.EndCallClears | backend/src/lib/socket.js:184-199 | after `end-call` neither named party nor any leg of the session is occupied; every other entry is kept unchanged |
| Signaling.SignalingServer.ReceiverSocketId | backend/src/lib/socket.js:20-22 | a socket id is returned exactly when one is stored for the user and it is truthy, and it is the stored one |
| Signaling.SignalingServer.Connect | backend/src/lib/socket.js:27-33 | a handshake user id is registered with the new socket (last write wins) and the key set is broadcast, then broadcast again unconditionally (line 77) |
| Signaling.SignalingServer.UserOnline | backend/src/lib/socket.js:57-64 | with a user id, stores the announced socket id and broadcasts the key set; otherwise nothing |
| Signaling.SignalingServer.UserOffline | backend/src/lib/socket.js:67-74 | deletes the entry and broadcasts only when the stored socket id is the one supplied; otherwise the registry is unchanged and nothing is sent |
| Signaling.SignalingServer.NotifyBusy | backend/src/lib/socket.js:85-99 | a busy notice (message and reason "busy") goes out only while the socket's flag is clear; the flag is set afterwards |
| Signaling.SignalingServer.ResetCallFailedFlag | backend/src/lib/socket.js:95-97 | clears the socket's busy flag and nothing else |
| Signaling.SignalingServer.CallOfferEvent | backend/src/lib/socket.js:80-111 | a busy target never receives the offer (at most one busy notice per flag window); a free, present target receives it with `from` and the session id unchanged; an absent target earns the sender an offline notice without a reason |
| Signaling.SignalingServer.CallUserEvent | backend/src/lib/socket.js:114-153 | as `call-offer`, relaying `signalData`; a session id is synthesised only when none was given |
| Signaling.SignalingServer.CallAnswerEvent | backend/src/lib/socket.js:156-172 | a present target receives the answer, and only then, with a session id, both parties become occupied with each other as partner; an absent target changes nothing |
| Signaling.SignalingServer.IceCandidateEvent | backend/src/lib/socket.js:175-181 | relayed unchanged to a present target, else dropped |
| Signaling.SignalingServer.EndCallEvent | backend/src/lib/socket.js:184-209 | occupancy becomes `AfterEndCall`; `call-ended` goes to a present target; the confirmation always goes to the sender, last |
| Signaling.SignalingServer.CallRejectedEvent | backend/src/lib/socket.js:212-219 | relayed with reason and session to a present target, else dropped |
| Signaling.SignalingServer.CheckUserCallStatus | backend/src/lib/socket.js:222-231 | answers the tracker's verdict when a callback is given; the query may reclaim a stale entry |
| Signaling.SignalingServer.Disconnect | backend/src/lib/socket.js:234-246 | acts only while the registry still maps the user to this socket; then the user's occupancy and presence are removed and the key set is broadcast; a superseded socket changes nothing |
| ClientCalls.SdpProjection | frontend/src/store/useCallStore.js:61-65 | the projection has exactly the keys `sdp` and `type`, carrying the offer's values |
| ClientCalls.CallerName | frontend/src/store/useCallStore.js:51-58 | the full name of the first user with that id, else the id |
| ClientCalls.WithoutQueued | frontend/src/store/useCallStore.js:116 | keeps exactly the queued calls of other sessions |
| ClientCalls.FindQueued | frontend/src/store/useCallStore.js:347 | a queued call of that session when there is one, none otherwise |
| ClientCalls.QueueIndex | frontend/src/store/useCallStore.js:1273 | the index of the first queued call of that session, none when absent |
| ClientCalls.NormalizeCandidate | frontend/src/store/useCallStore.js:837-841 | a falsy `sdpMid` becomes null; an undefined `sdpMLineIndex` becomes null, any other value (0 and null included) is kept |
| ClientCalls.SetIncomingCallOutcome | frontend/src/store/useCallStore.js:22-108 | malformed data (null included) is refused without effect; during a connected call a busy rejection naming the session goes to the caller and the store is unchanged, and the result is false exactly when that rejection was sent (the `toast.info` after it throws); otherwise the call becomes the incoming call and nothing else changes |
| ClientCalls.WithoutQueuedAppend | frontend/src/store/useCallStore.js:116 | filtering distributes over concatenation, so the remaining calls keep their order |
| ClientCalls.RemoveIncomingCallExact | frontend/src/store/useCallStore.js:114-119 | exactly the session's calls leave the queue; the incoming call is cleared only when it is of that session |
| ClientCalls.RejectionsExact | frontend/src/store/useCallStore.js:146-155 | one refusal without a session id for each queued call of another session, addressed to its caller |
| ClientCalls.AcceptCallOutcome | frontend/src/store/useCallStore.js:128-339 | signed in, the queue and incoming call are emptied before the offer is validated; success iff the offer is valid and an answer was produced, and then the store is in the call as receiver and the last message is the answer |
| ClientCalls.AcceptCallReplaysBuffer | frontend/src/store/useCallStore.js:323-325 | on acceptance the caller's buffered candidates are applied in arrival order and only that caller's buffer is dropped |
| ClientCalls.RejectCallOutcome | frontend/src/store/useCallStore.js:341-373 | always succeeds; one refusal exactly when the target call exists and the user is signed in; afterwards that session is neither queued nor incoming |
| ClientCalls.SelectAnswerShapes | frontend/src/store/useCallStore.js:716-755 | the chosen description has `sdp` and `type`; the answer itself wins over `.answer`, which wins over `.signalData`; strings go through their parse; numbers and booleans never pass |
| ClientCalls.HandleCallAnswerOutcome | frontend/src/store/useCallStore.js:680-827 | succeeds iff a peer in have-local-offer, no session mismatch and a usable answer; then that answer is installed and the clock starts; a refusal changes nothing |
| ClientCalls.StoreEarlyAppends | frontend/src/store/useCallStore.js:829-860 | the normalised candidate is appended to the sender's list; other senders are untouched; a null candidate is refused |
| ClientCalls.ApplyStoredOutcome | frontend/src/store/useCallStore.js:862-907 | without a peer it fails and keeps the buffer; with one it applies the sender's candidates after those already applied |
| ClientCalls.EarlyCandidatesReplayInOrder | frontend/src/store/useCallStore.js:829-907 | two candidates buffered before a peer exists are applied in arrival order when replayed |
| ClientCalls.HandleIceOutcome | frontend/src/store/useCallStore.js:909-1080 | without a peer (and no matching incoming call) the candidate is buffered; with a peer a session mismatch or an unusable candidate is refused without effect; otherwise the candidate is added |
| ClientCalls.EndCallOutcome | frontend/src/store/useCallStore.js:1082-1174 | a no-op without a session; otherwise the call, peer, streams and ids are cleared, the queue and buffers kept, and `end-call` is sent as `caller or receiver`; a second endCall does nothing |
| ClientCalls.SetQueueNotifies | frontend/src/store/useCallStore.js:1176-1187 | the queue is replaced; the notification plays exactly when it grew |
| ClientCalls.SwitchOutcome | frontend/src/store/useCallStore.js:1189-1263 | a successful switch sends the end notice first and is then in the queued call with an empty queue and a fresh start time |
| ClientCalls.CallStore.SetIncomingCall | frontend/src/store/useCallStore.js:22-108 | agrees with `SetIncomingCallStep` |
| ClientCalls.CallStore.RemoveIncomingCall | frontend/src/store/useCallStore.js:114-119 | agrees with `RemoveIncomingCallState` |
| ClientCalls.CallStore.ClearIncomingCalls | frontend/src/store/useCallStore.js:121-126 | empties the queue and the incoming call, nothing else |
| ClientCalls.CallStore.ApplyStoredIceCandidates | frontend/src/store/useCallStore.js:862-907 | the loop agrees with `ApplyStoredStep` |
| ClientCalls.CallStore.RejectOthers | frontend/src/store/useCallStore.js:146-155 | the loop sends exactly `Rejections` of the queue |
| ClientCalls.CallStore.AcceptCall | frontend/src/store/useCallStore.js:128-339 | agrees with `AcceptCallStep` |
| ClientCalls.CallStore.RejectCall | frontend/src/store/useCallStore.js:341-373 | agrees with `RejectCallStep` |
| ClientCalls.CallStore.HandleCallAnswer | frontend/src/store/useCallStore.js:680-827 | agrees with `HandleCallAnswerStep` |
| ClientCalls.CallStore.StoreEarlyIceCandidate | frontend/src/store/useCallStore.js:829-860 | agrees with `StoreEarlyStep` |
| ClientCalls.CallStore.HandleIceCandidate | frontend/src/store/useCallStore.js:909-1080 | agrees with `HandleIceStep` |
| ClientCalls.CallStore.EndCall | frontend/src/store/useCallStore.js:1082-1174 | agrees with `EndCallStep` |
| ClientCalls.CallStore.SetIncomingCallsQueue | frontend/src/store/useCallStore.js:1176-1187 | agrees with `SetQueueStep` |
| ClientCalls.CallStore.SwitchToQueuedCall | frontend/src/store/useCallStore.js:1189-1263 | agrees with `SwitchStep` |
| ClientCalls.CallStore.CallDuration | frontend/src/store/useCallStore.js:1265-1269 | 0 before the call starts, else the whole seconds elapsed (floor) |
| ClientCalls.CallStore.QueuedCallWaitTime | frontend/src/store/useCallStore.js:1271-1276 | 30 times the index of the first queued call of the session, 0 when absent |
| ClientDispatch.EffectiveSessionId | frontend/src/App.jsx:179 | the payload's id, else the current call's id, else the incoming call's id; empty exactly when all three are |
| ClientDispatch.IceRouting | frontend/src/App.jsx:182-220 | a candidate with an effective session id is handled under it; a buffered one has none; without one it is buffered unless the user is in a call and the sender is unknown |
| ClientDispatch.CallFailedToast | frontend/src/App.jsx:285-296 | the busy text for reason "busy", else the message, else a generic text |
| ClientDispatch.ServerNoticesShown | frontend/src/App.jsx:285-303 | with `toast` in scope and `handleCallFailed` kept registered, however often `isCallActive` changed, the server's busy notice shows the busy text, its offline notice its message, and a rejection the rejection text |
| ClientDispatch.CallFailedListenerRemoved | frontend/src/App.jsx:258-268 | as written, `handleCallFailed` is registered before any call, and after the first change of `isCallActive` the cleanup's `off("call-failed")` has removed it, so no call-failed notice is shown, with or without `toast` |
| ClientDispatch.AppNoticesNeverShown | frontend/src/App.jsx:19 | as written (only `Toaster` imported) no call-failed or call-rejected notice is shown, the server's busy notice included |
| ClientDispatch.OffersQueueInArrivalOrder | frontend/src/App.jsx:106-116 | any run of offers arriving during a call, each heard by one listener, joins the end of the queue in arrival order and nothing else changes |
| ClientDispatch.ListenersQueueCopies | frontend/src/App.jsx:106-116 | an offer during a call heard by `k` listeners enters the queue `k` times |
| ClientDispatch.OfferDuringCallQueuedTwice | frontend/src/App.jsx:258-268 | as written (the cleanup leaves the `call-offer` listener), once the effect has run again for an active call a single offer is queued twice |
| ClientDispatch.OfferDuringCallQueuedOnce | frontend/src/App.jsx:258-268 | with the cleanup removing the `call-offer` listener, an offer during a call is queued exactly once however often the effect ran |
| ClientDispatch.OnCallOffer | frontend/src/App.jsx:94-133 | during a call the offer is appended to the queue; otherwise the store's `setIncomingCall` step is taken, whose refusal leaves the store unchanged |
| ClientDispatch.OnCallUser | frontend/src/App.jsx:136-143 | re-emits a `call-offer` with the same offer, sender and session |
| ClientDispatch.OnCallAnswer | frontend/src/App.jsx:146-166 | handed to `handleCallAnswer` exactly when the view shows an active call and the answer is truthy; otherwise nothing changes |
| ClientDispatch.OnIceCandidate | frontend/src/App.jsx:169-221 | routes by `IceRouteFor` and then takes the buffering or handling step |
| ClientDispatch.OnEndCall | frontend/src/App.jsx:224-227 | the store is left unchanged, because `setIncomingCall(null)` is refused |
| ClientDispatch.OnCallRejected | frontend/src/App.jsx:230-234 | shows the rejection text only when `toast` is in scope (it throws otherwise); the store is left unchanged either way |
| ClientDispatch.OnCallFailed | frontend/src/App.jsx:285-296 | shows `CallFailedToast` only when `toast` is in scope (it throws otherwise); the store is left unchanged either way |
| ClientDispatch.OnCallEnded | frontend/src/App.jsx:307-310 | the store is left unchanged |
| ClientDispatch.OnCallEndedConfirmation | frontend/src/App.jsx:312-316 | ends the call through `EndCallStep` |
| WebSocketRelay.UserIdFromUrl | backend/src/lib/websocket.js:12 | none exactly when the URL has no `?userId=`; the id contains no marker |
| WebSocketRelay.UserIdRoundTrip | backend/src/lib/websocket.js:12 | `path + "?userId=" + u` yields `u` when neither contains the marker |
| WebSocketRelay.Route | backend/src/lib/websocket.js:26-43 | throws exactly on null data; relays exactly offer, answer and ice-candidate messages whose target is registered, to that connection, with the receiving connection's own user id as sender and the payload unchanged |
| WebSocketRelay.AfterClose | backend/src/lib/websocket.js:20-22 | the closing user id is unregistered whoever holds it; other entries are kept |
| WebSocketRelay.AfterGuardedClose | backend/src/lib/websocket.js:20-22 | the entry is removed only while it belongs to the closing connection |
| WebSocketRelay.ConnectedUserReachable | backend/src/lib/websocket.js:11-18 | an offer to a user reaches the connection that registered last under that id |
| WebSocketRelay.StaleCloseUnregistersNewer | backend/src/lib/websocket.js:20-22 | as written, the old connection's close leaves a reconnected user unreachable |
| WebSocketRelay.GuardedCloseKeepsNewer | backend/src/lib/websocket.js:20-22 | with the guard the reconnected user stays reachable; the current connection's own close still unregisters it |
| WebSocketRelay.WebSocketServer.OnConnection | backend/src/lib/websocket.js:11-13 | registers the connection under the URL's id, replacing any earlier one |
| WebSocketRelay.WebSocketServer.OnMessage | backend/src/lib/websocket.js:15-18 | delivers per `Route` for the connection's own id |
| WebSocketRelay.WebSocketServer.OnClose | backend/src/lib/websocket.js:20-22 | registry becomes `AfterClose` |
| WebSocketRelay.WebSocketServer.OnCloseGuarded | backend/src/lib/websocket.js:20-22 | registry becomes `AfterGuardedClose` |
| GroupController.NewGroupMembers | backend/src/controllers/group.controller.js:30 | the admin first, then the chosen members in order, duplicates kept |
| GroupController.CreateGroup | backend/src/controllers/group.controller.js:20-49 | a new group with that member list; a `groupCreated` event is emitted to room `user_<id>` for each member |
| GroupController.CreatorIsMember | backend/src/controllers/group.controller.js:25-31 | the creator and every chosen member belong to the new group |
| GroupController.SendGroupMessage | backend/src/controllers/group.controller.js:68-115 | a missing group gives 500 and nothing is stored, returned or pushed; a non-member is refused with 403 and nothing is stored or sent; a member's message is stored encrypted with `readBy == [sender]`, returned decrypted, and a `newGroupMessage` event is emitted to room `user_<id>` for each member |
| GroupController.MessagesOf | backend/src/controllers/group.controller.js:129-132 | exactly the stored messages of the group |
| GroupController.GetGroupMessages | backend/src/controllers/group.controller.js:118-144 | a non-member gets 403 and nothing; a member gets the group's messages in order with their text decrypted |
| GroupController.NextAdmin | backend/src/controllers/group.controller.js:167-169 | the first remaining member when the admin leaves and someone remains, else the admin unchanged |
| GroupController.LeaveGroup | backend/src/controllers/group.controller.js:147-183 | 404 without a group, 400 for a non-member (no change); otherwise every occurrence of the user is removed, the admin is handed on, and a `groupUpdated` event is emitted to room `user_<id>` for each remaining member |
| GroupController.LeaveKeepsOthers | backend/src/controllers/group.controller.js:164 | every other member keeps its multiplicity; no copy of the leaving user remains |
| GroupController.AdminRemainsMember | backend/src/controllers/group.controller.js:164-169 | if anyone remains after a leave, the admin is one of them |
| GroupStore.CreateGroupRequest | frontend/src/store/useGroupStore.js:42-73 | posts exactly when a name, a non-empty member list and a token exist; a missing field is refused before the token is checked |
| GroupStore.LooksEncryptedIsMark | frontend/src/store/useGroupStore.js:165 | the cipher-text test holds exactly when the text contains "U2F" |
| GroupStore.PlainText | frontend/src/store/useGroupStore.js:162-174 | text without "U2F" is shown as it is; text with it is replaced by what decryption produced when decryption succeeds; a failed decryption leaves the text as it is |
| GroupStore.DedupAppend | frontend/src/store/useGroupStore.js:177-185 | appends the message unless one with its id is already present |
| GroupStore.DedupAppendKeepsIdsUnique | frontend/src/store/useGroupStore.js:177-185 | ids stay unique, the id is present afterwards, and a redelivery changes nothing |
| GroupStore.MergeProfile | frontend/src/store/useGroupStore.js:224-229 | response fields win; fields absent from the response are kept |
| GroupStore.GroupStore.SubscribeToGroupMessages | frontend/src/store/useGroupStore.js:149-159 | subscribes only with a selected group and a socket, remembering that group's id |
| GroupStore.GroupStore.OnNewGroupMessage | frontend/src/store/useGroupStore.js:159-185 | a message of another group is ignored; one of the subscribed group is decrypted if needed and appended per `DedupAppend` |
| GroupStore.GroupStore.LeaveGroup | frontend/src/store/useGroupStore.js:197-215 | on success the selection is cleared only when it is the group left |
| GroupStore.GroupStore.UpdateGroupProfile | frontend/src/store/useGroupStore.js:217-239 | on success the selection becomes `MergeProfile` of the response; on failure nothing changes |
| CreateGroupForm.ToggleMember | frontend/src/components/CreateGroupModal.jsx:44-50 | a selected id is filtered out everywhere, leaving the others in order with their multiplicity; an unselected one is appended at the end |
| CreateGroupForm.ToggleTwiceRestores | frontend/src/components/CreateGroupModal.jsx:44-50 | toggling an unselected id twice restores the selection |
| CreateGroupForm.Submit | frontend/src/components/CreateGroupModal.jsx:14-42 | refused without a request when the trimmed name is empty (name error) or else nobody is selected (member error); otherwise sends the trimmed name and description and resets the form on success |
| CreateGroupForm.SubmittedRequestPassesStoreCheck | frontend/src/components/CreateGroupModal.jsx:17-25 | a request the form sends always passes the store's field check; a name of blanks is refused by the form |
| Common.RemoveAll | backend/src/controllers/group.controller.js:164 | the result has no copy of the element and keeps every other element |
| Common.RemoveAllCount | backend/src/controllers/group.controller.js:164 | every other element keeps its multiplicity |
| Common.RemoveAllAppend | frontend/src/components/CreateGroupModal.jsx:46 | filtering distributes over concatenation |
| Common.Field | backend/src/lib/websocket.js:29 | a property is present exactly when the value is an object holding that key |
| Strings.IndexOf | frontend/src/lib/axios.js:18 | the first occurrence of the pattern, none exactly when it does not occur |
| Strings.SplitJoin | frontend/src/lib/axios.js:16 | joining the pieces of a split with the separator gives back the string |
| Strings.SplitPiecesFree | frontend/src/lib/axios.js:16 | no piece of a split contains the separator |
| Strings.SplitFirstPieces | backend/src/lib/websocket.js:12 | the first piece is the text before the first separator, the second the text up to the next one |
| Strings.NatToStringInjective | backend/src/lib/socket.js:143 | different times render as different decimal strings |
| Strings.TrimEmpty | frontend/src/components/CreateGroupModal.jsx:17 | a string trims to empty exactly when it is all whitespace |
| AuthTokens.FirstJwtCookie | frontend/src/lib/axios.js:17 | the index of the first cookie starting with `jwt=`, none when there is none |
| AuthTokens.TokenFromCookies | frontend/src/lib/axios.js:15-19 | none exactly without a `jwt=` cookie; otherwise the text of the first one between `jwt=` and the next `=`, which contains no `=` |
| AuthTokens.TokenCookieRoundTrip | frontend/src/lib/axios.js:15-19 | the cookie `jwt=t` reads back as `t` |
| AuthTokens.RequestToken | frontend/src/lib/axios.js:31-34 | a truthy cookie token wins over a truthy stored token; none when neither is truthy |
| AuthTokens.ResponseToken | frontend/src/lib/axios.js:59-72 | the rest of a `Bearer ` header wins; else the body's token; none when neither is non-empty |
| AuthTokens.RequestAuthorization | frontend/src/lib/axios.js:22-49 | login and signup requests are left alone; otherwise `Bearer <token>` exactly when a token exists |
| AuthTokens.BearerRoundTrip | frontend/src/lib/axios.js:63-64 | a header `Bearer t` reads back as `t` |
| AuthTokens.SentAuthorization | frontend/src/lib/axios.js:22-49 | a request goes out with the interceptor's bearer header when it sets one, else with the default header (always so for login and signup) |
| AuthTokens.StoredTokenUsedNext | frontend/src/lib/axios.js:31-41 | with no cookie token, a stored token is what the next request carries; after a 401 the interceptor adds no header, but the default header set at line 80 still sends the old bearer |
| AuthTokens.TokenStore.OnRequest | frontend/src/lib/axios.js:22-49 | the request goes out with `SentAuthorization` of the stored token and the default header |
| AuthTokens.TokenStore.OnResponse | frontend/src/lib/axios.js:52-84 | a token found is stored and becomes the default header; otherwise nothing changes |
| AuthTokens.TokenStore.OnResponseError | frontend/src/lib/axios.js:85-102 | a 401 removes the stored token; the default header is kept |

## Left out

- WebRTC and media are not modelled: `getUserMedia`, tracks, `createAnswer`, and the description and candidate calls on a real peer connection. A peer is a value. Adding a candidate always succeeds, so the error path of `addIceCandidate` (useCallStore.js:886-888) is absent. The created answer, or a failure to get media or a description, is the `setup` argument of `AcceptCall`.
- `peer.onconnectionstatechange`, `ontrack` and `onicecandidate` callbacks are not modelled; they fire from the browser.
- Transport is not modelled: delivery, ordering across connections and concurrency. Emitted events are returned as sequences.
- Timers are not modelled: `setTimeout`, `setInterval`, the 500 ms delays and `Date.now()`. Time is the `now` argument; the one-second reset and the sweep are explicit calls.
- MongoDB, Cloudinary and CryptoJS are arguments: a `Group` object, the stored messages, `upload`, `encrypt` and `decrypt`. Their own behaviour is not part of this model.
- `JSON.parse` (useCallStore.js answer strings, websocket.js messages) is outside the model: the parsed value is an input, and a parse failure in the raw relay is not modelled.
- JSON numbers are integers, and `null` and `undefined` ids are merged into "" where the source tests only truthiness. `Signaling.SynthesizedSessionId` also interpolates the ids, so a missing `from` gives `_<to>_<now>` in the model where the source renders `undefined_<to>_<now>`.
- The order of `Object.keys` in the `online-users` broadcast is a set.
- Toasts other than the call-failed and call-rejected ones in App.jsx are not modelled; in the call store (useCallStore.js:86) the one toast that matters, `toast.info`, is modelled by the false result it causes. Logging, navigation, the 401 redirect and the notification sound are not modelled. The sound's trigger is the `notify` result.
- The `toast.error` for a missing answer (App.jsx:157) throws as well; the handler stops there either way, so `ClientDispatch.OnCallAnswer` is unaffected.
- `AuthTokens.StoredTokenUsedNext`: the redirect after a 401 (axios.js:98) reloads the page, which resets the default header; the reload is not modelled, so the lemma speaks of requests sent before it.
- `ClientDispatch.OnCallOffer` is one listener handling one offer. After a call has started, App.jsx has a listener per run of its socket effect since the call page last cleaned up (CallPage.jsx:134 calls `off("call-offer")`, which removes App's listeners as well), so the store sees that step once per listener; `ClientDispatch.OfferDuringCallQueuedTwice` states the resulting duplicate queue entries for the caller's first call, before any call-page cleanup. `ClientDispatch.CallOfferListeners` counts the runs since that cleanup; the call page's own lifecycle is not modelled.
- `ClientDispatch.OnCallFailed` is the handler's body once it runs; whether it runs is `ClientDispatch.CallFailedListening`, which counts cleanups of the main socket effect and does not model a change of socket, after which the socket-only effect registers the handler again.
- App.jsx registers its socket handlers inside an effect, and the `call-answer` handler reads `isCallActive` from the render it was registered in. That value is the `viewActive` argument, not the store's field; the accumulation of `call-offer` listeners is modelled by a count (see Findings). The `connect`, `disconnect` and `online-users` listeners, which the cleanup also leaves, accumulate as well; this is not modelled.
- `ClientDispatch.OnCallUser` re-emits the offer without a `to` field, as the source does; the server's handling of that message is not modelled.
- In the ICE routing, the branch for an incoming call from the same sender (App.jsx:185-200) can only run when that incoming call has no session id, which `setIncomingCall` never stores. `ClientDispatch.IceRouting` states this and the branch is modelled as written.
- `startCall`, `handleIncomingCall` and the `queuedCallNotifications` field of the call store are not modelled; they are call set-up through the browser's media APIs.
- The group-room socket handlers (`join-group`, `leave-group`, `group-message`) are not modelled; they only forward to socket.io rooms.
- A non-string `response.data.token` is not modelled: the body's token is a string, "" when absent.
- The refresh of the group list after a group store action (`getGroups`) is not modelled; it is a network call.
- `GroupController.CreateGroup`, `GroupController.SendGroupMessage`, `GroupController.LeaveGroup`: `notified` is the list of `user_<id>` rooms an event is addressed to, not the users who receive it. No socket ever joins a `user_` room: the only connection handler (socket.js:24-46) joins `group_<id>` rooms and nothing else. As written, these events therefore reach no one.
- `GroupController.SendGroupMessage` and `GroupController.GetGroupMessages`: a missing group is answered with status 500, which stands for the exception the handler raises; the error body is not modelled.
- `ClientCalls.CallStore.CallDuration`: the result is stated by floor bounds on the elapsed milliseconds; `Date.now()` is the `now` argument.

## Findings

| source | as written | input that shows it | evidently intended | confidence | as-written member | corrected member |
|---|---|---|---|---|---|---|
| backend/src/lib/websocket.js:20-22 | a closing connection deletes `clients[userId]` whoever holds it now | user `u` connects as A, reconnects as B, then A closes: `u` is unregistered and offers to `u` are dropped | delete only when the entry still holds the closing connection, as the socket.io server does for disconnects (backend/src/lib/socket.js:237) | medium, not executed | WebSocketRelay.StaleCloseUnregistersNewer | WebSocketRelay.GuardedCloseKeepsNewer |
| frontend/src/App.jsx:19 | App.jsx imports only `Toaster`, yet its `call-rejected` handler (line 232) and `call-failed` handler (lines 289-291) call `toast.error`; the call throws before any text appears and before `setIncomingCall(null)` | the server's busy notice `call-failed {reason: "busy"}`: the caller sees nothing | import `toast` as well, so that the rejection text is shown; for `call-failed` the cleanup at line 265 must also stop removing `handleCallFailed` (see the next row) before the busy text and the offline message are shown | high, not executed | ClientDispatch.AppNoticesNeverShown | ClientDispatch.ServerNoticesShown |
| frontend/src/App.jsx:265 | the main socket effect's cleanup calls `socket.off("call-failed")` without a handler, removing every `call-failed` listener, including `handleCallFailed` from the effect at lines 285-303, which depends only on `socket` and never registers it again; the main effect is cleaned up whenever `isCallActive` changes | a caller starts a call (`startCall` sets `isCallActive`, useCallStore.js:540-548) to a busy user: the server's busy notice arrives after the cleanup and no listener hears it | remove only the main effect's own listeners (or pass the handler to `off`), so `handleCallFailed` stays registered | medium, not executed | ClientDispatch.CallFailedListenerRemoved | ClientDispatch.ServerNoticesShown |
| frontend/src/App.jsx:258-268 | the socket effect re-runs whenever `isCallActive` changes, and each run registers a `call-offer` listener (line 94); its cleanup removes the other call listeners but never `call-offer` | sign in, then start a call: the effect runs a second time, and an offer arriving during the call is appended to the queue once per listener, i.e. twice | one `call-offer` listener at a time (`socket.off("call-offer")` in the cleanup), so each offer is queued once | medium, not executed | ClientDispatch.OfferDuringCallQueuedTwice | ClientDispatch.OfferDuringCallQueuedOnce |
