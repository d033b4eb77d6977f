# astro-frontend call signalling and page logic, in Dafny

This project models the browser front end of an astrology consultation service. The front end is written in React. Its centre is the WebRTC call signalling, which is spread over five page variants:

- **VideoPage**: trickles candidates through one shared buffer, which `createPeer` empties.
- **VoicePage**: no buffer at all.
- **CallerVideoPage**: answers. It sends its answer with a vaulted batch of candidates. "Vaulted" means collected until the platform's null end-of-gathering marker, then sent all at once.
- **CalleeVideoPage**: offers, with a vaulted batch, and carries the in-call controls.
- **AstrologerDashboard**: answers offers on a connection it creates on the first offer.

Around the signalling sit smaller pieces of sequential logic:

- the auth store and the login page's role routing;
- chat room ids and the chat hooks;
- the booking page's date formatting and request bodies;
- the dashboards' carousel;
- the unread-message table;
- the support form;
- the admin user forms, list and status toggle.

Each file models one source file, except for five shared modules:

- **`Rtc`**: the platform pieces.
  - Session descriptions and candidates are opaque tokens. Each carries a `valid` flag, which decides whether the platform accepts it.
  - `PeerConnection` is a class. It holds the local and remote descriptions, the applied candidates, a closed flag and the senders' tracks.
  - It rejects candidates before a remote description is set and after `close()`.
  - It refuses `createAnswer` without a remote offer. This is the offer-then-answer order of RFC 3264 (section 5, generating the offer; section 6, generating the answer).
  - `MediaTrack` is a class, because streams and senders share tracks by reference.
- **`Channel`**: the socket.io channel, seen as an append-only outbox of typed messages.
- **`Text`**: `String(n)`, `padStart`, one-character `split`, `trim`, `Number(s)` and JavaScript's `||`.
- **`Carousel`**: the modular index and the three-card window.
- **`Wrappers`**: the `Option` type used for missing values.

Every socket event or user action is a method on the page's class. Media acquisition, descriptions, fetch replies and platform events are method inputs. Each page variant is modelled as written, so the differences between them are properties of the model:

- VideoPage's own candidates gathered before the answer loop back into its own connection (`VideoPage.OwnCandidateLoopsBack`).
- Candidates that reach VideoPage before an offer are discarded (`VideoPage.EarlyCandidatesDropped`).
- AstrologerDashboard loses candidates that arrive before its first offer (`AstrologerDashboard.EarlyCandidatesLost`).
- CallerVideoPage's answer carries exactly the gathered batch (`CallerVideoPage.AnswerCarriesGathered`).

## Model

| member | source | states |
|---|---|---|
| Rtc.MediaTrack.constructor | src/pages/VideoPage.jsx:19-22 | a track `getUserMedia` yields has its kind, is enabled and is not stopped |
| Rtc.OfKind | src/pages/CalleeVideoPage.jsx:231 | `getAudioTracks`/`getVideoTracks`: contains every track of that kind and only such tracks; distinct tracks stay distinct; its first element is the first track of that kind in the stream |
| Rtc.OfKindConcat | src/pages/CalleeVideoPage.jsx:231 | selection keeps stream order: the tracks of kind `k` in `a + b` are those of `a` followed by those of `b` |
| Rtc.FirstOfKind | src/pages/CalleeVideoPage.jsx:255 | `getVideoTracks()[0]`: the first video track of the stream (every earlier track has another kind), or none exactly when the stream holds no video track |
| Rtc.FlipEnabled | src/pages/CalleeVideoPage.jsx:231-233 | the forEach flips `enabled` on every listed track and leaves `stopped` alone |
| Rtc.StopAll | src/pages/CalleeVideoPage.jsx:279 | the forEach stops every listed track and leaves `enabled` alone |
| Rtc.PeerConnection.constructor | src/pages/VideoPage.jsx:114 | a new connection has no descriptions, no candidates and no senders, and is open |
| Rtc.PeerConnection.CreateOffer | src/pages/VideoPage.jsx:108 | an offer is produced exactly when the connection is open |
| Rtc.PeerConnection.CreateAnswer | src/pages/VideoPage.jsx:64 | an answer is produced exactly when a remote description is set and the connection is open |
| Rtc.PeerConnection.SetLocalDescription | src/pages/VideoPage.jsx:109 | succeeds exactly for a valid description on an open connection; nothing else changes |
| Rtc.PeerConnection.SetRemoteDescription | src/pages/VideoPage.jsx:52 | succeeds exactly for a valid description on an open connection; nothing else changes |
| Rtc.PeerConnection.AddIceCandidate | src/pages/VideoPage.jsx:87 | accepted exactly when a remote description is set, the connection is open and the candidate is valid; an accepted candidate is appended |
| Rtc.PeerConnection.AddTrack | src/pages/VideoPage.jsx:139-143 | appends the track unless the connection is closed or the track is already sent |
| Rtc.PeerConnection.FirstVideoSender | src/pages/CalleeVideoPage.jsx:256 | the `find`: the first sender whose track is video, or none when no sender's track is video |
| Rtc.PeerConnection.ReplaceTrack | src/pages/CalleeVideoPage.jsx:257 | only that sender's track changes, and nothing changes once closed |
| Rtc.PeerConnection.Close | src/pages/VideoPage.jsx:102 | the connection is closed; everything else is kept |
| Rtc.FirstVideoFrom | src/pages/CalleeVideoPage.jsx:256 | the first video sender at or after an index, or none |
| Rtc.AddTracks | src/pages/VideoPage.jsx:139-143 | succeeds exactly when the connection is open (or there are no tracks) and no track is already sent; then every track is appended in order; on a failure a proper prefix of the tracks is attached |
| Rtc.Usable | src/pages/VideoPage.jsx:55-61 | the candidates the platform accepts: a candidate is kept exactly when it is valid, and nothing is added |
| Rtc.UsableConcat | src/pages/VideoPage.jsx:55-61 | filtering works piecewise over a concatenation, so buffer order is kept |
| Rtc.UsableAllValid | src/pages/VideoPage.jsx:55-61 | nothing is dropped from an all-valid batch |
| Rtc.ApplyCandidates | src/pages/VideoPage.jsx:73-80 | the flush loop with per-candidate catch: the connection takes exactly the usable candidates in order, and none when it accepts no candidates |
| Rtc.Vaulted | src/pages/CallerVideoPage.jsx:86-96 | the vaulted batch: absent exactly when no end marker comes, and always shorter than the event list |
| Rtc.VaultedBatch | src/pages/CallerVideoPage.jsx:86-96 | the batch is exactly the candidates reported before the marker; later events are ignored |
| Rtc.GatherUntilEnd | src/pages/CalleeVideoPage.jsx:82-92 | the gathering handler's loop yields exactly `Vaulted(events)` |
| Channel.Socket.constructor | src/pages/VideoPage.jsx:33-36 | a new socket is open with an empty outbox |
| Channel.Socket.Emit | src/pages/VideoPage.jsx:42 | appends the message to the outbox |
| Channel.Socket.Disconnect | src/pages/VideoPage.jsx:101 | closes the socket and keeps the outbox |
| Text.Decimal | src/pages/CalleeVideoPage.jsx:354 | `String(n)`: at least one digit, all digits, no leading zero unless `n` is 0 |
| Text.DecimalRoundTrip | src/pages/CalleeVideoPage.jsx:354 | parsing the rendering of `n` gives `n` |
| Text.DecimalLength | src/pages/BookingDetail.jsx:33 | one digit below 10, two below 100, four for 1000 to 9999 |
| Text.PadStart | src/pages/BookingDetail.jsx:34 | `padStart`: the length is the larger of the original length and the width; the original is a suffix; the rest is fill |
| Text.TwoDigits | src/pages/BookingDetail.jsx:34-35 | `padStart(2, '0')` of the decimal rendering; `TwoDigitsValue` shows that below 100 it is two digits reading back as the number |
| Text.TwoDigitsValue | src/pages/BookingDetail.jsx:34-35 | below 100 the padded rendering is two digits and reads back as the number |
| Text.Split | src/pages/ChatPage.jsx:13 | `split`: at least one piece, none containing the separator |
| Text.SplitJoin | src/pages/ChatPage.jsx:13 | splitting a join of separator-free pieces gives the pieces back |
| Text.JoinSplit | src/pages/ChatPage.jsx:13 | joining the pieces of a split gives the string back |
| Text.TrimStart | src/hooks/useChat.jsx:28 | the result is empty or starts with a non-space |
| Text.TrimEnd | src/hooks/useChat.jsx:28 | the result is empty or ends with a non-space |
| Text.TrimStartEmptyIffBlank | src/hooks/useChat.jsx:28 | trimming the front empties a string exactly when it is all white space |
| Text.Trim | src/pages/CalleeVideoPage.jsx:294 | `trim()`: white space removed at both ends; `TrimEmptyIffBlank` shows the result is empty exactly for a blank string |
| Text.TrimEmptyIffBlank | src/hooks/useChat.jsx:28 | `!s.trim()` holds exactly of all-white-space strings |
| Text.Or | src/pages/CallerVideoPage.jsx:15-17 | `s \|\| default`: the string when present and non-empty, otherwise the default |
| Text.JsNumber | src/pages/BookingDetail.jsx:49 | `Number(s)` of a decimal digit string is its value |
| Text.JsNumberBlank | src/pages/BookingDetail.jsx:49 | `Number(s)` of an empty or white-space string is 0 |
| VideoPage.Page.constructor | src/pages/VideoPage.jsx:7-13 | no socket, no connection, flag down, empty buffer |
| VideoPage.Page.Init | src/pages/VideoPage.jsx:16-36 | without media: alert, and no socket or connection; with media: stream kept and fresh socket |
| VideoPage.Page.OnConnect | src/pages/VideoPage.jsx:40-43 | emits `join-room` "video-room" |
| VideoPage.Page.CreatePeer | src/pages/VideoPage.jsx:113-143 | fresh open connection sending every local track; flag down; buffer empty; the previous connection is not closed |
| VideoPage.Page.OnUserJoined | src/pages/VideoPage.jsx:106-111 | `startCall`: fresh connection, offer set as local, then one `offer` to that user; no emit when the offer is rejected; the local stream and the alert flag stay |
| VideoPage.Page.OnOffer | src/pages/VideoPage.jsx:50-67 | fresh connection first, so earlier buffered candidates are lost; remote set, flag up, buffer empty; answer set as local and sent to `from`; a rejected offer ends the handler with the flag down; the local stream and the alert flag stay |
| VideoPage.Page.OnAnswer | src/pages/VideoPage.jsx:69-81 | accepted: remote set, flag up, buffer flushed (the usable ones applied, in order) and emptied; rejected: the remote, flag, buffer and candidates stay; local, closed and senders, the peer, the stream and the alert flag never change |
| VideoPage.Page.OnRemoteCandidate | src/pages/VideoPage.jsx:83-95 | applied at once when the flag is up, otherwise appended to the buffer and not applied; the connection's descriptions, closed flag and senders, the peer, the stream and the alert flag stay |
| VideoPage.Page.OnLocalCandidate | src/pages/VideoPage.jsx:119-130 | sent to the captured peer, which stays, only when the flag is up; otherwise appended to the same buffer; the stream and the alert flag stay |
| VideoPage.Page.Unmount | src/pages/VideoPage.jsx:100-103 | disconnects and closes; no local track is stopped |
| VideoPage.OwnCandidateLoopsBack | src/pages/VideoPage.jsx:119-130 | on the offerer, a candidate gathered before the answer ends up applied to its own connection, and only the offer is ever sent |
| VideoPage.EarlyCandidatesDropped | src/pages/VideoPage.jsx:51 | candidates buffered before an offer are neither applied nor kept; only the answer is sent |
| VoicePage.Page.constructor | src/pages/VoicePage.jsx:6-8 | no socket, no connection, no stream |
| VoicePage.Page.Init | src/pages/VoicePage.jsx:12-27 | microphone refused: alert and no socket; granted: stream kept and fresh socket |
| VoicePage.Page.OnConnect | src/pages/VoicePage.jsx:31-34 | emits `join-room` "test-room" |
| VoicePage.Page.CreatePeer | src/pages/VoicePage.jsx:85-95 | fresh open connection sending every local track; the old one is not closed |
| VoicePage.Page.OnUserJoined | src/pages/VoicePage.jsx:77-83 | offer created and set as local, and only then emitted to that user; the local stream and the alert flag stay |
| VoicePage.Page.OnOffer | src/pages/VoicePage.jsx:41-48 | fresh connection; remote set before the answer; answer set as local and emitted to `from`; the local stream and the alert flag stay |
| VoicePage.Page.OnAnswer | src/pages/VoicePage.jsx:50-53 | only the remote description changes: candidates, local, closed and senders stay |
| VoicePage.Page.OnRemoteCandidate | src/pages/VoicePage.jsx:55-62 | handed to the connection at once, with no buffer; one that arrives before the remote description is lost; descriptions, closed flag and senders stay |
| VoicePage.Page.OnLocalCandidate | src/pages/VoicePage.jsx:88-95 | every non-null candidate is sent to the captured peer at once |
| VoicePage.Page.Unmount | src/pages/VoicePage.jsx:71-74 | disconnects and closes the current connection only; the microphone is not stopped |
| CallerVideoPage.Page.constructor | src/pages/CallerVideoPage.jsx:15-17 | missing or empty parameters default to "video-room", "astrologer" and "callee" |
| CallerVideoPage.Page.Init | src/pages/CallerVideoPage.jsx:28-47 | media refused: alert and return before the socket exists |
| CallerVideoPage.Page.OnConnect | src/pages/CallerVideoPage.jsx:50-62 | `join-room`, then `video-call-request` from the socket id to the recipient, whatever the role |
| CallerVideoPage.Page.CreatePeer | src/pages/CallerVideoPage.jsx:173-192 | fresh connection with every local track, flag down, buffer empty; only a non-initiator gets the trickle handler |
| CallerVideoPage.Page.OnOffer | src/pages/CallerVideoPage.jsx:65-104 | remote set, flag up, the usable batched candidates applied in order; answer set as local; then exactly one `answer` to `calleeId` carrying the vaulted batch, and none when gathering never ends or an earlier step fails; the local stream and the alert flag stay |
| CallerVideoPage.Page.OnAnswer | src/pages/CallerVideoPage.jsx:106-121 | for role "caller": remote set, flag up, buffer flushed in order and emptied, and a rejected answer keeps them; for any other role nothing changes; local, closed and senders, the peer, the stream and the alert flag never change |
| CallerVideoPage.Page.OnRemoteCandidate | src/pages/CallerVideoPage.jsx:123-136 | applied at once when the flag is up, otherwise queued; descriptions, closed flag and senders, the peer, the stream and the alert flag stay |
| CallerVideoPage.Page.OnLocalCandidate | src/pages/CallerVideoPage.jsx:179-191 | the trickle handler sends to the peer or buffers; with no handler, or once vaulting, nothing is sent; the peer, the stream and the alert flag stay |
| CallerVideoPage.Page.StartCall | src/pages/CallerVideoPage.jsx:147-171 | initiator connection, offer set as local, then one `offer` with the vaulted batch under `candidates`; the local stream and the alert flag stay |
| CallerVideoPage.Page.Unmount | src/pages/CallerVideoPage.jsx:141-144 | disconnects and closes; no track is stopped |
| CallerVideoPage.AnswerCarriesGathered | src/pages/CallerVideoPage.jsx:50-103 | a whole answering exchange: the outbox is `join-room`, the request, and one answer carrying exactly the gathered candidates; every usable offered candidate is applied |
| CalleeVideoPage.Page.constructor | src/pages/CalleeVideoPage.jsx:35-58 | mount: socket and connection exist at once with the trickle handler; status "waiting"; no timer runs |
| CalleeVideoPage.Page.OnConnect | src/pages/CalleeVideoPage.jsx:121-125 | `join-room` with the caller as recipient, then whatever `initializeCall` emits; the state afterwards is exactly what `InitializeCall` ensures |
| CalleeVideoPage.Page.InitializeCall | src/pages/CalleeVideoPage.jsx:68-118 | local tracks added and the offer set as local; exactly when media, tracks, offer and an ended gathering all succeed, one `offer` goes out with the vaulted batch and the room, caller and callee ids, and the call becomes active and "connected" with one more running timer; otherwise nothing is sent and the timers stay; no media, a failed `addTrack` (closed connection or a track already sent, leaving a prefix attached) or a rejected offer sets "error"; a gathering that never ends leaves the status as it was; mute, camera, sharing, chat, duration and navigation stay |
| CalleeVideoPage.Page.SendOffer | src/pages/CalleeVideoPage.jsx:81-112 | after the tracks: handler switched to vaulting; on an open connection with a valid offer the offer is local, and when gathering ends one `offer` with the batch goes out and the call starts with one more timer; otherwise nothing is sent, "error" unless only gathering failed; senders, remote, candidates, closed flag, local stream, chat, duration, mute, camera, sharing and navigation stay |
| CalleeVideoPage.Page.StartTimer | src/pages/CalleeVideoPage.jsx:223-227 | one more running interval; an earlier one is not cleared; no other field changes |
| CalleeVideoPage.Page.Tick | src/pages/CalleeVideoPage.jsx:224-226 | each tick adds exactly 1 to the duration; no other field changes |
| CalleeVideoPage.Page.OnLocalCandidate | src/pages/CalleeVideoPage.jsx:51-58 | sent with the room id only while the mount handler is installed |
| CalleeVideoPage.Page.OnAnswer | src/pages/CalleeVideoPage.jsx:128-143 | remote set first, then the usable batched candidates in order; a missing or empty batch adds nothing |
| CalleeVideoPage.Page.OnChatMessage | src/pages/CalleeVideoPage.jsx:146-148 | the line is appended at the end; no other field changes |
| CalleeVideoPage.Page.Type | src/pages/CalleeVideoPage.jsx:406 | the draft is the typed text; no other field changes |
| CalleeVideoPage.Page.SendMessage | src/pages/CalleeVideoPage.jsx:293-304 | a white-space draft changes nothing; otherwise one `chat-message`, the line appended and the draft cleared; no other field changes |
| CalleeVideoPage.Page.ToggleMute | src/pages/CalleeVideoPage.jsx:229-236 | with a stream, exactly the audio tracks flip, and so does the flag; without one nothing changes; no other field changes |
| CalleeVideoPage.Page.ToggleVideo | src/pages/CalleeVideoPage.jsx:238-245 | with a stream, exactly the video tracks flip, and so does the flag; without one nothing changes; no other field changes |
| CalleeVideoPage.Page.ToggleScreenShare | src/pages/CalleeVideoPage.jsx:247-272 | the first video sender gets the screen's video track; switching back restores the camera track and stops the screen tracks; no description changes and nothing is emitted; a failure leaves the flag as it was; mute, camera, call, timers, chat and navigation stay |
| CalleeVideoPage.Page.StopStreams | src/pages/CalleeVideoPage.jsx:278-283 | every track of the camera stream and of the screen stream is stopped; no field of the page changes |
| CalleeVideoPage.Page.EndCall | src/pages/CalleeVideoPage.jsx:274-291 | closed, all local and screen tracks stopped, current timer cleared, inactive, "ended", duration 0, navigate to "/"; the socket stays open; descriptions, senders, earlier timers, handler, mute, camera, sharing flag and chat stay |
| CalleeVideoPage.Page.Unmount | src/pages/CalleeVideoPage.jsx:150-160 | disconnects, closes, stops every track and clears the current timer |
| CalleeVideoPage.FlipKind | src/pages/CalleeVideoPage.jsx:231-233 | flips exactly the tracks of one kind |
| CalleeVideoPage.MuteTwiceRestores | src/pages/CalleeVideoPage.jsx:229-236 | muting twice restores every track and the flag |
| CalleeVideoPage.VideoTwiceRestores | src/pages/CalleeVideoPage.jsx:238-245 | toggling the camera twice restores every track and the flag |
| CalleeVideoPage.DurationDisplay | src/pages/CalleeVideoPage.jsx:354 | minutes, a colon and two-digit seconds; `DurationDisplayReadsBack` shows it reads back as the duration |
| CalleeVideoPage.DurationDisplayReadsBack | src/pages/CalleeVideoPage.jsx:354 | the display splits at the colon into minutes and two-digit seconds below 60, and minutes*60 + seconds is the duration |
| AstrologerDashboard.CallLink | src/pages/AstrologerDashboard.jsx:75 | the `/callee-video` link with `roomId` and `callerId`; `CallLinkQuery` shows the query holds exactly those two parameters |
| AstrologerDashboard.CallLinkQuery | src/pages/AstrologerDashboard.jsx:75 | the toast link holds exactly the `roomId` and `callerId` query parameters |
| AstrologerDashboard.WithoutId | src/pages/AstrologerDashboard.jsx:198 | `filter`: every message with that id is removed, and exactly the others are kept |
| AstrologerDashboard.WithoutIdConcat | src/pages/AstrologerDashboard.jsx:198 | the filter works piecewise, so the kept messages stay in order |
| AstrologerDashboard.WithoutIdIdempotent | src/pages/AstrologerDashboard.jsx:198 | marking the same id twice is marking it once |
| AstrologerDashboard.WithoutIdAbsent | src/pages/AstrologerDashboard.jsx:198 | a list without that id is unchanged |
| AstrologerDashboard.Dashboard.constructor | src/pages/AstrologerDashboard.jsx:14-31 | no socket, no connection, empty notifications, index 0 |
| AstrologerDashboard.Dashboard.Setup | src/pages/AstrologerDashboard.jsx:34-45 | a socket only when both the id and the token are present; no other field changes |
| AstrologerDashboard.Dashboard.OnConnect | src/pages/AstrologerDashboard.jsx:47-54 | connected, then the four emits in order: visibility, `joinAstrologer`, `joinRoom` with the astrologer's id, `getUnreadMessages`; no other field changes |
| AstrologerDashboard.Dashboard.OnDisconnect | src/pages/AstrologerDashboard.jsx:56-64 | not connected; nothing else changes |
| AstrologerDashboard.Dashboard.OnVideoCallRequest | src/pages/AstrologerDashboard.jsx:67-83 | only a toast, with the link; no connection or media is touched |
| AstrologerDashboard.Dashboard.JoinCall | src/pages/AstrologerDashboard.jsx:74-76 | navigates to the toast's link; no other field changes |
| AstrologerDashboard.Dashboard.OnOffer | src/pages/AstrologerDashboard.jsx:86-155 | a connection, with no tracks, only if none exists; remote, optional candidate, answer; then `answer` to `from` and `/video` with from/from/"callee"; any failure: error toast, no emit, no navigation; an accepted offer stays set as remote even when the candidate or the answer then fails, a rejected one leaves the remote as it was (none on a new connection), and without an answer the local description is unchanged; the panel, the list and the connected flag stay |
| AstrologerDashboard.Dashboard.OnRemoteCandidate | src/pages/AstrologerDashboard.jsx:158-167 | applied only when present and a connection exists; no buffer; descriptions, closed flag and senders stay |
| AstrologerDashboard.Dashboard.OnLocalCandidate | src/pages/AstrologerDashboard.jsx:107-115 | sent to the `from` of the offer that created the connection |
| AstrologerDashboard.Dashboard.Unmount | src/pages/AstrologerDashboard.jsx:169-186 | the teardown is discarded: the socket stays open and the connection is not closed |
| AstrologerDashboard.Dashboard.HandleReply | src/pages/AstrologerDashboard.jsx:188-195 | with a socket and a room id: `joinRoom`, open that chat, close the panel; otherwise nothing; the peer, connected flag, list and toasts stay |
| AstrologerDashboard.Dashboard.HandleMarkAsRead | src/pages/AstrologerDashboard.jsx:197-200 | the list becomes `WithoutId` of itself; no other field changes |
| AstrologerDashboard.Dashboard.NextSlide | src/pages/AstrologerDashboard.jsx:202 | reached only through the arrow shown for more than one client (line 283): the index becomes `Carousel.Next` of the old one, in range; no other field changes |
| AstrologerDashboard.Dashboard.PrevSlide | src/pages/AstrologerDashboard.jsx:203 | always throws, and the index stays |
| AstrologerDashboard.Dashboard.VisibleClients | src/pages/AstrologerDashboard.jsx:205-207 | three consecutive clients mod n when n ≥ 3, otherwise all |
| AstrologerDashboard.EarlyCandidatesLost | src/pages/AstrologerDashboard.jsx:158-167 | a candidate arriving before the first offer is never applied |
| AuthSlice.LoggedIn | src/redux/slices/authSlice.js:14-25 | token set and stored under "token"; role "astrologer" fills `astrologer` and clears `user`, any other role the reverse; no other storage key changes |
| AuthSlice.LoggedOut | src/redux/slices/authSlice.js:27-32 | token, user and astrologer cleared; "token" removed; no other storage key changes |
| AuthSlice.LoginFillsOneSlot | src/redux/slices/authSlice.js:18-25 | after login exactly one account slot is filled |
| AuthSlice.LogoutIdempotent | src/redux/slices/authSlice.js:27-32 | logging out twice equals logging out once |
| AuthSlice.Store.constructor | src/redux/slices/authSlice.js:4-8 | the token is the stored one (an empty one counts as none); no account |
| AuthSlice.Store.LoginSuccess | src/redux/slices/authSlice.js:14-25 | the new state is `LoggedIn` of the old |
| AuthSlice.Store.Logout | src/redux/slices/authSlice.js:27-32 | the new state is `LoggedOut` of the old |
| LoginPage.RouteFor | src/pages/LoginPage.jsx:35-48 | each of the three roles has its own route; any other role, and only those, goes to `/dashboard` |
| LoginPage.Page.constructor | src/pages/LoginPage.jsx:10 | no error |
| LoginPage.Page.HandleSubmit | src/pages/LoginPage.jsx:18-53 | failure: error is `data.message` or "Login failed", or the thrown message, with no dispatch and no navigation; success: no error, `loginSuccess` applied, then routed by role |
| ChatPage.Segment | src/pages/ChatPage.jsx:13 | a segment exists exactly below the segment count, and holds no '_' |
| ChatPage.Segments | src/pages/ChatPage.jsx:13 | the second and third `_`-separated pieces of the room id; `ChatRoomIdParses` shows they are the astrologer and user ids of `ChatRoomId` |
| ChatPage.ChatRoomIdParses | src/pages/ChatPage.jsx:13 | the id `chat_<a>_<u>` parses back to a and u, also with extra segments after it |
| ChatPage.ReceiverFor | src/pages/ChatPage.jsx:14 | the user segment when the current id strictly equals the astrologer segment, otherwise the astrologer segment; stated by `ReceiverChoice` |
| ChatPage.ReceiverChoice | src/pages/ChatPage.jsx:14 | the receiver is the user when the current id is the astrologer segment as a string, otherwise the astrologer |
| ChatPage.NumericIdNeverMatches | src/pages/ChatPage.jsx:14 | a numeric current id never equals a string segment, so its receiver is always the astrologer segment |
| ChatPage.Page.constructor | src/pages/ChatPage.jsx:8-17 | the room id is the route id, unchanged; the hook gets the chosen receiver |
| ChatPage.Page.OnInput | src/pages/ChatPage.jsx:59 | the input is the typed value |
| ChatPage.Page.Submit | src/pages/ChatPage.jsx:48-52 | the current input is sent, unless blank, and then cleared |
| BookingDetail.FieldsShape | src/pages/BookingDetail.jsx:32-37 | for a calendar date the fields are 4, 2 and 2 digits |
| BookingDetail.FieldsValue | src/pages/BookingDetail.jsx:32-37 | the fields read back as the year, month index + 1 and the day |
| BookingDetail.FieldsHaveNoDash | src/pages/BookingDetail.jsx:32-37 | no field contains a dash |
| BookingDetail.SplitThree | src/pages/BookingDetail.jsx:36 | splitting three dash-free fields joined by '-' gives the three fields |
| BookingDetail.FormatDate | src/pages/BookingDetail.jsx:32-37 | `YYYY-MM-DD` from the year, the 0-based month plus one and the day; its properties are `FormatDateSplit` (the three fields read back) and `FormatDateLength` (10 characters) |
| BookingDetail.FormatDateSplit | src/pages/BookingDetail.jsx:36 | splitting the result at '-' gives exactly the three fields |
| BookingDetail.FormatDateLength | src/pages/BookingDetail.jsx:32-37 | for a four-digit year the result is 10 characters |
| BookingDetail.SlotsRequest | src/pages/BookingDetail.jsx:48-51 | the body carries `Number(id)` and a 10-character date |
| BookingDetail.BookingPayload | src/pages/BookingDetail.jsx:76-83 | status "Pending", `Number(id)`, the user id and the slot's date |
| BookingDetail.ChatRoomId | src/pages/BookingDetail.jsx:189 | `chat_<astrologer>_<user>`; `ChatPage.ChatRoomIdParses` shows both ids read back from it |
| BookingDetail.ChatLink | src/pages/BookingDetail.jsx:189 | "/chat/" followed by the room id |
| BookingDetail.Page.constructor | src/pages/BookingDetail.jsx:10-17 | `Number(id)` computed once; nothing loading; no error |
| BookingDetail.Page.FetchAvailableSlots | src/pages/BookingDetail.jsx:40-63 | one request while loading; the slots, or [] when absent; the error otherwise; loading false after either |
| BookingDetail.Page.HandleSlotClick | src/pages/BookingDetail.jsx:72-110 | one booking request; failure sets `bookingError` (the reply text or the default) and stays; success goes to the payment page; the slots, their loading flag and the slot requests stay |
| UserDashboard.Loaded | src/pages/UserDashboard.jsx:17-31 | ok: the data or []; non-ok: "HTTP error! Status: n"; thrown: its message |
| UserDashboard.StatusError | src/pages/UserDashboard.jsx:23 | the thrown message naming the HTTP status; `StatusErrorReadsBack` shows the status reads back from it |
| UserDashboard.StatusErrorReadsBack | src/pages/UserDashboard.jsx:23 | the status error's last word reads back as the status |
| UserDashboard.Dashboard.constructor | src/pages/UserDashboard.jsx:10-13 | empty list, index 0, loading, no error |
| UserDashboard.Dashboard.Settle | src/pages/UserDashboard.jsx:15-35 | the list and error of `Loaded`; loading false after either outcome |
| UserDashboard.Dashboard.NextSlide | src/pages/UserDashboard.jsx:37-39 | index `Carousel.Next`, in range |
| UserDashboard.Dashboard.PrevSlide | src/pages/UserDashboard.jsx:41-43 | index `Carousel.Prev`, in range |
| UserDashboard.Dashboard.Visible | src/pages/UserDashboard.jsx:45-47 | three consecutive cards mod n when n ≥ 3, otherwise all |
| UserDashboard.NextThenPrev | src/pages/UserDashboard.jsx:37-47 | after a load, next then previous shows the first window again |
| Carousel.Next | src/pages/UserDashboard.jsx:38 | in range; one more, wrapping to 0 after the last |
| Carousel.Prev | src/pages/UserDashboard.jsx:42 | in range; one less, wrapping to the last from 0 |
| Carousel.NextPrevInverse | src/pages/UserDashboard.jsx:37-43 | next and previous undo each other |
| Carousel.Window | src/pages/UserDashboard.jsx:45-47 | three consecutive cards mod n when n ≥ 3, otherwise the list |
| Carousel.WindowSlides | src/pages/UserDashboard.jsx:45-47 | moving forward slides the window by one card |
| Carousel.WindowDistinct | src/pages/UserDashboard.jsx:45-47 | the window never shows a card twice |
| UnreadMessagesTable.Truncate | src/components/UnreadMessagesTable.jsx:25 | unchanged up to 50 characters; otherwise the first 50 plus "..." |
| UnreadMessagesTable.TruncateBounds | src/components/UnreadMessagesTable.jsx:25 | at most 53 characters, starting like the message |
| UnreadMessagesTable.TruncateIdempotent | src/components/UnreadMessagesTable.jsx:25 | cutting twice is cutting once |
| UnreadMessagesTable.RowOf | src/components/UnreadMessagesTable.jsx:21-36 | key and button id are the message id; sender name or "Unknown"; cut text |
| UnreadMessagesTable.Render | src/components/UnreadMessagesTable.jsx:5-39 | nothing exactly for a missing or empty list; otherwise one row per message, in order |
| UnreadMessagesTable.RenderedRows | src/components/UnreadMessagesTable.jsx:32 | row i's button marks exactly message i's id |
| UseSocket.UnreadToast | src/hooks/useSocket.jsx:21 | the unread-count toast; `UnreadToastReadsBack` shows the count reads back from it |
| UseSocket.UnreadToastReadsBack | src/hooks/useSocket.jsx:21 | the count toast's third word reads back as the count |
| UseSocket.NewMessageToast | src/hooks/useSocket.jsx:25 | the fixed "New message from User " prefix followed by exactly the sender id |
| UseSocket.Feed.constructor | src/hooks/useSocket.jsx:6-7 | no socket, empty list |
| UseSocket.Feed.Setup | src/hooks/useSocket.jsx:9-17 | no id: nothing; otherwise `joinAstrologer`, then `getUnreadMessages` |
| UseSocket.Feed.OnLoad | src/hooks/useSocket.jsx:19-22 | the list is replaced; a count toast only for a non-empty list |
| UseSocket.Feed.OnNew | src/hooks/useSocket.jsx:24-27 | a toast, then the notice appended at the end |
| UseSocket.Feed.Cleanup | src/hooks/useSocket.jsx:29 | the socket is disconnected |
| UseSocket.LoadThenNotify | src/hooks/useSocket.jsx:19-27 | after a load and notifications the list is the loaded messages and then the notified ones, in order |
| UseChat.ChatHook.constructor | src/hooks/useChat.jsx:9-17 | no room id: no socket; otherwise a socket that has emitted `joinRoom` |
| UseChat.ChatHook.OnReceive | src/hooks/useChat.jsx:19-22 | appended at the end; a toast only when someone else sent it |
| UseChat.ChatHook.SendMessage | src/hooks/useChat.jsx:27-37 | blank: nothing; otherwise one `sendMessage` with room, sender, receiver and the untrimmed message |
| UseChat.ChatHook.Cleanup | src/hooks/useChat.jsx:24 | the socket is disconnected |
| SupportPage.Page.constructor | src/pages/SupportPage.jsx:7-9 | no tickets, empty form |
| SupportPage.Page.OnEmail | src/pages/SupportPage.jsx:52 | the email is the typed value |
| SupportPage.Page.OnMessage | src/pages/SupportPage.jsx:55 | the message is the typed value |
| SupportPage.Page.SubmitTicket | src/pages/SupportPage.jsx:16-25 | an empty field changes nothing; otherwise exactly one Pending ticket appended after the earlier ones, and the form cleared |
| SupportPage.FiledArePending | src/pages/SupportPage.jsx:18-21 | every filed ticket is Pending with a non-empty email and message, and there are at most as many as submits |
| SupportPage.FileAll | src/pages/SupportPage.jsx:16-25 | a run of submits leaves exactly the `Filed` tickets |
| UserListPage.QueryParams | src/pages/admin/UserListPage.jsx:17-20 | each filter's pair appears exactly when it is non-empty, no other pair appears, and they come in the order search, role, status |
| UserListPage.QueryParamsNames | src/pages/admin/UserListPage.jsx:17-20 | no name repeats, and only the three filter names occur |
| UserListPage.NoFilterNoQuery | src/pages/admin/UserListPage.jsx:17-20 | the query is empty exactly when no filter is set |
| UserListPage.Page.constructor | src/pages/admin/UserListPage.jsx:6-9 | empty list and filters |
| UserListPage.Page.FetchUsers | src/pages/admin/UserListPage.jsx:15-33 | the query built by appending is `QueryParams`; success replaces the users with `result.data`; any failure keeps them |
| UserListPage.Page.OnSearch | src/pages/admin/UserListPage.jsx:11-13 | a changed search refetches with it and the users become `result.data` on success or stay; an unchanged one does nothing |
| UserListPage.Page.OnRoleFilter | src/pages/admin/UserListPage.jsx:11-13 | a changed role refetches with it and the users become `result.data` on success or stay; an unchanged one does nothing |
| UserListPage.Page.OnStatusFilter | src/pages/admin/UserListPage.jsx:11-13 | a changed status refetches with it and the users become `result.data` on success or stay; an unchanged one does nothing |
| UserCreationPage.With | src/pages/admin/UserCreationPage.jsx:18-19 | the named field takes the value; every other field is kept |
| UserCreationPage.WithTwice | src/pages/admin/UserCreationPage.jsx:18-19 | writing a field twice keeps the second value |
| UserCreationPage.InitialIncomplete | src/pages/admin/UserCreationPage.jsx:7-14 | filling only the optional fields never passes validation |
| UserCreationPage.Page.constructor | src/pages/admin/UserCreationPage.jsx:7-16 | empty form with role "end_user", no error, not loading |
| UserCreationPage.Page.HandleChange | src/pages/admin/UserCreationPage.jsx:18-19 | the form becomes `With` of itself |
| UserCreationPage.Page.HandleSubmit | src/pages/admin/UserCreationPage.jsx:21-46 | missing required field: the error and no request; otherwise one request sent while loading, then ok goes to `/admin/users`, failure sets its error, loading false after either |
| UserEditPage.With | src/pages/admin/UserEditPage.jsx:38-40 | the named field takes the value; the others are kept |
| UserEditPage.FormOf | src/pages/admin/UserEditPage.jsx:27-32 | `fullname` goes to `fullName`; missing values become '' and a missing role "user" |
| UserEditPage.EmptyRecordIsInitial | src/pages/admin/UserEditPage.jsx:27-32 | every record whose fields are missing or empty gives the initial form |
| UserEditPage.FormOfRoundTrip | src/pages/admin/UserEditPage.jsx:27-32 | a record holding a form's fields gives that form back |
| UserEditPage.Page.constructor | src/pages/admin/UserEditPage.jsx:8-15 | the initial form, no error, not loading |
| UserEditPage.Page.FetchUserDetail | src/pages/admin/UserEditPage.jsx:21-36 | a found record replaces the form via `FormOf`; any failure keeps it |
| UserEditPage.Page.HandleChange | src/pages/admin/UserEditPage.jsx:38-40 | the form becomes `With` of itself |
| UserEditPage.DetailPath | src/pages/admin/UserEditPage.jsx:62 | the fixed `/admin/users/` prefix followed by exactly the user id |
| UserEditPage.Page.HandleSubmit | src/pages/admin/UserEditPage.jsx:42-67 | missing name or email: the error and no request; otherwise one PUT while loading, then ok goes to `/admin/users/<id>`, failure sets its error, loading false after either |
| UserStatusToggle.StatusPath | src/components/UserStatusToggle.jsx:12 | `/admin/users/`, exactly the user id, then `/status` |
| UserStatusToggle.StatusAfter | src/components/UserStatusToggle.jsx:17-21 | the shown status is the initial one or the status of some successful attempt |
| UserStatusToggle.Accepted | src/components/UserStatusToggle.jsx:21 | never more notifications than attempts |
| UserStatusToggle.StatusIsLastAccepted | src/components/UserStatusToggle.jsx:17-21 | the shown status is the last one the callback heard, or the initial one |
| UserStatusToggle.FailuresChangeNothing | src/components/UserStatusToggle.jsx:17-24 | only failures: status unchanged and no callback |
| UserStatusToggle.NoAcceptedWithoutOk | src/components/UserStatusToggle.jsx:17-24 | without an ok reply the callback is never called |
| UserStatusToggle.Toggle.constructor | src/components/UserStatusToggle.jsx:5-6 | the status is `currentStatus`; not loading |
| UserStatusToggle.Toggle.HandleStatusChange | src/components/UserStatusToggle.jsx:8-26 | one PATCH while loading; ok: new status and callback if given; failure: unchanged, no callback; loading false after either |
| UserStatusToggle.PickAll | src/components/UserStatusToggle.jsx:8-26 | a run of picks leaves `StatusAfter` shown and `Accepted` notified |

## Left out

- **Timing and delivery.**
  - Interleaving at `await` points is not modelled: every handler runs to completion before the next event.
  - Replies arriving out of order, socket.io delivery, acknowledgement and reconnection are not modelled.
- **Media and SDP.**
  - Media streams, SDP contents, ICE connectivity and rendering are reduced to opaque tokens with a `valid` flag.
  - The `RTCIceCandidate` constructor throwing on a malformed candidate is folded into `valid`.
  - Signalling-state rules beyond needing a remote offer before an answer are not modelled.
- **Stale connections.** After `createPeer` replaces a connection, the old one can still raise events. Those events are not modelled; only the current connection reports candidates.
- **Entry points.**
  - Route and query parameters are never null: `Option` stands for the JavaScript `||` defaults only.
  - The auth shape the call pages read (`state.auth.loggedIn`) is not reconciled with the slice. Ids, names and tokens are parameters.
- **Inputs passed as parameters.** Fetch, the network, JSX, toasts and the router are inputs or recorded targets. So are the clock (`Date.now()`, `toISOString()`) and `uuidv4()`.
- **CalleeVideoPage's `acceptCall` and `rejectCall`.** They sit behind `incomingCall`, which is only ever set back to false, so no input reaches them.
- **Text.JsNumber**:
  - Covers decimal strings only; hexadecimal, exponent and fractional forms give NaN (None) here.
  - Treats the result as a `nat`, so the sign forms are NaN too.
- **Text.TrimStart, Text.TrimEnd**: state only that the ends are not white space, not that the result is a substring of the input.
- **UnreadMessagesTable.Truncate**: counts characters rather than UTF-16 code units.
- **BookingDetail.FormatDateLength, BookingDetail.FieldsShape and BookingDetail.FormatDateSplit**:
  - Cover years 1000 to 9999 only.
  - Do not model JavaScript `Date` arithmetic (a day beyond the month's end).
- **BookingDetail.Page.FetchAvailableSlots** and the other fetch handlers do not model a body that fails to parse. `response.json()` throwing lands in the same catch as a thrown fetch.
- **UserListPage.QueryParams**: the query is the list of pairs; the URL encoding of `toString()` is not modelled.
- **UseSocket.Feed.Setup**: every falsy astrologer id is represented as "".
- **UserDashboard.Dashboard.NextSlide, UserDashboard.Dashboard.PrevSlide**: require the arrows to be on screen, since with an empty list the source's index would become NaN.
- **VideoPage.Page.OnRemoteCandidate**: queues every token, including a payload the `RTCIceCandidate` constructor would throw on (src/pages/VideoPage.jsx:84). One `valid` flag covers both that rejection and `addIceCandidate`'s, so the candidates applied agree but `pending` may hold extra invalid tokens.
- **CalleeVideoPage.Page.ToggleScreenShare**: assumes as a precondition a platform guarantee, namely that `getDisplayMedia({video: true})` and `getUserMedia({video: true, audio: true})` yield a stream with a video track.
- **CalleeVideoPage.Page.ToggleScreenShare**: does not model a sender whose track is null (the `find` would throw).
- **LoginPage.Page.HandleSubmit**: does not model an ok reply without `data.data.user` (reading the role would throw).
- **UserEditPage.FormOf**: the record is read under the key `fullname`, but the PUT sends the form's `fullName`. Both keys are modelled as written.
- **Outside the pages modelled here.**
  - Nothing from useFileUpload is modelled. ChatPage's Upload File button (src/pages/ChatPage.jsx:65) calls `uploadFile` with `sendMessage` in the place of the socket whose `emit` it uses (src/hooks/useFileUpload.jsx:25). The upload, that call and the file message rendering are left out.
  - The purely presentational or routing files are not part of this model, and neither are the fetch-wrapper hooks and pages (useClients, PaymentPage, RegisterPage).
