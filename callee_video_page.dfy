/**
 * src/pages/CalleeVideoPage.jsx: despite its name the page that OFFERS, from the astrologer's
 * side. Its connection exists from mount; on `connect` it joins the room and runs
 * `initializeCall`, which sends the offer only after gathering has ended, with all candidates
 * in one batch. It also carries the in-call controls and a chat panel.
 */
module CalleeVideoPage {
  import opened Wrappers
  import opened Rtc
  import opened Channel
  import Text

  /** `callStatus`; 'rejected' is set only by the unreachable `rejectCall`. */
  datatype CallStatus = Waiting | Connected | Error | Ended

  /** The connection's `onicecandidate` handler. */
  datatype IceMode =
    | Trickle  // installed at mount: every candidate is sent with the room id
    | Vault    // installed by `initializeCall`: candidates go into the offer's batch

  class Page {
    const roomId: string
    const callerId: string
    /** The logged-in user's id and name. */
    const me: string
    const userName: string
    const socket: Socket
    const pc: PeerConnection

    var iceMode: IceMode
    var localStream: Option<MediaStream>
    var screenStream: Option<MediaStream>
    var isCallActive: bool
    var isMuted: bool
    var isVideoOff: bool
    var isScreenSharing: bool
    var callDuration: nat
    var messages: seq<ChatLine>
    var newMessage: string
    var status: CallStatus
    /** Whether the interval `timerRef` names is still running. */
    var timerLive: bool
    /** Intervals started earlier whose id `timerRef` no longer holds: nothing clears them. */
    var leakedTimers: nat
    var location: Option<string>

    /** Mount: the socket and the connection are created at once, with the trickle handler. */
    constructor (roomId: string, callerId: string, me: string, userName: string, socketId: string)
      ensures this.roomId == roomId && this.callerId == callerId && this.me == me && this.userName == userName
      ensures fresh(socket) && socket.id == socketId && socket.outbox == [] && socket.open
      ensures fresh(pc) && pc.local == None && pc.remote == None && pc.applied == [] && pc.senders == []
      ensures !pc.closed && iceMode == Trickle && localStream == None && screenStream == None
      ensures !isCallActive && !isMuted && !isVideoOff && !isScreenSharing && callDuration == 0
      ensures messages == [] && newMessage == "" && status == Waiting
      ensures RunningTimers() == 0 && location == None
    {
      this.roomId, this.callerId, this.me, this.userName := roomId, callerId, me, userName;
      socket := new Socket(socketId);
      pc := new PeerConnection();
      iceMode, localStream, screenStream := Trickle, None, None;
      isCallActive, isMuted, isVideoOff, isScreenSharing := false, false, false, false;
      callDuration, messages, newMessage, status := 0, [], "", Waiting;
      timerLive, leakedTimers, location := false, 0, None;
    }

    /** Number of intervals still incrementing the duration. */
    function RunningTimers(): nat
      reads this
    {
      leakedTimers + if timerLive then 1 else 0
    }

    /**
     * `connect`: join the room with the caller as recipient, then `initializeCall` (see there
     * for `media`, `made` and `events`). A reconnect runs both again.
     */
    method OnConnect(media: Option<MediaStream>, made: Sdp, events: seq<Option<Candidate>>)
      modifies this, socket, pc
      ensures socket.outbox == old(socket.outbox) + [JoinRoomAs(roomId, callerId, userName)] + old(InitializeOutput(media, made, events))
      ensures old(CallStarts(media, made, events)) ==>
        isCallActive && status == Connected && timerLive && RunningTimers() == old(RunningTimers()) + 1
      ensures !old(CallStarts(media, made, events)) ==>
        isCallActive == old(isCallActive) && RunningTimers() == old(RunningTimers())
      ensures media.None? ==> status == Error && localStream == old(localStream) && pc.senders == old(pc.senders)
      ensures media.Some? ==> localStream == media
      ensures media.Some? && !old(pc.closed) && (forall i :: 0 <= i < |media.value.tracks| ==> media.value.tracks[i] !in old(pc.senders)) ==>
        pc.senders == old(pc.senders) + media.value.tracks && iceMode == Vault
        && pc.local == (if made.valid then Some(made) else old(pc.local))
        && status == (if !made.valid then Error else if Vaulted(events).None? then old(status) else Connected)
      ensures media.Some? && !((media.value.tracks == [] || !old(pc.closed))
                               && forall i :: 0 <= i < |media.value.tracks| ==> media.value.tracks[i] !in old(pc.senders)) ==>
        status == Error && iceMode == old(iceMode) && pc.local == old(pc.local)
        && exists k :: 0 <= k < |media.value.tracks| && pc.senders == old(pc.senders) + media.value.tracks[..k]
      ensures media.Some? && media.value.tracks == [] && old(pc.closed) ==>
        status == Error && iceMode == Vault && pc.local == old(pc.local) && pc.senders == old(pc.senders)
      ensures pc.remote == old(pc.remote) && pc.applied == old(pc.applied) && pc.closed == old(pc.closed)
      ensures messages == old(messages) && newMessage == old(newMessage) && callDuration == old(callDuration)
      ensures isScreenSharing == old(isScreenSharing) && screenStream == old(screenStream)
      ensures !old(CallStarts(media, made, events)) ==> timerLive == old(timerLive) && leakedTimers == old(leakedTimers)
      ensures media.None? ==> iceMode == old(iceMode) && pc.local == old(pc.local)
      ensures isMuted == old(isMuted) && isVideoOff == old(isVideoOff) && location == old(location)
    {
      socket.Emit(JoinRoomAs(roomId, callerId, userName));
      InitializeCall(media, made, events);
    }

    /**
     * The events `initializeCall` emits in a state `pc` is in before it starts: when the media,
     * every `addTrack`, the offer and its setting succeed and gathering ends, the offer with the
     * batch and the room, caller and callee ids; otherwise nothing.
     */
    function InitializeOutput(media: Option<MediaStream>, made: Sdp, events: seq<Option<Candidate>>): seq<Msg>
      reads this, pc
    {
      if CallStarts(media, made, events)
      then [RoomOffer(made, Vaulted(events).value, roomId, callerId, me)] else []
    }

    /** Whether `initializeCall` gets as far as sending the offer. */
    predicate CallStarts(media: Option<MediaStream>, made: Sdp, events: seq<Option<Candidate>>)
      reads this, pc
    {
      media.Some? && !pc.closed && made.valid && Vaulted(events).Some?
      && forall i :: 0 <= i < |media.value.tracks| ==> media.value.tracks[i] !in pc.senders
    }

    /**
     * `initializeCall`: `media` is what `getUserMedia` yields (None: refused), `made` the
     * description `createOffer` would produce, `events` what the connection reports after the
     * gathering handler is installed (`None` marking the end; without it the offer is never
     * sent). Every failure lands in the catch, which sets the status to 'error'; success sends
     * the offer, marks the call active and connected and starts a timer.
     */
    method InitializeCall(media: Option<MediaStream>, made: Sdp, events: seq<Option<Candidate>>)
      modifies this, socket, pc
      ensures socket.outbox == old(socket.outbox) + old(InitializeOutput(media, made, events))
      ensures old(CallStarts(media, made, events)) ==>
        isCallActive && status == Connected && timerLive && RunningTimers() == old(RunningTimers()) + 1
      ensures !old(CallStarts(media, made, events)) ==>
        isCallActive == old(isCallActive) && RunningTimers() == old(RunningTimers())
      ensures media.None? ==> status == Error && localStream == old(localStream) && pc.senders == old(pc.senders)
      ensures media.Some? ==> localStream == media
      ensures media.Some? && !old(pc.closed) && (forall i :: 0 <= i < |media.value.tracks| ==> media.value.tracks[i] !in old(pc.senders)) ==>
        pc.senders == old(pc.senders) + media.value.tracks && iceMode == Vault
        && pc.local == (if made.valid then Some(made) else old(pc.local))
        && status == (if !made.valid then Error else if Vaulted(events).None? then old(status) else Connected)
      ensures media.Some? && !((media.value.tracks == [] || !old(pc.closed))
                               && forall i :: 0 <= i < |media.value.tracks| ==> media.value.tracks[i] !in old(pc.senders)) ==>
        status == Error && iceMode == old(iceMode) && pc.local == old(pc.local)
        && exists k :: 0 <= k < |media.value.tracks| && pc.senders == old(pc.senders) + media.value.tracks[..k]
      ensures media.Some? && media.value.tracks == [] && old(pc.closed) ==>
        status == Error && iceMode == Vault && pc.local == old(pc.local) && pc.senders == old(pc.senders)
      ensures pc.remote == old(pc.remote) && pc.applied == old(pc.applied) && pc.closed == old(pc.closed)
      ensures messages == old(messages) && newMessage == old(newMessage) && callDuration == old(callDuration)
      ensures isScreenSharing == old(isScreenSharing) && screenStream == old(screenStream)
      ensures !old(CallStarts(media, made, events)) ==> timerLive == old(timerLive) && leakedTimers == old(leakedTimers)
      ensures media.None? ==> iceMode == old(iceMode) && pc.local == old(pc.local)
      ensures isMuted == old(isMuted) && isVideoOff == old(isVideoOff) && location == old(location)
    {
      if media.None? {
        status := Error;
        return;
      }
      localStream := media;
      var added := AddTracks(pc, media.value.tracks);
      if !added {
        status := Error;
        return;
      }
      SendOffer(made, events);
    }

    /**
     * The rest of `initializeCall` once the tracks are attached: the gathering handler replaces
     * the trickle one, then the offer is created and set, and when gathering ends the offer goes
     * out with the batch and the call starts.
     */
    method SendOffer(made: Sdp, events: seq<Option<Candidate>>)
      modifies this, socket, pc
      ensures socket.outbox == old(socket.outbox) +
        if !old(pc.closed) && made.valid && Vaulted(events).Some?
        then [RoomOffer(made, Vaulted(events).value, roomId, callerId, me)] else []
      ensures !old(pc.closed) && made.valid && Vaulted(events).Some? ==>
        isCallActive && timerLive && RunningTimers() == old(RunningTimers()) + 1
      ensures !(!old(pc.closed) && made.valid && Vaulted(events).Some?) ==>
        isCallActive == old(isCallActive) && timerLive == old(timerLive) && leakedTimers == old(leakedTimers)
      ensures status == if old(pc.closed) || !made.valid then Error else if Vaulted(events).None? then old(status) else Connected
      ensures iceMode == Vault && pc.local == if made.valid && !old(pc.closed) then Some(made) else old(pc.local)
      ensures pc.senders == old(pc.senders) && pc.remote == old(pc.remote) && pc.applied == old(pc.applied)
      ensures pc.closed == old(pc.closed) && localStream == old(localStream)
      ensures messages == old(messages) && newMessage == old(newMessage) && callDuration == old(callDuration)
      ensures isScreenSharing == old(isScreenSharing) && screenStream == old(screenStream)
      ensures isMuted == old(isMuted) && isVideoOff == old(isVideoOff) && location == old(location)
    {
      iceMode := Vault;
      var offer := pc.CreateOffer(made);
      if offer.None? {
        status := Error;
        return;
      }
      var ok := pc.SetLocalDescription(offer.value);
      if !ok {
        status := Error;
        return;
      }
      var batch := GatherUntilEnd(events);
      if batch.None? {
        return;
      }
      socket.Emit(RoomOffer(pc.local.value, batch.value, roomId, callerId, me));
      isCallActive := true;
      status := Connected;
      StartTimer();
    }

    /** `startTimer`: a new interval; the one `timerRef` held before keeps running. */
    method StartTimer()
      modifies this
      ensures timerLive && RunningTimers() == old(RunningTimers()) + 1
      ensures callDuration == old(callDuration) && status == old(status) && isCallActive == old(isCallActive)
      ensures localStream == old(localStream) && iceMode == old(iceMode) && messages == old(messages)
      ensures newMessage == old(newMessage) && screenStream == old(screenStream)
      ensures isScreenSharing == old(isScreenSharing)
      ensures isMuted == old(isMuted) && isVideoOff == old(isVideoOff) && location == old(location)
    {
      if timerLive {
        leakedTimers := leakedTimers + 1;
      }
      timerLive := true;
    }

    /** One running interval fires: the duration grows by a second. */
    method Tick()
      requires RunningTimers() > 0
      modifies this
      ensures callDuration == old(callDuration) + 1 && RunningTimers() == old(RunningTimers())
      ensures status == old(status) && messages == old(messages) && isCallActive == old(isCallActive)
      ensures timerLive == old(timerLive) && leakedTimers == old(leakedTimers) && iceMode == old(iceMode)
      ensures localStream == old(localStream) && screenStream == old(screenStream) && newMessage == old(newMessage)
      ensures isMuted == old(isMuted) && isVideoOff == old(isVideoOff) && isScreenSharing == old(isScreenSharing)
      ensures location == old(location)
    {
      callDuration := callDuration + 1;
    }

    /** A candidate the connection gathers: sent with the room id only by the mount handler. */
    method OnLocalCandidate(c: Option<Candidate>)
      modifies socket
      ensures socket.outbox == old(socket.outbox) +
        if c.Some? && iceMode == Trickle then [RoomIceCandidate(c.value, roomId)] else []
    {
      if c.Some? && iceMode == Trickle {
        socket.Emit(RoomIceCandidate(c.value, roomId));
      }
    }

    /**
     * `answer {answer, iceCandidates}`: remote description, then each batched candidate tried
     * in order, failures caught. A missing or empty batch adds nothing; a rejected description
     * ends the handler.
     */
    method OnAnswer(answer: Sdp, iceCandidates: Option<seq<Candidate>>)
      modifies pc
      ensures pc.remote == if answer.valid && !old(pc.closed) then Some(answer) else old(pc.remote)
      ensures pc.applied == old(pc.applied) +
        if answer.valid && !old(pc.closed) && iceCandidates.Some? then Usable(iceCandidates.value) else []
      ensures pc.local == old(pc.local) && pc.closed == old(pc.closed) && pc.senders == old(pc.senders)
    {
      var ok := pc.SetRemoteDescription(answer);
      if !ok {
        return;
      }
      if iceCandidates.Some? && |iceCandidates.value| > 0 {
        ApplyCandidates(pc, iceCandidates.value);
      }
    }

    /** `chat-message`: the line is appended, whoever sent it. */
    method OnChatMessage(line: ChatLine)
      modifies this
      ensures messages == old(messages) + [line] && newMessage == old(newMessage) && status == old(status)
      ensures callDuration == old(callDuration) && isCallActive == old(isCallActive)
      ensures timerLive == old(timerLive) && leakedTimers == old(leakedTimers) && iceMode == old(iceMode)
      ensures localStream == old(localStream) && screenStream == old(screenStream)
      ensures isMuted == old(isMuted) && isVideoOff == old(isVideoOff) && isScreenSharing == old(isScreenSharing)
      ensures location == old(location)
    {
      messages := messages + [line];
    }

    /** The chat input's `onChange`. */
    method Type(text: string)
      modifies this
      ensures newMessage == text && messages == old(messages) && status == old(status)
      ensures callDuration == old(callDuration) && isCallActive == old(isCallActive)
      ensures timerLive == old(timerLive) && leakedTimers == old(leakedTimers) && iceMode == old(iceMode)
      ensures localStream == old(localStream) && screenStream == old(screenStream)
      ensures isMuted == old(isMuted) && isVideoOff == old(isVideoOff) && isScreenSharing == old(isScreenSharing)
      ensures location == old(location)
    {
      newMessage := text;
    }

    /**
     * `sendMessage`: a draft that is only white space is ignored; otherwise the line, stamped
     * with `timestamp` (`new Date().toISOString()`), is emitted to the room, appended to the
     * page's own list and the draft cleared.
     */
    method SendMessage(timestamp: string)
      modifies this, socket
      ensures Text.Blank(old(newMessage)) ==>
        messages == old(messages) && newMessage == old(newMessage) && socket.outbox == old(socket.outbox)
      ensures !Text.Blank(old(newMessage)) ==>
        var line := ChatLine(old(newMessage), me, timestamp);
        messages == old(messages) + [line] && newMessage == ""
        && socket.outbox == old(socket.outbox) + [ChatMessage(roomId, line)]
      ensures status == old(status) && callDuration == old(callDuration) && isCallActive == old(isCallActive)
      ensures timerLive == old(timerLive) && leakedTimers == old(leakedTimers) && iceMode == old(iceMode)
      ensures localStream == old(localStream) && screenStream == old(screenStream)
      ensures isMuted == old(isMuted) && isVideoOff == old(isVideoOff) && isScreenSharing == old(isScreenSharing)
      ensures location == old(location)
    {
      Text.TrimEmptyIffBlank(newMessage);
      if Text.Trim(newMessage) != "" {
        var line := ChatLine(newMessage, me, timestamp);
        socket.Emit(ChatMessage(roomId, line));
        messages := messages + [line];
        newMessage := "";
      }
    }

    /** `toggleMute`: with a local stream, every audio track flips and so does the flag. */
    method ToggleMute()
      modifies this, set t | t in TracksOf(localStream)
      ensures localStream == old(localStream)
      ensures forall t :: t in TracksOf(localStream) ==>
        t.enabled == (if t.kind == Audio then !old(t.enabled) else old(t.enabled)) && t.stopped == old(t.stopped)
      ensures isMuted == if localStream.Some? then !old(isMuted) else old(isMuted)
      ensures isVideoOff == old(isVideoOff) && status == old(status) && messages == old(messages)
      ensures screenStream == old(screenStream) && isScreenSharing == old(isScreenSharing) && iceMode == old(iceMode)
      ensures callDuration == old(callDuration) && isCallActive == old(isCallActive)
      ensures timerLive == old(timerLive) && leakedTimers == old(leakedTimers)
      ensures newMessage == old(newMessage) && location == old(location)
    {
      if localStream.Some? {
        FlipKind(localStream.value.tracks, Audio);
        isMuted := !isMuted;
      }
    }

    /** `toggleVideo`: with a local stream, every video track flips and so does the flag. */
    method ToggleVideo()
      modifies this, set t | t in TracksOf(localStream)
      ensures localStream == old(localStream)
      ensures forall t :: t in TracksOf(localStream) ==>
        t.enabled == (if t.kind == Video then !old(t.enabled) else old(t.enabled)) && t.stopped == old(t.stopped)
      ensures isVideoOff == if localStream.Some? then !old(isVideoOff) else old(isVideoOff)
      ensures isMuted == old(isMuted) && status == old(status) && messages == old(messages)
      ensures screenStream == old(screenStream) && isScreenSharing == old(isScreenSharing) && iceMode == old(iceMode)
      ensures callDuration == old(callDuration) && isCallActive == old(isCallActive)
      ensures timerLive == old(timerLive) && leakedTimers == old(leakedTimers)
      ensures newMessage == old(newMessage) && location == old(location)
    {
      if localStream.Some? {
        FlipKind(localStream.value.tracks, Video);
        isVideoOff := !isVideoOff;
      }
    }

    /**
     * `toggleScreenShare`. Sharing on: `display` is what `getDisplayMedia` yields (None:
     * refused); its first video track replaces the track of the first video sender. Sharing
     * off: the camera's first video track goes back and the screen tracks are stopped. Any
     * failure (refusal, no video sender, no stream) is caught and ends the toggle where it was;
     * `getDisplayMedia({video: true})` and `getUserMedia({video: true})` only ever yield
     * streams holding a video track.
     */
    method ToggleScreenShare(display: Option<MediaStream>)
      requires display.Some? ==> FirstOfKind(display.value.tracks, Video).Some?
      requires localStream.Some? ==> FirstOfKind(localStream.value.tracks, Video).Some?
      modifies this, pc, set t | t in TracksOf(screenStream)
      ensures localStream == old(localStream)
      ensures pc.local == old(pc.local) && pc.remote == old(pc.remote) && pc.applied == old(pc.applied)
      ensures pc.closed == old(pc.closed)
      ensures !old(isScreenSharing) ==>
        screenStream == (if display.Some? then display else old(screenStream))
        && isScreenSharing == (display.Some? && old(pc.FirstVideoSender()).Some?)
        && pc.senders == (if display.Some? && old(pc.FirstVideoSender()).Some? && !old(pc.closed)
                          then old(pc.senders)[old(pc.FirstVideoSender()).value := FirstOfKind(display.value.tracks, Video).value]
                          else old(pc.senders))
      ensures old(isScreenSharing) ==> screenStream == old(screenStream)
      ensures old(isScreenSharing) && old(localStream).Some? && old(pc.FirstVideoSender()).Some? && screenStream.Some? ==>
        !isScreenSharing
        && (forall t :: t in TracksOf(screenStream) ==> t.stopped)
        && pc.senders == (if old(pc.closed) then old(pc.senders)
                          else old(pc.senders)[old(pc.FirstVideoSender()).value := FirstOfKind(localStream.value.tracks, Video).value])
      ensures old(isScreenSharing) && (old(localStream).None? || old(pc.FirstVideoSender()).None?) ==>
        isScreenSharing && pc.senders == old(pc.senders)
      ensures isMuted == old(isMuted) && isVideoOff == old(isVideoOff) && status == old(status)
      ensures messages == old(messages) && socket.outbox == old(socket.outbox)
      ensures iceMode == old(iceMode) && callDuration == old(callDuration) && isCallActive == old(isCallActive)
      ensures timerLive == old(timerLive) && leakedTimers == old(leakedTimers)
      ensures newMessage == old(newMessage) && location == old(location)
    {
      if !isScreenSharing {
        if display.None? {
          return;
        }
        screenStream := display;
        var videoTrack := FirstOfKind(display.value.tracks, Video).value;
        var sender := pc.FirstVideoSender();
        if sender.None? {
          return;
        }
        pc.ReplaceTrack(sender.value, videoTrack);
        isScreenSharing := true;
      } else {
        if localStream.None? {
          return;
        }
        var videoTrack := FirstOfKind(localStream.value.tracks, Video).value;
        var sender := pc.FirstVideoSender();
        if sender.None? {
          return;
        }
        pc.ReplaceTrack(sender.value, videoTrack);
        if screenStream.None? {
          return;
        }
        StopAll(screenStream.value.tracks);
        isScreenSharing := false;
      }
    }

    /**
     * `endCall`: close the connection, stop every local and screen track, clear the interval
     * `timerRef` holds, reset the duration, mark the call ended and go to "/". The socket stays
     * connected and earlier intervals keep running.
     */
    method EndCall()
      modifies this, pc, set t | t in TracksOf(localStream), set t | t in TracksOf(screenStream)
      ensures pc.closed && pc.senders == old(pc.senders) && socket.open == old(socket.open)
      ensures forall t :: t in TracksOf(localStream) ==> t.stopped
      ensures forall t :: t in TracksOf(screenStream) ==> t.stopped
      ensures !isCallActive && status == Ended && callDuration == 0 && location == Some("/")
      ensures !timerLive && RunningTimers() == old(leakedTimers)
      ensures localStream == old(localStream) && screenStream == old(screenStream) && messages == old(messages)
      ensures pc.local == old(pc.local) && pc.remote == old(pc.remote) && pc.applied == old(pc.applied)
      ensures leakedTimers == old(leakedTimers) && iceMode == old(iceMode) && newMessage == old(newMessage)
      ensures isMuted == old(isMuted) && isVideoOff == old(isVideoOff) && isScreenSharing == old(isScreenSharing)
    {
      pc.Close();
      StopStreams();
      timerLive := false;
      isCallActive := false;
      status := Ended;
      callDuration := 0;
      location := Some("/");
    }

    /** Every track of the camera stream and of the screen stream is stopped. */
    method StopStreams()
      modifies set t | t in TracksOf(localStream), set t | t in TracksOf(screenStream)
      ensures forall t :: t in TracksOf(localStream) ==> t.stopped
      ensures forall t :: t in TracksOf(screenStream) ==> t.stopped
    {
      StopAll(TracksOf(localStream));
      StopAll(TracksOf(screenStream));
    }

    /** Unmount: disconnect, close, stop every local and screen track, clear `timerRef`. */
    method Unmount()
      modifies this, socket, pc, set t | t in TracksOf(localStream), set t | t in TracksOf(screenStream)
      ensures !socket.open && socket.outbox == old(socket.outbox) && pc.closed
      ensures forall t :: t in TracksOf(localStream) ==> t.stopped
      ensures forall t :: t in TracksOf(screenStream) ==> t.stopped
      ensures !timerLive && RunningTimers() == old(leakedTimers)
      ensures localStream == old(localStream) && screenStream == old(screenStream)
      ensures status == old(status) && callDuration == old(callDuration)
    {
      socket.Disconnect();
      pc.Close();
      StopStreams();
      timerLive := false;
    }
  }

  /** Flips `enabled` on exactly the tracks of kind `k`. */
  method FlipKind(ts: TrackList, k: Kind)
    modifies set t | t in ts
    ensures forall t :: t in ts ==>
      t.enabled == (if t.kind == k then !old(t.enabled) else old(t.enabled)) && t.stopped == old(t.stopped)
  {
    var sel := OfKind(ts, k);
    assert forall t :: t in sel ==> t in ts by {
      forall t | t in sel ensures t in ts {
        var i :| 0 <= i < |sel| && sel[i] == t;
      }
    }
    assert forall t :: t in ts && t.kind == k ==> t in sel by {
      forall t | t in ts && t.kind == k ensures t in sel {
        var i :| 0 <= i < |ts| && ts[i] == t;
      }
    }
    FlipEnabled(sel);
  }

  /** Muting twice puts every track and the flag back as they were. */
  method MuteTwiceRestores(page: Page)
    modifies page, set t | t in TracksOf(page.localStream)
    ensures page.localStream == old(page.localStream) && page.isMuted == old(page.isMuted)
    ensures forall t :: t in TracksOf(page.localStream) ==> t.enabled == old(t.enabled)
  {
    page.ToggleMute();
    page.ToggleMute();
  }

  /** Turning the camera off and on again puts every track and the flag back as they were. */
  method VideoTwiceRestores(page: Page)
    modifies page, set t | t in TracksOf(page.localStream)
    ensures page.localStream == old(page.localStream) && page.isVideoOff == old(page.isVideoOff)
    ensures forall t :: t in TracksOf(page.localStream) ==> t.enabled == old(t.enabled)
  {
    page.ToggleVideo();
    page.ToggleVideo();
  }

  /** The duration shown while in a call: minutes, a colon, two-digit seconds. */
  function DurationDisplay(d: nat): string
  {
    Text.Decimal(d / 60) + ":" + Text.TwoDigits(d % 60)
  }

  /**
   * The display reads back as the duration: it splits at the colon into the minutes and two
   * digits of seconds below 60, and minutes * 60 + seconds is `d`.
   */
  lemma DurationDisplayReadsBack(d: nat)
    ensures |Text.Split(DurationDisplay(d), ':')| == 2
    ensures var parts := Text.Split(DurationDisplay(d), ':');
      Text.AllDigits(parts[0]) && Text.AllDigits(parts[1]) && |parts[1]| == 2
      && Text.ParseDecimal(parts[1]) < 60
      && Text.ParseDecimal(parts[0]) * 60 + Text.ParseDecimal(parts[1]) == d
  {
    var m, s := Text.Decimal(d / 60), Text.TwoDigits(d % 60);
    Text.TwoDigitsValue(d % 60);
    Text.DecimalRoundTrip(d / 60);
    assert ':' !in m;
    assert ':' !in s;
    Text.SplitAfterPiece(m, ':', s);
    Text.SplitPlain(s, ':');
  }
}
