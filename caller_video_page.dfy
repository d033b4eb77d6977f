/**
 * src/pages/CallerVideoPage.jsx: despite its name the page that ANSWERS. The offer carries
 * the offerer's candidates in one batch; the answer is sent only once the page's own gathering
 * has ended ("vault" signalling), with all its candidates in one batch.
 */
module CallerVideoPage {
  import opened Wrappers
  import opened Rtc
  import opened Channel
  import Text

  /** Which `onicecandidate` handler the current connection carries. */
  datatype IceMode =
    | NoHandler  // `createPeer(true, …)` installs none
    | Trickle    // `createPeer(false, …)`: send when the flag is up, otherwise buffer
    | Vault      // replaced by the gathering promise: candidates go into a local batch

  class Page {
    const roomId: string
    const recipientId: string
    const role: string
    const userName: string

    var socket: Socket?
    var pc: PeerConnection?
    var localStream: Option<MediaStream>
    var remoteDescSet: bool
    var pending: seq<Candidate>
    var iceMode: IceMode
    var peerTarget: string
    var alerted: bool

    /**
     * The query parameters `roomId`, `callee` and `role`, each defaulted by JavaScript `||`
     * to "video-room", "astrologer" and "callee"; `userName` is the logged-in user's name.
     */
    constructor (roomParam: Option<string>, calleeParam: Option<string>, roleParam: Option<string>,
                 userName: string)
      ensures roomId == Text.Or(roomParam, "video-room")
      ensures recipientId == Text.Or(calleeParam, "astrologer")
      ensures role == Text.Or(roleParam, "callee")
      ensures this.userName == userName
      ensures socket == null && pc == null && localStream == None && iceMode == NoHandler
      ensures !remoteDescSet && pending == [] && !alerted
    {
      roomId := Text.Or(roomParam, "video-room");
      recipientId := Text.Or(calleeParam, "astrologer");
      role := Text.Or(roleParam, "callee");
      this.userName := userName;
      socket, pc, localStream, iceMode := null, null, None, NoHandler;
      remoteDescSet, pending, peerTarget, alerted := false, [], "", false;
    }

    /** `init`: camera and microphone first; when refused the page alerts and returns. */
    method Init(media: Option<MediaStream>, socketId: string)
      modifies this
      ensures media.None? ==> alerted && socket == old(socket) && localStream == old(localStream)
      ensures media.Some? ==> localStream == media && fresh(socket) && socket.id == socketId
      ensures media.Some? ==> socket.outbox == [] && socket.open && alerted == old(alerted)
      ensures pc == old(pc) && remoteDescSet == old(remoteDescSet) && pending == old(pending)
      ensures iceMode == old(iceMode)
    {
      if media.None? {
        alerted := true;
        return;
      }
      localStream := media;
      socket := new Socket(socketId);
    }

    /** `connect`: join the room, then ask the recipient for a call, whatever the role. */
    method OnConnect()
      requires socket != null
      modifies socket
      ensures socket.outbox == old(socket.outbox)
        + [JoinRoomAs(roomId, recipientId, userName), VideoCallRequest(roomId, socket.id, recipientId, userName)]
    {
      socket.Emit(JoinRoomAs(roomId, recipientId, userName));
      socket.Emit(VideoCallRequest(roomId, socket.id, recipientId, userName));
    }

    /**
     * `createPeer`: a fresh connection sending every local track, flag down, buffer empty; only
     * a non-initiator gets the trickle handler. The old connection is not closed.
     */
    method CreatePeer(initiator: bool, remote: string)
      modifies this
      ensures fresh(pc) && pc.local == None && pc.remote == None && pc.applied == [] && !pc.closed
      ensures pc.senders == TracksOf(localStream)
      ensures !remoteDescSet && pending == [] && peerTarget == remote
      ensures iceMode == if initiator then NoHandler else Trickle
      ensures socket == old(socket) && localStream == old(localStream) && alerted == old(alerted)
    {
      pc := new PeerConnection();
      remoteDescSet := false;
      pending := [];
      peerTarget := remote;
      iceMode := if initiator then NoHandler else Trickle;
      if localStream.Some? {
        var _ := AddTracks(pc, localStream.value.tracks);
      }
    }

    /**
     * `offer {offer, iceCandidates, calleeId}`: fresh non-initiator connection, remote
     * description, flag up, every batched candidate tried in order (`for … of` throws when the
     * batch is missing), answer set as local; then the handler is replaced by the gathering
     * promise and the answer goes to `calleeId` with the batch once gathering ends. `events` is
     * what the connection reports from then on, `None` marking the end.
     */
    method OnOffer(offer: Sdp, iceCandidates: Option<seq<Candidate>>, calleeId: string, made: Sdp,
                   events: seq<Option<Candidate>>)
      requires socket != null
      modifies this, socket
      ensures fresh(pc) && !pc.closed && pc.senders == TracksOf(localStream) && peerTarget == calleeId
      ensures pending == [] && remoteDescSet == offer.valid
      ensures pc.remote == if offer.valid then Some(offer) else None
      ensures pc.applied == if offer.valid && iceCandidates.Some? then Usable(iceCandidates.value) else []
      ensures pc.local == if offer.valid && iceCandidates.Some? && made.valid then Some(made) else None
      ensures iceMode == if offer.valid && iceCandidates.Some? && made.valid then Vault else Trickle
      ensures socket == old(socket)
      ensures socket.outbox == old(socket.outbox) +
        if offer.valid && iceCandidates.Some? && made.valid && Vaulted(events).Some?
        then [AnswerWithCandidates(made, Vaulted(events).value, calleeId)] else []
      ensures localStream == old(localStream) && alerted == old(alerted)
    {
      CreatePeer(false, calleeId);
      var ok := pc.SetRemoteDescription(offer);
      if !ok {
        return;
      }
      remoteDescSet := true;
      if iceCandidates.None? {
        return;
      }
      ApplyCandidates(pc, iceCandidates.value);
      var answer := pc.CreateAnswer(made);
      var applied := pc.SetLocalDescription(answer.value);
      if !applied {
        return;
      }
      iceMode := Vault;
      var batch := GatherUntilEnd(events);
      if batch.Some? {
        socket.Emit(AnswerWithCandidates(answer.value, batch.value, calleeId));
      }
    }

    /**
     * `answer`: acted on only when the role is "caller": remote description, flag up, the
     * buffer flushed in order and emptied. Without a connection it throws.
     */
    method OnAnswer(answer: Sdp)
      modifies this, pc
      ensures pc == old(pc) && socket == old(socket) && iceMode == old(iceMode)
      ensures role != "caller" || pc == null ==> remoteDescSet == old(remoteDescSet) && pending == old(pending)
      ensures role != "caller" && pc != null ==> pc.remote == old(pc.remote) && pc.applied == old(pc.applied)
      ensures role == "caller" && pc != null && (!answer.valid || old(pc.closed)) ==>
        remoteDescSet == old(remoteDescSet) && pending == old(pending) && pc.applied == old(pc.applied)
        && pc.remote == old(pc.remote)
      ensures role == "caller" && pc != null && answer.valid && !old(pc.closed) ==>
        pc.remote == Some(answer) && remoteDescSet && pending == []
        && pc.applied == old(pc.applied) + Usable(old(pending))
      ensures pc != null ==> pc.local == old(pc.local) && pc.closed == old(pc.closed) && pc.senders == old(pc.senders)
      ensures peerTarget == old(peerTarget) && localStream == old(localStream) && alerted == old(alerted)
    {
      if role != "caller" || pc == null {
        return;
      }
      var ok := pc.SetRemoteDescription(answer);
      if !ok {
        return;
      }
      remoteDescSet := true;
      ApplyCandidates(pc, pending);
      pending := [];
    }

    /** `ice-candidate`: applied at once when the flag is up, otherwise queued. */
    method OnRemoteCandidate(c: Candidate)
      modifies this, pc
      ensures pc == old(pc) && socket == old(socket) && remoteDescSet == old(remoteDescSet)
      ensures iceMode == old(iceMode)
      ensures old(remoteDescSet) ==> pending == old(pending)
      ensures old(remoteDescSet) && pc != null ==>
        pc.applied == old(pc.applied) + if old(pc.AcceptsCandidates()) && c.valid then [c] else []
      ensures !old(remoteDescSet) ==> pending == old(pending) + [c]
      ensures !old(remoteDescSet) && pc != null ==> pc.applied == old(pc.applied)
      ensures pc != null ==> pc.remote == old(pc.remote) && pc.local == old(pc.local)
      ensures pc != null ==> pc.closed == old(pc.closed) && pc.senders == old(pc.senders)
      ensures peerTarget == old(peerTarget) && localStream == old(localStream) && alerted == old(alerted)
    {
      if remoteDescSet {
        if pc != null {
          var _ := pc.AddIceCandidate(c);
        }
      } else {
        pending := pending + [c];
      }
    }

    /**
     * A candidate the current connection gathers: the trickle handler sends or buffers it; with
     * no handler, or once the gathering promise holds the handler, nothing is sent.
     */
    method OnLocalCandidate(c: Option<Candidate>)
      requires socket != null
      modifies this, socket
      ensures socket == old(socket) && pc == old(pc) && remoteDescSet == old(remoteDescSet)
      ensures iceMode == old(iceMode)
      ensures c.Some? && iceMode == Trickle && remoteDescSet ==>
        pending == old(pending) && socket.outbox == old(socket.outbox) + [IceCandidate(c.value, peerTarget)]
      ensures c.Some? && iceMode == Trickle && !remoteDescSet ==>
        pending == old(pending) + [c.value] && socket.outbox == old(socket.outbox)
      ensures c.None? || iceMode != Trickle ==> pending == old(pending) && socket.outbox == old(socket.outbox)
      ensures peerTarget == old(peerTarget) && localStream == old(localStream) && alerted == old(alerted)
    {
      if c.Some? && iceMode == Trickle {
        if remoteDescSet {
          socket.Emit(IceCandidate(c.value, peerTarget));
        } else {
          pending := pending + [c.value];
        }
      }
    }

    /**
     * `startCall(remoteSocketId)`, which nothing on the page calls: initiator connection, offer
     * set as local, and once gathering ends the offer with its batch under the key `candidates`.
     */
    method StartCall(remote: string, made: Sdp, events: seq<Option<Candidate>>)
      requires socket != null
      modifies this, socket
      ensures fresh(pc) && !pc.closed && pc.senders == TracksOf(localStream) && pc.remote == None
      ensures pc.applied == [] && !remoteDescSet && pending == [] && peerTarget == remote
      ensures pc.local == (if made.valid then Some(made) else None)
      ensures iceMode == if made.valid then Vault else NoHandler
      ensures socket == old(socket)
      ensures socket.outbox == old(socket.outbox) +
        if made.valid && Vaulted(events).Some? then [OfferWithCandidates(made, Vaulted(events).value, remote)] else []
      ensures localStream == old(localStream) && alerted == old(alerted)
    {
      CreatePeer(true, remote);
      var offer := pc.CreateOffer(made);
      var ok := pc.SetLocalDescription(offer.value);
      if !ok {
        return;
      }
      iceMode := Vault;
      var batch := GatherUntilEnd(events);
      if batch.Some? {
        socket.Emit(OfferWithCandidates(offer.value, batch.value, remote));
      }
    }

    /** Cleanup: disconnect and close; the local tracks are not stopped. */
    method Unmount()
      modifies socket, pc
      ensures socket != null ==> !socket.open && socket.outbox == old(socket.outbox)
      ensures pc != null ==> pc.closed
      ensures forall t :: t in TracksOf(localStream) ==> t.stopped == old(t.stopped)
    {
      if socket != null {
        socket.Disconnect();
      }
      if pc != null {
        pc.Close();
      }
    }
  }

  /**
   * A complete answering exchange: the answer is sent to the offerer exactly once, carrying
   * precisely the candidates gathered before the end marker, and every usable batched offer
   * candidate reaches the connection.
   */
  method AnswerCarriesGathered(stream: MediaStream, socketId: string, userName: string,
                               offer: Sdp, offered: seq<Candidate>, calleeId: string, made: Sdp,
                               gathered: seq<Candidate>, later: seq<Option<Candidate>>)
    returns (page: Page)
    requires offer.valid && made.valid
    ensures page.socket != null && page.pc != null
    ensures page.socket.outbox == [JoinRoomAs("video-room", "astrologer", userName),
                                   VideoCallRequest("video-room", socketId, "astrologer", userName),
                                   AnswerWithCandidates(made, gathered, calleeId)]
    ensures page.pc.applied == Usable(offered)
  {
    page := new Page(None, None, None, userName);
    page.Init(Some(stream), socketId);
    page.OnConnect();
    VaultedBatch(gathered, later);
    page.OnOffer(offer, Some(offered), calleeId, made, Reported(gathered) + [None] + later);
  }
}
