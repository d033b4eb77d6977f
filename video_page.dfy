/**
 * src/pages/VideoPage.jsx: trickle signalling in the fixed room "video-room". One buffer,
 * `pendingCandidates`, holds both remote candidates that arrive before the remote description
 * and the page's own candidates gathered before it; `createPeer` empties it.
 */
module VideoPage {
  import opened Wrappers
  import opened Rtc
  import opened Channel

  const Room := "video-room"

  class Page {
    var socket: Socket?
    var pc: PeerConnection?
    var localStream: Option<MediaStream>
    var remoteDescSet: bool
    var pending: seq<Candidate>
    /** The `remoteSocketId` captured by the current connection's `onicecandidate` closure. */
    var peerTarget: string
    var alerted: bool

    constructor ()
      ensures socket == null && pc == null && localStream == None
      ensures !remoteDescSet && pending == [] && !alerted
    {
      socket, pc, localStream := null, null, None;
      remoteDescSet, pending, peerTarget, alerted := false, [], "", false;
    }

    /** `init`: without camera and microphone the page alerts and creates nothing. */
    method Init(media: Option<MediaStream>, socketId: string)
      modifies this
      ensures media.None? ==> alerted && socket == old(socket) && localStream == old(localStream)
      ensures media.Some? ==> localStream == media && fresh(socket) && socket.id == socketId
      ensures media.Some? ==> socket.outbox == [] && socket.open && alerted == old(alerted)
      ensures pc == old(pc) && remoteDescSet == old(remoteDescSet) && pending == old(pending)
    {
      if media.None? {
        alerted := true;
        return;
      }
      localStream := media;
      socket := new Socket(socketId);
    }

    method OnConnect()
      requires socket != null
      modifies socket
      ensures socket.outbox == old(socket.outbox) + [JoinRoom(Room)]
    {
      socket.Emit(JoinRoom(Room));
    }

    /**
     * `createPeer`: installs a fresh connection sending every local track, resets the flag and
     * empties the buffer. The previous connection is not closed.
     */
    method CreatePeer(remote: string)
      modifies this
      ensures fresh(pc) && pc.local == None && pc.remote == None && pc.applied == [] && !pc.closed
      ensures pc.senders == TracksOf(localStream)
      ensures !remoteDescSet && pending == [] && peerTarget == remote
      ensures old(pc) != null ==> old(pc).closed == old(pc.closed)
      ensures socket == old(socket) && localStream == old(localStream) && alerted == old(alerted)
    {
      pc := new PeerConnection();
      remoteDescSet := false;
      pending := [];
      peerTarget := remote;
      if localStream.Some? {
        var _ := AddTracks(pc, localStream.value.tracks);
      }
    }

    /** `startCall` on `user-joined`: create the connection, then the offer, set it, then emit it. */
    method OnUserJoined(userId: string, made: Sdp)
      requires socket != null
      modifies this, socket
      ensures fresh(pc) && pc.senders == TracksOf(localStream) && pc.remote == None && !pc.closed
      ensures pc.applied == [] && !remoteDescSet && pending == [] && peerTarget == userId
      ensures pc.local == if made.valid then Some(made) else None
      ensures socket == old(socket)
      ensures socket.outbox == old(socket.outbox) + if made.valid then [Offer(made, userId)] else []
      ensures localStream == old(localStream) && alerted == old(alerted)
    {
      CreatePeer(userId);
      var offer := pc.CreateOffer(made);
      var ok := pc.SetLocalDescription(offer.value);
      if ok {
        socket.Emit(Offer(offer.value, userId));
      }
    }

    /**
     * `offer`: a fresh connection first (so candidates buffered before the offer are discarded),
     * then the remote description, the flag, the flush of the now empty buffer, and the answer,
     * set as local and emitted to `from`. A rejected description ends the handler.
     */
    method OnOffer(offer: Sdp, from: string, made: Sdp)
      requires socket != null
      modifies this, socket
      ensures fresh(pc) && pc.senders == TracksOf(localStream) && peerTarget == from && !pc.closed
      ensures pc.remote == (if offer.valid then Some(offer) else None) && remoteDescSet == offer.valid
      ensures pc.applied == [] && pending == []
      ensures pc.local == if offer.valid && made.valid then Some(made) else None
      ensures socket == old(socket)
      ensures socket.outbox == old(socket.outbox) + if offer.valid && made.valid then [Answer(made, from)] else []
      ensures localStream == old(localStream) && alerted == old(alerted)
    {
      CreatePeer(from);
      var ok := pc.SetRemoteDescription(offer);
      if !ok {
        return;
      }
      remoteDescSet := true;
      ApplyCandidates(pc, pending);
      pending := [];
      var answer := pc.CreateAnswer(made);
      var applied := pc.SetLocalDescription(answer.value);
      if applied {
        socket.Emit(Answer(answer.value, from));
      }
    }

    /**
     * `answer`: set the remote description, raise the flag, flush the buffer in order (a
     * rejected candidate does not stop the rest), empty it. Without a connection it throws.
     */
    method OnAnswer(answer: Sdp)
      modifies this, pc
      ensures pc == old(pc) && socket == old(socket) && localStream == old(localStream)
      ensures pc == null ==> remoteDescSet == old(remoteDescSet) && pending == old(pending)
      ensures pc != null && (!answer.valid || old(pc.closed)) ==>
        remoteDescSet == old(remoteDescSet) && pending == old(pending) && pc.applied == old(pc.applied)
        && pc.remote == old(pc.remote)
      ensures pc != null && answer.valid && !old(pc.closed) ==>
        pc.remote == Some(answer) && remoteDescSet && pending == []
        && pc.applied == old(pc.applied) + Usable(old(pending))
      ensures pc != null ==> pc.local == old(pc.local) && pc.closed == old(pc.closed) && pc.senders == old(pc.senders)
      ensures peerTarget == old(peerTarget) && alerted == old(alerted)
    {
      if pc == null {
        return;
      }
      var ok := pc.SetRemoteDescription(answer);
      if !ok {
        return;
      }
      remoteDescSet := true;
      ApplyCandidates(pc, pending);
      pending := [];
    }

    /**
     * `ice-candidate` from the peer: applied at once when the flag is up, otherwise queued.
     * `c.valid` stands for both the `RTCIceCandidate` constructor accepting the payload and
     * `addIceCandidate` accepting the candidate. The constructor runs before the flag test and
     * outside the `try`, so a malformed payload throws and is neither applied nor queued; here
     * every `c` is queued, and `pending` may hold tokens the page would never have queued. What
     * is applied agrees, because the flush drops invalid tokens.
     */
    method OnRemoteCandidate(c: Candidate)
      modifies this, pc
      ensures pc == old(pc) && socket == old(socket) && remoteDescSet == old(remoteDescSet)
      ensures old(remoteDescSet) ==> pending == old(pending)
      ensures old(remoteDescSet) && pc != null ==>
        pc.applied == old(pc.applied) + if old(pc.AcceptsCandidates()) && c.valid then [c] else []
      ensures !old(remoteDescSet) ==> pending == old(pending) + [c]
      ensures !old(remoteDescSet) && pc != null ==> pc.applied == old(pc.applied)
      ensures pc != null ==> pc.remote == old(pc.remote) && pc.local == old(pc.local)
      ensures pc != null ==> pc.closed == old(pc.closed) && pc.senders == old(pc.senders)
      ensures localStream == old(localStream)
      ensures peerTarget == old(peerTarget) && alerted == old(alerted)
    {
      if remoteDescSet {
        if pc != null {
          var _ := pc.AddIceCandidate(c);
        }
      } else {
        pending := pending + [c];
      }
    }

    /**
     * `onicecandidate` of the current connection: sent to the captured peer only when the flag
     * is up, otherwise pushed onto the same buffer as the remote candidates.
     */
    method OnLocalCandidate(c: Option<Candidate>)
      requires socket != null
      modifies this, socket
      ensures socket == old(socket) && pc == old(pc) && remoteDescSet == old(remoteDescSet)
      ensures c.None? ==> pending == old(pending) && socket.outbox == old(socket.outbox)
      ensures c.Some? && remoteDescSet ==>
        pending == old(pending) && socket.outbox == old(socket.outbox) + [IceCandidate(c.value, peerTarget)]
      ensures c.Some? && !remoteDescSet ==>
        pending == old(pending) + [c.value] && socket.outbox == old(socket.outbox)
      ensures peerTarget == old(peerTarget) && localStream == old(localStream) && alerted == old(alerted)
    {
      if c.Some? {
        if remoteDescSet {
          socket.Emit(IceCandidate(c.value, peerTarget));
        } else {
          pending := pending + [c.value];
        }
      }
    }

    /** Unmount: disconnect and close; the local tracks are never stopped. */
    method Unmount()
      modifies socket, pc
      ensures socket != null ==> !socket.open && socket.outbox == old(socket.outbox)
      ensures pc != null ==> pc.closed
      ensures forall t :: t in TracksOf(localStream) ==> t.stopped == old(t.stopped)
    {
      if socket != null {
        socket.Disconnect();
      }
      if pc != null {
        pc.Close();
      }
    }
  }

  /**
   * On the offering side a candidate gathered before the answer lands in the shared buffer, so
   * the answer's flush hands it to the page's own connection and it is never sent to the peer.
   */
  method OwnCandidateLoopsBack(stream: MediaStream, socketId: string, peer: string, made: Sdp,
                               c: Candidate, answer: Sdp) returns (page: Page)
    requires made.valid && answer.valid && c.valid
    ensures page.socket != null && page.pc != null
    ensures page.pc.applied == [c]
    ensures page.socket.outbox == [Offer(made, peer)]
  {
    page := new Page();
    page.Init(Some(stream), socketId);
    page.OnUserJoined(peer, made);
    page.OnLocalCandidate(Some(c));
    page.OnAnswer(answer);
  }

  /** Candidates that reach the answering side before the offer are dropped by `createPeer`. */
  method EarlyCandidatesDropped(stream: MediaStream, socketId: string, early: seq<Candidate>,
                                offer: Sdp, from: string, made: Sdp) returns (page: Page)
    requires offer.valid && made.valid
    ensures page.socket != null && page.pc != null
    ensures page.pc.applied == [] && page.pending == []
    ensures page.socket.outbox == [Answer(made, from)]
  {
    page := new Page();
    page.Init(Some(stream), socketId);
    var i := 0;
    while i < |early|
      invariant 0 <= i <= |early|
      invariant page.socket != null && fresh(page.socket) && page.socket.outbox == [] && page.pc == null
      invariant !page.remoteDescSet && page.pending == early[..i]
    {
      page.OnRemoteCandidate(early[i]);
      assert early[..i + 1] == early[..i] + [early[i]];
      i := i + 1;
    }
    page.OnOffer(offer, from, made);
  }
}
