/**
 * src/pages/VoicePage.jsx: audio-only trickle signalling in the fixed room "test-room", with
 * no candidate buffer at all: remote candidates go straight to the connection, local ones
 * straight to the peer.
 */
module VoicePage {
  import opened Wrappers
  import opened Rtc
  import opened Channel

  const Room := "test-room"

  class Page {
    var socket: Socket?
    var pc: PeerConnection?
    var localStream: Option<MediaStream>
    /** The `remoteSocketId` captured by the current connection's `onicecandidate` closure. */
    var peerTarget: string
    var alerted: bool

    constructor ()
      ensures socket == null && pc == null && localStream == None && !alerted
    {
      socket, pc, localStream, peerTarget, alerted := null, null, None, "", false;
    }

    /** `init`: microphone first; when it is refused the page alerts and opens no socket. */
    method Init(media: Option<MediaStream>, socketId: string)
      modifies this
      ensures media.None? ==> alerted && socket == old(socket) && localStream == old(localStream)
      ensures media.Some? ==> localStream == media && fresh(socket) && socket.id == socketId
      ensures media.Some? ==> socket.outbox == [] && socket.open && alerted == old(alerted)
      ensures pc == old(pc)
    {
      if media.None? {
        alerted := true;
        return;
      }
      localStream := media;
      socket := new Socket(socketId);
    }

    method OnConnect()
      requires socket != null
      modifies socket
      ensures socket.outbox == old(socket.outbox) + [JoinRoom(Room)]
    {
      socket.Emit(JoinRoom(Room));
    }

    /** `createPeer`: a fresh connection sending every local track; the old one is not closed. */
    method CreatePeer(remote: string)
      modifies this
      ensures fresh(pc) && pc.local == None && pc.remote == None && pc.applied == [] && !pc.closed
      ensures pc.senders == TracksOf(localStream) && peerTarget == remote
      ensures old(pc) != null ==> old(pc).closed == old(pc.closed)
      ensures socket == old(socket) && localStream == old(localStream) && alerted == old(alerted)
    {
      pc := new PeerConnection();
      peerTarget := remote;
      if localStream.Some? {
        var _ := AddTracks(pc, localStream.value.tracks);
      }
    }

    /** `startCall` on `user-joined`. */
    method OnUserJoined(userId: string, made: Sdp)
      requires socket != null
      modifies this, socket
      ensures fresh(pc) && pc.senders == TracksOf(localStream) && pc.remote == None && !pc.closed
      ensures pc.applied == [] && peerTarget == userId
      ensures pc.local == if made.valid then Some(made) else None
      ensures socket == old(socket)
      ensures socket.outbox == old(socket.outbox) + if made.valid then [Offer(made, userId)] else []
      ensures localStream == old(localStream) && alerted == old(alerted)
    {
      CreatePeer(userId);
      var offer := pc.CreateOffer(made);
      var ok := pc.SetLocalDescription(offer.value);
      if ok {
        socket.Emit(Offer(offer.value, userId));
      }
    }

    /** `offer`: fresh connection, remote description, answer set as local and sent to `from`. */
    method OnOffer(offer: Sdp, from: string, made: Sdp)
      requires socket != null
      modifies this, socket
      ensures fresh(pc) && pc.senders == TracksOf(localStream) && peerTarget == from && !pc.closed
      ensures pc.remote == (if offer.valid then Some(offer) else None) && pc.applied == []
      ensures pc.local == if offer.valid && made.valid then Some(made) else None
      ensures socket == old(socket)
      ensures socket.outbox == old(socket.outbox) + if offer.valid && made.valid then [Answer(made, from)] else []
      ensures localStream == old(localStream) && alerted == old(alerted)
    {
      CreatePeer(from);
      var ok := pc.SetRemoteDescription(offer);
      if !ok {
        return;
      }
      var answer := pc.CreateAnswer(made);
      var applied := pc.SetLocalDescription(answer.value);
      if applied {
        socket.Emit(Answer(answer.value, from));
      }
    }

    /** `answer`: only sets the remote description (throws when there is no connection). */
    method OnAnswer(answer: Sdp)
      modifies pc
      ensures pc != null ==> pc.remote == if answer.valid && !old(pc.closed) then Some(answer) else old(pc.remote)
      ensures pc != null ==> pc.applied == old(pc.applied) && pc.local == old(pc.local)
      ensures pc != null ==> pc.closed == old(pc.closed) && pc.senders == old(pc.senders)
    {
      if pc != null {
        var _ := pc.SetRemoteDescription(answer);
      }
    }

    /**
     * `ice-candidate`: handed to the connection at once; a candidate that arrives before the
     * remote description (or with no connection at all) is rejected, the error caught and the
     * candidate lost.
     */
    method OnRemoteCandidate(c: Candidate)
      modifies pc
      ensures pc != null ==>
        pc.applied == old(pc.applied) + if old(pc.AcceptsCandidates()) && c.valid then [c] else []
      ensures pc != null ==> pc.remote == old(pc.remote) && pc.local == old(pc.local)
      ensures pc != null ==> pc.closed == old(pc.closed) && pc.senders == old(pc.senders)
    {
      if pc != null {
        var _ := pc.AddIceCandidate(c);
      }
    }

    /** `onicecandidate`: every gathered candidate is sent to the captured peer at once. */
    method OnLocalCandidate(c: Option<Candidate>)
      requires socket != null
      modifies socket
      ensures socket.outbox == old(socket.outbox) + if c.Some? then [IceCandidate(c.value, peerTarget)] else []
    {
      if c.Some? {
        socket.Emit(IceCandidate(c.value, peerTarget));
      }
    }

    /** Unmount: disconnect and close; the microphone track is not stopped. */
    method Unmount()
      modifies socket, pc
      ensures socket != null ==> !socket.open && socket.outbox == old(socket.outbox)
      ensures pc != null ==> pc.closed
      ensures forall t :: t in TracksOf(localStream) ==> t.stopped == old(t.stopped)
    {
      if socket != null {
        socket.Disconnect();
      }
      if pc != null {
        pc.Close();
      }
    }
  }
}
