/**
 * src/pages/AstrologerDashboard.jsx: the astrologer's landing page. Its socket announces the
 * astrologer as online, relays incoming call requests as toasts and answers offers on a
 * connection of its own, which it creates on the first offer and never closes; plus the
 * notification list and the client carousel.
 */
module AstrologerDashboard {
  import opened Wrappers
  import opened Rtc
  import opened Channel
  import Text
  import Carousel

  /** An unread message; `id` is the record's `_id`. */
  datatype Unread = Unread(id: string, senderId: string, message: string, timestamp: string, roomId: string)

  datatype Toast =
    | CallToast(username: string, link: string)
    | ErrorToast(text: string)

  datatype Navigation =
    | ToPath(path: string)
    /** `/video` with the router state `{roomId, recipientId, role}`. */
    | ToVideo(roomId: string, recipientId: string, role: string)
    /** `/chat/<roomId>` with the router state `{senderId}`. */
    | ToChat(path: string, senderId: string)

  const OfferFailed := "Failed to handle video call offer"

  /**
   * Whether the offer handler gets through on a connection that is `open`: the offer, the
   * candidate if one came with it, and the answer are all accepted.
   */
  predicate OfferAnswered(offer: Sdp, candidate: Option<Candidate>, made: Sdp, open: bool)
  {
    open && offer.valid && (candidate.None? || candidate.value.valid) && made.valid
  }

  /** The "Join Call" button's target for a request in `roomId` from `from`. */
  function CallLink(roomId: string, from: string): string
  {
    "/callee-video?roomId=" + roomId + "&callerId=" + from
  }

  /**
   * The link carries exactly the two query parameters CalleeVideoPage reads, `roomId` and
   * `callerId`, with the request's values (when neither contains '&').
   */
  lemma CallLinkQuery(roomId: string, from: string)
    requires '&' !in roomId && '&' !in from
    ensures CallLink(roomId, from)[..|"/callee-video?"|] == "/callee-video?"
    ensures Text.Split(CallLink(roomId, from)[|"/callee-video?"|..], '&') == ["roomId=" + roomId, "callerId=" + from]
  {
    var query := CallLink(roomId, from)[|"/callee-video?"|..];
    assert query == ("roomId=" + roomId) + ['&'] + ("callerId=" + from);
    assert '&' !in "roomId=" + roomId;
    assert '&' !in "callerId=" + from;
    Text.SplitAfterPiece("roomId=" + roomId, '&', "callerId=" + from);
    Text.SplitPlain("callerId=" + from, '&');
  }

  /** `prev.filter(msg => msg._id !== messageId)` */
  function WithoutId(ms: seq<Unread>, messageId: string): (r: seq<Unread>)
    ensures |r| <= |ms|
    ensures forall i :: 0 <= i < |r| ==> r[i].id != messageId
    ensures forall m :: m in r <==> m in ms && m.id != messageId
  {
    if ms == [] then []
    else (if ms[0].id != messageId then [ms[0]] else []) + WithoutId(ms[1..], messageId)
  }

  /** The filter works piecewise, so the kept messages stay in their original order. */
  lemma {:induction false} WithoutIdConcat(a: seq<Unread>, b: seq<Unread>, messageId: string)
    ensures WithoutId(a + b, messageId) == WithoutId(a, messageId) + WithoutId(b, messageId)
  {
    if a == [] {
      assert a + b == b;
    } else {
      assert (a + b)[0] == a[0] && (a + b)[1..] == a[1..] + b;
      WithoutIdConcat(a[1..], b, messageId);
    }
  }

  /** Marking the same message twice is the same as once. */
  lemma WithoutIdIdempotent(ms: seq<Unread>, messageId: string)
    ensures WithoutId(WithoutId(ms, messageId), messageId) == WithoutId(ms, messageId)
  {
    WithoutIdAbsent(WithoutId(ms, messageId), messageId);
  }

  /** A list without that id is left as it is. */
  lemma {:induction false} WithoutIdAbsent(ms: seq<Unread>, messageId: string)
    requires forall i :: 0 <= i < |ms| ==> ms[i].id != messageId
    ensures WithoutId(ms, messageId) == ms
  {
    if ms != [] {
      WithoutIdAbsent(ms[1..], messageId);
      assert [ms[0]] + ms[1..] == ms;
    }
  }

  class Dashboard<Client> {
    /** The logged-in astrologer's id and token ("" for a missing one). */
    const astrologerId: string
    const token: string
    /** The client list `useClients` delivered. */
    const clients: seq<Client>

    var socket: Socket?
    var pc: PeerConnection?
    /** The `from` of the offer that created the connection, captured by its `onicecandidate`. */
    var peerTarget: string
    var isConnected: bool
    var unreadMessages: seq<Unread>
    var isNotificationOpen: bool
    var index: nat
    var toasts: seq<Toast>
    var location: Option<Navigation>

    constructor (astrologerId: string, token: string, clients: seq<Client>)
      ensures this.astrologerId == astrologerId && this.token == token && this.clients == clients
      ensures socket == null && pc == null && !isConnected && unreadMessages == [] && !isNotificationOpen
      ensures index == 0 && toasts == [] && location == None
      ensures Valid()
    {
      this.astrologerId, this.token, this.clients := astrologerId, token, clients;
      socket, pc, peerTarget, isConnected := null, null, "", false;
      unreadMessages, isNotificationOpen, index, toasts, location := [], false, 0, [], None;
    }

    /** The carousel index stays inside the list, or at 0 when the list is empty. */
    predicate Valid()
      reads this
    {
      index < |clients| || index == 0
    }

    /** The WebSocket effect: nothing happens unless both the id and the token are present. */
    method Setup(socketId: string)
      modifies this
      ensures astrologerId == "" || token == "" ==> socket == old(socket)
      ensures astrologerId != "" && token != "" ==>
        fresh(socket) && socket.id == socketId && socket.outbox == [] && socket.open
      ensures pc == old(pc) && isConnected == old(isConnected) && index == old(index)
      ensures unreadMessages == old(unreadMessages) && toasts == old(toasts) && location == old(location)
      ensures isNotificationOpen == old(isNotificationOpen) && peerTarget == old(peerTarget)
    {
      if astrologerId == "" || token == "" {
        return;
      }
      socket := new Socket(socketId);
    }

    /** `connect`: online, then the four announcements in order. */
    method OnConnect()
      requires socket != null
      modifies this, socket
      ensures isConnected && socket == old(socket) && pc == old(pc) && index == old(index)
      ensures socket.outbox == old(socket.outbox) + [ToggleOnlineVisibility(astrologerId, true),
        JoinAstrologer(astrologerId, true), JoinChatRoom(astrologerId), GetUnreadMessages(astrologerId)]
      ensures unreadMessages == old(unreadMessages) && toasts == old(toasts) && location == old(location)
      ensures isNotificationOpen == old(isNotificationOpen) && peerTarget == old(peerTarget)
    {
      isConnected := true;
      socket.Emit(ToggleOnlineVisibility(astrologerId, true));
      socket.Emit(JoinAstrologer(astrologerId, true));
      socket.Emit(JoinChatRoom(astrologerId));
      socket.Emit(GetUnreadMessages(astrologerId));
    }

    /** `connect_error` and `disconnect`. */
    method OnDisconnect()
      modifies this
      ensures !isConnected && socket == old(socket) && pc == old(pc) && index == old(index)
      ensures unreadMessages == old(unreadMessages) && toasts == old(toasts) && location == old(location)
      ensures isNotificationOpen == old(isNotificationOpen) && peerTarget == old(peerTarget)
    {
      isConnected := false;
    }

    /** `video-call-request`: only a toast whose button leads to CalleeVideoPage. */
    method OnVideoCallRequest(roomId: string, from: string, username: string)
      modifies this
      ensures toasts == old(toasts) + [CallToast(username, CallLink(roomId, from))]
      ensures socket == old(socket) && pc == old(pc) && location == old(location) && index == old(index)
      ensures unreadMessages == old(unreadMessages) && isConnected == old(isConnected)
      ensures isNotificationOpen == old(isNotificationOpen) && peerTarget == old(peerTarget)
    {
      toasts := toasts + [CallToast(username, CallLink(roomId, from))];
    }

    /** "Join Call" on the toast at position `i`. */
    method JoinCall(i: nat)
      requires i < |toasts| && toasts[i].CallToast?
      modifies this
      ensures location == Some(ToPath(old(toasts[i].link)))
      ensures toasts == old(toasts) && socket == old(socket) && pc == old(pc) && index == old(index)
      ensures isNotificationOpen == old(isNotificationOpen) && peerTarget == old(peerTarget)
      ensures isConnected == old(isConnected) && unreadMessages == old(unreadMessages)
    {
      location := Some(ToPath(toasts[i].link));
    }

    /**
     * `offer {offer, candidate, from}`: a connection (with no tracks, as `localStream` is never
     * assigned) is created only if none exists; then the remote description, the single
     * candidate if there is one, the answer set as local and sent to `from`, and a move to
     * `/video`. Any failure, the candidate's included, shows the error toast instead.
     */
    method OnOffer(offer: Sdp, candidate: Option<Candidate>, from: string, made: Sdp)
      requires socket != null
      modifies this, socket, pc
      ensures socket == old(socket) && pc != null && index == old(index)
      ensures old(pc) != null ==> pc == old(pc) && peerTarget == old(peerTarget)
      ensures old(pc) == null ==> fresh(pc) && pc.senders == [] && peerTarget == from
      ensures OfferAnswered(offer, candidate, made, old(pc == null || !pc.closed)) ==>
        socket.outbox == old(socket.outbox) + [Answer(made, from)]
        && location == Some(ToVideo(from, from, "callee")) && toasts == old(toasts)
        && pc.remote == Some(offer) && pc.local == Some(made)
      ensures !OfferAnswered(offer, candidate, made, old(pc == null || !pc.closed)) ==>
        socket.outbox == old(socket.outbox) && location == old(location)
        && toasts == old(toasts) + [ErrorToast(OfferFailed)]
      ensures pc.applied == (if old(pc) == null then [] else old(pc.applied)) +
        if offer.valid && !pc.closed && candidate.Some? && candidate.value.valid then [candidate.value] else []
      ensures pc.senders == (if old(pc) == null then [] else old(pc.senders))
      ensures pc.closed == (old(pc) != null && old(pc.closed))
      ensures unreadMessages == old(unreadMessages) && isConnected == old(isConnected)
      ensures isNotificationOpen == old(isNotificationOpen)
      ensures offer.valid && old(pc == null || !pc.closed) ==> pc.remote == Some(offer)
      ensures !(offer.valid && old(pc == null || !pc.closed)) ==> pc.remote == (if old(pc) == null then None else old(pc.remote))
      ensures !OfferAnswered(offer, candidate, made, old(pc == null || !pc.closed)) ==> pc.local == (if old(pc) == null then None else old(pc.local))
    {
      if pc == null {
        pc := new PeerConnection();
        peerTarget := from;
      }
      var ok := pc.SetRemoteDescription(offer);
      if !ok {
        toasts := toasts + [ErrorToast(OfferFailed)];
        return;
      }
      if candidate.Some? {
        var added := pc.AddIceCandidate(candidate.value);
        if !added {
          toasts := toasts + [ErrorToast(OfferFailed)];
          return;
        }
      }
      var answer := pc.CreateAnswer(made);
      var applied := pc.SetLocalDescription(answer.value);
      if !applied {
        toasts := toasts + [ErrorToast(OfferFailed)];
        return;
      }
      socket.Emit(Answer(answer.value, from));
      location := Some(ToVideo(from, from, "callee"));
    }

    /** `ice-candidate`: applied when it is present and a connection exists; failures are caught. */
    method OnRemoteCandidate(c: Option<Candidate>)
      modifies pc
      ensures pc != null ==>
        pc.applied == old(pc.applied) + if c.Some? && old(pc.AcceptsCandidates()) && c.value.valid then [c.value] else []
      ensures pc != null ==> pc.remote == old(pc.remote) && pc.local == old(pc.local)
      ensures pc != null ==> pc.closed == old(pc.closed) && pc.senders == old(pc.senders)
    {
      if c.Some? && pc != null {
        var _ := pc.AddIceCandidate(c.value);
      }
    }

    /** The connection's `onicecandidate`: sent to the peer whose offer created it. */
    method OnLocalCandidate(c: Option<Candidate>)
      requires socket != null
      modifies socket
      ensures socket.outbox == old(socket.outbox) +
        if c.Some? && pc != null then [IceCandidate(c.value, peerTarget)] else []
    {
      if c.Some? && pc != null {
        socket.Emit(IceCandidate(c.value, peerTarget));
      }
    }

    /** Unmount: the teardown closure is discarded by the effect, so nothing is released. */
    method Unmount()
      ensures socket != null ==> socket.open == old(socket.open)
      ensures pc != null ==> pc.closed == old(pc.closed)
    {
    }

    /** `handleReply`: with a socket and a room id, join that room and open the chat. */
    method HandleReply(message: Unread)
      modifies this, socket
      ensures socket == old(socket) && pc == old(pc) && index == old(index)
      ensures socket != null && message.roomId != "" ==>
        socket.outbox == old(socket.outbox) + [JoinChatRoom(message.roomId)]
        && location == Some(ToChat("/chat/" + message.roomId, message.senderId)) && !isNotificationOpen
      ensures socket == null || message.roomId == "" ==>
        (socket != null ==> socket.outbox == old(socket.outbox))
        && location == old(location) && isNotificationOpen == old(isNotificationOpen)
      ensures peerTarget == old(peerTarget) && isConnected == old(isConnected)
      ensures unreadMessages == old(unreadMessages) && toasts == old(toasts)
    {
      if socket != null && message.roomId != "" {
        socket.Emit(JoinChatRoom(message.roomId));
        location := Some(ToChat("/chat/" + message.roomId, message.senderId));
        isNotificationOpen := false;
      }
    }

    /** `handleMarkAsRead` */
    method HandleMarkAsRead(messageId: string)
      modifies this
      ensures unreadMessages == WithoutId(old(unreadMessages), messageId)
      ensures socket == old(socket) && pc == old(pc) && index == old(index) && location == old(location)
      ensures isNotificationOpen == old(isNotificationOpen) && peerTarget == old(peerTarget)
      ensures isConnected == old(isConnected) && toasts == old(toasts)
    {
      unreadMessages := WithoutId(unreadMessages, messageId);
    }

    /** `nextSlide`, whose button renders only with more than one client. */
    method NextSlide()
      requires Valid() && |clients| > 1
      modifies this
      ensures Valid() && index == Carousel.Next(old(index), |clients|)
      ensures socket == old(socket) && pc == old(pc) && location == old(location)
      ensures isNotificationOpen == old(isNotificationOpen) && peerTarget == old(peerTarget)
      ensures isConnected == old(isConnected) && unreadMessages == old(unreadMessages) && toasts == old(toasts)
    {
      index := Carousel.Next(index, |clients|);
    }

    /**
     * `prevSlide` reads an unbound `prev`: it always throws a ReferenceError. That the index
     * and all other state stay unchanged rests on the missing `modifies` clause, not on an ensures.
     */
    method PrevSlide() returns (thrown: bool)
      ensures thrown
    {
      thrown := true;
    }

    /** `visibleClients` */
    function VisibleClients(): (r: seq<Client>)
      requires Valid()
      reads this
      ensures |clients| >= 3 ==> |r| == 3 && forall k :: 0 <= k < 3 ==> r[k] == clients[(index + k) % |clients|]
      ensures |clients| < 3 ==> r == clients
    {
      Carousel.Window(clients, index)
    }
  }

  /** Candidates that reach the page before its first offer are lost: there is no connection. */
  method EarlyCandidatesLost<Client>(clients: seq<Client>, id: string, token: string, socketId: string,
                                     early: Candidate, offer: Sdp, from: string, made: Sdp)
    returns (page: Dashboard<Client>)
    requires id != "" && token != "" && offer.valid && made.valid && early.valid
    ensures page.pc != null && page.pc.applied == [] && page.pc.senders == []
    ensures page.socket != null && page.socket.outbox == [Answer(made, from)]
    ensures page.location == Some(ToVideo(from, from, "callee"))
  {
    page := new Dashboard(id, token, clients);
    page.Setup(socketId);
    page.OnRemoteCandidate(Some(early));
    page.OnOffer(offer, None, from, made);
  }
}
