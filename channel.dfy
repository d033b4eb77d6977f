/**
 * The socket.io signalling and chat channel, seen from a page: the events the page emits, in
 * order, on an append-only outbox. Delivery, acknowledgement and reconnection are not modelled;
 * incoming events are the page methods that handle them.
 */
module Channel {
  import opened Wrappers
  import Rtc

  /** An account id as the pages hold it: a string from a route segment, or a number from the API. */
  datatype JsId = StrId(s: string) | NumId(n: nat)

  /** The `message` object CalleeVideoPage sends in `chat-message`. */
  datatype ChatLine = ChatLine(text: string, sender: string, timestamp: string)

  datatype Msg =
    /** `join-room` with a bare room id (VideoPage, VoicePage). */
    | JoinRoom(roomId: string)
    /** `join-room` with `{roomId, recipientId, loggedInUserName}` (CallerVideoPage, CalleeVideoPage). */
    | JoinRoomAs(roomId: string, recipientId: string, userName: string)
    /** `video-call-request` with `{roomId, from, to, username}`. */
    | VideoCallRequest(roomId: string, from: string, to: string, username: string)
    /** `offer` with `{offer, to}`. */
    | Offer(offer: Rtc.Sdp, to: string)
    /** `offer` with `{offer, candidates, to}` (CallerVideoPage's vaulted `startCall`). */
    | OfferWithCandidates(offer: Rtc.Sdp, candidates: seq<Rtc.Candidate>, to: string)
    /** `offer` with `{offer, iceCandidates, roomId, callerId, calleeId}` (CalleeVideoPage). */
    | RoomOffer(offer: Rtc.Sdp, iceCandidates: seq<Rtc.Candidate>, roomId: string, callerId: string, calleeId: string)
    /** `answer` with `{answer, to}`. */
    | Answer(answer: Rtc.Sdp, to: string)
    /** `answer` with `{answer, iceCandidates, to}` (CallerVideoPage's vaulted answer). */
    | AnswerWithCandidates(answer: Rtc.Sdp, iceCandidates: seq<Rtc.Candidate>, to: string)
    /** `ice-candidate` with `{candidate, to}`. */
    | IceCandidate(candidate: Rtc.Candidate, to: string)
    /** `ice-candidate` with `{candidate, roomId}` (CalleeVideoPage). */
    | RoomIceCandidate(candidate: Rtc.Candidate, roomId: string)
    /** `chat-message` with `{roomId, message}`. */
    | ChatMessage(roomId: string, line: ChatLine)
    /** `toggle-online-visibility` with `{id, showOnline}`. */
    | ToggleOnlineVisibility(id: string, showOnline: bool)
    /** `joinAstrologer` with `{astrologerId, isAstrologer}`. */
    | JoinAstrologer(astrologerId: string, isAstrologer: bool)
    /** `joinRoom` with `{roomId}`. */
    | JoinChatRoom(roomId: string)
    /** `getUnreadMessages` with `{astrologerId}`. */
    | GetUnreadMessages(astrologerId: string)
    /** `sendMessage` with `{roomId, senderId, receiverId, message, timestamp}`; a missing receiver is dropped by JSON. */
    | SendMessage(roomId: string, senderId: JsId, receiverId: Option<JsId>, message: string, timestamp: int)

  /** A client socket: its id and the events emitted on it. */
  class Socket {
    const id: string
    var outbox: seq<Msg>
    var open: bool

    constructor (id: string)
      ensures this.id == id && outbox == [] && open
    {
      this.id := id;
      outbox := [];
      open := true;
    }

    method Emit(m: Msg)
      modifies this
      ensures outbox == old(outbox) + [m] && open == old(open)
    {
      outbox := outbox + [m];
    }

    /** `disconnect()` is idempotent. */
    method Disconnect()
      modifies this
      ensures !open && outbox == old(outbox)
    {
      open := false;
    }
  }
}
