/**
 * src/pages/ChatPage.jsx: the chat room page. The route id is the room id; the second and third
 * '_'-separated segments name the astrologer and the user, and the receiver is whichever of
 * the two the current user is not, by strict equality against the string segment.
 */
module ChatPage {
  import opened Wrappers
  import opened Channel
  import Text
  import BookingDetail
  import UseChat

  /** Element `k` of `id.split('_')`, or `undefined` (None) past its end. */
  function Segment(id: string, k: nat): (r: Option<string>)
    ensures r.Some? <==> k < |Text.Split(id, '_')|
    ensures r.Some? ==> r.value == Text.Split(id, '_')[k] && '_' !in r.value
  {
    var parts := Text.Split(id, '_');
    if k < |parts| then Some(parts[k]) else None
  }

  /** `const [astrologerId, userId] = id.split('_').slice(1)` */
  function Segments(id: string): (Option<string>, Option<string>)
  {
    (Segment(id, 1), Segment(id, 2))
  }

  /** JavaScript's `me === seg` for a segment that is a string or `undefined`. */
  predicate StrictlyEqual(me: JsId, seg: Option<string>)
  {
    me.StrId? && seg == Some(me.s)
  }

  /** A segment as the receiver id: a string, or `undefined`. */
  function AsId(seg: Option<string>): (r: Option<JsId>)
    ensures r.Some? <==> seg.Some?
    ensures r.Some? ==> r.value == StrId(seg.value)
  {
    if seg.Some? then Some(StrId(seg.value)) else None
  }

  /** `currentUser.id === astrologerId ? userId : astrologerId` */
  function ReceiverFor(me: JsId, id: string): (r: Option<JsId>)
  {
    var (astrologerId, userId) := Segments(id);
    if StrictlyEqual(me, astrologerId) then AsId(userId) else AsId(astrologerId)
  }

  /**
   * Parsing the id `BookingDetail` builds recovers both ids when neither holds '_', and any
   * further segments are ignored.
   */
  lemma {:induction false} ChatRoomIdParses(a: string, u: string, rest: seq<string>)
    requires '_' !in a && '_' !in u
    ensures Segments(BookingDetail.ChatRoomId(a, u)) == (Some(a), Some(u))
    ensures Segments(BookingDetail.ChatRoomId(a, u) + Suffix(rest)) == (Some(a), Some(u))
  {
    var tail := u + Suffix(rest);
    assert BookingDetail.ChatRoomId(a, u) == "chat" + ['_'] + (a + ['_'] + u);
    assert BookingDetail.ChatRoomId(a, u) + Suffix(rest) == "chat" + ['_'] + (a + ['_'] + tail);
    Text.SplitPlain(u, '_');
    Text.SplitAfterPiece(a, '_', u);
    Text.SplitAfterPiece("chat", '_', a + ['_'] + u);
    SplitWithSuffix(u, rest);
    Text.SplitAfterPiece(a, '_', tail);
    Text.SplitAfterPiece("chat", '_', a + ['_'] + tail);
  }

  /** `rest` written after the id, one '_' before each extra segment. */
  function Suffix(rest: seq<string>): string
  {
    if rest == [] then "" else "_" + rest[0] + Suffix(rest[1..])
  }

  /** A separator-free piece followed by extra segments splits with that piece first. */
  lemma {:induction false} SplitWithSuffix(u: string, rest: seq<string>)
    requires '_' !in u
    ensures Text.Split(u + Suffix(rest), '_')[0] == u
  {
    if rest == [] {
      assert u + Suffix(rest) == u;
      Text.SplitPlain(u, '_');
    } else {
      assert u + Suffix(rest) == u + ['_'] + (rest[0] + Suffix(rest[1..]));
      Text.SplitAfterPiece(u, '_', rest[0] + Suffix(rest[1..]));
    }
  }

  /**
   * The receiver is the user segment exactly when the current id is the astrologer segment as a
   * string; otherwise it is the astrologer segment.
   */
  lemma ReceiverChoice(me: JsId, a: string, u: string)
    requires '_' !in a && '_' !in u
    ensures me == StrId(a) ==> ReceiverFor(me, BookingDetail.ChatRoomId(a, u)) == Some(StrId(u))
    ensures me != StrId(a) ==> ReceiverFor(me, BookingDetail.ChatRoomId(a, u)) == Some(StrId(a))
  {
    ChatRoomIdParses(a, u, []);
  }

  /** A numeric `currentUser.id` never equals a string segment, so the astrologer is always the receiver. */
  lemma NumericIdNeverMatches(n: nat, id: string)
    ensures ReceiverFor(NumId(n), id) == AsId(Segment(id, 1))
  {
  }

  class Page {
    /** The route id, used unchanged as the room id. */
    const roomId: string
    const hook: UseChat.ChatHook
    var input: string

    constructor (id: string, me: JsId, socketId: string)
      ensures roomId == id && input == ""
      ensures fresh(hook) && hook.roomId == id && hook.me == me && hook.receiverId == ReceiverFor(me, id)
      ensures hook.messages == [] && (id == "" ==> hook.socket == null)
      ensures id != "" ==> fresh(hook.socket) && hook.socket.outbox == [JoinChatRoom(id)] && hook.socket.open
    {
      roomId := id;
      hook := new UseChat.ChatHook(id, me, ReceiverFor(me, id), socketId);
      input := "";
    }

    method OnInput(value: string)
      modifies this
      ensures input == value
    {
      input := value;
    }

    /** Submit: the current input goes to `sendMessage` (which ignores a blank one), then the input is cleared. */
    method Submit(timestamp: int)
      modifies this, hook.socket
      ensures input == ""
      ensures hook.socket != null && !Text.Blank(old(input)) ==>
        hook.socket.outbox == old(hook.socket.outbox)
          + [Msg.SendMessage(hook.roomId, hook.me, hook.receiverId, old(input), timestamp)]
      ensures hook.socket != null && Text.Blank(old(input)) ==> hook.socket.outbox == old(hook.socket.outbox)
    {
      hook.SendMessage(input, timestamp);
      input := "";
    }
  }
}
