/**
 * src/hooks/useSocket.jsx: the astrologer's unread-message feed. With an astrologer id it opens
 * the chat socket, joins as that astrologer and asks for the unread messages; the loaded list
 * replaces the current one, and each new-message notification is appended with a toast.
 */
module UseSocket {
  import opened Wrappers
  import opened Channel
  import Text
  import opened UnreadMessagesTable

  /** `You have ${data.length} unread messages` */
  function UnreadToast(n: nat): string
  {
    "You have " + Text.Decimal(n) + " unread messages"
  }

  /** `New message from User ${data.senderId}` */
  function NewMessageToast(senderId: string): (text: string)
    ensures |text| >= |"New message from User "| && text[..|"New message from User "|] == "New message from User "
    ensures text[|"New message from User "|..] == senderId
  {
    "New message from User " + senderId
  }

  /** The count toast names the count: its third word reads back as the number of messages. */
  lemma UnreadToastReadsBack(n: nat)
    ensures var words := Text.Split(UnreadToast(n), ' ');
      |words| == 5 && words[2] == Text.Decimal(n) && Text.ParseDecimal(words[2]) == n
  {
    var digits := Text.Decimal(n);
    DigitsHaveNoSpace(digits);
    assert UnreadToast(n) == "You" + [' '] + ("have" + [' '] + (digits + [' '] + ("unread" + [' '] + "messages")));
    Text.SplitPlain("messages", ' ');
    Text.SplitAfterPiece("unread", ' ', "messages");
    Text.SplitAfterPiece(digits, ' ', "unread" + [' '] + "messages");
    Text.SplitAfterPiece("have", ' ', digits + [' '] + ("unread" + [' '] + "messages"));
    Text.SplitAfterPiece("You", ' ', "have" + [' '] + (digits + [' '] + ("unread" + [' '] + "messages")));
    Text.DecimalRoundTrip(n);
  }

  lemma DigitsHaveNoSpace(s: string)
    requires Text.AllDigits(s)
    ensures ' ' !in s
  {
  }

  class Feed {
    /** The hook's argument; the empty string stands for every falsy id. */
    const astrologerId: string
    var socket: Socket?
    var unreadMessages: seq<Notice>
    var toasts: seq<string>

    constructor (astrologerId: string)
      ensures this.astrologerId == astrologerId && socket == null && unreadMessages == [] && toasts == []
    {
      this.astrologerId := astrologerId;
      socket, unreadMessages, toasts := null, [], [];
    }

    /** The effect: nothing without an id; otherwise a fresh socket emitting `joinAstrologer` then `getUnreadMessages`. */
    method Setup(socketId: string)
      modifies this
      ensures astrologerId == "" ==> socket == old(socket)
      ensures astrologerId != "" ==> fresh(socket) && socket.id == socketId && socket.open
      ensures astrologerId != "" ==>
        socket.outbox == [JoinAstrologer(astrologerId, true), GetUnreadMessages(astrologerId)]
      ensures unreadMessages == old(unreadMessages) && toasts == old(toasts)
    {
      if astrologerId == "" {
        return;
      }
      var s := new Socket(socketId);
      s.Emit(JoinAstrologer(astrologerId, true));
      s.Emit(GetUnreadMessages(astrologerId));
      socket := s;
    }

    /** `loadUnreadMessages`: the list is replaced; a count toast only when it is not empty. */
    method OnLoad(data: seq<Notice>)
      modifies this
      ensures unreadMessages == data && socket == old(socket)
      ensures toasts == old(toasts) + if data != [] then [UnreadToast(|data|)] else []
    {
      unreadMessages := data;
      if |data| > 0 {
        toasts := toasts + [UnreadToast(|data|)];
      }
    }

    /** `newMessageNotification`: a toast naming the sender, then the message appended at the end. */
    method OnNew(data: Notice)
      modifies this
      ensures toasts == old(toasts) + [NewMessageToast(data.senderId)]
      ensures unreadMessages == old(unreadMessages) + [data] && socket == old(socket)
    {
      toasts := toasts + [NewMessageToast(data.senderId)];
      unreadMessages := unreadMessages + [data];
    }

    method Cleanup()
      modifies socket
      ensures socket != null ==> !socket.open && socket.outbox == old(socket.outbox)
    {
      if socket != null {
        socket.Disconnect();
      }
    }
  }

  /**
   * A load followed by notifications: the list is the loaded messages followed by the notified
   * ones in arrival order, and there is one toast per notification after the count toast.
   */
  method LoadThenNotify(id: string, socketId: string, loaded: seq<Notice>, later: seq<Notice>)
    returns (feed: Feed)
    requires id != ""
    ensures feed.unreadMessages == loaded + later
    ensures |feed.toasts| == (if loaded != [] then 1 else 0) + |later|
    ensures feed.socket != null && feed.socket.outbox == [JoinAstrologer(id, true), GetUnreadMessages(id)]
  {
    feed := new Feed(id);
    feed.Setup(socketId);
    feed.OnLoad(loaded);
    var i := 0;
    while i < |later|
      invariant 0 <= i <= |later|
      invariant feed.unreadMessages == loaded + later[..i]
      invariant |feed.toasts| == (if loaded != [] then 1 else 0) + i
      invariant feed.socket != null && fresh(feed.socket)
      invariant feed.socket.outbox == [JoinAstrologer(id, true), GetUnreadMessages(id)]
    {
      feed.OnNew(later[i]);
      assert later[..i + 1] == later[..i] + [later[i]];
      i := i + 1;
    }
    assert later[..|later|] == later;
  }
}
