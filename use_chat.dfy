/**
 * src/hooks/useChat.jsx: one chat room's socket. It joins the room on setup, collects every
 * received message, and sends non-blank messages with the sender and receiver ids.
 */
module UseChat {
  import opened Wrappers
  import opened Channel
  import Text

  /** A `receiveMessage` payload, as far as the hook reads it. */
  datatype Received = Received(senderId: JsId, message: string, timestamp: int)

  class ChatHook {
    const roomId: string
    /** `currentUser.id` */
    const me: JsId
    const receiverId: Option<JsId>
    var socket: Socket?
    var messages: seq<Received>
    /** The "New message received" toasts shown so far. */
    var toasts: nat

    /** Setup: with a room id the socket is opened and `joinRoom` emitted; without one, nothing. */
    constructor (roomId: string, me: JsId, receiverId: Option<JsId>, socketId: string)
      ensures this.roomId == roomId && this.me == me && this.receiverId == receiverId
      ensures roomId == "" ==> socket == null
      ensures roomId != "" ==>
        fresh(socket) && socket.id == socketId && socket.open && socket.outbox == [JoinChatRoom(roomId)]
      ensures messages == [] && toasts == 0
    {
      this.roomId, this.me, this.receiverId := roomId, me, receiverId;
      messages, toasts := [], 0;
      if roomId == "" {
        socket := null;
      } else {
        var s := new Socket(socketId);
        s.Emit(JoinChatRoom(roomId));
        socket := s;
      }
    }

    /** `receiveMessage`: appended in arrival order; a toast unless the page's own user sent it. */
    method OnReceive(data: Received)
      modifies this
      ensures messages == old(messages) + [data] && socket == old(socket)
      ensures toasts == old(toasts) + if data.senderId != me then 1 else 0
    {
      if data.senderId != me {
        toasts := toasts + 1;
      }
      messages := messages + [data];
    }

    /**
     * `sendMessage(message)`: a blank message is ignored; otherwise one `sendMessage` with the
     * message untrimmed and `timestamp` (`Date.now()`). Without a socket the emit throws.
     */
    method SendMessage(message: string, timestamp: int)
      modifies socket
      ensures socket != null && !Text.Blank(message) ==>
        socket.outbox == old(socket.outbox) + [Msg.SendMessage(roomId, me, receiverId, message, timestamp)]
      ensures socket != null && Text.Blank(message) ==> socket.outbox == old(socket.outbox)
      ensures socket != null ==> socket.open == old(socket.open)
    {
      Text.TrimEmptyIffBlank(message);
      if Text.Trim(message) == "" {
        return;
      }
      if socket != null {
        socket.Emit(Msg.SendMessage(roomId, me, receiverId, message, timestamp));
      }
    }

    /** Cleanup disconnects the socket the setup opened. */
    method Cleanup()
      modifies socket
      ensures socket != null ==> !socket.open && socket.outbox == old(socket.outbox)
    {
      if socket != null {
        socket.Disconnect();
      }
    }
  }
}
