/**
 * src/components/UnreadMessagesTable.jsx: the table of unread messages. Nothing is rendered
 * for a missing or empty list; otherwise one row per message, in order, with the sender name
 * or "Unknown", the message cut to 50 characters plus "...", and a button marking that id.
 */
module UnreadMessagesTable {
  import opened Wrappers
  import Text

  /** An unread message as the table and the notification hook read it. */
  datatype Notice = Notice(id: string, senderId: string, senderName: Option<string>, message: string, timestamp: int)

  /** One rendered row; `markId` is what its "Mark as Read" button passes to `onMarkAsRead`. */
  datatype Row = Row(key: string, sender: string, text: string, timestamp: int, markId: string)

  const Limit: nat := 50

  /** `m.length > 50 ? `${m.slice(0, 50)}...` : m` */
  function Truncate(m: string): (r: string)
    ensures |m| <= Limit ==> r == m
    ensures |m| > Limit ==> |r| == Limit + 3 && r[..Limit] == m[..Limit] && r[Limit..] == "..."
  {
    if |m| > Limit then m[..Limit] + "..." else m
  }

  /** A cut message is never longer than 53 characters and always starts like the original. */
  lemma TruncateBounds(m: string)
    ensures |Truncate(m)| <= Limit + 3
    ensures var k := if |m| < Limit then |m| else Limit; Truncate(m)[..k] == m[..k]
  {
  }

  /** Cutting a cut message changes nothing. */
  lemma TruncateIdempotent(m: string)
    ensures Truncate(Truncate(m)) == Truncate(m)
  {
    if |m| > Limit {
      var r := Truncate(m);
      assert r[..Limit] == m[..Limit];
      assert Truncate(r) == r[..Limit] + "...";
    }
  }

  function RowOf(n: Notice): (r: Row)
    ensures r.key == n.id && r.markId == n.id && r.timestamp == n.timestamp
    ensures r.sender == Text.Or(n.senderName, "Unknown") && r.text == Truncate(n.message)
  {
    Row(n.id, Text.Or(n.senderName, "Unknown"), Truncate(n.message), n.timestamp, n.id)
  }

  /** The component: `null` for a missing or empty list, otherwise the rows in message order. */
  function Render(messages: Option<seq<Notice>>): (rows: Option<seq<Row>>)
    ensures rows.None? <==> messages.None? || messages.value == []
    ensures rows.Some? ==> |rows.value| == |messages.value|
    ensures rows.Some? ==> forall i :: 0 <= i < |rows.value| ==> rows.value[i] == RowOf(messages.value[i])
  {
    if messages.None? || messages.value == [] then None
    else Some(seq(|messages.value|, i requires 0 <= i < |messages.value| => RowOf(messages.value[i])))
  }

  /** Clicking row `i` marks exactly that message's id, and every rendered row is at most 53 characters of text. */
  lemma RenderedRows(messages: seq<Notice>, i: nat)
    requires messages != [] && i < |messages|
    ensures Render(Some(messages)).Some?
    ensures Render(Some(messages)).value[i].markId == messages[i].id
    ensures |Render(Some(messages)).value[i].text| <= Limit + 3
  {
    TruncateBounds(messages[i].message);
  }
}
