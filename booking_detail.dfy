/**
 * src/pages/BookingDetail.jsx: a booking page for one astrologer (the route id). Picking a date
 * fetches that day's free slots; picking a slot creates a booking and moves on to payment.
 */
module BookingDetail {
  import opened Wrappers
  import Text

  /** A calendar date as `getFullYear()`, `getMonth()` (0 to 11) and `getDate()` give it. */
  datatype Date = Date(year: nat, month: nat, day: nat)

  /** `formatDate`: year, then the 1-based month and the day, each padded to two digits. */
  function FormatDate(d: Date): string
  {
    Dashed(Text.Decimal(d.year), Text.TwoDigits(d.month + 1), Text.TwoDigits(d.day))
  }

  function Dashed(a: string, b: string, c: string): (s: string)
    ensures |s| == |a| + |b| + |c| + 2
  {
    a + "-" + b + "-" + c
  }

  predicate IsCalendarDate(d: Date)
  {
    1000 <= d.year <= 9999 && d.month < 12 && 1 <= d.day <= 31
  }

  /** The three fields of a calendar date render as four, two and two digits. */
  lemma FieldsShape(d: Date)
    requires IsCalendarDate(d)
    ensures |Text.Decimal(d.year)| == 4 && |Text.TwoDigits(d.month + 1)| == 2 && |Text.TwoDigits(d.day)| == 2
    ensures Text.AllDigits(Text.Decimal(d.year))
    ensures Text.AllDigits(Text.TwoDigits(d.month + 1)) && Text.AllDigits(Text.TwoDigits(d.day))
  {
    Text.DecimalLength(d.year);
    Text.TwoDigitsValue(d.month + 1);
    Text.TwoDigitsValue(d.day);
  }

  /** The three fields read back as the year, the 1-based month and the day. */
  lemma FieldsValue(d: Date)
    requires IsCalendarDate(d)
    ensures Text.ParseDecimal(Text.Decimal(d.year)) == d.year
    ensures Text.AllDigits(Text.TwoDigits(d.month + 1)) && Text.ParseDecimal(Text.TwoDigits(d.month + 1)) == d.month + 1
    ensures Text.AllDigits(Text.TwoDigits(d.day)) && Text.ParseDecimal(Text.TwoDigits(d.day)) == d.day
  {
    Text.DecimalRoundTrip(d.year);
    Text.TwoDigitsValue(d.month + 1);
    Text.TwoDigitsValue(d.day);
  }

  /** A string of digits holds no dash. */
  lemma DigitsHaveNoDash(s: string)
    requires Text.AllDigits(s)
    ensures '-' !in s
  {
  }

  /** The three fields of a calendar date hold no dash. */
  lemma FieldsHaveNoDash(d: Date)
    requires IsCalendarDate(d)
    ensures '-' !in Text.Decimal(d.year) && '-' !in Text.TwoDigits(d.month + 1) && '-' !in Text.TwoDigits(d.day)
  {
    FieldsShape(d);
    DigitsHaveNoDash(Text.Decimal(d.year));
    DigitsHaveNoDash(Text.TwoDigits(d.month + 1));
    DigitsHaveNoDash(Text.TwoDigits(d.day));
  }

  /**
   * For a four-digit year the result is YYYY-MM-DD: splitting it at its dashes gives the three
   * fields, which `FieldsShape` and `FieldsValue` show are digit strings of lengths 4, 2 and 2
   * reading back as the year, the 1-based month and the day.
   */
  lemma FormatDateSplit(d: Date)
    requires IsCalendarDate(d)
    ensures Text.Split(FormatDate(d), '-') ==
      [Text.Decimal(d.year), Text.TwoDigits(d.month + 1), Text.TwoDigits(d.day)]
  {
    FieldsHaveNoDash(d);
    SplitThree(Text.Decimal(d.year), Text.TwoDigits(d.month + 1), Text.TwoDigits(d.day));
  }

  /** Splitting three dash-free fields joined by dashes gives the fields back. */
  lemma SplitThree(a: string, b: string, c: string)
    requires '-' !in a && '-' !in b && '-' !in c
    ensures Text.Split(Dashed(a, b, c), '-') == [a, b, c]
  {
    assert a + "-" + b + "-" + c == a + ['-'] + (b + ['-'] + c);
    Text.SplitAfterPiece(b, '-', c);
    Text.SplitPlain(c, '-');
    Text.SplitAfterPiece(a, '-', b + ['-'] + c);
  }

  lemma FormatDateLength(d: Date)
    ensures IsCalendarDate(d) ==> |FormatDate(d)| == 10
  {
    if IsCalendarDate(d) {
      FieldsShape(d);
    }
  }

  /** The `Number(id)` the bodies carry: NaN (None) is serialised as null. */
  datatype SlotsBody = SlotsBody(astrologerId: Option<nat>, slotDate: string)

  datatype Slot = Slot(slotDate: string, startTime: string, endTime: string)

  datatype BookingBody = BookingBody(bookingId: string, userId: string, astrologerId: Option<nat>,
                                     timeSlot: string, status: string)

  /** The available-slots request body for `Number(id)` and a picked date. */
  function SlotsRequest(astrologerId: Option<nat>, d: Date): (b: SlotsBody)
    ensures b.astrologerId == astrologerId
    ensures IsCalendarDate(d) ==> |b.slotDate| == 10
  {
    FormatDateLength(d);
    SlotsBody(astrologerId, FormatDate(d))
  }

  /** The booking payload; `bookingId` is the fresh `uuidv4()`. */
  function BookingPayload(bookingId: string, userId: string, astrologerId: Option<nat>, slot: Slot): (b: BookingBody)
    ensures b.status == "Pending" && b.timeSlot == slot.slotDate && b.userId == userId
    ensures b.bookingId == bookingId && b.astrologerId == astrologerId
  {
    BookingBody(bookingId, userId, astrologerId, slot.slotDate, "Pending")
  }

  /** The chat room id shared with ChatPage: `chat_<astrologerId>_<userId>`. */
  function ChatRoomId(astrologerId: string, userId: string): string
  {
    "chat_" + astrologerId + "_" + userId
  }

  /** The "Open Chat" link. */
  function ChatLink(astrologerId: string, userId: string): (link: string)
    ensures |link| >= 6 && link[..6] == "/chat/" && link[6..] == ChatRoomId(astrologerId, userId)
  {
    "/chat/" + ChatRoomId(astrologerId, userId)
  }

  datatype SlotsReply =
    | SlotsThrew(error: string)
    | SlotsNotOk
    /** `data.availableSlots`, absent or present. */
    | SlotsOk(availableSlots: Option<seq<Slot>>)

  datatype BookingReply =
    | BookingThrew(error: string)
    /** `response.text()` of a non-ok reply. */
    | BookingNotOk(text: string)
    | BookingOk(bookingData: string)

  datatype Navigation = ToPayment(bookingData: string)

  class Page {
    const id: string
    const userId: string
    /** `Number(id)`, which both request bodies carry. */
    const astrologerNumber: Option<nat>
    var availableSlots: seq<Slot>
    var loadingSlots: bool
    var error: Option<string>
    var bookingError: Option<string>
    var location: Option<Navigation>
    /** Each slots request with the value `loadingSlots` had while it was in flight. */
    var slotRequests: seq<(SlotsBody, bool)>
    var bookingRequests: seq<BookingBody>

    constructor (id: string, userId: string)
      ensures this.id == id && this.userId == userId && astrologerNumber == Text.JsNumber(id)
      ensures availableSlots == [] && !loadingSlots
      ensures error == None && bookingError == None && location == None
      ensures slotRequests == [] && bookingRequests == []
    {
      this.id, this.userId, astrologerNumber := id, userId, Text.JsNumber(id);
      availableSlots, loadingSlots, error, bookingError, location := [], false, None, None, None;
      slotRequests, bookingRequests := [], [];
    }

    /**
     * `fetchAvailableSlots`: one request while loading; the slots (or [] when absent) on
     * success, the error message otherwise; loading is over either way.
     */
    method FetchAvailableSlots(d: Date, reply: SlotsReply)
      modifies this
      ensures slotRequests == old(slotRequests) + [(SlotsRequest(astrologerNumber, d), true)] && !loadingSlots
      ensures reply.SlotsOk? ==> availableSlots == reply.availableSlots.GetOr([]) && error == None
      ensures reply.SlotsNotOk? ==> availableSlots == old(availableSlots) && error == Some("Failed to fetch available slots.")
      ensures reply.SlotsThrew? ==> availableSlots == old(availableSlots) && error == Some(reply.error)
      ensures bookingError == old(bookingError) && location == old(location) && bookingRequests == old(bookingRequests)
    {
      var body := SlotsRequest(astrologerNumber, d);
      loadingSlots := true;
      error := None;
      slotRequests := slotRequests + [(body, loadingSlots)];
      match reply {
        case SlotsThrew(e) => error := Some(e);
        case SlotsNotOk => error := Some("Failed to fetch available slots.");
        case SlotsOk(slots) => availableSlots := slots.GetOr([]);
      }
      loadingSlots := false;
    }

    /**
     * `handleSlotClick`: one booking request; a failure sets `bookingError` (the reply's text,
     * or the default message when it is empty) and stays; success goes to `/payment`.
     */
    method HandleSlotClick(slot: Slot, bookingId: string, reply: BookingReply)
      modifies this
      ensures bookingRequests == old(bookingRequests) + [BookingPayload(bookingId, userId, astrologerNumber, slot)]
      ensures reply.BookingOk? ==> location == Some(ToPayment(reply.bookingData)) && bookingError == old(bookingError)
      ensures reply.BookingNotOk? ==>
        location == old(location) && bookingError == Some(Text.Or(Some(reply.text), "Failed to create booking."))
      ensures reply.BookingThrew? ==> location == old(location) && bookingError == Some(reply.error)
      ensures availableSlots == old(availableSlots) && error == old(error) && slotRequests == old(slotRequests)
      ensures loadingSlots == old(loadingSlots)
    {
      bookingRequests := bookingRequests + [BookingPayload(bookingId, userId, astrologerNumber, slot)];
      match reply
      case BookingThrew(e) => bookingError := Some(e);
      case BookingNotOk(text) => bookingError := Some(Text.Or(Some(text), "Failed to create booking."));
      case BookingOk(data) => location := Some(ToPayment(data));
    }
  }
}
