/**
 * src/pages/UserDashboard.jsx: the user's dashboard. One fetch of the astrologer list on mount,
 * then a carousel over it moved by the previous and next arrows, which are only on screen once
 * the list has loaded without error and is not empty.
 */
module UserDashboard {
  import opened Wrappers
  import Text
  import Carousel

  /** The outcome of the one `GET /dashboard/astrologer`. */
  datatype Reply<A> =
    | Threw(message: string)
    | NotOk(status: nat)
    /** The parsed body's `data` field, absent or present. */
    | Ok(data: Option<seq<A>>)

  /** The message of the error thrown for a non-ok status. */
  function StatusError(status: nat): string
  {
    "HTTP error! Status: " + Text.Decimal(status)
  }

  /** What the fetch leaves: the list (`data?.data || []`) and the error message, if any. */
  function Loaded<A>(reply: Reply<A>, before: seq<A>): (r: (seq<A>, Option<string>))
    ensures reply.Ok? ==> r == (reply.data.GetOr([]), None)
    ensures reply.NotOk? ==> r == (before, Some(StatusError(reply.status)))
    ensures reply.Threw? ==> r == (before, Some(reply.message))
  {
    match reply
    case Threw(m) => (before, Some(m))
    case NotOk(status) => (before, Some(StatusError(status)))
    case Ok(data) => (data.GetOr([]), None)
  }

  /** The status error names the status: its last word reads back as the number. */
  lemma StatusErrorReadsBack(status: nat)
    ensures var words := Text.Split(StatusError(status), ' ');
      |words| == 4 && words[3] == Text.Decimal(status) && Text.ParseDecimal(words[3]) == status
  {
    var digits := Text.Decimal(status);
    assert ' ' !in digits by {
      forall i | 0 <= i < |digits| ensures digits[i] != ' ' {
        assert Text.IsDigit(digits[i]);
      }
    }
    assert StatusError(status) == "HTTP" + [' '] + ("error!" + [' '] + ("Status:" + [' '] + digits));
    Text.SplitPlain(digits, ' ');
    Text.SplitAfterPiece("Status:", ' ', digits);
    Text.SplitAfterPiece("error!", ' ', "Status:" + [' '] + digits);
    Text.SplitAfterPiece("HTTP", ' ', "error!" + [' '] + ("Status:" + [' '] + digits));
    Text.DecimalRoundTrip(status);
  }

  class Dashboard<A> {
    var astrologers: seq<A>
    var index: nat
    var loading: bool
    var error: Option<string>

    /** The index is on a card whenever there are cards; while loading it is 0 and there is no error. */
    predicate Valid()
      reads this
    {
      (astrologers == [] ==> index == 0) && (astrologers != [] ==> index < |astrologers|)
      && (loading ==> index == 0 && error == None)
    }

    constructor ()
      ensures Valid() && astrologers == [] && index == 0 && loading && error == None
    {
      astrologers, index, loading, error := [], 0, true, None;
    }

    /** The fetch settles: the list or the error from `Loaded`, then loading is over either way. */
    method Settle(reply: Reply<A>)
      requires Valid() && loading
      modifies this
      ensures Valid() && !loading && index == 0
      ensures (astrologers, error) == Loaded(reply, old(astrologers))
    {
      match reply {
        case Threw(m) => error := Some(m);
        case NotOk(status) => error := Some(StatusError(status));
        case Ok(data) => astrologers := data.GetOr([]);
      }
      loading := false;
    }

    /** The arrows are rendered only after a successful, non-empty load. */
    predicate ControlsShown()
      reads this
    {
      !loading && error == None && astrologers != []
    }

    method NextSlide()
      requires Valid() && ControlsShown()
      modifies this
      ensures Valid() && ControlsShown() && astrologers == old(astrologers)
      ensures index == Carousel.Next(old(index), |astrologers|)
    {
      index := (index + 1) % |astrologers|;
    }

    method PrevSlide()
      requires Valid() && ControlsShown()
      modifies this
      ensures Valid() && ControlsShown() && astrologers == old(astrologers)
      ensures index == Carousel.Prev(old(index), |astrologers|)
    {
      index := (index - 1 + |astrologers|) % |astrologers|;
    }

    /** `visibleastrologers` */
    function Visible(): (r: seq<A>)
      requires Valid()
      reads this
      ensures |astrologers| < 3 ==> r == astrologers
      ensures |astrologers| >= 3 ==>
        |r| == 3 && forall k :: 0 <= k < 3 ==> r[k] == astrologers[(index + k) % |astrologers|]
    {
      Carousel.Window(astrologers, index)
    }
  }

  /** After a successful load, next then previous puts the same three cards back on screen. */
  method NextThenPrev<A>(list: seq<A>) returns (d: Dashboard<A>)
    requires list != []
    ensures d.Valid() && d.astrologers == list && d.index == 0
    ensures d.Visible() == Carousel.Window(list, 0)
  {
    d := new Dashboard();
    d.Settle(Ok(Some(list)));
    d.NextSlide();
    d.PrevSlide();
    Carousel.NextPrevInverse(0, |list|);
  }
}
