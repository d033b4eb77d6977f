/**
 * src/pages/SupportPage.jsx: the support-ticket form. A submit with both an email and a message
 * appends one "Pending" ticket at the end of the list and clears the form; otherwise nothing
 * changes.
 */
module SupportPage {

  datatype Ticket = Ticket(email: string, message: string, status: string)

  class Page {
    var tickets: seq<Ticket>
    var email: string
    var message: string

    constructor ()
      ensures tickets == [] && email == "" && message == ""
    {
      tickets, email, message := [], "", "";
    }

    method OnEmail(value: string)
      modifies this
      ensures email == value && message == old(message) && tickets == old(tickets)
    {
      email := value;
    }

    method OnMessage(value: string)
      modifies this
      ensures message == value && email == old(email) && tickets == old(tickets)
    {
      message := value;
    }

    /** `handleSubmitTicket`: the guard `!email || !message` tests for empty strings only. */
    method SubmitTicket()
      modifies this
      ensures old(email) == "" || old(message) == "" ==>
        tickets == old(tickets) && email == old(email) && message == old(message)
      ensures old(email) != "" && old(message) != "" ==>
        tickets == old(tickets) + [Ticket(old(email), old(message), "Pending")] && email == "" && message == ""
    {
      if email == "" || message == "" {
        return;
      }
      tickets := tickets + [Ticket(email, message, "Pending")];
      email, message := "", "";
    }
  }

  /** The tickets a sequence of (email, message) form fills leaves behind, in submit order. */
  function Filed(forms: seq<(string, string)>): seq<Ticket>
  {
    if forms == [] then []
    else
      var last := forms[|forms| - 1];
      Filed(forms[..|forms| - 1]) + if last.0 != "" && last.1 != "" then [Ticket(last.0, last.1, "Pending")] else []
  }

  /** Every ticket is Pending and carries a non-empty email and message. */
  predicate AllFiled(ts: seq<Ticket>)
  {
    forall i :: 0 <= i < |ts| ==> ts[i].status == "Pending" && ts[i].email != "" && ts[i].message != ""
  }

  /** However the form is filled, only complete submits become tickets, all of them Pending. */
  lemma {:induction false} FiledArePending(forms: seq<(string, string)>)
    ensures AllFiled(Filed(forms)) && |Filed(forms)| <= |forms|
  {
    if forms != [] {
      FiledArePending(forms[..|forms| - 1]);
    }
  }

  /** Filling in the form and submitting it once per entry of `forms`. */
  method FileAll(forms: seq<(string, string)>) returns (page: Page)
    ensures page.tickets == Filed(forms)
  {
    page := new Page();
    var i := 0;
    while i < |forms|
      invariant 0 <= i <= |forms|
      invariant page.tickets == Filed(forms[..i])
    {
      page.OnEmail(forms[i].0);
      page.OnMessage(forms[i].1);
      page.SubmitTicket();
      assert forms[..i + 1][..i] == forms[..i];
      i := i + 1;
    }
    assert forms[..|forms|] == forms;
  }
}
