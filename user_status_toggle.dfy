/**
 * src/components/UserStatusToggle.jsx: the status select of one user. Picking a status sends a
 * PATCH; the shown status changes, and the parent's callback hears of it, only on an ok reply.
 */
module UserStatusToggle {

  /** The PATCH's outcome: an ok or non-ok response, or a thrown fetch. */
  datatype Reply = Ok | NotOk | Threw

  /** `/admin/users/${userId}/status` */
  function StatusPath(userId: string): (path: string)
    ensures |path| == |"/admin/users/"| + |userId| + |"/status"|
    ensures path[..|"/admin/users/"|] == "/admin/users/" && path[|path| - |"/status"|..] == "/status"
    ensures path[|"/admin/users/"|..|path| - |"/status"|] == userId
  {
    "/admin/users/" + userId + "/status"
  }

  /** The status shown after a run of attempts: the last one that succeeded, or the initial one. */
  function StatusAfter(initial: string, attempts: seq<(string, Reply)>): (s: string)
    ensures s == initial || exists i :: 0 <= i < |attempts| && attempts[i].1.Ok? && attempts[i].0 == s
  {
    if attempts == [] then initial
    else
      var last := attempts[|attempts| - 1];
      if last.1.Ok? then last.0 else StatusAfter(initial, attempts[..|attempts| - 1])
  }

  /** The statuses the callback hears of: the successful ones, in order. */
  function Accepted(attempts: seq<(string, Reply)>): (r: seq<string>)
    ensures |r| <= |attempts|
  {
    if attempts == [] then []
    else
      var last := attempts[|attempts| - 1];
      Accepted(attempts[..|attempts| - 1]) + if last.1.Ok? then [last.0] else []
  }

  /** The shown status is the last status the callback heard of, or the initial one when it heard none. */
  lemma {:induction false} StatusIsLastAccepted(initial: string, attempts: seq<(string, Reply)>)
    ensures var acc := Accepted(attempts);
      StatusAfter(initial, attempts) == if acc == [] then initial else acc[|acc| - 1]
  {
    if attempts != [] {
      StatusIsLastAccepted(initial, attempts[..|attempts| - 1]);
    }
  }

  /** Failed attempts change nothing: only a success moves the status. */
  lemma FailuresChangeNothing(initial: string, attempts: seq<(string, Reply)>)
    requires forall i :: 0 <= i < |attempts| ==> !attempts[i].1.Ok?
    ensures StatusAfter(initial, attempts) == initial && Accepted(attempts) == []
  {
    StatusIsLastAccepted(initial, attempts);
    NoAcceptedWithoutOk(attempts);
  }

  lemma {:induction false} NoAcceptedWithoutOk(attempts: seq<(string, Reply)>)
    requires forall i :: 0 <= i < |attempts| ==> !attempts[i].1.Ok?
    ensures Accepted(attempts) == []
  {
    if attempts != [] {
      NoAcceptedWithoutOk(attempts[..|attempts| - 1]);
    }
  }

  class Toggle {
    const userId: string
    /** Whether the parent passed `onStatusChange`. */
    const hasCallback: bool
    var status: string
    var loading: bool
    /** The statuses passed to `onStatusChange`. */
    var notified: seq<string>
    /** Each PATCH sent: its path, its body's status, and `loading` while it was in flight. */
    var patches: seq<(string, string, bool)>

    constructor (userId: string, currentStatus: string, hasCallback: bool)
      ensures this.userId == userId && this.hasCallback == hasCallback && status == currentStatus
      ensures !loading && notified == [] && patches == []
    {
      this.userId, this.hasCallback, status := userId, hasCallback, currentStatus;
      loading, notified, patches := false, [], [];
    }

    /** `handleStatusChange` */
    method HandleStatusChange(newStatus: string, reply: Reply)
      modifies this
      ensures patches == old(patches) + [(StatusPath(userId), newStatus, true)] && !loading
      ensures reply.Ok? ==> status == newStatus
      ensures reply.Ok? && hasCallback ==> notified == old(notified) + [newStatus]
      ensures !reply.Ok? || !hasCallback ==> notified == old(notified)
      ensures !reply.Ok? ==> status == old(status)
    {
      loading := true;
      patches := patches + [(StatusPath(userId), newStatus, loading)];
      if reply.Ok? {
        status := newStatus;
        if hasCallback {
          notified := notified + [newStatus];
        }
      }
      loading := false;
    }
  }

  /** A run of status picks against the toggle leaves the status `StatusAfter` names. */
  method PickAll(userId: string, initial: string, attempts: seq<(string, Reply)>) returns (t: Toggle)
    ensures t.status == StatusAfter(initial, attempts)
    ensures t.notified == Accepted(attempts) && |t.patches| == |attempts|
  {
    t := new Toggle(userId, initial, true);
    var i := 0;
    while i < |attempts|
      invariant 0 <= i <= |attempts|
      invariant t.status == StatusAfter(initial, attempts[..i])
      invariant t.notified == Accepted(attempts[..i]) && |t.patches| == i
    {
      t.HandleStatusChange(attempts[i].0, attempts[i].1);
      assert attempts[..i + 1][..i] == attempts[..i];
      i := i + 1;
    }
    assert attempts[..|attempts|] == attempts;
  }
}
