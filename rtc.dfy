/**
 * The browser's WebRTC pieces the call pages drive, reduced to the state the pages can observe.
 * Session descriptions and connectivity candidates are opaque tokens; `valid` says whether the
 * platform accepts the token, so that every rejection the pages must survive is an input.
 * Offer-then-answer follows RFC 3264 (section 5, generating the offer; section 6, generating
 * the answer): an answer can only be created once a remote offer has been applied.
 */
module Rtc {
  import opened Wrappers

  /** An opaque session description (an offer or an answer). */
  datatype Sdp = Sdp(id: nat, valid: bool)

  /** An opaque connectivity (ICE) candidate. */
  datatype Candidate = Candidate(id: nat, valid: bool)

  datatype Kind = Audio | Video

  /** A `MediaStreamTrack`: shared by reference between a stream and the senders sending it. */
  class MediaTrack {
    const kind: Kind
    var enabled: bool
    var stopped: bool

    constructor (kind: Kind)
      ensures this.kind == kind && enabled && !stopped
    {
      this.kind := kind;
      enabled := true;
      stopped := false;
    }
  }

  ghost predicate Distinct(ts: seq<MediaTrack>)
  {
    forall i, j :: 0 <= i < j < |ts| ==> ts[i] != ts[j]
  }

  /** A stream holds each of its tracks once. */
  type TrackList = ts: seq<MediaTrack> | Distinct(ts) witness []

  /** A `MediaStream`: the tracks `getTracks()` returns, in order. */
  datatype MediaStream = MediaStream(tracks: TrackList)

  /** The tracks of a stream reference that may still be null. */
  function TracksOf(s: Option<MediaStream>): TrackList
  {
    if s.Some? then s.value.tracks else []
  }

  /** `getAudioTracks()` / `getVideoTracks()`: the tracks of kind `k`, in stream order. */
  function OfKind(ts: seq<MediaTrack>, k: Kind): (r: seq<MediaTrack>)
    ensures forall i :: 0 <= i < |r| ==> r[i] in ts && r[i].kind == k
    ensures forall i :: 0 <= i < |ts| && ts[i].kind == k ==> ts[i] in r
    ensures Distinct(ts) ==> Distinct(r)
  {
    if ts == [] then []
    else if ts[0].kind == k then [ts[0]] + OfKind(ts[1..], k)
    else OfKind(ts[1..], k)
  }

  /** The first track selected is the first track of that kind in the stream. */
  lemma {:induction false} OfKindHead(ts: seq<MediaTrack>, k: Kind)
    ensures OfKind(ts, k) != [] ==>
      exists i :: 0 <= i < |ts| && ts[i] == OfKind(ts, k)[0] && forall j :: 0 <= j < i ==> ts[j].kind != k
  {
    if ts != [] && ts[0].kind != k && OfKind(ts, k) != [] {
      OfKindHead(ts[1..], k);
      var i :| 0 <= i < |ts[1..]| && ts[1..][i] == OfKind(ts[1..], k)[0] && forall j :: 0 <= j < i ==> ts[1..][j].kind != k;
      assert ts[i + 1] == OfKind(ts, k)[0] && forall j :: 0 <= j < i + 1 ==> ts[j].kind != k;
    }
  }

  /** One step of the selection: the head, if of kind `k`, followed by the selection of the tail. */
  lemma OfKindStep(ts: seq<MediaTrack>, k: Kind)
    requires ts != []
    ensures OfKind(ts, k) == (if ts[0].kind == k then [ts[0]] else []) + OfKind(ts[1..], k)
  {
  }

  /** Selecting by kind keeps stream order: it distributes over concatenation. */
  lemma {:induction false} OfKindConcat(a: seq<MediaTrack>, b: seq<MediaTrack>, k: Kind)
    ensures OfKind(a + b, k) == OfKind(a, k) + OfKind(b, k)
    decreases |a|
  {
    if a == [] {
      AppendEmpty(a, b);
      AppendEmpty(OfKind(a, k), OfKind(b, k));
    } else {
      OfKindConcat(a[1..], b, k);
      OfKindConcatStep(a, b, k);
    }
  }

  /** The inductive step of `OfKindConcat`: from the tail of `a` to `a`. */
  lemma OfKindConcatStep(a: seq<MediaTrack>, b: seq<MediaTrack>, k: Kind)
    requires a != [] && OfKind(a[1..] + b, k) == OfKind(a[1..], k) + OfKind(b, k)
    ensures OfKind(a + b, k) == OfKind(a, k) + OfKind(b, k)
  {
    var ab := a + b;
    AppendTail(a, b);
    var head := if a[0].kind == k then [a[0]] else [];
    var x, y := OfKind(a[1..], k), OfKind(b, k);
    OfKindStep(ab, k);
    OfKindStep(a, k);
    AppendAssoc(head, x, y);
  }

  /** The empty sequence is a left unit; proved where no selection terms are in scope. */
  lemma AppendEmpty<T>(x: seq<T>, y: seq<T>)
    requires x == []
    ensures x + y == y
  {
  }

  /** The head and tail of a concatenation with a non-empty front; proved where no selection terms are in scope. */
  lemma AppendTail<T>(x: seq<T>, y: seq<T>)
    requires x != []
    ensures (x + y)[0] == x[0] && (x + y)[1..] == x[1..] + y
  {
  }

  /** Concatenation regroups; proved where no selection terms are in scope. */
  lemma AppendAssoc<T>(x: seq<T>, y: seq<T>, z: seq<T>)
    ensures x + (y + z) == (x + y) + z
  {
  }

  /** `getVideoTracks()[0]`, which is `undefined` (None) for a stream without video. */
  function FirstOfKind(ts: seq<MediaTrack>, k: Kind): (r: Option<MediaTrack>)
    ensures r.Some? ==> r.value in ts && r.value.kind == k
    ensures r.None? ==> forall i :: 0 <= i < |ts| ==> ts[i].kind != k
    ensures r.Some? ==> exists i :: 0 <= i < |ts| && ts[i] == r.value && forall j :: 0 <= j < i ==> ts[j].kind != k
  {
    var of := OfKind(ts, k);
    OfKindHead(ts, k);
    if of == [] then None else Some(of[0])
  }

  /** `tracks.forEach(t => t.enabled = !t.enabled)` */
  method FlipEnabled(ts: seq<MediaTrack>)
    requires Distinct(ts)
    modifies set t | t in ts
    ensures forall t :: t in ts ==> t.enabled == !old(t.enabled) && t.stopped == old(t.stopped)
  {
    var i := 0;
    while i < |ts|
      invariant 0 <= i <= |ts|
      invariant forall k :: 0 <= k < i ==> ts[k].enabled == !old(ts[k].enabled)
      invariant forall k :: i <= k < |ts| ==> ts[k].enabled == old(ts[k].enabled)
      invariant forall t :: t in ts ==> t.stopped == old(t.stopped)
    {
      ts[i].enabled := !ts[i].enabled;
      i := i + 1;
    }
  }

  /** `tracks.forEach(t => t.stop())`: stopping is idempotent and leaves `enabled` alone. */
  method StopAll(ts: seq<MediaTrack>)
    modifies set t | t in ts
    ensures forall t :: t in ts ==> t.stopped && t.enabled == old(t.enabled)
  {
    var i := 0;
    while i < |ts|
      invariant 0 <= i <= |ts|
      invariant forall k :: 0 <= k < i ==> ts[k].stopped
      invariant forall t :: t in ts ==> t.enabled == old(t.enabled)
    {
      ts[i].stopped := true;
      i := i + 1;
    }
  }

  /**
   * An `RTCPeerConnection`: the local and remote descriptions, the remote candidates it has
   * accepted (in order), whether it is closed, and the track each of its senders sends.
   */
  class PeerConnection {
    var local: Option<Sdp>
    var remote: Option<Sdp>
    var applied: seq<Candidate>
    var closed: bool
    var senders: seq<MediaTrack>

    constructor ()
      ensures local == None && remote == None && applied == [] && !closed && senders == []
    {
      local, remote, applied, closed, senders := None, None, [], false, [];
    }

    /** `addIceCandidate` succeeds only once a remote description is set and before `close()`. */
    predicate AcceptsCandidates()
      reads this
    {
      remote.Some? && !closed
    }

    method CreateOffer(made: Sdp) returns (r: Option<Sdp>)
      ensures r == if closed then None else Some(made)
    {
      r := if closed then None else Some(made);
    }

    /** Rejected before a remote offer has been applied (RFC 3264 section 6) or after `close()`. */
    method CreateAnswer(made: Sdp) returns (r: Option<Sdp>)
      ensures r == if closed || remote.None? then None else Some(made)
    {
      r := if closed || remote.None? then None else Some(made);
    }

    method SetLocalDescription(d: Sdp) returns (ok: bool)
      modifies this
      ensures ok == (d.valid && !old(closed))
      ensures local == if ok then Some(d) else old(local)
      ensures remote == old(remote) && applied == old(applied) && closed == old(closed)
      ensures senders == old(senders)
    {
      ok := d.valid && !closed;
      if ok {
        local := Some(d);
      }
    }

    method SetRemoteDescription(d: Sdp) returns (ok: bool)
      modifies this
      ensures ok == (d.valid && !old(closed))
      ensures remote == if ok then Some(d) else old(remote)
      ensures local == old(local) && applied == old(applied) && closed == old(closed)
      ensures senders == old(senders)
    {
      ok := d.valid && !closed;
      if ok {
        remote := Some(d);
      }
    }

    method AddIceCandidate(c: Candidate) returns (ok: bool)
      modifies this
      ensures ok == (old(AcceptsCandidates()) && c.valid)
      ensures applied == if ok then old(applied) + [c] else old(applied)
      ensures local == old(local) && remote == old(remote) && closed == old(closed)
      ensures senders == old(senders)
    {
      ok := AcceptsCandidates() && c.valid;
      if ok {
        applied := applied + [c];
      }
    }

    /** Throws once closed, and for a track some sender already sends. */
    method AddTrack(t: MediaTrack) returns (ok: bool)
      modifies this
      ensures ok == (!old(closed) && t !in old(senders))
      ensures senders == if ok then old(senders) + [t] else old(senders)
      ensures local == old(local) && remote == old(remote) && applied == old(applied)
      ensures closed == old(closed)
    {
      ok := !closed && t !in senders;
      if ok {
        senders := senders + [t];
      }
    }

    /** `getSenders().find(s => s.track.kind === 'video')` */
    function FirstVideoSender(): (r: Option<nat>)
      reads this
      ensures r.Some? ==> r.value < |senders| && senders[r.value].kind == Video
      ensures r.Some? ==> forall j :: 0 <= j < r.value ==> senders[j].kind != Video
      ensures r.None? ==> forall j :: 0 <= j < |senders| ==> senders[j].kind != Video
    {
      FirstVideoFrom(senders, 0)
    }

    /** `sender.replaceTrack(t)`, which renegotiates nothing; it rejects once closed. */
    method ReplaceTrack(i: nat, t: MediaTrack)
      requires i < |senders|
      modifies this
      ensures senders == if old(closed) then old(senders) else old(senders)[i := t]
      ensures local == old(local) && remote == old(remote) && applied == old(applied)
      ensures closed == old(closed)
    {
      if !closed {
        senders := senders[i := t];
      }
    }

    /** `close()` is idempotent. */
    method Close()
      modifies this
      ensures closed
      ensures local == old(local) && remote == old(remote) && applied == old(applied)
      ensures senders == old(senders)
    {
      closed := true;
    }
  }

  function FirstVideoFrom(ts: seq<MediaTrack>, from: nat): (r: Option<nat>)
    requires from <= |ts|
    ensures r.Some? ==> from <= r.value < |ts| && ts[r.value].kind == Video
    ensures r.Some? ==> forall j :: from <= j < r.value ==> ts[j].kind != Video
    ensures r.None? ==> forall j :: from <= j < |ts| ==> ts[j].kind != Video
    decreases |ts| - from
  {
    if from == |ts| then None
    else if ts[from].kind == Video then Some(from)
    else FirstVideoFrom(ts, from + 1)
  }

  /**
   * `stream.getTracks().forEach(t => pc.addTrack(t, stream))`: the first rejected `addTrack`
   * throws out of the loop, so the tracks before it stay attached.
   */
  method AddTracks(pc: PeerConnection, ts: seq<MediaTrack>) returns (ok: bool)
    requires Distinct(ts)
    modifies pc
    ensures ok == ((ts == [] || !old(pc.closed)) && forall i :: 0 <= i < |ts| ==> ts[i] !in old(pc.senders))
    ensures ok ==> pc.senders == old(pc.senders) + ts
    ensures !ok ==> exists k :: 0 <= k < |ts| && pc.senders == old(pc.senders) + ts[..k]
    ensures pc.local == old(pc.local) && pc.remote == old(pc.remote)
    ensures pc.applied == old(pc.applied) && pc.closed == old(pc.closed)
  {
    ok := true;
    var i := 0;
    while i < |ts|
      invariant 0 <= i <= |ts|
      invariant pc.senders == old(pc.senders) + ts[..i]
      invariant i > 0 ==> !old(pc.closed)
      invariant forall k :: 0 <= k < i ==> ts[k] !in old(pc.senders)
      invariant pc.local == old(pc.local) && pc.remote == old(pc.remote)
      invariant pc.applied == old(pc.applied) && pc.closed == old(pc.closed)
    {
      var added := pc.AddTrack(ts[i]);
      if !added {
        ok := false;
        return;
      }
      assert ts[..i + 1] == ts[..i] + [ts[i]];
      i := i + 1;
    }
    assert ts[..i] == ts;
  }

  /** The candidates the platform accepts, in their order: the invalid ones are skipped. */
  function Usable(cs: seq<Candidate>): (r: seq<Candidate>)
    ensures |r| <= |cs|
    ensures forall c :: c in r <==> c in cs && c.valid
  {
    if cs == [] then [] else (if cs[0].valid then [cs[0]] else []) + Usable(cs[1..])
  }

  lemma {:induction false} UsableConcat(a: seq<Candidate>, b: seq<Candidate>)
    ensures Usable(a + b) == Usable(a) + Usable(b)
  {
    if a == [] {
      assert a + b == b;
    } else {
      assert (a + b)[0] == a[0] && (a + b)[1..] == a[1..] + b;
      UsableConcat(a[1..], b);
    }
  }

  /** A single candidate is usable exactly when it is valid. */
  lemma UsableOne(c: Candidate)
    ensures Usable([c]) == if c.valid then [c] else []
  {
    assert [c][1..] == [];
  }

  /** Nothing is skipped from a batch of valid candidates. */
  lemma {:induction false} UsableAllValid(cs: seq<Candidate>)
    requires forall i :: 0 <= i < |cs| ==> cs[i].valid
    ensures Usable(cs) == cs
  {
    if cs != [] {
      UsableAllValid(cs[1..]);
    }
  }

  /**
   * `for (const c of cs) { try { await pc.addIceCandidate(c) } catch { log } }`: a rejected
   * candidate does not stop the rest, so the connection takes every usable one, in order.
   */
  method ApplyCandidates(pc: PeerConnection, cs: seq<Candidate>)
    modifies pc
    ensures pc.applied == old(pc.applied) + (if old(pc.AcceptsCandidates()) then Usable(cs) else [])
    ensures pc.local == old(pc.local) && pc.remote == old(pc.remote) && pc.closed == old(pc.closed)
    ensures pc.senders == old(pc.senders)
  {
    var i := 0;
    while i < |cs|
      invariant 0 <= i <= |cs|
      invariant pc.applied == old(pc.applied) + (if old(pc.AcceptsCandidates()) then Usable(cs[..i]) else [])
      invariant pc.local == old(pc.local) && pc.remote == old(pc.remote) && pc.closed == old(pc.closed)
      invariant pc.senders == old(pc.senders)
    {
      var c := cs[i];
      var _ := pc.AddIceCandidate(c);
      assert cs[..i + 1] == cs[..i] + [c];
      UsableConcat(cs[..i], [c]);
      UsableOne(c);
      AppendAssoc(old(pc.applied), Usable(cs[..i]), Usable([c]));
      i := i + 1;
    }
    assert cs[..i] == cs;
  }

  /**
   * Vaulted gathering: the candidates `onicecandidate` reports before the null end-of-gathering
   * marker; None when the marker never comes (the gathering promise never resolves).
   */
  function Vaulted(events: seq<Option<Candidate>>): (r: Option<seq<Candidate>>)
    ensures r.None? <==> forall i :: 0 <= i < |events| ==> events[i].Some?
    ensures r.Some? ==> |r.value| < |events|
  {
    if events == [] then None
    else if events[0].None? then Some([])
    else Prefixed([events[0].value], Vaulted(events[1..]))
  }

  function Prefixed(front: seq<Candidate>, r: Option<seq<Candidate>>): Option<seq<Candidate>>
  {
    match r
    case None => None
    case Some(cs) => Some(front + cs)
  }

  lemma PrefixedNothing(r: Option<seq<Candidate>>)
    ensures Prefixed([], r) == r
  {
    if r.Some? {
      assert [] + r.value == r.value;
    }
  }

  lemma PrefixedTwice(a: seq<Candidate>, b: seq<Candidate>, r: Option<seq<Candidate>>)
    ensures Prefixed(a, Prefixed(b, r)) == Prefixed(a + b, r)
  {
    if r.Some? {
      assert a + (b + r.value) == (a + b) + r.value;
    }
  }

  /** The events that report each of `cs` in turn. */
  function Reported(cs: seq<Candidate>): (r: seq<Option<Candidate>>)
    ensures |r| == |cs| && forall i :: 0 <= i < |cs| ==> r[i] == Some(cs[i])
  {
    seq(|cs|, i requires 0 <= i < |cs| => Some(cs[i]))
  }

  /** The batch is exactly the candidates before the marker; whatever follows it is ignored. */
  lemma {:induction false} VaultedBatch(cs: seq<Candidate>, after: seq<Option<Candidate>>)
    ensures Vaulted(Reported(cs) + [None] + after) == Some(cs)
  {
    var events := Reported(cs) + [None] + after;
    if cs != [] {
      assert events[1..] == Reported(cs[1..]) + [None] + after;
      VaultedBatch(cs[1..], after);
      assert [cs[0]] + cs[1..] == cs;
    }
  }

  /**
   * The vaulting `onicecandidate` handler run over the platform's events: push each candidate
   * until the null marker resolves the gathering promise.
   */
  method GatherUntilEnd(events: seq<Option<Candidate>>) returns (batch: Option<seq<Candidate>>)
    ensures batch == Vaulted(events)
  {
    var collected: seq<Candidate> := [];
    var i := 0;
    assert events[0..] == events;
    PrefixedNothing(Vaulted(events));
    while i < |events| && events[i].Some?
      invariant 0 <= i <= |events|
      invariant Vaulted(events) == Prefixed(collected, Vaulted(events[i..]))
    {
      assert events[i..][0] == events[i] && events[i..][1..] == events[i + 1..];
      PrefixedTwice(collected, [events[i].value], Vaulted(events[i + 1..]));
      collected := collected + [events[i].value];
      i := i + 1;
    }
    if i < |events| {
      assert events[i..][0] == events[i];
      assert collected + [] == collected;
      batch := Some(collected);
    } else {
      assert events[i..] == [];
      batch := None;
    }
  }
}
