/**
 * The card carousel shared by src/pages/UserDashboard.jsx and src/pages/AstrologerDashboard.jsx:
 * an index moved modulo the list length and a window of three consecutive cards.
 */
module Carousel {

  /** `(i + 1) % n` */
  function Next(i: nat, n: nat): (r: nat)
    requires n >= 1
    ensures r < n
    ensures i < n - 1 ==> r == i + 1
    ensures i == n - 1 ==> r == 0
  {
    (i + 1) % n
  }

  /** `(i - 1 + n) % n`; the dividend is never negative, so JavaScript's `%` agrees with Dafny's. */
  function Prev(i: nat, n: nat): (r: nat)
    requires n >= 1
    ensures r < n
    ensures 0 < i <= n ==> r == i - 1
    ensures i == 0 ==> r == n - 1
  {
    (i - 1 + n) % n
  }

  /** Back then forward, or forward then back, is the identity on valid indices. */
  lemma NextPrevInverse(i: nat, n: nat)
    requires i < n
    ensures Prev(Next(i, n), n) == i
    ensures Next(Prev(i, n), n) == i
  {
    if i == n - 1 {
      assert Next(i, n) == 0;
    } else {
      assert Next(i, n) == i + 1;
    }
  }

  /** `x % n` for a positive length `n`: a position that wraps round to the front. */
  function Wrap(x: nat, n: nat): (r: nat)
    requires n >= 1
    ensures r < n
    ensures x < n ==> r == x
  {
    x % n
  }

  /** The cards on screen: three consecutive ones, wrapping round, once there are three. */
  function Window<T>(a: seq<T>, i: nat): (r: seq<T>)
    requires |a| >= 3 ==> i < |a|
    ensures |a| < 3 ==> r == a
    ensures |a| >= 3 ==> |r| == 3 && forall k :: 0 <= k < 3 ==> r[k] == a[Wrap(i + k, |a|)]
  {
    if |a| >= 3 then [a[i], a[Wrap(i + 1, |a|)], a[Wrap(i + 2, |a|)]] else a
  }

  /** Moving forward slides the window by one card. */
  lemma WindowSlides<T>(a: seq<T>, i: nat)
    requires |a| >= 3 && i < |a|
    ensures Window(a, Next(i, |a|))[..2] == Window(a, i)[1..]
  {
    var n := |a|;
    var j := Next(i, n);
    assert (j + 1) % n == (i + 2) % n;
  }

  /** With at least three cards the window never shows a card twice. */
  lemma WindowDistinct<T>(a: seq<T>, i: nat)
    requires |a| >= 3 && i < |a|
    requires forall p, q :: 0 <= p < q < |a| ==> a[p] != a[q]
    ensures forall p, q :: 0 <= p < q < 3 ==> Window(a, i)[p] != Window(a, i)[q]
  {
    var n := |a|;
    assert i != (i + 1) % n && i != (i + 2) % n && (i + 1) % n != (i + 2) % n;
  }
}
