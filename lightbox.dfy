/**
 * The full-screen image viewer shared by the gallery and the client
 * transformations: a selected index that is either absent or an index into
 * the section's fixed list of images, with wrap-around stepping. Opening
 * and closing also set the page body's overflow, which is one object shared
 * by every viewer on the page.
 */
module Lightbox {
  import opened Wrappers

  /** The index after `i` in a list of `n` images: the last wraps to the first. */
  function Next(i: nat, n: nat): (j: nat)
    requires i < n
    ensures j < n
    ensures j == (i + 1) % n
  {
    if i == n - 1 then assert n % n == 0; 0 else assert (i + 1) % n == i + 1; i + 1
  }

  /** The index before `i` in a list of `n` images: the first wraps to the last. */
  function Previous(i: nat, n: nat): (j: nat)
    requires i < n
    ensures j < n
    ensures (j + 1) % n == i
  {
    if i == 0 then assert n % n == 0; n - 1 else assert i % n == i; i - 1
  }

  /** Stepping back and then forward returns to the same image. */
  lemma NextAfterPrevious(i: nat, n: nat)
    requires i < n
    ensures Next(Previous(i, n), n) == i
  {
  }

  /** Stepping forward and then back returns to the same image. */
  lemma PreviousAfterNext(i: nat, n: nat)
    requires i < n
    ensures Previous(Next(i, n), n) == i
  {
  }

  /** The index reached from `i` after `k` presses of the forward button. */
  function Advance(i: nat, k: nat, n: nat): (j: nat)
    requires i < n
    ensures j < n
  {
    if k == 0 then i else Next(Advance(i, k - 1, n), n)
  }

  /** Until the end of the list is reached, `k` forward steps are plain addition. */
  lemma {:induction false} AdvanceWithoutWrap(i: nat, k: nat, n: nat)
    requires i + k < n
    ensures Advance(i, k, n) == i + k
  {
    if k > 0 {
      AdvanceWithoutWrap(i, k - 1, n);
    }
  }

  /** `a` steps followed by `b` steps are `a + b` steps. */
  lemma {:induction false} AdvanceCompose(i: nat, a: nat, b: nat, n: nat)
    requires i < n
    ensures Advance(Advance(i, a, n), b, n) == Advance(i, a + b, n)
  {
    if b > 0 {
      AdvanceCompose(i, a, b - 1, n);
    }
  }

  /** Pressing forward once per image brings the viewer back to where it started. */
  lemma AdvanceFullCycle(i: nat, n: nat)
    requires i < n
    ensures Advance(i, n, n) == i
  {
    AdvanceWithoutWrap(i, n - i - 1, n);
    assert Advance(i, n - i, n) == 0;
    AdvanceWithoutWrap(0, i, n);
    AdvanceCompose(i, n - i, i, n);
  }

  /** The CSS overflow of the page body: as the page set it, hidden while a viewer is open, or auto. */
  datatype Overflow = Unset | Hidden | Auto

  /** `document.body`, shared by every viewer on the page. */
  class Body {
    var overflow: Overflow

    constructor ()
      ensures overflow == Unset
    {
      overflow := Unset;
    }
  }

  /**
   * One section's viewer: `count` images and the selected index, which is
   * absent while the viewer is closed.
   */
  class LightboxView {
    const count: nat
    const body: Body
    var selected: Option<nat>

    /** A selection always names one of the section's images. */
    ghost predicate Valid()
      reads this
    {
      selected.Some? ==> selected.value < count
    }

    constructor (n: nat, page: Body)
      ensures Valid()
      ensures count == n && body == page && selected == None
    {
      count := n;
      body := page;
      selected := None;
    }

    /** `openLightbox(index)`: the clicked tile is shown and the page stops scrolling. */
    method Open(index: nat)
      requires Valid() && index < count
      modifies this`selected, body`overflow
      ensures Valid()
      ensures selected == Some(index) && body.overflow == Hidden
    {
      selected := Some(index);
      body.overflow := Hidden;
    }

    /** `closeLightbox`: nothing is selected and the page scrolls again. */
    method Close()
      requires Valid()
      modifies this`selected, body`overflow
      ensures Valid()
      ensures selected == None && body.overflow == Auto
    {
      selected := None;
      body.overflow := Auto;
    }

    /** `goToNext`, whose button is only shown while an image is selected. */
    method GoToNext()
      requires Valid() && selected.Some?
      modifies this`selected
      ensures Valid()
      ensures selected == Some(Next(old(selected.value), count))
    {
      var i := selected.value;
      selected := Some(if i == count - 1 then 0 else i + 1);
    }

    /** `goToPrevious`, whose button is only shown while an image is selected. */
    method GoToPrevious()
      requires Valid() && selected.Some?
      modifies this`selected
      ensures Valid()
      ensures selected == Some(Previous(old(selected.value), count))
    {
      var i := selected.value;
      selected := Some(if i == 0 then count - 1 else i - 1);
    }
  }
}
