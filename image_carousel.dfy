/**
 * The picture carousel: a wrap-around index over `count` pictures, moved by the arrow buttons,
 * the dots, a click on the picture, the arrow and space keys, and horizontal swipes made with a
 * finger or a mouse drag.
 */
module ImageCarousel {
  import opened Wrappers

  /** How far, in pixels, a swipe must travel before it turns the carousel. */
  const SwipeThreshold: real := 50.0

  /** `currentIndex === images.length - 1 ? 0 : currentIndex + 1`. */
  function NextIndex(i: int, n: nat): (r: int)
    ensures 0 <= i < n ==> 0 <= r < n && r == (i + 1) % n
  {
    if i == n - 1 then 0 else i + 1
  }

  /** `currentIndex === 0 ? images.length - 1 : currentIndex - 1`. */
  function PrevIndex(i: int, n: nat): (r: int)
    ensures 0 <= i < n ==> 0 <= r < n && r == (i + n - 1) % n
  {
    if i == 0 then n - 1 else i - 1
  }

  /** Previous undoes next and next undoes previous. */
  lemma NextPrevInverse(i: int, n: nat)
    requires 0 <= i < n
    ensures NextIndex(PrevIndex(i, n), n) == i
    ensures PrevIndex(NextIndex(i, n), n) == i
  {
  }

  /** With a single picture both directions stay on it. */
  lemma SinglePictureStays()
    ensures NextIndex(0, 1) == 0 && PrevIndex(0, 1) == 0
  {
  }

  /** Going forward `k` times from `i`. */
  function Forward(i: int, n: nat, k: nat): int {
    if k == 0 then i else NextIndex(Forward(i, n, k - 1), n)
  }

  /** Going forward `n` times returns to the starting picture. */
  lemma {:induction false} FullTurn(i: int, n: nat)
    requires 0 <= i < n
    ensures Forward(i, n, n) == i
  {
    ForwardWraps(i, n, n);
  }

  /** Within one turn, going forward adds `k` and wraps past the last picture exactly once. */
  lemma {:induction false} ForwardWraps(i: int, n: nat, k: nat)
    requires 0 <= i < n && k <= n
    ensures Forward(i, n, k) == if i + k < n then i + k else i + k - n
  {
    if k > 0 {
      ForwardWraps(i, n, k - 1);
    }
  }

  /** Nothing rendered, but the key listener still runs: with no pictures the index leaves the range. */
  lemma EmptyCarouselLeavesRange()
    ensures NextIndex(0, 0) == 1 && PrevIndex(0, 0) == -1
  {
  }

  /** `!startX.current`: no position recorded, or a position of exactly 0. */
  predicate Falsy(x: Option<real>) {
    x.None? || x.value == 0.0
  }

  /**
   * The index after a swipe of `distance` pixels (start minus end): past the threshold to the
   * left it advances, past it to the right it goes back, and only when there are two pictures or more.
   */
  function SwipeIndex(i: int, n: nat, distance: real): (r: int)
    ensures distance > SwipeThreshold && n > 1 ==> r == NextIndex(i, n)
    ensures distance < -SwipeThreshold && n > 1 ==> r == PrevIndex(i, n)
    ensures -SwipeThreshold <= distance <= SwipeThreshold || n <= 1 ==> r == i
    ensures 0 <= i < n ==> 0 <= r < n
  {
    var afterLeft := if distance > SwipeThreshold && n > 1 then NextIndex(i, n) else i;
    if distance < -SwipeThreshold && n > 1 then PrevIndex(afterLeft, n) else afterLeft
  }

  /** A swipe followed by the same swipe in the opposite direction comes back. */
  lemma SwipeBackAndForth(i: int, n: nat, distance: real)
    requires 0 <= i < n
    ensures SwipeIndex(SwipeIndex(i, n, distance), n, -distance) == i
  {
    if n > 1 {
      NextPrevInverse(i, n);
    }
  }

  /** The index after a key press: left goes back, right and space advance, any other key changes nothing. */
  function KeyIndex(i: int, n: nat, key: string): (r: int)
    ensures key == "ArrowLeft" ==> r == PrevIndex(i, n)
    ensures key == "ArrowRight" || key == " " ==> r == NextIndex(i, n)
    ensures key !in {"ArrowLeft", "ArrowRight", " "} ==> r == i
  {
    if key == "ArrowLeft" then PrevIndex(i, n)
    else if key == "ArrowRight" then NextIndex(i, n)
    else if key == " " then NextIndex(i, n)
    else i
  }

  /** Keys never take the index out of range when there is at least one picture. */
  lemma KeyKeepsRange(i: int, n: nat, key: string)
    requires 0 <= i < n
    ensures 0 <= KeyIndex(i, n, key) < n
  {
  }

  class Carousel {
    /** `images.length`. */
    const count: nat
    /** `currentIndex`. */
    var index: int
    /** `isDragging`. */
    var dragging: bool
    /** The `startX` and `endX` refs: `clientX` positions in CSS pixels, which may be fractional. */
    var startX: Option<real>
    var endX: Option<real>

    /** The index names a picture. */
    predicate InRange()
      reads this
    {
      0 <= index < count
    }

    constructor(count: nat)
      ensures this.count == count && index == 0
      ensures !dragging && startX == None && endX == None
      ensures count > 0 ==> InRange()
    {
      this.count := count;
      index := 0;
      dragging := false;
      startX, endX := None, None;
    }

    method Previous()
      modifies this`index
      ensures index == PrevIndex(old(index), count)
      ensures old(InRange()) ==> InRange()
    {
      index := if index == 0 then count - 1 else index - 1;
    }

    method Next()
      modifies this`index
      ensures index == NextIndex(old(index), count)
      ensures old(InRange()) ==> InRange()
    {
      index := if index == count - 1 then 0 else index + 1;
    }

    /** A click on dot `k`; the dots are numbered from 0 to `count - 1`. */
    method DotClick(k: int)
      modifies this`index
      ensures index == k
      ensures 0 <= k < count ==> InRange()
    {
      index := k;
    }

    /** A click on the picture advances. */
    method ImageClick()
      modifies this`index
      ensures index == NextIndex(old(index), count)
      ensures old(InRange()) ==> InRange()
    {
      Next();
    }

    /**
     * The end of a swipe: with both positions recorded (and neither exactly 0) the index moves
     * by `SwipeIndex` and both positions are forgotten; otherwise nothing changes at all.
     */
    method SwipeEnd()
      modifies this`index, this`startX, this`endX
      ensures if Falsy(old(startX)) || Falsy(old(endX)) then
          index == old(index) && startX == old(startX) && endX == old(endX)
        else
          index == SwipeIndex(old(index), count, old(startX).value - old(endX).value)
          && startX == None && endX == None
      ensures old(InRange()) ==> InRange()
    {
      if Falsy(startX) || Falsy(endX) {
        return;
      }
      var distance := startX.value - endX.value;
      var isLeftSwipe := distance > SwipeThreshold;
      var isRightSwipe := distance < -SwipeThreshold;
      if isLeftSwipe && count > 1 {
        Next();
      }
      if isRightSwipe && count > 1 {
        Previous();
      }
      startX, endX := None, None;
    }

    method TouchStart(clientX: real)
      modifies this`startX
      ensures startX == Some(clientX)
    {
      startX := Some(clientX);
    }

    method TouchMove(clientX: real)
      modifies this`endX
      ensures endX == Some(clientX)
    {
      endX := Some(clientX);
    }

    method TouchEnd()
      modifies this`index, this`startX, this`endX
      ensures if Falsy(old(startX)) || Falsy(old(endX)) then
          index == old(index) && startX == old(startX) && endX == old(endX)
        else
          index == SwipeIndex(old(index), count, old(startX).value - old(endX).value)
          && startX == None && endX == None
      ensures old(InRange()) ==> InRange()
    {
      SwipeEnd();
    }

    method MouseDown(clientX: real)
      modifies this`dragging, this`startX
      ensures dragging && startX == Some(clientX)
    {
      dragging := true;
      startX := Some(clientX);
    }

    /** The mouse position is recorded only while a drag is under way. */
    method MouseMove(clientX: real)
      modifies this`endX
      ensures endX == if dragging then Some(clientX) else old(endX)
    {
      if !dragging {
        return;
      }
      endX := Some(clientX);
    }

    /** Releasing the button ends a drag and evaluates it as a swipe; without a drag it does nothing. */
    method MouseUp()
      modifies this`dragging, this`index, this`startX, this`endX
      ensures !dragging
      ensures !old(dragging) ==> index == old(index) && startX == old(startX) && endX == old(endX)
      ensures old(dragging) ==>
        if Falsy(old(startX)) || Falsy(old(endX)) then
          index == old(index) && startX == old(startX) && endX == old(endX)
        else
          index == SwipeIndex(old(index), count, old(startX).value - old(endX).value)
          && startX == None && endX == None
      ensures old(InRange()) ==> InRange()
    {
      if dragging {
        dragging := false;
        SwipeEnd();
      }
    }

    /** Leaving the picture ends a drag exactly as releasing the button does. */
    method MouseLeave()
      modifies this`dragging, this`index, this`startX, this`endX
      ensures !dragging
      ensures !old(dragging) ==> index == old(index) && startX == old(startX) && endX == old(endX)
      ensures old(dragging) ==>
        if Falsy(old(startX)) || Falsy(old(endX)) then
          index == old(index) && startX == old(startX) && endX == old(endX)
        else
          index == SwipeIndex(old(index), count, old(startX).value - old(endX).value)
          && startX == None && endX == None
      ensures old(InRange()) ==> InRange()
    {
      if dragging {
        dragging := false;
        SwipeEnd();
      }
    }

    /** A key press; `handled` tells whether the key's default action was prevented. */
    method KeyDown(key: string) returns (handled: bool)
      modifies this`index
      ensures handled <==> key in {"ArrowLeft", "ArrowRight", " "}
      ensures index == KeyIndex(old(index), count, key)
      ensures old(InRange()) ==> InRange()
    {
      handled := true;
      if key == "ArrowLeft" {
        Previous();
      } else if key == "ArrowRight" {
        Next();
      } else if key == " " {
        Next();
      } else {
        handled := false;
      }
    }
  }
}
