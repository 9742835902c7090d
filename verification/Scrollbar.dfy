/**
 Scrollbar geometry (packages/tui/src/layout.ts) and dragging (packages/tui/src/tui-alt-screen.ts), over integers:
 `Math.round` of a quotient of non-negative integers is the quotient rounded half up.
 */
module Scrollbars {
  import opened Options

  function Min(a: int, b: int): int { if a < b then a else b }
  function Max(a: int, b: int): int { if a > b then a else b }

  /** `Math.round(a / b)`. */
  function Round(a: nat, b: nat): (r: nat)
    requires b > 0
    ensures 2 * b * r <= 2 * a + b < 2 * b * (r + 1)
  {
    (2 * a + b) / (2 * b)
  }

  /** Products with the same positive factor compare as the other factors do. */
  lemma Compare(b: int, x: int, y: int)
    requires b > 0
    ensures b * x < b * y <==> x < y
  {
    if x < y {
      Product(b, y - x);
      assert b * y == b * x + b * (y - x);
    } else {
      Product(b, x - y + 1);
      assert b * x == b * y + b * (x - y);
    }
  }

  lemma Product(b: int, d: int)
    requires b > 0 && d > 0
    ensures b * d >= b
  {}

  lemma RoundIsUnique(a: nat, b: nat, r: nat)
    requires b > 0 && 2 * b * r <= 2 * a + b < 2 * b * (r + 1)
    ensures Round(a, b) == r
  {
    hide Round;
    var q := Round(a, b);
    Compare(2 * b, q, r + 1);
    Compare(2 * b, r, q + 1);
  }

  /** A quotient that is at least `n` does not round below it. */
  lemma RoundAtLeast(a: nat, b: nat, n: nat)
    requires b > 0 && a >= b * n
    ensures Round(a, b) >= n
  {
    hide Round;
    assert 2 * b * n == 2 * (b * n);
    Compare(2 * b, n, Round(a, b) + 1);
  }

  lemma RoundAtMost(a: nat, b: nat, n: nat)
    requires b > 0 && a <= b * n
    ensures Round(a, b) <= n
  {
    hide Round;
    assert 2 * b * (n + 1) == 2 * (b * n) + 2 * b;
    Compare(2 * b, Round(a, b), n + 1);
  }

  lemma RoundIsMonotone(a: nat, c: nat, b: nat)
    requires b > 0 && a <= c
    ensures Round(a, b) <= Round(c, b)
  {
    hide Round;
    Compare(2 * b, Round(a, b), Round(c, b) + 1);
  }

  /** The quotient by an empty content is infinite and is cut to the track. */
  function ThumbHeight(trackHeight: nat, contentHeight: nat): (h: nat)
    requires trackHeight > 0
    ensures 1 <= h <= trackHeight && Min(2, trackHeight) <= h
  {
    var proportional := if contentHeight == 0 then trackHeight else Round(trackHeight * trackHeight, contentHeight);
    Max(Min(2, trackHeight), Min(trackHeight, proportional))
  }

  function MaxScrollTop(trackHeight: nat, contentHeight: nat): nat {
    Max(0, contentHeight - trackHeight)
  }

  /** How far the thumb can travel. */
  function MaxThumbOffset(trackHeight: nat, contentHeight: nat): nat
    requires trackHeight > 0
  {
    trackHeight - ThumbHeight(trackHeight, contentHeight)
  }

  /** Where the thumb is painted in its track. */
  function ThumbOffset(trackHeight: nat, contentHeight: nat, scrollTop: nat): nat
    requires trackHeight > 0
  {
    var maxScrollTop := MaxScrollTop(trackHeight, contentHeight);
    if maxScrollTop == 0 then 0
    else Round(scrollTop * MaxThumbOffset(trackHeight, contentHeight), maxScrollTop)
  }

  /** The row that dragging the thumb to an offset scrolls to. */
  function ScrollTopFor(trackHeight: nat, contentHeight: nat, thumbOffset: nat): nat
    requires trackHeight > 0
  {
    var maxThumbOffset := MaxThumbOffset(trackHeight, contentHeight);
    if maxThumbOffset == 0 then 0
    else Round(thumbOffset * MaxScrollTop(trackHeight, contentHeight), maxThumbOffset)
  }

  /** There are never more places for the thumb than rows to scroll to. */
  lemma TravelFitsRows(trackHeight: nat, contentHeight: nat)
    requires trackHeight > 0
    ensures MaxThumbOffset(trackHeight, contentHeight) <= MaxScrollTop(trackHeight, contentHeight)
  {
    hide Round;
    var t, c := trackHeight, contentHeight;
    if c > t {
      if c <= 2 * t {
        Squares(t, c);
        RoundAtLeast(t * t, c, 2 * t - c);
      }
    } else if c > 0 {
      Scaled(c, t, t);
      RoundAtLeast(t * t, c, t);
    }
  }

  /** The thumb fills the track if the content fits, and otherwise is to the track as the track is to the content. */
  lemma ThumbIsProportional(trackHeight: nat, contentHeight: nat)
    requires trackHeight > 0
    ensures var h := ThumbHeight(trackHeight, contentHeight);
            && (contentHeight <= trackHeight ==> h == trackHeight)
            && (contentHeight > 0 && Min(2, trackHeight) < h < trackHeight ==>
                  2 * contentHeight * h <= 2 * (trackHeight * trackHeight) + contentHeight < 2 * contentHeight * (h + 1))
  {
    hide Round;
    if 0 < contentHeight <= trackHeight {
      Scaled(contentHeight, trackHeight, trackHeight);
      RoundAtLeast(trackHeight * trackHeight, contentHeight, trackHeight);
    }
  }

  lemma Scaled(x: nat, y: nat, factor: nat)
    requires x <= y
    ensures x * factor <= y * factor
  {
    assert y * factor == x * factor + (y - x) * factor;
  }

  lemma Squares(t: nat, c: nat)
    requires t <= c <= 2 * t
    ensures t * t >= c * (2 * t - c)
  {
    var d := c - t;
    assert c * (2 * t - c) == (t + d) * (t - d);
    Difference(t, d);
  }

  lemma Difference(t: int, d: int)
    ensures (t + d) * (t - d) == t * t - d * d && d * d >= 0
  {}

  lemma Double(b: nat, k: nat, product: nat)
    requires product == k * b
    ensures 2 * b * k == 2 * product && 2 * b * (k + 1) == 2 * product + 2 * b
  {
    assert 2 * b * k == 2 * (k * b);
    assert 2 * b * (k + 1) == 2 * b * k + 2 * b;
  }

  lemma ScaleAndBack(k: nat, rows: nat, travel: nat)
    requires 0 < travel <= rows && k <= travel
    ensures Round(Round(k * rows, travel) * travel, rows) == k
  {
    hide Round;
    var s := Round(k * rows, travel);
    var there, back := k * rows, s * travel;
    Double(travel, s, back);
    Double(rows, k, there);
    if travel == rows {
      RoundIsUnique(there, travel, k);
    }
    RoundIsUnique(back, rows, k);
  }

  /** Scrolling to the row computed for any place of the thumb paints the thumb back at that place. */
  lemma DragThenPaint(trackHeight: nat, contentHeight: nat, thumbOffset: nat)
    requires trackHeight > 0 && thumbOffset <= MaxThumbOffset(trackHeight, contentHeight)
    ensures ThumbOffset(trackHeight, contentHeight, ScrollTopFor(trackHeight, contentHeight, thumbOffset)) == thumbOffset
  {
    var travel, rows := MaxThumbOffset(trackHeight, contentHeight), MaxScrollTop(trackHeight, contentHeight);
    TravelFitsRows(trackHeight, contentHeight);
    hide MaxThumbOffset, MaxScrollTop, Round;
    if travel > 0 {
      ScaleAndBack(thumbOffset, rows, travel);
    } else if rows > 0 {
      RoundIsUnique(0, rows, 0);
    }
  }

  /** The thumb stays inside its track, at the top and the bottom of the content it is at the ends of the track. */
  lemma ThumbStaysInTrack(trackHeight: nat, contentHeight: nat, scrollTop: nat)
    requires trackHeight > 0 && scrollTop <= MaxScrollTop(trackHeight, contentHeight)
    ensures var offset := ThumbOffset(trackHeight, contentHeight, scrollTop);
            && offset + ThumbHeight(trackHeight, contentHeight) <= trackHeight
            && (scrollTop == 0 ==> offset == 0)
            && (scrollTop == MaxScrollTop(trackHeight, contentHeight) ==> offset == MaxThumbOffset(trackHeight, contentHeight))
  {
    var travel, rows := MaxThumbOffset(trackHeight, contentHeight), MaxScrollTop(trackHeight, contentHeight);
    TravelFitsRows(trackHeight, contentHeight);
    hide MaxScrollTop, Round;
    if rows > 0 {
      Scaled(scrollTop, rows, travel);
      RoundAtMost(scrollTop * travel, rows, travel);
      if scrollTop == 0 {
        RoundAtMost(0, rows, 0);
      }
      if scrollTop == rows {
        RoundAtLeast(rows * travel, rows, travel);
      }
    }
  }

  /** Scrolling down never moves the thumb up. */
  lemma ThumbFollowsScroll(trackHeight: nat, contentHeight: nat, above: nat, below: nat)
    requires trackHeight > 0 && above <= below
    ensures ThumbOffset(trackHeight, contentHeight, above) <= ThumbOffset(trackHeight, contentHeight, below)
  {
    var travel, rows := MaxThumbOffset(trackHeight, contentHeight), MaxScrollTop(trackHeight, contentHeight);
    hide MaxThumbOffset, MaxScrollTop, Round;
    if rows > 0 {
      Scaled(above, below, travel);
      RoundIsMonotone(above * travel, below * travel, rows);
    }
  }

  lemma DragStaysInContent(trackHeight: nat, contentHeight: nat, thumbOffset: nat)
    requires trackHeight > 0 && thumbOffset <= MaxThumbOffset(trackHeight, contentHeight)
    ensures ScrollTopFor(trackHeight, contentHeight, thumbOffset) <= MaxScrollTop(trackHeight, contentHeight)
  {
    var travel, rows := MaxThumbOffset(trackHeight, contentHeight), MaxScrollTop(trackHeight, contentHeight);
    hide MaxThumbOffset, MaxScrollTop, Round;
    if travel > 0 {
      Scaled(thumbOffset, travel, rows);
      RoundAtMost(thumbOffset * rows, travel, rows);
    }
  }

  /** A mouse report; bit 5 of `button` says that the pointer moved, the two lowest bits which button it is. */
  datatype MouseEvent = MouseEvent(button: nat, x: int, y: int, release: bool)

  predicate PressesLeft(event: MouseEvent) {
    !event.release && event.button / 32 % 2 == 0 && event.button % 4 == 0
  }

  /** A visible scrollbar and the pointer that may be dragging its thumb, held `grabOffset` rows below its top. */
  class ScrollbarPointer {
    const column: int
    const trackTop: int
    const trackHeight: nat
    const contentHeight: nat
    var scrollTop: nat
    var grabOffset: Option<nat>

    ghost predicate Valid()
      reads this
    {
      && trackHeight > 0 && scrollTop <= MaxScrollTop(trackHeight, contentHeight)
      && (grabOffset.Some? ==> grabOffset.value < ThumbHeight(trackHeight, contentHeight))
    }

    /** The row of the screen that the thumb begins at. */
    function ThumbTop(): int
      requires trackHeight > 0
      reads this`scrollTop
    {
      trackTop + ThumbOffset(trackHeight, contentHeight, scrollTop)
    }

    predicate OnThumb(x: int, y: int)
      requires trackHeight > 0
      reads this`scrollTop
    {
      x == column && ThumbTop() <= y < ThumbTop() + ThumbHeight(trackHeight, contentHeight)
    }

    /** The thumb offset that puts its grabbed cell under the pointer, as far as the track allows. */
    function OffsetUnder(y: int): nat
      requires trackHeight > 0 && grabOffset.Some?
      reads this`grabOffset
    {
      Max(0, Min(MaxThumbOffset(trackHeight, contentHeight), y - trackTop - grabOffset.value))
    }

    constructor (column: int, top: int, height: nat, content: nat)
      requires height > 0
      ensures Valid() && this.column == column && trackTop == top && trackHeight == height && contentHeight == content
      ensures scrollTop == 0 && grabOffset == None
    {
      this.column, trackTop, trackHeight, contentHeight := column, top, height, content;
      scrollTop, grabOffset := 0, None;
    }

    /** The left button pressed on the thumb grabs the cell that was hit; nothing else is handled. */
    method Press(event: MouseEvent) returns (handled: bool)
      requires Valid() && grabOffset.None?
      modifies this`grabOffset
      ensures Valid()
      ensures handled <==> PressesLeft(event) && OnThumb(event.x, event.y)
      ensures if handled
              then grabOffset.Some? && event.y == ThumbTop() + grabOffset.value
                   && OffsetUnder(event.y) == ThumbOffset(trackHeight, contentHeight, scrollTop)
              else grabOffset == None
    {
      if event.release || event.button / 32 % 2 != 0 || event.button % 4 != 0 {
        return false;
      }
      if !OnThumb(event.x, event.y) {
        return false;
      }
      ThumbStaysInTrack(trackHeight, contentHeight, scrollTop);
      grabOffset := Some(event.y - ThumbTop());
      handled := true;
    }

    /** The grabbed cell of the thumb follows the pointer, as far as the track allows. */
    method Drag(y: int)
      requires Valid() && grabOffset.Some?
      modifies this`scrollTop
      ensures Valid() && ThumbTop() == trackTop + OffsetUnder(y)
    {
      var thumbOffset := OffsetUnder(y);
      DragThenPaint(trackHeight, contentHeight, thumbOffset);
      DragStaysInContent(trackHeight, contentHeight, thumbOffset);
      scrollTop := ScrollTopFor(trackHeight, contentHeight, thumbOffset);
    }

    /** While a thumb is held every event is handled: a release lets go, any other moves the thumb. */
    method HandleMouseEvent(event: MouseEvent) returns (handled: bool)
      requires Valid()
      modifies this`scrollTop, this`grabOffset
      ensures Valid()
      ensures handled <==> old(grabOffset).Some? || (PressesLeft(event) && old(OnThumb(event.x, event.y)))
      ensures grabOffset.Some? <==>
                if old(grabOffset).Some? then !event.release else PressesLeft(event) && old(OnThumb(event.x, event.y))
      ensures old(grabOffset).Some? && !event.release ==>
                grabOffset == old(grabOffset) && ThumbTop() == trackTop + old(OffsetUnder(event.y))
      ensures old(grabOffset).None? || event.release ==> scrollTop == old(scrollTop)
      ensures old(grabOffset).None? && handled ==> event.y == ThumbTop() + grabOffset.value
    {
      if grabOffset.Some? {
        if event.release {
          grabOffset := None;
          return true;
        }
        Drag(event.y);
        return true;
      }
      handled := Press(event);
    }
  }
}
