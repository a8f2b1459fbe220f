/**
 Which page of a vertical reader is current, and which pages are loaded around it.
 Positions on screen are reals; card positions are whole numbers.
 */
module ViewerState {
  const SPACING := 12
  const MIN_HEIGHT := 320
  const MAX_HEIGHT := 1800
  const MIN_VIEWPORT := 600.0

  /** The placeholder height of a card whose picture would be `scaled` high. */
  function EstimatedHeight(scaled: int): (h: int)
    ensures MIN_HEIGHT <= h <= MAX_HEIGHT
    ensures MIN_HEIGHT <= scaled <= MAX_HEIGHT ==> h == scaled
    ensures (scaled < 320 ==> h == 320) && (scaled > 1800 ==> h == 1800)
  {
    var low := if scaled < MAX_HEIGHT then scaled else MAX_HEIGHT;
    if low < MIN_HEIGHT then MIN_HEIGHT else low
  }

  predicate Tall(heights: seq<int>) {
    forall i :: 0 <= i < |heights| ==> heights[i] >= MIN_HEIGHT
  }

  /** Where a card starts. */
  function Offset(heights: seq<int>, i: nat): int
    requires i <= |heights|
  {
    if i == 0 then 0 else Offset(heights, i - 1) + heights[i - 1] + SPACING
  }

  predicate AreOffsets(offsets: seq<int>, heights: seq<int>) {
    |offsets| == |heights| && forall i :: 0 <= i < |offsets| ==> offsets[i] == Offset(heights, i)
  }

  predicate Ascending(offsets: seq<int>) {
    forall i, j :: 0 <= i <= j < |offsets| ==> offsets[i] <= offsets[j]
  }

  /** Cards from `i` to `j` take up at least their minimal heights and the gaps. */
  lemma {:induction false} OffsetsGrow(heights: seq<int>, i: nat, j: nat)
    requires Tall(heights) && i <= j <= |heights|
    ensures Offset(heights, j) - Offset(heights, i) >= (j - i) * (MIN_HEIGHT + SPACING)
    decreases j
  {
    if i < j {
      OffsetsGrow(heights, i, j - 1);
    }
  }

  method CardOffsets(heights: seq<int>) returns (offsets: seq<int>)
    ensures AreOffsets(offsets, heights)
  {
    offsets := [];
    var total := 0;
    var i := 0;
    while i < |heights|
      invariant 0 <= i <= |heights| && |offsets| == i && total == Offset(heights, i)
      invariant forall j :: 0 <= j < i ==> offsets[j] == Offset(heights, j)
    {
      offsets := offsets + [total];
      total := total + heights[i] + SPACING;
      i := i + 1;
    }
  }

  // ---------------------------------------------------------------- the window

  predicate IsVisible(offsets: seq<int>, heights: seq<int>, start: real, end: real, i: nat) {
    i < |offsets| && i < |heights| && (offsets[i] + heights[i]) as real >= start && offsets[i] as real <= end
  }

  function Start(pixels: real, buffer: real): real {
    if pixels - buffer > 0.0 then pixels - buffer else 0.0
  }

  function End(pixels: real, viewport: real, buffer: real): real {
    pixels + (if viewport > MIN_VIEWPORT then viewport else MIN_VIEWPORT) + buffer
  }

  predicate IsNeighbour(index: int, adjacent: int, count: int, i: int) {
    0 <= i < count && index - adjacent <= i <= index + adjacent
  }

  function Low(index: int, adjacent: int): int {
    if index - adjacent > 0 then index - adjacent else 0
  }

  function High(index: int, adjacent: int, count: int): int {
    if index + adjacent + 1 < count then index + adjacent + 1 else count
  }

  /** The card under a scroll position: the last one starting at or before it, the first if there is none. */
  predicate IsScrollIndex(offsets: seq<int>, pixels: real, k: nat) {
    && (|offsets| == 0 ==> k == 0)
    && (|offsets| > 0 ==> k < |offsets| && (k > 0 ==> offsets[k] as real <= pixels))
    && forall j :: k < j < |offsets| ==> offsets[j] as real > pixels
  }

  /** The first `n` cards start at or before the scroll position, the next one does not. */
  predicate RunEnds(offsets: seq<int>, pixels: real, n: nat) {
    && n <= |offsets| && (forall j :: 0 <= j < n ==> offsets[j] as real <= pixels)
    && (n < |offsets| ==> offsets[n] as real > pixels)
  }

  predicate TooLow(offsets: seq<int>, heights: seq<int>, start: real, end: real, i: nat)
    requires i < |offsets| && i < |heights|
  {
    (offsets[i] + heights[i]) as real >= start && offsets[i] as real > end
  }

  /** The scan ends before the first card that starts below the window. */
  predicate ScanEnds(offsets: seq<int>, heights: seq<int>, start: real, end: real, n: nat) {
    && n <= |offsets| && n <= |heights|
    && (forall i: nat :: i < n ==> !TooLow(offsets, heights, start, end, i))
    && (n < |offsets| && n < |heights| ==> TooLow(offsets, heights, start, end, n))
  }

  /** The buffered viewport: all of it that lies on the page, and at least 600 and the lower buffer below its start. */
  lemma ViewportIsCovered(offsets: seq<int>, heights: seq<int>, pixels: real, viewport: real, buffer: real, i: nat)
    requires i < |offsets| && i < |heights| && offsets[i] >= 0 && heights[i] >= 0
    ensures IsVisible(offsets, heights, Start(pixels, buffer), End(pixels, viewport, buffer), i) <==>
              && (offsets[i] + heights[i]) as real >= pixels - buffer
              && (offsets[i] as real <= pixels + viewport + buffer || offsets[i] as real <= pixels + 600.0 + buffer)
  {
  }

  class ViewerState {
    const itemCount: nat
    var index: nat

    ghost predicate Valid()
      reads this
    {
      if itemCount == 0 then index == 0 else index < itemCount
    }

    function ClampIndex(i: int): (r: nat)
      ensures if itemCount == 0 then r == 0 else r < itemCount && (0 <= i < itemCount ==> r == i)
      ensures itemCount > 0 ==> (i < 0 ==> r == 0) && (i >= itemCount ==> r == itemCount - 1)
    {
      if itemCount == 0 || i < 0 then 0 else if i < itemCount then i else itemCount - 1
    }

    constructor (itemCount: int, index: int)
      ensures Valid() && this.itemCount as int == if itemCount < 0 then 0 else itemCount
      ensures 0 <= index < itemCount ==> this.index == index
    {
      this.itemCount := if itemCount < 0 then 0 else itemCount;
      this.index := if itemCount <= 0 || index < 0 then 0 else if index < itemCount then index else itemCount - 1;
    }

    method SetIndex(i: int)
      modifies this
      ensures Valid() && index == ClampIndex(i)
    {
      index := ClampIndex(i);
    }

    /** Refuses to leave the pages. */
    method Move(delta: int) returns (ok: bool)
      requires Valid()
      modifies this
      ensures Valid() && (ok <==> 0 <= old(index) + delta < itemCount)
      ensures index == if ok then old(index) + delta else old(index)
    {
      var next := index + delta;
      ok := 0 <= next < itemCount;
      if ok {
        index := next;
      }
    }

    method IndexForScroll(offsets: seq<int>, pixels: real)
      modifies this
      ensures Valid() && exists n: nat :: RunEnds(offsets, pixels, n) && index == ClampIndex(if n == 0 then 0 else n - 1)
      ensures Ascending(offsets) && itemCount == |offsets| ==> IsScrollIndex(offsets, pixels, index)
    {
      var k := 0;
      var candidate := 0;
      while candidate < |offsets|
        invariant 0 <= candidate <= |offsets|
        invariant k == if candidate == 0 then 0 else candidate - 1
        invariant forall j :: 0 <= j < candidate ==> offsets[j] as real <= pixels
      {
        if offsets[candidate] as real > pixels {
          break;
        }
        k := candidate;
        candidate := candidate + 1;
      }
      assert RunEnds(offsets, pixels, candidate);
      SetIndex(k);
    }

    /**
     The neighbours of the index, and every card up to the stop that the buffered viewport touches; if the
     offsets ascend stopping early loses nothing.
     */
    method VerticalWindow(offsets: seq<int>, heights: seq<int>, pixels: real, viewport: real, buffer: real, adjacent: int)
      returns (window: set<int>)
      ensures itemCount == 0 ==> window == {}
      ensures itemCount > 0 ==>
                exists n: nat :: ScanEnds(offsets, heights, Start(pixels, buffer), End(pixels, viewport, buffer), n)
                  && forall i: int :: i in window <==>
                       || (0 <= i < n && IsVisible(offsets, heights, Start(pixels, buffer), End(pixels, viewport, buffer), i))
                       || IsNeighbour(index, adjacent, itemCount, i)
      ensures itemCount > 0 && Ascending(offsets) ==>
                forall i: int :: i in window <==>
                  || (i >= 0 && IsVisible(offsets, heights, Start(pixels, buffer), End(pixels, viewport, buffer), i))
                  || IsNeighbour(index, adjacent, itemCount, i)
    {
      if itemCount == 0 {
        return {};
      }
      var start, end := Start(pixels, buffer), End(pixels, viewport, buffer);
      window := {};
      var i := 0;
      while i < |offsets| && i < |heights|
        invariant 0 <= i && i <= |offsets| && i <= |heights|
        invariant forall j: nat :: j < i ==> !TooLow(offsets, heights, start, end, j)
        invariant forall j: int :: j in window <==> 0 <= j < i && IsVisible(offsets, heights, start, end, j)
      {
        if (offsets[i] + heights[i]) as real >= start {
          if offsets[i] as real > end {
            break;
          }
          window := window + {i};
        }
        i := i + 1;
      }
      assert ScanEnds(offsets, heights, start, end, i);
      var next, stop := Low(index, adjacent), High(index, adjacent, itemCount);
      ghost var touched := window;
      while next < stop
        invariant Low(index, adjacent) <= next && (next <= stop || next == Low(index, adjacent))
        invariant forall j: int :: j in window <==> j in touched || Low(index, adjacent) <= j < next
      {
        window := window + {next};
        next := next + 1;
      }
    }
  }

  // ---------------------------------------------------------------- theorems

  lemma OffsetsAscend(offsets: seq<int>, heights: seq<int>)
    requires Tall(heights) && AreOffsets(offsets, heights)
    ensures Ascending(offsets)
  {
    forall i, j | 0 <= i <= j < |offsets|
      ensures offsets[i] <= offsets[j]
    {
      OffsetsGrow(heights, i, j);
    }
  }

  lemma BottomsAscend(offsets: seq<int>, heights: seq<int>, i: nat, j: nat)
    requires Tall(heights) && AreOffsets(offsets, heights) && i <= j < |offsets|
    ensures offsets[i] + heights[i] <= offsets[j] + heights[j]
  {
    if i < j {
      OffsetsGrow(heights, i + 1, j);
      assert Offset(heights, i + 1) == offsets[i] + heights[i] + SPACING;
    }
  }

  /** Cards that end too high come before all others. */
  lemma FirstTouched(offsets: seq<int>, heights: seq<int>, start: real) returns (a: nat)
    requires Tall(heights) && AreOffsets(offsets, heights)
    ensures a <= |offsets|
    ensures forall i :: 0 <= i < |offsets| ==> ((offsets[i] + heights[i]) as real >= start <==> a <= i)
  {
    a := 0;
    while a < |offsets| && ((offsets[a] + heights[a]) as real) < start
      invariant a <= |offsets| && forall i :: 0 <= i < a ==> ((offsets[i] + heights[i]) as real) < start
    {
      a := a + 1;
    }
    forall i | a <= i < |offsets|
      ensures (offsets[i] + heights[i]) as real >= start
    {
      BottomsAscend(offsets, heights, a, i);
    }
  }

  /** Cards that start too low come after all others. */
  lemma LastTouched(offsets: seq<int>, end: real) returns (b: nat)
    requires Ascending(offsets)
    ensures b <= |offsets|
    ensures forall i :: 0 <= i < |offsets| ==> (offsets[i] as real <= end <==> i < b)
  {
    b := 0;
    while b < |offsets| && offsets[b] as real <= end
      invariant b <= |offsets| && forall i :: 0 <= i < b ==> offsets[i] as real <= end
    {
      b := b + 1;
    }
  }

  /** A buffered viewport holds no more cards than fit in it at minimal height, and one at either edge. */
  lemma VisibleIsBounded(offsets: seq<int>, heights: seq<int>, start: real, end: real, a: nat, b: nat)
    requires Tall(heights) && AreOffsets(offsets, heights) && a < b <= |offsets| && start <= end
    requires (offsets[a] + heights[a]) as real >= start && offsets[b - 1] as real <= end
    ensures ((b - a - 2) * (MIN_HEIGHT + SPACING)) as real <= end - start
  {
    if a + 1 <= b - 1 {
      OffsetsGrow(heights, a + 1, b - 1);
      assert Offset(heights, a + 1) == offsets[a] + heights[a] + SPACING;
    }
  }

  predicate InWindow(offsets: seq<int>, heights: seq<int>, start: real, end: real, index: nat, adjacent: int, i: int) {
    || (i >= 0 && IsVisible(offsets, heights, start, end, i))
    || IsNeighbour(index, adjacent, |offsets|, i)
  }

  /** The current card is visible, or the visible ones begin right below it. */
  lemma IndexNearVisible(offsets: seq<int>, heights: seq<int>, index: nat, pixels: real, start: real, end: real, a: nat, b: nat)
    requires Tall(heights) && AreOffsets(offsets, heights) && IsScrollIndex(offsets, pixels, index)
    requires start <= end && pixels <= end && (start <= pixels || start == 0.0) && a < b <= |offsets|
    requires forall i :: 0 <= i < |offsets| ==> ((offsets[i] + heights[i]) as real >= start <==> a <= i)
    requires forall i :: 0 <= i < |offsets| ==> (offsets[i] as real <= end <==> i < b)
    ensures a <= index + 1 && index < b
  {
    assert index < b by {
      assert index > 0 ==> offsets[index] as real <= end;
    }
    if index + 1 < |offsets| {
      var next := offsets[index + 1];
      OffsetsGrow(heights, 0, index + 1);
      assert next >= 0 && next as real > pixels;
      assert (next + heights[index + 1]) as real >= next as real;
      assert (next + heights[index + 1]) as real >= start;
    }
  }

  lemma BufferSpan(pixels: real, viewport: real, buffer: real)
    requires buffer >= 0.0
    ensures End(pixels, viewport, buffer) - Start(pixels, buffer) <= (if viewport > MIN_VIEWPORT then viewport else MIN_VIEWPORT) + 2.0 * buffer
    ensures pixels <= End(pixels, viewport, buffer)
    ensures Start(pixels, buffer) <= pixels || Start(pixels, buffer) == 0.0
  {
  }

  lemma RunsMeet(a: nat, b: nat, index: nat, adjacent: nat, count: nat) returns (lo: int, hi: int)
    requires index < count && b <= count && (a < b ==> a <= index + 1 && index < b)
    ensures lo <= index < hi
    ensures lo <= Low(index, adjacent) && High(index, adjacent, count) <= hi
    ensures a < b ==> lo <= a && b <= hi && (lo == a || lo == Low(index, adjacent)) && (hi == b || hi == High(index, adjacent, count))
    ensures a >= b ==> lo == Low(index, adjacent) && hi == High(index, adjacent, count)
    ensures hi - lo - 2 * adjacent - 1 <= if a < b then b - a else 0
  {
    lo, hi := Low(index, adjacent), High(index, adjacent, count);
    if a < b {
      lo, hi := if a < lo then a else lo, if b > hi then b else hi;
    }
  }

  /**
   After a scroll the loaded pages are one run of pages around the current one, and their number is bounded by
   the size of the viewport, however long the list is.
   */
  lemma WindowIsOneRun(offsets: seq<int>, heights: seq<int>, index: nat, pixels: real, viewport: real, buffer: real, adjacent: nat)
    returns (lo: int, hi: int)
    requires Tall(heights) && AreOffsets(offsets, heights) && |offsets| > 0 && buffer >= 0.0
    requires IsScrollIndex(offsets, pixels, index)
    ensures lo <= index < hi
    ensures forall i: int :: InWindow(offsets, heights, Start(pixels, buffer), End(pixels, viewport, buffer), index, adjacent, i) <==> lo <= i < hi
    ensures ((hi - lo - 2 * adjacent - 3) * (MIN_HEIGHT + SPACING)) as real
         <= (if viewport > MIN_VIEWPORT then viewport else MIN_VIEWPORT) + 2.0 * buffer
  {
    OffsetsAscend(offsets, heights);
    BufferSpan(pixels, viewport, buffer);
    var start, end := Start(pixels, buffer), End(pixels, viewport, buffer);
    var a := FirstTouched(offsets, heights, start);
    var b := LastTouched(offsets, end);
    if a < b {
      OffsetsGrow(heights, 0, b - 1);
      assert offsets[b - 1] >= 0 && start <= end;
      IndexNearVisible(offsets, heights, index, pixels, start, end, a, b);
      VisibleIsBounded(offsets, heights, start, end, a, b);
    }
    lo, hi := RunsMeet(a, b, index, adjacent, |offsets|);
    forall i: int
      ensures InWindow(offsets, heights, start, end, index, adjacent, i) <==> lo <= i < hi
    {
      VisibleInRun(offsets, heights, start, end, a, b, i);
    }
    CountBound(hi - lo - 2 * adjacent - 3, if a < b then (b - a) as int - 2 else -2);
  }

  lemma VisibleInRun(offsets: seq<int>, heights: seq<int>, start: real, end: real, a: nat, b: nat, i: int)
    requires |offsets| == |heights| && b <= |offsets|
    requires forall i :: 0 <= i < |offsets| ==> ((offsets[i] + heights[i]) as real >= start <==> a <= i)
    requires forall i :: 0 <= i < |offsets| ==> (offsets[i] as real <= end <==> i < b)
    ensures i >= 0 && IsVisible(offsets, heights, start, end, i) <==> a <= i < b
  {
  }

  lemma CountBound(m: int, n: int)
    requires m <= n
    ensures (m * (MIN_HEIGHT + SPACING)) as real <= (n * (MIN_HEIGHT + SPACING)) as real
  {
  }
}
