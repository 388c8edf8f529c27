/** The home page's "Our Services" carousel: how many cards fit the window,
    the largest start index, and the previous/next/dot transitions. */
module Carousel {

  /** `servicesList`, by name (the icons are presentation). */
  const Services: seq<string> := ["Cash In", "Cash Out", "Send Money", "Track Wallet", "Track History", "Be a Agent"]

  /** The resize handler's choice of cards per view for a window width. */
  function ItemsPerView(width: int): (r: int)
    ensures 1 <= r <= 3
    ensures r == 1 <==> width < 640
    ensures r == 3 <==> width >= 1024
  {
    if width < 640 then 1 else if width < 1024 then 2 else 3
  }

  /** `maxIndex = Math.max(0, count - itemsPerView)`. */
  function MaxIndex(count: nat, itemsPerView: int): (r: nat)
    ensures r >= count - itemsPerView
    ensures r == 0 || r == count - itemsPerView
  {
    if count - itemsPerView > 0 then count - itemsPerView else 0
  }

  /** `handlePrevious`. */
  function Previous(index: int): (r: int)
    ensures r >= 0
    ensures r >= index - 1 && (r <= index || index < 0)
    ensures index > 0 ==> r == index - 1
  {
    if index - 1 > 0 then index - 1 else 0
  }

  /** `handleNext`. */
  function Next(index: int, maxIndex: nat): (r: int)
    ensures r <= maxIndex
    ensures r <= index + 1
    ensures index < maxIndex ==> r == index + 1
    ensures index >= maxIndex ==> r == maxIndex
  {
    if maxIndex < index + 1 then maxIndex else index + 1
  }

  /** `goToSlide`. */
  function GoToSlide(index: int, maxIndex: nat): (r: int)
    ensures r <= maxIndex
    ensures index <= maxIndex ==> r == index
    ensures index > maxIndex ==> r == maxIndex
  {
    if index < maxIndex then index else maxIndex
  }

  /** The carousel's state. */
  datatype CarouselState = CarouselState(currentIndex: int, itemsPerView: int)

  /** Before the first resize runs, the page shows three cards from the start. */
  const InitialCarousel := CarouselState(0, 3)

  /** The index is a valid start position for the current view. */
  predicate Valid(st: CarouselState)
  {
    0 <= st.currentIndex <= MaxIndex(|Services|, st.itemsPerView)
  }

  /** A click on "Previous", "Next" or a dot. */
  datatype Click = PreviousClick | NextClick | DotClick(dot: nat)

  function Step(st: CarouselState, c: Click): CarouselState
  {
    var m := MaxIndex(|Services|, st.itemsPerView);
    match c
    case PreviousClick => st.(currentIndex := Previous(st.currentIndex))
    case NextClick => st.(currentIndex := Next(st.currentIndex, m))
    case DotClick(d) => st.(currentIndex := GoToSlide(d, m))
  }

  /** With the view size fixed, every click keeps 0 <= currentIndex <= maxIndex. */
  lemma ClicksPreserveValid(st: CarouselState, c: Click)
    requires Valid(st)
    ensures Valid(Step(st, c))
    ensures Step(st, c).itemsPerView == st.itemsPerView
  {
  }

  /** "Previous" is disabled exactly at index 0. */
  predicate PreviousDisabled(st: CarouselState)
  {
    st.currentIndex == 0
  }

  /** "Next" is disabled once the index reaches `maxIndex`. */
  predicate NextDisabled(st: CarouselState)
  {
    st.currentIndex >= MaxIndex(|Services|, st.itemsPerView)
  }

  /** The dot indicator: one dot per start position, the current one highlighted. */
  function Dots(st: CarouselState): (ds: seq<bool>)
    ensures |ds| == MaxIndex(|Services|, st.itemsPerView) + 1
    ensures forall i :: 0 <= i < |ds| ==> (ds[i] <==> i == st.currentIndex)
  {
    seq(MaxIndex(|Services|, st.itemsPerView) + 1, i => i == st.currentIndex)
  }

  /** In a valid state an enabled button moves the index by exactly one, and
      exactly one dot is highlighted. */
  lemma EnabledButtonsMoveByOne(st: CarouselState)
    requires Valid(st)
    ensures !PreviousDisabled(st) ==> Step(st, PreviousClick).currentIndex == st.currentIndex - 1
    ensures !NextDisabled(st) ==> Step(st, NextClick).currentIndex == st.currentIndex + 1
    ensures NextDisabled(st) ==> Step(st, NextClick) == st
    ensures st.currentIndex < |Dots(st)| && Dots(st)[st.currentIndex]
  {
  }

  /** For the six services: five, four or three start positions beyond the
      first, by window width. */
  lemma ServicesMaxIndex(width: int)
    ensures width < 640 ==> MaxIndex(|Services|, ItemsPerView(width)) == 5
    ensures 640 <= width < 1024 ==> MaxIndex(|Services|, ItemsPerView(width)) == 4
    ensures width >= 1024 ==> MaxIndex(|Services|, ItemsPerView(width)) == 3
  {
  }

  // ---------------------------------------------------------------------
  // Resizing

  /** The resize handler as written: it sets `itemsPerView` and leaves the index alone. */
  function Resize(st: CarouselState, width: int): (r: CarouselState)
    ensures r.currentIndex == st.currentIndex
    ensures r.itemsPerView == ItemsPerView(width)
  {
    st.(itemsPerView := ItemsPerView(width))
  }

  /** Widening the window after moving to the last narrow slide leaves the
      index beyond `maxIndex`: only one of three card slots is filled, "Next"
      is disabled, and "Previous" stays past `maxIndex`. */
  lemma ResizeBreaksValid()
    ensures var st := Step(Resize(InitialCarousel, 500), DotClick(5));
            var wide := Resize(st, 1200);
            && Valid(st)
            && !Valid(wide)
            && wide.currentIndex == 5
            && MaxIndex(|Services|, wide.itemsPerView) == 3
            && |Services[wide.currentIndex..]| < wide.itemsPerView
            && NextDisabled(wide)
            && Step(wide, PreviousClick).currentIndex > MaxIndex(|Services|, wide.itemsPerView)
  {
  }

  /** A resize that also re-clamps the index, as `goToSlide` does. */
  function ResizeClamped(st: CarouselState, width: int): (r: CarouselState)
    ensures r.itemsPerView == ItemsPerView(width)
    ensures st.currentIndex <= MaxIndex(|Services|, r.itemsPerView) ==> r.currentIndex == st.currentIndex
    ensures st.currentIndex > MaxIndex(|Services|, r.itemsPerView) ==> r.currentIndex == MaxIndex(|Services|, r.itemsPerView)
  {
    var ipv := ItemsPerView(width);
    CarouselState(GoToSlide(st.currentIndex, MaxIndex(|Services|, ipv)), ipv)
  }

  /** With the clamping resize, the validity invariant survives any mix of
      clicks and resizes, and every card slot of the view is filled. */
  lemma ClampedResizePreservesValid(st: CarouselState, width: int)
    requires Valid(st)
    ensures Valid(ResizeClamped(st, width))
    ensures var r := ResizeClamped(st, width);
            |Services[r.currentIndex..]| >= r.itemsPerView
  {
  }
}
