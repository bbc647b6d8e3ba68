/** The home hero carousel: a list of slides shown twice in a row, an
    interval tick that advances a ring counter over the doubled list, and the
    active slide that drives the background and the caption. */
module HeroSection {
  import opened Common

  datatype Slide = Slide(image: Option<string>, title: string, desc: string)

  /** What the background shows. */
  datatype Background = SlideImage(source: string) | DefaultHero

  /** A scroll of the slide list to a horizontal offset. */
  datatype ScrollCommand = ScrollCommand(offset: real, animated: bool)

  /** Right margin between slides, in points. */
  const SlideGap: real := 16.0

  /** `[...heroSlider, ...heroSlider]`: position i shows slide i mod n. */
  function Cloned(slides: seq<Slide>): (r: seq<Slide>)
    ensures |r| == 2 * |slides|
    ensures forall i :: 0 <= i < |r| ==> r[i] == slides[i % |slides|]
  {
    var r := slides + slides;
    assert forall i :: |slides| <= i < |r| ==> i % |slides| == i - |slides| by {
      forall i | |slides| <= i < |r| ensures i % |slides| == i - |slides| {
        ModOfSecondCopy(i, |slides|);
      }
    }
    r
  }

  lemma ModOfSecondCopy(i: int, n: int)
    requires n <= i < 2 * n
    ensures i % n == i - n
  {
    assert i == 1 * n + (i - n);
  }

  /** One tick of the ring counter over the doubled list of n slides. */
  function TickIndex(i: int, n: nat): (j: int)
    ensures 0 <= i < 2 * n ==> 0 <= j < 2 * n
    ensures j == 0 || j == i + 1
  {
    if i + 1 >= 2 * n then 0 else i + 1
  }

  /** On [0, 2n) the tick is the successor modulo the doubled length. */
  lemma TickIndexIsSuccessorMod(i: int, n: nat)
    requires 0 <= i < 2 * n
    ensures TickIndex(i, n) == (i + 1) % (2 * n)
  {
    if i + 1 == 2 * n {
      ModSelf(2 * n);
    } else {
      ModBelow(i + 1, 2 * n);
    }
  }

  lemma ModSelf(d: int)
    requires d > 0
    ensures d % d == 0
  {
  }

  lemma ModBelow(x: int, d: int)
    requires 0 <= x < d
    ensures x % d == x
  {
  }

  /** The counter after k ticks. */
  function Ticks(i: int, n: nat, k: nat): int
  {
    if k == 0 then i else TickIndex(Ticks(i, n, k - 1), n)
  }

  /** Until the end of the doubled list each tick adds one. */
  lemma {:induction false} TicksBeforeWrap(i: int, n: nat, k: nat)
    requires 0 <= i && i + k < 2 * n
    ensures Ticks(i, n, k) == i + k
  {
    if k > 0 {
      TicksBeforeWrap(i, n, k - 1);
    }
  }

  /** a + b ticks are a ticks followed by b ticks. */
  lemma {:induction false} TicksCompose(i: int, n: nat, a: nat, b: nat)
    ensures Ticks(i, n, a + b) == Ticks(Ticks(i, n, a), n, b)
  {
    if b > 0 {
      TicksCompose(i, n, a, b - 1);
    }
  }

  /** After 2n ticks the counter is back where it started. */
  lemma FullCycleReturns(i: int, n: nat)
    requires 0 <= i < 2 * n
    ensures Ticks(i, n, 2 * n) == i
  {
    var toEnd: nat := 2 * n - i;
    TicksBeforeWrap(i, n, toEnd - 1);
    assert Ticks(i, n, toEnd) == 0;
    TicksCompose(i, n, toEnd, i);
    TicksBeforeWrap(0, n, i);
  }

  /** `scrollIndex % heroSlider.length`; with no slides JavaScript gives NaN, here None. */
  function ActiveIndex(scrollIndex: int, n: nat): (a: Option<int>)
    ensures n == 0 <==> a.None?
    ensures n > 0 && scrollIndex >= 0 ==> 0 <= a.value < n
  {
    if n == 0 then None else Some(scrollIndex % n)
  }

  /** `index !== clonedSlider.length - 1 && {marginRight: 16}`. */
  function SlideMargin(index: int, count: nat): (m: real)
    ensures index != count - 1 ==> m == SlideGap
    ensures index == count - 1 ==> m == 0.0
  {
    if index != count - 1 then SlideGap else 0.0
  }

  /** Left edge of slide k in a row of `count` slides of width `itemWidth`. */
  function SlideStart(k: nat, itemWidth: real, count: nat): (x: real)
    ensures itemWidth >= 0.0 ==> x >= 0.0
    ensures itemWidth >= 0.0 && k > 0 ==> x >= itemWidth
  {
    if k == 0 then 0.0 else SlideStart(k - 1, itemWidth, count) + itemWidth + SlideMargin(k - 1, count)
  }

  /** Before the last slide every step is one width plus one gap, so the
      tick's offset `k * (itemWidth + 16)` is exactly slide k's left edge. */
  lemma {:induction false} SlideStartIsStep(k: nat, itemWidth: real, count: nat)
    requires k < count
    ensures SlideStart(k, itemWidth, count) == k as real * (itemWidth + SlideGap)
  {
    if k > 0 {
      SlideStartIsStep(k - 1, itemWidth, count);
      assert (k - 1) as real * (itemWidth + SlideGap) + (itemWidth + SlideGap) == k as real * (itemWidth + SlideGap);
    }
  }

  /** `heroSlider[activeIndex]?.image || hero.png`. */
  function BackgroundFor(slides: seq<Slide>, activeIndex: Option<int>): (b: Background)
    ensures b.SlideImage? <==> activeIndex.Some? && 0 <= activeIndex.value < |slides| &&
                               slides[activeIndex.value].image.Some? && slides[activeIndex.value].image.value != ""
    ensures b.SlideImage? ==> b.source == slides[activeIndex.value].image.value
  {
    if activeIndex.Some? && 0 <= activeIndex.value < |slides| then
      match slides[activeIndex.value].image
      case Some(img) => if img != "" then SlideImage(img) else DefaultHero
      case None => DefaultHero
    else DefaultHero
  }

  /** The tick's scroll offset for counter value k: `k * (itemWidth + 16)`. */
  function TickOffset(k: int, itemWidth: real): real
  {
    k as real * (itemWidth + SlideGap)
  }

  /** A counter value in [0, 2n) names a position whose left edge is the
      tick's offset and which shows the active slide. */
  lemma TickLands(slides: seq<Slide>, itemWidth: real, i: int)
    requires 0 <= i < 2 * |slides|
    ensures SlideStart(i, itemWidth, 2 * |slides|) == TickOffset(i, itemWidth)
    ensures Cloned(slides)[i] == slides[ActiveIndex(i, |slides|).value]
  {
    SlideStartIsStep(i, itemWidth, 2 * |slides|);
    var cloned := Cloned(slides);
    assert cloned[i] == slides[i % |slides|];
  }

  class HeroCarousel {
    const slides: seq<Slide>
    const itemWidth: real
    var scrollIndex: int
    var activeIndex: Option<int>
    /** The last scroll the tick asked the list for. */
    var lastScroll: Option<ScrollCommand>

    ghost predicate Valid()
      reads this
    {
      0 <= scrollIndex && (scrollIndex < 2 * |slides| || scrollIndex == 0) &&
      (|slides| > 0 ==> activeIndex == ActiveIndex(scrollIndex, |slides|))
    }

    constructor (slides: seq<Slide>, screenWidth: real)
      ensures Valid()
      ensures this.slides == slides && itemWidth == screenWidth / 5.75
      ensures scrollIndex == 0 && activeIndex == Some(0) && lastScroll.None?
    {
      this.slides := slides;
      itemWidth := screenWidth / 5.75;
      scrollIndex := 0;
      activeIndex := Some(0);
      lastScroll := None;
    }

    /** One firing of the 3-second interval. */
    method Tick()
      requires Valid()
      modifies this`scrollIndex, this`activeIndex, this`lastScroll
      ensures Valid()
      ensures scrollIndex == TickIndex(old(scrollIndex), |slides|)
      ensures activeIndex == ActiveIndex(scrollIndex, |slides|)
      ensures lastScroll == Some(if scrollIndex == 0 then ScrollCommand(0.0, false)
                                 else ScrollCommand(TickOffset(scrollIndex, itemWidth), true))
      ensures lastScroll.value.offset == SlideStart(scrollIndex, itemWidth, 2 * |slides|) || |slides| == 0
      ensures |slides| > 0 ==> Cloned(slides)[scrollIndex] == slides[activeIndex.value]
    {
      var next := scrollIndex + 1;
      // `clonedSlider.length` is twice the number of slides
      if next >= 2 * |slides| {
        next := 0;
      }
      scrollIndex := next;
      activeIndex := ActiveIndex(next, |slides|);
      lastScroll := Some(if next == 0 then ScrollCommand(0.0, false)
                         else ScrollCommand(TickOffset(next, itemWidth), true));
      if |slides| > 0 {
        assert lastScroll.value.offset == SlideStart(next, itemWidth, 2 * |slides|) by {
          TickLands(slides, itemWidth, next);
        }
        assert Cloned(slides)[next] == slides[activeIndex.value] by {
          TickLands(slides, itemWidth, next);
        }
      }
    }

    function Background(): (b: Background)
      reads this
      requires Valid()
      ensures |slides| > 0 && slides[activeIndex.value].image.Some? && slides[activeIndex.value].image.value != "" ==>
                b == SlideImage(slides[activeIndex.value].image.value)
      ensures |slides| > 0 && (slides[activeIndex.value].image.None? || slides[activeIndex.value].image.value == "") ==>
                b == DefaultHero
      ensures |slides| == 0 ==> b == DefaultHero
    {
      BackgroundFor(slides, activeIndex)
    }
  }
}
