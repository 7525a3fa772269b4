/**
  * The reference carousel: one index with wrap-around previous/next buttons, dots
  * that jump to an index, one visible image and a counter.
  */
module ReferenceCarousel {
  import CarouselState

  /** The index after the next button, over `count` images. */
  function NextOf(i: int, count: int): int {
    if i == count - 1 then 0 else i + 1
  }

  /** The index after the previous button, over `count` images. */
  function PreviousOf(i: int, count: int): int {
    if i == 0 then count - 1 else i - 1
  }

  /** Next then previous, or previous then next, returns to the same image, and neither leaves the carousel. */
  lemma NextPreviousRoundTrip(i: int, count: int)
    requires 0 <= i < count
    ensures 0 <= NextOf(i, count) < count && 0 <= PreviousOf(i, count) < count
    ensures PreviousOf(NextOf(i, count), count) == i
    ensures NextOf(PreviousOf(i, count), count) == i
  {
  }

  /** The buttons step exactly as the main carousel's `next` and `previous` do. */
  lemma AgreesWithCarousel(i: int, count: int)
    requires 0 <= i < count
    ensures NextOf(i, count) == CarouselState.NextIndex(i, count)
    ensures PreviousOf(i, count) == CarouselState.PreviousIndex(i, count)
  {
    if i < count - 1 {
      assert (i + 1) % count == i + 1;
    }
  }

  /** `count` presses of next come back to the start. */
  function NextTimes(i: int, count: int, k: nat): int {
    if k == 0 then i else NextOf(NextTimes(i, count, k - 1), count)
  }

  lemma {:induction false} NextTimesOffset(i: int, count: int, k: nat)
    requires 0 <= i < count && k <= count
    ensures NextTimes(i, count, k) == if i + k < count then i + k else i + k - count
  {
    if k > 0 {
      NextTimesOffset(i, count, k - 1);
    }
  }

  lemma FullCycle(i: int, count: int)
    requires 0 <= i < count
    ensures NextTimes(i, count, count) == i
  {
    NextTimesOffset(i, count, count);
  }

  /** The opacity of image `index`: 1 for the current image, 0 for every other. */
  function Opacity(index: int, current: int): (r: int)
    ensures r == 1 <==> index == current
    ensures r == 0 <==> index != current
  {
    if index == current then 1 else 0
  }

  /** Exactly one image is visible while the index is inside the carousel, and none outside it. */
  lemma OneVisible(current: int, count: nat)
    ensures 0 <= current < count ==> |set i | 0 <= i < count && Opacity(i, current) == 1| == 1
    ensures !(0 <= current < count) ==> |set i | 0 <= i < count && Opacity(i, current) == 1| == 0
  {
    var visible := set i | 0 <= i < count && Opacity(i, current) == 1;
    if 0 <= current < count {
      assert visible == {current};
    } else {
      assert visible == {};
    }
  }

  /** The counter "i / n": the one-based position and the number of images. */
  datatype Counter = Counter(position: int, total: int)

  class Carousel {
    const count: nat
    var currentIndex: int

    constructor (count: nat)
      ensures this.count == count && currentIndex == 0
    {
      this.count := count;
      currentIndex := 0;
    }

    method GoToPrevious()
      modifies this
      ensures currentIndex == PreviousOf(old(currentIndex), count)
    {
      currentIndex := if currentIndex == 0 then count - 1 else currentIndex - 1;
    }

    method GoToNext()
      modifies this
      ensures currentIndex == NextOf(old(currentIndex), count)
    {
      currentIndex := if currentIndex == count - 1 then 0 else currentIndex + 1;
    }

    /** No bounds check: the dots only ever pass indexes of the carousel. */
    method GoToSlide(index: int)
      modifies this
      ensures currentIndex == index
    {
      currentIndex := index;
    }

    function CounterText(): (c: Counter)
      reads this
      ensures c.total == count && c.position - 1 == currentIndex
    {
      Counter(currentIndex + 1, count)
    }
  }
}
