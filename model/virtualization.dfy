/**
  * The carousel list's virtualization window `[start, end)`: it starts with the
  * first few carousels, grows by an increment each time the sentinel below the
  * list comes into view, and is recentred when the carousels near the viewport
  * span more than `maxActive`. The observer and the scroll listener become the
  * step methods `SentinelSeen` and `Scrolled`; the page geometry becomes the list
  * of which rendered carousels are near the viewport.
  */
module Virtualization {
  import opened Wrappers

  datatype Options = Options(initialLoad: nat, loadIncrement: nat, maxActive: nat)

  /** Omitted options take 4, 4 and 10. */
  function WithDefaults(initialLoad: Option<nat>, loadIncrement: Option<nat>, maxActive: Option<nat>): (o: Options)
    ensures initialLoad.None? ==> o.initialLoad == 4
    ensures loadIncrement.None? ==> o.loadIncrement == 4
    ensures maxActive.None? ==> o.maxActive == 10
    ensures initialLoad.Some? ==> o.initialLoad == initialLoad.value
  {
    Options(initialLoad.GetOr(4), loadIncrement.GetOr(4), maxActive.GetOr(10))
  }

  function Min(a: int, b: int): int { if a <= b then a else b }
  function Max(a: int, b: int): int { if a >= b then a else b }

  datatype Window = Window(start: int, end: int)

  /** The window centred on `midpoint` with `maxActive / 2` carousels on each side, clipped to the list. */
  function Centred(midpoint: int, maxActive: nat, total: nat): Window {
    Window(Max(0, midpoint - maxActive / 2), Min(total, midpoint + maxActive / 2))
  }

  /** A recentred window is inside the list and holds at most `maxActive` carousels. */
  lemma CentredBounds(midpoint: int, maxActive: nat, total: nat)
    ensures var w := Centred(midpoint, maxActive, total);
      0 <= w.start && w.end <= total && w.end - w.start <= maxActive
  {
  }

  // ---------------------------------------------------------------------------
  // The carousels near the viewport

  /** The lowest and highest index among the near carousels. */
  datatype Span = Span(first: int, last: int)

  function Extend(sp: Option<Span>, isNear: bool, index: int): Option<Span> {
    if !isNear then sp
    else if sp.None? then Some(Span(index, index))
    else Some(Span(Min(sp.value.first, index), Max(sp.value.last, index)))
  }

  /** The span of the near carousels, the first rendered one having index `start`. */
  function SpanOf(near: seq<bool>, start: int): Option<Span>
  {
    if near == [] then None
    else Extend(SpanOf(near[..|near| - 1], start), near[|near| - 1], start + |near| - 1)
  }

  /** The span is empty exactly when no carousel is near, and otherwise runs from the lowest near index to the highest. */
  lemma {:induction false} SpanOfSpec(near: seq<bool>, start: int)
    ensures SpanOf(near, start).None? <==> forall i :: 0 <= i < |near| ==> !near[i]
    ensures SpanOf(near, start).Some? ==>
      var sp := SpanOf(near, start).value;
      0 <= sp.first - start < |near| && near[sp.first - start] &&
      0 <= sp.last - start < |near| && near[sp.last - start] &&
      forall i :: 0 <= i < |near| && near[i] ==> sp.first <= start + i <= sp.last
  {
    if near != [] {
      var front := near[..|near| - 1];
      SpanOfSpec(front, start);
      assert forall i :: 0 <= i < |front| ==> front[i] == near[i];
    }
  }

  /** The window after a scroll: recentred on the near span when that span is wider than `maxActive`. */
  function Recentred(w: Window, sp: Option<Span>, maxActive: nat, total: nat): Window {
    if sp.Some? && sp.value.last - sp.value.first + 1 > maxActive
    then Centred((sp.value.first + sp.value.last) / 2, maxActive, total)
    else w
  }

  /** A recentred window keeps only carousels near the viewport: it lies within the near span. */
  lemma RecentredNearViewport(w: Window, sp: Span, maxActive: nat, total: nat)
    requires sp.last - sp.first + 1 > maxActive && sp.first >= 0
    ensures var r := Recentred(w, Some(sp), maxActive, total);
      sp.first <= r.start && r.end <= sp.last + 1 && r.end - r.start <= maxActive
  {
    var mid := (sp.first + sp.last) / 2;
    assert mid - sp.first >= maxActive / 2;
    assert mid + maxActive / 2 <= sp.last;
  }

  // ---------------------------------------------------------------------------
  // As written: `firstVisible` starts at 0 and `lastVisible` at `visibleRange.end`,
  // and the indices are positions among the rendered carousels.

  /** The highest position of a near carousel, or `end` when that is higher. */
  function LastVisibleAsWritten(near: seq<bool>, end: int): int {
    if near == [] then end
    else if near[|near| - 1] then Max(LastVisibleAsWritten(near[..|near| - 1], end), |near| - 1)
    else LastVisibleAsWritten(near[..|near| - 1], end)
  }

  function RecentredAsWritten(w: Window, near: seq<bool>, maxActive: nat, total: nat): Window {
    var first := 0;
    var last := LastVisibleAsWritten(near, w.end);
    if last - first + 1 > maxActive then Centred((first + last) / 2, maxActive, total) else w
  }

  /**
    * With twelve carousels rendered and only the last near the viewport, the
    * window is recentred on position 6 and the carousel in view is unloaded; the
    * corrected window keeps it.
    */
  lemma VisibleCarouselUnloaded(near: seq<bool>)
    requires |near| == 12 && near[11] && forall i :: 0 <= i < 11 ==> !near[i]
    ensures RecentredAsWritten(Window(0, 12), near, 10, 20) == Window(1, 11)
    ensures Recentred(Window(0, 12), SpanOf(near, 0), 10, 20) == Window(0, 12)
  {
    assert LastVisibleAsWritten(near, 12) == 12 by {
      LastVisibleBound(near, 12);
    }
    SpanOfSpec(near, 0);
  }

  lemma {:induction false} LastVisibleBound(near: seq<bool>, end: int)
    requires |near| <= end
    ensures LastVisibleAsWritten(near, end) == end
  {
    if near != [] {
      LastVisibleBound(near[..|near| - 1], end);
    }
  }

  // ---------------------------------------------------------------------------
  // The hook

  class Virtualizer {
    const total: nat
    const opts: Options
    var range: Window

    ghost predicate Valid()
      reads this
    {
      0 <= range.start && range.end <= total
    }

    /** The initial range is `[0, min(initialLoad, total))`. */
    constructor (total: nat, opts: Options)
      ensures this.total == total && this.opts == opts
      ensures range == Window(0, Min(opts.initialLoad, total)) && Valid()
    {
      this.total := total;
      this.opts := opts;
      range := Window(0, Min(opts.initialLoad, total));
    }

    /** The sentinel came into view: load `loadIncrement` more, up to the end of the list. */
    method SentinelSeen()
      requires Valid()
      modifies this
      ensures Valid()
      ensures old(range).end < total ==> range == old(range).(end := Min(old(range).end + opts.loadIncrement, total))
      ensures old(range).end >= total ==> range == old(range)
    {
      if range.end < total {
        range := range.(end := Min(range.end + opts.loadIncrement, total));
      }
    }

    /** A throttled scroll: `near[i]` says whether the `i`-th rendered carousel is near the viewport. */
    method Scrolled(near: seq<bool>)
      requires Valid() && |near| == range.end - range.start
      modifies this
      ensures Valid()
      ensures range == Recentred(old(range), SpanOf(near, old(range).start), opts.maxActive, total)
    {
      var sp: Option<Span> := None;
      var i := 0;
      while i < |near|
        invariant 0 <= i <= |near|
        invariant sp == SpanOf(near[..i], range.start)
      {
        assert near[..i + 1][..i] == near[..i];
        if near[i] {
          var index := range.start + i;
          if sp.None? {
            sp := Some(Span(index, index));
          } else {
            sp := Some(Span(Min(sp.value.first, index), Max(sp.value.last, index)));
          }
        }
        i := i + 1;
      }
      assert near[..i] == near;
      if sp.Some? && sp.value.last - sp.value.first + 1 > opts.maxActive {
        var midpoint := (sp.value.first + sp.value.last) / 2;
        var halfWindow := opts.maxActive / 2;
        range := Window(Max(0, midpoint - halfWindow), Min(total, midpoint + halfWindow));
      }
    }
  }
}
