/**
  * The carousel's image preloader: a set of preloaded sources and a set of
  * sources in flight. Nothing loads before the first user interaction; after it,
  * every navigation requests the images next to the current one and drops the
  * preloaded images more than three positions away. Image loading finishes
  * through the explicit `LoadSucceeded` and `LoadFailed` steps. The `enabled`
  * prop is fixed for the lifetime of a preloader.
  */
module ImagePreloading {
  import opened Wrappers

  /** JavaScript's `%`: the remainder takes the sign of the dividend. */
  function JsRem(a: int, n: int): (r: int)
    requires n > 0
    ensures a >= 0 ==> 0 <= r < n
    ensures a < 0 ==> -n < r <= 0
  {
    if a >= 0 then a % n else -((-a) % n)
  }

  /** `images[k]?.src`: nothing for an index outside the list. */
  function SrcAt(images: seq<string>, k: int): Option<string> {
    if 0 <= k < |images| then Some(images[k]) else None
  }

  /** The source `offset` positions from `current`, wrapping as the hook computes it. */
  function Neighbour(images: seq<string>, current: int, offset: int): Option<string>
    requires |images| > 0
  {
    SrcAt(images, JsRem(current + offset + |images|, |images|))
  }

  function AsSet(o: Option<string>): set<string> {
    if o.Some? then {o.value} else {}
  }

  /** The sources at offsets `lo` up to but not including `hi`. */
  function Window(images: seq<string>, current: int, lo: int, hi: int): set<string>
    requires |images| > 0
    decreases hi - lo
  {
    if hi <= lo then {} else Window(images, current, lo, hi - 1) + AsSet(Neighbour(images, current, hi - 1))
  }

  /** A source is in the window exactly when some offset in it lands on that source. */
  lemma {:induction false} WindowSpec(images: seq<string>, current: int, lo: int, hi: int, s: string)
    requires |images| > 0
    ensures s in Window(images, current, lo, hi) <==>
      exists o :: lo <= o < hi && Neighbour(images, current, o) == Some(s)
    decreases hi - lo
  {
    if hi > lo {
      WindowSpec(images, current, lo, hi - 1, s);
      if Neighbour(images, current, hi - 1) == Some(s) {
        assert lo <= hi - 1 < hi;
      }
    }
  }

  /** Inside the carousel, the window really wraps: every offset from -n to n reaches an image. */
  lemma NeighbourInside(images: seq<string>, current: int, offset: int)
    requires 0 <= current < |images| && -|images| <= offset
    ensures Neighbour(images, current, offset) == Some(images[(current + offset + |images|) % |images|])
  {
  }

  /** The sources `unloadDistantImages` keeps: the current one and those within three positions. */
  function Kept(images: seq<string>, current: int): set<string>
    requires |images| > 0
  {
    Window(images, current, -3, 4) + AsSet(SrcAt(images, current))
  }

  /** The sources `preloadAdjacentImages` requests: the current one and its two neighbours, unless preloaded. */
  function Requested(images: seq<string>, current: int, preloaded: set<string>): set<string>
    requires |images| > 0
  {
    Window(images, current, -1, 2) - preloaded
  }

  /** The neighbours requested are always among those kept, so a preload is never undone by the clean-up. */
  lemma RequestedAreKept(images: seq<string>, current: int, preloaded: set<string>)
    requires |images| > 0
    ensures Requested(images, current, preloaded) <= Kept(images, current)
  {
    forall s | s in Requested(images, current, preloaded)
      ensures s in Window(images, current, -3, 4)
    {
      WindowSpec(images, current, -1, 2, s);
      WindowSpec(images, current, -3, 4, s);
    }
  }

  class Preloader {
    const enabled: bool
    var hasInteracted: bool
    /** The keys of the preloaded-image map. */
    var preloaded: set<string>
    var inFlight: set<string>
    /** Every source ever requested. */
    ghost var requested: set<string>

    /** Nothing is requested before the first interaction, and every loaded or loading source was requested. */
    ghost predicate Valid()
      reads this
    {
      (!hasInteracted ==> requested == {}) &&
      preloaded <= requested && inFlight <= requested &&
      (!enabled ==> !hasInteracted)
    }

    constructor (enabled: bool)
      ensures this.enabled == enabled && !hasInteracted && preloaded == {} && inFlight == {}
      ensures Valid()
    {
      this.enabled := enabled;
      hasInteracted := false;
      preloaded := {};
      inFlight := {};
      requested := {};
    }

    /** `preloadImage(src)`: a source already preloaded or in flight is not requested again. */
    method PreloadImage(src: string)
      requires Valid() && hasInteracted
      modifies this
      ensures Valid()
      ensures src in old(preloaded) || src in old(inFlight) ==> inFlight == old(inFlight)
      ensures src !in old(preloaded) && src !in old(inFlight) ==> inFlight == old(inFlight) + {src}
      ensures preloaded == old(preloaded) && hasInteracted == old(hasInteracted)
    {
      if src in preloaded || src in inFlight {
        return;
      }
      inFlight := inFlight + {src};
      requested := requested + {src};
    }

    /** The image loaded: its source moves from in flight to preloaded. */
    method LoadSucceeded(src: string)
      requires Valid() && src in requested
      modifies this
      ensures Valid()
      ensures preloaded == old(preloaded) + {src} && inFlight == old(inFlight) - {src}
      ensures hasInteracted == old(hasInteracted)
    {
      preloaded := preloaded + {src};
      inFlight := inFlight - {src};
    }

    /** The image failed: it only leaves the in-flight set. */
    method LoadFailed(src: string)
      requires Valid()
      modifies this
      ensures Valid()
      ensures preloaded == old(preloaded) && inFlight == old(inFlight) - {src}
      ensures hasInteracted == old(hasInteracted)
    {
      inFlight := inFlight - {src};
    }

    /** `unloadDistantImages()`: keeps only the current source and those within three positions. */
    method UnloadDistantImages(images: seq<string>, current: int)
      requires Valid() && |images| > 0
      modifies this
      ensures Valid()
      ensures preloaded == old(preloaded) * Kept(images, current)
      ensures inFlight == old(inFlight) && hasInteracted == old(hasInteracted)
    {
      var currentSrc := SrcAt(images, current);
      var adjacent: set<string> := {};
      var offset := -3;
      while offset <= 3
        invariant -3 <= offset <= 4
        invariant adjacent == Window(images, current, -3, offset)
      {
        var src := SrcAt(images, JsRem(current + offset + |images|, |images|));
        if src.Some? {
          adjacent := adjacent + {src.value};
        }
        offset := offset + 1;
      }
      preloaded := set s | s in preloaded && (Some(s) == currentSrc || s in adjacent);
    }

    /** `preloadAdjacentImages()` */
    method PreloadAdjacentImages(images: seq<string>, current: int)
      requires Valid() && hasInteracted
      modifies this
      ensures Valid()
      ensures !enabled || |images| == 0 ==> preloaded == old(preloaded) && inFlight == old(inFlight)
      ensures enabled && |images| > 0 ==>
        inFlight == old(inFlight) + Requested(images, current, old(preloaded)) &&
        preloaded == old(preloaded) * Kept(images, current)
      ensures hasInteracted
    {
      if !enabled || |images| == 0 {
        return;
      }
      var toPreload: seq<string> := [];
      var offset := -1;
      while offset <= 1
        invariant -1 <= offset <= 2
        invariant (set s | s in toPreload) == Window(images, current, -1, offset) - preloaded
      {
        var src := SrcAt(images, JsRem(current + offset + |images|, |images|));
        if src.Some? && src.value !in preloaded {
          assert (set s | s in toPreload + [src.value]) == (set s | s in toPreload) + {src.value};
          toPreload := toPreload + [src.value];
        }
        offset := offset + 1;
      }
      ghost var before := inFlight;
      var k := 0;
      while k < |toPreload|
        invariant 0 <= k <= |toPreload| && Valid() && hasInteracted
        invariant preloaded == old(preloaded)
        invariant inFlight == before + (set s | s in toPreload[..k])
      {
        assert toPreload[..k + 1] == toPreload[..k] + [toPreload[k]];
        PreloadImage(toPreload[k]);
        k := k + 1;
      }
      assert toPreload[..k] == toPreload;
      UnloadDistantImages(images, current);
    }

    /** `handleFirstInteraction()`: sets the flag once and starts preloading. */
    method HandleFirstInteraction(images: seq<string>, current: int)
      requires Valid()
      modifies this
      ensures Valid()
      ensures old(hasInteracted) || !enabled ==>
        hasInteracted == old(hasInteracted) && preloaded == old(preloaded) && inFlight == old(inFlight)
      ensures !old(hasInteracted) && enabled ==> hasInteracted
      ensures !old(hasInteracted) && enabled && |images| == 0 ==> preloaded == old(preloaded) && inFlight == old(inFlight)
      ensures !old(hasInteracted) && enabled && |images| > 0 ==>
        inFlight == old(inFlight) + Requested(images, current, old(preloaded)) &&
        preloaded == old(preloaded) * Kept(images, current)
    {
      if hasInteracted || !enabled {
        return;
      }
      hasInteracted := true;
      PreloadAdjacentImages(images, current);
    }

    /** The navigation effect: preloads around the new index, but only after the first interaction. */
    method Navigated(images: seq<string>, current: int)
      requires Valid()
      modifies this
      ensures Valid()
      ensures !old(hasInteracted) ==> preloaded == {} && inFlight == {} && !hasInteracted
      ensures hasInteracted == old(hasInteracted)
      ensures old(hasInteracted) && |images| == 0 ==> preloaded == old(preloaded) && inFlight == old(inFlight)
      ensures old(hasInteracted) && |images| > 0 ==>
        inFlight == old(inFlight) + Requested(images, current, old(preloaded)) &&
        preloaded == old(preloaded) * Kept(images, current)
    {
      if hasInteracted && enabled {
        PreloadAdjacentImages(images, current);
      }
    }

    /** Unmounting clears both sets. */
    method Unmount()
      requires Valid()
      modifies this
      ensures Valid()
      ensures preloaded == {} && inFlight == {} && hasInteracted == old(hasInteracted)
    {
      preloaded := {};
      inFlight := {};
    }

    /** `preloadedCount` */
    function PreloadedCount(): (n: nat)
      reads this
      ensures n == 0 <==> preloaded == {}
    {
      |preloaded|
    }
  }
}
