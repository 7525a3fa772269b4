/**
  * The older midground projection provider: a map of projections keyed by
  * carousel id that each carousel's hook registers, updates and unregisters,
  * and a layer that draws them farthest first. It shares the fade arithmetic
  * of the projection manager.
  */
module MidgroundProjection {
  import opened Wrappers
  import opened OrderedDict
  import opened StableSort
  import PM = ProjectionManager

  /** `CarouselProjection` of this provider: no offsets and no per-carousel settings. */
  datatype Projection = Projection(
    id: string,
    imageUrl: string,
    position: PM.Rect,
    opacity: Option<real>,
    blur: Option<real>,
    scaleX: real,
    scaleY: real,
    distanceFromCenter: real)

  /** `Partial<CarouselProjection>`; `None` is a key that is absent. */
  datatype PartialProjection = PartialProjection(
    id: Option<string>,
    imageUrl: Option<string>,
    position: Option<PM.Rect>,
    opacity: Option<Option<real>>,
    blur: Option<Option<real>>,
    scaleX: Option<real>,
    scaleY: Option<real>,
    distanceFromCenter: Option<real>)

  /** `{ ...existing, ...updates }` */
  function Patched(p: Projection, u: PartialProjection): Projection {
    Projection(
      u.id.GetOr(p.id), u.imageUrl.GetOr(p.imageUrl), u.position.GetOr(p.position),
      u.opacity.GetOr(p.opacity), u.blur.GetOr(p.blur), u.scaleX.GetOr(p.scaleX),
      u.scaleY.GetOr(p.scaleY), u.distanceFromCenter.GetOr(p.distanceFromCenter))
  }

  /** The whole projection as an update: what the hook passes on every tick. */
  function Whole(p: Projection): PartialProjection {
    PartialProjection(
      Some(p.id), Some(p.imageUrl), Some(p.position), Some(p.opacity), Some(p.blur),
      Some(p.scaleX), Some(p.scaleY), Some(p.distanceFromCenter))
  }

  /** An update with every key replaces the projection, and one with none keeps it. */
  lemma PatchedSpec(p: Projection, q: Projection)
    ensures Patched(p, Whole(q)) == q
    ensures Patched(p, PartialProjection(None, None, None, None, None, None, None, None)) == p
  {
  }

  /** The hook's global inputs: fade distance, maximum blur and the two scales. */
  datatype Globals = Globals(fadeDistance: real, maxBlur: real, scaleX: real, scaleY: real)

  const DefaultGlobals: Globals := Globals(0.5, 4.0, 1.2, 1.2)

  /**
    * `calculateProjection()` of `useCarouselProjection`: nothing without an
    * element or an image; `rect` is the element's rectangle.
    */
  function Calculate(carouselId: string, imageUrl: Option<string>, rect: Option<PM.Rect>, view: PM.Viewport, g: Globals)
    : (r: Option<Projection>)
    ensures r.None? <==> rect.None? || imageUrl.None? || imageUrl.value == ""
    ensures r.Some? ==> r.value.id == carouselId && r.value.scaleX == g.scaleX && r.value.scaleY == g.scaleY
    ensures r.Some? && !PM.InViewport(rect.value, view) ==> r.value.opacity == Some(0.0)
  {
    if rect.None? || imageUrl.None? || imageUrl.value == "" then None
    else
      var distance := PM.DistanceFromCenter(rect.value, view);
      var n := PM.Normalized(distance, view.height * g.fadeDistance);
      Some(Projection(
        carouselId, imageUrl.value, rect.value,
        if PM.InViewport(rect.value, view) then PM.Opacity(n) else Some(0.0),
        PM.Blur(n, g.maxBlur), g.scaleX, g.scaleY, distance))
  }

  /** With a positive fade distance and viewport height, opacity lies in [0, 1] and blur in [0, maxBlur]. */
  lemma CalculateBounds(carouselId: string, imageUrl: Option<string>, rect: Option<PM.Rect>, view: PM.Viewport, g: Globals)
    requires Calculate(carouselId, imageUrl, rect, view, g).Some?
    requires g.fadeDistance > 0.0 && view.height > 0.0 && g.maxBlur >= 0.0
    ensures var p := Calculate(carouselId, imageUrl, rect, view, g).value;
      p.opacity.Some? && 0.0 <= p.opacity.value <= 1.0 &&
      p.blur.Some? && 0.0 <= p.blur.value <= g.maxBlur
  {
    PM.MulPos(view.height, g.fadeDistance);
    PM.FadeBounds(PM.DistanceFromCenter(rect.value, view), view.height * g.fadeDistance, g.maxBlur);
  }

  // ---------------------------------------------------------------------------
  // The layer's drawing order

  /** `Array.from(projections.values())`: in insertion order. */
  function ValuesInOrder(d: ODict<string, Projection>, keys: seq<string>): (r: seq<Projection>)
    requires forall k :: k in keys ==> k in d.vals
    ensures |r| == |keys|
    ensures forall i :: 0 <= i < |keys| ==> r[i] == d.vals[keys[i]]
  {
    if keys == [] then []
    else ValuesInOrder(d, keys[..|keys| - 1]) + [d.vals[keys[|keys| - 1]]]
  }

  /** `(a, b) => b.distanceFromCenter - a.distanceFromCenter` as an order. */
  function Farther(a: Projection, b: Projection): bool { a.distanceFromCenter >= b.distanceFromCenter }

  lemma FartherPreorder()
    ensures TotalPreorder(Farther)
  {
  }

  /** `[...projectionsArray].sort((a, b) => b.distanceFromCenter - a.distanceFromCenter)` */
  function DrawOrder(d: ODict<string, Projection>): seq<Projection>
    requires d.Valid()
  {
    SortBy(ValuesInOrder(d, d.keys), Farther)
  }

  /** Every projection is drawn once, farthest first, so the closest is drawn on top. */
  lemma DrawOrderSpec(d: ODict<string, Projection>)
    requires d.Valid()
    ensures multiset(DrawOrder(d)) == multiset(ValuesInOrder(d, d.keys))
    ensures forall i, j :: 0 <= i < j < |DrawOrder(d)| ==>
      DrawOrder(d)[i].distanceFromCenter >= DrawOrder(d)[j].distanceFromCenter
  {
    FartherPreorder();
    SortByPermutes(ValuesInOrder(d, d.keys), Farther);
    SortByOrdered(ValuesInOrder(d, d.keys), Farther);
  }

  // ---------------------------------------------------------------------------
  // The provider

  class Provider {
    var projections: ODict<string, Projection>
    var globals: Globals

    ghost predicate Valid()
      reads this
    {
      projections.Valid()
    }

    constructor ()
      ensures Valid() && projections.keys == [] && globals == DefaultGlobals
    {
      projections := Empty();
      globals := DefaultGlobals;
    }

    /** `registerProjection(projection)`: inserts or replaces the entry for its id. */
    method RegisterProjection(p: Projection)
      requires Valid()
      modifies this
      ensures Valid()
      ensures projections == Put(old(projections), p.id, p) && globals == old(globals)
    {
      projections := Put(projections, p.id, p);
    }

    /** `unregisterProjection(id)` */
    method UnregisterProjection(id: string)
      requires Valid()
      modifies this
      ensures Valid()
      ensures projections == Remove(old(projections), id) && globals == old(globals)
    {
      projections := Remove(projections, id);
    }

    /** `updateProjection(id, updates)`: merges into an existing entry; an unknown id changes nothing. */
    method UpdateProjection(id: string, u: PartialProjection)
      requires Valid()
      modifies this
      ensures Valid()
      ensures id !in old(projections).vals ==> projections == old(projections)
      ensures id in old(projections).vals ==>
        projections == Put(old(projections), id, Patched(old(projections).vals[id], u))
      ensures globals == old(globals)
    {
      if id in projections.vals {
        projections := Put(projections, id, Patched(projections.vals[id], u));
      }
    }

    /**
      * The hook's effect when it runs: a disabled carousel or one without an
      * image is unregistered; otherwise its first projection is registered.
      * A re-run is `RerunTracking`, the cleanup followed by this.
      */
    method TrackCarousel(carouselId: string, imageUrl: Option<string>, enabled: bool, rect: Option<PM.Rect>, view: PM.Viewport)
      requires Valid()
      modifies this
      ensures Valid() && globals == old(globals)
      ensures !enabled || imageUrl.None? || imageUrl.value == "" ==> projections == Remove(old(projections), carouselId)
      ensures enabled && imageUrl.Some? && imageUrl.value != "" && rect.None? ==> projections == old(projections)
      ensures enabled && imageUrl.Some? && imageUrl.value != "" && rect.Some? ==>
        projections == Put(old(projections), carouselId, Calculate(carouselId, imageUrl, rect, view, old(globals)).value)
    {
      if !enabled || imageUrl.None? || imageUrl.value == "" {
        UnregisterProjection(carouselId);
        return;
      }
      var p := Calculate(carouselId, imageUrl, rect, view, globals);
      if p.Some? {
        RegisterProjection(p.value);
      }
    }

    /**
      * The effect re-running after a dependency changed: the previous run's
      * cleanup unregisters the carousel, then the effect runs again, so an
      * entry without an element is gone and a re-registered one moves last.
      */
    method RerunTracking(carouselId: string, imageUrl: Option<string>, enabled: bool, rect: Option<PM.Rect>, view: PM.Viewport)
      requires Valid()
      modifies this
      ensures Valid() && globals == old(globals)
      ensures !(enabled && imageUrl.Some? && imageUrl.value != "" && rect.Some?) ==>
        projections == Remove(old(projections), carouselId)
      ensures enabled && imageUrl.Some? && imageUrl.value != "" && rect.Some? ==>
        projections == Put(Remove(old(projections), carouselId), carouselId, Calculate(carouselId, imageUrl, rect, view, old(globals)).value)
    {
      RemoveTwice(projections, carouselId);
      UnregisterProjection(carouselId);
      TrackCarousel(carouselId, imageUrl, enabled, rect, view);
    }

    /** A scroll, resize or interval tick: the recomputed projection replaces the registered one, if any. */
    method Tick(carouselId: string, imageUrl: Option<string>, rect: Option<PM.Rect>, view: PM.Viewport)
      requires Valid()
      modifies this
      ensures Valid() && globals == old(globals)
      ensures var p := Calculate(carouselId, imageUrl, rect, view, old(globals));
        projections == if p.Some? && carouselId in old(projections).vals
          then Put(old(projections), carouselId, p.value)
          else old(projections)
    {
      var p := Calculate(carouselId, imageUrl, rect, view, globals);
      if p.Some? {
        UpdateProjection(carouselId, Whole(p.value));
        PatchedSpec(if carouselId in old(projections).vals then old(projections).vals[carouselId] else p.value, p.value);
      }
    }
  }
}
