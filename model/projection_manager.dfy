/**
  * The projection manager: a registry of carousels, each with its projection
  * settings, from which a scroll-driven update computes the "projections" cast
  * onto the shared layer — at most seven, the closest to the viewport centre
  * among the visible ones. Numbers are `real`; a JavaScript `NaN` is `None`.
  * The DOM (element rectangles, viewport size), the clock and the sine/cosine
  * swimming sway are parameters.
  */
module ProjectionManager {
  import opened Wrappers
  import opened OrderedDict
  import opened StableSort

  // ---------------------------------------------------------------------------
  // Settings

  datatype Vignette = Vignette(width: real, strength: real)
  datatype Checkerboard = Checkerboard(enabled: bool, tileSize: real, scatterSpeed: real, blur: real)
  datatype Offset = Offset(x: real, y: real, autoPosition: bool, intensity: real)
  datatype Swimming = Swimming(enabled: bool, intensity: real, speedX: real, speedY: real, dampenTime: real)

  /** `ProjectionSettings` */
  datatype Settings = Settings(
    enabled: bool,
    fadeDistance: real,
    maxBlur: real,
    scaleX: real,
    scaleY: real,
    blendMode: string,
    vignette: Vignette,
    checkerboard: Checkerboard,
    offset: Offset,
    swimming: Swimming)

  /** `DEFAULT_SETTINGS` */
  const Default: Settings := Settings(
    true, 0.5, 4.0, 1.2, 1.2, "normal",
    Vignette(20.0, 0.8),
    Checkerboard(false, 30.0, 0.3, 0.0),
    Offset(0.0, 0.0, false, 0.3),
    Swimming(false, 0.5, 0.002, 0.003, 1000.0))

  /** A `Partial<ProjectionSettings>` as an object spread sees it: `None` is a key that is absent. */
  datatype PartialVignette = PartialVignette(width: Option<real>, strength: Option<real>)
  datatype PartialCheckerboard = PartialCheckerboard(
    enabled: Option<bool>, tileSize: Option<real>, scatterSpeed: Option<real>, blur: Option<real>)
  datatype PartialOffset = PartialOffset(
    x: Option<real>, y: Option<real>, autoPosition: Option<bool>, intensity: Option<real>)
  datatype PartialSwimming = PartialSwimming(
    enabled: Option<bool>, intensity: Option<real>, speedX: Option<real>, speedY: Option<real>, dampenTime: Option<real>)
  datatype PartialSettings = PartialSettings(
    enabled: Option<bool>,
    fadeDistance: Option<real>,
    maxBlur: Option<real>,
    scaleX: Option<real>,
    scaleY: Option<real>,
    blendMode: Option<string>,
    vignette: PartialVignette,
    checkerboard: PartialCheckerboard,
    offset: PartialOffset,
    swimming: PartialSwimming)

  /** The empty object `{}`. */
  const NoChange: PartialSettings := PartialSettings(
    None, None, None, None, None, None,
    PartialVignette(None, None),
    PartialCheckerboard(None, None, None, None),
    PartialOffset(None, None, None, None),
    PartialSwimming(None, None, None, None, None))

  /** Every leaf of the settings, by name. */
  datatype Field =
    | Enabled | FadeDistance | MaxBlur | ScaleX | ScaleY | BlendMode
    | VignetteWidth | VignetteStrength
    | CheckerboardEnabled | CheckerboardTileSize | CheckerboardScatterSpeed | CheckerboardBlur
    | OffsetX | OffsetY | OffsetAutoPosition | OffsetIntensity
    | SwimmingEnabled | SwimmingIntensity | SwimmingSpeedX | SwimmingSpeedY | SwimmingDampenTime

  datatype Value = Num(r: real) | Flag(b: bool) | Word(w: string)

  function Get(s: Settings, f: Field): Value {
    match f
    case Enabled => Flag(s.enabled)
    case FadeDistance => Num(s.fadeDistance)
    case MaxBlur => Num(s.maxBlur)
    case ScaleX => Num(s.scaleX)
    case ScaleY => Num(s.scaleY)
    case BlendMode => Word(s.blendMode)
    case VignetteWidth => Num(s.vignette.width)
    case VignetteStrength => Num(s.vignette.strength)
    case CheckerboardEnabled => Flag(s.checkerboard.enabled)
    case CheckerboardTileSize => Num(s.checkerboard.tileSize)
    case CheckerboardScatterSpeed => Num(s.checkerboard.scatterSpeed)
    case CheckerboardBlur => Num(s.checkerboard.blur)
    case OffsetX => Num(s.offset.x)
    case OffsetY => Num(s.offset.y)
    case OffsetAutoPosition => Flag(s.offset.autoPosition)
    case OffsetIntensity => Num(s.offset.intensity)
    case SwimmingEnabled => Flag(s.swimming.enabled)
    case SwimmingIntensity => Num(s.swimming.intensity)
    case SwimmingSpeedX => Num(s.swimming.speedX)
    case SwimmingSpeedY => Num(s.swimming.speedY)
    case SwimmingDampenTime => Num(s.swimming.dampenTime)
  }

  function NumOf(o: Option<real>): Option<Value> { if o.Some? then Some(Num(o.value)) else None }
  function FlagOf(o: Option<bool>): Option<Value> { if o.Some? then Some(Flag(o.value)) else None }

  /** The value a partial object gives a leaf, if any. */
  function PatchGet(p: PartialSettings, f: Field): Option<Value> {
    match f
    case Enabled => FlagOf(p.enabled)
    case FadeDistance => NumOf(p.fadeDistance)
    case MaxBlur => NumOf(p.maxBlur)
    case ScaleX => NumOf(p.scaleX)
    case ScaleY => NumOf(p.scaleY)
    case BlendMode => if p.blendMode.Some? then Some(Word(p.blendMode.value)) else None
    case VignetteWidth => NumOf(p.vignette.width)
    case VignetteStrength => NumOf(p.vignette.strength)
    case CheckerboardEnabled => FlagOf(p.checkerboard.enabled)
    case CheckerboardTileSize => NumOf(p.checkerboard.tileSize)
    case CheckerboardScatterSpeed => NumOf(p.checkerboard.scatterSpeed)
    case CheckerboardBlur => NumOf(p.checkerboard.blur)
    case OffsetX => NumOf(p.offset.x)
    case OffsetY => NumOf(p.offset.y)
    case OffsetAutoPosition => FlagOf(p.offset.autoPosition)
    case OffsetIntensity => NumOf(p.offset.intensity)
    case SwimmingEnabled => FlagOf(p.swimming.enabled)
    case SwimmingIntensity => NumOf(p.swimming.intensity)
    case SwimmingSpeedX => NumOf(p.swimming.speedX)
    case SwimmingSpeedY => NumOf(p.swimming.speedY)
    case SwimmingDampenTime => NumOf(p.swimming.dampenTime)
  }

  /**
    * `{ ...s, ...p, vignette: { ...s.vignette, ...p.vignette }, … }`: the top
    * level and each of the four groups are spread separately.
    */
  function Merge(s: Settings, p: PartialSettings): Settings
  {
    Settings(
      p.enabled.GetOr(s.enabled),
      p.fadeDistance.GetOr(s.fadeDistance),
      p.maxBlur.GetOr(s.maxBlur),
      p.scaleX.GetOr(s.scaleX),
      p.scaleY.GetOr(s.scaleY),
      p.blendMode.GetOr(s.blendMode),
      Vignette(p.vignette.width.GetOr(s.vignette.width), p.vignette.strength.GetOr(s.vignette.strength)),
      Checkerboard(
        p.checkerboard.enabled.GetOr(s.checkerboard.enabled),
        p.checkerboard.tileSize.GetOr(s.checkerboard.tileSize),
        p.checkerboard.scatterSpeed.GetOr(s.checkerboard.scatterSpeed),
        p.checkerboard.blur.GetOr(s.checkerboard.blur)),
      Offset(
        p.offset.x.GetOr(s.offset.x),
        p.offset.y.GetOr(s.offset.y),
        p.offset.autoPosition.GetOr(s.offset.autoPosition),
        p.offset.intensity.GetOr(s.offset.intensity)),
      Swimming(
        p.swimming.enabled.GetOr(s.swimming.enabled),
        p.swimming.intensity.GetOr(s.swimming.intensity),
        p.swimming.speedX.GetOr(s.swimming.speedX),
        p.swimming.speedY.GetOr(s.swimming.speedY),
        p.swimming.dampenTime.GetOr(s.swimming.dampenTime)))
  }

  /** A merged leaf comes from the partial object when it gives one, and is kept otherwise. */
  lemma MergeSpec(s: Settings, p: PartialSettings, f: Field)
    ensures Get(Merge(s, p), f) == PatchGet(p, f).GetOr(Get(s, f))
  {
    match f
    case Enabled =>
    case FadeDistance =>
    case MaxBlur =>
    case ScaleX =>
    case ScaleY =>
    case BlendMode =>
    case VignetteWidth =>
    case VignetteStrength =>
    case CheckerboardEnabled =>
    case CheckerboardTileSize =>
    case CheckerboardScatterSpeed =>
    case CheckerboardBlur =>
    case OffsetX =>
    case OffsetY =>
    case OffsetAutoPosition =>
    case OffsetIntensity =>
    case SwimmingEnabled =>
    case SwimmingIntensity =>
    case SwimmingSpeedX =>
    case SwimmingSpeedY =>
    case SwimmingDampenTime =>
  }

  /** Merging the empty object changes nothing. */
  lemma MergeNothing(s: Settings)
    ensures Merge(s, NoChange) == s
  {
  }

  /**
    * `registerCarousel`'s settings: defaults, then the global settings, then
    * the custom ones. The global settings hold every field, so the defaults
    * never show through.
    */
  function Registered(global: Settings, custom: Option<PartialSettings>): Settings {
    Merge(global, custom.GetOr(NoChange))
  }

  /** Each field of a registered carousel's settings comes from the custom settings when given there, else from the global ones. */
  lemma RegisteredSpec(global: Settings, custom: Option<PartialSettings>, f: Field)
    ensures custom.None? ==> Registered(global, custom) == global
    ensures custom.Some? ==> Get(Registered(global, custom), f) == PatchGet(custom.value, f).GetOr(Get(global, f))
  {
    if custom.None? {
      MergeNothing(global);
    } else {
      MergeSpec(global, custom.value, f);
    }
  }

  // ---------------------------------------------------------------------------
  // The global setters

  /** A value of the leaf's own type. */
  predicate Fits(f: Field, v: Value) {
    match f
    case BlendMode => v.Word?
    case Enabled | CheckerboardEnabled | OffsetAutoPosition | SwimmingEnabled => v.Flag?
    case _ => v.Num?
  }

  /** The partial object with one leaf: `{ fadeDistance }`, `{ vignette: { width } }`, … */
  function Only(f: Field, v: Value): (p: PartialSettings)
    requires Fits(f, v)
    ensures forall g :: PatchGet(p, g) == if g == f then Some(v) else None
  {
    var n := NoChange;
    match f
    case Enabled => n.(enabled := Some(v.b))
    case FadeDistance => n.(fadeDistance := Some(v.r))
    case MaxBlur => n.(maxBlur := Some(v.r))
    case ScaleX => n.(scaleX := Some(v.r))
    case ScaleY => n.(scaleY := Some(v.r))
    case BlendMode => n.(blendMode := Some(v.w))
    case VignetteWidth => n.(vignette := n.vignette.(width := Some(v.r)))
    case VignetteStrength => n.(vignette := n.vignette.(strength := Some(v.r)))
    case CheckerboardEnabled => n.(checkerboard := n.checkerboard.(enabled := Some(v.b)))
    case CheckerboardTileSize => n.(checkerboard := n.checkerboard.(tileSize := Some(v.r)))
    case CheckerboardScatterSpeed => n.(checkerboard := n.checkerboard.(scatterSpeed := Some(v.r)))
    case CheckerboardBlur => n.(checkerboard := n.checkerboard.(blur := Some(v.r)))
    case OffsetX => n.(offset := n.offset.(x := Some(v.r)))
    case OffsetY => n.(offset := n.offset.(y := Some(v.r)))
    case OffsetAutoPosition => n.(offset := n.offset.(autoPosition := Some(v.b)))
    case OffsetIntensity => n.(offset := n.offset.(intensity := Some(v.r)))
    case SwimmingEnabled => n.(swimming := n.swimming.(enabled := Some(v.b)))
    case SwimmingIntensity => n.(swimming := n.swimming.(intensity := Some(v.r)))
    case SwimmingSpeedX => n.(swimming := n.swimming.(speedX := Some(v.r)))
    case SwimmingSpeedY => n.(swimming := n.swimming.(speedY := Some(v.r)))
    case SwimmingDampenTime => n.(swimming := n.swimming.(dampenTime := Some(v.r)))
  }

  /** `setFadeDistance`, `setVignetteWidth`, …: one setter per leaf except `enabled`. */
  function SetGlobal(s: Settings, f: Field, v: Value): Settings
    requires Fits(f, v)
  {
    Merge(s, Only(f, v))
  }

  /** A setter gives its own leaf the new value and leaves every other leaf as it was. */
  lemma SetterChangesOnlyItsField(s: Settings, f: Field, v: Value, g: Field)
    requires Fits(f, v)
    ensures Get(SetGlobal(s, f, v), g) == if g == f then v else Get(s, g)
  {
    MergeSpec(s, Only(f, v), g);
  }

  // ---------------------------------------------------------------------------
  // One carousel's projection

  /** `CarouselRegistration`; the element is known through its rectangle, a parameter of the update. */
  datatype Registration = Registration(id: string, imageUrl: Option<string>, settings: Settings, lastUpdate: int)

  /** `getBoundingClientRect()` */
  datatype Rect = Rect(top: real, left: real, width: real, height: real)
  datatype Viewport = Viewport(width: real, height: real)

  function Abs(x: real): real { if x < 0.0 then -x else x }
  function MinR(a: real, b: real): real { if a <= b then a else b }
  function MaxR(a: real, b: real): real { if a >= b then a else b }

  /**
    * `Math.min(distance / fadeZone, 1)` for a distance that is never negative;
    * `None` is `NaN`. A zero fade zone gives `Infinity`, hence 1, unless the
    * distance is zero too, which gives `NaN`.
    */
  function Normalized(distance: real, fadeZone: real): Option<real> {
    if fadeZone != 0.0 then Some(MinR(distance / fadeZone, 1.0))
    else if distance > 0.0 then Some(1.0)
    else None
  }

  /** `Math.max(0, 1 - normalized)` */
  function Opacity(n: Option<real>): Option<real> {
    if n.Some? then Some(MaxR(0.0, 1.0 - n.value)) else None
  }

  /** `normalized * maxBlur` */
  function Blur(n: Option<real>, maxBlur: real): Option<real> {
    if n.Some? then Some(n.value * maxBlur) else None
  }

  function DistanceFromCenter(rect: Rect, view: Viewport): real {
    Abs(rect.top + rect.height / 2.0 - view.height / 2.0)
  }

  /** `rect.bottom > 0 && rect.top < innerHeight` */
  predicate InViewport(rect: Rect, view: Viewport) {
    rect.top + rect.height > 0.0 && rect.top < view.height
  }

  lemma MulPos(a: real, b: real)
    requires a > 0.0 && b > 0.0
    ensures a * b > 0.0
  {
  }

  lemma MulBetween(n: real, m: real)
    requires 0.0 <= n <= 1.0 && m >= 0.0
    ensures 0.0 <= n * m <= m
  {
    assert n * m <= 1.0 * m;
  }

  /** With a positive fade zone the opacity lies in [0, 1] and the blur in [0, maxBlur]. */
  lemma FadeBounds(distance: real, fadeZone: real, maxBlur: real)
    requires distance >= 0.0 && fadeZone > 0.0 && maxBlur >= 0.0
    ensures Opacity(Normalized(distance, fadeZone)).Some?
    ensures 0.0 <= Opacity(Normalized(distance, fadeZone)).value <= 1.0
    ensures Blur(Normalized(distance, fadeZone), maxBlur).Some?
    ensures 0.0 <= Blur(Normalized(distance, fadeZone), maxBlur).value <= maxBlur
  {
    var q := distance / fadeZone;
    assert q >= 0.0;
    MulBetween(MinR(q, 1.0), maxBlur);
  }

  /** `CarouselProjection`; `swayX`/`swayY` only enter when swimming is enabled. */
  datatype Projection = Projection(
    id: string,
    imageUrl: string,
    position: Rect,
    offsetX: real,
    offsetY: real,
    opacity: Option<real>,
    blur: Option<real>,
    scaleX: real,
    scaleY: real,
    distanceFromCenter: real,
    settings: Settings)

  /** The sine/cosine sway of the swimming motion, computed from the clock and the scroll velocity. */
  datatype Sway = Sway(x: real, y: real)

  /** `calculateProjection(carousel)` */
  function Calculate(c: Registration, rect: Rect, view: Viewport, sway: Sway): (r: Option<Projection>)
    ensures r.None? <==> c.imageUrl.None? || c.imageUrl.value == "" || !c.settings.enabled
    ensures r.Some? ==> r.value.id == c.id && r.value.settings == c.settings && r.value.position == rect
    ensures r.Some? && !InViewport(rect, view) ==> r.value.opacity == Some(0.0)
  {
    if c.imageUrl.None? || c.imageUrl.value == "" || !c.settings.enabled then None
    else
      var s := c.settings;
      var distance := DistanceFromCenter(rect, view);
      var n := Normalized(distance, view.height * s.fadeDistance);
      var autoX := if s.offset.autoPosition then -((rect.left + rect.width / 2.0) - view.width / 2.0) * s.offset.intensity else 0.0;
      var swayX := if s.swimming.enabled then sway.x else 0.0;
      var swayY := if s.swimming.enabled then sway.y else 0.0;
      Some(Projection(
        c.id, c.imageUrl.value, rect,
        s.offset.x + autoX + swayX, s.offset.y + swayY,
        if InViewport(rect, view) then Opacity(n) else Some(0.0),
        Blur(n, s.maxBlur),
        s.scaleX, s.scaleY, distance, s))
  }

  /** For a positive fade distance and viewport height, a projection's opacity lies in [0, 1] and its blur in [0, maxBlur]. */
  lemma ProjectionBounds(c: Registration, rect: Rect, view: Viewport, sway: Sway)
    requires Calculate(c, rect, view, sway).Some?
    requires c.settings.fadeDistance > 0.0 && view.height > 0.0 && c.settings.maxBlur >= 0.0
    ensures var p := Calculate(c, rect, view, sway).value;
      p.opacity.Some? && 0.0 <= p.opacity.value <= 1.0 &&
      p.blur.Some? && 0.0 <= p.blur.value <= c.settings.maxBlur
  {
    MulPos(view.height, c.settings.fadeDistance);
    FadeBounds(DistanceFromCenter(rect, view), view.height * c.settings.fadeDistance, c.settings.maxBlur);
  }

  /** A carousel in view, centred exactly, with a zero fade distance gets a `NaN` opacity and is never published. */
  lemma CentredWithoutFadeZoneHidden(c: Registration, rect: Rect, view: Viewport, sway: Sway)
    requires Calculate(c, rect, view, sway).Some?
    requires c.settings.fadeDistance == 0.0 && InViewport(rect, view)
    requires rect.top + rect.height / 2.0 == view.height / 2.0
    ensures !Visible(Calculate(c, rect, view, sway).value)
  {
  }

  // ---------------------------------------------------------------------------
  // The update: visible projections, the closest seven

  /** `projection && projection.opacity > 0`; a `NaN` opacity fails the comparison. */
  predicate Visible(p: Projection) {
    p.opacity.Some? && p.opacity.value > 0.0
  }

  type Registry = ODict<string, Registration>

  /** What `calculateProjection` contributes for one carousel: its projection if visible. */
  function CandidateOf(c: Registration, rect: Rect, view: Viewport, sway: Sway): seq<Projection> {
    var p := Calculate(c, rect, view, sway);
    if p.Some? && Visible(p.value) then [p.value] else []
  }

  /** The visible projections of the carousels `keys`, in registration order. */
  function Candidates(reg: Registry, keys: seq<string>, rectOf: string -> Rect, view: Viewport, swayOf: string -> Sway): seq<Projection>
    requires forall k :: k in keys ==> k in reg.vals
  {
    if keys == [] then []
    else
      var k := keys[|keys| - 1];
      Candidates(reg, keys[..|keys| - 1], rectOf, view, swayOf) + CandidateOf(reg.vals[k], rectOf(k), view, swayOf(k))
  }

  lemma {:induction false} CandidatesVisible(reg: Registry, keys: seq<string>, rectOf: string -> Rect, view: Viewport, swayOf: string -> Sway)
    requires forall k :: k in keys ==> k in reg.vals
    ensures forall p :: p in Candidates(reg, keys, rectOf, view, swayOf) ==> Visible(p)
  {
    if keys != [] {
      CandidatesVisible(reg, keys[..|keys| - 1], rectOf, view, swayOf);
    }
  }

  /** `(a, b) => a.distanceFromCenter - b.distanceFromCenter` as an order. */
  function Closer(a: Projection, b: Projection): bool { a.distanceFromCenter <= b.distanceFromCenter }

  lemma CloserPreorder()
    ensures TotalPreorder(Closer)
  {
  }

  /** `.sort(by distance).slice(0, 7)` */
  function Closest(candidates: seq<Projection>): seq<Projection> {
    var sorted := SortBy(candidates, Closer);
    if |sorted| <= 7 then sorted else sorted[..7]
  }

  /**
    * At most seven are kept, all taken from the candidates, and no candidate
    * left out is closer to the centre than any kept one.
    */
  lemma ClosestSpec(candidates: seq<Projection>)
    ensures |Closest(candidates)| == if |candidates| <= 7 then |candidates| else 7
    ensures multiset(Closest(candidates)) <= multiset(candidates)
    ensures forall p, q :: p in Closest(candidates) && q in multiset(candidates) - multiset(Closest(candidates)) ==>
      p.distanceFromCenter <= q.distanceFromCenter
  {
    var sorted := SortBy(candidates, Closer);
    CloserPreorder();
    SortByPermutes(candidates, Closer);
    SortByOrdered(candidates, Closer);
    SortByLength(candidates, Closer);
    var kept := Closest(candidates);
    var k := |kept|;
    assert sorted == kept + sorted[k..];
    assert multiset(sorted) == multiset(kept) + multiset(sorted[k..]);
    SortedSplit(sorted, k, Closer);
    assert kept == sorted[..k];
    forall p, q | p in kept && q in multiset(candidates) - multiset(kept)
      ensures p.distanceFromCenter <= q.distanceFromCenter
    {
      assert q in multiset(sorted[k..]);
    }
  }

  /** `finalProjections.set(p.id, p)` for each kept projection in turn. */
  function MapOf(ps: seq<Projection>): (m: map<string, Projection>)
    ensures |m.Keys| <= |ps|
    ensures forall id :: id in m ==> m[id] in ps && m[id].id == id
    ensures forall p :: p in ps ==> p.id in m
  {
    if ps == [] then map[]
    else
      var front := MapOf(ps[..|ps| - 1]);
      var p := ps[|ps| - 1];
      assert front.Keys + {p.id} == front[p.id := p].Keys;
      front[p.id := p]
  }

  /** The projections an update publishes: none when no carousel is registered. */
  function Published(reg: Registry, rectOf: string -> Rect, view: Viewport, swayOf: string -> Sway): map<string, Projection>
    requires reg.Valid()
  {
    if |reg.keys| == 0 then map[]
    else MapOf(Closest(Candidates(reg, reg.keys, rectOf, view, swayOf)))
  }

  lemma InSubMultiset(x: Projection, a: seq<Projection>, b: seq<Projection>)
    requires x in a && multiset(a) <= multiset(b)
    ensures x in b
  {
    assert x in multiset(a);
  }

  /** At most seven are kept, and every kept projection is a candidate. */
  lemma KeptCandidates(candidates: seq<Projection>)
    ensures |MapOf(Closest(candidates)).Keys| <= 7
    ensures forall id :: id in MapOf(Closest(candidates)) ==> MapOf(Closest(candidates))[id] in candidates
  {
    var kept := Closest(candidates);
    ClosestSpec(candidates);
    var m := MapOf(kept);
    forall id | id in m
      ensures m[id] in candidates
    {
      InSubMultiset(m[id], kept, candidates);
    }
  }

  /** No kept projection is farther from the centre than a candidate whose id was not kept. */
  lemma KeptClosest(candidates: seq<Projection>)
    ensures var m := MapOf(Closest(candidates));
      forall id, q :: id in m && q in candidates && q.id !in m ==> m[id].distanceFromCenter <= q.distanceFromCenter
  {
    var kept := Closest(candidates);
    ClosestSpec(candidates);
    var m := MapOf(kept);
    forall id, q | id in m && q in candidates && q.id !in m
      ensures m[id].distanceFromCenter <= q.distanceFromCenter
    {
      assert q !in kept;
      assert q in multiset(candidates);
      assert q !in multiset(kept);
    }
  }

  /**
    * The published projections are at most seven, each visible, and none
    * farther from the centre than a visible projection that was left out.
    */
  lemma PublishedSpec(reg: Registry, rectOf: string -> Rect, view: Viewport, swayOf: string -> Sway)
    requires reg.Valid()
    ensures var m := Published(reg, rectOf, view, swayOf);
      |m.Keys| <= 7 &&
      (forall id :: id in m ==> Visible(m[id])) &&
      (forall id, q :: id in m && q in Candidates(reg, reg.keys, rectOf, view, swayOf) && q.id !in m ==>
        m[id].distanceFromCenter <= q.distanceFromCenter)
  {
    if |reg.keys| > 0 {
      KeptCandidates(Candidates(reg, reg.keys, rectOf, view, swayOf));
      KeptClosest(Candidates(reg, reg.keys, rectOf, view, swayOf));
      CandidatesVisible(reg, reg.keys, rectOf, view, swayOf);
    }
  }

  // ---------------------------------------------------------------------------
  // The provider

  class Manager {
    /** `carouselsRef.current`, in insertion order. */
    var carousels: Registry
    var globalSettings: Settings
    var projections: map<string, Projection>

    ghost predicate Valid()
      reads this
    {
      carousels.Valid()
    }

    constructor ()
      ensures Valid() && carousels.keys == [] && globalSettings == Default && projections == map[]
    {
      carousels := Empty();
      globalSettings := Default;
      projections := map[];
    }

    /** `registerCarousel(id, element, imageUrl, customSettings)`: inserts or overwrites the entry for `id`. */
    method RegisterCarousel(id: string, imageUrl: Option<string>, custom: Option<PartialSettings>, now: int)
      requires Valid()
      modifies this
      ensures Valid()
      ensures carousels == Put(old(carousels), id, Registration(id, imageUrl, Registered(globalSettings, custom), now))
      ensures globalSettings == old(globalSettings) && projections == old(projections)
    {
      var settings := Merge(globalSettings, if custom.Some? then custom.value else NoChange);
      carousels := Put(carousels, id, Registration(id, imageUrl, settings, now));
    }

    /** `unregisterCarousel(id)`: the published projections are left for the next update. */
    method UnregisterCarousel(id: string)
      requires Valid()
      modifies this
      ensures Valid()
      ensures carousels == Remove(old(carousels), id)
      ensures globalSettings == old(globalSettings) && projections == old(projections)
    {
      carousels := Remove(carousels, id);
    }

    /** `updateCarouselImage(id, imageUrl)`: nothing happens for an id that is not registered. */
    method UpdateCarouselImage(id: string, imageUrl: Option<string>, now: int)
      requires Valid()
      modifies this
      ensures Valid()
      ensures id !in old(carousels).vals ==> carousels == old(carousels)
      ensures id in old(carousels).vals ==>
        carousels == Put(old(carousels), id, old(carousels).vals[id].(imageUrl := imageUrl, lastUpdate := now))
      ensures globalSettings == old(globalSettings) && projections == old(projections)
    {
      if id in carousels.vals {
        carousels := Put(carousels, id, carousels.vals[id].(imageUrl := imageUrl, lastUpdate := now));
      }
    }

    /** `updateCarouselSettings(id, settings)`: merges field-wise; nothing happens for an id that is not registered. */
    method UpdateCarouselSettings(id: string, patch: PartialSettings, now: int)
      requires Valid()
      modifies this
      ensures Valid()
      ensures id !in old(carousels).vals ==> carousels == old(carousels)
      ensures id in old(carousels).vals ==>
        var c := old(carousels).vals[id];
        carousels == Put(old(carousels), id, c.(settings := Merge(c.settings, patch), lastUpdate := now))
      ensures globalSettings == old(globalSettings) && projections == old(projections)
    {
      if id in carousels.vals {
        var c := carousels.vals[id];
        carousels := Put(carousels, id, c.(settings := Merge(c.settings, patch), lastUpdate := now));
      }
    }

    /** `updateProjections()` after the throttle: recomputes every projection and keeps the closest seven. */
    method UpdateProjections(rectOf: string -> Rect, view: Viewport, swayOf: string -> Sway)
      requires Valid()
      modifies this
      ensures Valid()
      ensures projections == Published(carousels, rectOf, view, swayOf)
      ensures carousels == old(carousels) && globalSettings == old(globalSettings)
    {
      if |carousels.keys| == 0 {
        projections := map[];
        return;
      }
      var reg := carousels;
      var candidates: seq<Projection> := [];
      var i := 0;
      while i < |reg.keys|
        invariant 0 <= i <= |reg.keys|
        invariant candidates == Candidates(reg, reg.keys[..i], rectOf, view, swayOf)
      {
        var k := reg.keys[i];
        assert reg.keys[..i + 1][..i] == reg.keys[..i];
        candidates := candidates + CandidateOf(reg.vals[k], rectOf(k), view, swayOf(k));
        i := i + 1;
      }
      assert reg.keys[..i] == reg.keys;
      projections := MapOf(Closest(candidates));
    }

    /** The twenty global setters, `setFadeDistance` … `setSwimmingDampenTime`. */
    method SetGlobalSetting(f: Field, v: Value)
      requires Valid() && Fits(f, v) && f != Enabled
      modifies this
      ensures Valid()
      ensures globalSettings == SetGlobal(old(globalSettings), f, v)
      ensures carousels == old(carousels) && projections == old(projections)
    {
      globalSettings := Merge(globalSettings, Only(f, v));
    }
  }
}
