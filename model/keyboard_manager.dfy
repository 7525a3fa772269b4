/**
  * The page-wide keyboard manager: carousels register their handlers under an
  * id, one may be focused, and each key press goes to the active carousel — the
  * focused one, else the first fullscreen one, else the one closest to the
  * viewport's centre. An element's geometry is given in whole pixels, and
  * distances are doubled so that the halves of the source stay whole.
  */
module KeyboardManagement {
  import opened Wrappers
  import opened OrderedDict

  /** The handlers a carousel registers; the optional ones are flags. */
  datatype Handlers = Handlers(hasToggleAutoplay: bool, hasToggleFullscreen: bool, isFullscreen: bool)

  /** An element's bounding box: its top and its height relative to the viewport. */
  datatype Rect = Rect(top: int, height: nat)

  /** A registration: the handlers and the element, `None` while there is none. */
  datatype Registration = Registration(handlers: Handlers, element: Option<Rect>)

  type Registry = ODict<string, Registration>

  /** At least partly inside a viewport of height `vh`. */
  predicate InViewport(r: Rect, vh: int) {
    r.top + r.height > 0 && r.top < vh
  }

  /** Twice the distance between the element's centre and the viewport's centre. */
  function Distance(r: Rect, vh: int): nat {
    var d := 2 * r.top + r.height - vh;
    if d < 0 then -d else d
  }

  /** A carousel `findCenteredCarousel` considers. */
  predicate Candidate(reg: Registration, vh: int) {
    reg.element.Some? && InViewport(reg.element.value, vh)
  }

  datatype Closest = Closest(id: string, distance: nat)

  /** One step of the search: a strictly closer candidate replaces the best so far. */
  function CentreStep(best: Option<Closest>, id: string, reg: Registration, vh: int): Option<Closest> {
    if Candidate(reg, vh) && (best.None? || Distance(reg.element.value, vh) < best.value.distance)
    then Some(Closest(id, Distance(reg.element.value, vh)))
    else best
  }

  /** The search over `keys` in registry order. */
  function CentreSearch(keys: seq<string>, vals: map<string, Registration>, vh: int): Option<Closest>
    requires forall k :: k in keys ==> k in vals
  {
    if keys == [] then None
    else CentreStep(CentreSearch(keys[..|keys| - 1], vals, vh), keys[|keys| - 1], vals[keys[|keys| - 1]], vh)
  }

  /** The search finds nothing exactly when no registered carousel is in the viewport. */
  lemma {:induction false} CentreSearchNone(keys: seq<string>, vals: map<string, Registration>, vh: int)
    requires forall k :: k in keys ==> k in vals
    ensures CentreSearch(keys, vals, vh).None? <==> forall i :: 0 <= i < |keys| ==> !Candidate(vals[keys[i]], vh)
  {
    if keys != [] {
      var front := keys[..|keys| - 1];
      CentreSearchNone(front, vals, vh);
      assert forall i :: 0 <= i < |front| ==> front[i] == keys[i];
    }
  }

  /** What the search finds is a candidate at least as close as every other. */
  lemma {:induction false} CentreSearchClosest(keys: seq<string>, vals: map<string, Registration>, vh: int)
    requires forall k :: k in keys ==> k in vals
    requires CentreSearch(keys, vals, vh).Some?
    ensures var c := CentreSearch(keys, vals, vh).value;
      c.id in vals && Candidate(vals[c.id], vh) && Distance(vals[c.id].element.value, vh) == c.distance &&
      forall i :: 0 <= i < |keys| && Candidate(vals[keys[i]], vh) ==> c.distance <= Distance(vals[keys[i]].element.value, vh)
  {
    var front := keys[..|keys| - 1];
    assert forall i :: 0 <= i < |front| ==> front[i] == keys[i];
    if CentreSearch(front, vals, vh).Some? {
      CentreSearchClosest(front, vals, vh);
    } else {
      CentreSearchNone(front, vals, vh);
    }
  }

  /** Ties go to the carousel registered first: every earlier candidate is strictly farther. */
  lemma {:induction false} CentreSearchFirst(keys: seq<string>, vals: map<string, Registration>, vh: int)
    requires forall k :: k in keys ==> k in vals
    requires CentreSearch(keys, vals, vh).Some?
    ensures var c := CentreSearch(keys, vals, vh).value;
      exists i :: 0 <= i < |keys| && keys[i] == c.id &&
        forall j :: 0 <= j < i && Candidate(vals[keys[j]], vh) ==> Distance(vals[keys[j]].element.value, vh) > c.distance
  {
    var front := keys[..|keys| - 1];
    var last := keys[|keys| - 1];
    assert forall i :: 0 <= i < |front| ==> front[i] == keys[i];
    var before := CentreSearch(front, vals, vh);
    if CentreSearch(keys, vals, vh) == before {
      CentreSearchFirst(front, vals, vh);
    } else if before.Some? {
      CentreSearchClosest(front, vals, vh);
      assert keys[|keys| - 1] == last;
    } else {
      CentreSearchNone(front, vals, vh);
      assert keys[|keys| - 1] == last;
    }
  }

  /** The first registered carousel in fullscreen. */
  function FirstFullscreen(keys: seq<string>, vals: map<string, Registration>): Option<string>
    requires forall k :: k in keys ==> k in vals
  {
    if keys == [] then None
    else if vals[keys[0]].handlers.isFullscreen then Some(keys[0])
    else FirstFullscreen(keys[1..], vals)
  }

  lemma {:induction false} FirstFullscreenSpec(keys: seq<string>, vals: map<string, Registration>)
    requires forall k :: k in keys ==> k in vals
    ensures FirstFullscreen(keys, vals).None? <==> forall i :: 0 <= i < |keys| ==> !vals[keys[i]].handlers.isFullscreen
    ensures FirstFullscreen(keys, vals).Some? ==>
      exists i :: 0 <= i < |keys| && keys[i] == FirstFullscreen(keys, vals).value &&
        vals[keys[i]].handlers.isFullscreen && forall j :: 0 <= j < i ==> !vals[keys[j]].handlers.isFullscreen
  {
    if keys != [] && !vals[keys[0]].handlers.isFullscreen {
      FirstFullscreenSpec(keys[1..], vals);
      assert forall i :: 0 <= i < |keys[1..]| ==> keys[1..][i] == keys[i + 1];
      if FirstFullscreen(keys, vals).Some? {
        var i :| 0 <= i < |keys[1..]| && keys[1..][i] == FirstFullscreen(keys, vals).value &&
          vals[keys[1..][i]].handlers.isFullscreen && forall j :: 0 <= j < i ==> !vals[keys[1..][j]].handlers.isFullscreen;
        assert keys[i + 1] == keys[1..][i];
      }
    }
  }

  /** `getActiveCarousel()`: an empty id counts as no id, as JavaScript's truthiness makes it. */
  function ActiveCarousel(reg: Registry, focused: Option<string>, vh: int): (r: Option<string>)
    requires reg.Valid()
    ensures r.Some? ==> r.value in reg.vals
  {
    if focused.Some? && focused.value != "" && focused.value in reg.vals then focused
    else if FirstFullscreen(reg.keys, reg.vals).Some? then
      FirstFullscreenSpec(reg.keys, reg.vals);
      FirstFullscreen(reg.keys, reg.vals)
    else
      var c := CentreSearch(reg.keys, reg.vals, vh);
      if c.Some? && c.value.id != "" then
        CentreSearchClosest(reg.keys, reg.vals, vh);
        Some(c.value.id)
      else None
  }

  /** The focused carousel wins whenever it is still registered. */
  lemma FocusedWins(reg: Registry, id: string, vh: int)
    requires reg.Valid() && id != "" && id in reg.vals
    ensures ActiveCarousel(reg, Some(id), vh) == Some(id)
  {
  }

  /** Without a registered focus, a fullscreen carousel wins, the first one registered. */
  lemma FullscreenNext(reg: Registry, focused: Option<string>, vh: int)
    requires reg.Valid()
    requires focused.None? || focused.value == "" || focused.value !in reg.vals
    requires exists i :: 0 <= i < |reg.keys| && reg.vals[reg.keys[i]].handlers.isFullscreen
    ensures ActiveCarousel(reg, focused, vh) == FirstFullscreen(reg.keys, reg.vals)
    ensures ActiveCarousel(reg, focused, vh).Some?
  {
    FirstFullscreenSpec(reg.keys, reg.vals);
  }

  datatype Key = ArrowLeft | ArrowRight | Space | Escape | OtherKey

  /** What a key press does. */
  datatype Action = Previous(id: string) | Next(id: string) | ToggleAutoplay(id: string) | ToggleFullscreen(id: string) | Ignored

  function Dispatch(key: Key, id: string, h: Handlers): (a: Action)
    ensures a.ToggleAutoplay? ==> h.hasToggleAutoplay
    ensures a.ToggleFullscreen? ==> h.isFullscreen && h.hasToggleFullscreen
  {
    match key
    case ArrowLeft => Previous(id)
    case ArrowRight => Next(id)
    case Space => if h.hasToggleAutoplay then ToggleAutoplay(id) else Ignored
    case Escape => if h.isFullscreen && h.hasToggleFullscreen then ToggleFullscreen(id) else Ignored
    case OtherKey => Ignored
  }

  class KeyboardManager {
    var carousels: Registry
    var focused: Option<string>

    ghost predicate Valid()
      reads this
    {
      carousels.Valid()
    }

    constructor ()
      ensures carousels == Empty() && focused == None && Valid()
    {
      carousels := Empty();
      focused := None;
    }

    /** `registerCarousel(id, handlers, element)`: inserts, or overwrites in place. */
    method RegisterCarousel(id: string, handlers: Handlers, element: Option<Rect>)
      requires Valid()
      modifies this
      ensures Valid()
      ensures carousels == Put(old(carousels), id, Registration(handlers, element)) && focused == old(focused)
    {
      carousels := Put(carousels, id, Registration(handlers, element));
    }

    /** `unregisterCarousel(id)`: also clears the focus when it was on that carousel. */
    method UnregisterCarousel(id: string)
      requires Valid()
      modifies this
      ensures Valid()
      ensures carousels == Remove(old(carousels), id)
      ensures focused == if old(focused) == Some(id) then None else old(focused)
    {
      carousels := Remove(carousels, id);
      if focused == Some(id) {
        focused := None;
      }
    }

    method SetFocusedCarousel(id: Option<string>)
      modifies this
      ensures focused == id && carousels == old(carousels)
    {
      focused := id;
    }

    /** `findCenteredCarousel()` for a viewport of height `vh`. */
    method FindCenteredCarousel(vh: int) returns (closestId: Option<string>)
      requires Valid()
      ensures closestId == (var c := CentreSearch(carousels.keys, carousels.vals, vh); if c.Some? then Some(c.value.id) else None)
    {
      var best: Option<Closest> := None;
      var i := 0;
      while i < |carousels.keys|
        invariant 0 <= i <= |carousels.keys|
        invariant best == CentreSearch(carousels.keys[..i], carousels.vals, vh)
      {
        assert carousels.keys[..i + 1][..i] == carousels.keys[..i];
        var id := carousels.keys[i];
        var reg := carousels.vals[id];
        if reg.element.Some? {
          var distance := Distance(reg.element.value, vh);
          if InViewport(reg.element.value, vh) && (best.None? || distance < best.value.distance) {
            best := Some(Closest(id, distance));
          }
        }
        i := i + 1;
      }
      assert carousels.keys[..i] == carousels.keys;
      closestId := if best.Some? then Some(best.value.id) else None;
    }

    /** `getActiveCarousel()` */
    method GetActiveCarousel(vh: int) returns (active: Option<string>)
      requires Valid()
      ensures active == ActiveCarousel(carousels, focused, vh)
    {
      if focused.Some? && focused.value != "" && focused.value in carousels.vals {
        return focused;
      }
      var i := 0;
      while i < |carousels.keys|
        invariant 0 <= i <= |carousels.keys|
        invariant FirstFullscreen(carousels.keys, carousels.vals) == FirstFullscreen(carousels.keys[i..], carousels.vals)
      {
        var id := carousels.keys[i];
        if carousels.vals[id].handlers.isFullscreen {
          return Some(id);
        }
        assert carousels.keys[i..][1..] == carousels.keys[i + 1..];
        i := i + 1;
      }
      var centredId := FindCenteredCarousel(vh);
      if centredId.Some? && centredId.value != "" && centredId.value in carousels.vals {
        return centredId;
      }
      if centredId.Some? && centredId.value != "" {
        CentreSearchClosest(carousels.keys, carousels.vals, vh);
      }
      return None;
    }

    /** The global key handler: keys go to the active carousel, and are ignored without one. */
    method HandleKeyDown(key: Key, vh: int) returns (a: Action)
      requires Valid()
      ensures ActiveCarousel(carousels, focused, vh).None? ==> a == Ignored
      ensures ActiveCarousel(carousels, focused, vh).Some? ==>
        var id := ActiveCarousel(carousels, focused, vh).value;
        a == Dispatch(key, id, carousels.vals[id].handlers)
    {
      var active := GetActiveCarousel(vh);
      if active.None? {
        return Ignored;
      }
      var id := active.value;
      a := Dispatch(key, id, carousels.vals[id].handlers);
    }
  }
}
