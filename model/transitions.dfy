/**
  * The carousel's transition registry and the slide transition's style.
  * A registry is its entries in insertion order, as `Object.keys` and
  * `Object.entries` list them.
  */
module Transitions {
  import opened Wrappers
  import opened Text
  import CarouselState

  /** The transition handlers the registry can hold, named by their metadata. */
  datatype Handler = FadeTransition | SlideTransition | ZoomTransition {
    function Name(): string {
      match this
      case FadeTransition => "Fade"
      case SlideTransition => "Slide"
      case ZoomTransition => "Zoom"
    }
  }

  datatype Entry = Entry(key: string, handler: Handler)

  /** The `Transitions` record. */
  const Registry: seq<Entry> := [
    Entry("fade", FadeTransition),
    Entry("slide", SlideTransition),
    Entry("zoom", ZoomTransition),
    Entry("flip", FadeTransition)
  ]

  function Keys(entries: seq<Entry>): (r: seq<string>)
    ensures |r| == |entries|
    ensures forall i :: 0 <= i < |entries| ==> r[i] == entries[i].key
  {
    if entries == [] then [] else [entries[0].key] + Keys(entries[1..])
  }

  /** The handler stored under `key`, the first entry's when keys repeat. */
  function Lookup(entries: seq<Entry>, key: string): Option<Handler> {
    if entries == [] then None
    else if entries[0].key == key then Some(entries[0].handler)
    else Lookup(entries[1..], key)
  }

  /** `Lookup` finds exactly the keys the registry lists. */
  lemma {:induction false} LookupFinds(entries: seq<Entry>, key: string)
    ensures Lookup(entries, key).None? <==> key !in Keys(entries)
  {
    if entries != [] {
      LookupFinds(entries[1..], key);
      assert Keys(entries) == [entries[0].key] + Keys(entries[1..]);
    }
  }

  /** What `Lookup` finds is the handler of the first entry with that key. */
  lemma {:induction false} LookupFirst(entries: seq<Entry>, key: string, h: Handler)
    requires Lookup(entries, key) == Some(h)
    ensures exists i ::
      (0 <= i < |entries| && entries[i] == Entry(key, h) && forall j :: 0 <= j < i ==> entries[j].key != key)
  {
    if entries[0].key == key {
      assert entries[0] == Entry(key, h);
    } else {
      var rest := entries[1..];
      LookupFirst(rest, key, h);
      var i :| 0 <= i < |rest| && rest[i] == Entry(key, h) && forall j :: 0 <= j < i ==> rest[j].key != key;
      assert entries[i + 1] == Entry(key, h);
      forall j | 0 <= j < i + 1
        ensures entries[j].key != key
      {
        if j > 0 {
          assert entries[j] == rest[j - 1];
        }
      }
    }
  }

  /**
    * What `getTransition` returns: a handler, or the member of
    * `Object.prototype` that `Transitions[type]` finds for an inherited name.
    */
  datatype Transition = Handled(handler: Handler) | PrototypeMember(name: string)

  /** `getTransition(type)`: the registered handler, a truthy inherited member, or fade for any other type. */
  function GetTransition(transitionType: string): Transition
  {
    match Lookup(Registry, transitionType)
    case Some(h) => Handled(h)
    case None =>
      if transitionType in ObjectPrototypeNames then PrototypeMember(transitionType) else Handled(FadeTransition)
  }

  /** The registry holds exactly fade, slide, zoom and flip, and flip is the fade handler. */
  lemma RegistryContents()
    ensures Keys(Registry) == ["fade", "slide", "zoom", "flip"]
    ensures GetTransition("fade") == Handled(FadeTransition) && GetTransition("slide") == Handled(SlideTransition)
    ensures GetTransition("zoom") == Handled(ZoomTransition) && GetTransition("flip") == Handled(FadeTransition)
  {
  }

  /**
    * Every type outside the registry, such as 'none', 'slide-up', 'slide-down'
    * or 'flipbook', falls back to fade, unless `Object.prototype` has a member
    * of that name: then that member is returned, and it is no handler.
    */
  lemma UnregisteredFallsBack(transitionType: string)
    requires transitionType !in Keys(Registry)
    ensures transitionType !in ObjectPrototypeNames ==> GetTransition(transitionType) == Handled(FadeTransition)
    ensures transitionType in ObjectPrototypeNames ==> GetTransition(transitionType) == PrototypeMember(transitionType)
  {
    LookupFinds(Registry, transitionType);
  }

  /** No registry key is an inherited name, so every inherited name reaches a prototype member. */
  lemma PrototypeNamesReachMembers(transitionType: string)
    requires transitionType in ObjectPrototypeNames
    ensures GetTransition(transitionType) == PrototypeMember(transitionType)
  {
    LookupFinds(Registry, transitionType);
    assert transitionType !in Keys(Registry);
  }

  /** `getAvailableTransitions()` */
  function AvailableTransitions(): (r: seq<string>)
    ensures r == Keys(Registry)
  {
    Keys(Registry)
  }

  /** One listing entry of `getTransitionMetadata()`: the key as `type` and the handler's name. */
  datatype Metadata = Metadata(transitionType: string, name: string)

  function MetadataOf(entries: seq<Entry>): (r: seq<Metadata>)
    ensures |r| == |entries|
    ensures forall i :: 0 <= i < |entries| ==>
      r[i] == Metadata(entries[i].key, entries[i].handler.Name())
  {
    if entries == [] then [] else [Metadata(entries[0].key, entries[0].handler.Name())] + MetadataOf(entries[1..])
  }

  /** `getTransitionMetadata()`: one entry per registry key, in order, carrying that key. */
  function TransitionMetadata(): (r: seq<Metadata>)
    ensures |r| == |AvailableTransitions()|
    ensures forall i :: 0 <= i < |r| ==> r[i].transitionType == AvailableTransitions()[i]
  {
    MetadataOf(Registry)
  }

  // ---------------------------------------------------------------------------
  // The slide transition

  /** `translateX(<percent>%)` */
  datatype Transform = TranslateX(percent: int)

  datatype PointerEvents = Auto | NoEvents

  datatype Style = Style(opacity: int, transform: Transform, transitionMs: int,
                         pointerEvents: PointerEvents, zIndex: int)

  /** `SlideTransition.getStyle`: the active image sits in place; an inactive one leaves against the direction of travel. */
  function SlideStyle(isActive: bool, direction: Option<CarouselState.Direction>, durationMs: int): (s: Style)
    ensures s.transitionMs == durationMs
    ensures isActive ==> s == Style(1, TranslateX(0), durationMs, Auto, 10)
    ensures !isActive ==> s.opacity == 0 && s.zIndex == 0 && s.pointerEvents == NoEvents
    ensures !isActive ==> (s.transform == TranslateX(-100) <==> direction == Some(CarouselState.Forward))
    ensures !isActive ==> (s.transform == TranslateX(100) <==> direction != Some(CarouselState.Forward))
  {
    var transform :=
      if isActive then TranslateX(0)
      else if direction == Some(CarouselState.Forward) then TranslateX(-100)
      else TranslateX(100);
    Style(if isActive then 1 else 0, transform, durationMs,
          if isActive then Auto else NoEvents, if isActive then 10 else 0)
  }

  /** Only the active image is visible and receives pointer events, whatever the direction. */
  lemma SlideVisibility(isActive: bool, direction: Option<CarouselState.Direction>, durationMs: int)
    ensures SlideStyle(isActive, direction, durationMs).opacity == 1 <==> isActive
    ensures SlideStyle(isActive, direction, durationMs).pointerEvents == Auto <==> isActive
    ensures SlideStyle(isActive, direction, durationMs).zIndex > 0 <==> isActive
  {
  }
}
