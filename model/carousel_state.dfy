/**
  * The carousel's state hook: navigation with a transition in between, manual
  * navigation pausing autoplay for a while, pause/resume, speed presets and the
  * autoplay condition. Timers become explicit step methods: the transition timer
  * (`CompleteTransition`), the auto-pause timer (`EndAutoPause`) and the autoplay
  * timer (`AutoplayTick`).
  */
module CarouselState {
  import opened Wrappers

  datatype Direction = Forward | Backward

  /** `AutoplaySpeedPreset` */
  datatype Speed = Slow | Medium | Fast | VeryFast | UltraFast | Blazing | Custom

  /** `AUTOPLAY_SPEEDS`: only four presets have a duration. */
  function SpeedMs(speed: Speed): Option<nat> {
    match speed
    case Slow => Some(8000)
    case Medium => Some(5000)
    case Fast => Some(3000)
    case VeryFast => Some(1500)
    case _ => None
  }

  /** `CarouselState` */
  datatype State = State(
    currentIndex: int,
    isTransitioning: bool,
    direction: Option<Direction>,
    isFullscreen: bool,
    isPaused: bool,
    isAutoPaused: bool,
    currentSpeed: Speed)

  const Initial: State := State(0, false, None, false, false, false, Medium)

  /** The options the hook is called with. */
  datatype Options = Options(imageCount: int, autoplaySpeed: int, autoPauseDuration: int)

  function DefaultOptions(imageCount: int): Options {
    Options(imageCount, 0, 5000)
  }

  // ---------------------------------------------------------------------------
  // Navigation

  /** The guards of `goTo`: no transition running, another index, and one inside the carousel. */
  predicate Admits(s: State, index: int, imageCount: int) {
    !s.isTransitioning && index != s.currentIndex && 0 <= index < imageCount
  }

  function DirectionTo(s: State, index: int): Direction {
    if index > s.currentIndex then Forward else Backward
  }

  /** `triggerAutoPause` fires for manual navigation unless auto-pause or autoplay is switched off. */
  predicate AutoPauses(opts: Options, fromAutoplay: bool) {
    !fromAutoplay && opts.autoPauseDuration != 0 && opts.autoplaySpeed != 0
  }

  /** The state right after an admitted `goTo`. */
  function Started(s: State, index: int, opts: Options, fromAutoplay: bool): State {
    s.(isTransitioning := true, direction := Some(DirectionTo(s, index)),
       isAutoPaused := s.isAutoPaused || AutoPauses(opts, fromAutoplay))
  }

  /** The transition timer's update. */
  function Completed(s: State, target: int): State {
    s.(currentIndex := target, isTransitioning := false, direction := None)
  }

  /** `(currentIndex + 1) % imageCount`, for a non-empty carousel. */
  function NextIndex(i: int, imageCount: int): int
    requires imageCount > 0 && 0 <= i
  {
    (i + 1) % imageCount
  }

  function PreviousIndex(i: int, imageCount: int): int {
    if i == 0 then imageCount - 1 else i - 1
  }

  /** Going back and then forward returns to the same image, and so does forward then back. */
  lemma NextPreviousInverse(i: int, imageCount: int)
    requires 0 <= i < imageCount
    ensures 0 <= PreviousIndex(i, imageCount) < imageCount
    ensures NextIndex(PreviousIndex(i, imageCount), imageCount) == i
    ensures 0 <= NextIndex(i, imageCount) < imageCount
    ensures PreviousIndex(NextIndex(i, imageCount), imageCount) == i
  {
    if i == imageCount - 1 {
      assert NextIndex(i, imageCount) == 0;
    } else {
      assert NextIndex(i, imageCount) == i + 1;
    }
    if i == 0 {
      assert NextIndex(imageCount - 1, imageCount) == 0;
    } else {
      assert NextIndex(i - 1, imageCount) == i;
    }
  }

  /** A navigation is admitted only to a new index inside the carousel, and its direction is forward exactly when the index grows. */
  lemma GoToSpec(s: State, index: int, opts: Options, fromAutoplay: bool)
    requires Admits(s, index, opts.imageCount)
    ensures var t := Started(s, index, opts, fromAutoplay);
      t.isTransitioning && t.currentIndex == s.currentIndex &&
      (t.direction == Some(Forward) <==> index > s.currentIndex) &&
      (t.direction == Some(Backward) <==> index < s.currentIndex) &&
      (fromAutoplay ==> t.isAutoPaused == s.isAutoPaused) &&
      (opts.autoPauseDuration == 0 || opts.autoplaySpeed == 0 ==> t.isAutoPaused == s.isAutoPaused)
  {
  }

  // ---------------------------------------------------------------------------
  // Pause, resume, speed

  function Paused(s: State): State {
    s.(isPaused := true, isAutoPaused := false)
  }

  function Resumed(s: State): State {
    s.(isPaused := false, isAutoPaused := false)
  }

  function Toggled(s: State): State {
    if s.isPaused then Resumed(s) else Paused(s)
  }

  /** Toggling flips `isPaused`, always ends any auto-pause, and toggling twice restores a running carousel. */
  lemma ToggleSpec(s: State)
    ensures Toggled(s).isPaused == !s.isPaused && !Toggled(s).isAutoPaused
    ensures Toggled(s) == s.(isPaused := !s.isPaused, isAutoPaused := false)
    ensures !s.isPaused ==> Toggled(Toggled(s)) == s.(isAutoPaused := false)
  {
  }

  /** `cycleSpeed`: the next of slow, medium, fast, veryFast; from any other preset, `indexOf` is -1 and the next is slow. */
  function CycleSpeed(speed: Speed): Speed {
    match speed
    case Slow => Medium
    case Medium => Fast
    case Fast => VeryFast
    case VeryFast => Slow
    case _ => Slow
  }

  /** Four cycles return to a cycled preset; any preset outside the cycle enters it at slow. */
  lemma CycleSpeedPeriod(speed: Speed)
    ensures SpeedMs(speed).Some? ==> CycleSpeed(CycleSpeed(CycleSpeed(CycleSpeed(speed)))) == speed
    ensures SpeedMs(speed).None? ==> CycleSpeed(speed) == Slow
    ensures SpeedMs(CycleSpeed(speed)).Some?
  {
  }

  /** The autoplay effect schedules a step only with autoplay on and nothing pausing or moving the carousel. */
  predicate AutoplayScheduled(s: State, opts: Options) {
    opts.autoplaySpeed > 0 && !s.isPaused && !s.isAutoPaused && !s.isTransitioning
  }

  /** The delay of that step: the prop for `custom`, the preset's duration otherwise (an undefined one is no delay). */
  function AutoplayDelay(s: State, opts: Options): (r: int)
    ensures s.currentSpeed != Custom ==> 0 <= r <= 8000
  {
    if s.currentSpeed == Custom then opts.autoplaySpeed
    else SpeedMs(s.currentSpeed).GetOr(0)
  }

  /**
    * A scheduled step waits the prop under `custom` and the preset's duration
    * under a preset that has one; only `ultraFast` and `blazing` give no delay,
    * and after cycling the speed every step waits at least 1.5 seconds.
    */
  lemma AutoplayDelaySpec(s: State, opts: Options)
    requires AutoplayScheduled(s, opts)
    ensures s.currentSpeed == Custom ==> AutoplayDelay(s, opts) == opts.autoplaySpeed
    ensures SpeedMs(s.currentSpeed).Some? ==> AutoplayDelay(s, opts) == SpeedMs(s.currentSpeed).value
    ensures AutoplayDelay(s, opts) > 0 <==> s.currentSpeed != UltraFast && s.currentSpeed != Blazing
    ensures AutoplayDelay(s.(currentSpeed := CycleSpeed(s.currentSpeed)), opts) >= 1500
  {
  }

  /** An autoplay step never auto-pauses, so autoplay keeps itself going. */
  lemma AutoplayNeverAutoPauses(s: State, opts: Options)
    requires AutoplayScheduled(s, opts) && opts.imageCount > 0 && 0 <= s.currentIndex
    requires Admits(s, NextIndex(s.currentIndex, opts.imageCount), opts.imageCount)
    ensures !Started(s, NextIndex(s.currentIndex, opts.imageCount), opts, true).isAutoPaused
    ensures AutoplayScheduled(Completed(Started(s, NextIndex(s.currentIndex, opts.imageCount), opts, true),
                                        NextIndex(s.currentIndex, opts.imageCount)), opts)
  {
  }

  // ---------------------------------------------------------------------------
  // The hook

  /** The keys the hook listens to. */
  datatype Key = ArrowLeft | ArrowRight | Escape | Space | OtherKey

  class Carousel {
    const opts: Options
    var state: State
    /** The index the running transition timer will settle on. */
    var pendingTarget: Option<int>
    /** Whether the auto-pause timer is running. */
    var autoPauseTimer: bool

    /** The state stays inside the carousel, and a transition runs exactly while its timer is pending. */
    ghost predicate Valid()
      reads this
    {
      (opts.imageCount > 0 ==> 0 <= state.currentIndex < opts.imageCount) &&
      (opts.imageCount <= 0 ==> state.currentIndex == 0) &&
      (state.isTransitioning <==> pendingTarget.Some?) &&
      (state.isTransitioning <==> state.direction.Some?) &&
      (pendingTarget.Some? ==> 0 <= pendingTarget.value < opts.imageCount)
    }

    constructor (opts: Options)
      ensures this.opts == opts && state == Initial && pendingTarget == None && !autoPauseTimer
      ensures Valid()
    {
      this.opts := opts;
      state := Initial;
      pendingTarget := None;
      autoPauseTimer := false;
    }

    /**
      * The outcome of `goTo(index, fromAutoplay)` called in state `s` with pending
      * target `p` and auto-pause timer `a`: a refused call changes nothing, an
      * admitted one starts the transition, its timer and possibly the auto-pause.
      */
    ghost predicate WentTo(s: State, p: Option<int>, a: bool, index: int, fromAutoplay: bool)
      reads this
    {
      if Admits(s, index, opts.imageCount) then
        state == Started(s, index, opts, fromAutoplay) && pendingTarget == Some(index) &&
        autoPauseTimer == (a || AutoPauses(opts, fromAutoplay))
      else
        state == s && pendingTarget == p && autoPauseTimer == a
    }

    /** Nothing observable changed since the state `s`, `p`, `a`. */
    ghost predicate Still(s: State, p: Option<int>, a: bool)
      reads this
    {
      state == s && pendingTarget == p && autoPauseTimer == a
    }

    /** `goTo(index, fromAutoplay)` */
    method GoTo(index: int, fromAutoplay: bool)
      requires Valid()
      modifies this
      ensures Valid()
      ensures WentTo(old(state), old(pendingTarget), old(autoPauseTimer), index, fromAutoplay)
    {
      if state.isTransitioning || index == state.currentIndex {
        return;
      }
      if index < 0 || index >= opts.imageCount {
        return;
      }
      var direction := if index > state.currentIndex then Forward else Backward;
      if !fromAutoplay && opts.autoPauseDuration != 0 && opts.autoplaySpeed != 0 {
        state := state.(isAutoPaused := true);
        autoPauseTimer := true;
      }
      state := state.(isTransitioning := true, direction := Some(direction));
      pendingTarget := Some(index);
    }

    /** The transition timer fires. */
    method CompleteTransition()
      requires Valid() && pendingTarget.Some?
      modifies this
      ensures Valid()
      ensures state == Completed(old(state), old(pendingTarget).value) && pendingTarget == None
      ensures autoPauseTimer == old(autoPauseTimer)
    {
      state := state.(currentIndex := pendingTarget.value, isTransitioning := false, direction := None);
      pendingTarget := None;
    }

    /** The auto-pause timer fires. */
    method EndAutoPause()
      requires Valid() && autoPauseTimer
      modifies this
      ensures Valid()
      ensures state == old(state).(isAutoPaused := false) && !autoPauseTimer && pendingTarget == old(pendingTarget)
    {
      state := state.(isAutoPaused := false);
      autoPauseTimer := false;
    }

    /** `next()`; an empty carousel does not move. */
    method Next()
      requires Valid()
      modifies this
      ensures Valid()
      ensures opts.imageCount > 0 ==>
        WentTo(old(state), old(pendingTarget), old(autoPauseTimer), NextIndex(old(state).currentIndex, opts.imageCount), false)
      ensures opts.imageCount <= 0 ==> Still(old(state), old(pendingTarget), old(autoPauseTimer))
    {
      if opts.imageCount > 0 {
        GoTo((state.currentIndex + 1) % opts.imageCount, false);
      }
    }

    /** `previous()` */
    method Previous()
      requires Valid()
      modifies this
      ensures Valid()
      ensures WentTo(old(state), old(pendingTarget), old(autoPauseTimer), PreviousIndex(old(state).currentIndex, opts.imageCount), false)
      ensures opts.imageCount <= 1 ==> Still(old(state), old(pendingTarget), old(autoPauseTimer))
    {
      var target := if state.currentIndex == 0 then opts.imageCount - 1 else state.currentIndex - 1;
      GoTo(target, false);
    }

    /** `pause()`: both pause flags and the auto-pause timer are settled. */
    method Pause()
      requires Valid()
      modifies this
      ensures Valid()
      ensures state == Paused(old(state)) && !autoPauseTimer && pendingTarget == old(pendingTarget)
    {
      state := state.(isPaused := true, isAutoPaused := false);
      autoPauseTimer := false;
    }

    /** `resume()` */
    method Resume()
      requires Valid()
      modifies this
      ensures Valid()
      ensures state == Resumed(old(state)) && !autoPauseTimer && pendingTarget == old(pendingTarget)
    {
      state := state.(isPaused := false, isAutoPaused := false);
      autoPauseTimer := false;
    }

    /** `toggleAutoplay()` */
    method ToggleAutoplay()
      requires Valid()
      modifies this
      ensures Valid()
      ensures state == Toggled(old(state)) && !autoPauseTimer && pendingTarget == old(pendingTarget)
    {
      if state.isPaused {
        Resume();
      } else {
        Pause();
      }
    }

    /** `setSpeed(speed)` */
    method SetSpeed(speed: Speed)
      requires Valid()
      modifies this
      ensures Valid()
      ensures Still(old(state).(currentSpeed := speed), old(pendingTarget), old(autoPauseTimer))
    {
      state := state.(currentSpeed := speed);
    }

    /** `cycleSpeed()` */
    method CycleSpeedPreset()
      requires Valid()
      modifies this
      ensures Valid()
      ensures Still(old(state).(currentSpeed := CycleSpeed(old(state).currentSpeed)), old(pendingTarget), old(autoPauseTimer))
    {
      SetSpeed(CycleSpeed(state.currentSpeed));
    }

    /** `toggleFullscreen()` in browser mode. */
    method ToggleFullscreen()
      requires Valid()
      modifies this
      ensures Valid()
      ensures Still(old(state).(isFullscreen := !old(state).isFullscreen), old(pendingTarget), old(autoPauseTimer))
    {
      state := state.(isFullscreen := !state.isFullscreen);
    }

    /**
      * The autoplay timer fires: a step forward that never auto-pauses. With no
      * images the step is skipped, as `next()` skips it (the corrected target).
      */
    method AutoplayTick()
      requires Valid() && AutoplayScheduled(state, opts)
      modifies this
      ensures Valid()
      ensures opts.imageCount > 0 ==>
        WentTo(old(state), old(pendingTarget), old(autoPauseTimer), NextIndex(old(state).currentIndex, opts.imageCount), true)
      ensures opts.imageCount <= 0 ==> Still(old(state), old(pendingTarget), old(autoPauseTimer))
      ensures !state.isAutoPaused
    {
      if opts.imageCount > 0 {
        GoTo((state.currentIndex + 1) % opts.imageCount, true);
      }
    }

    /** The keyboard handler in browser fullscreen mode. */
    method HandleKey(key: Key)
      requires Valid()
      modifies this
      ensures Valid()
      ensures key == ArrowLeft ==>
        WentTo(old(state), old(pendingTarget), old(autoPauseTimer), PreviousIndex(old(state).currentIndex, opts.imageCount), false)
      ensures key == ArrowRight && opts.imageCount > 0 ==>
        WentTo(old(state), old(pendingTarget), old(autoPauseTimer), NextIndex(old(state).currentIndex, opts.imageCount), false)
      ensures key == ArrowRight && opts.imageCount <= 0 ==> Still(old(state), old(pendingTarget), old(autoPauseTimer))
      ensures key == Escape && !old(state).isFullscreen ==> Still(old(state), old(pendingTarget), old(autoPauseTimer))
      ensures key == Escape && old(state).isFullscreen ==>
        Still(old(state).(isFullscreen := false), old(pendingTarget), old(autoPauseTimer))
      ensures key == Space ==> state == Toggled(old(state)) && pendingTarget == old(pendingTarget) && !autoPauseTimer
      ensures key == OtherKey ==> Still(old(state), old(pendingTarget), old(autoPauseTimer))
    {
      match key
      case ArrowLeft => Previous();
      case ArrowRight => Next();
      case Escape =>
        if state.isFullscreen {
          ToggleFullscreen();
        }
      case Space => ToggleAutoplay();
      case OtherKey =>
    }
  }

  // ---------------------------------------------------------------------------
  // As written, `next()` on an empty carousel

  /** A JavaScript number that may be `NaN`. */
  datatype Num = Finite(n: int) | NaN

  /** `(currentIndex + 1) % imageCount`: `NaN` when there are no images. */
  function NextTargetAsWritten(i: int, imageCount: int): Num
    requires 0 <= i
  {
    if imageCount == 0 then NaN else Finite((i + 1) % if imageCount < 0 then -imageCount else imageCount)
  }

  /** The guards of `goTo` as written: every comparison with `NaN` is false. */
  predicate AdmitsAsWritten(s: State, index: Num, imageCount: int) {
    match index
    case NaN => !s.isTransitioning
    case Finite(k) => Admits(s, k, imageCount)
  }

  /** With no images, `next()` and every autoplay step still start a transition, to index `NaN`. */
  lemma EmptyCarouselStartsTransition(s: State)
    requires !s.isTransitioning && 0 <= s.currentIndex
    ensures AdmitsAsWritten(s, NextTargetAsWritten(s.currentIndex, 0), 0)
  {
  }

  /** The corrected `next()` leaves an empty carousel alone, and a non-empty one only moves inside it. */
  lemma NextStaysInside(s: State, imageCount: int)
    requires 0 <= s.currentIndex
    ensures imageCount == 0 ==> forall k :: !Admits(s, k, imageCount)
    ensures imageCount > 0 ==> 0 <= NextIndex(s.currentIndex, imageCount) < imageCount
  {
  }
}
