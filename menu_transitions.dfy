/** The menu's open and exit transitions: each installs a per-frame update on
    the command window that moves it in from the left, or fades it in, and on
    exit moves it out or fades it out and then calls back to close the menu. */
module MenuTransitions {

  const FadeStep := 32
  const MaxOpacity := 255

  /** The host window's `opacity` setter, which clamps to 0..255. */
  function StoredOpacity(v: int): (r: int)
    ensures 0 <= r <= MaxOpacity
    ensures 0 <= v <= MaxOpacity ==> r == v
  {
    if v < 0 then 0 else if v > MaxOpacity then MaxOpacity else v
  }

  /** `Math.ceil(d / 4)` for a positive distance `d`. */
  function QuarterUp(d: int): (q: int)
    requires d > 0
    ensures 1 <= q <= d && 4 * q >= d && 4 * (q - 1) < d
  {
    (d + 3) / 4
  }

  /** One frame of the fade-in: 32 more, capped at 255. */
  function FadeIn(o: int): (r: int)
    requires 0 <= o <= MaxOpacity
    ensures r == if o + FadeStep < MaxOpacity then o + FadeStep else MaxOpacity
  {
    if o < MaxOpacity then
      var n := StoredOpacity(o + FadeStep);
      if n > MaxOpacity then MaxOpacity else n
    else o
  }

  /** One frame of the fade-out: the new opacity, and whether the callback
      runs. Because the setter clamps at 0, the branch for an opacity that
      went below 0 is never taken: the callback runs on the first frame that
      starts at 0, and on every frame after it. */
  function FadeOut(o: int): (r: (int, bool))
    requires 0 <= o <= MaxOpacity
    ensures r.1 <==> o == 0
    ensures r.0 == if o > FadeStep then o - FadeStep else 0
  {
    if o > 0 then
      var n := StoredOpacity(o - FadeStep);
      if n < 0 then (0, true) else (n, false)
    else (o, true)
  }

  /** One frame of the slide-in towards `target`: a quarter of the remaining
      distance, rounded up, and never past the target. */
  function SlideIn(x: int, target: int): (r: int)
    ensures x < target ==> x < r <= target
    ensures x >= target ==> r == x
  {
    if x < target then
      var n := x + QuarterUp(target - x);
      if n >= target then target else n
    else x
  }

  /** One frame of the slide-out towards `target`: the new position, and
      whether the callback runs (on arrival, and on every frame after it). */
  function SlideOut(x: int, target: int): (r: (int, bool))
    ensures x > target ==> target <= r.0 < x && (r.1 <==> r.0 == target)
    ensures x <= target ==> r == (x, true)
  {
    if x > target then
      var n := x - QuarterUp(x - target);
      if n <= target then (target, true) else (n, false)
    else (x, true)
  }

  /** The opacity after `k` frames of fading in. */
  function FadeInAfter(o: int, k: nat): (r: int)
    requires 0 <= o <= MaxOpacity
    ensures 0 <= r <= MaxOpacity
  {
    if k == 0 then o else FadeIn(FadeInAfter(o, k - 1))
  }

  /** Fading in for `k` frames adds 32 per frame until 255 is reached. */
  lemma {:induction false} FadeInAfterFrames(o: int, k: nat)
    requires 0 <= o <= MaxOpacity
    ensures FadeInAfter(o, k) == if o + FadeStep * k < MaxOpacity then o + FadeStep * k else MaxOpacity
  {
    if k > 0 {
      FadeInAfterFrames(o, k - 1);
    }
  }

  /** The opacity after `k` frames of fading out. */
  function FadeOutAfter(o: int, k: nat): (r: int)
    requires 0 <= o <= MaxOpacity
    ensures 0 <= r <= MaxOpacity
  {
    if k == 0 then o else FadeOut(FadeOutAfter(o, k - 1)).0
  }

  /** Fading out for `k` frames takes 32 per frame down to 0, and frame
      `k + 1` runs the callback exactly when 32 * k has used up the opacity. */
  lemma {:induction false} FadeOutAfterFrames(o: int, k: nat)
    requires 0 <= o <= MaxOpacity
    ensures FadeOutAfter(o, k) == if o > FadeStep * k then o - FadeStep * k else 0
    ensures FadeOut(FadeOutAfter(o, k)).1 <==> FadeStep * k >= o
  {
    if k > 0 {
      FadeOutAfterFrames(o, k - 1);
    }
  }

  /** The position after `k` frames of sliding in. */
  function SlideInAfter(x: int, target: int, k: nat): int {
    if k == 0 then x else SlideIn(SlideInAfter(x, target, k - 1), target)
  }

  /** Sliding in from the left never passes the target, and arrives within
      as many frames as the distance. */
  lemma {:induction false} SlideInArrives(x: int, target: int, k: nat)
    requires x <= target
    ensures x <= SlideInAfter(x, target, k) <= target
    ensures k >= target - x ==> SlideInAfter(x, target, k) == target
    ensures SlideInAfter(x, target, k) < target ==> SlideInAfter(x, target, k) >= x + k
  {
    if k > 0 {
      SlideInArrives(x, target, k - 1);
    }
  }

  /** The position after `k` frames of sliding out. */
  function SlideOutAfter(x: int, target: int, k: nat): int {
    if k == 0 then x else SlideOut(SlideOutAfter(x, target, k - 1), target).0
  }

  /** Sliding out never passes the target, arrives within as many frames as
      the distance, and the callback runs from then on. */
  lemma {:induction false} SlideOutArrives(x: int, target: int, k: nat)
    requires target <= x
    ensures target <= SlideOutAfter(x, target, k) <= x
    ensures k >= x - target ==> SlideOutAfter(x, target, k) == target && SlideOut(SlideOutAfter(x, target, k), target).1
    ensures SlideOutAfter(x, target, k) > target ==> SlideOutAfter(x, target, k) <= x - k
  {
    if k > 0 {
      SlideOutArrives(x, target, k - 1);
    }
  }

  /** `cfg.menuTransition`. */
  datatype TransitionKind = NoTransition | Slide | Zoom | Fade

  /** The `update` the transition installed on the command window. */
  datatype Updater = Plain | SlidingIn(target: int) | ZoomingIn | FadingIn
                   | SlidingOut(target: int) | ZoomingOut | FadingOut

  /** The menu's command window, as far as the transitions touch it. */
  class CommandWindow {
    var x: int
    var width: int
    var opacity: int
    var visible: bool
    var updater: Updater
    /** How many times the exit callback (closing the menu) has run. */
    var callbacks: nat

    constructor(x: int, width: int)
      ensures this.x == x && this.width == width && opacity == MaxOpacity && visible
      ensures updater == Plain && callbacks == 0
    {
      this.x := x;
      this.width := width;
      opacity := MaxOpacity;
      visible := true;
      updater := Plain;
      callbacks := 0;
    }

    predicate Valid()
      reads this
    {
      0 <= opacity <= MaxOpacity
    }

    /** `_applyMenuOpenTransition`, for a screen `boxWidth` wide. */
    method ApplyOpenTransition(kind: TransitionKind, boxWidth: int)
      requires Valid()
      modifies this
      ensures Valid()
      ensures width == old(width) && callbacks == old(callbacks)
      ensures kind == Slide ==> x == -width && opacity == 1 && visible && updater == SlidingIn((boxWidth - width) / 2)
      ensures kind == Zoom ==> x == old(x) && opacity == 1 && visible && updater == ZoomingIn
      ensures kind == Fade ==> x == old(x) && opacity == 0 && visible && updater == FadingIn
      ensures kind == NoTransition ==> x == old(x) && opacity == old(opacity) && visible == old(visible) && updater == old(updater)
    {
      match kind {
        case Slide =>
          x := -width;
          opacity := StoredOpacity(1);
          visible := true;
          updater := SlidingIn((boxWidth - width) / 2);
        case Zoom =>
          opacity := StoredOpacity(1);
          visible := true;
          updater := ZoomingIn;
        case Fade =>
          opacity := StoredOpacity(0);
          visible := true;
          updater := FadingIn;
        case NoTransition =>
      }
    }

    /** `_applyMenuExitTransition(callback)`: with no transition the callback
        runs at once. */
    method ApplyExitTransition(kind: TransitionKind)
      modifies this`updater, this`callbacks
      ensures kind == NoTransition ==> updater == old(updater) && callbacks == old(callbacks) + 1
      ensures kind == Slide ==> updater == SlidingOut(-width) && callbacks == old(callbacks)
      ensures kind == Zoom ==> updater == ZoomingOut && callbacks == old(callbacks)
      ensures kind == Fade ==> updater == FadingOut && callbacks == old(callbacks)
    {
      match kind {
        case Slide => updater := SlidingOut(-width);
        case Zoom => updater := ZoomingOut;
        case Fade => updater := FadingOut;
        case NoTransition => callbacks := callbacks + 1;
      }
    }

    /** One frame of the installed `update`. */
    method Update()
      requires Valid()
      modifies this`x, this`opacity, this`callbacks
      ensures Valid()
      ensures match updater
        case Plain => unchanged(this)
        case ZoomingIn => unchanged(this)
        case ZoomingOut => unchanged(this)
        case SlidingIn(t) => x == SlideIn(old(x), t) && opacity == old(opacity) && callbacks == old(callbacks)
        case FadingIn => opacity == FadeIn(old(opacity)) && x == old(x) && callbacks == old(callbacks)
        case SlidingOut(t) =>
          && x == SlideOut(old(x), t).0 && opacity == old(opacity)
          && callbacks == old(callbacks) + if SlideOut(old(x), t).1 then 1 else 0
        case FadingOut =>
          && opacity == FadeOut(old(opacity)).0 && x == old(x)
          && callbacks == old(callbacks) + if FadeOut(old(opacity)).1 then 1 else 0
    {
      match updater {
        case Plain =>
        case ZoomingIn =>
        case ZoomingOut =>
        case SlidingIn(t) =>
          if x < t {
            x := x + QuarterUp(t - x);
            if x >= t {
              x := t;
            }
          }
        case FadingIn =>
          if opacity < MaxOpacity {
            opacity := StoredOpacity(opacity + FadeStep);
            if opacity > MaxOpacity {
              // the setter has already capped it
              assert false;
            }
          }
        case SlidingOut(t) =>
          if x > t {
            x := x - QuarterUp(x - t);
            if x <= t {
              x := t;
              callbacks := callbacks + 1;
            }
          } else {
            callbacks := callbacks + 1;
          }
        case FadingOut =>
          if opacity > 0 {
            opacity := StoredOpacity(opacity - FadeStep);
            if opacity < 0 {
              // the setter has already floored it at 0
              assert false;
            }
          } else {
            callbacks := callbacks + 1;
          }
      }
    }
  }
}
