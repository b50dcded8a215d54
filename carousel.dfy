/** The project carousel of the portfolio page (main.js): where a prev/next click scrolls
    to, the eased smooth scroll that moves the container frame by frame, and when the two
    navigation buttons are shown. The scroll container is a class holding its three scroll
    metrics and the two buttons' visibility; the timestamps `requestAnimationFrame` hands
    to each frame are a parameter. */
module Carousel {
  import opened Js

  /** The length of a smooth scroll, in milliseconds. */
  const Duration: real := 500.0

  // ---------------------------------------------------------------------------
  // scroll targets

  /** `getNextScrollPosition(direction)`: one visible width forward, or to the very end
      when less than a visible width remains; any direction other than `'next'` goes one
      visible width back, never before the start. */
  function NextScrollPosition(direction: string, scrollLeft: real, scrollWidth: real, clientWidth: real): (p: real)
    ensures direction != "next" ==> 0.0 <= p && (p == 0.0 <==> scrollLeft <= clientWidth)
    ensures direction != "next" && 0.0 <= clientWidth && 0.0 <= scrollLeft ==> p <= scrollLeft
    ensures direction == "next" ==>
              (p == scrollWidth - clientWidth <==> scrollWidth - (scrollLeft + clientWidth) <= clientWidth)
    ensures direction == "next" && 0.0 <= clientWidth && scrollLeft <= scrollWidth - clientWidth ==>
              scrollLeft <= p <= scrollWidth - clientWidth
  {
    if direction == "next" then
      var remainingScroll := scrollWidth - (scrollLeft + clientWidth);
      if remainingScroll < clientWidth then scrollWidth - clientWidth else scrollLeft + clientWidth
    else
      Max(0.0, scrollLeft - clientWidth)
  }

  /** 'prev' undoes a 'next' that did not have to stop at the end. */
  lemma PrevUndoesNext(scrollLeft: real, scrollWidth: real, clientWidth: real)
    requires 0.0 <= scrollLeft
    requires scrollWidth - (scrollLeft + clientWidth) >= clientWidth
    ensures NextScrollPosition("prev", NextScrollPosition("next", scrollLeft, scrollWidth, clientWidth),
                               scrollWidth, clientWidth) == scrollLeft
  {
  }

  /** 'next' undoes a 'prev' that did not have to stop at the start, from any position
      that is not past the end. */
  lemma NextUndoesPrev(scrollLeft: real, scrollWidth: real, clientWidth: real)
    requires clientWidth <= scrollLeft <= scrollWidth - clientWidth
    ensures NextScrollPosition("next", NextScrollPosition("prev", scrollLeft, scrollWidth, clientWidth),
                               scrollWidth, clientWidth) == scrollLeft
  {
  }

  // ---------------------------------------------------------------------------
  // easing and progress

  /** The ease-in-out curve: quadratic acceleration up to the midpoint, then the mirrored
      deceleration. */
  function Easing(t: real): (e: real)
    ensures 0.0 <= t <= 1.0 ==> 0.0 <= e <= 1.0
    ensures 0.0 <= t < 0.5 ==> e < 0.5
    ensures 0.5 <= t <= 1.0 ==> 0.5 <= e
  {
    if t < 0.5 then
      if 0.0 <= t then SquareBelowHalf(t); 2.0 * t * t else 2.0 * t * t
    else
      TopHalf(t);
      -1.0 + (4.0 - 2.0 * t) * t
  }

  lemma SquareBelowHalf(t: real)
    requires 0.0 <= t < 0.5
    ensures 2.0 * t * t < 0.5
  {
    assert t * t <= 0.5 * t;
  }

  /** On the second half the curve is `1 - 2(1 - t)^2`, which stays in [0.5, 1]. */
  lemma TopHalf(t: real)
    requires 0.5 <= t
    ensures -1.0 + (4.0 - 2.0 * t) * t == 1.0 - 2.0 * (1.0 - t) * (1.0 - t)
    ensures t <= 1.0 ==> 0.5 <= -1.0 + (4.0 - 2.0 * t) * t <= 1.0
  {
    var u := 1.0 - t;
    assert (4.0 - 2.0 * t) * t == 4.0 * t - 2.0 * t * t;
    assert 2.0 * u * u == 2.0 - 4.0 * t + 2.0 * t * t;
    if t <= 1.0 {
      assert 0.0 <= u <= 0.5;
      assert u * u <= 0.5 * u;
    }
  }

  /** The curve passes through its start, its midpoint and its end. */
  lemma EasingFixedPoints()
    ensures Easing(0.0) == 0.0 && Easing(0.5) == 0.5 && Easing(1.0) == 1.0
  {
  }

  /** The second half mirrors the first: the curve is point-symmetric about (0.5, 0.5). */
  lemma EasingSymmetric(t: real)
    requires 0.0 <= t <= 1.0
    ensures Easing(1.0 - t) == 1.0 - Easing(t)
  {
    if t < 0.5 {
      TopHalf(1.0 - t);
      assert 1.0 - (1.0 - t) == t;
    } else if t > 0.5 {
      TopHalf(t);
      assert 1.0 - t < 0.5;
    }
  }

  /** The curve never goes back on [0, 1]. */
  lemma EasingMonotone(t1: real, t2: real)
    requires 0.0 <= t1 <= t2 <= 1.0
    ensures Easing(t1) <= Easing(t2)
  {
    if t2 < 0.5 {
      SquareMonotone(t1, t2);
    } else if 0.5 <= t1 {
      TopHalf(t1);
      TopHalf(t2);
      SquareMonotone(1.0 - t2, 1.0 - t1);
    }
  }

  lemma SquareMonotone(a: real, b: real)
    requires 0.0 <= a <= b
    ensures a * a <= b * b
  {
    assert a * a <= a * b;
    assert a * b <= b * b;
  }

  /** `Math.min(elapsed / duration, 1)`: the share of the scroll done after `elapsed`
      milliseconds, which is complete exactly from the full duration on. */
  function Progress(elapsed: real): (p: real)
    ensures p <= 1.0
    ensures p == 1.0 <==> elapsed >= Duration
    ensures 0.0 <= elapsed ==> 0.0 <= p
  {
    Min(elapsed / Duration, 1.0)
  }

  /** Where a frame at time `now` puts the container: `start + distance * easing(progress)`. */
  function FramePosition(start: real, target: real, startTime: real, now: real): real
  {
    Lerp(start, target, Easing(Progress(now - startTime)))
  }

  /** A frame that comes after the scroll began puts the container between its start and
      the target. */
  lemma FramePositionBetween(start: real, target: real, startTime: real, now: real)
    requires startTime <= now
    ensures var x := FramePosition(start, target, startTime, now);
            (start <= target ==> start <= x <= target) && (target <= start ==> target <= x <= start)
  {
    var p := Progress(now - startTime);
    assert 0.0 <= p <= 1.0;
    assert 0.0 <= Easing(p) <= 1.0;
  }

  lemma FramePositionIs(start: real, target: real, startTime: real, now: real)
    ensures FramePosition(start, target, startTime, now)
            == start + (target - start) * Easing(Progress(now - startTime))
  {
  }

  /** A frame at or after the full duration puts the container exactly on the target. */
  lemma FrameAtEnd(start: real, target: real, startTime: real, now: real)
    requires now - startTime >= Duration
    ensures FramePosition(start, target, startTime, now) == target
  {
    assert Easing(Progress(now - startTime)) == 1.0;
  }

  /** Later frames never move the container back towards the start, for a forward
      ('next') scroll and for a backward ('prev') one alike. */
  lemma FramePositionMonotone(start: real, target: real, startTime: real, now1: real, now2: real)
    requires startTime <= now1 <= now2
    ensures start <= target ==>
              FramePosition(start, target, startTime, now1) <= FramePosition(start, target, startTime, now2)
    ensures target <= start ==>
              FramePosition(start, target, startTime, now1) >= FramePosition(start, target, startTime, now2)
  {
    var p1, p2 := Progress(now1 - startTime), Progress(now2 - startTime);
    ProgressMonotone(now1 - startTime, now2 - startTime);
    EasingMonotone(p1, p2);
    var e1, e2 := Easing(p1), Easing(p2);
    assert e1 <= e2;
    LerpMonotone(start, target, e1, e2);
  }

  lemma ProgressMonotone(x: real, y: real)
    requires 0.0 <= x <= y
    ensures Progress(x) <= Progress(y)
  {
    assert x / Duration <= y / Duration;
  }

  /** Moving `t` forward moves `Lerp(a, b, t)` towards `b`. */
  lemma LerpMonotone(a: real, b: real, t1: real, t2: real)
    requires t1 <= t2
    ensures a <= b ==> Lerp(a, b, t1) <= Lerp(a, b, t2)
    ensures b <= a ==> Lerp(a, b, t1) >= Lerp(a, b, t2)
  {
    var step := t2 - t1;
    assert Lerp(a, b, t2) - Lerp(a, b, t1) == (b - a) * step;
    if a <= b {
      MulNonNegative(b - a, step);
    } else {
      MulNonNegative(a - b, step);
      NegMul(a - b, step);
    }
  }

  lemma MulNonNegative(x: real, y: real)
    requires 0.0 <= x && 0.0 <= y
    ensures 0.0 <= x * y
  {
  }

  // ---------------------------------------------------------------------------
  // the animation over a run of frames

  /** The first frame at or after `from` whose progress is complete, or `|frames|`. */
  function FinalFrame(startTime: real, frames: seq<real>, from: nat): (k: nat)
    requires from <= |frames|
    ensures from <= k <= |frames|
    decreases |frames| - from
  {
    if from == |frames| then |frames|
    else if Progress(frames[from] - startTime) == 1.0 then from
    else FinalFrame(startTime, frames, from + 1)
  }

  lemma {:induction false} FinalFrameIsFirst(startTime: real, frames: seq<real>, from: nat)
    requires from <= |frames|
    ensures var k := FinalFrame(startTime, frames, from);
            (k < |frames| ==> Progress(frames[k] - startTime) == 1.0)
            && forall j :: from <= j < k ==> Progress(frames[j] - startTime) < 1.0
    decreases |frames| - from
  {
    if from < |frames| && Progress(frames[from] - startTime) != 1.0 {
      FinalFrameIsFirst(startTime, frames, from + 1);
    }
  }

  /** The frame that ends the animation is determined by the frames' progress: any frame
      that completes after only incomplete ones is the final one. */
  lemma FinalFrameUnique(startTime: real, frames: seq<real>, k: nat)
    requires k <= |frames|
    requires k < |frames| ==> Progress(frames[k] - startTime) == 1.0
    requires forall j :: 0 <= j < k ==> Progress(frames[j] - startTime) < 1.0
    ensures FinalFrame(startTime, frames, 0) == k
  {
    FinalFrameIsFirst(startTime, frames, 0);
  }

  /** The position after the frames that run and how many run: every frame up to and
      including the first complete one; all of them if none completes. */
  function AnimationEnd(start: real, target: real, startTime: real, frames: seq<real>): (real, nat)
  {
    var k := FinalFrame(startTime, frames, 0);
    var ran := if k < |frames| then k + 1 else |frames|;
    (if ran == 0 then start else FramePosition(start, target, startTime, frames[ran - 1]), ran)
  }

  /** Once a frame reaches the full duration the animation stops there, on the target. */
  lemma AnimationEndsOnTarget(start: real, target: real, startTime: real, frames: seq<real>, k: nat)
    requires k < |frames| && frames[k] - startTime >= Duration
    requires forall j :: 0 <= j < k ==> frames[j] - startTime < Duration
    ensures AnimationEnd(start, target, startTime, frames) == (target, k + 1)
  {
    FinalFrameUnique(startTime, frames, k);
    FrameAtEnd(start, target, startTime, frames[k]);
  }

  /** Frames that come after the scroll began never carry the container outside the span
      between its start and the target. */
  lemma AnimationStaysBetween(start: real, target: real, startTime: real, frames: seq<real>)
    requires forall j :: 0 <= j < |frames| ==> startTime <= frames[j]
    ensures var x := AnimationEnd(start, target, startTime, frames).0;
            (start <= target ==> start <= x <= target) && (target <= start ==> target <= x <= start)
  {
    var ran := AnimationEnd(start, target, startTime, frames).1;
    if ran > 0 {
      FramePositionBetween(start, target, startTime, frames[ran - 1]);
    }
  }

  // ---------------------------------------------------------------------------
  // button visibility

  /** The prev button shows once the container has scrolled at all. */
  predicate HasScrolledRight(scrollLeft: real)
  {
    scrollLeft > 0.0
  }

  /** The next button shows while the rounded-up right edge is short of the content. */
  predicate CanScrollMore(scrollLeft: real, scrollWidth: real, clientWidth: real)
  {
    Ceil(scrollLeft + clientWidth) as real < scrollWidth
  }

  /** For a whole-pixel content width, the next button shows exactly while at least one
      pixel of content lies right of the visible area. */
  lemma CanScrollMoreIffPixelLeft(scrollLeft: real, scrollWidth: int, clientWidth: real)
    ensures CanScrollMore(scrollLeft, scrollWidth as real, clientWidth)
            <==> scrollLeft + clientWidth <= (scrollWidth - 1) as real
  {
    var x, c, n := scrollLeft + clientWidth, Ceil(scrollLeft + clientWidth), scrollWidth - 1;
    assert c as real < scrollWidth as real <==> c <= n;
    if x <= n as real {
      assert c as real < (n + 1) as real;
    }
    if c <= n {
      assert x <= c as real <= n as real;
    }
  }

  /** Scrolled to the end target of a 'next' click, the next button hides. */
  lemma AtEndNextHidden(scrollWidth: int, clientWidth: real)
    ensures !CanScrollMore(scrollWidth as real - clientWidth, scrollWidth as real, clientWidth)
  {
    CanScrollMoreIffPixelLeft(scrollWidth as real - clientWidth, scrollWidth, clientWidth);
  }

  /** The check made once at load, `scrollWidth > clientWidth`, agrees with the scroll
      handler's test at the start position for whole-pixel widths. */
  lemma InitialCheckAgrees(scrollWidth: int, clientWidth: int)
    ensures CanScrollMore(0.0, scrollWidth as real, clientWidth as real) <==> scrollWidth > clientWidth
  {
    CanScrollMoreIffPixelLeft(0.0, scrollWidth, clientWidth as real);
  }

  // ---------------------------------------------------------------------------
  // the container

  /** The `.projects-scroll` element and the visibility of its two buttons. */
  class ScrollContainer {
    var scrollLeft: real
    var scrollWidth: real
    var clientWidth: real
    var prevVisible: bool
    var nextVisible: bool

    /** The page after load. The position and the prev button's visibility come from the
        markup and the browser (`prevVisible0`, `scrollLeft0`); the load-time check only
        toggles the next button, shown when the content is wider than the container. */
    constructor(scrollLeft0: real, scrollWidth0: real, clientWidth0: real, prevVisible0: bool)
      ensures scrollLeft == scrollLeft0 && scrollWidth == scrollWidth0 && clientWidth == clientWidth0
      ensures prevVisible == prevVisible0 && nextVisible == (scrollWidth0 > clientWidth0)
    {
      scrollLeft := scrollLeft0;
      scrollWidth := scrollWidth0;
      clientWidth := clientWidth0;
      prevVisible := prevVisible0;
      nextVisible := scrollWidth0 > clientWidth0;
    }

    /** The `scroll` listener: both buttons follow the current position. */
    method OnScroll()
      modifies this
      ensures prevVisible == HasScrolledRight(scrollLeft)
      ensures nextVisible == CanScrollMore(scrollLeft, scrollWidth, clientWidth)
      ensures scrollLeft == old(scrollLeft) && scrollWidth == old(scrollWidth) && clientWidth == old(clientWidth)
    {
      var hasScrolledRight := scrollLeft > 0.0;
      var canScrollMore := Ceil(scrollLeft + clientWidth) as real < scrollWidth;
      prevVisible := hasScrolledRight;
      nextVisible := canScrollMore;
    }

    /** `smoothScroll(target)` started at `startTime`, run over the given frame timestamps:
        each frame places the container by the eased progress, and the frames stop after
        the first one with complete progress. `ran` is how many frames ran. */
    method SmoothScroll(target: real, startTime: real, frames: seq<real>) returns (ran: nat)
      modifies this
      ensures (scrollLeft, ran) == AnimationEnd(old(scrollLeft), target, startTime, frames)
      ensures scrollWidth == old(scrollWidth) && clientWidth == old(clientWidth)
      ensures prevVisible == old(prevVisible) && nextVisible == old(nextVisible)
    {
      var start := scrollLeft;
      var distance := target - start;
      var i := 0;
      var done := false;
      while i < |frames| && !done
        invariant i <= |frames|
        invariant done ==> 0 < i && Progress(frames[i - 1] - startTime) == 1.0
        invariant forall j :: 0 <= j < i && !(done && j == i - 1) ==> Progress(frames[j] - startTime) < 1.0
        invariant scrollLeft == if i == 0 then start else FramePosition(start, target, startTime, frames[i - 1])
        invariant scrollWidth == old(scrollWidth) && clientWidth == old(clientWidth)
        invariant prevVisible == old(prevVisible) && nextVisible == old(nextVisible)
      {
        var elapsed := frames[i] - startTime;
        var progress := Progress(elapsed);
        var easedProgress := Easing(progress);
        scrollLeft := start + distance * easedProgress;
        FramePositionIs(start, target, startTime, frames[i]);
        done := !(progress < 1.0);
        i := i + 1;
      }
      if done {
        FinalFrameUnique(startTime, frames, i - 1);
      } else {
        FinalFrameUnique(startTime, frames, |frames|);
      }
      ran := i;
    }

    /** A click on the prev or next button: scroll smoothly to `getNextScrollPosition`. */
    method Click(direction: string, startTime: real, frames: seq<real>) returns (ran: nat)
      modifies this
      ensures (scrollLeft, ran) == AnimationEnd(old(scrollLeft),
                                                NextScrollPosition(direction, old(scrollLeft), scrollWidth, clientWidth),
                                                startTime, frames)
      ensures scrollWidth == old(scrollWidth) && clientWidth == old(clientWidth)
      ensures prevVisible == old(prevVisible) && nextVisible == old(nextVisible)
    {
      var targetPosition := NextScrollPosition(direction, scrollLeft, scrollWidth, clientWidth);
      ran := SmoothScroll(targetPosition, startTime, frames);
    }
  }
}
