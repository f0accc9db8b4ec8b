/** The auto-scrolling technology carousel (src/components/TechnologyCarousel.tsx):
    a strip holding the technologies three times drifts left every animation
    frame, drifts right faster while the pointer hovers its right half, holds
    while the pointer hovers its left half, and is wrapped back by one strip
    width whenever it leaves `(-W, 0]`. */
module AutoCarousel {
  import opened Wrappers

  datatype Technology = Technology(name: string, icon: string)

  /** Pixels per millisecond when not hovered (leftwards). */
  const Speed: real := 0.03
  /** Pixels per millisecond while hovering the right half (rightwards). */
  const HoverSpeed: real := 0.05
  /** Width of one rendered item in pixels. */
  const ItemWidth: real := 120.0

  /** `totalWidth`: the width W of one copy of the list. */
  function TotalWidth(count: nat): (r: real)
    ensures r >= 0.0
    ensures r > 0.0 <==> count > 0
  {
    count as real * ItemWidth
  }

  /** The change of the offset over `dt` milliseconds before wrapping: left at
      `Speed` when not hovered, right at `HoverSpeed` when hovering the right
      half, none when hovering the left half. */
  function Drift(hovered: bool, hoveringRight: bool, dt: real): (r: real)
    ensures !hovered ==> r == -Speed * dt
    ensures hovered && hoveringRight ==> r == HoverSpeed * dt
    ensures hovered && !hoveringRight ==> r == 0.0
    ensures dt >= 0.0 ==> (r < 0.0 ==> !hovered) && (r > 0.0 ==> hovered && hoveringRight)
  {
    if hovered && hoveringRight then HoverSpeed * dt
    else if !hovered then -Speed * dt
    else 0.0
  }

  /** The two sequential adjustments: add W at or below `-W`, then subtract W
      above 0. The result differs from `x` by at most one W, so the offset is
      kept modulo W; it lands in `(-W, 0]` from anywhere in `(-2W, W]`, and an
      offset already in `(-W, 0]` is left alone. */
  function Wrap(x: real, w: real): (r: real)
    ensures r == x || r == x + w || r == x - w
    ensures w > 0.0 && -2.0 * w < x <= w ==> -w < r <= 0.0
    ensures w >= 0.0 && -w < x <= 0.0 ==> r == x
  {
    var a := if x <= -w then x + w else x;
    if a > 0.0 then a - w else a
  }

  /** Once wrapped, wrapping again changes nothing. */
  lemma WrapIdempotent(x: real, w: real)
    requires w > 0.0 && -2.0 * w < x <= w
    ensures Wrap(Wrap(x, w), w) == Wrap(x, w)
  {
  }

  /** One frame of the `setTranslateX` updater: the drifted offset moved by a
      multiple of W (zero or one strip width); hovering the left half holds an
      in-range offset still. */
  function Frame(prev: real, hovered: bool, hoveringRight: bool, dt: real, w: real): (r: real)
    ensures var d := r - (prev + Drift(hovered, hoveringRight, dt)); d == 0.0 || d == w || d == -w
    ensures hovered && !hoveringRight && w >= 0.0 && -w < prev <= 0.0 ==> r == prev
  {
    Wrap(prev + Drift(hovered, hoveringRight, dt), w)
  }

  /** With W > 0, an offset in `(-W, 0]` and a drift smaller than W, one frame
      keeps the offset in `(-W, 0]`, and it moves by the drift plus a multiple
      of W (zero or one strip width). */
  lemma FrameInRange(prev: real, hovered: bool, hoveringRight: bool, dt: real, w: real)
    requires w > 0.0 && -w < prev <= 0.0
    requires -w < Drift(hovered, hoveringRight, dt) < w
    ensures -w < Frame(prev, hovered, hoveringRight, dt, w) <= 0.0
    ensures var d := Frame(prev, hovered, hoveringRight, dt, w) - (prev + Drift(hovered, hoveringRight, dt));
      d == 0.0 || d == w || d == -w
  {
  }

  /** A frame shorter than `W / HoverSpeed` milliseconds (2400 ms per
      technology) drifts by less than W, whatever the hover state. */
  lemma ShortFrameDriftBound(hovered: bool, hoveringRight: bool, dt: real, w: real)
    requires 0.0 <= dt && HoverSpeed * dt < w
    ensures -w < Drift(hovered, hoveringRight, dt) < w
  {
  }

  /** When one frame drifts by less than W, state by state: a not-hovered frame
      moving less than W at `Speed`, a right-half frame moving less than W at
      `HoverSpeed`, and a left-half frame of any length (as long as W > 0). */
  lemma DriftBelowWidth(hovered: bool, hoveringRight: bool, dt: real, w: real)
    ensures -w < Drift(hovered, hoveringRight, dt) < w <==>
      if !hovered then -w < Speed * dt < w
      else if hoveringRight then -w < HoverSpeed * dt < w
      else w > 0.0
  {
  }

  /** Some bound on the drift is needed: the wrap adds W only once, so one
      not-hovered frame of 10 s with a single technology (W = 120) moves the
      offset from 0 to -300 and the wrap brings it only to -180, outside
      `(-W, 0]`. */
  lemma LongFrameLeavesRange()
    ensures Frame(0.0, false, false, 10000.0, TotalWidth(1)) == -180.0
    ensures Frame(0.0, false, false, 10000.0, TotalWidth(1)) <= -TotalWidth(1)
  {
  }

  /** One animation frame: hover flags at the time and the time elapsed. */
  datatype Tick = Tick(hovered: bool, hoveringRight: bool, dt: real)

  /** The offset after a sequence of frames, first to last. */
  function Run(x: real, ticks: seq<Tick>, w: real): real
    decreases |ticks|
  {
    if ticks == [] then x
    else Run(Frame(x, ticks[0].hovered, ticks[0].hoveringRight, ticks[0].dt, w), ticks[1..], w)
  }

  /** Frames that each drift by less than W keep the offset in `(-W, 0]`
      forever, starting from the initial offset 0 or any in-range one; by
      `ShortFrameDriftBound` this covers every run of frames shorter than
      `W / HoverSpeed` milliseconds. */
  lemma {:induction false} RunInRange(x: real, ticks: seq<Tick>, w: real)
    requires w > 0.0 && -w < x <= 0.0
    requires forall i :: 0 <= i < |ticks| ==> -w < Drift(ticks[i].hovered, ticks[i].hoveringRight, ticks[i].dt) < w
    ensures -w < Run(x, ticks, w) <= 0.0
    decreases |ticks|
  {
    if ticks != [] {
      var t := ticks[0];
      FrameInRange(x, t.hovered, t.hoveringRight, t.dt, w);
      RunInRange(Frame(x, t.hovered, t.hoveringRight, t.dt, w), ticks[1..], w);
    }
  }

  /** `loopedTechnologies`: the list three times over. */
  function Looped(technologies: seq<Technology>): (r: seq<Technology>)
    ensures |r| == 3 * |technologies|
  {
    technologies + technologies + technologies
  }

  /** Entry `k` of the rendered strip is technology `k mod n`. */
  lemma LoopedAt(technologies: seq<Technology>, k: int)
    requires 0 <= k < |Looped(technologies)|
    ensures Looped(technologies)[k] == technologies[k % |technologies|]
  {
  }

  /** The measured box of the carousel element. */
  datatype Rect = Rect(left: real, clientWidth: real)

  /** `handleMouseMove`'s side test: the pointer, measured from the element's
      left edge, is past half the element's width, i.e. right of its midpoint. */
  predicate OnRightHalf(clientX: real, rect: Rect)
    ensures OnRightHalf(clientX, rect) <==> clientX > rect.left + rect.clientWidth / 2.0
  {
    clientX - rect.left > rect.clientWidth / 2.0
  }

  /** The component's state. */
  class Scroller {
    const technologies: seq<Technology>
    var translateX: real
    var hovered: bool
    var hoveringRight: bool
    var lastTime: real

    /** The offset lies in `(-W, 0]` (trivially true of no technology). */
    predicate Valid()
      reads this
    {
      var w := TotalWidth(|technologies|);
      w > 0.0 ==> -w < translateX <= 0.0
    }

    /** Mounting: offset 0, not hovered, and the effect stamps the start time. */
    constructor (techs: seq<Technology>, now: real)
      ensures Valid()
      ensures technologies == techs && translateX == 0.0
      ensures !hovered && !hoveringRight && lastTime == now
    {
      technologies := techs;
      translateX := 0.0;
      hovered := false;
      hoveringRight := false;
      lastTime := now;
    }

    /** The effect re-running after `animate` changed (a hover flag changed):
        the time stamp is reset to `performance.now()`. */
    method Restart(now: real)
      modifies this`lastTime
      ensures lastTime == now
    {
      lastTime := now;
    }

    /** `animate(time)`: one frame of the updater, then the time stamp. The
        offset stays in range whenever the frame drifts by less than W: any
        left-half frame, and any frame shorter than `W / HoverSpeed` ms. */
    method Animate(time: real)
      modifies this`translateX, this`lastTime
      ensures translateX == Frame(old(translateX), hovered, hoveringRight, time - old(lastTime), TotalWidth(|technologies|))
      ensures lastTime == time
      ensures old(Valid()) && -TotalWidth(|technologies|) < Drift(hovered, hoveringRight, time - old(lastTime)) < TotalWidth(|technologies|) ==> Valid()
    {
      var dt := time - lastTime;
      var w := TotalWidth(|technologies|);
      var next := translateX;
      if hovered && hoveringRight {
        next := next + HoverSpeed * dt;
      } else if !hovered {
        next := next - Speed * dt;
      }
      if next <= -w {
        next := next + w;
      }
      if next > 0.0 {
        next := next - w;
      }
      if w > 0.0 && -w < translateX <= 0.0 && -w < Drift(hovered, hoveringRight, dt) < w {
        FrameInRange(translateX, hovered, hoveringRight, dt, w);
      }
      translateX := next;
      lastTime := time;
    }

    /** `onMouseEnter`. */
    method MouseEnter()
      modifies this`hovered
      ensures hovered
    {
      hovered := true;
    }

    /** `onMouseLeave`: both hover flags are cleared. */
    method MouseLeave()
      modifies this`hovered, this`hoveringRight
      ensures !hovered && !hoveringRight
    {
      hovered := false;
      hoveringRight := false;
    }

    /** `handleMouseMove`: when the element is mounted (`rect` present), the
        right-half flag follows the pointer; otherwise nothing changes. */
    method MouseMove(clientX: real, rect: Option<Rect>)
      modifies this`hoveringRight
      ensures rect.Some? ==> (hoveringRight <==> OnRightHalf(clientX, rect.value))
      ensures rect.None? ==> hoveringRight == old(hoveringRight)
    {
      if rect.Some? {
        var mouseX := clientX - rect.value.left;
        hoveringRight := mouseX > rect.value.clientWidth / 2.0;
      }
    }
  }
}
