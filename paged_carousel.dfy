/** The button-paged technology carousel (portfolio/src/components/TechnologyCarousel.tsx):
    four technologies are visible at a time and two buttons move the first
    visible position by one. */
module PagedCarousel {

  /** `technologiesPerView`. */
  const PerView: int := 4

  /** The largest first-visible position the "next" handler aims for; negative
      when there are fewer than four technologies. */
  function LastPage(count: nat): int {
    count - PerView
  }

  /** `handlePrevClick`: `Math.max(0, index - 1)`. */
  function PrevPage(index: int): (r: int)
    ensures r >= 0 && r >= index - 1
    ensures r == 0 || r == index - 1
  {
    if index - 1 > 0 then index - 1 else 0
  }

  /** `handleNextClick`: `Math.min(count - 4, index + 1)`. */
  function NextPage(count: nat, index: int): (r: int)
    ensures r <= LastPage(count) && r <= index + 1
    ensures r == LastPage(count) || r == index + 1
  {
    if LastPage(count) < index + 1 then LastPage(count) else index + 1
  }

  /** The "previous" button is disabled at position 0, which is exactly where
      its handler would leave the position as it is. */
  predicate PrevDisabled(index: int)
    ensures PrevDisabled(index) <==> PrevPage(index) == index
  {
    index == 0
  }

  /** The "next" button is disabled from position `count - 4` on, which is
      exactly where its handler would not move the position forward (with
      fewer than four technologies it would even move it below 0). */
  predicate NextDisabled(count: nat, index: int)
    ensures NextDisabled(count, index) <==> NextPage(count, index) <= index
  {
    index >= LastPage(count)
  }

  /** The track is shifted left by `index * (100 / 4)` percent. */
  function TranslatePercent(index: int): (r: real)
    ensures r == 25.0 * index as real
    ensures r == 0.0 <==> PrevDisabled(index)
  {
    index as real * (100.0 / PerView as real)
  }

  /** The positions the carousel can be in: `[0, max(0, count - 4)]`. */
  predicate InRange(count: nat, index: int) {
    0 <= index && (index == 0 || index <= LastPage(count))
  }

  /** With at least four technologies, "next" is disabled exactly when
      clicking it would change nothing, at `count - 4` ("previous" is the same
      at 0 for every count, see `PrevDisabled`); with fewer than four
      technologies "next" is disabled from the start. */
  lemma DisabledIffNoOp(count: nat, index: int)
    requires InRange(count, index)
    ensures count >= PerView ==> (NextDisabled(count, index) <==> NextPage(count, index) == index)
    ensures count < PerView ==> NextDisabled(count, index)
  {
  }

  /** The translation stays within the track: 0 to `25 * (count - 4)` percent. */
  lemma TranslateBounds(count: nat, index: int)
    requires count >= PerView && InRange(count, index)
    ensures 0.0 <= TranslatePercent(index) <= 25.0 * LastPage(count) as real
  {
  }

  datatype Button = Prev | Next

  /** The click handler behind a button. */
  function Handle(count: nat, index: int, b: Button): int {
    match b
    case Prev => PrevPage(index)
    case Next => NextPage(count, index)
  }

  /** A click on a button as the page delivers it: a disabled button does not
      run its handler. */
  function Press(count: nat, index: int, b: Button): (r: int)
    ensures r == index || r == Handle(count, index, b)
    ensures r != index <==> (b == Prev && !PrevDisabled(index)) || (b == Next && !NextDisabled(count, index))
    ensures (b == Prev && !PrevDisabled(index)) || (b == Next && !NextDisabled(count, index)) ==> r == Handle(count, index, b)
    ensures InRange(count, index) ==> InRange(count, r)
    ensures InRange(count, index) && count <= PerView ==> r == 0
  {
    match b
    case Prev => if PrevDisabled(index) then index else PrevPage(index)
    case Next => if NextDisabled(count, index) then index else NextPage(count, index)
  }

  /** A sequence of handler calls, first to last. */
  function HandleAll(count: nat, index: int, bs: seq<Button>): int
    decreases |bs|
  {
    if bs == [] then index else HandleAll(count, Handle(count, index, bs[0]), bs[1..])
  }

  /** A sequence of clicks, first to last. */
  function PressAll(count: nat, index: int, bs: seq<Button>): int
    decreases |bs|
  {
    if bs == [] then index else PressAll(count, Press(count, index, bs[0]), bs[1..])
  }

  /** With at least four technologies, any sequence of handler calls from a
      position in `[0, count - 4]` stays in `[0, count - 4]`. */
  lemma {:induction false} HandleAllInRange(count: nat, index: int, bs: seq<Button>)
    requires count >= PerView && 0 <= index <= LastPage(count)
    ensures 0 <= HandleAll(count, index, bs) <= LastPage(count)
    decreases |bs|
  {
    if bs != [] {
      HandleAllInRange(count, Handle(count, index, bs[0]), bs[1..]);
    }
  }

  /** With fewer than four technologies the bare "next" handler leaves the
      range (the index becomes `count - 4 < 0`); only the disabled button
      keeps it from running. */
  lemma NextHandlerBelowZero(count: nat)
    requires count < PerView
    ensures Handle(count, 0, Next) < 0
    ensures Press(count, 0, Next) == 0
  {
  }

  /** For any number of technologies, clicks on the buttons as the page
      delivers them keep the position in range; with fewer than four it never
      leaves 0. */
  lemma {:induction false} PressAllInRange(count: nat, index: int, bs: seq<Button>)
    requires InRange(count, index)
    ensures InRange(count, PressAll(count, index, bs))
    ensures count <= PerView ==> PressAll(count, index, bs) == 0
    decreases |bs|
  {
    if bs != [] {
      PressAllInRange(count, Press(count, index, bs[0]), bs[1..]);
    }
  }

  /** The component's state: the number of technologies it was given and the
      first visible position. */
  class Carousel {
    const count: nat
    var index: int

    predicate Valid()
      reads this
    {
      InRange(count, index)
    }

    /** `useState(0)`. */
    constructor (technologies: nat)
      ensures Valid()
      ensures count == technologies && index == 0
    {
      count := technologies;
      index := 0;
    }

    /** `handlePrevClick`. */
    method PrevClick()
      modifies this
      ensures index == PrevPage(old(index))
      ensures old(Valid()) ==> Valid()
    {
      index := if 0 > index - 1 then 0 else index - 1;
    }

    /** `handleNextClick`; keeps the carousel valid when there are at least
        four technologies. */
    method NextClick()
      modifies this
      ensures index == NextPage(count, old(index))
      ensures old(Valid()) && count >= PerView ==> Valid()
    {
      var last := count - PerView;
      index := if last < index + 1 then last else index + 1;
    }

    /** A click on one of the two buttons; a disabled button does nothing. */
    method Click(b: Button)
      modifies this
      ensures index == Press(count, old(index), b)
      ensures old(Valid()) ==> Valid()
    {
      match b
      case Prev =>
        if !PrevDisabled(index) { PrevClick(); }
      case Next =>
        if !NextDisabled(count, index) { NextClick(); }
    }
  }
}
