# Portfolio site: gallery and carousel state machines in Dafny

The portfolio is a single-page React site. Apart from layout, it holds four
small pieces of logic, and this project models and proves each one:

- **Project lightbox** (`ProjectsSection`, file `projects_section.dfy`).
  Clicking a gallery card selects the project, rewinds to its first image and
  opens a drawer. The chevrons step through the images cyclically and do
  nothing when the project has no images. The class `Lightbox` holds
  `selected`, `open` and `index`. Its methods are proved against `PrevIndex`
  and `NextIndex`, which are shown to be subtraction and addition modulo the
  image count. They are mutual inverses, and `count` presses return to the
  start. The drawer never shows `undefined` from a valid state.
- **Button-paged carousel** (`PagedCarousel`, file `paged_carousel.dfy`,
  the `portfolio/` copy of the site). The position is clamped by `Math.max(0, i-1)`
  and `Math.min(n-4, i+1)`. The class `Carousel` holds the position. With at
  least four technologies every sequence of handler calls stays in `[0, n-4]`.
  With fewer, the bare "next" handler would go negative, and only the disabled
  button prevents that. Clicks as the page delivers them stay in range for every `n`.
  With at least four technologies, each button is disabled exactly when its
  click would change nothing.
- **Auto-scrolling carousel** (`AutoCarousel`, file `auto_carousel.dfy`).
  Each animation frame moves the offset by a hover-dependent drift and wraps it
  into `(-W, 0]`, where `W = n * 120`. The class `Scroller` holds the offset,
  the hover flags and the last frame time. A frame whose drift is less than `W`
  keeps the offset in range, and so does any run of such frames. That covers
  every left-half frame and every frame shorter than `W / 0.05` ms. The wrap
  changes the offset by zero or one `W`. `LongFrameLeavesRange` shows that a
  longer frame can leave the range. The tripled render list has entry `k` equal to technology `k mod n`.
- **Project card** (`ProjectCard`, file `project_card.dfy`). The card
  picture is a non-empty `imageUrl`, else the first image, else the default
  picture. Without an `imageUrl`, this is the gallery thumbnail. The
  date, link and GitHub items are rendered exactly when their fields are truthy.

Shared definitions: `wrappers.dfy` (`Option`) and `projects.dfy` (the
`Project` record, the `ImageSrc` outcomes of an `<img>`, JavaScript
truthiness of optional strings).

Modelling decisions:
- JavaScript truthiness is modelled exactly. An empty `imageUrl`, `date`,
  `link` or `github` string counts as absent. A present but empty `images`
  array is treated like a missing one, as every guard in the source does.
- An array read past its end yields `undefined`, modelled as `ImageSrc.Undefined`.
- Time deltas, pointer coordinates and the carousel's bounding box are parameters.
- `deltaTime` is `time - lastTime`. The `lastTimeRef.current != null` test
  in src/components/TechnologyCarousel.tsx:28 is always true, because the ref
  starts at 0, so the frame always runs.
- The `Project` interface in src/components/ProjectsSection.tsx:20-29 has no
  `link` field, but src/components/ProjectCard.tsx:54 reads `project.link`
  and the site data sets it. The model's `Project` carries `link`.
- `github` is typed as a required string, but one project in
  src/data/portfolioData.ts:237-246 has no `github`, so it reads as
  `undefined`. The model encodes a missing `github` as the empty string,
  which every truthiness test treats the same way.

## Model

| member | source | states |
|---|---|---|
| ProjectsSection.PrevIndex | src/components/ProjectsSection.tsx:46-52 | no images: index unchanged; in-range index: result in range and equal to `(index - 1) mod count` |
| ProjectsSection.NextIndex | src/components/ProjectsSection.tsx:54-60 | no images: index unchanged; in-range index: result in range and equal to `(index + 1) mod count` |
| ProjectsSection.StepsPreserveRange | src/components/ProjectsSection.tsx:46-60 | both buttons keep a valid lightbox index (0 without images, in `[0, count)` otherwise) valid |
| ProjectsSection.PrevNextInverse | src/components/ProjectsSection.tsx:46-60 | previous after next, and next after previous, return to the same in-range index |
| ProjectsSection.NextTimesModulo | src/components/ProjectsSection.tsx:54-60 | `k` presses of next give `(index + k) mod count` |
| ProjectsSection.PrevTimesModulo | src/components/ProjectsSection.tsx:46-52 | `k` presses of previous give `(index - k) mod count` |
| ProjectsSection.FullCycle | src/components/ProjectsSection.tsx:46-60 | `count` presses of next, or of previous, return to the starting image |
| ProjectsSection.Thumbnail | src/components/ProjectsSection.tsx:72-77 | card thumbnail is the first image exactly when the list is non-empty, else the default picture; never undefined |
| ProjectsSection.DrawerImage | src/components/ProjectsSection.tsx:120-125 | default picture exactly when there are no images (or no project); undefined exactly when the index is outside a non-empty list; otherwise an image of the selected project |
| ProjectsSection.DrawerImageDefined | src/components/ProjectsSection.tsx:120-125 | from a valid index the drawer shows the image at that index, never undefined |
| ProjectsSection.OpenShowsThumbnail | src/components/ProjectsSection.tsx:40-44 | right after opening, the drawer shows the card's thumbnail |
| ProjectsSection.Counter | src/components/ProjectsSection.tsx:129-149 | chevrons and counter appear exactly for more than one image; counter reads exactly `index + 1` over the image count, and lies between 1 and the count in a valid state |
| ProjectsSection.Lightbox.constructor | src/components/ProjectsSection.tsx:36-38 | initial state: no project, drawer closed, index 0 |
| ProjectsSection.Lightbox.Open | src/components/ProjectsSection.tsx:40-44 | selects the project, resets the index to 0, opens the drawer |
| ProjectsSection.Lightbox.SetOpen | src/components/ProjectsSection.tsx:108 | the drawer's own open/close changes only `open` |
| ProjectsSection.Lightbox.Prev | src/components/ProjectsSection.tsx:46-52 | new index is `PrevIndex` of the old one; changes nothing else; keeps the state valid |
| ProjectsSection.Lightbox.Next | src/components/ProjectsSection.tsx:54-60 | new index is `NextIndex` of the old one; changes nothing else; keeps the state valid |
| ProjectsSection.Lightbox.Shown | src/components/ProjectsSection.tsx:120-125 | the drawer picture of the current state is never undefined while the state is valid |
| ProjectCard.CardImage | src/components/ProjectCard.tsx:26-32 | non-empty `imageUrl` wins, else first of non-empty `images`, else default; never undefined |
| ProjectCard.CardFallsBackToThumbnail | src/components/ProjectCard.tsx:26-32 | without `imageUrl` the card shows the gallery thumbnail; default exactly when neither source has an image |
| ProjectCard.CardFooter | src/components/ProjectCard.tsx:50-75 | date, external link and GitHub icon are each shown, with the field's value, exactly when the field is truthy |
| PagedCarousel.PrevPage | portfolio/src/components/TechnologyCarousel.tsx:18-20 | result is `max(0, index - 1)`: never negative, at least `index - 1`, and equal to one of the two |
| PagedCarousel.NextPage | portfolio/src/components/TechnologyCarousel.tsx:22-26 | result is `min(n - 4, index + 1)`: at most both, and equal to one of the two |
| PagedCarousel.TranslatePercent | portfolio/src/components/TechnologyCarousel.tsx:44-48 | offset is `25 * index` percent (100 / 4); zero exactly when the previous button is disabled |
| PagedCarousel.PrevDisabled | portfolio/src/components/TechnologyCarousel.tsx:36 | previous is disabled exactly when its handler would leave the position unchanged (only at 0) |
| PagedCarousel.NextDisabled | portfolio/src/components/TechnologyCarousel.tsx:71-73 | next is disabled exactly when its handler would not move the position forward (from `n - 4` on) |
| PagedCarousel.Press | portfolio/src/components/TechnologyCarousel.tsx:32-77 | a click on an enabled button runs its handler and changes the position; a click on a disabled one leaves it; keeps the position in range, and with `n <= 4` at 0 |
| PagedCarousel.TranslateBounds | portfolio/src/components/TechnologyCarousel.tsx:44-48 | in range, the offset lies between 0 and `25 * (n - 4)` percent |
| PagedCarousel.DisabledIffNoOp | portfolio/src/components/TechnologyCarousel.tsx:32-77 | with `n >= 4`, in range, next is disabled exactly where its click is a no-op (at `n - 4`); with fewer than 4 items next is disabled from the start |
| PagedCarousel.HandleAllInRange | portfolio/src/components/TechnologyCarousel.tsx:15-26 | with `n >= 4`, any sequence of handler calls keeps the position in `[0, n - 4]` |
| PagedCarousel.NextHandlerBelowZero | portfolio/src/components/TechnologyCarousel.tsx:22-26 | with `n < 4`, the bare next handler from 0 goes negative, while the disabled button leaves 0 |
| PagedCarousel.PressAllInRange | portfolio/src/components/TechnologyCarousel.tsx:32-77 | for every `n`, clicks on the buttons keep the position in `[0, max(0, n - 4)]`; with `n <= 4` it stays 0 |
| PagedCarousel.Carousel.constructor | portfolio/src/components/TechnologyCarousel.tsx:15 | starts at position 0 |
| PagedCarousel.Carousel.PrevClick | portfolio/src/components/TechnologyCarousel.tsx:18-20 | new position is `PrevPage` of the old; keeps the state in range |
| PagedCarousel.Carousel.NextClick | portfolio/src/components/TechnologyCarousel.tsx:22-26 | new position is `NextPage` of the old; keeps the state in range when `n >= 4` |
| PagedCarousel.Carousel.Click | portfolio/src/components/TechnologyCarousel.tsx:32-77 | a click runs the handler only on an enabled button; keeps the state in range for every `n` |
| AutoCarousel.TotalWidth | src/components/TechnologyCarousel.tsx:22-23 | strip width is non-negative and positive exactly when there is a technology |
| AutoCarousel.Drift | src/components/TechnologyCarousel.tsx:31-36 | left by `0.03 * dt` when not hovered, right by `0.05 * dt` on the right half, none on the left half |
| AutoCarousel.Wrap | src/components/TechnologyCarousel.tsx:38-43 | changes the offset by 0 or one `W`; maps `(-2W, W]` into `(-W, 0]`; leaves `(-W, 0]` alone |
| AutoCarousel.Frame | src/components/TechnologyCarousel.tsx:30-46 | one updater frame is the drifted offset moved by 0 or one `W`; hovering the left half holds an in-range offset still |
| AutoCarousel.WrapIdempotent | src/components/TechnologyCarousel.tsx:38-43 | wrapping a wrapped offset changes nothing |
| AutoCarousel.FrameInRange | src/components/TechnologyCarousel.tsx:30-46 | with `W > 0`, an in-range offset and a drift below `W`, a frame stays in `(-W, 0]` and moves by the drift plus 0 or one `W` |
| AutoCarousel.DriftBelowWidth | src/components/TechnologyCarousel.tsx:31-36 | a frame drifts by less than `W` exactly when: not hovered and `0.03 * dt` within `W`; right half and `0.05 * dt` within `W`; left half for any `dt` |
| AutoCarousel.ShortFrameDriftBound | src/components/TechnologyCarousel.tsx:20-36 | a frame shorter than `W / 0.05` ms drifts by less than `W` in every hover state |
| AutoCarousel.LongFrameLeavesRange | src/components/TechnologyCarousel.tsx:30-46 | a 10 s frame with one technology ends at -180, outside `(-120, 0]` |
| AutoCarousel.RunInRange | src/components/TechnologyCarousel.tsx:26-52 | any run of frames, each drifting by less than `W`, keeps the offset in `(-W, 0]` |
| AutoCarousel.Looped | src/components/TechnologyCarousel.tsx:76-80 | the rendered list has length `3n` |
| AutoCarousel.LoopedAt | src/components/TechnologyCarousel.tsx:76-80 | entry `k` of the rendered list is technology `k mod n` |
| AutoCarousel.OnRightHalf | src/components/TechnologyCarousel.tsx:66-70 | the pointer counts as on the right half exactly when it is right of the element's midpoint |
| AutoCarousel.Scroller.constructor | src/components/TechnologyCarousel.tsx:13-18 | offset 0, not hovered, time stamp set at mount |
| AutoCarousel.Scroller.Restart | src/components/TechnologyCarousel.tsx:54-62 | the effect's re-run resets the time stamp |
| AutoCarousel.Scroller.Animate | src/components/TechnologyCarousel.tsx:26-52 | new offset is one `Frame` of the old with the elapsed time; time stamp becomes the frame time; a frame drifting by less than `W` keeps the offset in range |
| AutoCarousel.Scroller.MouseEnter | src/components/TechnologyCarousel.tsx:87 | sets the hovered flag |
| AutoCarousel.Scroller.MouseLeave | src/components/TechnologyCarousel.tsx:88-91 | clears both hover flags |
| AutoCarousel.Scroller.MouseMove | src/components/TechnologyCarousel.tsx:64-74 | with the element mounted, the right-half flag becomes `mouseX > width / 2`; otherwise unchanged |

## Left out

- The particle background (src/components/NeuralNetBackground.tsx) is not part of this model. It is floating-point physics with random initialisation, square roots and canvas drawing. The code has 200 particles, a sign-flip wall bounce and mouse repulsion. It has no grabbing, collisions, spawning or trails.
- The tiled background (src/components/TileBackground.tsx) is a declarative CSS animation with no logic.
- Layout-only components are not modelled: hero sections, experience/education tabs, certificate cards, the pages, the `portfolio/` gallery (a drawer with no index), the theme toggle and DOM class toggling.
- The site data (src/data/portfolioData.ts) is static display data. Project ids are used only as React keys and are not required to be unique.
- Floating point: offsets, speeds and widths are exact Dafny `real`s, so rounding of `0.03 * dt` and similar is not modelled.
- Scheduling: `requestAnimationFrame` and `performance.now` are not modelled. Times are parameters, and `Restart` stands for the effect re-running when the hover flags change.
- React re-render semantics and stale-closure timing are not modelled. Each method sees the current state.
- The text and alt attributes (titles, descriptions, details) are rendered verbatim and are not modelled.
- AutoCarousel.Scroller.Animate: range is kept whenever one frame's drift is less than `W`. Frames shorter than `W / 0.05` ms always are. Longer frames can leave the range, because the wrap adds `W` only once (`LongFrameLeavesRange`).
