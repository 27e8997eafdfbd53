# Portfolio page controller, modelled in Dafny

A model of the state machines and the arithmetic inside `scripts.js`, the
script behind a single-page portfolio site. It covers:

- the draggable profile image: an Idle/Dragging machine over `isDragging`,
  `initialX/Y`, `currentX/Y` and `xOffset/yOffset` (module `Drag`, file
  `Drag.dfy`);
- the per-frame scroll maths of `netflixScrollEffects`, `updateScrollProgress`
  and `updateNavbar`: each section's scale, opacity, z-index and glow; the
  hero's scale, opacity and blur; the progress percentage; the navbar's two
  looks (module `ScrollEffects`);
- `updateActiveNavLink`: the current section and the `active` class on the
  navigation links (module `ActiveNav`);
- the two schedulers: the `ticking` latch of `handleScroll` and the `debounce`
  used for resize (module `Scheduling`);
- `Basics` holds an `Option` type and `Math.abs/max/min` on reals.

Code that changes state step by step is a class with fields and methods. The
drag closure, the global latch and the debounce closure are classes, and the
link loop mutates `NavLink` objects. Each such method is proved to follow a
transition function: `Press`, `Move`, `Release`, `OnScroll`, `OnFrame`, `Call`
or `Fire`. The properties are lemmas about those functions and about runs of
event sequences. The scroll maths is made of expressions, so it is written as
functions over `real` that return a `Look` record. Pointer coordinates are
`int`.

The model follows the code where it departs from the intended behaviour:

- The progress division has no guard. `ScrollPercent` requires
  `scrollHeight - innerHeight != 0`. A page exactly as tall as the viewport
  makes the script divide by zero, and the model does not say what happens
  then. A shorter page gives a negative divisor and a percentage of 0 or
  below, which the model covers. The result is not clamped either, so
  overscroll gives more than 100 (`ProgressNotClamped`).
- The section scale jumps at the edge of the near-centre band: just inside it
  the scale is above 1, at the edge it is 0.88 (`ScaleJumpsAtBandEdge`,
  `BandEdgeIsFar`).
- Links are compared by `href` alone. Two links with the same `href` are both
  marked. When no section has been reached, the current id is `''`, so a link
  whose `href` is `"#"` is the one marked (`NothingReachedMarksBareHash`).
- In the near-centre branch, a section that is not the hero keeps its previous
  `box-shadow` (`KeepShadow`). It does not get `none`.
- The hero blur is negative for a negative scroll offset
  (`HeroBlurBelowTop`).
- `updateNavbar` does not check that `.navbar` exists. On a page without one,
  the frame callback throws after the scroll effects, so the active link is
  not updated and `ticking` is never lowered: no later scroll requests a frame
  (`LatchStuckWithoutNavbar`).

## Model

| member | source | states |
|---|---|---|
| `Drag.Step` | scripts.js:15-53 | every handler keeps the drag invariant: while dragging, the origin is defined; the last written translation equals the accumulated offset; the offset is zero before the first move |
| `Drag.Run` | scripts.js:56-61 | the invariant holds after any sequence of press, move and release events |
| `Drag.NoDragWithoutQualifyingPress` | scripts.js:24-27 | starting idle, a trace whose presses all land outside the element and its direct children never starts a drag and changes neither the offset nor the translation; moves while idle do nothing |
| `Drag.MovesFromOrigin` | scripts.js:37-53 | during a drag, moves keep the origin and the drag state; after at least one move, the offset is the last pointer position minus the origin |
| `Drag.GestureTranslation` | scripts.js:15-53 | after a qualifying press and any non-empty run of moves, the translation is the offset before the press plus the pointer displacement since the press, on each axis |
| `Drag.ReleaseKeepsOffset` | scripts.js:30-35 | release always goes idle and keeps the accumulated offset and the applied translation |
| `Drag.BaselineSurvivesRelease` | scripts.js:15-53 | from offset (10,20), a press and a move by (+5,+5) give (15,25); release keeps (15,25); a new gesture (touch, on a direct child) moving by (+1,-2) gives (16,23) |
| `Drag.DragController.constructor` | scripts.js:7-13 | the closure starts idle, with every coordinate undefined and both offsets 0 |
| `Drag.DragController.DragStart` | scripts.js:15-28 | the `dragStart` handler performs `Press` on the closure's fields, with the position read from the mouse or from the first touch |
| `Drag.DragController.Drag` | scripts.js:37-54 | the `drag` handler performs `Move` on the closure's fields and keeps the invariant |
| `Drag.DragController.DragEnd` | scripts.js:30-35 | the `dragEnd` handler performs `Release` on the closure's fields |
| `ScrollEffects.NearCentreLook` | scripts.js:125-138 | near-centre branch: scale in (1, 1.05], opacity 1, z-index 10; the hero glows with alpha in (0, 0.3] proportional to scale − 1; other sections keep their shadow |
| `ScrollEffects.FarLook` | scripts.js:139-147 | in view but outside the band: scale in [0.85, 0.88], opacity in [0.6, 0.76], z-index 1, no shadow |
| `ScrollEffects.OutOfViewLook` | scripts.js:148-154 | a section outside the viewport falls in the third branch and gets exactly scale 0.8, opacity 0.4, z-index 1 and no shadow |
| `ScrollEffects.SectionLookBounds` | scripts.js:113-155 | whichever branch applies, the scale lies in [0.8, 1.05] and the opacity in [0.4, 1] |
| `ScrollEffects.ScaleJumpsAtBandEdge` | scripts.js:127-142 | any near-centre section is scaled more than 0.12 above any far section in the same viewport, so the scale is discontinuous at the band edge |
| `ScrollEffects.BandEdgeIsFar` | scripts.js:125-142 | a visible section exactly 0.4 viewport heights from the centre takes the far branch, with scale 0.88 and opacity 0.76 |
| `ScrollEffects.NearScaleGrowsTowardsCentre` | scripts.js:127-129 | inside the band, the section closer to the centre is scaled at least as much |
| `ScrollEffects.HeroRanges` | scripts.js:160-162 | for a scroll offset ≥ 0: hero scale in [0.7, 1], opacity in [0.4, 1], blur in [0, 5], and blur 0 at offset 0 |
| `ScrollEffects.HeroMonotone` | scripts.js:160-162 | for offsets ≥ 0, scrolling further never raises the hero's scale or opacity and never lowers its blur |
| `ScrollEffects.HeroBlurBelowTop` | scripts.js:162 | every negative offset gives a negative blur, offset × 0.01, so the blur range holds only from 0 on |
| `ScrollEffects.FirstHero` | scripts.js:158 | the hero found is the first section with class `hero`; none is found only when no section has that class |
| `ScrollEffects.HeroOverridesSectionRule` | scripts.js:113-166 | in a frame, the first hero gets its scale, opacity and blur from the hero rule and its z-index and glow from the section rule; every other section gets exactly its section-rule look |
| `ScrollEffects.FrameBounds` | scripts.js:107-167 | for offsets ≥ 0, every section in a frame, hero included, has scale in [0.7, 1.05] and opacity in [0.4, 1] |
| `ScrollEffects.ScrollPercent` | scripts.js:96-99 | the percentage p satisfies p × (scrollHeight − innerHeight) = scrollTop × 100 |
| `ScrollEffects.ProgressRange` | scripts.js:96-99 | when the page is taller than the viewport: 0 at the top, 100 at the bottom, and within [0, 100] in between |
| `ScrollEffects.ProgressMonotone` | scripts.js:96-99 | the progress never decreases as the page scrolls down |
| `ScrollEffects.ProgressNotClamped` | scripts.js:96-102 | past the end of the scrollable range the progress exceeds 100, because nothing clamps it |
| `ScrollEffects.NavbarThreshold` | scripts.js:196-209 | the navbar is solid if and only if the offset exceeds 50px (50 itself is translucent); its background alpha, backdrop blur and border never decrease as the page scrolls down |
| `ActiveNav.NothingReachedMarksBareHash` | scripts.js:215-229 | if no section has been reached (offset < offsetTop − 200 for all), the current id is `''` and the fragment compared against is `"#"` |
| `ActiveNav.LastReachedIsActive` | scripts.js:215-223 | if section i has been reached and no later section has, its id is the current one |
| `ActiveNav.CurrentSection` | scripts.js:215-223 | the `forEach` loop that overwrites `current` ends with `ActiveId`, the id of the last section reached in document order |
| `ActiveNav.MarkLinks` | scripts.js:225-230 | after the loop, a link has `active` iff its href equals `'#' + current`; links with the same href are all marked |
| `ActiveNav.UpdateActiveNavLink` | scripts.js:212-231 | selects `ActiveId` and marks links by it; the outcome ignores the old marks, so repeating the update at the same offset changes nothing |
| `Scheduling.AtMostOneFramePending` | scripts.js:276-286 | over any interleaving of scrolls and frames, with or without a `.navbar`, at most one frame callback is pending, and `ticking` is up while one is |
| `Scheduling.LatchLowersWithNavbar` | scripts.js:276-286 | when every frame finds a `.navbar`, one callback is pending exactly while `ticking` is up, after any interleaving |
| `Scheduling.LatchStuckWithoutNavbar` | scripts.js:195-286 | a frame without a `.navbar` leaves `ticking` up with nothing pending, and from there no sequence of scrolls and frames changes the latch again |
| `Scheduling.ScrollIsCoalesced` | scripts.js:277-285 | a scroll while `ticking` changes nothing; while the latch can still be lowered, after any scroll exactly one callback is pending |
| `Scheduling.ScrollBurstRequestsOneFrame` | scripts.js:276-286 | while the latch can still be lowered, a burst of n > 0 scrolls leaves `ticking` up with exactly one callback pending |
| `Scheduling.ScrollLatch.constructor` | scripts.js:2 | the latch starts down with nothing pending |
| `Scheduling.ScrollLatch.HandleScroll` | scripts.js:276-286 | `handleScroll` performs `OnScroll`; it requests a frame iff `ticking` was down |
| `Scheduling.ScrollLatch.RunFrame` | scripts.js:278-283 | the callback consumes the pending frame and writes the section and hero looks of `Frame` and the `ScrollPercent` progress; with a `.navbar` it also writes `NavbarLookAt`, marks the links by `ActiveId` and lowers the latch; without one it stops there, leaving the links as they were and `ticking` up |
| `Scheduling.DebounceStep` | scripts.js:382-392 | after a call, exactly one timer is live, carrying that call's arguments; the timer that fires is the one in `timeout`, and no timer is live afterwards |
| `Scheduling.AtMostOneTimerLive` | scripts.js:382-392 | over any interleaving of calls and timer expiries, at most one timer is live: the last one set |
| `Scheduling.BurstLeavesLastTimer` | scripts.js:384-391 | a burst of calls runs nothing and leaves one live timer, the last one set, carrying the last call's arguments |
| `Scheduling.BurstRunsOnceWithLastArgs` | scripts.js:382-392 | after a burst, `func` runs once, with the last call's arguments, when the last timer expires; an earlier, cancelled timer expiring runs nothing |
| `Scheduling.Debouncer.constructor` | scripts.js:382-383 | a fresh debounce has no `timeout` and no live timer |
| `Scheduling.Debouncer.Debounced` | scripts.js:384-391 | `executedFunction` performs `Call`: it cancels the previous timer, so only the new timer is live |
| `Scheduling.Debouncer.TimerFires` | scripts.js:385-388 | `later` performs `Fire`: `func` gets the fired timer's arguments and no timer is left live |

## Left out

- DOM lookups, the CSS strings written to `style.*`, and class-list mechanics.
  The model computes the values those strings carry. The `dragging` class always
  equals `isDragging`, so it has no field.
- The hamburger toggle, smooth-scroll anchors and injected stylesheet
  (scripts.js:65-93, 343-379). They have no logic beyond browser calls.
- The IntersectionObserver reveal (scripts.js:173-193). The browser decides
  intersection. The code never unobserves, so the staggered timers start again
  on every re-entry; only the class additions are idempotent.
- Icon hover and ripple effects, the page fade-in, `scrollRestoration` and the
  `pageshow` reset (scripts.js:234-273, 301-337). These are fixed style writes
  and timers.
- Real time: the rAF and `setTimeout` delays. A `Debouncer`'s `wait` records
  the delay (20 by default, 100 for resize) but plays no part, since timer
  expiry is an explicit event.
- What the debounced function does: `func` is opaque, and the model returns the
  arguments it is called with. The resize handler's recomputation is the same
  `Frame` as a scroll tick.
- IEEE-754 arithmetic: all scroll maths is on exact reals.
- `ScrollEffects.ScrollPercent`: requires `scrollHeight - innerHeight != 0`. The
  script divides without a check, and the NaN or Infinity it would then write is
  not modelled.
- `ScrollEffects.SectionLook` and the lemmas about it require a positive
  viewport height, because the script divides by it.
- `Scheduling.ScrollLatch.RunFrame`: requires a positive viewport height and a
  page not exactly as tall as the viewport, as `SectionLook` and
  `ScrollPercent` do. A missing `.hero` or `.scroll-progress` element is
  skipped by the script and needs no case here: the hero's look is part of
  `Frame`, and the progress value is what the bar would be given.
- `ScrollEffects.FirstHero`: assumes the first `.hero` element is a section.
  `querySelector('.hero')` could match another element, which is not modelled.
- Touch events read only `touches[0]`; other touch points are not modelled.
- A press outside the profile element never reaches `dragStart`, because the
  press listeners are attached to the element itself.
