# CircularStatesView in Dafny

A model of the vertical "states" view of CircularStatesView and of its
ripple decoration. The view draws a column of circles, one per state of a data
source, joined by separator lines. Each circle can have an icon and a title.
The view decorates the active→inactive boundary with a pulsing ripple or, at a
configured index, an activity indicator.

Three generations of the view are modelled, plus two copies of the ripple:

- `StatesView` is the current, title-aware view
  (`CircularStatesView/CircularStatesView.swift`). It places the column
  horizontally using the widest title and uses two title colours. It chooses
  between the ripple and the activity indicator, and it uses the guarded
  ripple.
- `LegacyStatesView` is the earlier ripple-only view
  (`CricularStatesView/CircularStatesView.swift`). It pins the circles one
  margin from the leading edge, uses one title colour, and uses the unguarded
  ripple.
- `Prototype` is the first prototype (`CricularStatesView/CricularStatesView.swift`).
  Its count is a settable property, four by default, and setting it requests a
  redraw. It has same-coloured circles, no data source and no decorations.
- `Ripple` is the guarded ripple view (`CircularStatesView/Sources/RippleView.swift`).
  `LegacyRipple` is the unguarded one (`CricularStatesView/RippleView.swift`).
  `Pulse` holds the pulse layer and the timing constants they share.
- `Timers` holds the run loop's timer registry. `Geometry` holds the layout
  arithmetic, computed over `real`. `Graphics` holds geometry values, colour
  roles and draw records. `DataSource` holds the data-source record and the
  cached count.

**Render pass.** A render pass is a `DrawRect` method on each view class. It
loops over the states and returns the draw records it emits, one per state.
In the current and legacy views a record holds a circle, an optional icon, a
title and an optional separator. These views also update their indicator
fields at every boundary. In the prototype a record holds only a circle and an
optional separator. Each `DrawRect` is proved against pure specification
functions. In the two data-source views these functions take a `Pass` snapshot
of what the pass reads:

- `DrawState(p, i)` gives state `i`'s record, and `Render(p, n)` the records
  of the first `n` states.
- `AfterPass(s, p, n)` gives the indicator fields after `n` states. It applies
  `Update` at every boundary.

Lemmas about these functions prove the layout, colour, separator and
indicator properties.

**Identifiers and colours.** Identifiers keep the source's spelling
(`seperatorLength`, `CricularStatesView`). A colour is modelled as the style
property that supplies it (`CircleActiveColor`, `SeperatorColor`, …), so "the
fill is the active colour exactly when the state is active" is an exact
statement.

**Inputs modelled as parameters.** I/O and foreign services become
parameters:

- The data source is a record of functions; an absent (weak, released) source
  is `None`.
- Label measurement (`UILabel.sizeThatFits`) is a `Measure` function.
- The bounds are a `Size`.
- `NSTimer` is a `RunLoop` object that records the timers scheduled and the
  ones still live.

**Where this model follows the code.** In these places the code behaves
differently from how the view's design is usually described, and the model
follows the code:

- **Last boundary wins.** The boundary scan has no `break`. Every active→inactive
  pair retargets the decoration, so the last pair wins, not the first
  (`LastBoundaryWins`).
- **Reload keeps the count.** `reloadData` does not reset the cached count.
  Once non-zero it is fixed (`CountFixedOnceNonZero`, `ReloadData`).
- **Decorations are not hidden by the pass.**
  - Showing the activity indicator does not hide or stop the ripple
    (`IndicatorTakesPrecedence`).
  - A pass without a boundary hides nothing (`NoBoundaryNoChange`); only
    `reloadData` hides the decorations.
- **The indicator target sticks.** Once `frameForIndicatorView` is set, it
  stays until the next reload, even if the activity index changes.
- **Zero count.** With a zero count the current and legacy views leave the
  diameter unchanged rather than setting it to 0.
- **Degenerate diameter.** A non-positive diameter is drawn anyway, not
  skipped.
- **Negative count.** A negative count from the data source makes Swift's
  `0..<n` trap. It is modelled as the `Trapped` outcome.

## Model

| member | source | states |
|---|---|---|
| DataSource.CachedCount | CircularStatesView/CircularStatesView.swift:373-379 | a non-zero cache is returned unchanged; a zero cache gives the data source's count, 0 for an absent source |
| DataSource.CountFixedOnceNonZero | CircularStatesView/CircularStatesView.swift:373-379 | once the cached count is non-zero, no later query changes it, whatever the data source then reports |
| DataSource.Count | CircularStatesView/CircularStatesView.swift:375 | an absent data source counts 0 states |
| DataSource.Title | CircularStatesView/CircularStatesView.swift:229 | an absent data source gives no title; a present one gives the title it reports |
| DataSource.Icon | CircularStatesView/CircularStatesView.swift:221 | an active state asks for the active icon, an inactive one for the inactive icon, an absent source for none |
| Graphics.Inset | CircularStatesView/CircularStatesView.swift:277-281 | the indicator frame is the target moved in by the amount on every side: the origin moves right and down by it, the far edges left and up by it |
| Graphics.CircleBounds | CircularStatesView/CircularStatesView.swift:191-202 | the bounds of a circle path are a square of the diameter centred on the circle |
| Geometry.UnclampedDiameter | CircularStatesView/CircularStatesView.swift:334-338 | the column of `n` circles, `n-1` separators and two margins fills the height exactly |
| Geometry.ClampedDiameter | CircularStatesView/CircularStatesView.swift:340 | the diameter is the unclamped one or the maximum size, is at most the unclamped one, and is at most the maximum when one is set |
| Geometry.ColumnFits | CircularStatesView/CircularStatesView.swift:331-342 | the clamped column plus two margins fits in the height |
| Geometry.TopMarginAtLeastMargin | CircularStatesView/CircularStatesView.swift:365-371 | the top margin of a laid-out column is at least one margin, and exactly one when the diameter was not clamped |
| Geometry.ColumnCentred | CircularStatesView/CircularStatesView.swift:365-371 | circle 0's top edge is at the top margin and circle `n-1`'s bottom edge is as far from the bottom |
| Geometry.SeparatorMeetsNextCircle | CircularStatesView/CircularStatesView.swift:234-238 | consecutive centres are `d + sep` apart and a separator ends on the next circle's top edge |
| Geometry.DiameterNonIncreasing | CircularStatesView/CircularStatesView.swift:331-342 | when the height plus one separator is at least two margins, one more state never makes the circles larger, clamped or not |
| Geometry.LeadingMargin | CircularStatesView/CircularStatesView.swift:358-363 | the leading margin is at least one margin and at least half the free width, and equals one of them |
| Geometry.UnclampedAsQuotient | CircularStatesView/CircularStatesView.swift:337-338 | one diameter plus one separator is the height plus a separator less two margins, divided by the count |
| StatesView.TitleSize | CircularStatesView/CircularStatesView.swift:311-327 | each title dimension is the smaller of the room and the measured size: no wider than the room beside the circle or the measured width and equal to one of them, no taller than the circle less two margins or the measured height and equal to one of them |
| StatesView.MaxTitleWidthBounds | CircularStatesView/CircularStatesView.swift:344-356 | the widest title is non-negative, at least every title's width, and 0 or one title's width |
| StatesView.TitleLabelMaxWidth | CircularStatesView/CircularStatesView.swift:344-356 | the loop returns the widest title, which is non-negative and at least every title's width |
| StatesView.RenderAt | CircularStatesView/CircularStatesView.swift:188-249 | a pass over `n` states emits `n` records, record `i` being state `i`'s |
| StatesView.StateColours | CircularStatesView/CircularStatesView.swift:193-230 | circle fill, icon and title colour follow the state's active flag: active colours exactly for an active state, inactive colours exactly for an inactive one; an absent source draws everything inactive, without icon or text |
| StatesView.Separators | CircularStatesView/CircularStatesView.swift:234-248 | a separator below every state but the last, from the circle's bottom to the next circle's top, in the active colour exactly when both states are active, else the separator colour |
| StatesView.ColumnCentred | CircularStatesView/CircularStatesView.swift:186-190 | the circles share one centre line and form a vertically centred column with steps of `d + sep` |
| StatesView.TitlesFit | CircularStatesView/CircularStatesView.swift:228-231 | the circle is at least two margins from the leading edge; each title starts one margin right of its circle, fits the clamps, ends inside the bounds and is centred on its circle; free width is split equally before the circle and after the widest title |
| StatesView.DrawStateAt | CircularStatesView/CircularStatesView.swift:189-248 | the loop body draws exactly `DrawState` for the state |
| StatesView.Update | CircularStatesView/CircularStatesView.swift:268-299 | an indicator frame takes precedence and shows the indicator inset by half a margin, leaving the ripple; else a ripple frame shows and starts the ripple; else nothing changes |
| StatesView.Cleared | CircularStatesView/CircularStatesView.swift:301-307 | both target frames dropped, both views kept but hidden, the ripple stopped |
| StatesView.NoBoundaryNoChange | CircularStatesView/CircularStatesView.swift:198-209 | a pass without a boundary leaves the indicator fields as they were |
| StatesView.LastBoundaryWins | CircularStatesView/CircularStatesView.swift:198-209 | the last boundary that is not the activity index decides the ripple's target |
| StatesView.RippleFrameKept | CircularStatesView/CircularStatesView.swift:201-206 | without a non-indicator boundary the ripple's target keeps its value |
| StatesView.IndicatorFrame | CircularStatesView/CircularStatesView.swift:201-203 | the indicator's target is the activity index's circle exactly when that index is a boundary, else unchanged |
| StatesView.IndicatorTakesPrecedence | CircularStatesView/CircularStatesView.swift:269-285 | once an indicator target is set, a pass never touches the ripple |
| StatesView.IndicatorShown | CircularStatesView/CircularStatesView.swift:269-284 | a boundary met with an indicator target leaves the indicator shown at that target inset by half a margin |
| StatesView.RippleShown | CircularStatesView/CircularStatesView.swift:286-297 | with no indicator target, the ripple ends visible and running at the last boundary's circle and the indicator is untouched |
| StatesView.SpinnerUntouched | CircularStatesView/CircularStatesView.swift:269-285 | without an indicator target the indicator view is not touched |
| StatesView.CircularIndicatorView.constructor | CircularStatesView/CircularStatesView.swift:271-272 | a new indicator view has a zero frame and is visible |
| StatesView.CircularStatesView.constructor | CircularStatesView/CircularStatesView.swift:159-170 | a new view has no source, count 0, diameter 0, the default style and no decorations |
| StatesView.CircularStatesView.SetStyle | CircularStatesView/CircularStatesView.swift:102-124 | a style change requests a redraw |
| StatesView.CircularStatesView.StatesCount | CircularStatesView/CircularStatesView.swift:373-379 | the count is the cache, re-queried only while 0 |
| StatesView.CircularStatesView.LayoutSubviews | CircularStatesView/CircularStatesView.swift:331-342 | with a positive count the diameter is the clamped one; otherwise unchanged; a redraw is requested |
| StatesView.CircularStatesView.UpdateIndicatorViews | CircularStatesView/CircularStatesView.swift:268-299 | the indicator fields become `Update` of the old ones; each view is created at most once and then reused; no live timer is invalidated, the only one added is the ripple's held handle, a held handle is kept, and the pulse layers are untouched |
| StatesView.CircularStatesView.ShowRipple | CircularStatesView/CircularStatesView.swift:287-297 | the ripple is created on first use, placed on the frame, shown and holding a timer; only that held handle can become live |
| StatesView.CircularStatesView.MarkBoundary | CircularStatesView/CircularStatesView.swift:198-209 | the boundary circle becomes the indicator's target at the activity index, the ripple's otherwise, then the decorations update; the timer and layer effects are those of `UpdateIndicatorViews` |
| StatesView.CircularStatesView.DrawStep | CircularStatesView/CircularStatesView.swift:189-248 | one iteration draws `DrawState` and applies the boundary's update; no live timer is invalidated and the only one added is the ripple's held handle |
| StatesView.CircularStatesView.ClearIndicatorViews | CircularStatesView/CircularStatesView.swift:301-307 | the indicator fields become `Cleared` of the old ones, the ripple has no live timer, exactly the held handle is invalidated and the pulse layers are untouched |
| StatesView.CircularStatesView.ReloadData | CircularStatesView/CircularStatesView.swift:261-264 | clears the decorations, invalidating exactly the held handle, keeps the cached count and requests a redraw |
| StatesView.CircularStatesView.Deinit | CircularStatesView/CircularStatesView.swift:174-178 | the ripple's timer is stopped, exactly that handle is invalidated, and both views released with the ripple's layers as they were |
| StatesView.CircularStatesView.DrawRect | CircularStatesView/CircularStatesView.swift:182-250 | a negative count traps and changes nothing; otherwise the records are `Render` of the pass (one per state in order, by `RenderAt`) and the indicator fields become `AfterPass` of the old ones; a pass invalidates no timer, adds at most the ripple's held handle and leaves the pulse layers untouched |
| StatesView.CircularStatesView.DrawStates | CircularStatesView/CircularStatesView.swift:188-249 | the loop emits `Render` of the pass and leaves the indicator fields at `AfterPass` of the old ones, with the same timer and layer effects as `DrawRect` |
| LegacyStatesView.TitleFrame | CricularStatesView/CircularStatesView.swift:169-172 | the title box starts one margin right of the circle, ends one margin before the trailing edge, is the circle's height less two margins and is centred on the circle |
| LegacyStatesView.RenderAt | CricularStatesView/CircularStatesView.swift:123-189 | a pass over `n` states emits `n` records, record `i` being state `i`'s |
| LegacyStatesView.StateDrawing | CricularStatesView/CircularStatesView.swift:130-187 | fill is the active colour exactly for an active state and the inactive colour exactly for an inactive one, the border is the border colour, circles are one margin from the leading edge, all titles share one colour; separators are below all but the last, run on the centre line from the circle's bottom to the next circle's top, and are in the active colour exactly when both states are active, else the separator colour |
| LegacyStatesView.ColumnCentred | CricularStatesView/CircularStatesView.swift:126-131 | the column is vertically centred with steps of `d + sep` |
| LegacyStatesView.Update | CricularStatesView/CircularStatesView.swift:222-235 | the ripple is created even without a frame; with a frame it is placed, shown and started, always adding a live timer; without one an existing ripple is unchanged and a new one is at the zero frame, visible and stopped |
| LegacyStatesView.EveryBoundaryStartsATimer | CricularStatesView/CircularStatesView.swift:139-145 | a pass adds one live timer per boundary and changes nothing without one |
| LegacyStatesView.LastBoundaryWins | CricularStatesView/CircularStatesView.swift:139-145 | the last boundary decides the ripple's frame, shown and running |
| LegacyStatesView.RunningAfterBoundary | CricularStatesView/CircularStatesView.swift:139-145 | after a pass that met a boundary the ripple exists and is running |
| LegacyStatesView.DrawStateAt | CricularStatesView/CircularStatesView.swift:126-188 | the loop body draws exactly `DrawState` for the state |
| LegacyStatesView.Cleared | CricularStatesView/CircularStatesView.swift:237-240 | the ripple is hidden and stopped, releasing only its held timer (and none when it was not running); the target frame is kept |
| LegacyStatesView.ReloadDoesNotReclaim | CricularStatesView/CircularStatesView.swift:215-218 | from no ripple, a pass meeting `k >= 1` boundaries, a reload and a second pass leave `2k - 1` timers live: the reload reclaims only the held one |
| LegacyStatesView.CircularStatesView.constructor | CricularStatesView/CircularStatesView.swift:100-109 | a new view has no source, count 0, diameter 0, the default style and no ripple |
| LegacyStatesView.CircularStatesView.SetStyle | CricularStatesView/CircularStatesView.swift:63-96 | a style change requests a redraw |
| LegacyStatesView.CircularStatesView.StatesCount | CricularStatesView/CircularStatesView.swift:257-263 | the count is the cache, re-queried only while 0 |
| LegacyStatesView.CircularStatesView.LayoutSubviews | CricularStatesView/CircularStatesView.swift:244-255 | with a positive count the diameter is the clamped one; otherwise unchanged; a redraw is requested |
| LegacyStatesView.CircularStatesView.UpdateIndicatorViews | CricularStatesView/CircularStatesView.swift:222-235 | the indicator fields become `Update` of the old ones; the ripple is created at most once; with a frame exactly one new handle becomes live, without one the live set is unchanged; no live timer is invalidated and the pulse layers are untouched |
| LegacyStatesView.CircularStatesView.RestartRipple | CricularStatesView/CircularStatesView.swift:230-234 | the ripple is placed, shown and started; one new handle, held and not live before, is added to the live set and earlier ones stay live |
| LegacyStatesView.CircularStatesView.ClearIndicatorViews | CricularStatesView/CircularStatesView.swift:237-240 | the indicator fields become `Cleared` of the old ones; exactly the held handle is invalidated and the pulse layers are untouched |
| LegacyStatesView.CircularStatesView.ReloadData | CricularStatesView/CircularStatesView.swift:215-218 | clears the ripple, invalidating exactly the held handle, keeps the count and requests a redraw |
| LegacyStatesView.CircularStatesView.Deinit | CricularStatesView/CircularStatesView.swift:113-116 | the ripple's held timer is stopped, exactly that handle is invalidated, and the ripple released with its layers as they were |
| LegacyStatesView.CircularStatesView.MarkBoundary | CricularStatesView/CircularStatesView.swift:141-144 | the boundary circle becomes the ripple's target, then the ripple updates, adding exactly one new live handle |
| LegacyStatesView.CircularStatesView.DrawStep | CricularStatesView/CircularStatesView.swift:125-188 | one iteration draws `DrawState` and, at a boundary, retargets and restarts the ripple; every timer added is the ripple's own and none is invalidated |
| LegacyStatesView.CircularStatesView.DrawRect | CricularStatesView/CircularStatesView.swift:120-190 | a negative count traps; otherwise the records are `Render` of the pass and the indicator fields `AfterPass` of the old ones; a pass invalidates no timer, every timer it adds is the ripple's own, and the pulse layers are untouched |
| Prototype.PlainRenderAt | CricularStatesView/CricularStatesView.swift:70-89 | a pass emits one record per state, record `i` being state `i`'s |
| Prototype.PlainStateShape | CricularStatesView/CricularStatesView.swift:75-87 | every circle in the circle and border colours; a separator below all but the last, always in the separator colour, running down the centre line from the circle's bottom edge to the next circle's top edge |
| Prototype.ColumnSpansHeight | CricularStatesView/CricularStatesView.swift:71-72 | with the computed diameter the first circle's top and the last circle's bottom are each one margin from the bounds |
| Prototype.CricularStatesView.constructor | CricularStatesView/CricularStatesView.swift:15-61 | a new view has 4 states, the default style and diameter 0 |
| Prototype.CricularStatesView.SetNumberOfStates | CricularStatesView/CricularStatesView.swift:15-19 | the count is taken as is and a redraw is requested |
| Prototype.CricularStatesView.SetStyle | CricularStatesView/CricularStatesView.swift:31-53 | a style change requests a redraw |
| Prototype.CricularStatesView.LayoutSubviews | CricularStatesView/CricularStatesView.swift:115-124 | the diameter fills the height with no clamp; a zero count gives a non-finite diameter |
| Prototype.CricularStatesView.DrawRect | CricularStatesView/CricularStatesView.swift:65-90 | a negative count traps, and only then; otherwise one record per state equal to `PlainState` |
| Timers.RunLoop.Schedule | CircularStatesView/Sources/RippleView.swift:47 | scheduling issues a fresh live handle and records the interval and repetition |
| Timers.RunLoop.Invalidate | CircularStatesView/Sources/RippleView.swift:51 | invalidating removes the handle from the live set, harmlessly if it is not live |
| Pulse.PulseLayer | CircularStatesView/Sources/RippleView.swift:61-92 | a pulse is clear-filled, stroked in the given colour, the view's size, centred on the view, with the one ripple animation |
| Pulse.PulsesOverlap | CircularStatesView/Sources/RippleView.swift:47-89 | a pulse's animation outlasts the interval to the next fire |
| Ripple.RippleView.constructor | CircularStatesView/Sources/RippleView.swift:11-14 | a new ripple view holds no timer, is black and has no layers |
| Ripple.RippleView.StartRippleEffect | CircularStatesView/Sources/RippleView.swift:34-48 | schedules a 1.5 repeating timer only when none is held; afterwards exactly the held timer is live |
| Ripple.RippleView.StopRippleEffect | CircularStatesView/Sources/RippleView.swift:38-53 | invalidates the held timer, if any, and drops the handle; none of the view's timers stays live |
| Ripple.RippleView.Deinit | CircularStatesView/Sources/RippleView.swift:18-20 | teardown stops the timer |
| Ripple.RippleView.FireRipple | CircularStatesView/Sources/RippleView.swift:55-75 | each fire appends one pulse in the ripple colour on top of the kept layers |
| Ripple.StartsThenStop | CircularStatesView/Sources/RippleView.swift:44-53 | any number of starts leaves at most one timer live, and a stop leaves none |
| Ripple.FiresAccumulate | CircularStatesView/Sources/RippleView.swift:61-75 | `k` fires leave exactly `k` pulse layers, none removed |
| LegacyRipple.RippleView.constructor | CricularStatesView/RippleView.swift:33-39 | a new ripple view holds no timer and has no layers |
| LegacyRipple.RippleView.StartRippleEffect | CricularStatesView/RippleView.swift:43-55 | always schedules a new 1.5 repeating timer and holds it; the timers held before stay live |
| LegacyRipple.RippleView.StopRippleEffect | CricularStatesView/RippleView.swift:47-60 | invalidates only the held timer, if any, and drops the handle |
| LegacyRipple.RippleView.Deinit | CricularStatesView/RippleView.swift:17-19 | teardown stops only the held timer |
| LegacyRipple.RippleView.FireRipple | CricularStatesView/RippleView.swift:68-99 | each fire appends one pulse in the brand colour on top of the kept layers |
| LegacyRipple.StartsThenStop | CricularStatesView/RippleView.swift:43-60 | `k` starts leave `k` timers live, and a stop still leaves `k - 1` |

## Left out

- Drawing is not modelled: `UIBezierPath`, `setFill`/`setStroke`, `fill`/`stroke`,
  `drawAtPoint`, `drawTextInRect` and `addSubview`. They become draw records, and
  `setNeedsDisplay` becomes a `needsDisplay` flag.
- Fonts and per-colour values are not modelled; colours are the roles that
  name them.
- `UILabel.sizeThatFits` is a `Measure` function parameter, nothing more.
- `NSTimer` firing and the run loop's scheduling of fires are not modelled.
  `Timers.RunLoop` records only scheduling and invalidation. Firing is the
  caller invoking `FireRipple`.
- CoreAnimation is not modelled: animation timing, easing, removal on
  completion, corner radii, and the `convertPoint` of the layer position. A
  pulse layer is a record, and the position is taken as the view's own centre.
- `CircularIndicatorView` internals are left out: the arcs and the rotation.
  `StatesView.CircularIndicatorView` keeps only the frame, the visibility and
  the colour the host gives it. The host assigns an `indicatorColor` property
  that the indicator view's source file does not declare; the model keeps the
  assignment.
- The older host assigns `rippleColor` to the ripple it creates, but the legacy
  ripple view has no such property. The model drops the assignment, and the
  legacy pulse is stroked in the brand colour, as the legacy `fireRipple` does.
- Floating-point `CGFloat` arithmetic is not modelled. The geometry is over
  `real`, and `circleMaxSize == nil` is "no clamp" in place of `CGFloat.max`.
- Prototype.CricularStatesView.LayoutSubviews: a zero count gives a non-finite
  quotient. It is recorded only as an absent diameter. A later pass over such a
  diameter is reported as `Degenerate` and draws nothing visible.
- The normalisation `UIBezierPath` applies to the bounds of a circle with a
  negative diameter is not modelled. `CircleBounds` keeps the signed square.
- The current view's `leadingMargin` and `topMargin` call `statesCount` again.
  The count is cached, so the second call returns the same value and is not
  modelled separately.
- Weak references are not modelled. The data source is a value that may be
  `None`, not a reference that can disappear during a pass.
- `@IBInspectable`, `awakeFromNib`, `init(coder:)`, `commonInit` and the
  prototype's `print` of the bounds are left out.
- The example application's data source is left out.

## Findings

| source | as written | input that shows it | evidently intended | confidence | as-written member | corrected member |
|---|---|---|---|---|---|---|
| CricularStatesView/RippleView.swift:53-55 | `starTimer` schedules a new repeating timer and overwrites the handle without invalidating the timer it held | two calls of `startRippleEffect` then `stopRippleEffect`: one timer stays live with no handle left to stop it; the older host starts the ripple on every redraw, so each pass leaks one more (`LegacyStatesView.ReloadDoesNotReclaim`) | at most one live timer per ripple view, and none after a stop, as the guard in CircularStatesView/Sources/RippleView.swift:45 makes it | high; not executed | LegacyRipple.StartsThenStop | Ripple.StartsThenStop |
