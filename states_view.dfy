/**
 * The current generation of the vertical states view (title-aware layout,
 * ripple or activity-indicator decoration at the active/inactive boundary).
 *
 * One render pass is specified by pure functions over a `Pass` snapshot: the
 * per-state draw records (`DrawState`) and the effect on the indicator fields
 * (`AfterPass`). The class `CircularStatesView` holds the mutable state and
 * its methods are proved against those functions.
 */
module StatesView {
  import opened Optional
  import opened Graphics
  import opened DataSource
  import opened Timers
  import G = Geometry
  import Ripple
  import Pulse

  /** Label measurement with the title font (`UILabel.sizeThatFits`): the
      size a title needs inside a maximal box. */
  type Measure = (Option<string>, Size) -> Size

  /** Everything one render pass reads, fixed for the whole pass. */
  datatype Pass = Pass(
    source: Option<Source>, count: int, diameter: real, bounds: Size, style: Style,
    measure: Measure, maxTitleWidth: real, activityIndex: Option<int>)

  function Min(a: real, b: real): real { if a <= b then a else b }
  function Max(a: real, b: real): real { if a >= b then a else b }

  // ---------------------------------------------------------------- titles

  /** `crateTitleLabelWithText`: the measured title size, clamped to the room
      beside the circle and to the circle's height less two margins. */
  function TitleSize(bounds: Size, d: real, measure: Measure, text: Option<string>): (s: Size)
    ensures s.width <= bounds.width - (d + 3.0 * G.Margin)
    ensures s.width <= measure(text, Size(bounds.width - (d + 3.0 * G.Margin), d - 2.0 * G.Margin)).width
    ensures s.width == bounds.width - (d + 3.0 * G.Margin) ||
            s.width == measure(text, Size(bounds.width - (d + 3.0 * G.Margin), d - 2.0 * G.Margin)).width
    ensures s.height <= d - 2.0 * G.Margin
    ensures s.height <= measure(text, Size(bounds.width - (d + 3.0 * G.Margin), d - 2.0 * G.Margin)).height
    ensures s.height == d - 2.0 * G.Margin ||
            s.height == measure(text, Size(bounds.width - (d + 3.0 * G.Margin), d - 2.0 * G.Margin)).height
  {
    var maxSize := Size(bounds.width - (d + 3.0 * G.Margin), d - 2.0 * G.Margin);
    var fits := measure(text, maxSize);
    Size(Min(maxSize.width, fits.width), Min(maxSize.height, fits.height))
  }

  /** The largest title width over the first `n` states, starting from 0. */
  function MaxTitleWidth(src: Option<Source>, n: int, bounds: Size, d: real, measure: Measure): real
    decreases n
  {
    if n <= 0 then 0.0
    else Max(MaxTitleWidth(src, n - 1, bounds, d, measure), TitleSize(bounds, d, measure, Title(src, n - 1)).width)
  }

  /** The widest title is non-negative, at least as wide as every title, and
      either 0 or the width of one of them. */
  lemma {:induction false} MaxTitleWidthBounds(src: Option<Source>, n: int, bounds: Size, d: real, measure: Measure)
    ensures MaxTitleWidth(src, n, bounds, d, measure) >= 0.0
    ensures forall i :: 0 <= i < n ==>
              TitleSize(bounds, d, measure, Title(src, i)).width <= MaxTitleWidth(src, n, bounds, d, measure)
    ensures MaxTitleWidth(src, n, bounds, d, measure) == 0.0 ||
            exists i :: 0 <= i < n && MaxTitleWidth(src, n, bounds, d, measure) == TitleSize(bounds, d, measure, Title(src, i)).width
    decreases n
  {
    if n > 0 {
      MaxTitleWidthBounds(src, n - 1, bounds, d, measure);
    }
  }

  /** `titleLabelMaxWidth`: the loop over all states keeping the widest
      title. */
  method TitleLabelMaxWidth(src: Option<Source>, n: int, bounds: Size, d: real, measure: Measure) returns (maxWidth: real)
    requires n >= 0
    ensures maxWidth == MaxTitleWidth(src, n, bounds, d, measure)
    ensures maxWidth >= 0.0
    ensures forall i :: 0 <= i < n ==> TitleSize(bounds, d, measure, Title(src, i)).width <= maxWidth
  {
    maxWidth := 0.0;
    for index := 0 to n
      invariant maxWidth == MaxTitleWidth(src, index, bounds, d, measure)
    {
      var titleWidth := TitleSize(bounds, d, measure, Title(src, index)).width;
      maxWidth := Max(maxWidth, titleWidth);
    }
    MaxTitleWidthBounds(src, n, bounds, d, measure);
  }

  // -------------------------------------------------------------- geometry

  function LeadingMargin(p: Pass): real
  {
    G.LeadingMargin(p.bounds.width, p.diameter, p.maxTitleWidth, G.Margin)
  }

  /** All circles share one centre line. */
  function CenterX(p: Pass): real
  {
    LeadingMargin(p) + G.Radius(p.diameter) + G.Margin
  }

  function TopMargin(p: Pass): real
  {
    G.TopMargin(p.count, p.diameter, p.style.seperatorLength, p.bounds.height)
  }

  function CenterY(p: Pass, i: int): real
  {
    G.CenterY(i, p.diameter, p.style.seperatorLength, TopMargin(p))
  }

  function Center(p: Pass, i: int): Point
  {
    Point(CenterX(p), CenterY(p, i))
  }

  /** `circularPath.bounds` of state `i`: the target frame of a decoration. */
  function StateBounds(p: Pass, i: int): Rect
  {
    CircleBounds(Center(p, i), p.diameter)
  }

  // ------------------------------------------------------------ draw pass

  /** The separator below an active state is drawn in the active colour
      exactly when the next state exists and is active too. */
  predicate NextActive(p: Pass, i: int)
  {
    IsActive(p.source, i) && i < p.count - 1 && IsActive(p.source, i + 1)
  }

  /** State `i` is an active state followed by an inactive one. */
  predicate Boundary(p: Pass, i: int)
  {
    IsActive(p.source, i) && i < p.count - 1 && !IsActive(p.source, i + 1)
  }

  /** What the loop body of `drawRect` draws for state `i`. */
  function DrawState(p: Pass, i: int): StateDraw
  {
    var active := IsActive(p.source, i);
    var c := Center(p, i);
    var r := G.Radius(p.diameter);
    var text := Title(p.source, i);
    var size := TitleSize(p.bounds, p.diameter, p.measure, text);
    StateDraw(
      CircleDraw(c, p.diameter, p.style.circleBorderWidth,
                 if active then CircleActiveColor else CircleInactiveColor, CircleBorderColor),
      match Icon(p.source, i, active)
      case None => None
      case Some(img) => Some(IconDraw(img, Point(c.x - img.size.width / 2.0, c.y - img.size.height / 2.0))),
      TitleDraw(text, if active then TitleLabelActiveTextColor else TitleLabelInactiveTextColor,
                Rect(c.x + r + G.Margin, c.y - size.height / 2.0, size.width, size.height)),
      if i != p.count - 1 then
        Some(LineDraw(Point(c.x, c.y + r), Point(c.x, c.y + r + p.style.seperatorLength),
                      p.style.seperatorWidth, if NextActive(p, i) then CircleActiveColor else SeperatorColor))
      else None)
  }

  /** The draw records of states `0..n-1`, in drawing order. */
  function Render(p: Pass, n: int): seq<StateDraw>
    decreases n
  {
    if n <= 0 then [] else Render(p, n - 1) + [DrawState(p, n - 1)]
  }

  /** One record per state, and record `i` is state `i`'s. */
  lemma {:induction false} RenderAt(p: Pass, n: int)
    requires n >= 0
    ensures |Render(p, n)| == n
    ensures forall i :: 0 <= i < n ==> Render(p, n)[i] == DrawState(p, i)
    decreases n
  {
    if n > 0 {
      RenderAt(p, n - 1);
    }
  }

  /** Circle fill, icon and title colour all follow the state's active flag;
      an absent data source draws every state inactive, without icon or text. */
  lemma StateColours(p: Pass, i: int)
    ensures DrawState(p, i).circle.fill == CircleActiveColor <==> IsActive(p.source, i)
    ensures DrawState(p, i).circle.fill == CircleInactiveColor <==> !IsActive(p.source, i)
    ensures DrawState(p, i).circle.stroke == CircleBorderColor
    ensures DrawState(p, i).title.color == TitleLabelActiveTextColor <==> IsActive(p.source, i)
    ensures DrawState(p, i).title.color == TitleLabelInactiveTextColor <==> !IsActive(p.source, i)
    ensures DrawState(p, i).title.text == Title(p.source, i)
    ensures DrawState(p, i).icon.Some? <==> Icon(p.source, i, IsActive(p.source, i)).Some?
    ensures DrawState(p, i).icon.Some? ==>
              DrawState(p, i).icon.value.image == Icon(p.source, i, IsActive(p.source, i)).value
    ensures p.source.None? ==>
              DrawState(p, i).circle.fill == CircleInactiveColor && DrawState(p, i).icon.None? &&
              DrawState(p, i).title.text.None?
  {
  }

  /** A separator is drawn below every state but the last; it runs from the
      bottom of circle `i` to the top of circle `i+1`, and it is in the active
      colour exactly when both states are active. */
  lemma Separators(p: Pass, i: int)
    requires 0 <= i < p.count
    ensures DrawState(p, i).separator.Some? <==> i < p.count - 1
    ensures DrawState(p, i).separator.Some? ==>
              var line := DrawState(p, i).separator.value;
              line.from == Point(CenterX(p), CenterY(p, i) + G.Radius(p.diameter)) &&
              line.to == Point(CenterX(p), CenterY(p, i + 1) - G.Radius(p.diameter)) &&
              (line.stroke == CircleActiveColor <==> IsActive(p.source, i) && IsActive(p.source, i + 1)) &&
              (line.stroke != CircleActiveColor ==> line.stroke == SeperatorColor)
  {
    G.SeparatorMeetsNextCircle(i, p.diameter, p.style.seperatorLength, TopMargin(p));
  }

  /** The circles form a vertically centred column with equal steps. */
  lemma ColumnCentred(p: Pass)
    requires p.count > 0
    ensures DrawState(p, 0).circle.center.y - G.Radius(p.diameter) == TopMargin(p)
    ensures DrawState(p, p.count - 1).circle.center.y + G.Radius(p.diameter) == p.bounds.height - TopMargin(p)
    ensures forall i :: 0 <= i < p.count - 1 ==>
              DrawState(p, i + 1).circle.center.y - DrawState(p, i).circle.center.y == p.diameter + p.style.seperatorLength
    ensures forall i :: 0 <= i < p.count ==> DrawState(p, i).circle.center.x == CenterX(p)
  {
    G.ColumnCentred(p.count, p.diameter, p.style.seperatorLength, p.bounds.height);
    forall i | 0 <= i < p.count - 1
      ensures DrawState(p, i + 1).circle.center.y - DrawState(p, i).circle.center.y == p.diameter + p.style.seperatorLength
    {
      G.SeparatorMeetsNextCircle(i, p.diameter, p.style.seperatorLength, TopMargin(p));
    }
  }

  /** Horizontally: the circle keeps at least two margins from the leading
      edge, each title starts one margin right of its circle, is no wider
      than the room beside the circle and no taller than the circle less two
      margins, and ends inside the bounds. When the content is narrower than
      the bounds, the gap before the circle equals the gap after the widest
      title. */
  lemma TitlesFit(p: Pass, i: int)
    requires p.maxTitleWidth == MaxTitleWidth(p.source, p.count, p.bounds, p.diameter, p.measure)
    requires 0 <= i < p.count
    ensures CenterX(p) - G.Radius(p.diameter) >= 2.0 * G.Margin
    ensures DrawState(p, i).title.frame.x == CenterX(p) + G.Radius(p.diameter) + G.Margin
    ensures DrawState(p, i).title.frame.width <= p.bounds.width - (p.diameter + 3.0 * G.Margin)
    ensures DrawState(p, i).title.frame.height <= p.diameter - 2.0 * G.Margin
    ensures DrawState(p, i).title.frame.x + DrawState(p, i).title.frame.width <= p.bounds.width
    ensures DrawState(p, i).title.frame.y + DrawState(p, i).title.frame.height / 2.0 == CenterY(p, i)
    ensures (p.bounds.width - (p.diameter + p.maxTitleWidth + 3.0 * G.Margin)) / 2.0 >= G.Margin ==>
              CenterX(p) - G.Radius(p.diameter) ==
              p.bounds.width - (CenterX(p) + G.Radius(p.diameter) + G.Margin + p.maxTitleWidth)
  {
    MaxTitleWidthBounds(p.source, p.count, p.bounds, p.diameter, p.measure);
  }

  /** The loop body of `drawRect` for state `i`, given the active flags the
      loop has already asked for: circle, icon, title and separator. */
  method DrawStateAt(p: Pass, index: int, centerX: real, isActive: bool, isNextStateActive: bool) returns (d: StateDraw)
    requires centerX == CenterX(p)
    requires isActive == IsActive(p.source, index) && isNextStateActive == NextActive(p, index)
    ensures d == DrawState(p, index)
  {
    var radius := G.Radius(p.diameter);
    var centerY := G.CenterY(index, p.diameter, p.style.seperatorLength,
                             G.TopMargin(p.count, p.diameter, p.style.seperatorLength, p.bounds.height));
    var center := Point(centerX, centerY);
    var fill := if isActive then CircleActiveColor else CircleInactiveColor;
    var circle := CircleDraw(center, p.diameter, p.style.circleBorderWidth, fill, CircleBorderColor);

    var icon: Option<IconDraw> := None;
    var iconImage := Icon(p.source, index, isActive);
    if iconImage.Some? {
      var size := iconImage.value.size;
      icon := Some(IconDraw(iconImage.value, Point(centerX - size.width / 2.0, centerY - size.height / 2.0)));
    }

    var text := Title(p.source, index);
    var titleSize := TitleSize(p.bounds, p.diameter, p.measure, text);
    var titleColor := if isActive then TitleLabelActiveTextColor else TitleLabelInactiveTextColor;
    var title := TitleDraw(text, titleColor,
                           Rect(centerX + radius + G.Margin, centerY - titleSize.height / 2.0, titleSize.width, titleSize.height));

    var separator: Option<LineDraw> := None;
    if index != p.count - 1 {
      var stroke := if isNextStateActive then CircleActiveColor else SeperatorColor;
      separator := Some(LineDraw(Point(centerX, centerY + radius), Point(centerX, centerY + radius + p.style.seperatorLength),
                                 p.style.seperatorWidth, stroke));
    }
    d := StateDraw(circle, icon, title, separator);
  }

  // --------------------------------------------------- indicator decisions

  /** The ripple view as the host sees it. */
  datatype RippleState = RippleState(frame: Rect, hidden: bool, running: bool)

  /** The activity-indicator view as the host sees it. */
  datatype SpinnerState = SpinnerState(frame: Rect, hidden: bool)

  /** The indicator fields of the view: the two target frames and the two
      lazily created decoration views. */
  datatype IndicatorState = IndicatorState(
    rippleFrame: Option<Rect>, indicatorFrame: Option<Rect>,
    ripple: Option<RippleState>, indicator: Option<SpinnerState>)

  /** `updateIndicatorViews`: an indicator frame takes precedence and shows
      the indicator inset by half a margin; otherwise a ripple frame shows
      and starts the ripple. The other decoration is left as it is. */
  function Update(s: IndicatorState): (u: IndicatorState)
    ensures u.rippleFrame == s.rippleFrame && u.indicatorFrame == s.indicatorFrame
    ensures s.indicatorFrame.Some? ==>
              u.ripple == s.ripple && u.indicator == Some(SpinnerState(Inset(s.indicatorFrame.value, G.Margin / 2.0), false))
    ensures s.indicatorFrame.None? && s.rippleFrame.Some? ==>
              u.indicator == s.indicator && u.ripple == Some(RippleState(s.rippleFrame.value, false, true))
    ensures s.indicatorFrame.None? && s.rippleFrame.None? ==> u == s
  {
    if s.indicatorFrame.Some? then
      s.(indicator := Some(SpinnerState(Inset(s.indicatorFrame.value, G.Margin / 2.0), false)))
    else if s.rippleFrame.Some? then
      s.(ripple := Some(RippleState(s.rippleFrame.value, false, true)))
    else s
  }

  /** The boundary at `i` becomes the indicator's target when `i` is the
      configured activity index, else the ripple's. */
  function Target(s: IndicatorState, p: Pass, i: int): IndicatorState
  {
    if p.activityIndex == Some(i) then s.(indicatorFrame := Some(StateBounds(p, i)))
    else s.(rippleFrame := Some(StateBounds(p, i)))
  }

  /** The indicator fields after the loop has visited states `0..n-1`:
      every boundary retargets and updates, without stopping at the first. */
  function AfterPass(s: IndicatorState, p: Pass, n: int): IndicatorState
    decreases n
  {
    if n <= 0 then s
    else
      var t := AfterPass(s, p, n - 1);
      if Boundary(p, n - 1) then Update(Target(t, p, n - 1)) else t
  }

  /** `clearIndicatorViews`: both views hidden, the ripple stopped, both
      target frames dropped; the views themselves are kept. */
  function Cleared(s: IndicatorState): (c: IndicatorState)
    ensures c.rippleFrame.None? && c.indicatorFrame.None?
    ensures c.ripple.Some? <==> s.ripple.Some?
    ensures c.indicator.Some? <==> s.indicator.Some?
    ensures c.ripple.Some? ==> c.ripple.value == RippleState(s.ripple.value.frame, true, false)
    ensures c.indicator.Some? ==> c.indicator.value == SpinnerState(s.indicator.value.frame, true)
  {
    IndicatorState(None, None,
      match s.ripple case None => None case Some(r) => Some(r.(hidden := true, running := false)),
      match s.indicator case None => None case Some(v) => Some(v.(hidden := true)))
  }

  /** No boundary, no change. */
  lemma {:induction false} NoBoundaryNoChange(s: IndicatorState, p: Pass, n: int)
    requires forall i :: 0 <= i < n ==> !Boundary(p, i)
    ensures AfterPass(s, p, n) == s
    decreases n
  {
    if n > 0 {
      NoBoundaryNoChange(s, p, n - 1);
    }
  }

  /** The last boundary that is not the activity index decides the ripple's
      target frame. */
  lemma {:induction false} LastBoundaryWins(s: IndicatorState, p: Pass, n: int, q: int)
    requires 0 <= q < n && Boundary(p, q) && p.activityIndex != Some(q)
    requires forall j :: q < j < n ==> !Boundary(p, j) || p.activityIndex == Some(j)
    ensures AfterPass(s, p, n).rippleFrame == Some(StateBounds(p, q))
    decreases n
  {
    if n - 1 > q {
      LastBoundaryWins(s, p, n - 1, q);
    }
  }

  /** Without a non-indicator boundary the ripple's target frame keeps its
      value from before the pass. */
  lemma {:induction false} RippleFrameKept(s: IndicatorState, p: Pass, n: int)
    requires forall j :: 0 <= j < n ==> !Boundary(p, j) || p.activityIndex == Some(j)
    ensures AfterPass(s, p, n).rippleFrame == s.rippleFrame
    decreases n
  {
    if n > 0 {
      RippleFrameKept(s, p, n - 1);
    }
  }

  /** The indicator's target frame is the activity index's circle when that
      index is a boundary, and keeps its value otherwise. */
  lemma {:induction false} IndicatorFrame(s: IndicatorState, p: Pass, n: int)
    ensures p.activityIndex.Some? && 0 <= p.activityIndex.value < n && Boundary(p, p.activityIndex.value) ==>
              AfterPass(s, p, n).indicatorFrame == Some(StateBounds(p, p.activityIndex.value))
    ensures !(p.activityIndex.Some? && 0 <= p.activityIndex.value < n && Boundary(p, p.activityIndex.value)) ==>
              AfterPass(s, p, n).indicatorFrame == s.indicatorFrame
    decreases n
  {
    if n > 0 {
      IndicatorFrame(s, p, n - 1);
    }
  }

  /** Once an indicator frame is set, a pass never touches the ripple (which
      therefore stays visible and running if it was). */
  lemma {:induction false} IndicatorTakesPrecedence(s: IndicatorState, p: Pass, n: int)
    requires s.indicatorFrame.Some?
    ensures AfterPass(s, p, n).ripple == s.ripple
    ensures AfterPass(s, p, n).indicatorFrame.Some?
    decreases n
  {
    if n > 0 {
      IndicatorTakesPrecedence(s, p, n - 1);
    }
  }

  /** When the pass meets a boundary at or after the point where the
      indicator has a target, the indicator ends up shown at that target
      inset by half a margin. */
  lemma {:induction false} IndicatorShown(s: IndicatorState, p: Pass, n: int, q: int)
    requires 0 <= q < n && Boundary(p, q)
    requires s.indicatorFrame.Some? || p.activityIndex == Some(q)
    ensures AfterPass(s, p, n).indicatorFrame.Some?
    ensures AfterPass(s, p, n).indicator == Some(SpinnerState(Inset(AfterPass(s, p, n).indicatorFrame.value, G.Margin / 2.0), false))
    decreases n
  {
    if n - 1 > q {
      IndicatorShown(s, p, n - 1, q);
      if Boundary(p, n - 1) {
        IndicatorFrame(s, p, n - 1);
        var t := AfterPass(s, p, n - 1);
        if p.activityIndex == Some(n - 1) {
          // a later boundary at the activity index retargets and reshows
        } else {
          assert Target(t, p, n - 1).indicatorFrame == t.indicatorFrame;
        }
      }
    } else {
      assert q == n - 1;
      IndicatorFrame(s, p, n - 1);
    }
  }

  /** With no indicator target before the pass and the activity index not a
      boundary, every boundary shows the ripple: it ends up visible and
      running at the last boundary's circle, and the indicator is untouched. */
  lemma {:induction false} RippleShown(s: IndicatorState, p: Pass, n: int, q: int)
    requires s.indicatorFrame.None?
    requires forall j :: 0 <= j < n && Boundary(p, j) ==> p.activityIndex != Some(j)
    requires 0 <= q < n && Boundary(p, q)
    requires forall j :: q < j < n ==> !Boundary(p, j)
    ensures AfterPass(s, p, n).indicatorFrame.None?
    ensures AfterPass(s, p, n).indicator == s.indicator
    ensures AfterPass(s, p, n).rippleFrame == Some(StateBounds(p, q))
    ensures AfterPass(s, p, n).ripple == Some(RippleState(StateBounds(p, q), false, true))
    decreases n
  {
    if n - 1 > q {
      RippleShown(s, p, n - 1, q);
    } else {
      SpinnerUntouched(s, p, n - 1);
    }
  }

  /** While neither the indicator frame was set nor the activity index is a
      boundary, the indicator view is not touched. */
  lemma {:induction false} SpinnerUntouched(s: IndicatorState, p: Pass, n: int)
    requires s.indicatorFrame.None?
    requires forall j :: 0 <= j < n && Boundary(p, j) ==> p.activityIndex != Some(j)
    ensures AfterPass(s, p, n).indicatorFrame.None?
    ensures AfterPass(s, p, n).indicator == s.indicator
    decreases n
  {
    if n > 0 {
      SpinnerUntouched(s, p, n - 1);
    }
  }

  // ----------------------------------------------------------- the view

  /** Stand-in for `CircularIndicatorView`: only its frame, visibility and
      colour matter to the host. */
  class CircularIndicatorView {
    var frame: Rect
    var hidden: bool
    var indicatorColor: Paint

    constructor ()
      ensures frame == ZeroRect && !hidden
    {
      frame := ZeroRect;
      hidden := false;
      indicatorColor := Black;
    }
  }

  class CircularStatesView {
    var dataSource: Option<Source>
    var numberOfStates: int
    var style: Style
    var indexForStateWithActivityIndicator: Option<int>
    var bounds: Size
    var measure: Measure
    var diameter: real
    var needsDisplay: bool
    var frameForRippleView: Option<Rect>
    var frameForIndicatorView: Option<Rect>
    var rippleView: Ripple.RippleView?
    var indicatorView: CircularIndicatorView?
    const runLoop: RunLoop

    /** The decorations, when they exist, were created by this view with
        the colours it gives them and share its run loop. */
    ghost predicate Valid()
      reads this`rippleView, this`indicatorView, rippleView, indicatorView, runLoop
    {
      runLoop.Valid() &&
      (rippleView != null ==>
         rippleView.runLoop == runLoop && rippleView.Valid() && rippleView.rippleColor == CircleActiveColor) &&
      (indicatorView != null ==> indicatorView.indicatorColor == StateActivityIndicatorColor)
    }

    ghost function Indicators(): IndicatorState
      reads this`frameForRippleView, this`frameForIndicatorView, this`rippleView, this`indicatorView, rippleView, indicatorView
    {
      IndicatorState(frameForRippleView, frameForIndicatorView,
        if rippleView == null then None else Some(RippleState(rippleView.frame, rippleView.hidden, rippleView.timer.Some?)),
        if indicatorView == null then None else Some(SpinnerState(indicatorView.frame, indicatorView.hidden)))
    }

    /** The ripple's timer handle, when it holds one. */
    ghost function HeldTimer(): set<nat>
      reads this`rippleView, rippleView
    {
      if rippleView == null || rippleView.timer.None? then {} else {rippleView.timer.value}
    }

    /** The ripple's pulse sublayers; none while there is no ripple. */
    ghost function Pulses(): seq<Pulse.ShapeLayer>
      reads this`rippleView, rippleView
    {
      if rippleView == null then [] else rippleView.layers
    }

    /** The snapshot a render pass with `n` states reads. */
    function CurrentPass(n: int): Pass
      reads this`dataSource, this`diameter, this`bounds, this`style, this`measure, this`indexForStateWithActivityIndicator
    {
      Pass(dataSource, n, diameter, bounds, style, measure,
           MaxTitleWidth(dataSource, n, bounds, diameter, measure), indexForStateWithActivityIndicator)
    }

    constructor (runLoop: RunLoop, bounds: Size, measure: Measure)
      requires runLoop.Valid()
      ensures Valid()
      ensures this.runLoop == runLoop && this.bounds == bounds && this.measure == measure
      ensures dataSource.None? && numberOfStates == 0 && diameter == 0.0 && style == DefaultStyle
      ensures indexForStateWithActivityIndicator.None?
      ensures Indicators() == IndicatorState(None, None, None, None)
    {
      this.runLoop := runLoop;
      this.bounds := bounds;
      this.measure := measure;
      dataSource := None;
      numberOfStates := 0;
      style := DefaultStyle;
      indexForStateWithActivityIndicator := None;
      diameter := 0.0;
      needsDisplay := false;
      frameForRippleView := None;
      frameForIndicatorView := None;
      rippleView := null;
      indicatorView := null;
    }

    /** Setting any style property requests a redraw. */
    method SetStyle(s: Style)
      modifies this`style, this`needsDisplay
      ensures style == s && needsDisplay
    {
      style := s;
      needsDisplay := true;
    }

    /** `statesCount` */
    method StatesCount() returns (n: int)
      modifies this`numberOfStates
      ensures numberOfStates == CachedCount(old(numberOfStates), dataSource)
      ensures n == numberOfStates
    {
      if numberOfStates == 0 {
        numberOfStates := Count(dataSource);
      }
      n := numberOfStates;
    }

    /** `layoutSubviews` with `calculateCircleDiameter`: with a positive
        count the diameter fills the height (clamped to the maximum size);
        with none it is left unchanged. */
    method LayoutSubviews()
      modifies this`numberOfStates, this`diameter, this`needsDisplay
      ensures numberOfStates == CachedCount(old(numberOfStates), dataSource)
      ensures numberOfStates > 0 ==>
                diameter == G.ClampedDiameter(numberOfStates, bounds.height, style.seperatorLength, G.Margin, style.circleMaxSize)
      ensures numberOfStates <= 0 ==> diameter == old(diameter)
      ensures needsDisplay
    {
      var count := StatesCount();
      if count > 0 {
        diameter := G.ClampedDiameter(count, bounds.height, style.seperatorLength, G.Margin, style.circleMaxSize);
      }
      needsDisplay := true;
    }

    /** `updateIndicatorViews` */
    method UpdateIndicatorViews()
      requires Valid()
      modifies this`rippleView, this`indicatorView, rippleView, indicatorView, runLoop
      ensures Valid()
      ensures Indicators() == Update(old(Indicators()))
      ensures old(runLoop.live) <= runLoop.live && runLoop.live - old(runLoop.live) <= HeldTimer()
      ensures old(HeldTimer()) <= HeldTimer() && Pulses() == old(Pulses())
      ensures old(rippleView) != null ==> rippleView == old(rippleView)
      ensures old(rippleView) == null ==> rippleView == null || fresh(rippleView)
      ensures old(indicatorView) != null ==> indicatorView == old(indicatorView)
      ensures old(indicatorView) == null ==> indicatorView == null || fresh(indicatorView)
    {
      if frameForIndicatorView.Some? {
        if indicatorView == null {
          var v := new CircularIndicatorView();
          v.indicatorColor := StateActivityIndicatorColor;
          indicatorView := v;
        }
        indicatorView.frame := Inset(frameForIndicatorView.value, G.Margin / 2.0);
        indicatorView.hidden := false;
      } else if frameForRippleView.Some? {
        ShowRipple(frameForRippleView.value);
      }
    }

    /** The ripple branch of `updateIndicatorViews`: the ripple is created
        on first use, placed on `frame`, shown and started. */
    method ShowRipple(frame: Rect)
      requires Valid()
      modifies this`rippleView, rippleView, runLoop
      ensures Valid()
      ensures rippleView != null && rippleView.frame == frame && !rippleView.hidden && rippleView.timer.Some?
      ensures old(rippleView) != null ==> rippleView == old(rippleView)
      ensures old(rippleView) == null ==> fresh(rippleView)
      ensures old(runLoop.live) <= runLoop.live && runLoop.live - old(runLoop.live) <= HeldTimer()
      ensures old(HeldTimer()) <= HeldTimer() && Pulses() == old(Pulses())
    {
      if rippleView == null {
        var v := new Ripple.RippleView(runLoop);
        v.rippleColor := CircleActiveColor;
        rippleView := v;
      }
      rippleView.frame := frame;
      rippleView.hidden := false;
      rippleView.StartRippleEffect();
    }

    /** The boundary branch of the `drawRect` loop: the circle's bounds
        become the indicator's target at the activity index and the ripple's
        otherwise, and the decorations are updated. */
    method MarkBoundary(p: Pass, index: int, circleBounds: Rect)
      requires Valid()
      requires p.activityIndex == indexForStateWithActivityIndicator
      requires circleBounds == StateBounds(p, index)
      modifies this`frameForRippleView, this`frameForIndicatorView, this`rippleView, this`indicatorView,
               rippleView, indicatorView, runLoop
      ensures Valid()
      ensures Indicators() == Update(Target(old(Indicators()), p, index))
      ensures old(runLoop.live) <= runLoop.live && runLoop.live - old(runLoop.live) <= HeldTimer()
      ensures old(HeldTimer()) <= HeldTimer() && Pulses() == old(Pulses())
      ensures old(rippleView) != null ==> rippleView == old(rippleView)
      ensures old(rippleView) == null ==> rippleView == null || fresh(rippleView)
      ensures old(indicatorView) != null ==> indicatorView == old(indicatorView)
      ensures old(indicatorView) == null ==> indicatorView == null || fresh(indicatorView)
    {
      if indexForStateWithActivityIndicator == Some(index) {
        frameForIndicatorView := Some(circleBounds);
      } else {
        frameForRippleView := Some(circleBounds);
      }
      UpdateIndicatorViews();
    }

    /** One iteration of the `drawRect` loop: ask whether the state (and, for
        an active one, the next) is active, handle a boundary, then draw. */
    method DrawStep(p: Pass, index: int, centerX: real) returns (draw: StateDraw)
      requires Valid()
      requires p.source == dataSource && p.diameter == diameter && p.bounds == bounds && p.style == style
      requires p.activityIndex == indexForStateWithActivityIndicator
      requires centerX == CenterX(p)
      modifies this`frameForRippleView, this`frameForIndicatorView, this`rippleView, this`indicatorView,
               rippleView, indicatorView, runLoop
      ensures Valid()
      ensures draw == DrawState(p, index)
      ensures Indicators() == if Boundary(p, index) then Update(Target(old(Indicators()), p, index)) else old(Indicators())
      ensures old(runLoop.live) <= runLoop.live && runLoop.live - old(runLoop.live) <= HeldTimer()
      ensures old(HeldTimer()) <= HeldTimer() && Pulses() == old(Pulses())
      ensures old(rippleView) != null ==> rippleView == old(rippleView)
      ensures old(rippleView) == null ==> rippleView == null || fresh(rippleView)
      ensures old(indicatorView) != null ==> indicatorView == old(indicatorView)
      ensures old(indicatorView) == null ==> indicatorView == null || fresh(indicatorView)
    {
      var center := Point(centerX, G.CenterY(index, diameter, style.seperatorLength,
                                             G.TopMargin(p.count, diameter, style.seperatorLength, bounds.height)));
      var isActive := IsActive(dataSource, index);
      var isNextStateActive := false;
      if isActive {
        if index < p.count - 1 {
          isNextStateActive := IsActive(dataSource, index + 1);
          if !isNextStateActive {
            MarkBoundary(p, index, CircleBounds(center, diameter));
          }
        }
      }
      draw := DrawStateAt(p, index, centerX, isActive, isNextStateActive);
    }

    /** `clearIndicatorViews` */
    method ClearIndicatorViews()
      requires Valid()
      modifies this`frameForRippleView, this`frameForIndicatorView, rippleView, indicatorView, runLoop
      ensures Valid()
      ensures Indicators() == Cleared(old(Indicators()))
      ensures rippleView != null ==> rippleView.LiveTimers() == {}
      ensures runLoop.live == old(runLoop.live) - old(HeldTimer()) && Pulses() == old(Pulses())
    {
      if rippleView != null {
        rippleView.hidden := true;
        rippleView.StopRippleEffect();
      }
      if indicatorView != null {
        indicatorView.hidden := true;
      }
      frameForRippleView := None;
      frameForIndicatorView := None;
    }

    /** `reloadData`: clears the decorations and requests a redraw; the
        cached count is kept. */
    method ReloadData()
      requires Valid()
      modifies this`frameForRippleView, this`frameForIndicatorView, this`needsDisplay, rippleView, indicatorView, runLoop
      ensures Valid()
      ensures Indicators() == Cleared(old(Indicators()))
      ensures rippleView != null ==> rippleView.LiveTimers() == {}
      ensures runLoop.live == old(runLoop.live) - old(HeldTimer()) && Pulses() == old(Pulses())
      ensures numberOfStates == old(numberOfStates) && needsDisplay
    {
      ClearIndicatorViews();
      needsDisplay := true;
    }

    /** `deinit`: the ripple's timer is stopped before the views are
        released. */
    method Deinit()
      requires Valid()
      modifies this`rippleView, this`indicatorView, rippleView, runLoop
      ensures rippleView == null && indicatorView == null
      ensures old(rippleView) != null ==> old(rippleView).timer.None? && old(rippleView).LiveTimers() == {}
      ensures old(rippleView) != null ==> old(rippleView).layers == old(Pulses())
      ensures runLoop.live == old(runLoop.live) - old(HeldTimer())
    {
      if rippleView != null {
        rippleView.StopRippleEffect();
      }
      rippleView := null;
      indicatorView := null;
    }

    /** The `drawRect` loop over states `0..p.count-1`. */
    method DrawStates(p: Pass, centerX: real) returns (states: seq<StateDraw>)
      requires Valid()
      requires p.source == dataSource && p.diameter == diameter && p.bounds == bounds && p.style == style
      requires p.activityIndex == indexForStateWithActivityIndicator
      requires centerX == CenterX(p) && p.count >= 0
      modifies this`frameForRippleView, this`frameForIndicatorView,
               this`rippleView, this`indicatorView, rippleView, indicatorView, runLoop
      ensures Valid()
      ensures states == Render(p, p.count)
      ensures Indicators() == AfterPass(old(Indicators()), p, p.count)
      ensures old(runLoop.live) <= runLoop.live && runLoop.live - old(runLoop.live) <= HeldTimer()
      ensures old(HeldTimer()) <= HeldTimer() && Pulses() == old(Pulses())
    {
      states := [];
      for index := 0 to p.count
        invariant Valid()
        invariant states == Render(p, index)
        invariant Indicators() == AfterPass(old(Indicators()), p, index)
        invariant old(runLoop.live) <= runLoop.live && runLoop.live - old(runLoop.live) <= HeldTimer()
        invariant old(HeldTimer()) <= HeldTimer() && Pulses() == old(Pulses())
        invariant old(rippleView) != null ==> rippleView == old(rippleView)
        invariant old(rippleView) == null ==> rippleView == null || fresh(rippleView)
        invariant old(indicatorView) != null ==> indicatorView == old(indicatorView)
        invariant old(indicatorView) == null ==> indicatorView == null || fresh(indicatorView)
      {
        var draw := DrawStep(p, index, centerX);
        states := states + [draw];
      }
    }

    /** `drawRect`: a negative count traps in `0..<n`; otherwise one draw
        record per state, and the indicator fields updated at every
        boundary. */
    method DrawRect() returns (r: Rendered)
      requires Valid()
      modifies this`numberOfStates, this`frameForRippleView, this`frameForIndicatorView,
               this`rippleView, this`indicatorView, rippleView, indicatorView, runLoop
      ensures Valid()
      ensures numberOfStates == CachedCount(old(numberOfStates), dataSource)
      ensures numberOfStates < 0 ==> r == Trapped && Indicators() == old(Indicators())
      ensures numberOfStates >= 0 ==>
                r.Drawn? && r.states == Render(CurrentPass(numberOfStates), numberOfStates) &&
                Indicators() == AfterPass(old(Indicators()), CurrentPass(numberOfStates), numberOfStates)
      ensures old(runLoop.live) <= runLoop.live && runLoop.live - old(runLoop.live) <= HeldTimer()
      ensures old(HeldTimer()) <= HeldTimer() && Pulses() == old(Pulses())
    {
      var n := StatesCount();
      if n < 0 {
        return Trapped;
      }
      var maxTitleWidth := TitleLabelMaxWidth(dataSource, n, bounds, diameter, measure);
      var p := Pass(dataSource, n, diameter, bounds, style, measure, maxTitleWidth, indexForStateWithActivityIndicator);
      var radius := G.Radius(diameter);
      var centerX := G.LeadingMargin(bounds.width, diameter, maxTitleWidth, G.Margin) + radius + G.Margin;
      var states := DrawStates(p, centerX);
      assert p == CurrentPass(numberOfStates);
      r := Drawn(states);
    }
  }
}
