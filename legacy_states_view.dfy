/**
 * The earlier generation of the states view: circles pinned one margin from
 * the leading edge, one title colour, a ripple at every active/inactive
 * boundary (no activity indicator), and the unguarded ripple view.
 */
module LegacyStatesView {
  import opened Optional
  import opened Graphics
  import opened DataSource
  import opened Timers
  import G = Geometry
  import LegacyRipple
  import Pulse

  /** Everything one render pass reads, fixed for the whole pass. */
  datatype Pass = Pass(source: Option<Source>, count: int, diameter: real, bounds: Size, style: Style)

  function TopMargin(p: Pass): real
  {
    G.TopMargin(p.count, p.diameter, p.style.seperatorLength, p.bounds.height)
  }

  /** All circles hang one margin from the leading edge. */
  function CenterX(p: Pass): real
  {
    G.Margin + G.Radius(p.diameter)
  }

  function CenterY(p: Pass, i: int): real
  {
    G.CenterY(i, p.diameter, p.style.seperatorLength, TopMargin(p))
  }

  function StateBounds(p: Pass, i: int): Rect
  {
    CircleBounds(Point(CenterX(p), CenterY(p, i)), p.diameter)
  }

  predicate NextActive(p: Pass, i: int)
  {
    IsActive(p.source, i) && i < p.count - 1 && IsActive(p.source, i + 1)
  }

  /** State `i` is an active state followed by an inactive one. */
  predicate Boundary(p: Pass, i: int)
  {
    IsActive(p.source, i) && i < p.count - 1 && !IsActive(p.source, i + 1)
  }

  /** The title box: one margin right of the circle, filling the width up to
      one margin before the trailing edge, as tall as the circle less two
      margins, and vertically centred on the circle. */
  function TitleFrame(p: Pass, i: int): (f: Rect)
    ensures f.x == CenterX(p) + G.Radius(p.diameter) + G.Margin
    ensures f.x + f.width == p.bounds.width - G.Margin
    ensures f.height == p.diameter - 2.0 * G.Margin
    ensures f.y + f.height / 2.0 == CenterY(p, i)
  {
    var cx := CenterX(p);
    var r := G.Radius(p.diameter);
    var width := p.bounds.width - (cx + r + 2.0 * G.Margin);
    var height := p.diameter - 2.0 * G.Margin;
    Rect(cx + r + G.Margin, CenterY(p, i) - height / 2.0, width, height)
  }

  /** What the loop body of `drawRect` draws for state `i`. */
  function DrawState(p: Pass, i: int): StateDraw
  {
    var active := IsActive(p.source, i);
    var c := Point(CenterX(p), CenterY(p, i));
    var r := G.Radius(p.diameter);
    StateDraw(
      CircleDraw(c, p.diameter, p.style.circleBorderWidth,
                 if active then CircleActiveColor else CircleInactiveColor, CircleBorderColor),
      match Icon(p.source, i, active)
      case None => None
      case Some(img) => Some(IconDraw(img, Point(c.x - img.size.width / 2.0, c.y - img.size.height / 2.0))),
      TitleDraw(Title(p.source, i), StateTitleTextColor, TitleFrame(p, i)),
      if i != p.count - 1 then
        Some(LineDraw(Point(c.x, c.y + r), Point(c.x, c.y + r + p.style.seperatorLength),
                      p.style.seperatorWidth, if NextActive(p, i) then CircleActiveColor else SeperatorColor))
      else None)
  }

  function Render(p: Pass, n: int): seq<StateDraw>
    decreases n
  {
    if n <= 0 then [] else Render(p, n - 1) + [DrawState(p, n - 1)]
  }

  /** One record per state, and record `i` is state `i`'s. */
  lemma {:induction false} RenderAt(p: Pass, n: int)
    requires n >= 0
    ensures |Render(p, n)| == n
    ensures forall i :: 0 <= i < n ==> Render(p, n)[i] == DrawState(p, i)
    decreases n
  {
    if n > 0 {
      RenderAt(p, n - 1);
    }
  }

  /** The fill follows the active flag, every title has the one title
      colour, and a separator is drawn below every state but the last: from
      circle `i`'s bottom to circle `i+1`'s top, in the active colour exactly
      when both states are active and in the separator colour otherwise. */
  lemma StateDrawing(p: Pass, i: int)
    requires 0 <= i < p.count
    ensures DrawState(p, i).circle.fill == CircleActiveColor <==> IsActive(p.source, i)
    ensures DrawState(p, i).circle.fill == CircleInactiveColor <==> !IsActive(p.source, i)
    ensures DrawState(p, i).circle.stroke == CircleBorderColor
    ensures DrawState(p, i).circle.center == Point(G.Margin + G.Radius(p.diameter), CenterY(p, i))
    ensures DrawState(p, i).title.color == StateTitleTextColor
    ensures DrawState(p, i).separator.Some? <==> i < p.count - 1
    ensures DrawState(p, i).separator.Some? ==>
              var line := DrawState(p, i).separator.value;
              line.from == Point(CenterX(p), CenterY(p, i) + G.Radius(p.diameter)) &&
              line.to == Point(CenterX(p), CenterY(p, i + 1) - G.Radius(p.diameter)) &&
              (line.stroke == CircleActiveColor <==> IsActive(p.source, i) && IsActive(p.source, i + 1)) &&
              (line.stroke != CircleActiveColor ==> line.stroke == SeperatorColor)
  {
    G.SeparatorMeetsNextCircle(i, p.diameter, p.style.seperatorLength, TopMargin(p));
  }

  /** The column is vertically centred: circle 0's top edge and circle
      `n-1`'s bottom edge are equally far from the bounds, with one diameter
      plus one separator between consecutive centres. */
  lemma ColumnCentred(p: Pass)
    requires p.count > 0
    ensures DrawState(p, 0).circle.center.y - G.Radius(p.diameter) == TopMargin(p)
    ensures DrawState(p, p.count - 1).circle.center.y + G.Radius(p.diameter) == p.bounds.height - TopMargin(p)
    ensures forall i :: 0 <= i < p.count - 1 ==>
              DrawState(p, i + 1).circle.center.y - DrawState(p, i).circle.center.y == p.diameter + p.style.seperatorLength
  {
    G.ColumnCentred(p.count, p.diameter, p.style.seperatorLength, p.bounds.height);
    forall i | 0 <= i < p.count - 1
      ensures DrawState(p, i + 1).circle.center.y - DrawState(p, i).circle.center.y == p.diameter + p.style.seperatorLength
    {
      G.SeparatorMeetsNextCircle(i, p.diameter, p.style.seperatorLength, TopMargin(p));
    }
  }

  /** The loop body of `drawRect` for state `i`, given the active flags the
      loop has already asked for: circle, icon, title and separator. */
  method DrawStateAt(p: Pass, index: int, isActive: bool, isNextStateActive: bool) returns (d: StateDraw)
    requires isActive == IsActive(p.source, index) && isNextStateActive == NextActive(p, index)
    ensures d == DrawState(p, index)
  {
    var radius := G.Radius(p.diameter);
    var centerX := G.Margin + radius;
    var centerY := G.CenterY(index, p.diameter, p.style.seperatorLength, TopMargin(p));
    var fill := if isActive then CircleActiveColor else CircleInactiveColor;
    var circle := CircleDraw(Point(centerX, centerY), p.diameter, p.style.circleBorderWidth, fill, CircleBorderColor);
    var icon: Option<IconDraw> := None;
    var iconImage := Icon(p.source, index, isActive);
    if iconImage.Some? {
      var size := iconImage.value.size;
      icon := Some(IconDraw(iconImage.value, Point(centerX - size.width / 2.0, centerY - size.height / 2.0)));
    }
    var titleWidth := p.bounds.width - (centerX + radius + 2.0 * G.Margin);
    var titleHeight := p.diameter - 2.0 * G.Margin;
    var title := TitleDraw(Title(p.source, index), StateTitleTextColor,
                           Rect(centerX + radius + G.Margin, centerY - titleHeight / 2.0, titleWidth, titleHeight));
    var separator: Option<LineDraw> := None;
    if index != p.count - 1 {
      var stroke := if isNextStateActive then CircleActiveColor else SeperatorColor;
      separator := Some(LineDraw(Point(centerX, centerY + radius), Point(centerX, centerY + radius + p.style.seperatorLength),
                                 p.style.seperatorWidth, stroke));
    }
    d := StateDraw(circle, icon, title, separator);
  }

  // --------------------------------------------------- indicator decisions

  datatype RippleState = RippleState(frame: Rect, hidden: bool, running: bool)

  /** The indicator fields of the view, and how many timers its ripple has
      left live. */
  datatype IndicatorState = IndicatorState(rippleFrame: Option<Rect>, ripple: Option<RippleState>, liveTimers: nat)

  /** `updateIndicatorViews`: the ripple is created first, whether or not a
      frame is set; with a frame it is placed, shown and started, which
      always adds a live timer. */
  function Update(s: IndicatorState): (u: IndicatorState)
    ensures u.rippleFrame == s.rippleFrame && u.ripple.Some?
    ensures s.rippleFrame.Some? ==>
              u.ripple == Some(RippleState(s.rippleFrame.value, false, true)) && u.liveTimers == s.liveTimers + 1
    ensures s.rippleFrame.None? ==> u.liveTimers == s.liveTimers
    ensures s.rippleFrame.None? ==>
              u.ripple == (if s.ripple.None? then Some(RippleState(ZeroRect, false, false)) else s.ripple)
  {
    var created := if s.ripple.None? then Some(RippleState(ZeroRect, false, false)) else s.ripple;
    if s.rippleFrame.Some? then
      IndicatorState(s.rippleFrame, Some(RippleState(s.rippleFrame.value, false, true)), s.liveTimers + 1)
    else s.(ripple := created)
  }

  /** The indicator fields after the loop has visited states `0..n-1`. */
  function AfterPass(s: IndicatorState, p: Pass, n: int): IndicatorState
    decreases n
  {
    if n <= 0 then s
    else
      var t := AfterPass(s, p, n - 1);
      if Boundary(p, n - 1) then Update(t.(rippleFrame := Some(StateBounds(p, n - 1)))) else t
  }

  /** The number of boundaries among states `0..n-1`. */
  function Boundaries(p: Pass, n: int): nat
    decreases n
  {
    if n <= 0 then 0 else Boundaries(p, n - 1) + (if Boundary(p, n - 1) then 1 else 0)
  }

  /** Every boundary a pass meets starts one more timer; the ripple ends at
      the last boundary's circle. */
  lemma {:induction false} EveryBoundaryStartsATimer(s: IndicatorState, p: Pass, n: int)
    ensures AfterPass(s, p, n).liveTimers == s.liveTimers + Boundaries(p, n)
    ensures Boundaries(p, n) == 0 ==> AfterPass(s, p, n) == s
    decreases n
  {
    if n > 0 {
      EveryBoundaryStartsATimer(s, p, n - 1);
    }
  }

  /** The last boundary decides where the ripple is, shown and running. */
  lemma {:induction false} LastBoundaryWins(s: IndicatorState, p: Pass, n: int, q: int)
    requires 0 <= q < n && Boundary(p, q)
    requires forall j :: q < j < n ==> !Boundary(p, j)
    ensures AfterPass(s, p, n).rippleFrame == Some(StateBounds(p, q))
    ensures AfterPass(s, p, n).ripple == Some(RippleState(StateBounds(p, q), false, true))
    decreases n
  {
    if n - 1 > q {
      LastBoundaryWins(s, p, n - 1, q);
    }
  }

  /** `clearIndicatorViews` hides and stops the ripple, which invalidates
      only the timer it holds; the target frame is kept. */
  function Cleared(s: IndicatorState): (c: IndicatorState)
    ensures c.rippleFrame == s.rippleFrame
    ensures c.ripple.Some? <==> s.ripple.Some?
    ensures c.ripple.Some? ==> c.ripple.value == RippleState(s.ripple.value.frame, true, false)
    ensures s.ripple.Some? && s.ripple.value.running && s.liveTimers > 0 ==> c.liveTimers == s.liveTimers - 1
    ensures !(s.ripple.Some? && s.ripple.value.running) ==> c.liveTimers == s.liveTimers
  {
    match s.ripple
    case None => s
    case Some(r) =>
      IndicatorState(s.rippleFrame, Some(r.(hidden := true, running := false)),
                     if r.running && s.liveTimers > 0 then s.liveTimers - 1 else s.liveTimers)
  }

  /** Reloading between two passes reclaims only the last timer: starting
      with no ripple, a pass that meets `k >= 1` boundaries starts `k`
      timers, the reload invalidates the one the view still holds, and the
      second pass starts `k` more, so `2k - 1` stay live. */
  lemma ReloadDoesNotReclaim(s: IndicatorState, p: Pass, k: nat)
    requires s.ripple.None? && s.liveTimers == 0
    requires Boundaries(p, p.count) == k && k >= 1
    ensures AfterPass(Cleared(AfterPass(s, p, p.count)), p, p.count).liveTimers == 2 * k - 1
  {
    EveryBoundaryStartsATimer(s, p, p.count);
    var after := AfterPass(s, p, p.count);
    RunningAfterBoundary(s, p, p.count);
    EveryBoundaryStartsATimer(Cleared(after), p, p.count);
  }

  /** After a pass that met a boundary, the ripple exists and is running. */
  lemma {:induction false} RunningAfterBoundary(s: IndicatorState, p: Pass, n: int)
    requires Boundaries(p, n) > 0
    ensures AfterPass(s, p, n).ripple.Some? && AfterPass(s, p, n).ripple.value.running
    decreases n
  {
    if !Boundary(p, n - 1) {
      RunningAfterBoundary(s, p, n - 1);
    }
  }

  // ----------------------------------------------------------- the view

  class CircularStatesView {
    var dataSource: Option<Source>
    var numberOfStates: int
    var style: Style
    var bounds: Size
    var diameter: real
    var needsDisplay: bool
    var frameForRippleView: Option<Rect>
    var rippleView: LegacyRipple.RippleView?
    const runLoop: RunLoop

    ghost predicate Valid()
      reads this`rippleView, rippleView, runLoop
    {
      runLoop.Valid() &&
      (rippleView != null ==> rippleView.runLoop == runLoop && rippleView.Valid())
    }

    ghost function Indicators(): IndicatorState
      reads this`frameForRippleView, this`rippleView, rippleView, runLoop
      reads if rippleView == null then {} else {rippleView.runLoop}
    {
      IndicatorState(frameForRippleView,
        if rippleView == null then None else Some(RippleState(rippleView.frame, rippleView.hidden, rippleView.timer.Some?)),
        if rippleView == null then 0 else |rippleView.LiveTimers()|)
    }

    /** The ripple's timer handle, when it holds one. */
    ghost function HeldTimer(): set<nat>
      reads this`rippleView, rippleView
    {
      if rippleView == null || rippleView.timer.None? then {} else {rippleView.timer.value}
    }

    /** Every live timer the ripple has scheduled, held or not. */
    ghost function OwnTimers(): set<nat>
      reads this`rippleView, rippleView
      reads if rippleView == null then {} else {rippleView.runLoop}
    {
      if rippleView == null then {} else rippleView.LiveTimers()
    }

    /** The ripple's pulse sublayers; none while there is no ripple. */
    ghost function Pulses(): seq<Pulse.ShapeLayer>
      reads this`rippleView, rippleView
    {
      if rippleView == null then [] else rippleView.layers
    }

    function CurrentPass(n: int): Pass
      reads this`dataSource, this`diameter, this`bounds, this`style
    {
      Pass(dataSource, n, diameter, bounds, style)
    }

    constructor (runLoop: RunLoop, bounds: Size)
      requires runLoop.Valid()
      ensures Valid()
      ensures this.runLoop == runLoop && this.bounds == bounds
      ensures dataSource.None? && numberOfStates == 0 && diameter == 0.0 && style == DefaultStyle
      ensures Indicators() == IndicatorState(None, None, 0)
    {
      this.runLoop := runLoop;
      this.bounds := bounds;
      dataSource := None;
      numberOfStates := 0;
      style := DefaultStyle;
      diameter := 0.0;
      needsDisplay := false;
      frameForRippleView := None;
      rippleView := null;
    }

    /** The style setters: each requests a redraw. */
    method SetStyle(st: Style)
      modifies this`style, this`needsDisplay
      ensures style == st && needsDisplay
    {
      style := st;
      needsDisplay := true;
    }

    /** `statesCount` */
    method StatesCount() returns (n: int)
      modifies this`numberOfStates
      ensures numberOfStates == CachedCount(old(numberOfStates), dataSource)
      ensures n == numberOfStates
    {
      if numberOfStates == 0 {
        numberOfStates := Count(dataSource);
      }
      n := numberOfStates;
    }

    /** `layoutSubviews` with `calculateCircleDiameter` */
    method LayoutSubviews()
      modifies this`numberOfStates, this`diameter, this`needsDisplay
      ensures numberOfStates == CachedCount(old(numberOfStates), dataSource)
      ensures numberOfStates > 0 ==>
                diameter == G.ClampedDiameter(numberOfStates, bounds.height, style.seperatorLength, G.Margin, style.circleMaxSize)
      ensures numberOfStates <= 0 ==> diameter == old(diameter)
      ensures needsDisplay
    {
      var count := StatesCount();
      if count > 0 {
        diameter := G.ClampedDiameter(count, bounds.height, style.seperatorLength, G.Margin, style.circleMaxSize);
      }
      needsDisplay := true;
    }

    /** `updateIndicatorViews` */
    method UpdateIndicatorViews()
      requires Valid()
      modifies this`rippleView, rippleView, runLoop
      ensures Valid()
      ensures Indicators() == Update(old(Indicators()))
      ensures old(rippleView) != null ==> rippleView == old(rippleView)
      ensures old(rippleView) == null ==> fresh(rippleView)
      ensures frameForRippleView.Some? ==> runLoop.live == old(runLoop.live) + HeldTimer() && HeldTimer() !! old(runLoop.live)
      ensures frameForRippleView.None? ==> runLoop.live == old(runLoop.live)
      ensures old(runLoop.live) <= runLoop.live && runLoop.live - old(runLoop.live) <= OwnTimers()
      ensures old(OwnTimers()) <= OwnTimers() && Pulses() == old(Pulses())
    {
      if rippleView == null {
        var v := new LegacyRipple.RippleView(runLoop);
        rippleView := v;
      }
      if frameForRippleView.Some? {
        RestartRipple(frameForRippleView.value);
      }
    }

    /** The framed branch of `updateIndicatorViews`: the ripple is placed
        on `frame`, shown and started again, with a timer of its own. */
    method RestartRipple(frame: Rect)
      requires Valid() && rippleView != null
      modifies rippleView, runLoop
      ensures Valid()
      ensures rippleView.frame == frame && !rippleView.hidden && rippleView.timer.Some?
      ensures |rippleView.LiveTimers()| == |old(rippleView.LiveTimers())| + 1
      ensures runLoop.live == old(runLoop.live) + HeldTimer() && HeldTimer() !! old(runLoop.live)
      ensures old(OwnTimers()) <= OwnTimers() && HeldTimer() <= OwnTimers()
      ensures Pulses() == old(Pulses())
    {
      rippleView.frame := frame;
      rippleView.hidden := false;
      rippleView.StartRippleEffect();
    }

    /** `clearIndicatorViews` */
    method ClearIndicatorViews()
      requires Valid()
      modifies rippleView, runLoop
      ensures Valid()
      ensures Indicators() == Cleared(old(Indicators()))
      ensures runLoop.live == old(runLoop.live) - old(HeldTimer()) && Pulses() == old(Pulses())
    {
      if rippleView != null {
        rippleView.hidden := true;
        rippleView.StopRippleEffect();
      }
    }

    /** `reloadData` */
    method ReloadData()
      requires Valid()
      modifies this`needsDisplay, rippleView, runLoop
      ensures Valid()
      ensures Indicators() == Cleared(old(Indicators()))
      ensures runLoop.live == old(runLoop.live) - old(HeldTimer()) && Pulses() == old(Pulses())
      ensures numberOfStates == old(numberOfStates) && needsDisplay
    {
      ClearIndicatorViews();
      needsDisplay := true;
    }

    /** `deinit` */
    method Deinit()
      requires Valid()
      modifies this`rippleView, rippleView, runLoop
      ensures rippleView == null
      ensures old(rippleView) != null ==> old(rippleView).timer.None? && old(rippleView).layers == old(Pulses())
      ensures runLoop.live == old(runLoop.live) - old(HeldTimer())
    {
      if rippleView != null {
        rippleView.StopRippleEffect();
      }
      rippleView := null;
    }

    /** The boundary branch of the `drawRect` loop: the circle's bounds
        become the ripple's target and the ripple is updated. */
    method MarkBoundary(circleBounds: Rect)
      requires Valid()
      modifies this`frameForRippleView, this`rippleView, rippleView, runLoop
      ensures Valid()
      ensures Indicators() == Update(old(Indicators()).(rippleFrame := Some(circleBounds)))
      ensures old(rippleView) != null ==> rippleView == old(rippleView)
      ensures old(rippleView) == null ==> fresh(rippleView)
      ensures runLoop.live == old(runLoop.live) + HeldTimer() && HeldTimer() !! old(runLoop.live)
      ensures old(runLoop.live) <= runLoop.live && runLoop.live - old(runLoop.live) <= OwnTimers()
      ensures old(OwnTimers()) <= OwnTimers() && Pulses() == old(Pulses())
    {
      frameForRippleView := Some(circleBounds);
      UpdateIndicatorViews();
    }

    /** One iteration of the `drawRect` loop: ask whether the state (and, for
        an active one, the next) is active, handle a boundary, then draw. */
    method DrawStep(p: Pass, index: int) returns (draw: StateDraw)
      requires Valid()
      requires p.source == dataSource && p.diameter == diameter && p.bounds == bounds && p.style == style
      modifies this`frameForRippleView, this`rippleView, rippleView, runLoop
      ensures Valid()
      ensures draw == DrawState(p, index)
      ensures Indicators() ==
                if Boundary(p, index) then Update(old(Indicators()).(rippleFrame := Some(StateBounds(p, index))))
                else old(Indicators())
      ensures old(rippleView) != null ==> rippleView == old(rippleView)
      ensures old(rippleView) == null ==> rippleView == null || fresh(rippleView)
      ensures old(runLoop.live) <= runLoop.live && runLoop.live - old(runLoop.live) <= OwnTimers()
      ensures old(OwnTimers()) <= OwnTimers() && Pulses() == old(Pulses())
    {
      var height := bounds.height;
      var marginFromTop := (height - (p.count as real * diameter + (p.count - 1) as real * style.seperatorLength)) / 2.0;
      var radius := G.Radius(diameter);
      var center := Point(G.Margin + radius, radius + index as real * (diameter + style.seperatorLength) + marginFromTop);
      var isActive := IsActive(dataSource, index);
      var isNextStateActive := false;
      if isActive {
        if index < p.count - 1 {
          isNextStateActive := IsActive(dataSource, index + 1);
          if !isNextStateActive {
            assert CircleBounds(center, diameter) == StateBounds(p, index);
            MarkBoundary(CircleBounds(center, diameter));
          }
        }
      }
      draw := DrawStateAt(p, index, isActive, isNextStateActive);
    }

    /** `drawRect`: a negative count traps in `0..<n`; otherwise one draw
        record per state and a ripple restart at every boundary. */
    method DrawRect() returns (r: Rendered)
      requires Valid()
      modifies this`numberOfStates, this`frameForRippleView, this`rippleView, rippleView, runLoop
      ensures Valid()
      ensures numberOfStates == CachedCount(old(numberOfStates), dataSource)
      ensures numberOfStates < 0 ==> r == Trapped && Indicators() == old(Indicators())
      ensures numberOfStates >= 0 ==>
                r.Drawn? && r.states == Render(CurrentPass(numberOfStates), numberOfStates) &&
                Indicators() == AfterPass(old(Indicators()), CurrentPass(numberOfStates), numberOfStates)
      ensures old(runLoop.live) <= runLoop.live && runLoop.live - old(runLoop.live) <= OwnTimers()
      ensures old(OwnTimers()) <= OwnTimers() && Pulses() == old(Pulses())
    {
      var n := StatesCount();
      if n < 0 {
        return Trapped;
      }
      var p := Pass(dataSource, n, diameter, bounds, style);
      var states: seq<StateDraw> := [];
      for index := 0 to n
        invariant Valid()
        invariant numberOfStates == n
        invariant states == Render(p, index)
        invariant Indicators() == AfterPass(old(Indicators()), p, index)
        invariant old(rippleView) != null ==> rippleView == old(rippleView)
        invariant old(rippleView) == null ==> rippleView == null || fresh(rippleView)
        invariant old(runLoop.live) <= runLoop.live && runLoop.live - old(runLoop.live) <= OwnTimers()
        invariant old(OwnTimers()) <= OwnTimers() && Pulses() == old(Pulses())
      {
        var draw := DrawStep(p, index);
        states := states + [draw];
      }
      r := Drawn(states);
    }
  }
}
