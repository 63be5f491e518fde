/**
 * The first prototype of the view: `numberOfStates` identical circles (four
 * until the property is set, and setting it requests a redraw), one margin
 * from the top and leading edges, joined by separators. It has no data
 * source, no titles, no icons and no indicators.
 */
module Prototype {
  import opened Optional
  import opened Graphics
  import G = Geometry

  /** What one iteration of the prototype's `drawRect` loop strokes. */
  datatype PlainDraw = PlainDraw(circle: CircleDraw, separator: Option<LineDraw>)

  /** A render pass: the circles, a trap on a negative count, or as many
      iterations as there are states over a diameter that is not a finite
      number (the count was zero at the last layout), which draw nothing
      visible. */
  datatype Outcome = PlainDrawn(draws: seq<PlainDraw>) | PlainTrapped | Degenerate(iterations: nat)

  /** The style properties the prototype draws with. */
  datatype PlainStyle = PlainStyle(circleBorderWidth: real, seperatorLength: real, seperatorWidth: real)

  const DefaultPlainStyle := PlainStyle(1.0, 10.0, 1.0)

  /** Circle `i`'s centre: the column starts one margin below the top. */
  function Center(i: int, d: real, st: PlainStyle): Point
  {
    Point(G.Margin + G.Radius(d), G.CenterY(i, d, st.seperatorLength, G.Margin))
  }

  /** The circle and, below every circle but the last, the separator. */
  function PlainState(n: int, i: int, d: real, st: PlainStyle): PlainDraw
  {
    var c := Center(i, d, st);
    var r := G.Radius(d);
    PlainDraw(
      CircleDraw(c, d, st.circleBorderWidth, CircleColor, CircleBorderColor),
      if i != n - 1 then
        Some(LineDraw(Point(c.x, c.y + r), Point(c.x, c.y + r + st.seperatorLength), st.seperatorWidth, SeperatorColor))
      else None)
  }

  /** The first `k` records of a pass over `n` states. */
  function PlainRender(n: int, k: int, d: real, st: PlainStyle): seq<PlainDraw>
    decreases k
  {
    if k <= 0 then [] else PlainRender(n, k - 1, d, st) + [PlainState(n, k - 1, d, st)]
  }

  lemma {:induction false} PlainRenderAt(n: int, k: int, d: real, st: PlainStyle)
    requires k >= 0
    ensures |PlainRender(n, k, d, st)| == k
    ensures forall i :: 0 <= i < k ==> PlainRender(n, k, d, st)[i] == PlainState(n, i, d, st)
    decreases k
  {
    if k > 0 {
      PlainRenderAt(n, k - 1, d, st);
    }
  }

  /** Every circle is filled and stroked in the two circle colours, every
      separator is in the separator colour, only the last circle has none,
      and each separator runs down the shared centre line from the circle's
      bottom edge to the next circle's top edge. */
  lemma PlainStateShape(n: int, i: int, d: real, st: PlainStyle)
    requires 0 <= i < n
    ensures PlainState(n, i, d, st).circle.fill == CircleColor
    ensures PlainState(n, i, d, st).circle.stroke == CircleBorderColor
    ensures PlainState(n, i, d, st).separator.Some? <==> i < n - 1
    ensures PlainState(n, i, d, st).separator.Some? ==>
              PlainState(n, i, d, st).separator.value.stroke == SeperatorColor &&
              PlainState(n, i, d, st).separator.value.from ==
                Point(Center(i, d, st).x, Center(i, d, st).y + G.Radius(d)) &&
              PlainState(n, i, d, st).separator.value.to ==
                Point(Center(i + 1, d, st).x, Center(i + 1, d, st).y - G.Radius(d))
  {
    G.SeparatorMeetsNextCircle(i, d, st.seperatorLength, G.Margin);
  }

  /** With the diameter the layout computes, the column spans the height
      exactly: the first circle's top edge and the last circle's bottom edge
      are each one margin from the bounds. */
  lemma ColumnSpansHeight(n: int, height: real, st: PlainStyle)
    requires n > 0
    ensures Center(0, G.UnclampedDiameter(n, height, st.seperatorLength, G.Margin), st).y
              - G.Radius(G.UnclampedDiameter(n, height, st.seperatorLength, G.Margin)) == G.Margin
    ensures Center(n - 1, G.UnclampedDiameter(n, height, st.seperatorLength, G.Margin), st).y
              + G.Radius(G.UnclampedDiameter(n, height, st.seperatorLength, G.Margin)) == height - G.Margin
  {
    var d := G.UnclampedDiameter(n, height, st.seperatorLength, G.Margin);
    G.ColumnCentred(n, d, st.seperatorLength, height);
    assert G.TopMargin(n, d, st.seperatorLength, height) == G.Margin;
  }

  class CricularStatesView {
    var numberOfStates: int
    var style: PlainStyle
    var bounds: Size
    /** `None` when the last layout divided by a zero count. */
    var diameter: Option<real>
    var needsDisplay: bool

    constructor (bounds: Size)
      ensures this.bounds == bounds && numberOfStates == 4 && style == DefaultPlainStyle
      ensures diameter == Some(0.0) && !needsDisplay
    {
      this.bounds := bounds;
      numberOfStates := 4;
      style := DefaultPlainStyle;
      diameter := Some(0.0);
      needsDisplay := false;
    }

    /** The `numberOfStates` setter: the value is taken as is, and a redraw
        is requested. */
    method SetNumberOfStates(n: int)
      modifies this`numberOfStates, this`needsDisplay
      ensures numberOfStates == n && needsDisplay
    {
      numberOfStates := n;
      needsDisplay := true;
    }

    /** The style setters: each requests a redraw. */
    method SetStyle(st: PlainStyle)
      modifies this`style, this`needsDisplay
      ensures style == st && needsDisplay
    {
      style := st;
      needsDisplay := true;
    }

    /** `layoutSubviews` with `calculateCircleDiameter`: no clamp and no
        guard, so a zero count gives a non-finite quotient. */
    method LayoutSubviews()
      modifies this`diameter, this`needsDisplay
      ensures numberOfStates != 0 ==>
                diameter == Some(G.UnclampedDiameter(numberOfStates, bounds.height, style.seperatorLength, G.Margin))
      ensures numberOfStates == 0 ==> diameter.None?
      ensures needsDisplay
    {
      if numberOfStates != 0 {
        diameter := Some(G.UnclampedDiameter(numberOfStates, bounds.height, style.seperatorLength, G.Margin));
      } else {
        diameter := None;
      }
      needsDisplay := true;
    }

    /** `drawRect`: one circle per state, in order; a negative count traps
        in `0..<n`. */
    method DrawRect() returns (r: Outcome)
      ensures numberOfStates < 0 <==> r == PlainTrapped
      ensures numberOfStates >= 0 && diameter.Some? ==>
                r.PlainDrawn? && |r.draws| == numberOfStates &&
                forall i :: 0 <= i < numberOfStates ==> r.draws[i] == PlainState(numberOfStates, i, diameter.value, style)
      ensures numberOfStates >= 0 && diameter.None? ==>
                r == (if numberOfStates == 0 then PlainDrawn([]) else Degenerate(numberOfStates))
    {
      var n := numberOfStates;
      if n < 0 {
        return PlainTrapped;
      }
      if diameter.None? {
        return if n == 0 then PlainDrawn([]) else Degenerate(n);
      }
      var d := diameter.value;
      var draws: seq<PlainDraw> := [];
      for index := 0 to n
        invariant draws == PlainRender(n, index, d, style)
      {
        var centerX := G.Margin + d / 2.0;
        var centerY := d / 2.0 + index as real * (d + style.seperatorLength) + G.Margin;
        var circle := CircleDraw(Point(centerX, centerY), d, style.circleBorderWidth, CircleColor, CircleBorderColor);
        var separator: Option<LineDraw> := None;
        if index != n - 1 {
          separator := Some(LineDraw(Point(centerX, centerY + d / 2.0),
                                     Point(centerX, centerY + d / 2.0 + style.seperatorLength),
                                     style.seperatorWidth, SeperatorColor));
        }
        assert PlainDraw(circle, separator) == PlainState(n, index, d, style);
        draws := draws + [PlainDraw(circle, separator)];
      }
      PlainRenderAt(n, n, d, style);
      r := PlainDrawn(draws);
    }
  }
}
