/**
 * Closed-form layout arithmetic of the states column, over `real`.
 * A column of `n` circles of diameter `d`, separated by lines of length
 * `sep`, occupies `n*d + (n-1)*sep` vertically.
 */
module Geometry {
  import opened Optional

  /** The fixed inner margin of every generation of the view. */
  const Margin: real := 8.0

  function Radius(d: real): real { d / 2.0 }

  /** The vertical extent of the column of circles and separators. */
  function ColumnHeight(n: int, d: real, sep: real): real
  {
    n as real * d + (n - 1) as real * sep
  }

  /** The diameter that makes the column plus a margin above and below
      exactly fill `height`. */
  function UnclampedDiameter(n: int, height: real, sep: real, margin: real): (d: real)
    requires n != 0
    ensures ColumnHeight(n, d, sep) + 2.0 * margin == height
  {
    (height - (n - 1) as real * sep - 2.0 * margin) / n as real
  }

  /** `min(unclamped, circleMaxSize ?? CGFloat.max)`; an absent maximum
      clamps nothing. */
  function ClampedDiameter(n: int, height: real, sep: real, margin: real, maxSize: Option<real>): (d: real)
    requires n > 0
    ensures d <= UnclampedDiameter(n, height, sep, margin)
    ensures maxSize.Some? ==> d <= maxSize.value
    ensures d == UnclampedDiameter(n, height, sep, margin) || (maxSize.Some? && d == maxSize.value)
  {
    var u := UnclampedDiameter(n, height, sep, margin);
    match maxSize
    case None => u
    case Some(m) => if u <= m then u else m
  }

  /** Half of the vertical room the column leaves free. */
  function TopMargin(n: int, d: real, sep: real, height: real): real
  {
    (height - ColumnHeight(n, d, sep)) / 2.0
  }

  /** The centre line of circle `i` when circle 0's top edge is at `top`. */
  function CenterY(i: int, d: real, sep: real, top: real): real
  {
    Radius(d) + i as real * (d + sep) + top
  }

  /** The offset of the circle column from the leading edge: the circle, the
      widest title and three margins are centred horizontally, but never
      closer than `margin` to the edge. */
  function LeadingMargin(width: real, d: real, maxTitleWidth: real, margin: real): (l: real)
    ensures l >= margin
    ensures l >= (width - (d + maxTitleWidth + 3.0 * margin)) / 2.0
    ensures l == margin || l == (width - (d + maxTitleWidth + 3.0 * margin)) / 2.0
  {
    var centred := (width - (d + maxTitleWidth + 3.0 * margin)) / 2.0;
    if centred >= margin then centred else margin
  }

  /** In a clamped layout the whole column, with a margin above and below,
      fits in the height. */
  lemma ColumnFits(n: int, height: real, sep: real, margin: real, maxSize: Option<real>)
    requires n > 0
    ensures ColumnHeight(n, ClampedDiameter(n, height, sep, margin, maxSize), sep) + 2.0 * margin <= height
  {
    var d := ClampedDiameter(n, height, sep, margin, maxSize);
    var u := UnclampedDiameter(n, height, sep, margin);
    MulMonotonic(n as real, d, u);
  }

  lemma MulMonotonic(k: real, a: real, b: real)
    requires k >= 0.0 && a <= b
    ensures k * a <= k * b
  {
  }

  /** Without a clamp (or when the clamp does not bite) the top margin is
      exactly `margin`; with a clamp it is at least `margin`. */
  lemma TopMarginAtLeastMargin(n: int, height: real, sep: real, margin: real, maxSize: Option<real>)
    requires n > 0
    ensures TopMargin(n, ClampedDiameter(n, height, sep, margin, maxSize), sep, height) >= margin
    ensures ClampedDiameter(n, height, sep, margin, maxSize) == UnclampedDiameter(n, height, sep, margin) ==>
              TopMargin(n, ClampedDiameter(n, height, sep, margin, maxSize), sep, height) == margin
  {
    ColumnFits(n, height, sep, margin, maxSize);
  }

  /** The column is vertically centred: circle 0's top edge is at the top
      margin, circle `n-1`'s bottom edge is as far from the bottom. */
  lemma ColumnCentred(n: int, d: real, sep: real, height: real)
    requires n > 0
    ensures CenterY(0, d, sep, TopMargin(n, d, sep, height)) - Radius(d) == TopMargin(n, d, sep, height)
    ensures CenterY(n - 1, d, sep, TopMargin(n, d, sep, height)) + Radius(d) == height - TopMargin(n, d, sep, height)
  {
    var top := TopMargin(n, d, sep, height);
    calc {
      CenterY(n - 1, d, sep, top) + Radius(d);
      d + (n - 1) as real * (d + sep) + top;
      { assert (n - 1) as real * (d + sep) == (n - 1) as real * d + (n - 1) as real * sep; }
      n as real * d + (n - 1) as real * sep + top;
    }
  }

  /** Consecutive centres are one diameter plus one separator apart, and the
      separator drawn below circle `i` ends exactly on circle `i+1`'s top edge. */
  lemma SeparatorMeetsNextCircle(i: int, d: real, sep: real, top: real)
    ensures CenterY(i + 1, d, sep, top) - CenterY(i, d, sep, top) == d + sep
    ensures CenterY(i, d, sep, top) + Radius(d) + sep == CenterY(i + 1, d, sep, top) - Radius(d)
  {
    assert (i + 1) as real * (d + sep) == i as real * (d + sep) + (d + sep);
  }

  /** More states never make the circles larger, as long as the bounds have
      room for the two margins (less one separator). */
  lemma DiameterNonIncreasing(n: int, height: real, sep: real, margin: real, maxSize: Option<real>)
    requires n > 0
    requires height + sep >= 2.0 * margin
    ensures UnclampedDiameter(n + 1, height, sep, margin) <= UnclampedDiameter(n, height, sep, margin)
    ensures ClampedDiameter(n + 1, height, sep, margin, maxSize) <= ClampedDiameter(n, height, sep, margin, maxSize)
  {
    var a := height + sep - 2.0 * margin;
    UnclampedAsQuotient(n, height, sep, margin);
    UnclampedAsQuotient(n + 1, height, sep, margin);
    DivAntitone(a, n as real, (n + 1) as real);
  }

  /** The unclamped diameter plus one separator shares out the height (plus
      one separator, less two margins) evenly among the `n` states. */
  lemma UnclampedAsQuotient(n: int, height: real, sep: real, margin: real)
    requires n > 0
    ensures UnclampedDiameter(n, height, sep, margin) + sep == (height + sep - 2.0 * margin) / n as real
  {
    var u := UnclampedDiameter(n, height, sep, margin);
    var k := n as real;
    assert k * (u + sep) == height + sep - 2.0 * margin by {
      assert k * (u + sep) == k * u + (k - 1.0) * sep + sep;
    }
    QuotientUnique(u + sep, height + sep - 2.0 * margin, k);
  }

  lemma QuotientUnique(x: real, a: real, k: real)
    requires k > 0.0 && k * x == a
    ensures x == a / k
  {
  }

  lemma DivAntitone(a: real, k: real, j: real)
    requires a >= 0.0 && 0.0 < k <= j
    ensures a / j <= a / k
  {
    assert a / j * j == a;
    assert a / k * k == a;
    if a / j > a / k {
      MulMonotonic(k, a / k, a / j);
      MulMonotonic(a / j, k, j);
      assert false;
    }
  }
}
