/** Optional values, standing for Swift's `T?`. */
module Optional {
  datatype Option<+T> = None | Some(value: T)
}

/**
 * The drawing vocabulary shared by the three generations of the view: points,
 * sizes and rectangles over `real` (standing for `CGFloat`, without rounding),
 * the colours a draw call can use, and the abstract draw instructions one
 * render pass emits for one state.
 */
module Graphics {
  import opened Optional

  datatype Point = Point(x: real, y: real)
  datatype Size = Size(width: real, height: real)
  datatype Rect = Rect(x: real, y: real, width: real, height: real)

  const ZeroRect := Rect(0.0, 0.0, 0.0, 0.0)

  /** The rectangle grown inward by `amount` on every side (`amount` added to the
      origin, twice `amount` taken from each dimension). */
  function Inset(r: Rect, amount: real): (i: Rect)
    ensures i.x == r.x + amount && i.y == r.y + amount
    ensures i.x + i.width == r.x + r.width - amount
    ensures i.y + i.height == r.y + r.height - amount
  {
    Rect(r.x + amount, r.y + amount, r.width - 2.0 * amount, r.height - 2.0 * amount)
  }

  /**
   * A colour is named by the style property it is read from (so that two
   * properties holding equal colours stay distinguishable), or by the literal
   * colour the source writes out.
   */
  datatype Paint =
    | CircleActiveColor
    | CircleInactiveColor
    | CircleBorderColor
    | SeperatorColor
    | TitleLabelActiveTextColor
    | TitleLabelInactiveTextColor
    | StateTitleTextColor
    | CircleColor
    | StateActivityIndicatorColor
    | Black
    | Clear
    | BriskColor

  /** The style properties that shape the layout, with their defaults (the
      `didSet` of each requests a redraw). */
  datatype Style = Style(circleMaxSize: Option<real>, seperatorLength: real, circleBorderWidth: real, seperatorWidth: real)

  const DefaultStyle := Style(None, 10.0, 1.0, 1.0)

  /** An icon image; only its size matters to the layout. */
  datatype Image = Image(name: string, size: Size)

  /** A circle path filled with `fill` and stroked with `stroke`. */
  datatype CircleDraw = CircleDraw(center: Point, diameter: real, lineWidth: real, fill: Paint, stroke: Paint)

  /** An image drawn with its top-left corner at `origin`. */
  datatype IconDraw = IconDraw(image: Image, origin: Point)

  /** A title label drawn into `frame`. */
  datatype TitleDraw = TitleDraw(text: Option<string>, color: Paint, frame: Rect)

  /** A straight line segment. */
  datatype LineDraw = LineDraw(from: Point, to: Point, lineWidth: real, stroke: Paint)

  /** Everything one render pass draws for one state, in drawing order. */
  datatype StateDraw = StateDraw(circle: CircleDraw, icon: Option<IconDraw>, title: TitleDraw, separator: Option<LineDraw>)

  /** The outcome of a render pass: the per-state draws, or a runtime trap
      (Swift's `0..<n` with `n < 0`). */
  datatype Rendered = Drawn(states: seq<StateDraw>) | Trapped

  /** The bounding box of a circle path of diameter `d` centred at `c`. */
  function CircleBounds(c: Point, d: real): (r: Rect)
    ensures r.x + r.width / 2.0 == c.x && r.y + r.height / 2.0 == c.y
    ensures r.width == r.height == d
  {
    Rect(c.x - d / 2.0, c.y - d / 2.0, d, d)
  }
}

/**
 * The data source protocol: a record of pure accessors. The view holds an
 * optional source (a weak reference that may be gone); every accessor below
 * answers for an absent source the way Swift's optional chaining does.
 */
module DataSource {
  import opened Optional
  import opened Graphics

  datatype Source = Source(
    numberOfStates: int,
    isStateActive: int -> bool,
    title: int -> Option<string>,
    activeIcon: int -> Option<Image>,
    inactiveIcon: int -> Option<Image>)

  /** `dataSource?.numberOfStates... ?? 0` */
  function Count(src: Option<Source>): (n: int)
    ensures src.None? ==> n == 0
    ensures src.Some? ==> n == src.value.numberOfStates
  {
    match src
    case None => 0
    case Some(s) => s.numberOfStates
  }

  /** `dataSource?.isStateActiveAtIndex(i) == true`: an absent source is
      inactive everywhere. */
  predicate IsActive(src: Option<Source>, i: int)
  {
    src.Some? && src.value.isStateActive(i)
  }

  /** `dataSource?.titleForStateAtIndex(i)` */
  function Title(src: Option<Source>, i: int): (t: Option<string>)
    ensures src.None? ==> t.None?
    ensures src.Some? ==> t == src.value.title(i)
  {
    match src
    case None => None
    case Some(s) => s.title(i)
  }

  /** The icon the pass asks for: the active icon for an active state, the
      inactive one otherwise; nothing for an absent source. */
  function Icon(src: Option<Source>, i: int, active: bool): (img: Option<Image>)
    ensures src.None? ==> img.None?
    ensures src.Some? && active ==> img == src.value.activeIcon(i)
    ensures src.Some? && !active ==> img == src.value.inactiveIcon(i)
  {
    match src
    case None => None
    case Some(s) => if active then s.activeIcon(i) else s.inactiveIcon(i)
  }

  /** The number of states as `statesCount` leaves it: the cache, re-queried
      from the data source only while it is 0. */
  function CachedCount(cache: int, src: Option<Source>): (n: int)
    ensures cache != 0 ==> n == cache
    ensures cache == 0 ==> n == Count(src)
  {
    if cache == 0 then Count(src) else cache
  }

  /** Once the cache is non-zero, no later query (whatever the data source
      says then) changes it. */
  lemma CountFixedOnceNonZero(cache: int, before: Option<Source>, after: Option<Source>)
    requires CachedCount(cache, before) != 0
    ensures CachedCount(CachedCount(cache, before), after) == CachedCount(cache, before)
  {
  }
}
