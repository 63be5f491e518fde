/**
 * The pulsing decoration shared by the ripple views: the shape layer one
 * timer fire appends, and the timing constants both copies use.
 */
module Pulse {
  import opened Graphics

  /** The repeat interval of the ripple timer. */
  const RippleInterval: real := 1.5

  /** A grouped scale and opacity animation. */
  datatype PulseAnimation = PulseAnimation(
    fromScale: real, toScale: real, fromOpacity: real, toOpacity: real,
    duration: real, removedOnCompletion: bool)

  /** The one animation every pulse carries: scale 1 to 1.5 while fading from
      opacity 1 to 0 over 2.0, removed when done. */
  const RippleAnimation := PulseAnimation(1.0, 1.5, 1.0, 0.0, 2.0, true)

  /** A `CAShapeLayer` pulse: a rounded-rect path the size of the view,
      centred on the layer's position. */
  datatype ShapeLayer = ShapeLayer(
    path: Rect, position: Point, fill: Paint, stroke: Paint,
    lineWidth: real, opacity: real, animation: PulseAnimation)

  /** The pulse a view of size `size` adds, stroked with `stroke`. */
  function PulseLayer(size: Size, stroke: Paint): (l: ShapeLayer)
    ensures l.stroke == stroke && l.fill == Clear && l.animation == RippleAnimation
    ensures l.path.width == size.width && l.path.height == size.height
    ensures l.position.x + l.path.x == 0.0 && l.position.y + l.path.y == 0.0
  {
    ShapeLayer(
      Rect(-size.width / 2.0, -size.height / 2.0, size.width, size.height),
      Point(size.width / 2.0, size.height / 2.0),
      Clear, stroke, 0.5, 0.0, RippleAnimation)
  }

  /** Pulses overlap: a pulse outlives the interval to the next one. */
  lemma PulsesOverlap()
    ensures RippleAnimation.duration > RippleInterval
  {
  }
}

/**
 * The ripple view of the current generation: it holds at most one timer
 * handle, and starting is guarded so that it schedules only when no timer is
 * held.
 */
module Ripple {
  import opened Optional
  import opened Graphics
  import opened Timers
  import opened Pulse

  class RippleView {
    const runLoop: RunLoop
    /** The held timer handle (`NSTimer?`). */
    var timer: Option<nat>
    /** Every handle this view ever scheduled. */
    ghost var scheduled: set<nat>
    var rippleColor: Paint
    var frame: Rect
    var hidden: bool
    /** The sublayers of the view's layer, oldest first. */
    var layers: seq<ShapeLayer>

    /** The live timers this view scheduled. */
    ghost function LiveTimers(): set<nat>
      reads this, runLoop
    {
      scheduled * runLoop.live
    }

    /** The view's own timers: at most one is live, and it is the held one. */
    ghost predicate Valid()
      reads this, runLoop
    {
      runLoop.Valid() &&
      (forall t :: t in scheduled ==> t < |runLoop.schedules|) &&
      LiveTimers() == (if timer.Some? then {timer.value} else {})
    }

    constructor (runLoop: RunLoop)
      requires runLoop.Valid()
      ensures Valid()
      ensures this.runLoop == runLoop && timer.None? && scheduled == {}
      ensures rippleColor == Black && frame == ZeroRect && !hidden && layers == []
    {
      this.runLoop := runLoop;
      timer := None;
      scheduled := {};
      rippleColor := Black;
      frame := ZeroRect;
      hidden := false;
      layers := [];
    }

    /** `startRippleEffect` and the guarded `starTimer`: a repeating timer of
        interval 1.5 is scheduled only when none is held. */
    method StartRippleEffect()
      requires Valid()
      modifies this`timer, this`scheduled, runLoop
      ensures Valid()
      ensures timer.Some? && LiveTimers() == {timer.value}
      ensures old(timer).Some? ==>
                timer == old(timer) && runLoop.schedules == old(runLoop.schedules) && runLoop.live == old(runLoop.live)
      ensures old(timer).None? ==>
                timer == Some(|old(runLoop.schedules)|) &&
                runLoop.schedules == old(runLoop.schedules) + [TimerSpec(RippleInterval, true)] &&
                runLoop.live == old(runLoop.live) + {timer.value}
    {
      if timer.None? {
        var t := runLoop.Schedule(RippleInterval, true);
        timer := Some(t);
        scheduled := scheduled + {t};
      }
    }

    /** `stopRippleEffect` and `stopTimer`: invalidate the held timer, if any,
        and drop the handle. */
    method StopRippleEffect()
      requires Valid()
      modifies this`timer, runLoop
      ensures Valid()
      ensures timer.None? && LiveTimers() == {}
      ensures runLoop.schedules == old(runLoop.schedules)
      ensures runLoop.live == old(runLoop.live) - (if old(timer).Some? then {old(timer).value} else {})
    {
      if timer.Some? {
        runLoop.Invalidate(timer.value);
      }
      timer := None;
    }

    /** `deinit` stops the timer. */
    method Deinit()
      requires Valid()
      modifies this`timer, runLoop
      ensures Valid()
      ensures timer.None? && LiveTimers() == {}
      ensures runLoop.live == old(runLoop.live) - (if old(timer).Some? then {old(timer).value} else {})
    {
      StopRippleEffect();
    }

    /** `fireRipple`: one new pulse sublayer, stroked with the ripple colour,
        goes on top of the existing ones; none is ever removed. */
    method FireRipple()
      modifies this`layers
      ensures |layers| == |old(layers)| + 1 && layers[..|old(layers)|] == old(layers)
      ensures layers[|layers| - 1] == PulseLayer(Size(frame.width, frame.height), rippleColor)
    {
      layers := layers + [PulseLayer(Size(frame.width, frame.height), rippleColor)];
    }
  }

  /** However often a fresh ripple view is started, exactly one timer is
      live; stopping it leaves none. */
  method StartsThenStop(starts: nat) returns (liveWhileRunning: nat, liveAfterStop: nat)
    ensures liveWhileRunning == (if starts == 0 then 0 else 1)
    ensures liveAfterStop == 0
  {
    var loop := new RunLoop();
    var ripple := new RippleView(loop);
    var i := 0;
    while i < starts
      invariant 0 <= i <= starts
      invariant ripple.Valid() && ripple.runLoop == loop
      invariant loop.live == ripple.LiveTimers()
      invariant |loop.live| == (if i == 0 then 0 else 1)
    {
      ripple.StartRippleEffect();
      i := i + 1;
    }
    liveWhileRunning := |loop.live|;
    ripple.StopRippleEffect();
    liveAfterStop := |loop.live|;
  }

  /** Every fire adds one pulse in the ripple colour, and the layers are
      never cleaned up. */
  method FiresAccumulate(fires: nat) returns (layers: seq<ShapeLayer>)
    ensures |layers| == fires
    ensures forall k :: 0 <= k < fires ==> layers[k] == PulseLayer(Size(0.0, 0.0), Black)
  {
    var loop := new RunLoop();
    var ripple := new RippleView(loop);
    var i := 0;
    while i < fires
      invariant 0 <= i <= fires
      invariant ripple.frame == ZeroRect && ripple.rippleColor == Black
      invariant |ripple.layers| == i
      invariant forall k :: 0 <= k < i ==> ripple.layers[k] == PulseLayer(Size(0.0, 0.0), Black)
    {
      ripple.FireRipple();
      i := i + 1;
    }
    layers := ripple.layers;
  }
}
