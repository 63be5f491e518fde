/**
 * The ripple view of the earlier generation. Its `starTimer` schedules a new
 * timer on every call and overwrites the handle without invalidating the
 * timer it held, so each repeated start leaves one more timer live; `stopTimer`
 * can only invalidate the last one.
 */
module LegacyRipple {
  import opened Optional
  import opened Graphics
  import opened Timers
  import opened Pulse

  class RippleView {
    const runLoop: RunLoop
    /** The held timer handle (`NSTimer?`): the most recently scheduled one. */
    var timer: Option<nat>
    /** Every handle this view ever scheduled. */
    ghost var scheduled: set<nat>
    var frame: Rect
    var hidden: bool
    /** The sublayers of the view's layer, oldest first. */
    var layers: seq<ShapeLayer>

    /** The live timers this view scheduled. */
    ghost function LiveTimers(): set<nat>
      reads this, runLoop
    {
      scheduled * runLoop.live
    }

    /** The held timer, if any, is live; other live timers may be left over. */
    ghost predicate Valid()
      reads this, runLoop
    {
      runLoop.Valid() &&
      (forall t :: t in scheduled ==> t < |runLoop.schedules|) &&
      (timer.Some? ==> timer.value in LiveTimers())
    }

    constructor (runLoop: RunLoop)
      requires runLoop.Valid()
      ensures Valid()
      ensures this.runLoop == runLoop && timer.None? && scheduled == {} && LiveTimers() == {}
      ensures frame == ZeroRect && !hidden && layers == []
    {
      this.runLoop := runLoop;
      timer := None;
      scheduled := {};
      frame := ZeroRect;
      hidden := false;
      layers := [];
    }

    /** `startRippleEffect` and the unguarded `starTimer`: always a new
        repeating timer of interval 1.5; the previous one stays live. */
    method StartRippleEffect()
      requires Valid()
      modifies this`timer, this`scheduled, runLoop
      ensures Valid()
      ensures timer == Some(|old(runLoop.schedules)|)
      ensures runLoop.schedules == old(runLoop.schedules) + [TimerSpec(RippleInterval, true)]
      ensures runLoop.live == old(runLoop.live) + {timer.value}
      ensures timer.value !in old(LiveTimers()) && LiveTimers() == old(LiveTimers()) + {timer.value}
    {
      var t := runLoop.Schedule(RippleInterval, true);
      timer := Some(t);
      scheduled := scheduled + {t};
    }

    /** `stopRippleEffect` and `stopTimer`: invalidate the held timer, if any,
        and drop the handle; earlier timers are out of reach. */
    method StopRippleEffect()
      requires Valid()
      modifies this`timer, runLoop
      ensures Valid()
      ensures timer.None?
      ensures runLoop.schedules == old(runLoop.schedules)
      ensures runLoop.live == old(runLoop.live) - (if old(timer).Some? then {old(timer).value} else {})
      ensures LiveTimers() == old(LiveTimers()) - (if old(timer).Some? then {old(timer).value} else {})
    {
      if timer.Some? {
        runLoop.Invalidate(timer.value);
      }
      timer := None;
    }

    /** `deinit` stops the held timer only. */
    method Deinit()
      requires Valid()
      modifies this`timer, runLoop
      ensures Valid()
      ensures timer.None?
      ensures LiveTimers() == old(LiveTimers()) - (if old(timer).Some? then {old(timer).value} else {})
    {
      StopRippleEffect();
    }

    /** `fireRipple`: one new pulse sublayer in the app's brand colour. */
    method FireRipple()
      modifies this`layers
      ensures |layers| == |old(layers)| + 1 && layers[..|old(layers)|] == old(layers)
      ensures layers[|layers| - 1] == PulseLayer(Size(frame.width, frame.height), BriskColor)
    {
      layers := layers + [PulseLayer(Size(frame.width, frame.height), BriskColor)];
    }
  }

  /** Each start of a fresh legacy ripple view adds a live timer, and a stop
      removes only one: `starts` starts and a stop leave `starts - 1` timers
      firing with no handle to invalidate them. */
  method StartsThenStop(starts: nat) returns (liveWhileRunning: nat, liveAfterStop: nat)
    ensures liveWhileRunning == starts
    ensures liveAfterStop == (if starts == 0 then 0 else starts - 1)
  {
    var loop := new RunLoop();
    var ripple := new RippleView(loop);
    var i := 0;
    while i < starts
      invariant 0 <= i <= starts
      invariant ripple.Valid() && ripple.runLoop == loop
      invariant loop.live == ripple.LiveTimers()
      invariant |loop.live| == i
      invariant i == 0 <==> ripple.timer.None?
    {
      ripple.StartRippleEffect();
      i := i + 1;
    }
    liveWhileRunning := |loop.live|;
    ripple.StopRippleEffect();
    liveAfterStop := |loop.live|;
  }
}
