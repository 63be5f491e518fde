/**
 * The run loop's timer registry, standing in for `NSTimer` scheduling: every
 * timer ever scheduled is recorded by position (its handle), and `live` holds
 * the handles that have not been invalidated. Firing is not modelled here.
 */
module Timers {
  /** How a timer was scheduled. */
  datatype TimerSpec = TimerSpec(interval: real, repeats: bool)

  class RunLoop {
    var schedules: seq<TimerSpec>
    var live: set<nat>

    ghost predicate Valid()
      reads this
    {
      forall t :: t in live ==> t < |schedules|
    }

    constructor ()
      ensures Valid()
      ensures schedules == [] && live == {}
    {
      schedules := [];
      live := {};
    }

    /** `NSTimer.scheduledTimerWithTimeInterval`: a new live handle, distinct
        from every handle issued before. */
    method Schedule(interval: real, repeats: bool) returns (t: nat)
      requires Valid()
      modifies this
      ensures Valid()
      ensures t == |old(schedules)| && t !in old(live)
      ensures schedules == old(schedules) + [TimerSpec(interval, repeats)]
      ensures live == old(live) + {t}
    {
      t := |schedules|;
      schedules := schedules + [TimerSpec(interval, repeats)];
      live := live + {t};
    }

    /** `NSTimer.invalidate`: harmless on a handle that is not live. */
    method Invalidate(t: nat)
      requires Valid()
      modifies this
      ensures Valid()
      ensures schedules == old(schedules)
      ensures live == old(live) - {t}
    {
      live := live - {t};
    }
  }
}
