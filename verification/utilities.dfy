/**
 * `CustomTimer`: a one-shot deferred callback built on Foundation's
 * `Timer.scheduledTimer(..., repeats: false)`.
 *
 * The run loop is modelled by the set `live` of platform timers this object
 * has scheduled that are still valid.  A live timer may fire at any later
 * point (when exactly is the run loop's business and is not modelled); a
 * non-repeating timer is invalidated by firing, and `invalidate()` removes
 * it without firing.  The closure `update` is represented by the task `A`
 * that the owner runs when `Fire` hands it back.
 */
module Utilities {
  import opened Wrappers

  class CustomTimer<A> {
    /** The delay of every firing, in seconds. */
    const timeInterval: real
    /** The callback; `init` always sets it and nothing reassigns it. */
    const update: Option<A>
    /** The platform timer that `start()` scheduled last, if any. */
    var timer: Option<nat>
    /** Platform timers scheduled by this object that will still fire. */
    var live: set<nat>
    /** How many platform timers `start()` has scheduled (names fresh ones). */
    var scheduled: nat
    /** How many times `timerUpdate` has run. */
    var count: nat

    ghost predicate Valid()
      reads this
    {
      && (forall t :: t in live ==> t < scheduled)
      && (timer.None? <==> scheduled == 0)
      && (timer.Some? ==> timer.value == scheduled - 1)
    }

    /** `init(timeInterval:update:)`: nothing is scheduled yet and the count is zero. */
    constructor (timeInterval: real, update: A)
      ensures Valid()
      ensures this.timeInterval == timeInterval && this.update == Some(update)
      ensures timer == None && live == {} && count == 0
    {
      this.timeInterval := timeInterval;
      this.update := Some(update);
      timer := None;
      live := {};
      scheduled := 0;
      count := 0;
    }

    /**
     * `start()`: schedules one more non-repeating platform timer and keeps a
     * reference to it; a timer scheduled by an earlier `start()` is not
     * invalidated and stays live.
     */
    method Start()
      requires Valid()
      modifies this
      ensures Valid()
      ensures timer == Some(old(scheduled)) && old(scheduled) !in old(live)
      ensures live == old(live) + {old(scheduled)}
      ensures count == old(count)
    {
      timer := Some(scheduled);
      live := live + {scheduled};
      scheduled := scheduled + 1;
    }

    /**
     * `stop()`: invalidates the platform timer last scheduled, so it never
     * fires; before any `start()` it does nothing.  Earlier timers stay live.
     */
    method Stop()
      requires Valid()
      modifies this
      ensures Valid()
      ensures timer == old(timer) && count == old(count) && scheduled == old(scheduled)
      ensures live == if old(timer).Some? then old(live) - {old(timer).value} else old(live)
    {
      if timer.Some? {
        live := live - {timer.value};
      }
    }

    /**
     * The run loop fires live platform timer `t`: being non-repeating it is
     * invalidated, and `timerUpdate` counts the firing and returns the
     * callback for the owner to run, when one is set.
     */
    method Fire(t: nat) returns (run: Option<A>)
      requires Valid() && t in live
      modifies this
      ensures Valid()
      ensures count == old(count) + 1
      ensures live == old(live) - {t} && timer == old(timer) && scheduled == old(scheduled)
      ensures run == update
    {
      live := live - {t};
      count := count + 1;
      run := None;
      if update.Some? {
        run := update;
      }
    }
  }

  /** `stop()` before `start()` leaves nothing to fire. */
  method StopBeforeStart() returns (timer: CustomTimer<bool>)
    ensures timer.live == {} && timer.count == 0
  {
    timer := new CustomTimer(30.0, true);
    timer.Stop();
  }

  /** A second `start()` loses the reference to the first timer: `stop()` no longer cancels it. */
  method RestartThenStop() returns (timer: CustomTimer<bool>)
    ensures timer.live == {0} && timer.timer == Some(1)
  {
    timer := new CustomTimer(30.0, true);
    timer.Start();
    timer.Start();
    timer.Stop();
  }

  /** A started timer fires once, counts once and hands back its callback. */
  method StartThenFire() returns (run: Option<bool>, timer: CustomTimer<bool>)
    ensures run == Some(true) && timer.count == 1 && timer.live == {}
  {
    timer := new CustomTimer(30.0, true);
    timer.Start();
    run := timer.Fire(0);
  }
}
