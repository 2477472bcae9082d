/** The watchdog thread's own code: one method per step it takes between two scheduling points, and its
    loop as a whole. */
module Watchdog {
  import opened Wrappers
  import opened WriterModel

  class WatchdogThread {
    const thresholdMs: int
    var stop: bool
    var armed: bool
    var callbackDone: bool
    var at: WatchPc

    ghost function View(): Watch
      reads this
    {
      Watch(armed && !stop, callbackDone, at)
    }

    constructor (thresholdMs: int)
      ensures this.thresholdMs == thresholdMs && View() == FRESH_WATCH
    {
      this.thresholdMs := thresholdMs;
      stop, armed, callbackDone, at := false, true, false, Polling;
    }

    /** The loop test. */
    method CheckLoop()
      modifies this
      ensures View() == old(View()).(pc := if old(View()).armed then Reading else Ended)
    {
      at := if !stop && armed then Reading else Ended;
    }

    /** One reading of the remaining time; None is a failed reading. */
    method ReadClock(remaining: Option<int>)
      modifies this
      ensures View() == old(View()).(pc := if remaining.None? || remaining.value > thresholdMs then Polling
                                           else Firing(remaining.value))
    {
      if remaining.None? {
        at := Polling;
      } else if remaining.value <= thresholdMs {
        at := Firing(remaining.value);
      } else {
        at := Polling;
      }
    }

    /** True when the callback is to be run: the first time only. */
    method InvokeCallbackOnce() returns (call: bool)
      modifies this
      ensures call == !old(callbackDone)
      ensures View() == Watch(old(View()).armed, true, Ended)
    {
      call := !callbackDone;
      callbackDone := true;
      at := Ended;
    }

    method Disarm()
      modifies this
      ensures View() == old(View()).(armed := false)
    {
      armed := false;
      stop := true;
    }

    /** `_run` on the readings it would take before being stopped: the callback is invoked iff some
        reading is at or below the threshold, and the readings after the first such one are not taken. */
    method Run(readings: seq<Option<int>>) returns (called: bool, taken: nat)
      requires View() == FRESH_WATCH
      modifies this
      ensures called <==> exists i :: 0 <= i < |readings| && Low(readings[i])
      ensures called <==> callbackDone
      ensures taken <= |readings| && forall i :: 0 <= i < taken - 1 ==> !Low(readings[i])
      ensures called ==> taken > 0 && Low(readings[taken - 1])
    {
      called, taken := false, 0;
      while taken < |readings|
        invariant taken <= |readings| && !called && View() == FRESH_WATCH
        invariant forall i :: 0 <= i < taken ==> !Low(readings[i])
      {
        CheckLoop();
        ReadClock(readings[taken]);
        taken := taken + 1;
        if at.Firing? {
          called := InvokeCallbackOnce();
          assert Low(readings[taken - 1]);
          return;
        }
      }
    }

    predicate Low(reading: Option<int>) { reading.Some? && reading.value <= thresholdMs }
  }
}
