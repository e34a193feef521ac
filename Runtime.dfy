/**
 * The two calls into the Java runtime the lock makes: `System.currentTimeMillis()`
 * and `Thread.sleep(long)`. The readings and the interrupts are scripted from
 * outside: the i-th clock call returns `readings[i]` and the j-th sleep ends
 * in an `InterruptedException` when `interrupts[j]` holds. A script long
 * enough for the calls a run makes describes any run; past its end the clock
 * reads 0 and no sleep is interrupted. Time passing while asleep shows only
 * in later readings.
 */
module Runtime {
  import opened JavaLong

  /** What the i-th clock call returns. */
  function ReadingAt(readings: seq<Long>, i: nat): Long {
    if i < |readings| then readings[i] else 0
  }

  /** Whether the j-th sleep is interrupted. */
  predicate InterruptedAt(interrupts: seq<bool>, j: nat) {
    j < |interrupts| && interrupts[j]
  }

  class Clock {
    const readings: seq<Long>
    const interrupts: seq<bool>
    /** Clock calls made so far. */
    var calls: nat
    /** Sleeps begun so far. */
    var sleeps: nat

    constructor (readings: seq<Long>, interrupts: seq<bool>)
      ensures this.readings == readings && this.interrupts == interrupts
      ensures calls == 0 && sleeps == 0
    {
      this.readings := readings;
      this.interrupts := interrupts;
      calls := 0;
      sleeps := 0;
    }

    method CurrentTimeMillis() returns (t: Long)
      modifies this
      ensures t == ReadingAt(readings, old(calls))
      ensures calls == old(calls) + 1 && sleeps == old(sleeps)
    {
      t := ReadingAt(readings, calls);
      calls := calls + 1;
    }

    /** Sleeps `millis` milliseconds; `interrupted` is true when the sleep throws `InterruptedException`. */
    method Sleep(millis: nat) returns (interrupted: bool)
      modifies this
      ensures interrupted == InterruptedAt(interrupts, old(sleeps))
      ensures sleeps == old(sleeps) + 1 && calls == old(calls)
    {
      interrupted := InterruptedAt(interrupts, sleeps);
      sleeps := sleeps + 1;
    }
  }
}
