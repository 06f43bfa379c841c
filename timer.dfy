/**
 * The interval timer: a timeout in seconds, a poll interval in microseconds,
 * and the number of poll iterations the two allow.
 */
module Timer {

  const MicrosPerSecond: int := 1000000
  const DefaultTimeout: int := 5
  const DefaultSleepTime: int := 100000

  /** Seconds to microseconds; the result converts back to the same seconds. */
  function MicroSeconds(seconds: int): (us: int)
    ensures us % MicrosPerSecond == 0
    ensures us / MicrosPerSecond == seconds
  {
    seconds * MicrosPerSecond
  }

  /**
   * The poll budget: the timeout in microseconds divided by the poll interval.
   * When the interval divides one second the division is exact, so this is
   * the integer PHP's `/` yields there.
   */
  function LoopTime(timeout: int, sleepTime: int): (n: int)
    requires sleepTime > 0 && MicrosPerSecond % sleepTime == 0
    ensures n * sleepTime == MicroSeconds(timeout)
  {
    var perSecond := MicrosPerSecond / sleepTime;
    assert MicroSeconds(timeout) == (timeout * perSecond) * sleepTime by {
      assert MicrosPerSecond == perSecond * sleepTime;
    }
    DivideExact(timeout * perSecond, sleepTime);
    MicroSeconds(timeout) / sleepTime
  }

  /** Dividing a multiple of `d` by `d` gives the factor back. */
  lemma DivideExact(x: int, d: int)
    requires d > 0
    ensures (x * d) / d == x
  {
    var q, r := (x * d) / d, (x * d) % d;
    assert d * q + r == x * d && 0 <= r < d;
    var k := x - q;
    assert k * d == r by {
      assert x * d - q * d == (x - q) * d;
    }
  }

  /** A longer timeout never gives a smaller budget. */
  lemma LoopTimeMonotone(t1: int, t2: int, sleepTime: int)
    requires sleepTime > 0 && MicrosPerSecond % sleepTime == 0
    requires t1 <= t2
    ensures LoopTime(t1, sleepTime) <= LoopTime(t2, sleepTime)
  {
    var n1, n2 := LoopTime(t1, sleepTime), LoopTime(t2, sleepTime);
    assert n1 * sleepTime <= n2 * sleepTime;
  }

  /** The budget with the default poll interval is ten iterations per second. */
  lemma DefaultLoopTimePerSecond(timeout: int)
    ensures LoopTime(timeout, DefaultSleepTime) == 10 * timeout
  {
    var n := LoopTime(timeout, DefaultSleepTime);
    assert n * 100000 == timeout * 1000000;
    assert (n - 10 * timeout) * 100000 == 0;
  }

  class Timer {
    /** Timeout of one execution, in seconds. */
    var timeout: int
    /** Poll interval, in microseconds; nothing in the class changes it. */
    const sleepTime: int
    /** How many times `Sleep` has waited: the model of real time. */
    var ticks: nat

    ghost predicate Valid()
    {
      sleepTime > 0 && MicrosPerSecond % sleepTime == 0
    }

    constructor ()
      ensures Valid()
      ensures timeout == DefaultTimeout && sleepTime == DefaultSleepTime && ticks == 0
      ensures GetLoopTime() == 50
    {
      timeout := DefaultTimeout;
      sleepTime := DefaultSleepTime;
      ticks := 0;
      DefaultLoopTimePerSecond(DefaultTimeout);
    }

    method GetTimeout() returns (t: int)
      ensures t == timeout
    {
      t := timeout;
    }

    method SetTimeout(t: int)
      modifies this
      ensures timeout == t
      ensures ticks == old(ticks)
    {
      timeout := t;
    }

    /** Recomputed from the current fields on every call, never cached. */
    function GetLoopTime(): (n: int)
      reads this
      requires Valid()
      ensures n * sleepTime == MicroSeconds(timeout)
    {
      LoopTime(timeout, sleepTime)
    }

    /** One poll interval passes. */
    method Sleep()
      modifies this`ticks
      ensures ticks == old(ticks) + 1
    {
      ticks := ticks + 1;
    }
  }

  /**
   * Setting the timeout and reading it back gives the value set, and the
   * next budget is the one of the new timeout at the unchanged interval.
   */
  method RetimedLoopTime(timer: Timer, t: int) returns (readBack: int, n: int)
    requires timer.Valid()
    modifies timer
    ensures timer.Valid() && readBack == t
    ensures n == LoopTime(t, timer.sleepTime)
  {
    timer.SetTimeout(t);
    readBack := timer.GetTimeout();
    n := timer.GetLoopTime();
  }
}
