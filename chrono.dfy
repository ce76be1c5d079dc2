/** The stopwatch of components/chrono: a pausable accumulator of
    microseconds. `esp_timer_get_time()` becomes the parameter `now`; the
    fields are `int`, as the C `int64_t` fields are, and nothing here demands
    a monotonic clock: the facts that need one take it as a hypothesis
    (`ClockOk`). */
module Chrono {
  import CInt

  const MicrosPerSecond: int := 1000000

  /** Chrono_t */
  datatype ChronoT = ChronoT(timeStartUs: int, timeTotalUs: int, isRunning: bool)

  /** CHRONO_DEFAULT(): zero time, stopped. */
  const Default: ChronoT := ChronoT(0, 0, false)

  /** Microseconds the stopwatch shows at instant `now`: the accumulated
      total plus, while running, the time since the last start. */
  function ElapsedUs(c: ChronoT, now: int): int {
    if c.isRunning then c.timeTotalUs + (now - c.timeStartUs) else c.timeTotalUs
  }

  /** The clock has not gone back behind the running stopwatch's anchor. */
  predicate ClockOk(c: ChronoT, now: int) {
    c.isRunning ==> c.timeStartUs <= now
  }

  /** chrono_start at `now`: a running stopwatch is left alone; a stopped one
      is anchored at `now` and runs on from its total. */
  function AfterStart(c: ChronoT, now: int): (r: ChronoT)
    ensures r.isRunning && r.timeTotalUs == c.timeTotalUs
    ensures c.isRunning ==> r == c
    ensures ElapsedUs(r, now) == ElapsedUs(c, now)
    ensures ClockOk(c, now) ==> ClockOk(r, now)
  {
    if !c.isRunning then c.(timeStartUs := now, isRunning := true) else c
  }

  /** chrono_stop at `now`: a stopped stopwatch is left alone; a running one
      folds the time since its anchor into the total and stops. */
  function AfterStop(c: ChronoT, now: int): (r: ChronoT)
    ensures !r.isRunning && r.timeStartUs == c.timeStartUs
    ensures !c.isRunning ==> r == c
    ensures ElapsedUs(r, now) == ElapsedUs(c, now)
    ensures ClockOk(c, now) ==> r.timeTotalUs >= c.timeTotalUs
  {
    if c.isRunning then c.(timeTotalUs := c.timeTotalUs + (now - c.timeStartUs), isRunning := false) else c
  }

  /** chrono_reset at `now`: the total becomes zero and the running flag is
      kept; a running stopwatch is re-anchored at `now`, so it goes on
      counting from zero instead of stopping. */
  function AfterReset(c: ChronoT, now: int): (r: ChronoT)
    ensures r.timeTotalUs == 0 && r.isRunning == c.isRunning
    ensures ElapsedUs(r, now) == 0
    ensures !c.isRunning ==> r.timeStartUs == c.timeStartUs
    ensures ClockOk(r, now)
  {
    var zeroed := c.(timeTotalUs := 0);
    if c.isRunning then zeroed.(timeStartUs := now) else zeroed
  }

  /** chrono_get_seconds at `now`: whole seconds shown, truncated toward
      zero as C's integer division does. */
  function Seconds(c: ChronoT, now: int): (s: int)
    ensures ElapsedUs(c, now) >= 0 ==> s >= 0 && s * MicrosPerSecond <= ElapsedUs(c, now) < (s + 1) * MicrosPerSecond
  {
    CInt.Div(ElapsedUs(c, now), MicrosPerSecond)
  }

  /** Starting at t0 and stopping at t1 adds exactly t1 - t0 to the total. */
  lemma StartThenStop(c: ChronoT, t0: int, t1: int)
    requires !c.isRunning
    ensures AfterStop(AfterStart(c, t0), t1) == c.(timeStartUs := t0, timeTotalUs := c.timeTotalUs + (t1 - t0))
  {
  }

  /** Start, stop and reset are each idempotent at one instant, and a second
      start or stop at a later instant changes nothing either. */
  lemma StartStopIdempotent(c: ChronoT, t0: int, t1: int)
    ensures AfterStart(AfterStart(c, t0), t1) == AfterStart(c, t0)
    ensures AfterStop(AfterStop(c, t0), t1) == AfterStop(c, t0)
    ensures AfterReset(AfterReset(c, t0), t0) == AfterReset(c, t0)
  {
  }

  /** A stopped stopwatch shows the same seconds at every instant. */
  lemma StoppedSecondsConstant(c: ChronoT, t0: int, t1: int)
    requires !c.isRunning
    ensures Seconds(c, t0) == Seconds(c, t1)
  {
  }

  /** A reset stopwatch, read later, shows only what it ran since the reset. */
  lemma ResetCountsFromZero(c: ChronoT, now: int, later: int)
    requires now <= later
    ensures ElapsedUs(AfterReset(c, now), later) == if c.isRunning then later - now else 0
  {
  }

  /** With a clock that does not go back, the reading never decreases. */
  lemma ElapsedMonotone(c: ChronoT, t0: int, t1: int)
    requires ClockOk(c, t0) && t0 <= t1
    ensures 0 <= c.timeTotalUs ==> 0 <= ElapsedUs(c, t0)
    ensures ElapsedUs(c, t0) <= ElapsedUs(c, t1)
  {
  }

  /** Whole seconds follow the reading: more microseconds never show fewer
      seconds. */
  lemma SecondsMonotone(c: ChronoT, t0: int, t1: int)
    requires ClockOk(c, t0) && t0 <= t1 && 0 <= c.timeTotalUs
    ensures Seconds(c, t0) <= Seconds(c, t1)
  {
    ElapsedMonotone(c, t0, t1);
  }

  /** Chrono_t updated in place through a pointer. */
  class Stopwatch {
    var timeStartUs: int
    var timeTotalUs: int
    var isRunning: bool

    /** The value of the C struct. */
    function Value(): ChronoT
      reads this
    {
      ChronoT(timeStartUs, timeTotalUs, isRunning)
    }

    /** A stopwatch initialised with CHRONO_DEFAULT(). */
    constructor ()
      ensures Value() == Default
    {
      timeStartUs, timeTotalUs, isRunning := 0, 0, false;
    }

    /** chrono_start */
    method Start(now: int)
      modifies this
      ensures Value() == AfterStart(old(Value()), now)
    {
      if !isRunning {
        timeStartUs := now;
        isRunning := true;
      }
    }

    /** chrono_stop */
    method Stop(now: int)
      modifies this
      ensures Value() == AfterStop(old(Value()), now)
    {
      if isRunning {
        timeTotalUs := timeTotalUs + (now - timeStartUs);
        isRunning := false;
      }
    }

    /** chrono_reset */
    method Reset(now: int)
      modifies this
      ensures Value() == AfterReset(old(Value()), now)
    {
      timeTotalUs := 0;
      if isRunning {
        timeStartUs := now;
      }
    }
  }
}
