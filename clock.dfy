/**
 * The controllable clock the fixed-window strategy reads in tests: one
 * current instant, read by `Now` and moved forward by `Advance`.
 */
module Clock {
  import opened Time

  class MockClock {
    var currentTime: Time

    /** The source starts from the wall clock's reading; here it is a parameter. */
    constructor (start: Time)
      ensures currentTime == start
    {
      currentTime := start;
    }

    /** `Clock::now`: reads the current instant and changes nothing. */
    method Now() returns (t: Time)
      ensures t == currentTime
    {
      t := currentTime;
    }

    /**
     * Moves the clock forward by exactly `d`. Adding a Duration to a
     * SystemTime panics when the sum is not representable, so callers must
     * keep the sum in range.
     */
    method Advance(d: Duration)
      requires currentTime + d <= TIME_MAX
      modifies this
      ensures currentTime == old(currentTime) + d
      ensures currentTime >= old(currentTime)
    {
      currentTime := currentTime + d;
    }
  }

  /** Two readings with no advance between them agree. */
  method NowIsStable(clock: MockClock) returns (first: Time, second: Time)
    ensures first == second == clock.currentTime
  {
    first := clock.Now();
    second := clock.Now();
  }

  /** Advancing by `d1` and then by `d2` lands where one advance by `d1 + d2` does. */
  method AdvanceComposes(start: Time, d1: Duration, d2: Duration) returns (stepwise: Time, atOnce: Time)
    requires start + d1 + d2 <= TIME_MAX
    ensures stepwise == atOnce == start + d1 + d2
  {
    var c1 := new MockClock(start);
    c1.Advance(d1);
    c1.Advance(d2);
    stepwise := c1.Now();

    var c2 := new MockClock(start);
    c2.Advance(d1 + d2);
    atOnce := c2.Now();
  }
}
