/**
 * The fixed-window strategy: at most `limit` requests per key in each window
 * of `windowDuration`, the window starting at the first request seen after
 * the previous one expired.
 */
module FixedWindowStrategy {
  import opened Wrappers
  import opened Time
  import opened Clock
  import opened Strategy

  const U32_MAX: nat := 0xFFFF_FFFF
  type u32 = x: int | 0 <= x <= U32_MAX

  /** The strategy's configuration, without its clock. */
  datatype Config = Config(windowDuration: Duration, limit: u32)

  /** The state kept per key. */
  datatype CounterState = CounterState(count: u32, windowStart: Time)

  /** What every check reports besides its decision. */
  datatype FixedWindowMetadata = FixedWindowMetadata(tillNextWindow: Duration)

  /** A check's two outputs: the updated state and the result. */
  datatype Checked = Checked(state: CounterState, result: LimitResult<FixedWindowMetadata>)

  /** The state of a key never seen before: no requests yet, window starting now. */
  function InitialState(now: Time): (s: CounterState)
    ensures s.count == 0 && s.windowStart == now
  {
    CounterState(0, now)
  }

  /** Time since the window started; a window start in the future reads as Duration::MAX. */
  function Elapsed(now: Time, start: Time): Duration {
    DurationSince(now, start).GetOr(DURATION_MAX)
  }

  /** Time until the window starting at `start` ends, Duration::MAX where that cannot be computed. */
  function TillNextWindow(start: Time, windowDuration: Duration, now: Time): Duration {
    match CheckedAdd(start, windowDuration)
    case None => DURATION_MAX
    case Some(end) => DurationSince(end, now).GetOr(DURATION_MAX)
  }

  /**
   * One request checked against `s` at time `now` (`check_limit` as a
   * function). The state either stays, gains one request in the same
   * window, or becomes a new window holding this one request; the result
   * always carries metadata.
   */
  function Check(cfg: Config, now: Time, s: CounterState): (r: Checked)
    ensures || r.state == s
            || (r.state.count == s.count + 1 && r.state.windowStart == s.windowStart)
            || r.state == CounterState(1, now)
    ensures r.result.Metadata().Some?
  {
    var (next, decision) :=
      if Elapsed(now, s.windowStart) < cfg.windowDuration then
        if s.count < cfg.limit then
          (s.(count := s.count + 1), LimitResult.Allowed())
        else
          (s, LimitResult.Disallowed())
      else
        (CounterState(1, now), LimitResult.Allowed());
    var meta := FixedWindowMetadata(TillNextWindow(next.windowStart, cfg.windowDuration, now));
    Checked(next, decision.WithMetadata(meta))
  }

  /** `now` falls inside the window that starts at `s.windowStart`. */
  predicate InWindow(cfg: Config, now: Time, s: CounterState) {
    s.windowStart <= now < s.windowStart + cfg.windowDuration
  }

  /** A request inside the window and under the limit is allowed and counted; the window stays. */
  lemma CheckCountsWithinWindow(cfg: Config, now: Time, s: CounterState)
    requires InWindow(cfg, now, s) && s.count < cfg.limit
    ensures Check(cfg, now, s).result.IsAllowed()
    ensures Check(cfg, now, s).state == CounterState(s.count + 1, s.windowStart)
  {
  }

  /** A request inside the window once the limit is reached is denied and leaves the state as it was. */
  lemma CheckDeniesWhenFull(cfg: Config, now: Time, s: CounterState)
    requires InWindow(cfg, now, s) && s.count >= cfg.limit
    ensures !Check(cfg, now, s).result.IsAllowed()
    ensures Check(cfg, now, s).state == s
  {
  }

  /**
   * A request once the window has run out, or when the clock reads earlier
   * than the window start, opens a new window at `now` and is allowed.
   */
  lemma CheckRollsOver(cfg: Config, now: Time, s: CounterState)
    requires now < s.windowStart || now - s.windowStart >= cfg.windowDuration
    ensures Check(cfg, now, s).result.IsAllowed()
    ensures Check(cfg, now, s).state == CounterState(1, now)
  {
  }

  /** The decision is exactly: rollover, or inside the window with room left. */
  lemma CheckDecision(cfg: Config, now: Time, s: CounterState)
    ensures Check(cfg, now, s).result.IsAllowed() <==> !InWindow(cfg, now, s) || s.count < cfg.limit
  {
  }

  /** A count within max(limit, 1) stays within it, and the window start moves only to `now`. */
  lemma CheckKeepsCountBound(cfg: Config, now: Time, s: CounterState)
    requires s.count <= cfg.limit || s.count <= 1
    ensures var next := Check(cfg, now, s).state;
      && (next.count <= cfg.limit || next.count <= 1)
      && (next.windowStart == s.windowStart || next.windowStart == now)
  {
  }

  /**
   * Every result carries the time until the window ends. It is
   * windowStart + windowDuration - now, never more than the window, and a
   * whole window right after a rollover; when the window's end is not
   * representable it is Duration::MAX.
   */
  lemma CheckReportsTillNextWindow(cfg: Config, now: Time, s: CounterState)
    ensures var c := Check(cfg, now, s);
      && c.result.Metadata().Some?
      && var till := c.result.Metadata().value.tillNextWindow;
      && (c.state.windowStart + cfg.windowDuration > TIME_MAX ==> till == DURATION_MAX)
      && (c.state.windowStart + cfg.windowDuration <= TIME_MAX ==>
            c.state.windowStart <= now <= c.state.windowStart + cfg.windowDuration
            && till == c.state.windowStart + cfg.windowDuration - now
            && till <= cfg.windowDuration)
      && (!InWindow(cfg, now, s) && now + cfg.windowDuration <= TIME_MAX ==> till == cfg.windowDuration)
  {
  }

  /** With a limit of at least one, the first request for a fresh key is allowed. */
  lemma FirstCheckAllowed(cfg: Config, now: Time)
    requires cfg.limit >= 1
    ensures Check(cfg, now, InitialState(now)).result.IsAllowed()
    ensures Check(cfg, now, InitialState(now)).state == CounterState(1, now)
  {
  }

  /**
   * With a limit of zero and a non-empty window, the first request for a
   * fresh key at the instant it was initialised is denied: its count of 0 is
   * not below the limit, and its window has just started.
   */
  lemma LimitZeroDeniesFreshKey(cfg: Config, now: Time)
    requires cfg.limit == 0 && cfg.windowDuration > 0
    ensures !Check(cfg, now, InitialState(now)).result.IsAllowed()
    ensures Check(cfg, now, InitialState(now)).state == InitialState(now)
  {
  }

  /** `k` requests checked one after another at the same instant: their decisions and the final state. */
  function CheckMany(cfg: Config, now: Time, s: CounterState, k: nat): (seq<bool>, CounterState)
    decreases k
  {
    if k == 0 then ([], s)
    else
      var c := Check(cfg, now, s);
      var (rest, last) := CheckMany(cfg, now, c.state, k - 1);
      ([c.result.IsAllowed()] + rest, last)
  }

  /**
   * Inside one window, with the clock standing still, exactly the first
   * `limit - count` of `k` requests are allowed and the rest denied; the
   * count saturates at the limit and the window does not move.
   */
  lemma {:induction false} CheckManyWithinWindow(cfg: Config, now: Time, s: CounterState, k: nat)
    requires InWindow(cfg, now, s) && s.count <= cfg.limit
    ensures |CheckMany(cfg, now, s, k).0| == k
    ensures forall i :: 0 <= i < k ==> CheckMany(cfg, now, s, k).0[i] == (i < cfg.limit - s.count)
    ensures CheckMany(cfg, now, s, k).1.windowStart == s.windowStart
    ensures CheckMany(cfg, now, s, k).1.count == if s.count + k <= cfg.limit then s.count + k else cfg.limit
    decreases k
  {
    if k > 0 {
      var c := Check(cfg, now, s);
      if s.count < cfg.limit {
        CheckCountsWithinWindow(cfg, now, s);
      } else {
        CheckDeniesWhenFull(cfg, now, s);
      }
      CheckManyWithinWindow(cfg, now, c.state, k - 1);
      var rest := CheckMany(cfg, now, c.state, k - 1).0;
      assert CheckMany(cfg, now, s, k).0 == [c.result.IsAllowed()] + rest;
      forall i | 0 <= i < k
        ensures CheckMany(cfg, now, s, k).0[i] == (i < cfg.limit - s.count)
      {
        if i > 0 {
          assert CheckMany(cfg, now, s, k).0[i] == rest[i - 1];
        }
      }
    }
  }

  /**
   * The strategy object: its configuration and the clock it reads. The
   * source builds it with the wall clock and swaps in a test clock with
   * `with_clock`; here the clock is given at construction.
   */
  class FixedWindow {
    const windowDuration: Duration
    const limit: u32
    const clock: MockClock

    constructor (windowDuration: Duration, limit: u32, clock: MockClock)
      ensures this.windowDuration == windowDuration && this.limit == limit && this.clock == clock
    {
      this.windowDuration := windowDuration;
      this.limit := limit;
      this.clock := clock;
    }

    function Settings(): Config {
      Config(windowDuration, limit)
    }

    /** `initialize_state`: a count of zero and a window starting at the clock's current reading. */
    method InitializeState() returns (s: CounterState)
      ensures s.count == 0 && s.windowStart == clock.currentTime
      ensures s == InitialState(clock.currentTime)
    {
      var now := clock.Now();
      s := CounterState(0, now);
    }

    /**
     * `check_limit`: reads the clock once and updates `state` in place,
     * either counting the request, denying it, or starting a new window;
     * then attaches the time left in the window. It never fails.
     */
    method CheckLimit(state: CounterState) returns (next: CounterState, result: LimitResult<FixedWindowMetadata>)
      ensures Checked(next, result) == Check(Settings(), clock.currentTime, state)
    {
      var now := clock.Now();
      var timeSinceStart := Elapsed(now, state.windowStart);
      next := state;
      var decision: LimitResult<FixedWindowMetadata>;
      if timeSinceStart < windowDuration {
        if next.count < limit {
          next := next.(count := next.count + 1);
          decision := LimitResult.Allowed();
        } else {
          decision := LimitResult.Disallowed();
        }
      } else {
        next := next.(count := 1, windowStart := now);
        decision := LimitResult.Allowed();
      }
      var nextWindow := TillNextWindow(next.windowStart, windowDuration, now);
      result := decision.WithMetadata(FixedWindowMetadata(nextWindow));
    }
  }

  /**
   * The strategy's own test: a 10-second window with a limit of 3 and a
   * clock that stands still lets three requests through and stops the
   * fourth; ten seconds later it lets three more through and stops the next.
   */
  method TenSecondWindowScenario(start: Time) returns (decisions: seq<bool>)
    requires start + FromSecs(10) <= TIME_MAX
    ensures decisions == [true, true, true, false, true, true, true, false]
  {
    var clock := new MockClock(start);
    var window := new FixedWindow(FromSecs(10), 3, clock);
    var state := window.InitializeState();
    decisions := [];
    var result;
    state, result := window.CheckLimit(state);
    decisions := decisions + [result.IsAllowed()];
    state, result := window.CheckLimit(state);
    decisions := decisions + [result.IsAllowed()];
    state, result := window.CheckLimit(state);
    decisions := decisions + [result.IsAllowed()];
    state, result := window.CheckLimit(state);
    decisions := decisions + [result.IsAllowed()];

    clock.Advance(FromSecs(10));

    state, result := window.CheckLimit(state);
    decisions := decisions + [result.IsAllowed()];
    state, result := window.CheckLimit(state);
    decisions := decisions + [result.IsAllowed()];
    state, result := window.CheckLimit(state);
    decisions := decisions + [result.IsAllowed()];
    state, result := window.CheckLimit(state);
    decisions := decisions + [result.IsAllowed()];
  }
}
