/**
 * The limiter: one store and one strategy, and the read-check-write cycle
 * that joins them for each key; plus the builder that assembles it.
 */
module Speedbump {
  import opened Wrappers
  import opened Time
  import opened Strategy
  import opened FixedWindowStrategy
  import opened Memory

  /** A failure of `limit`, tagged by the component it came from. */
  datatype Error<StrE, StoE> = StrategyError(strategy: StrE) | StoreError(store: StoE)

  /** One call that `limit` makes on its store or strategy. */
  datatype Call<S> = GetCall | InitializeCall | CheckCall(input: S) | SetCall(written: S)

  /** What one `limit` call returns, and the calls it made, in order. */
  datatype Run<S, StrE, StoE> = Run(outcome: Result<bool, Error<StrE, StoE>>, calls: seq<Call<S>>)

  /**
   * The protocol of `limit` for any store and strategy, given by what they
   * answer: `got` is the store's answer to `get`, `init` the strategy's
   * initial state, `check` the strategy's answer for a state (the updated
   * state and the result), `set` the store's answer for a write (`None` when
   * it succeeds). The initial state is computed whenever `get` succeeds,
   * because the source passes it to `unwrap_or` eagerly.
   */
  function Protocol<S, M, StrE, StoE>(
    got: Result<Option<S>, StoE>,
    init: S,
    check: S -> Result<(S, LimitResult<M>), StrE>,
    write: S -> Option<StoE>
  ): (r: Run<S, StrE, StoE>)
    ensures |r.calls| >= 1 && r.calls[0] == GetCall
    ensures r.outcome.Success? ==> |r.calls| == 4 && r.calls[3].SetCall?
  {
    match got
    case Failure(e) => Run(Failure(StoreError(e)), [GetCall])
    case Success(found) =>
      var state := found.GetOr(init);
      match check(state)
      case Failure(e) => Run(Failure(StrategyError(e)), [GetCall, InitializeCall, CheckCall(state)])
      case Success((next, limited)) =>
        var calls := [GetCall, InitializeCall, CheckCall(state), SetCall(next)];
        match write(next)
        case Some(e) => Run(Failure(StoreError(e)), calls)
        case None => Run(Success(limited.IsAllowed()), calls)
  }

  /** A failing `get` is reported as a store error, and neither the strategy nor `set` is called. */
  lemma ProtocolGetFailure<S, M, StrE, StoE>(
    e: StoE, init: S, check: S -> Result<(S, LimitResult<M>), StrE>, write: S -> Option<StoE>)
    ensures Protocol(Failure(e), init, check, write) == Run(Failure(StoreError(e)), [GetCall])
  {
  }

  /**
   * The strategy checks the stored state when there is one and the initial
   * state otherwise. A failing check is reported as a strategy error and
   * nothing is written.
   */
  lemma ProtocolCheckFailure<S, M, StrE, StoE>(
    found: Option<S>, init: S, check: S -> Result<(S, LimitResult<M>), StrE>, write: S -> Option<StoE>)
    requires check(found.GetOr(init)).Failure?
    ensures var r := Protocol(Success(found), init, check, write);
      && r.outcome == Failure(StrategyError(check(found.GetOr(init)).error))
      && forall i :: 0 <= i < |r.calls| ==> !r.calls[i].SetCall?
  {
  }

  /**
   * After a successful check, exactly the state the strategy produced is
   * written back (the checked state being the stored one, or the initial one
   * for an absent key), and the result is the strategy's decision, or the
   * store's error if the write fails.
   */
  lemma ProtocolWritesBackCheckedState<S, M, StrE, StoE>(
    found: Option<S>, init: S, check: S -> Result<(S, LimitResult<M>), StrE>, write: S -> Option<StoE>)
    requires check(found.GetOr(init)).Success?
    ensures var checked := found.GetOr(init);
      var (next, limited) := check(checked).value;
      var r := Protocol(Success(found), init, check, write);
      && (found.Some? ==> checked == found.value)
      && (found.None? ==> checked == init)
      && r.calls == [GetCall, InitializeCall, CheckCall(checked), SetCall(next)]
      && (write(next).None? ==> r.outcome == Success(limited.IsAllowed()))
      && (write(next).Some? ==> r.outcome == Failure(StoreError(write(next).value)))
  {
  }

  /** Stands for the error type of the memory store and the fixed window, both uninhabited in the source. */
  datatype NoError = NoError

  datatype Limiter<Sto, Str> = Limiter(store: Sto, strategy: Str)

  /** Marks a builder slot that has not been filled. */
  datatype Unset = Unset

  datatype LimiterBuilder<Sto, Str> = LimiterBuilder(store: Sto, strategy: Str) {

    /** Fills the store slot and keeps the strategy slot. */
    function WithStore<S>(s: S): (b: LimiterBuilder<S, Str>)
      ensures b.store == s && b.strategy == strategy
    {
      LimiterBuilder(s, strategy)
    }

    /** Fills the strategy slot and keeps the store slot. */
    function WithStrategy<T>(t: T): (b: LimiterBuilder<Sto, T>)
      ensures b.store == store && b.strategy == t
    {
      LimiterBuilder(store, t)
    }

    /** Moves both slots, unchanged, into a limiter. */
    function Build(): (l: Limiter<Sto, Str>)
      ensures l.store == store && l.strategy == strategy
    {
      Limiter(store, strategy)
    }
  }

  /** A builder with neither slot filled (`Limiter::builder`, `LimiterBuilder::new`). */
  function NewBuilder(): (b: LimiterBuilder<Unset, Unset>)
    ensures b.store == Unset && b.strategy == Unset
  {
    LimiterBuilder(Unset, Unset)
  }

  /** Filling both slots, in either order, and building gives a limiter over exactly that store and strategy. */
  lemma BuilderAssembles<Sto, Str>(store: Sto, strategy: Str)
    ensures NewBuilder().WithStore(store).WithStrategy(strategy).Build() == Limiter(store, strategy)
    ensures NewBuilder().WithStrategy(strategy).WithStore(store).Build() == Limiter(store, strategy)
  {
  }

  /** The state checked for `key`: the stored one, or a fresh one when the key is absent. */
  function StateFor(entries: map<string, CounterState>, key: string, now: Time): CounterState {
    Lookup(entries, key).GetOr(InitialState(now))
  }

  /** The fixed window as `Protocol` sees it: a check that always succeeds. */
  function CheckAnswer(cfg: Config, now: Time): CounterState -> Result<(CounterState, LimitResult<FixedWindowMetadata>), NoError> {
    s => Success((Check(cfg, now, s).state, Check(cfg, now, s).result))
  }

  /** The memory store as `Protocol` sees it: a write that always succeeds. */
  function WriteAnswer(): CounterState -> Option<NoError> {
    s => None
  }

  /**
   * A `limit` call that took the store from `before` to `after` and returned
   * `allowed` is the protocol run against the memory store and the fixed
   * window: the run succeeds with `allowed`, and its last call wrote the
   * state now stored under `key`.
   */
  ghost predicate FollowsProtocol(cfg: Config, now: Time, before: map<string, CounterState>, key: string,
                                  allowed: bool, after: map<string, CounterState>)
  {
    var run := Protocol(Success(Lookup(before, key)), InitialState(now), CheckAnswer(cfg, now), WriteAnswer());
    && run.outcome == Success(allowed)
    && key in after
    && run.calls[|run.calls| - 1] == SetCall(after[key])
  }

  /**
   * `Limiter::limit` over the memory store and the fixed window: reads the
   * key's state (or initialises one), checks it, writes the checked state
   * back under the key and returns the decision. Neither component fails, so
   * neither does this.
   */
  method Limit(limiter: Limiter<MemoryStore<CounterState>, FixedWindow>, key: string) returns (allowed: bool)
    modifies limiter.store
    ensures var c := Check(limiter.strategy.Settings(), limiter.strategy.clock.currentTime,
                           StateFor(old(limiter.store.entries), key, limiter.strategy.clock.currentTime));
      && limiter.store.entries == old(limiter.store.entries)[key := c.state]
      && allowed == c.result.IsAllowed()
    ensures FollowsProtocol(limiter.strategy.Settings(), limiter.strategy.clock.currentTime,
                            old(limiter.store.entries), key, allowed, limiter.store.entries)
  {
    var found := limiter.store.Get(key);
    var initial := limiter.strategy.InitializeState();
    var state := found.GetOr(initial);
    var next, limited := limiter.strategy.CheckLimit(state);
    limiter.store.Set(key, next);
    allowed := limited.IsAllowed();
    LimitFollowsProtocol(limiter.strategy.Settings(), limiter.strategy.clock.currentTime, old(limiter.store.entries), key);
  }

  /**
   * What `Limit` does is the protocol run against the memory store and the
   * fixed window: get, initialise, check the stored or fresh state, write
   * the checked state back, and return the decision.
   */
  lemma LimitFollowsProtocol(cfg: Config, now: Time, entries: map<string, CounterState>, key: string)
    ensures var checked := StateFor(entries, key, now);
      Protocol(Success(Lookup(entries, key)), InitialState(now), CheckAnswer(cfg, now), WriteAnswer())
      == Run(Success(Check(cfg, now, checked).result.IsAllowed()),
             [GetCall, InitializeCall, CheckCall(checked), SetCall(Check(cfg, now, checked).state)])
  {
  }

  /** With a limit of at least one, the first `Limit` call for a key never seen before is allowed. */
  lemma FirstLimitForFreshKeyAllowed(cfg: Config, now: Time, entries: map<string, CounterState>, key: string)
    requires key !in entries && cfg.limit >= 1
    ensures Check(cfg, now, StateFor(entries, key, now)).result.IsAllowed()
  {
    FirstCheckAllowed(cfg, now);
  }

  /**
   * One iteration of the example program's loop: the `limit` call number
   * `iteration` (from 0) for the key "test", with the clock standing still.
   */
  method BasicIteration(limiter: Limiter<MemoryStore<CounterState>, FixedWindow>, start: Time, iteration: nat)
    returns (allowed: bool)
    requires limiter.strategy.Settings() == Config(FromSecs(10), 10)
    requires limiter.strategy.clock.currentTime == start
    requires Lookup(limiter.store.entries, "test")
             == if iteration == 0 then None else Some(CounterState(if iteration <= 10 then iteration else 10, start))
    modifies limiter.store
    ensures Lookup(limiter.store.entries, "test") == Some(CounterState(if iteration < 10 then iteration + 1 else 10, start))
    ensures allowed == (iteration < 10)
  {
    ghost var cfg := limiter.strategy.Settings();
    ghost var entries := limiter.store.entries;
    ghost var before := StateFor(entries, "test", start);
    assert before == CounterState(if iteration <= 10 then iteration else 10, start);
    if iteration < 10 {
      CheckCountsWithinWindow(cfg, start, before);
    } else {
      CheckDeniesWhenFull(cfg, start, before);
    }
    ghost var after := Check(cfg, start, before);
    assert after.state == CounterState(if iteration < 10 then iteration + 1 else 10, start);
    allowed := Limit(limiter, "test");
    assert limiter.store.entries == entries["test" := after.state];
  }

  /**
   * The example program's limiter (a 10-second window, a limit of 10, a
   * fresh memory store): of 20 back-to-back calls for one key with the clock
   * standing still, the first 10 are allowed and the rest denied.
   */
  method BasicExample(start: Time) returns (decisions: seq<bool>)
    ensures |decisions| == 20
    ensures forall i :: 0 <= i < 20 ==> decisions[i] == (i < 10)
  {
    var clock := new Clock.MockClock(start);
    var strategy := new FixedWindow(FromSecs(10), 10, clock);
    var store := new MemoryStore<CounterState>();
    var limiter := NewBuilder().WithStore(store).WithStrategy(strategy).Build();
    decisions := [];
    var iteration := 0;
    while iteration < 20
      invariant 0 <= iteration <= 20
      invariant clock.currentTime == start
      invariant Lookup(store.entries, "test") == if iteration == 0 then None else Some(CounterState(if iteration <= 10 then iteration else 10, start))
      invariant |decisions| == iteration
      invariant forall i :: 0 <= i < iteration ==> decisions[i] == (i < 10)
    {
      var allowed := BasicIteration(limiter, start, iteration);
      decisions := decisions + [allowed];
      iteration := iteration + 1;
    }
  }
}
