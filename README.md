# speedbump: a verified model of a pluggable rate limiter

speedbump decides, per request key, whether a request is admitted. A
`Limiter` owns a state store and a limiting strategy; each `limit(key)` call
reads the key's state from the store (or asks the strategy for a fresh one),
lets the strategy check and update it, writes it back and returns the
decision. The reference strategy is a fixed window (at most `limit`
requests per `window_duration`); the reference store is an in-memory map;
a controllable mock clock drives time in tests.

The Dafny project follows the crate's layout:

- `wrappers.dfy` (`Wrappers`): `Option` and `Result`.
- `time.dfy` (`Time`): `SystemTime` and `Duration` as nanosecond counts, with
  `duration_since` and `checked_add` as partial operations. The model uses
  the Unix representation of `SystemTime` (signed 64-bit seconds plus
  nanoseconds, shifted to start at 0), so the last instant and
  `Duration::MAX` are both 2^64 * 10^9 - 1 nanoseconds.
- `clock.dfy` (`Clock`): `MockClock` as a class with one mutable field.
- `strategy.dfy` (`Strategy`): `LimitResult` and its constructors and accessors.
- `fixed_window.dfy` (`FixedWindowStrategy`): the counter state (with `count`
  a `u32`, so the increment is range-checked), the pure function `Check`
  that specifies one check, the `FixedWindow` class whose `CheckLimit` and
  `InitializeState` read its clock, the lemmas about `Check`, and the
  crate's own test scenario.
- `memory.dfy` (`Memory`): `MemoryStore` as a class over a `map<string, S>`.
- `speedbump.dfy` (`Speedbump`): the error type, the builder, the generic
  protocol of `limit` and the concrete `Limit` over the memory store and the
  fixed window.

`Limiter::limit` is generic over any store and strategy. Dafny here has no
interfaces, so the model has two parts. `Protocol` is a pure function of
what the store and strategy answer. It covers every error path and records
the calls made, in order. `Limit` is the imperative method for the
reference store and strategy. Its contract says both what it does to the
store and that it is the run `Protocol` prescribes for them: the run
succeeds with the returned decision, and its final write is the state now
stored under the key (`FollowsProtocol`).

Some behaviour of the code is easy to misread. The model follows the code:

- With `limit = 0` and a positive window, a fresh key's first check is
  denied. One might expect a key's first request to be admitted. But the
  fresh state has `count = 0` and a window starting now, so that check
  falls inside the window, and 0 is not below 0. See `LimitZeroDeniesFreshKey`.
- When the clock reads earlier than `window_start`, the window restarts at
  `now`. So `window_start` can move backwards, although it never does while
  the clock runs forward. See `CheckRollsOver`.
- With the clock standing still inside a window, `till_next_window` stays
  the same from call to call; it does not decrease.
- `initialize_state` is passed to `unwrap_or`, so it is evaluated (and the
  clock read) whenever `get` succeeds, even for a key that is present. The
  protocol records that call.

## Model

| member | source | states |
|---|---|---|
| `Time.DurationSince` | src/strategy/fixed_window.rs:66-68 | `duration_since` succeeds exactly when the earlier instant is not after the later one, and then returns their difference |
| `Time.CheckedAdd` | src/strategy/fixed_window.rs:84-86 | `checked_add` succeeds exactly when the sum is a representable instant, and then returns the sum |
| `Clock.MockClock.constructor` | src/strategy/clock.rs:34-40 | a new mock clock reads the instant it was started at |
| `Clock.MockClock.Now` | src/strategy/clock.rs:48-52 | `now` returns the current instant and changes nothing |
| `Clock.MockClock.Advance` | src/strategy/clock.rs:42-45 | `advance(d)` moves the current instant forward by exactly `d`, never backwards |
| `Clock.NowIsStable` | src/strategy/clock.rs:48-52 | two `now` readings with no advance between them are equal |
| `Clock.AdvanceComposes` | src/strategy/clock.rs:42-45 | advancing by `d1` then `d2` gives the same instant as advancing by `d1 + d2` |
| `Strategy.LimitResult.Allowed` | src/strategy/mod.rs:13-18 | `allowed()` allows and carries no metadata |
| `Strategy.LimitResult.Disallowed` | src/strategy/mod.rs:21-26 | `disallowed()` denies and carries no metadata |
| `Strategy.LimitResult.WithMetadata` | src/strategy/mod.rs:29-34 | `with_metadata(m)` keeps the decision and sets the metadata to `Some(m)` |
| `Strategy.LimitResult.IsAllowed` | src/strategy/mod.rs:36-38 | `is_allowed` returns the stored decision |
| `Strategy.LimitResult.Metadata` | src/strategy/mod.rs:40-42 | `metadata` returns the stored metadata option |
| `Strategy.AccessorsReturnStoredParts` | src/strategy/mod.rs:36-42 | `is_allowed` and `metadata` return the stored flag and option; attaching metadata never changes the decision |
| `FixedWindowStrategy.FixedWindow.constructor` | src/strategy/fixed_window.rs:19-43 | the strategy keeps the window, the limit and the clock it was given |
| `FixedWindowStrategy.InitialState` | src/strategy/fixed_window.rs:98-103 | `initialize_state` as a function of the clock's reading: count 0, window starting at that reading |
| `FixedWindowStrategy.Check` | src/strategy/fixed_window.rs:61-96 | `check_limit` as a function of the configuration, the clock's reading and the state: the state stays, gains one request in the same window, or becomes a new window of one request at `now`; the result always carries metadata |
| `FixedWindowStrategy.FixedWindow.InitializeState` | src/strategy/fixed_window.rs:98-103 | a fresh state has count 0 and a window starting at the clock's current instant |
| `FixedWindowStrategy.FixedWindow.CheckLimit` | src/strategy/fixed_window.rs:61-96 | reading the clock once, the new state and result are those of `Check` at the clock's current instant |
| `FixedWindowStrategy.CheckCountsWithinWindow` | src/strategy/fixed_window.rs:70-73 | inside the window and below the limit: allowed, count rises by exactly 1, window start unchanged |
| `FixedWindowStrategy.CheckDeniesWhenFull` | src/strategy/fixed_window.rs:70-76 | inside the window at or above the limit: denied, state entirely unchanged |
| `FixedWindowStrategy.CheckRollsOver` | src/strategy/fixed_window.rs:66-81 | when the window has run out or the clock reads before the window start: count becomes 1, window starts now, allowed |
| `FixedWindowStrategy.CheckDecision` | src/strategy/fixed_window.rs:70-82 | a check allows if and only if it is outside the window or the count is below the limit |
| `FixedWindowStrategy.CheckKeepsCountBound` | src/strategy/fixed_window.rs:70-82 | `count <= max(limit, 1)` is preserved; the window start either stays or becomes now |
| `FixedWindowStrategy.CheckReportsTillNextWindow` | src/strategy/fixed_window.rs:84-93 | every result carries metadata; `till_next_window` is window start + window - now, at most the window, a whole window after a rollover, and `Duration::MAX` when the window end overflows |
| `FixedWindowStrategy.FirstCheckAllowed` | src/strategy/fixed_window.rs:70-103 | with a limit of at least 1, the first check of a fresh state is allowed and leaves count 1 |
| `FixedWindowStrategy.LimitZeroDeniesFreshKey` | src/strategy/fixed_window.rs:70-103 | with limit 0 and a positive window, the first check of a fresh state at the same instant is denied and changes nothing |
| `FixedWindowStrategy.CheckManyWithinWindow` | src/strategy/fixed_window.rs:70-76 | inside one window with the clock still, exactly the first `limit - count` of `k` checks are allowed; the count saturates at the limit |
| `FixedWindowStrategy.TenSecondWindowScenario` | src/strategy/fixed_window.rs:113-135 | window 10 s, limit 3: allowed, allowed, allowed, denied; after advancing 10 s, the same again |
| `Memory.MemoryStore.constructor` | src/store/memory.rs:16-21 | a new store is empty |
| `Memory.Lookup` | src/store/memory.rs:30 | the map read of `get`: an entry exactly when the key is present, and then the stored value |
| `Memory.MemoryStore.Get` | src/store/memory.rs:29-31 | `get` returns the entry for the key if there is one and nothing otherwise, and changes nothing |
| `Memory.MemoryStore.Set` | src/store/memory.rs:33-36 | `set` creates or replaces the key's entry and leaves every other entry |
| `Memory.MemoryStore.Clear` | src/store/memory.rs:38-41 | `clear` removes the key's entry and leaves every other entry |
| `Memory.EmptyStoreHasNoEntries` | src/store/memory.rs:17-31 | a new store returns nothing for every key |
| `Memory.LookupAfterSet` | src/store/memory.rs:33-36 | after `set(k, s)`, `get(k)` is `Some(s)` and other keys read as before |
| `Memory.LookupAfterClear` | src/store/memory.rs:38-41 | after `clear(k)`, `get(k)` is nothing, a second clear changes nothing and other keys read as before |
| `Memory.SetGetClearRoundTrip` | src/store/memory.rs:29-41 | a client's set, get, clear, get, clear, get sees the value, then nothing, then nothing |
| `Speedbump.Protocol` | src/lib.rs:33-49 | `limit` for any store and strategy, given by their answers: every run starts with `get`, and a successful run makes four calls and ends with the write back |
| `Speedbump.ProtocolGetFailure` | src/lib.rs:34-39 | a failing `get` is returned as a store error; neither the strategy nor `set` runs |
| `Speedbump.ProtocolCheckFailure` | src/lib.rs:34-46 | a failing check is returned as a strategy error and `set` is never called |
| `Speedbump.ProtocolWritesBackCheckedState` | src/lib.rs:34-48 | the stored state (or the initial one for an absent key) is checked, exactly the checked state is written back, and the result is the check's decision or the write's store error |
| `Speedbump.NewBuilder` | src/lib.rs:6-11 | `Limiter::builder` and `LimiterBuilder::new` (src/lib.rs:64-72) give a builder with both slots unset |
| `Speedbump.LimiterBuilder.WithStore` | src/lib.rs:75-80 | `store(s)` fills the store slot and keeps the strategy |
| `Speedbump.LimiterBuilder.WithStrategy` | src/lib.rs:82-87 | `strategy(t)` fills the strategy slot and keeps the store |
| `Speedbump.LimiterBuilder.Build` | src/lib.rs:95-100 | `build` moves both slots unchanged into the limiter |
| `Speedbump.BuilderAssembles` | src/lib.rs:64-100 | filling both slots of a new builder, in either order, and building gives a limiter over exactly those two |
| `Speedbump.Limit` | src/lib.rs:33-49 | the key's entry becomes the checked state (of the stored state, or of a fresh one), other keys are untouched, the decision is the check's, and the call is the `Protocol` run for the memory store and the fixed window |
| `Speedbump.LimitFollowsProtocol` | src/lib.rs:33-49 | over the memory store and the fixed window, the protocol gets, initialises, checks, writes back the checked state and returns the check's decision |
| `Speedbump.FirstLimitForFreshKeyAllowed` | src/lib.rs:34-48 | with a limit of at least 1, the first `limit` call for a key not in the store is allowed |
| `Speedbump.BasicExample` | examples/basic.rs:7-19 | window 10 s, limit 10: of 20 calls for one key at one instant the first 10 are allowed and the rest denied |

## Left out

- Concurrency: `async`/`.await`, `Arc`, the store's mutex and the `Send`/`Sync` bounds are not modelled; the model is sequential, so the race between two `limit` calls on the same key cannot be stated.
- `SystemTimeClock` reads the wall clock, a foreign call; the strategy is given a `MockClock`, and `MockClock::new`'s starting instant is a parameter.
- `FixedWindow::new` and `with_clock`, and the test/production choice of `DefaultClock`, are folded into one constructor that takes the clock.
- The `Clock`, `LimitStrategy` and `Store`/`LocalStore` interfaces are not declared as such; `Protocol` stands for any store and strategy by their answers, and the concrete classes are the reference implementations.
- `Infallible`: the memory store and the fixed window cannot fail, so their methods here have no error channel; `NoError` fills the error type only where `Protocol` needs one.
- The builder's compile-time guarantee that `build` needs both slots filled is a type-system fact; `Unset` only marks an empty slot.
- `Default` implementations of `LimiterBuilder` and `MemoryStore` are the same as `new`; `DefaultLimitResult` is a type alias.
- `metadata()` returns a reference in the source; here it returns the option by value.
- Serde derives and bounds on the state and the store are not modelled.
- `Time`: only the Unix range of `SystemTime` is modelled; other platforms have other ranges.
- Clock.MockClock.Advance: adding a duration past the last representable instant panics in the source; the model requires the sum to be in range instead of modelling the panic.
- Speedbump.Limit: is stated for the memory store and the fixed window only; the error paths of the generic `limit` are stated about `Protocol`.
- The example program's printing is not modelled; `BasicExample` keeps only its decisions.
