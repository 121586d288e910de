# Countdown: a verified model

This project models `Countdown` from Countdown.swift. It is a countdown clock for one identifier. It computes the seconds left from an absolute start time rather than from an in-memory counter. A repeating one-second timer passes that value to the owner's callback. The start time is saved to a shared disk cache when the countdown is stopped, the app goes to the background, or the app terminates. When a countdown with the same identifier is constructed later, it resumes from the saved start time, or deletes the saved entry if it has gone stale.

The project has four parts:

- `countdown_spec.dfy` (module `CountdownSpec`) describes each operation as a pure transition on an abstract `State`. The state holds the start time, the current time, the timer, the run loop's live timers, the disk cache and the values passed to the callback.
  - The timer is `None`, or a `Timer` that is live or suspended. "Suspended" means its fire date is the distant future.
  - Every timer carries an id. `Valid` says the run loop holds exactly the countdown's own timer, so there is never more than one timer.
- `countdown.dfy` (module `Countdowns`) holds the class `Countdown`. Its fields have the same names as the Swift fields. Its methods change those fields in place, and each method's `ensures` equates the new abstract state with the matching transition of `CountdownSpec`.
  - `Countdowns.BackgroundScenario` is a worked example. It drives one object through construction, `start()`, a tick, background, foreground and `stop()`, and asserts the callback values and the cache after each step.
- `disk_cache.dfy` (module `DiskStore`) holds the class `DiskCache`, a map from keys to stored timestamps. One instance is passed to the constructor, standing for the shared `PINCache.shared.diskCache`.
- `countdown_properties.dfy` (module `CountdownProperties`) holds lemmas that link several transitions:
  - a full run from `start()` down to zero;
  - silence after `stop()` and while in the background;
  - background followed by foreground;
  - resuming from a stored start time;
  - arbitrary event traces.

Modelling choices:

- **Time:** the wall clock is the parameter `now`, in whole seconds. The source truncates both timestamps with `Int(...)` before subtracting (Countdown.swift:33, :82), so whole seconds lose nothing.
- **Callback:** each call to the owner's callback appends its argument to `delivered`.
- **Events:** each lifecycle notification is its own method. So is each firing of the timer by the run loop (`Fire`), which runs `TimeUpdate` only when a timer exists and is not suspended.

Some of the code's behaviour may surprise a reader. The model follows the code in these points:

- `stop()` and `deinit` save the start time only when a timer exists. With no timer they change nothing.
- `startCountdown` fires the new timer at once, so `start()` passes `startValue` to the callback immediately (the model reads the clock once for both; see "## Left out"). A run started at t = 0 therefore delivers 60 at t = 0, and then 59, ..., 0 at t = 1, ..., 60.
- If `startValue <= 0`, the immediate tick after `start()` is already outside the window (0, startValue], so the timer is cleared straight away.
- A clock set back before the start time also makes the interval exceed `startValue`, which ends the countdown (`InWindowIff`).

## Model

| member | source | states |
|---|---|---|
| `CountdownSpec.Init` | Countdown.swift:21-42 | With no entry for the identifier, the state is the fresh one and the cache is untouched. With an entry whose interval is in (0, startValue], the start time is the stored value, the timer runs, the cache is untouched and the callback has received that interval. With an out-of-window entry, the entry is removed and no timer exists. The invariant holds. |
| `CountdownSpec.Start` | Countdown.swift:45-49 | The start time is `now` and the cache is untouched. The callback receives `startValue` at once. A running timer remains exactly when `startValue > 0`. Any earlier timer is no longer live. |
| `CountdownSpec.StartCountdown` | Countdown.swift:68-77 | The old timer is invalidated. The only live timer is the new one. The first tick's interval is delivered. The new timer survives exactly when that interval is in the window. Start time and cache are unchanged. |
| `CountdownSpec.TimeUpdate` | Countdown.swift:79-94 | The callback receives `startValue - (now - startTime)` even when it is out of range. The timer is kept when that interval is in (0, startValue] and cleared otherwise. Start time and cache are untouched. |
| `CountdownSpec.Invalidate` | Countdown.swift:69-72 | Afterwards there is no timer and nothing is live on the run loop. |
| `CountdownSpec.Stop` | Countdown.swift:51-61 | With a timer: the timer is cleared and the start time is stored under the identifier. With no timer: nothing changes, the cache included. |
| `CountdownSpec.Fire` | Countdown.swift:74-76 | Only a live, unsuspended timer fires. A firing delivers the interval and keeps the timer running exactly when the interval is in the window. Otherwise nothing changes. |
| `CountdownSpec.WillTerminate` | Countdown.swift:99-107 | With a timer, the start time is stored and nothing else changes. With none, nothing changes. |
| `CountdownSpec.DidEnterBackground` | Countdown.swift:110-120 | With a timer, the start time is stored and the timer is suspended but kept live. With none, nothing changes. Afterwards nothing is running. |
| `CountdownSpec.WillEnterForeground` | Countdown.swift:123-128 | A suspended or active timer runs again. Nothing is written. With no timer, nothing changes. |
| `Countdowns.Countdown.constructor` | Countdown.swift:21-42 | The new object's abstract state is `Init` of the cache as it was, and the invariant holds. |
| `Countdowns.Countdown.Start` | Countdown.swift:45-49 | The object's fields change as `CountdownSpec.Start` says. |
| `Countdowns.Countdown.Stop` | Countdown.swift:51-61 | Fields and disk cache change as `CountdownSpec.Stop` says. |
| `Countdowns.Countdown.Deinit` | Countdown.swift:63-66 | Same effect as `stop()`. |
| `Countdowns.Countdown.InvalidateTimer` | Countdown.swift:69-72 | Fields change as `CountdownSpec.Invalidate` says. |
| `Countdowns.Countdown.StartCountdown` | Countdown.swift:68-77 | Fields change as `CountdownSpec.StartCountdown` says. |
| `Countdowns.Countdown.TimeUpdate` | Countdown.swift:79-94 | Fields change as `CountdownSpec.TimeUpdate` says. |
| `Countdowns.Countdown.Fire` | Countdown.swift:74-76 | The tick handler runs only for a live, unsuspended timer, as `CountdownSpec.Fire` says. |
| `Countdowns.Countdown.WillTerminate` | Countdown.swift:99-107 | The disk cache changes as `CountdownSpec.WillTerminate` says. The object's fields are untouched. |
| `Countdowns.Countdown.DidEnterBackground` | Countdown.swift:110-120 | Fields and disk cache change as `CountdownSpec.DidEnterBackground` says. |
| `Countdowns.Countdown.WillEnterForeground` | Countdown.swift:123-128 | Fields change as `CountdownSpec.WillEnterForeground` says. |
| `CountdownProperties.CountsDown` | Countdown.swift:79-94 | While fewer than `startValue` seconds have passed, firings one second apart deliver `startValue - 1`, `startValue - 2`, ... and the timer keeps running. |
| `CountdownProperties.LastFiring` | Countdown.swift:87-93 | The firing `startValue` seconds after the start delivers 0 and clears the timer. |
| `CountdownProperties.CountdownEnds` | Countdown.swift:87-93 | After the final firing, any number of further firings deliver nothing and the timer stays cleared. |
| `CountdownProperties.StartRunsToZero` | Countdown.swift:45-94 | After `start()` at t0 and a firing every second, the callback has received exactly `startValue, startValue - 1, ..., 0`, and the timer is gone. |
| `CountdownProperties.Promo1` | Countdown.swift:21-94 | Identifier "promo1", 60 s, no stored entry, started at t = 0, fired at t = 1, 2, ...: the callback receives 60, 59, ..., 0 (61 values) and the cache is untouched. |
| `CountdownProperties.NotRunningIgnoresFires` | Countdown.swift:74-76 | With no running timer, any number of firings change nothing. |
| `CountdownProperties.BackgroundSilences` | Countdown.swift:118 | While in the background, firings deliver nothing. |
| `CountdownProperties.BackgroundForeground` | Countdown.swift:110-128 | Background followed straight away by foreground only writes the start time to the cache. The next firing delivers the same value it would have delivered without the round trip. |
| `CountdownProperties.StoredSessionResumes` | Countdown.swift:28-38 | After stop, terminate or background with a timer, a new countdown built on the resulting cache starts from the same start time. It runs exactly when the interval at that moment is in the window; otherwise the entry is removed. |
| `CountdownProperties.InWindowIff` | Countdown.swift:34 | The interval is in (0, startValue] exactly when `startTime <= now < startTime + startValue`. |
| `CountdownProperties.IdleStaysIdle` | Countdown.swift:51-128 | With no timer, no event sequence that lacks a `start()` changes anything. |
| `CountdownProperties.StopSilences` | Countdown.swift:51-61 | After `stop()`, no callback fires until the next `start()`. |
| `CountdownProperties.StartTimeFixedUntilRestart` | Countdown.swift:45-128 | Until the next `start()`: the start time never changes, the earlier callback values stay as a prefix of the list, and the identifier's cache entry is either its earlier value or the start time. |
| `CountdownProperties.Run` | Countdown.swift:68-77 | Along any sequence of events, at most one timer is live on the run loop. |

## Left out

- UIButton+Extension.swift: the image-and-title layout helper uses `CGFloat` arithmetic and UIKit text measurement, and has no state. It is not part of this model.
- RxSwift subscriptions, `NotificationCenter` and the `DisposeBag`: each notification is a method called directly. The `[weak self]` case of a deallocated object is not modelled.
- `Timer` and `RunLoop` scheduling: the one-second period is not enforced. `Fire(now)` may be called at any time, and a caller who wants one firing per second passes those times.
- The wall clock: `Date()` is the parameter `now`.
- Sub-second precision: `Double` timestamps are whole seconds, and the cached `NSNumber` is taken to be an integer. `start()` stores a fractional timestamp in the source, but only its truncation is ever used in a subtraction.
- The owner's closure: only its argument sequence is recorded. The closure itself is not modelled.
- `PINCache` asynchrony: writes and removals take effect at once. Overlapping asynchronous writes and their completion handlers are not modelled, nor are the `log` calls.
- When `deinit` runs: `Deinit` is a method that calls `Stop`. Deallocation timing is not modelled. Note on the source (not executed): the `Timer` created at Countdown.swift:74 holds a strong reference to its target, and a suspended timer stays scheduled. So `deinit` can only run once `timer == nil`, and the `stop()` it calls at Countdown.swift:65 never stores anything. The model's `Deinit` called with a live timer is therefore a state the source cannot reach.
- Two clock reads: `start()` reads the clock at Countdown.swift:47 and the immediate tick reads it again at :80; `init` reads it at :32 and the tick at :80. The model uses one `now` for both reads. So "start() delivers `startValue` at once" and `Init`'s "in the window ⇒ running" hold when both reads fall in the same whole second. Across a second boundary the source delivers `startValue - 1`, or resumes with interval 1, fires 0 and clears the timer.
- Integer overflow: Swift's `Int` subtraction at Countdown.swift:33 and :82 traps on overflow (for instance `startValue = Int.max` with the clock set back). The model's `int` is unbounded and has no trap.
- The default argument `startValue: Int = 60` (Countdown.swift:21) is not modelled: the constructor always takes `startValue` explicitly.
