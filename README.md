# Run tracker session engine, in Dafny

This project models the session-tracking core of the Run-Tracker iOS app:

- `RunDataManager` holds one run session. It receives GPS fixes and runs a noise filter on them. The first fix after a reset becomes the baseline and adds 0 m. A later fix closer than 2.0 m to the baseline is jitter, and one farther than 50.0 m is drift. Both are dropped without any change. Any other fix is appended to `locations`, becomes the new baseline and adds its distance to `totalDistance`. The manager also starts, stops and re-arms the session, recomputes the elapsed `duration` from the start time, and produces an optional `RunSession` summary.
- `StepCounterManager` is the pedometer source. It has a guarded `isTracking` flag. Its update handler replaces the step count and the distance with the sensor's latest absolute reading.

Files:

- `wrappers.dfy` holds `Option`, the Swift `T?`.
- `run_session.dfy` holds the `RunSession` record, plus the `Time` and `SessionId` types.
- `noise_filter.dfy` is the filter stated on values. `Admit` is one call of `processLocation`. `Replay` is a whole stream of fixes after a reset. `Consistent` is the session invariant. The lemmas state the properties of a stream: bounds, monotonicity, rejected fixes leaving no trace, and a worked example.
- `run_data_manager.dfy` holds the class `RunDataManager`. Its fields are the Swift fields. A ghost field `received` records the fixes handed to `ProcessLocation` since the last reset. The object invariant `Valid()` says the filter's fields equal `Replay(distance, received)`.
- `step_counter_manager.dfy` holds the class `StepCounterManager`.

Modelling choices:

- A position (`CLLocation`) is the opaque type `Location`. `CLLocation.distance(from:)` is the constant function field `distance` of the manager, given to its constructor. The proofs assume nothing about it: every kept leg is at least 2.0 m because of the filter itself.
- `Date()` becomes a `now: Time` parameter, with `Time = real` seconds. A new `UUID` becomes an `id: SessionId` parameter.
- The pedometer's availability, the system's authorization status and each sensor reading are method parameters.
- Metres and seconds are `real`. Swift's `Double` rounding is not modelled.

The model follows what the code does, including where that is less than a run tracker is usually expected to do:

- There is no Idle/Active/Stopped session state in the code. Nothing stops `processLocation` from running after `stopRun`, so the model does not stop it either. The duration does freeze: `stopRun` cancels the timer (Services/RunDataManager.swift:46), and `updateDuration`'s only caller is that timer's sink (:92-94). The model keeps this as the `timerRunning` flag, which `StartRun` sets and `StopRun` clears; `TimerFired` changes nothing while it is clear.
- `stopRun` is not idempotent: it writes `endTime = Date()` on every call (Services/RunDataManager.swift:44-48), so a second call overwrites the end time with the later `now`.
- The thresholds are not configurable: the code has the constants 2.0 and 50.0 (Services/RunDataManager.swift:21-22).
- There is no choice between GPS and pedometer sources: `RunDataManager` never reads `StepCounterManager`, so the two classes are modelled separately.

## Model

| member | source | states |
|---|---|---|
| NoiseFilter.Admit | Services/RunDataManager.swift:50-78 | one fix keeps the session invariant: the baseline is the last kept fix (none exactly when nothing is kept), every kept leg is within [2.0, 50.0] m, and the total is the sum of the kept legs; the total never decreases; the fix is either dropped with no change or appended and made the baseline |
| NoiseFilter.Replay | Services/RunDataManager.swift:50-87 | after any stream of fixes from a reset, the invariant holds; no more fixes are kept than were received, every kept fix is one that was received, and the first fix of a non-empty stream is always kept |
| NoiseFilter.ReplaySnoc | Services/RunDataManager.swift:50-75 | helper: feeding one more fix equals applying the filter once more to the session so far; it links `ProcessLocation` to `Replay` |
| NoiseFilter.PathLengthBounds | Services/RunDataManager.swift:58-68 | a path of n fixes whose legs all passed both guards has length between 2.0·(n−1) and 50.0·(n−1) |
| NoiseFilter.ReplayTotalBounds | Services/RunDataManager.swift:50-75 | after any non-empty stream with n fixes kept, 2.0·(n−1) ≤ totalDistance ≤ 50.0·(n−1) |
| NoiseFilter.ReplayTotalMonotone | Services/RunDataManager.swift:71-75 | the total after a prefix of a stream never exceeds the total after the whole stream, so totalDistance never decreases |
| NoiseFilter.RejectedFixKeepsBaseline | Services/RunDataManager.swift:56-66 | a fix whose distance from the baseline is below 2.0 m or above 50.0 m changes nothing, so the next fix is still measured from the old baseline and a drift outlier never replaces it |
| NoiseFilter.SampleRun | Services/RunDataManager.swift:50-75 | a baseline, then +3 m, +1 m (jitter), +80 m (drift) and +4 m from the second fix, keeps three fixes and totals exactly 7.0 m |
| RunData.RunDataManager.constructor | Services/RunDataManager.swift:11-26 | a new manager has no fixes, no baseline, zero distance and duration, no start or end time, no running timer, and satisfies the session invariant |
| RunData.RunDataManager.StartRun | Services/RunDataManager.swift:38-42 | whatever the prior state, the session is re-armed: no fixes, no baseline, total 0, duration 0, no end time, start time now; the duration timer is running |
| RunData.RunDataManager.StopRun | Services/RunDataManager.swift:44-48 | sets endTime to now on every call and cancels the timer; leaves locations, baseline, total, start time and duration unchanged and keeps the session invariant |
| RunData.RunDataManager.ProcessLocation | Services/RunDataManager.swift:50-69 | with no baseline the fix is appended, becomes the baseline and adds exactly 0; with a baseline at distance d, a fix with 2.0 ≤ d ≤ 50.0 is appended, becomes the baseline and adds exactly d, and any other fix changes nothing; the session invariant is kept |
| RunData.RunDataManager.UpdateLocation | Services/RunDataManager.swift:71-78 | appends the fix, makes it the baseline and adds the given distance to the total |
| RunData.RunDataManager.ResetRunData | Services/RunDataManager.swift:80-87 | empties locations, clears the baseline and end time, zeroes total and duration, sets the start time to now, and re-establishes the invariant for an empty stream |
| RunData.RunDataManager.StartTimer | Services/RunDataManager.swift:89-95 | afterwards the duration timer is running, replacing any earlier one |
| RunData.RunDataManager.TimerFired | Services/RunDataManager.swift:92-94 | a tick after the timer was cancelled changes nothing, so the duration stays frozen after `stopRun`; a tick while it runs recomputes the duration as now − startTime; the session invariant is kept |
| RunData.RunDataManager.UpdateDuration | Services/RunDataManager.swift:97-100 | no change without a start time; otherwise duration is recomputed as now − startTime, not accumulated, so it grows whenever now grows; the session invariant is kept |
| RunData.RunDataManager.GenerateRunSummary | Services/RunDataManager.swift:102-109 | returns nothing exactly when there is no start time; otherwise a record with the given id, distance = totalDistance, duration = duration and timestamp = startTime; changes no field |
| StepCounter.StepCounterManager.constructor | Services/StepCounterManager.swift:7-15 | a new manager is not tracking, has zero steps and distance, and holds the system's current authorization status |
| StepCounter.StepCounterManager.RequestPermission | Services/StepCounterManager.swift:18-31 | a determined status is copied into permissionStatus at once; while it is undetermined nothing changes until the prompt answers |
| StepCounter.StepCounterManager.StartTracking | Services/StepCounterManager.swift:33-38 | if step counting is unavailable, permission is not authorized, or tracking is already on, nothing changes; otherwise tracking is on |
| StepCounter.StepCounterManager.StopTracking | Services/StepCounterManager.swift:56-60 | a no-op when not tracking; afterwards tracking is off, so two calls equal one |
| StepCounter.StepCounterManager.HandlePedometerUpdate | Services/StepCounterManager.swift:43-53 | an error or a missing reading changes nothing; a reading replaces the step count, and replaces the distance when it carries one, leaving it unchanged otherwise |

## Left out

- The Combine subscription to `LocationManager.shared.$location` and its hop to a background queue (Services/RunDataManager.swift:28-36) are left out. Each fix is one synchronous `ProcessLocation` call.
- `updateLocation` defers its body with `Task { @MainActor in ... }` (Services/RunDataManager.swift:72). The model applies it at once. So it does not capture two fixes processed before the first deferred update runs; both would be measured from the same stale baseline.
- The one-second schedule of `Timer.publish` (Services/RunDataManager.swift:90-91) is left out. Only whether the timer is live is modelled; each tick is a `TimerFired(now)` call, at whatever times the caller chooses.
- `LocationManager` (start and stop of location updates) is foreign API plumbing and is not part of this model.
- `CLLocation.distance(from:)` is Apple's geodesic computation. It enters only as the opaque `distance` function. Non-finite distances (NaN) are not modelled.
- The pedometer handler hops to the main queue with `DispatchQueue.main.async` before it writes its fields (Services/StepCounterManager.swift:45). The model applies each reading at once, so it does not capture readings that arrive out of order or after `stopTracking`.
- `CMPedometer` calls are foreign hardware calls: `queryPedometerData`, `startUpdates`, `stopUpdates`, `authorizationStatus` and `isStepCountingAvailable`. Their results are parameters.
- StepCounter.StepCounterManager.RequestPermission: the prompt branch's later callback, which copies the answered status on the main queue (Services/StepCounterManager.swift:22-26), is not modelled.
- StepCounter.StepCounterManager.StartTracking: the registration of the update handler with `startUpdates` is not modelled. `HandlePedometerUpdate` can be called at any time, as the code itself does not check `isTracking` inside the handler.
- The `[weak self]` guards in the callbacks are left out. The manager is always alive in the model.
- `print` logging is left out. So are the `shared` singletons, `ObservableObject`/`@Published` publishing, and the `Codable`/`Identifiable` conformance of `RunSession`.
- `Models/User.swift` is a plain record with no behaviour, and `Views/*` is presentation. Neither is part of this model.
