# Elevator dispatch core, modelled in Dafny

This project models the single-car dispatch core of the `ElevatorSystem`
class in `main.js`. That core covers:

- the request queue with its de-duplicating enqueue;
- the directional scan that sorts the whole queue and sends the car to its
  head;
- the move / arrive / dwell state machine;
- the emergency and maintenance overrides;
- system reset and floor-count validation;
- the metrics derived from the state: the wait-time estimate, the
  floors-per-minute readout and the bounded log.

Files:

- `scan.dfy` (module `Scan`): the scan order and the queue filter.
  - `ScanOrder` is a reference insertion sort.
  - `SortedPermutationUnique` proves that every sorted permutation under the
    comparator equals `ScanOrder`. So whichever algorithm
    `Array.prototype.sort` uses, its result is the one modelled.
- `estimate.dfy` (module `Estimate`): the estimator's arithmetic, in whole
  milliseconds.
  - `Math.round` of a duration in seconds becomes `(ms + 500) / 1000`.
  - The floors-per-minute readout is modelled here as well.
- `log_buffer.dfy` (module `LogBuffer`): prepend one entry, then keep the
  newest 50.
- `elevator.dfy` (module `Elevator`): the class `ElevatorSystem`.
  - It has the source's fields and an object invariant `Valid()`.
  - There is one method per operation.
  - The two `setTimeout` callbacks are the methods `Arrive(t, now)` and
    `DwellExpire()`. The environment may call them at any time, with any
    target, including after an override has cancelled the trip.
  - An operation that starts a timer returns it as a `Timer` value, which
    carries the delay.
  - The wall clock `Date.now()` is the parameter `now`.
- `scenarios.dfy` (module `Scenarios`): client runs proved from the
  operations' contracts alone. Each one drives the class through a sequence
  of presses and timer deliveries.

## Model

| member | source | states |
|---|---|---|
| Scan.ScanOrder | main.js:112-118 | The sorted queue is in ascending order for up or stopped and descending for down. It is a permutation of the input (same multiset, same members, same length) and keeps a duplicate-free queue duplicate-free. |
| Scan.SortedPermutationUnique | main.js:112-118 | Two sequences sorted under the same direction that are permutations of each other are equal, so the sort's result does not depend on the algorithm. |
| Scan.NextStop | main.js:120 | The floor taken from the head of the sorted queue is a queued floor and precedes every queued floor in the scan order: it is the minimum going up or stopped and the maximum going down. |
| Scan.Without | main.js:146 | Filtering out t keeps exactly the floors different from t, each as often as before. It never lengthens the queue, keeps it duplicate-free, and is the identity when t is not queued. |
| Scan.Insert | main.js:112-118 | Inserting into a sorted sequence keeps it sorted and adds exactly one copy of the element. |
| Estimate.RoundToSeconds | main.js:407 | The result is the whole number of seconds nearest to the duration, with an exact half rounded up. |
| Estimate.FloorsPerMinute | main.js:368 | The readout is 60000 / speed rounded to the nearest integer, halves up. This is stated as bounds on twice the result times the speed. |
| Estimate.RouteAtLeastStops | main.js:400-405 | Serving a route costs at least one second per stop. |
| Estimate.MonotoneRoute | main.js:400-405 | A route that moves in one scan direction costs exactly the span from the cursor to its last stop plus one second per stop. |
| Estimate.EstimateAtLeastOneSecondPerStop | main.js:376-408 | While no override is active and the queue is non-empty, the estimate is at least one second per queued floor. |
| Estimate.EstimateIdleAllAbove | main.js:381-405 | An idle car that is going up or stopped, with every request above it, waits the climb to the highest request plus one second per stop, rounded. |
| LogBuffer.PushLog | main.js:413-417 | The new entry comes first and the older entries follow in order. The log grows by one until it holds 50 entries and then stays at 50, dropping the oldest. |
| LogBuffer.PushAllNewestFirst | main.js:413-417 | After a batch of entries is logged, the first positions show the batch newest first. |
| LogBuffer.PushAllKeepsOlder | main.js:413-417 | An older entry moves down by one position per later entry while it stays within the 50-entry bound. |
| Elevator.ElevatorSystem.constructor | main.js:2-21 | A new system satisfies the invariant and is in the reset state: car at floor 1, stopped, nothing queued, both flags off, stats zero and started at `now`. It has 6 floors, 1000 ms per floor and an empty log. |
| Elevator.ElevatorSystem.CallElevator | main.js:70-78 | In emergency mode the call is ignored and nothing changes. Otherwise it has exactly the effect of addToQueue. Maintenance mode is not checked. |
| Elevator.ElevatorSystem.RequestFloor | main.js:80-93 | Same as callElevator, for the in-car button: ignored only in emergency mode. |
| Elevator.ElevatorSystem.AddToQueue | main.js:95-104 | A floor already queued, or equal to the current floor, changes nothing. A new floor is appended, marked requested, time-stamped with `now` and counted exactly once. If the car is moving or an override is on, it then waits; otherwise the whole queue is dispatched. The invariant is kept and the energy count never decreases. |
| Elevator.ElevatorSystem.Enqueue | main.js:97-100 | The accepted floor is appended to the queue and the request set, gets its request time, and the request count goes up by one; nothing else changes and the invariant is kept. |
| Elevator.ElevatorSystem.ProcessQueue | main.js:106-122 | It changes nothing when the car is moving, the queue is empty or an override is on. Otherwise the queue becomes its scan-ordered permutation and a trip starts to the head of it. The head is the lowest queued floor going up or stopped and the highest going down, and never the current floor. |
| Elevator.ElevatorSystem.MoveToFloor | main.js:124-139 | Moving to the current floor is a no-op. Otherwise the car is set moving toward t, direction up exactly when t is above the car, and the energy count grows by the distance. The arrival is scheduled after distance times speed ms. Queue, requests and flags are untouched. |
| Elevator.ElevatorSystem.Arrive | main.js:144-160 | With any target and no mode check: the car is at t and every t is gone from the queue and the request set. The trip count grows by exactly one. The wait `now - requestTimes[t]` is added and the key deleted only when t had a request time. The car stops, the speed readout drops to 0, a 1000 ms dwell is scheduled, and the invariant is kept. |
| Elevator.ElevatorSystem.DwellExpire | main.js:163-168 | With an empty queue the direction becomes stopped and nothing else changes. With a non-empty queue it behaves as processQueue: a dispatch when possible, else no change. |
| Elevator.ElevatorSystem.CancelRequests | main.js:270-273 | The queue and request set are empty and the car is stopped with direction stopped; every other field is unchanged. |
| Elevator.ElevatorSystem.ToggleEmergency | main.js:263-283 | Only the emergency flag flips. Switching it on empties the queue and the request set and stops the car. Switching it off restores nothing. Stats, request times, the current floor and the maintenance flag are untouched. |
| Elevator.ElevatorSystem.ToggleMaintenance | main.js:285-305 | The same for the maintenance flag, leaving the emergency flag untouched. |
| Elevator.ElevatorSystem.ResetSystem | main.js:307-324 | The car is at floor 1, stopped, with target 1. Queue, requests and request times are empty, both flags are off, the speed readout is 0, and stats are zero with a new start time. The floor count, speed and log are kept. |
| Elevator.ElevatorSystem.UpdateFloors | main.js:342-349 | A floor count outside 5..20 changes nothing. An accepted count is stored and followed by a full reset. |
| Elevator.ElevatorSystem.TrackSpeed | main.js:366-371 | The readout is the rounded floors per minute while moving and 0 otherwise. |
| Elevator.ElevatorSystem.Log | main.js:413-417 | The log is the bounded prepend of the entry, and its length stays within 50. |
| Elevator.ElevatorSystem.CalculateEstimatedWaitTime | main.js:376-408 | The loop over the sorted copy computes exactly the specified estimate and leaves the system untouched. The estimate is 0 when the queue is empty or an override is on. Otherwise it is the remaining trip (while moving) plus, for each stop of the scan-ordered queue, the travel from the cursor plus one second, rounded to whole seconds. |
| Elevator.AppendKeepsQueueInv | main.js:96-99 | Appending a floor that is new and not the current floor, with its request time, keeps the queue invariant: no duplicates, the current floor never queued, the request set mirroring the queue, every queued floor time-stamped. |
| Elevator.SortKeepsQueueInv | main.js:112-118 | Sorting the queue keeps the queue invariant. |
| Elevator.ArriveKeepsQueueInv | main.js:145-153 | Filtering out the arrival floor, un-marking it and deleting its request time keeps the queue invariant with the car at that floor. |

## Left out

- Rendering and the DOM are not modelled: `generateBuilding`, `generateFloorButtons`, `updateDisplay`, `updateElevatorPosition`, the button highlight in `requestFloor`, and the tab and configuration preview markup only read state and write HTML.
- `animateElevator` is not modelled. It interpolates a floating-point position for display only.
- Timer scheduling is not modelled. An operation returns the callback it would schedule as a `Timer` with its delay. The environment delivers it by calling `Arrive` or `DwellExpire`. The periodic speed tick of `setInterval` is the method `TrackSpeed`. The order in which callbacks fire is not constrained.
- The wall clock is the integer parameter `now`.
- Log messages: the operations do not append their log lines. A line embeds a clock string (`toLocaleTimeString`) and numbers formatted as text. `Log(entry)` models only the buffer discipline for an entry already formatted.
- Elevator.ElevatorSystem.CalculateEstimatedWaitTime: does not model floating-point accumulation. The source sums seconds as floating-point values (`speed / 1000`) before `Math.round`. The model sums exact milliseconds and rounds half up, which is the value the source computes absent floating-point error.
- Energy is kept as the integer `floorsTravelled`. The source's `energyUsage` is half of it, and its `toFixed(1)` display is not modelled.
- `updateSpeed` and `applyConfiguration` are not modelled: they parse slider strings and derive the speed with floating-point display text. The speed is a positive integer held in the object invariant and is never changed by a modelled operation.
- The uptime and average-wait displays of `startStatsUpdate` are not modelled. They are floor divisions formatted as text.
- The `direction` argument of `callElevator` is not modelled. It is only logged.
- Elevator.ElevatorSystem.MoveToFloor: requires both override flags to be off. Its only caller, `processQueue`, checks them just before calling it.
- `init`'s "System initialized" log line is not modelled, so the constructor's log is empty.

Behaviour of the code a reader may not expect:

- **Stale timers.** The arrival and dwell callbacks check no mode flag. A trip cancelled by an override still ends with the car placed at its target and the trip counted. `Scenarios.StaleArrivalAfterEmergency` shows this.
- **Maintenance and the buttons.** The buttons refuse requests only in emergency mode. In maintenance mode a request is queued but not dispatched. See `Scenarios.MaintenanceQueuesWithoutMoving` and `Scenarios.MaintenanceEnds`.
- **Order of the first requests.** From an idle car, the first request dispatches at once. So "floor 5, then floor 2" from floor 1 serves 5 first, and the scan order applies only to requests still waiting when the car becomes free. `Scenarios.FirstRequestLeavesAtOnce`, `Scenarios.SecondRequestServedAfter` and `Scenarios.WaitingRequestsSorted` show this.
