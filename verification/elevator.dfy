/** The single-car dispatch core of the ElevatorSystem class (main.js): the
    request queue, the directional dispatcher, the move / arrive / dwell state
    machine, the emergency and maintenance overrides, reset, and the metrics
    derived from them. Timer callbacks are methods the environment may call at
    any moment; the wall clock is passed in as `now`. */
module Elevator {
  import opened Scan
  import opened Estimate
  import opened LogBuffer

  datatype Option<T> = None | Some(value: T)

  /** A callback handed to setTimeout. The environment delivers it later by
      calling Arrive(floor, now) or DwellExpire(). */
  datatype Timer = ArrivalAfter(floor: int, delayMs: nat) | DwellAfter(delayMs: nat)

  /** The door-open pause after an arrival (main.js:163-170). */
  const DwellMs: nat := 1000

  /** Bounds accepted by updateFloors (main.js:344). */
  const MinFloors: int := 5
  const MaxFloors: int := 20

  /** The integer content of `stats`. The source's energyUsage grows by 0.5 per
      floor travelled, so it is floorsTravelled / 2. */
  datatype Stats = Stats(totalTrips: nat, totalWaitTime: int, requestCount: nat,
                         startTime: int, floorsTravelled: nat)

  class ElevatorSystem {
    var currentFloor: int
    var targetFloor: int
    var isMoving: bool
    var direction: Direction
    var queue: seq<int>
    var floors: int
    var speed: nat              // milliseconds per floor
    var isEmergency: bool
    var isMaintenance: bool
    var stats: Stats
    var floorRequests: set<int>
    var logs: seq<string>
    var requestTimes: map<int, int>
    var currentSpeedFPM: nat

    /** The object invariant kept by every operation. */
    ghost predicate Valid()
      reads this
    {
      && MinFloors <= floors <= MaxFloors
      && speed > 0
      && QueueInv(queue, currentFloor, floorRequests, requestTimes)
      // a trip in progress is never to the floor the car stands at
      && (isMoving ==> targetFloor != currentFloor)
      // a mode flag freezes the car
      && (Halted() ==> !isMoving && direction == Stopped)
      && |logs| <= MaxLogEntries
    }

    /** Either override suppresses dispatch. */
    predicate Halted()
      reads this
    {
      isEmergency || isMaintenance
    }

    /** The guard of processQueue (main.js:107): dispatch happens exactly when this holds. */
    predicate CanDispatch()
      reads this
    {
      !isMoving && queue != [] && !Halted()
    }

    /** The state moveToFloor(t) leaves when it starts a trip from floor `from`,
        with `before` the stats it started from. */
    ghost predicate OnTrip(t: int, from: int, before: Stats, scheduled: Option<Timer>)
      reads this
    {
      && isMoving
      && targetFloor == t
      && direction == (if t > from then Up else Down)
      && stats == before.(floorsTravelled := before.floorsTravelled + Abs(t - from))
      && scheduled == Some(ArrivalAfter(t, Abs(t - from) * speed))
    }

    /** The state processQueue leaves when it dispatches queue q. */
    ghost predicate Dispatched(q: seq<int>, from: int, dir: Direction, before: Stats,
                               scheduled: Option<Timer>)
      reads this
    {
      && q != []
      && queue == ScanOrder(q, dir)
      && OnTrip(NextStop(q, dir), from, before, scheduled)
    }

    /** The effect of addToQueue(floor) at time `now` (main.js:95-104). */
    twostate predicate QueueAdded(floor: int, now: int, new scheduled: Option<Timer>)
      reads this
    {
      var accepted := floor !in old(queue) && floor != old(currentFloor);
      var counted := old(stats).(requestCount := old(stats).requestCount + 1);
      && (!accepted ==> unchanged(this) && scheduled == None)
      && (accepted ==>
            && floorRequests == old(floorRequests) + {floor}
            && requestTimes == old(requestTimes)[floor := now]
            && if old(isMoving) || Halted() then
                 && queue == old(queue) + [floor]
                 && stats == counted
                 && unchanged(this`isMoving, this`targetFloor, this`direction)
                 && scheduled == None
               else
                 Dispatched(old(queue) + [floor], old(currentFloor), old(direction), counted, scheduled))
    }

    /** The state resetSystem leaves at time `now` (main.js:307-324). */
    ghost predicate IsReset(now: int)
      reads this
    {
      && currentFloor == 1 && targetFloor == 1
      && !isMoving && direction == Stopped
      && queue == [] && floorRequests == {} && requestTimes == map[]
      && currentSpeedFPM == 0
      && !isEmergency && !isMaintenance
      && stats == Stats(0, 0, 0, now, 0)
    }

    constructor (now: int)
      ensures Valid()
      ensures IsReset(now)
      ensures floors == 6 && speed == 1000 && logs == []
    {
      currentFloor, targetFloor := 1, 1;
      isMoving := false;
      direction := Stopped;
      queue := [];
      floors := 6;
      speed := 1000;
      isEmergency, isMaintenance := false, false;
      stats := Stats(0, 0, 0, now, 0);
      floorRequests := {};
      logs := [];
      requestTimes := map[];
      currentSpeedFPM := 0;
    }

    /** callElevator (main.js:70-78): ignored in emergency mode only. */
    method CallElevator(floor: int, now: int) returns (scheduled: Option<Timer>)
      requires Valid()
      modifies this
      ensures unchanged(this`currentFloor, this`floors, this`speed, this`isEmergency,
                        this`isMaintenance, this`logs, this`currentSpeedFPM)
      ensures Valid()
      ensures old(isEmergency) ==> unchanged(this) && scheduled == None
      ensures !old(isEmergency) ==> QueueAdded(floor, now, scheduled)
    {
      if isEmergency {
        return None;
      }
      scheduled := AddToQueue(floor, now);
    }

    /** requestFloor (main.js:80-93): the in-car button, ignored in emergency
        mode only. */
    method RequestFloor(floor: int, now: int) returns (scheduled: Option<Timer>)
      requires Valid()
      modifies this
      ensures unchanged(this`currentFloor, this`floors, this`speed, this`isEmergency,
                        this`isMaintenance, this`logs, this`currentSpeedFPM)
      ensures Valid()
      ensures old(isEmergency) ==> unchanged(this) && scheduled == None
      ensures !old(isEmergency) ==> QueueAdded(floor, now, scheduled)
    {
      if isEmergency {
        return None;
      }
      scheduled := AddToQueue(floor, now);
    }

    /** addToQueue: enqueue with deduplication, then try to dispatch. */
    method AddToQueue(floor: int, now: int) returns (scheduled: Option<Timer>)
      requires Valid()
      modifies this
      ensures unchanged(this`currentFloor, this`floors, this`speed, this`isEmergency,
                        this`isMaintenance, this`logs, this`currentSpeedFPM)
      ensures Valid()
      ensures QueueAdded(floor, now, scheduled)
      ensures stats.floorsTravelled >= old(stats.floorsTravelled)
    {
      if floor !in queue && floor != currentFloor {
        Enqueue(floor, now);
        scheduled := ProcessQueue();
      } else {
        scheduled := None;
      }
    }

    /** The bookkeeping of an accepted request (main.js:97-100): queue it,
        mark it requested, stamp its request time and count it. */
    method Enqueue(floor: int, now: int)
      requires Valid()
      requires floor !in queue && floor != currentFloor
      modifies this
      ensures unchanged(this`currentFloor, this`targetFloor, this`isMoving, this`direction,
                        this`floors, this`speed, this`isEmergency, this`isMaintenance,
                        this`logs, this`currentSpeedFPM)
      ensures Valid()
      ensures queue == old(queue) + [floor]
      ensures floorRequests == old(floorRequests) + {floor}
      ensures requestTimes == old(requestTimes)[floor := now]
      ensures stats == old(stats).(requestCount := old(stats).requestCount + 1)
    {
      AppendKeepsQueueInv(queue, currentFloor, floorRequests, requestTimes, floor, now);
      queue, floorRequests := queue + [floor], floorRequests + {floor};
      requestTimes := requestTimes[floor := now];
      stats := stats.(requestCount := stats.requestCount + 1);
    }

    /** processQueue: sort the whole queue in scan order and start a trip to
        its head, unless moving, idle-with-nothing-to-do or halted. */
    method ProcessQueue() returns (scheduled: Option<Timer>)
      requires Valid()
      modifies this
      ensures unchanged(this`currentFloor, this`floors, this`speed, this`isEmergency,
                        this`isMaintenance, this`floorRequests, this`logs, this`requestTimes,
                        this`currentSpeedFPM)
      ensures Valid()
      ensures !old(CanDispatch()) ==> unchanged(this) && scheduled == None
      ensures old(CanDispatch()) ==>
                Dispatched(old(queue), currentFloor, old(direction), old(stats), scheduled)
      ensures old(CanDispatch()) ==> targetFloor == queue[0] && targetFloor != currentFloor
      ensures stats.floorsTravelled >= old(stats.floorsTravelled)
    {
      if isMoving || |queue| == 0 || isEmergency || isMaintenance {
        return None;
      }
      SortKeepsQueueInv(queue, currentFloor, floorRequests, requestTimes, direction);
      queue := ScanOrder(queue, direction);
      var nextFloor := queue[0];
      scheduled := MoveToFloor(nextFloor);
    }

    /** moveToFloor: start a trip to t. Its only caller, processQueue, runs it
        with both mode flags clear. */
    method MoveToFloor(t: int) returns (scheduled: Option<Timer>)
      requires Valid() && !Halted()
      modifies this
      ensures unchanged(this`currentFloor, this`queue, this`floors, this`speed,
                        this`isEmergency, this`isMaintenance, this`floorRequests, this`logs,
                        this`requestTimes, this`currentSpeedFPM)
      ensures Valid()
      ensures t == currentFloor ==> unchanged(this) && scheduled == None
      ensures t != currentFloor ==> OnTrip(t, currentFloor, old(stats), scheduled)
      ensures stats.floorsTravelled >= old(stats.floorsTravelled)
    {
      if currentFloor == t {
        return None;
      }
      isMoving, targetFloor := true, t;
      direction := if t > currentFloor then Up else Down;
      var floorsToMove := Abs(t - currentFloor);
      var totalTime := floorsToMove * speed;
      stats := stats.(floorsTravelled := stats.floorsTravelled + floorsToMove);
      scheduled := Some(ArrivalAfter(t, totalTime));
    }

    /** The arrival callback of moveToFloor(t) (main.js:144-173). It checks no
        mode flag, so the environment may deliver it with any target at any
        time, including after the trip was cancelled by an override. */
    method Arrive(t: int, now: int) returns (dwell: Timer)
      requires Valid()
      modifies this
      ensures unchanged(this`targetFloor, this`direction, this`floors, this`speed,
                        this`isEmergency, this`isMaintenance, this`logs)
      ensures Valid()
      ensures currentFloor == t
      ensures queue == Without(old(queue), t) && t !in queue
      ensures floorRequests == old(floorRequests) - {t}
      ensures t in old(requestTimes) ==>
                && requestTimes == old(requestTimes) - {t}
                && stats == old(stats).(totalTrips := old(stats).totalTrips + 1,
                                        totalWaitTime := old(stats).totalWaitTime + (now - old(requestTimes)[t]))
      ensures t !in old(requestTimes) ==>
                && requestTimes == old(requestTimes)
                && stats == old(stats).(totalTrips := old(stats).totalTrips + 1)
      ensures !isMoving && currentSpeedFPM == 0
      ensures dwell == DwellAfter(DwellMs)
    {
      ArriveKeepsQueueInv(queue, currentFloor, floorRequests, requestTimes, t);
      currentFloor, queue, floorRequests := t, Without(queue, t), floorRequests - {t};
      if t in requestTimes {
        var waitTime := now - requestTimes[t];
        stats := stats.(totalTrips := stats.totalTrips + 1,
                        totalWaitTime := stats.totalWaitTime + waitTime);
        requestTimes := requestTimes - {t};
      } else {
        stats := stats.(totalTrips := stats.totalTrips + 1);
      }
      isMoving, currentSpeedFPM := false, 0;
      dwell := DwellAfter(DwellMs);
    }

    /** The dwell callback (main.js:163-170): dispatch again if anything is
        queued, otherwise come to rest. No mode flag is checked here either. */
    method DwellExpire() returns (scheduled: Option<Timer>)
      requires Valid()
      modifies this
      ensures unchanged(this`currentFloor, this`floors, this`speed, this`isEmergency,
                        this`isMaintenance, this`floorRequests, this`logs, this`requestTimes,
                        this`currentSpeedFPM)
      ensures Valid()
      ensures old(queue) == [] ==>
                && direction == Stopped && scheduled == None
                && unchanged(this`queue, this`isMoving, this`targetFloor, this`stats)
      ensures old(queue) != [] && !old(CanDispatch()) ==> unchanged(this) && scheduled == None
      ensures old(CanDispatch()) ==>
                Dispatched(old(queue), currentFloor, old(direction), old(stats), scheduled)
      ensures stats.floorsTravelled >= old(stats.floorsTravelled)
    {
      if |queue| > 0 {
        scheduled := ProcessQueue();
      } else {
        direction := Stopped;
        scheduled := None;
      }
    }

    /** The request-cancelling step shared by both overrides and reset
        (main.js:270-273, 292-295, 310-313): empty the queue and the request
        set and bring the car to a stop. */
    method CancelRequests()
      modifies this
      ensures unchanged(this`currentFloor, this`targetFloor, this`floors, this`speed,
                        this`isEmergency, this`isMaintenance, this`stats, this`logs,
                        this`requestTimes, this`currentSpeedFPM)
      ensures queue == [] && floorRequests == {} && !isMoving && direction == Stopped
    {
      queue, floorRequests := [], {};
      isMoving, direction := false, Stopped;
    }

    /** toggleEmergency (main.js:263-283): switching on clears the queue and
        freezes the car; switching off restores nothing. */
    method ToggleEmergency()
      requires Valid()
      modifies this
      ensures unchanged(this`currentFloor, this`targetFloor, this`floors, this`speed,
                        this`isMaintenance, this`stats, this`logs, this`requestTimes,
                        this`currentSpeedFPM)
      ensures Valid()
      ensures isEmergency == !old(isEmergency)
      ensures isEmergency ==> queue == [] && floorRequests == {} && !isMoving && direction == Stopped
      ensures !isEmergency ==> unchanged(this`queue, this`floorRequests, this`isMoving, this`direction)
      ensures isMaintenance == old(isMaintenance) && stats == old(stats)
      ensures requestTimes == old(requestTimes) && currentFloor == old(currentFloor)
    {
      isEmergency := !isEmergency;
      if isEmergency {
        CancelRequests();
      }
    }

    /** toggleMaintenance (main.js:285-305): the same discipline on the other flag. */
    method ToggleMaintenance()
      requires Valid()
      modifies this
      ensures unchanged(this`currentFloor, this`targetFloor, this`floors, this`speed,
                        this`isEmergency, this`stats, this`logs, this`requestTimes,
                        this`currentSpeedFPM)
      ensures Valid()
      ensures isMaintenance == !old(isMaintenance)
      ensures isMaintenance ==> queue == [] && floorRequests == {} && !isMoving && direction == Stopped
      ensures !isMaintenance ==> unchanged(this`queue, this`floorRequests, this`isMoving, this`direction)
      ensures isEmergency == old(isEmergency) && stats == old(stats)
      ensures requestTimes == old(requestTimes) && currentFloor == old(currentFloor)
    {
      isMaintenance := !isMaintenance;
      if isMaintenance {
        CancelRequests();
      }
    }

    /** resetSystem: everything back to the ground floor and zero, except the
        building size and the speed. */
    method ResetSystem(now: int)
      requires Valid()
      modifies this
      ensures unchanged(this`floors, this`speed, this`logs)
      ensures Valid()
      ensures IsReset(now)
    {
      CancelRequests();
      currentFloor, targetFloor, requestTimes := 1, 1, map[];
      currentSpeedFPM, isEmergency, isMaintenance := 0, false, false;
      stats := Stats(0, 0, 0, now, 0);
    }

    /** updateFloors (main.js:342-349): a floor count outside [5, 20] is
        ignored; an accepted one rebuilds the building through a reset. */
    method UpdateFloors(value: int, now: int)
      requires Valid()
      modifies this
      ensures unchanged(this`speed, this`logs)
      ensures Valid()
      ensures !(MinFloors <= value <= MaxFloors) ==> unchanged(this)
      ensures MinFloors <= value <= MaxFloors ==> floors == value && IsReset(now)
    {
      if MinFloors <= value <= MaxFloors {
        floors := value;
        ResetSystem(now);
      }
    }

    /** The speed-tracking tick (main.js:364-374). */
    method TrackSpeed()
      requires Valid()
      modifies this`currentSpeedFPM
      ensures Valid()
      ensures currentSpeedFPM == if isMoving then FloorsPerMinute(speed) else 0
    {
      if isMoving {
        currentSpeedFPM := FloorsPerMinute(speed);
      } else {
        currentSpeedFPM := 0;
      }
    }

    /** The list discipline of log (main.js:410-417); `entry` is the already
        timestamped message. */
    method Log(entry: string)
      requires Valid()
      modifies this`logs
      ensures Valid()
      ensures logs == PushLog(old(logs), entry)
    {
      logs := PushLog(logs, entry);
    }

    /** calculateEstimatedWaitTime: walks a scan-ordered copy of the queue,
        leaving the system untouched. */
    method CalculateEstimatedWaitTime() returns (seconds: nat)
      requires Valid()
      ensures seconds == EstimatedWaitSeconds(queue, currentFloor, targetFloor, isMoving,
                                              direction, Halted(), speed)
    {
      if |queue| == 0 || isEmergency || isMaintenance {
        return 0;
      }
      var totalMs: nat := 0;
      var currentPos := currentFloor;
      if isMoving {
        var remainingFloors := Abs(targetFloor - currentFloor);
        totalMs := totalMs + remainingFloors * speed;
        currentPos := targetFloor;
      }
      var sortedQueue := ScanOrder(queue, direction);
      for i := 0 to |sortedQueue|
        invariant totalMs + RouteMs(currentPos, sortedQueue[i..], speed)
                  == EstimateMs(queue, currentFloor, targetFloor, isMoving, direction, speed)
      {
        assert sortedQueue[i..][1..] == sortedQueue[i + 1..];
        var floor := sortedQueue[i];
        var distance := Abs(floor - currentPos);
        totalMs := totalMs + distance * speed + StopMs;
        currentPos := floor;
      }
      seconds := RoundToSeconds(totalMs);
    }
  }

  /** The request-queue part of the object invariant: no floor queued twice,
      never the car's own floor, the request set mirrors the queue, and every
      queued floor has its request time. */
  ghost predicate QueueInv(queue: seq<int>, current: int, requests: set<int>,
                           times: map<int, int>)
  {
    && NoDuplicates(queue)
    && current !in queue
    && (forall f :: f in requests <==> f in queue)
    && (forall f :: f in queue ==> f in times)
  }

  /** Enqueueing a new floor with its request time keeps the queue invariant. */
  lemma AppendKeepsQueueInv(queue: seq<int>, current: int, requests: set<int>,
                            times: map<int, int>, f: int, now: int)
    requires QueueInv(queue, current, requests, times)
    requires f !in queue && f != current
    ensures QueueInv(queue + [f], current, requests + {f}, times[f := now])
  {
    var r := queue + [f];
    forall i, j | 0 <= i < j < |r| ensures r[i] != r[j] {
      if j < |queue| {
        assert r[i] == queue[i] && r[j] == queue[j];
      } else {
        assert r[i] == queue[i];
      }
    }
  }

  /** Sorting the queue into scan order keeps the queue invariant. */
  lemma SortKeepsQueueInv(queue: seq<int>, current: int, requests: set<int>,
                          times: map<int, int>, d: Direction)
    requires QueueInv(queue, current, requests, times)
    ensures QueueInv(ScanOrder(queue, d), current, requests, times)
  {
  }

  /** Arriving at t keeps the queue invariant whether or not t had a request
      time to delete. */
  lemma ArriveKeepsQueueInv(queue: seq<int>, current: int, requests: set<int>,
                            times: map<int, int>, t: int)
    requires QueueInv(queue, current, requests, times)
    ensures QueueInv(Without(queue, t), t, requests - {t}, times - {t})
    ensures QueueInv(Without(queue, t), t, requests - {t}, times)
  {
  }
}
