/** Client runs of the dispatch core, proved from the operations' contracts
    alone. Each drives the system through the environment's calls (button
    presses, timer deliveries) and states what the state must then be. Longer
    runs are cut into phases; a later phase starts from the state the earlier
    one ends in. */
module Scenarios {
  import opened Scan
  import opened Elevator

  /** Six floors, 1000 ms per floor, car at 1: a call to floor 4 starts a trip
      whose arrival is due after 3000 ms. */
  method SingleRequest() {
    var e := new ElevatorSystem(0);
    var arrival := e.CallElevator(4, 0);
    assert NextStop([] + [4], Stopped) == 4;
    assert arrival == Some(ArrivalAfter(4, 3000));
    assert e.isMoving && e.direction == Up && e.stats.floorsTravelled == 3;
    assert e.queue == [4] && e.requestTimes == map[4 := 0];
  }

  /** Delivering that arrival at 3000 ms leaves the car at 4 with one trip
      counted, 3000 ms of waiting recorded and nothing queued; the dwell then
      brings the car to rest. */
  method SingleRequestArrives(e: ElevatorSystem)
    requires e.Valid() && e.currentFloor == 1 && e.isMoving && e.targetFloor == 4
    requires e.queue == [4] && e.requestTimes == map[4 := 0]
    requires e.stats == Stats(0, 0, 1, 0, 3)
    modifies e
  {
    var dwell := e.Arrive(4, 3000);
    assert e.currentFloor == 4 && e.queue == [] && !e.isMoving;
    assert e.stats.totalTrips == 1 && e.stats.totalWaitTime == 3000;
    var next := e.DwellExpire();
    assert e.direction == Stopped && next == None;
  }

  /** From floor 1, floor 5 and then floor 2 are requested. The first request
      dispatches at once, so the second waits behind it. */
  method FirstRequestLeavesAtOnce() {
    var e := new ElevatorSystem(0);
    var first := e.RequestFloor(5, 0);
    assert NextStop([] + [5], Stopped) == 5;
    assert e.queue == [5] && e.isMoving && e.targetFloor == 5;
    var second := e.RequestFloor(2, 10);
    assert e.queue == [5, 2] && e.targetFloor == 5 && e.direction == Up && second == None;
  }

  /** ... and floor 2 is served only after floor 5: the scan order applies to
      the requests waiting when the car becomes free, not to the first one. */
  method SecondRequestServedAfter(e: ElevatorSystem)
    requires e.Valid() && e.currentFloor == 1 && e.isMoving && e.targetFloor == 5
    requires e.direction == Up && e.queue == [5, 2] && e.speed == 1000
    modifies e
  {
    var dwell := e.Arrive(5, 4000);
    assert e.queue == [2] by {
      assert Without([5, 2], 5) == Without([2], 5);
    }
    var next := e.DwellExpire();
    assert NextStop([2], Up) == 2;
    assert e.targetFloor == 2 && e.direction == Down;
    assert next == Some(ArrivalAfter(2, 3000));
  }

  /** Requests made while the car is busy wait; at the next dispatch the whole
      queue is sorted, so after going up the lower of 6 and 4 is served first,
      not the earlier one. */
  method WaitingRequestsSorted(e: ElevatorSystem)
    requires e.Valid() && e.currentFloor == 3 && !e.isMoving && e.direction == Up
    requires e.queue == [6, 4] && !e.Halted()
    modifies e
  {
    var next := e.DwellExpire();
    SortedPermutationUnique(e.queue, [4, 6], Up);
    assert e.queue == [4, 6] && e.targetFloor == 4 && e.direction == Up;
  }

  /** An emergency during a trip from 1 to 5 empties the queue and stops the
      car, and the buttons are ignored while it lasts. */
  method EmergencyDuringTrip() {
    var e := new ElevatorSystem(0);
    var arrival := e.CallElevator(5, 0);
    assert NextStop([] + [5], Stopped) == 5;
    assert e.isMoving && e.targetFloor == 5;
    e.ToggleEmergency();
    assert e.queue == [] && !e.isMoving && e.isEmergency && e.currentFloor == 1;
    var ignored := e.CallElevator(3, 100);
    assert e.queue == [] && ignored == None;
  }

  /** The arrival callback checks no flag: when the cancelled trip's timer
      fires, the car is placed at 5 and the trip is counted. */
  method StaleArrivalAfterEmergency(e: ElevatorSystem)
    requires e.Valid() && e.isEmergency && e.currentFloor == 1 && e.queue == []
    requires e.stats.totalTrips == 0
    modifies e
  {
    var dwell := e.Arrive(5, 4000);
    assert e.currentFloor == 5 && e.queue == [] && e.stats.totalTrips == 1;
    var next := e.DwellExpire();
    assert !e.isMoving && e.direction == Stopped && next == None;
  }

  /** Maintenance mode does not stop requests from being queued (the buttons
      check only the emergency flag), but nothing is dispatched while it lasts. */
  method MaintenanceQueuesWithoutMoving() {
    var e := new ElevatorSystem(0);
    e.ToggleMaintenance();
    var t := e.RequestFloor(4, 0);
    assert e.queue == [] + [4] && !e.isMoving && t == None;
  }

  /** Leaving maintenance restores nothing by itself; the next dwell runs the
      dispatcher and the waiting request is served. */
  method MaintenanceEnds(e: ElevatorSystem)
    requires e.Valid() && e.isMaintenance && !e.isEmergency && e.queue == [4]
    modifies e
  {
    e.ToggleMaintenance();
    assert e.queue == [4] && !e.isMoving && !e.Halted();
    var u := e.DwellExpire();
    assert NextStop([4], Stopped) == 4;
    assert e.isMoving && e.targetFloor == 4;
  }

  /** A floor count of 25 is rejected and changes nothing; 8 is accepted and
      resets the system. */
  method FloorCountValidation() {
    var e := new ElevatorSystem(0);
    e.ToggleMaintenance();
    var t := e.RequestFloor(3, 0);
    assert e.queue == [] + [3];
    e.UpdateFloors(25, 50);
    assert e.floors == 6 && e.queue == [3] && e.isMaintenance;
    e.UpdateFloors(8, 60);
    assert e.floors == 8 && e.queue == [] && e.currentFloor == 1 && !e.isMaintenance;
    assert e.stats == Stats(0, 0, 0, 60, 0);
  }
}
