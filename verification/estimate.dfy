/** Travel-time arithmetic of the metrics collector: the wait-time estimate
    and the floors-per-minute readout, in whole milliseconds. */
module Estimate {
  import opened Scan

  /** Math.abs on integers. */
  function Abs(x: int): (r: nat)
    ensures r == x || r == -x
  {
    if x < 0 then -x else x
  }

  /** Fixed stop overhead per served floor, one second (main.js:403). */
  const StopMs: nat := 1000

  /** Math.round(ms / 1000) for a non-negative duration: the nearest whole
      second, with an exact half rounded up. */
  function RoundToSeconds(ms: nat): (s: nat)
    ensures s * 1000 - 500 <= ms < s * 1000 + 500
  {
    (ms + 500) / 1000
  }

  /** Math.round(60000 / speed): floors per minute at `speed` ms per floor,
      to the nearest integer with halves rounded up (main.js:366-371). */
  function FloorsPerMinute(speed: nat): (fpm: nat)
    requires speed > 0
    ensures 2 * fpm * speed - speed <= 120000 < 2 * fpm * speed + speed
  {
    var q := (120000 + speed) / (2 * speed);
    DivBounds(120000 + speed, 2 * speed);
    q
  }

  lemma DivBounds(a: nat, b: nat)
    requires b > 0
    ensures b * (a / b) <= a < b * (a / b) + b
  {
  }

  /** Time to serve `stops` in the given order starting at floor `from`: the
      travel to each stop plus one second at it (main.js:400-405). */
  function RouteMs(from: int, stops: seq<int>, speed: nat): nat
    decreases |stops|
  {
    if stops == [] then 0
    else Abs(stops[0] - from) * speed + StopMs + RouteMs(stops[0], stops[1..], speed)
  }

  /** The estimate in milliseconds: the rest of the current trip while moving,
      then the scan-ordered queue served from the trip's target (or from the
      current floor when idle) (main.js:381-405). */
  function EstimateMs(queue: seq<int>, current: int, target: int, moving: bool,
                      dir: Direction, speed: nat): nat
  {
    if moving then Abs(target - current) * speed + RouteMs(target, ScanOrder(queue, dir), speed)
    else RouteMs(current, ScanOrder(queue, dir), speed)
  }

  /** calculateEstimatedWaitTime in seconds: 0 with an empty queue or while a
      mode flag is set, otherwise the rounded estimate (main.js:376-408). */
  function EstimatedWaitSeconds(queue: seq<int>, current: int, target: int, moving: bool,
                                dir: Direction, halted: bool, speed: nat): nat
  {
    if queue == [] || halted then 0
    else RoundToSeconds(EstimateMs(queue, current, target, moving, dir, speed))
  }

  /** Every stop on a route costs at least its one second of dwell. */
  lemma {:induction false} RouteAtLeastStops(from: int, stops: seq<int>, speed: nat)
    ensures RouteMs(from, stops, speed) >= StopMs * |stops|
    decreases |stops|
  {
    if stops != [] {
      RouteAtLeastStops(stops[0], stops[1..], speed);
    }
  }

  /** A route that only ever moves in one scan direction travels the span from
      its start to its last stop exactly once. */
  lemma {:induction false} MonotoneRoute(from: int, stops: seq<int>, d: Direction, speed: nat)
    requires stops != []
    requires Ordered([from] + stops, d)
    ensures RouteMs(from, stops, speed)
            == Abs(stops[|stops| - 1] - from) * speed + StopMs * |stops|
    decreases |stops|
  {
    var path := [from] + stops;
    assert path[0] == from && path[1] == stops[0];
    assert Precedes(d, from, stops[0]);
    if |stops| > 1 {
      assert path[|path| - 1] == stops[|stops| - 1];
      assert Precedes(d, stops[0], stops[|stops| - 1]);
      var rest := stops[1..];
      assert [stops[0]] + rest == path[1..];
      assert Ordered([stops[0]] + rest, d) by {
        TailOrdered(path, d);
      }
      MonotoneRoute(stops[0], rest, d, speed);
      assert rest[|rest| - 1] == stops[|stops| - 1];
      var a, b := Abs(stops[0] - from), Abs(stops[|stops| - 1] - stops[0]);
      assert Abs(stops[|stops| - 1] - from) == a + b;
      assert (a + b) * speed == a * speed + b * speed;
    }
  }

  /** While dispatch is possible the estimate is at least one second per
      queued floor. */
  lemma EstimateAtLeastOneSecondPerStop(queue: seq<int>, current: int, target: int,
                                        moving: bool, dir: Direction, speed: nat)
    requires queue != []
    ensures EstimatedWaitSeconds(queue, current, target, moving, dir, false, speed) >= |queue|
  {
    var sorted := ScanOrder(queue, dir);
    RouteAtLeastStops(if moving then target else current, sorted, speed);
  }

  /** An idle car going up (or stopped) with every request above it waits the
      climb to the highest request plus one second per stop. */
  lemma EstimateIdleAllAbove(queue: seq<int>, current: int, target: int, top: int,
                             dir: Direction, speed: nat)
    requires dir != Down
    requires top in queue
    requires forall f :: f in queue ==> current < f <= top
    ensures EstimatedWaitSeconds(queue, current, target, false, dir, false, speed)
            == RoundToSeconds((top - current) * speed + StopMs * |queue|)
  {
    var sorted := ScanOrder(queue, dir);
    var last := sorted[|sorted| - 1];
    assert last in queue;
    assert top in sorted;
    var k :| 0 <= k < |sorted| && sorted[k] == top;
    assert k == |sorted| - 1 || Precedes(dir, top, last);
    assert sorted[0] in queue;
    assert Ordered([current] + sorted, dir) by {
      PrependOrdered(current, sorted, dir);
    }
    MonotoneRoute(current, sorted, dir, speed);
  }
}
