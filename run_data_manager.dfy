/**
 * RunDataManager: one run session whose fields the location stream, the
 * duration timer and the start/stop buttons update in place.
 */
module RunData {
  import opened Wrappers
  import opened NoiseFilter
  import opened Sessions

  class RunDataManager {
    /** `distance(a, b)` is CLLocation's `a.distance(from: b)`, in metres. */
    const distance: DistanceFn

    var locations: seq<Location>
    var startTime: Option<Time>
    var endTime: Option<Time>
    var totalDistance: real
    var duration: real
    var lastRecordedLocation: Option<Location>

    /** The duration timer is live: set by `startTimer`, cleared by `timer?.cancel()`. */
    var timerRunning: bool

    /** Every fix handed to ProcessLocation since the session was last reset. */
    ghost var received: seq<Location>

    /** The fields the noise filter works on. */
    ghost function CurrentTrack(): Track
      reads this
    {
      Track(locations, lastRecordedLocation, totalDistance)
    }

    /**
     * The session holds exactly what the filter keeps from the fixes received
     * since the reset; by Replay's contract, the baseline is then the last kept
     * fix and the total is the sum of the kept legs.
     */
    ghost predicate Valid()
      reads this
    {
      CurrentTrack() == Replay(distance, received)
    }

    /** `init`: empty session, nothing started. */
    constructor (distance: DistanceFn)
      ensures Valid() && this.distance == distance && received == []
      ensures locations == [] && lastRecordedLocation == None && totalDistance == 0.0
      ensures startTime == None && endTime == None && duration == 0.0 && !timerRunning
    {
      this.distance := distance;
      timerRunning := false;
      locations := [];
      startTime := None;
      endTime := None;
      totalDistance := 0.0;
      duration := 0.0;
      lastRecordedLocation := None;
      received := [];
    }

    /** `startRun`: re-arms the session whatever state it was in and starts the timer. */
    method StartRun(now: Time)
      modifies this
      ensures Valid() && received == []
      ensures locations == [] && lastRecordedLocation == None && totalDistance == 0.0
      ensures startTime == Some(now) && endTime == None && duration == 0.0
      ensures timerRunning
    {
      ResetRunData(now);
      StartTimer();
    }

    /**
     * `stopRun`: stamps the end time on every call and cancels the timer;
     * the fixes, the total, the start time and the duration stay as they were.
     */
    method StopRun(now: Time)
      requires Valid()
      modifies this`endTime, this`timerRunning
      ensures Valid()
      ensures endTime == Some(now) && !timerRunning
      ensures CurrentTrack() == old(CurrentTrack()) && received == old(received)
      ensures startTime == old(startTime) && duration == old(duration)
    {
      endTime := Some(now);
      timerRunning := false;
    }

    /**
     * `processLocation`: the first fix after a reset becomes the baseline with
     * 0 m; a later fix is kept only when its distance from the baseline is
     * within [2.0, 50.0] m, and then adds exactly that distance.
     */
    method ProcessLocation(location: Location)
      requires Valid()
      modifies this`locations, this`lastRecordedLocation, this`totalDistance, this`received
      ensures Valid() && received == old(received) + [location]
      ensures CurrentTrack() == Admit(distance, old(CurrentTrack()), location)
      ensures old(lastRecordedLocation).None? ==>
        && locations == old(locations) + [location]
        && lastRecordedLocation == Some(location)
        && totalDistance == old(totalDistance)
      ensures old(lastRecordedLocation).Some? ==>
        var d := distance(location, old(lastRecordedLocation).value);
        if WithinThresholds(d) then
          && locations == old(locations) + [location]
          && lastRecordedLocation == Some(location)
          && totalDistance == old(totalDistance) + d
        else
          && locations == old(locations)
          && lastRecordedLocation == old(lastRecordedLocation)
          && totalDistance == old(totalDistance)
    {
      ReplaySnoc(distance, received, location);
      received := received + [location];
      match lastRecordedLocation {
        case None =>
          UpdateLocation(location, 0.0);
        case Some(last) =>
          var d := distance(location, last);
          if d < MinDistanceThreshold {
            return;
          }
          if d > MaxGPSDriftThreshold {
            return;
          }
          UpdateLocation(location, d);
      }
    }

    /** `updateLocation`: keep the fix, make it the baseline, add `d` to the total. */
    method UpdateLocation(location: Location, d: real)
      modifies this`locations, this`lastRecordedLocation, this`totalDistance
      ensures locations == old(locations) + [location]
      ensures lastRecordedLocation == Some(location)
      ensures totalDistance == old(totalDistance) + d
    {
      locations := locations + [location];
      lastRecordedLocation := Some(location);
      totalDistance := totalDistance + d;
    }

    /** `resetRunData`: empties the session and starts the clock at `now`. */
    method ResetRunData(now: Time)
      modifies this
      ensures Valid() && received == []
      ensures locations == [] && lastRecordedLocation == None && totalDistance == 0.0
      ensures startTime == Some(now) && endTime == None && duration == 0.0
      ensures timerRunning == old(timerRunning)
    {
      locations := [];
      startTime := Some(now);
      endTime := None;
      totalDistance := 0.0;
      duration := 0.0;
      lastRecordedLocation := None;
      received := [];
    }

    /** `startTimer`: a fresh one-second timer replaces any earlier one. */
    method StartTimer()
      modifies this`timerRunning
      ensures timerRunning
    {
      timerRunning := true;
    }

    /**
     * The timer's sink: while the timer is live each tick recomputes the
     * duration; once `stopRun` has cancelled it, no tick changes anything.
     */
    method TimerFired(now: Time)
      requires Valid()
      modifies this`duration
      ensures Valid()
      ensures !timerRunning ==> duration == old(duration)
      ensures timerRunning && startTime.Some? ==> duration == now - startTime.value
      ensures timerRunning && startTime.None? ==> duration == old(duration)
    {
      if timerRunning {
        UpdateDuration(now);
      }
    }

    /** `updateDuration`: elapsed time recomputed from the start, not accumulated. */
    method UpdateDuration(now: Time)
      requires Valid()
      modifies this`duration
      ensures Valid()
      ensures startTime.None? ==> duration == old(duration)
      ensures startTime.Some? ==> duration == now - startTime.value
    {
      match startTime {
        case None =>
        case Some(start) =>
          duration := now - start;
      }
    }

    /**
     * `generateRunSummary`: no summary before the first start; otherwise a
     * snapshot of the current distance and duration stamped with the start time.
     */
    method GenerateRunSummary(id: SessionId) returns (summary: Option<RunSession>)
      ensures summary.None? <==> startTime.None?
      ensures summary.Some? ==>
        && summary.value.id == id
        && summary.value.distance == totalDistance
        && summary.value.duration == duration
        && summary.value.timestamp == startTime.value
    {
      match startTime {
        case None =>
          summary := None;
        case Some(start) =>
          summary := Some(RunSession(id, totalDistance, duration, start));
      }
    }
  }

  /**
   * A caller's session: start, a fix, a tick, a second fix, stop, a late tick.
   * Each call's precondition follows from the postconditions of the calls
   * before it.
   */
  method SampleSession(dist: DistanceFn, a: Location, b: Location)
  {
    var m := new RunDataManager(dist);
    m.StartRun(100.0);
    m.ProcessLocation(a);
    m.TimerFired(101.0);
    m.ProcessLocation(b);
    m.StopRun(105.0);
    m.TimerFired(110.0);
  }
}
