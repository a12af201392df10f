/**
 * StepCounterManager: the pedometer source. A guarded tracking flag, and the
 * latest absolute step count and distance reported by the motion sensor.
 */
module StepCounter {
  import opened Wrappers

  /** `CMAuthorizationStatus`. */
  datatype AuthorizationStatus = NotDetermined | Restricted | Denied | Authorized

  /** The error value a pedometer update may carry instead of data. */
  type PedometerError

  /** One `CMPedometerData` reading: totals since tracking began, distance optional. */
  datatype PedometerData = PedometerData(numberOfSteps: int, distance: Option<real>)

  class StepCounterManager {
    var isTracking: bool
    var stepCount: int
    var distance: real
    var permissionStatus: AuthorizationStatus

    /** `init`: not tracking, zero readings, the status the system reports now. */
    constructor (status: AuthorizationStatus)
      ensures !isTracking && stepCount == 0 && distance == 0.0 && permissionStatus == status
    {
      isTracking := false;
      stepCount := 0;
      distance := 0.0;
      permissionStatus := status;
    }

    /**
     * `requestPermission`, given the system's current status. Once the status
     * is determined it is copied at once; while it is undetermined the system
     * prompt is raised and nothing changes until it answers.
     */
    method RequestPermission(status: AuthorizationStatus)
      modifies this`permissionStatus
      ensures status != NotDetermined ==> permissionStatus == status
      ensures status == NotDetermined ==> permissionStatus == old(permissionStatus)
    {
      if status != NotDetermined {
        permissionStatus := status;
      }
    }

    /**
     * `startTracking`: starts only when step counting is available, permission
     * is authorized and tracking is not already on; otherwise nothing changes.
     */
    method StartTracking(stepCountingAvailable: bool)
      modifies this`isTracking
      ensures stepCountingAvailable && permissionStatus == Authorized && !old(isTracking) ==> isTracking
      ensures !(stepCountingAvailable && permissionStatus == Authorized && !old(isTracking)) ==>
        isTracking == old(isTracking)
    {
      if !(stepCountingAvailable && permissionStatus == Authorized && !isTracking) {
        return;
      }
      isTracking := true;
    }

    /** `stopTracking`: a no-op unless tracking; afterwards tracking is off. */
    method StopTracking()
      modifies this`isTracking
      ensures !isTracking
      ensures !old(isTracking) ==> isTracking == old(isTracking)
    {
      if !isTracking {
        return;
      }
      isTracking := false;
    }

    /**
     * The handler given to `startUpdates`: a reading replaces the step count,
     * and the distance when the reading has one; an error or a missing
     * reading changes nothing.
     */
    method HandlePedometerUpdate(data: Option<PedometerData>, error: Option<PedometerError>)
      modifies this`stepCount, this`distance
      ensures data.None? || error.Some? ==> stepCount == old(stepCount) && distance == old(distance)
      ensures data.Some? && error.None? ==>
        && stepCount == data.value.numberOfSteps
        && distance == (if data.value.distance.Some? then data.value.distance.value else old(distance))
    {
      if data.None? || error.Some? {
        return;
      }
      stepCount := data.value.numberOfSteps;
      match data.value.distance {
        case Some(d) =>
          distance := d;
        case None =>
      }
    }
  }
}
