/**
 * The navigation view-model: the state the navigation screen renders, the
 * fixed parking-spot target, and the reaction to every event that reaches it
 * (outcome of loading the spot, location and compass samples, stream errors,
 * dismissing an error, stopping).
 *
 * Coroutines are not modelled: each reaction is one method, run atomically.
 * Calls the view-model makes into its collaborators (repository lookup, the
 * location and compass sources, cancelling its job) are recorded, in order,
 * in `sourceCalls`. The great-circle distance and the `atan2` bearing are
 * trigonometry that is not modelled: they are function values given to the
 * constructor, and only their ranges are assumed.
 */
module Navigation {
  import opened Wrappers
  import opened Numerics

  /** A device fix or a stored parking location, in degrees and metres. */
  datatype Location = Location(latitude: real, longitude: real, accuracy: real)

  /** A stored parking spot: where it is and the photo taken there, if any. */
  datatype ParkingSpot = ParkingSpot(location: Location, photoUri: Option<string>)

  /** What the screen renders; the initial value is `InitialState`. */
  datatype NavigationState = NavigationState(
    isLoading: bool,
    distanceToTarget: real,
    bearingToTarget: real,
    compassHeading: real,
    locationAccuracy: real,
    hasPhoto: bool,
    error: Option<string>)

  const InitialState: NavigationState :=
    NavigationState(true, 0.0, 0.0, 0.0, 0.0, false, None)

  /** The coroutine that loads the spot; `cancelled` once `cancel()` was called on it. */
  datatype Job = Job(parkingSpotId: string, cancelled: bool)

  /** A call from the view-model into one of its collaborators. */
  datatype SourceCall =
    | CancelJob
    | GetParkingSpot(parkingSpotId: string)
    | StartLocationUpdates
    | StartCompassUpdates
    | StopLocationUpdates
    | StopCompass

  /** A great-circle distance in metres: never negative. */
  type Metres = d: real | 0.0 <= d witness 0.0

  /** `atan2` converted to degrees: a value in [-180, 180]. */
  type SignedDegrees = b: real | -180.0 <= b <= 180.0 witness 0.0

  const PARKING_SPOT_NOT_FOUND: string := "Parking spot not found"
  const LOAD_FAILED_PREFIX: string := "Failed to load navigation: "
  const LOCATION_ERROR_PREFIX: string := "Location error: "
  const COMPASS_ERROR_PREFIX: string := "Compass error: "

  /**
   * The last step of `calculateBearing`: `(bearing + 360) % 360` on doubles.
   * Every angle from -360 on lands on a compass bearing; below that the
   * remainder keeps the sign of the dividend and is never positive.
   */
  function NormalizeBearing(bearing: real): (normalized: real)
    ensures -360.0 <= bearing ==> 0.0 <= normalized < 360.0
    ensures bearing < -360.0 ==> -360.0 < normalized <= 0.0
  {
    FloatRem360(bearing + 360.0)
  }

  /**
   * On one turn either side of north, which contains every angle `atan2`
   * can produce, negative angles are turned by a full circle and the
   * others are kept.
   */
  lemma NormalizeBearingRange(bearing: real)
    requires -360.0 <= bearing < 360.0
    ensures 0.0 <= NormalizeBearing(bearing) < 360.0
    ensures bearing < 0.0 ==> NormalizeBearing(bearing) == bearing + 360.0
    ensures 0.0 <= bearing ==> NormalizeBearing(bearing) == bearing
  {
  }

  /**
   * The normalisation needs its input range: between -720 and -360 an
   * angle is just turned once, to a negative angle.
   */
  lemma NormalizeBearingNeedsRange(bearing: real)
    requires bearing < -360.0
    ensures -720.0 < bearing ==> NormalizeBearing(bearing) == bearing + 360.0 < 0.0
  {
  }

  /**
   * `calculateBearing`: the initial bearing from the first point to the
   * second, as a compass angle in [0, 360).
   */
  function CalculateBearing(atan2Degrees: (real, real, real, real) -> SignedDegrees,
                            lat1: real, lon1: real, lat2: real, lon2: real): (bearing: real)
    ensures 0.0 <= bearing < 360.0
    ensures var raw := atan2Degrees(lat1, lon1, lat2, lon2);
      bearing == if raw < 0.0 then raw + 360.0 else raw
  {
    var raw := atan2Degrees(lat1, lon1, lat2, lon2);
    NormalizeBearingRange(raw);
    NormalizeBearing(raw)
  }

  class NavigationViewModel {
    /** Haversine distance in metres between (lat1, lon1) and (lat2, lon2). */
    const calculateDistance: (real, real, real, real) -> Metres
    /** `toDegrees(atan2(y, x))` of the initial-bearing formula, before normalisation. */
    const initialBearing: (real, real, real, real) -> SignedDegrees

    var state: NavigationState
    var navigationJob: Option<Job>
    var targetLocation: Option<Location>
    var sourceCalls: seq<SourceCall>

    /** What the screen shows is always a real distance and a compass bearing. */
    ghost predicate Valid()
      reads this
    {
      0.0 <= state.distanceToTarget && 0.0 <= state.bearingToTarget < 360.0
    }

    constructor (calculateDistance: (real, real, real, real) -> Metres,
                 initialBearing: (real, real, real, real) -> SignedDegrees)
      ensures Valid()
      ensures this.calculateDistance == calculateDistance && this.initialBearing == initialBearing
      ensures state == InitialState && navigationJob == None && targetLocation == None
      ensures sourceCalls == []
    {
      this.calculateDistance := calculateDistance;
      this.initialBearing := initialBearing;
      state := InitialState;
      navigationJob := None;
      targetLocation := None;
      sourceCalls := [];
    }

    /**
     * `startNavigation`: cancels the previous job, if there is one, and
     * launches a new one that asks the repository for the spot. Neither the
     * state nor the target changes until the lookup answers.
     */
    method StartNavigation(parkingSpotId: string)
      requires Valid()
      modifies this
      ensures Valid()
      ensures navigationJob == Some(Job(parkingSpotId, false))
      ensures sourceCalls == old(sourceCalls)
        + (if old(navigationJob).Some? then [CancelJob] else [])
        + [GetParkingSpot(parkingSpotId)]
      ensures state == old(state) && targetLocation == old(targetLocation)
    {
      if navigationJob.Some? {
        sourceCalls := sourceCalls + [CancelJob];
      }
      navigationJob := Some(Job(parkingSpotId, false));
      sourceCalls := sourceCalls + [GetParkingSpot(parkingSpotId)];
    }

    /**
     * The lookup found the spot: it becomes the target, loading ends, the
     * photo flag follows the spot, and location and compass updates start.
     * Distance, bearing, heading, accuracy and error are untouched.
     */
    method OnParkingSpotFound(spot: ParkingSpot)
      requires Valid()
      modifies this
      ensures Valid()
      ensures targetLocation == Some(spot.location)
      ensures state == old(state).(isLoading := false, hasPhoto := spot.photoUri.Some?)
      ensures sourceCalls == old(sourceCalls) + [StartLocationUpdates, StartCompassUpdates]
      ensures navigationJob == old(navigationJob)
    {
      targetLocation := Some(spot.location);
      state := state.(isLoading := false, hasPhoto := spot.photoUri.Some?);
      sourceCalls := sourceCalls + [StartLocationUpdates, StartCompassUpdates];
    }

    /** The lookup answered that there is no such spot: loading ends with an error. */
    method OnParkingSpotMissing()
      requires Valid()
      modifies this
      ensures Valid()
      ensures state == old(state).(isLoading := false, error := Some(PARKING_SPOT_NOT_FOUND))
      ensures targetLocation == old(targetLocation)
      ensures sourceCalls == old(sourceCalls) && navigationJob == old(navigationJob)
    {
      state := state.(isLoading := false, error := Some(PARKING_SPOT_NOT_FOUND));
    }

    /** The lookup threw: loading ends with an error carrying the exception's message. */
    method OnLoadFailed(message: string)
      requires Valid()
      modifies this
      ensures Valid()
      ensures state == old(state).(isLoading := false, error := Some(LOAD_FAILED_PREFIX + message))
      ensures targetLocation == old(targetLocation)
      ensures sourceCalls == old(sourceCalls) && navigationJob == old(navigationJob)
    {
      state := state.(isLoading := false, error := Some(LOAD_FAILED_PREFIX + message));
    }

    /**
     * A location sample. Without a target nothing happens. With one, distance
     * and bearing are recomputed from this sample to the target and the
     * sample's accuracy is shown; every other field is kept.
     */
    method OnLocationUpdate(location: Location)
      requires Valid()
      modifies this
      ensures Valid()
      ensures old(targetLocation).None? ==> state == old(state)
      ensures old(targetLocation).Some? ==>
        var target := old(targetLocation).value;
        state == old(state).(
          distanceToTarget := calculateDistance(location.latitude, location.longitude,
                                                target.latitude, target.longitude),
          bearingToTarget := CalculateBearing(initialBearing, location.latitude, location.longitude,
                                              target.latitude, target.longitude),
          locationAccuracy := location.accuracy)
      ensures targetLocation == old(targetLocation)
      ensures sourceCalls == old(sourceCalls) && navigationJob == old(navigationJob)
    {
      if targetLocation.Some? {
        var target := targetLocation.value;
        var distance := calculateDistance(location.latitude, location.longitude,
                                          target.latitude, target.longitude);
        var bearing := CalculateBearing(initialBearing, location.latitude, location.longitude,
                                        target.latitude, target.longitude);
        state := state.(distanceToTarget := distance, bearingToTarget := bearing,
                        locationAccuracy := location.accuracy);
      }
    }

    /** The location stream failed: only the error changes; the last fix stays on screen. */
    method OnLocationError(message: string)
      requires Valid()
      modifies this
      ensures Valid()
      ensures state == old(state).(error := Some(LOCATION_ERROR_PREFIX + message))
      ensures targetLocation == old(targetLocation)
      ensures sourceCalls == old(sourceCalls) && navigationJob == old(navigationJob)
    {
      state := state.(error := Some(LOCATION_ERROR_PREFIX + message));
    }

    /** A compass sample replaces the heading, target or not; nothing else changes. */
    method OnCompassHeading(heading: real)
      requires Valid()
      modifies this
      ensures Valid()
      ensures state == old(state).(compassHeading := heading)
      ensures targetLocation == old(targetLocation)
      ensures sourceCalls == old(sourceCalls) && navigationJob == old(navigationJob)
    {
      state := state.(compassHeading := heading);
    }

    /** The compass stream failed: only the error changes. */
    method OnCompassError(message: string)
      requires Valid()
      modifies this
      ensures Valid()
      ensures state == old(state).(error := Some(COMPASS_ERROR_PREFIX + message))
      ensures targetLocation == old(targetLocation)
      ensures sourceCalls == old(sourceCalls) && navigationJob == old(navigationJob)
    {
      state := state.(error := Some(COMPASS_ERROR_PREFIX + message));
    }

    /**
     * `stopNavigation`: cancels the job if there is one (no-op otherwise) and
     * always asks both sensors to stop. Target and state are kept.
     */
    method StopNavigation()
      requires Valid()
      modifies this
      ensures Valid()
      ensures navigationJob == if old(navigationJob).Some?
        then Some(old(navigationJob).value.(cancelled := true)) else None
      ensures sourceCalls == old(sourceCalls)
        + (if old(navigationJob).Some? then [CancelJob] else [])
        + [StopLocationUpdates, StopCompass]
      ensures state == old(state) && targetLocation == old(targetLocation)
    {
      if navigationJob.Some? {
        sourceCalls := sourceCalls + [CancelJob];
        navigationJob := Some(navigationJob.value.(cancelled := true));
      }
      sourceCalls := sourceCalls + [StopLocationUpdates, StopCompass];
    }

    /** Dismissing the error clears it and nothing else. */
    method ClearError()
      requires Valid()
      modifies this
      ensures Valid()
      ensures state == old(state).(error := None)
      ensures targetLocation == old(targetLocation)
      ensures sourceCalls == old(sourceCalls) && navigationJob == old(navigationJob)
    {
      state := state.(error := None);
    }

    /**
     * `onCleared` stops navigation once more, usually after the screen has
     * already stopped it on leaving: a second stop is harmless, the job stays
     * cancelled, the stop requests are simply repeated.
     */
    method OnCleared()
      requires Valid()
      modifies this
      ensures Valid()
      ensures state == old(state) && targetLocation == old(targetLocation)
      ensures old(navigationJob).None? ==> navigationJob == None
      ensures old(navigationJob).Some? ==> navigationJob == Some(old(navigationJob).value.(cancelled := true))
      ensures sourceCalls == old(sourceCalls)
        + (if old(navigationJob).Some? then [CancelJob] else [])
        + [StopLocationUpdates, StopCompass]
    {
      StopNavigation();
    }
  }
}
