/**
 * The device-location hooks: a continuous watch with a permission and
 * availability status (the live hook), and a one-shot position request.
 */
module UserLocation {
  import opened Wrappers
  import opened TripTypes

  datatype LocationStatus = Idle | Locating | Ready | Blocked | Unsupported

  /** The `code` of a `GeolocationPositionError`. */
  datatype PositionErrorCode = PermissionDenied | PositionUnavailable | Timeout

  datatype PositionError = PositionError(code: PositionErrorCode, message: string)

  const NOT_SUPPORTED_MESSAGE: string := "Geolocation not supported"
  const PERMISSION_DENIED_MESSAGE: string := "Location permission denied. Please allow access to continue."
  const FALLBACK_ERROR_MESSAGE: string := "Unable to fetch your location right now."

  /**
   * What the live hook shows after a watch error: a denial blocks with a fixed
   * message; any other error goes idle with the error's own message, or a
   * fixed one when that message is empty.
   */
  function ErrorState(e: PositionError): (r: (LocationStatus, string))
    ensures e.code == PermissionDenied ==> r == (Blocked, PERMISSION_DENIED_MESSAGE)
    ensures e.code != PermissionDenied && e.message != "" ==> r == (Idle, e.message)
    ensures e.code != PermissionDenied && e.message == "" ==> r == (Idle, FALLBACK_ERROR_MESSAGE)
    ensures r.1 != ""
  {
    if e.code == PermissionDenied then (Blocked, PERMISSION_DENIED_MESSAGE)
    else if e.message != "" then (Idle, e.message)
    else (Idle, FALLBACK_ERROR_MESSAGE)
  }

  /** The live-location hook's state and the platform watches it holds. */
  class LiveLocation {
    /** Whether the platform offers geolocation; decided once, at start-up. */
    const supported: bool
    var latLng: Option<LatLng>
    var status: LocationStatus
    var error: Option<string>
    /** `locationRequestVersion`, bumped by every request for access. */
    var requestVersion: nat
    /** The id of the watch the current effect run registered. */
    var watch: Option<nat>
    /** The watches registered with the platform on this hook's behalf and not yet cleared. */
    var activeWatches: set<nat>
    var nextWatchId: nat
    var mounted: bool

    /**
     * Exactly one watch while mounted on a supporting platform and none
     * otherwise; `ready` only after a sample; no error exactly while locating
     * or ready; a denial always carries the denial message.
     */
    ghost predicate Valid()
      reads this
    {
      && activeWatches == (if watch.Some? then {watch.value} else {})
      && (watch.Some? <==> supported && mounted)
      && (forall w :: w in activeWatches ==> w < nextWatchId)
      && (status == Ready ==> latLng.Some?)
      && (status == Unsupported ==> !supported)
      && (error.None? <==> status == Locating || status == Ready)
      && (error.Some? ==> error.value != "")
      && (status == Blocked ==> error == Some(PERMISSION_DENIED_MESSAGE))
    }

    /** Mounting: initial status by platform support, and one watch if supported. */
    constructor (supported: bool)
      ensures Valid() && this.supported == supported && mounted
      ensures latLng == None && requestVersion == 0
      ensures supported ==> status == Locating && error == None && |activeWatches| == 1
      ensures !supported ==> status == Unsupported && error == Some(NOT_SUPPORTED_MESSAGE) && activeWatches == {}
    {
      this.supported := supported;
      latLng := None;
      status := if supported then Locating else Unsupported;
      error := if supported then None else Some(NOT_SUPPORTED_MESSAGE);
      requestVersion := 0;
      mounted := true;
      if supported {
        watch, activeWatches, nextWatchId := Some(0), {0}, 1;
      } else {
        watch, activeWatches, nextWatchId := None, {}, 0;
      }
    }

    /** The watch's success callback: the latest sample replaces the previous one. */
    method OnPosition(p: LatLng)
      requires Valid()
      modifies this
      ensures Valid()
      ensures latLng == Some(p) && status == Ready && error == None
      ensures watch == old(watch) && activeWatches == old(activeWatches) && requestVersion == old(requestVersion)
    {
      latLng := Some(p);
      status := Ready;
      error := None;
    }

    /** The watch's error callback: status and message by `ErrorState`; the last sample is kept. */
    method OnPositionError(e: PositionError)
      requires Valid()
      modifies this
      ensures Valid()
      ensures status == ErrorState(e).0 && error == Some(ErrorState(e).1)
      ensures latLng == old(latLng)
      ensures watch == old(watch) && activeWatches == old(activeWatches) && requestVersion == old(requestVersion)
    {
      var (s, m) := ErrorState(e);
      status := s;
      error := Some(m);
    }

    /**
     * `requestLocationAccess` and the effect its version bump re-runs: back to
     * locating with no error, then the previous watch is cleared before a new
     * one is registered, so one watch at most is ever active. On a platform
     * without geolocation no watch is started, yet the status still reads
     * `locating`.
     */
    method RequestLocationAccess()
      requires Valid() && mounted
      modifies this
      ensures Valid()
      ensures status == Locating && error == None && latLng == old(latLng)
      ensures requestVersion == old(requestVersion) + 1
      ensures supported ==> watch.Some? && watch.value !in old(activeWatches) && activeWatches == {watch.value}
      ensures !supported ==> activeWatches == {}
    {
      status := Locating;
      error := None;
      requestVersion := requestVersion + 1;
      if watch.Some? {
        activeWatches := activeWatches - {watch.value};
        watch := None;
      }
      if supported {
        watch := Some(nextWatchId);
        activeWatches := activeWatches + {nextWatchId};
        nextWatchId := nextWatchId + 1;
      }
    }

    /** Unmounting: the effect's cleanup clears the watch. */
    method Unmount()
      requires Valid()
      modifies this
      ensures Valid() && !mounted && activeWatches == {}
      ensures latLng == old(latLng) && status == old(status) && error == old(error)
    {
      mounted := false;
      watch := None;
      activeWatches := {};
    }
  }

  /** The one-shot hook: a single position request, whose answer is kept. */
  class OneShotLocation {
    var latLng: Option<LatLng>
    /** Whether the single position request was made. */
    var requested: bool

    /** Mounting: nothing known yet; the request is made only when geolocation exists. */
    constructor (supported: bool)
      ensures latLng == None && requested == supported
    {
      latLng := None;
      requested := supported;
    }

    /** The success callback: the position is known from now on. */
    method OnSuccess(p: LatLng)
      modifies this
      ensures latLng == Some(p) && requested == old(requested)
    {
      latLng := Some(p);
    }

    /** The error callback only logs: the hook still answers whatever it answered. */
    method OnError(e: PositionError)
      modifies this
      ensures latLng == old(latLng) && requested == old(requested)
    {
    }
  }
}
