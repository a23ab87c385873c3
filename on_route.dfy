/**
 * The trip screen. Its pure half derives what the screen shows and sends from
 * the held trip, the polled status, the trip details and the latest location;
 * its imperative half is the screen object, whose methods are the screen's
 * effects, interval callbacks and button handlers.
 */
module OnRoute {
  import opened Wrappers
  import opened Text
  import opened TripTypes
  import opened ActiveTripMapper
  import opened FormatLocationName
  import opened WebSocketContext
  import opened RouteMap

  /** Which endpoint the driver is heading for. */
  datatype RoutePhase = ToPickup | ToDropoff

  /** Below this displacement the periodic check keeps the routed origin. */
  const ROUTE_MIN_MOVE_METERS: real := 100.0

  const DRIVER_CANCEL_OPTIONS: seq<string> := [
    "Rider is taking too long",
    "Rider is behaving inappropriately",
    "Accidentally accepted this ride",
    "Pickup location is unsafe",
    "Vehicle issue or emergency",
    "Unable to reach rider",
    "Other"]
  const OTHER_REASON: string := "Other"
  const SELECT_REASON_ERROR: string := "Please select a reason."
  const ENTER_REASON_ERROR: string := "Please enter your reason."
  const CANCEL_FAILED_ERROR: string := "Unable to cancel ride. Please try again."

  // ---------------------------------------------------------------- routed origin

  /**
   * The first-sample seed: the routed origin, once set, is kept; before that,
   * the first sample becomes it.
   */
  function SeededOrigin(routed: Option<LatLng>, sample: Option<LatLng>): (r: Option<LatLng>)
    ensures routed.Some? ==> r == routed
    ensures routed.None? ==> r == sample
  {
    if routed.Some? then routed else sample
  }

  /**
   * The periodic (30 s) check: no sample keeps the routed origin; no routed
   * origin adopts the sample; otherwise the sample is adopted only if it lies
   * at least 100 m away.
   */
  function RefreshedOrigin(routed: Option<LatLng>, latest: Option<LatLng>, dist: DistanceMeters): (r: Option<LatLng>)
    ensures latest.None? ==> r == routed
    ensures latest.Some? && routed.None? ==> r == latest
    ensures latest.Some? && routed.Some? && dist(routed.value, latest.value) < ROUTE_MIN_MOVE_METERS ==> r == routed
    ensures latest.Some? && routed.Some? && dist(routed.value, latest.value) >= ROUTE_MIN_MOVE_METERS ==> r == latest
  {
    match latest
    case None => routed
    case Some(sample) =>
      match routed
      case None => latest
      case Some(previous) => if dist(previous, sample) < ROUTE_MIN_MOVE_METERS then routed else latest
  }

  /** The routed origin after a run of periodic checks, each seeing the latest sample of its time. */
  function RefreshRun(routed: Option<LatLng>, samples: seq<Option<LatLng>>, dist: DistanceMeters): Option<LatLng>
    decreases |samples|
  {
    if samples == [] then routed else RefreshRun(RefreshedOrigin(routed, samples[0], dist), samples[1..], dist)
  }

  /**
   * The throttle: while every sample stays within 100 m of the routed origin,
   * no check moves it, so no route is recomputed, however many checks run.
   */
  lemma {:induction false} SmallMovesNeverReroute(routed: LatLng, samples: seq<Option<LatLng>>, dist: DistanceMeters)
    requires forall i :: 0 <= i < |samples| && samples[i].Some? ==> dist(routed, samples[i].value) < ROUTE_MIN_MOVE_METERS
    ensures RefreshRun(Some(routed), samples, dist) == Some(routed)
    decreases |samples|
  {
    if samples != [] {
      SmallMovesNeverReroute(routed, samples[1..], dist);
    }
  }

  /** The routed origin is never invented: it is the initial one or one of the samples seen. */
  lemma {:induction false} RoutedOriginWasSampled(routed: Option<LatLng>, samples: seq<Option<LatLng>>, dist: DistanceMeters)
    ensures RefreshRun(routed, samples, dist) == routed
         || exists i :: 0 <= i < |samples| && RefreshRun(routed, samples, dist) == samples[i]
    decreases |samples|
  {
    if samples != [] {
      var next := RefreshedOrigin(routed, samples[0], dist);
      RoutedOriginWasSampled(next, samples[1..], dist);
      var r := RefreshRun(routed, samples, dist);
      if r != next {
        var i :| 0 <= i < |samples[1..]| && r == samples[1..][i];
        assert r == samples[i + 1];
      } else if r != routed {
        assert r == samples[0];
      }
    }
  }

  /** A change of route phase re-routes from the latest sample, if there is one. */
  function PhaseResetOrigin(routed: Option<LatLng>, latest: Option<LatLng>): (r: Option<LatLng>)
    ensures latest.Some? ==> r == latest
    ensures latest.None? ==> r == routed
  {
    if latest.Some? then latest else routed
  }

  // ---------------------------------------------------------------- trip state from the poll

  /** The screen is still finding out whether there is a trip to show. */
  predicate IsHydratingActiveTrip(held: Option<TripRequestData>, statusLoading: bool,
                                  poll: Option<DriverTripStatusResponse>, detailsLoading: bool)
  {
    held.None? && (statusLoading || (HasActiveTrip(poll) && detailsLoading))
  }

  /**
   * The rehydration rule: with no trip held, an active trip reported by the
   * poll and its details fetched, the held trip becomes the details mapped to
   * an offer; a trip already held is never overwritten.
   */
  function Rehydrated(held: Option<TripRequestData>, poll: Option<DriverTripStatusResponse>,
                      details: Option<ActiveTrip>, now: int): (r: Option<TripRequestData>)
    ensures held.Some? ==> r == held
    ensures held.None? && HasActiveTrip(poll) && details.Some? ==>
      r == Some(MapActiveTripToTripRequestData(details.value, now))
    ensures held.None? && !(HasActiveTrip(poll) && details.Some?) ==> r == None
  {
    if held.None? && HasActiveTrip(poll) && details.Some? then
      Some(MapActiveTripToTripRequestData(details.value, now))
    else held
  }

  /**
   * Rehydrating from the poll and receiving the same trip as a pushed offer
   * leave the same trip held: the stream is not needed to recover a trip.
   */
  lemma RehydrationMatchesPush(s: Session, poll: Option<DriverTripStatusResponse>, details: ActiveTrip, now: int)
    requires s.tripRequestData.None? && HasActiveTrip(poll) && details.tripId != ""
    ensures OnMessage(s, Parsed(MapActiveTripToTripRequestData(details, now))).next.tripRequestData
         == Rehydrated(s.tripRequestData, poll, Some(details), now)
  {
  }

  /** Either source says the trip is completed. */
  predicate ReportsCompleted(poll: Option<DriverTripStatusResponse>, details: Option<ActiveTrip>) {
    (details.Some? && details.value.status == Completed) || (poll.Some? && poll.value.status == Status(Completed))
  }

  /** The poll says there is no trip while one is held and hydration is over. */
  predicate ReportsClosed(held: Option<TripRequestData>, hydrating: bool, poll: Option<DriverTripStatusResponse>) {
    !hydrating && held.Some? && poll.Some? && poll.value.status == Flag(false)
  }

  /** The phase the reports imply: towards the dropoff exactly when either says `on_route`. */
  function PhaseFromReports(poll: Option<DriverTripStatusResponse>, details: Option<ActiveTrip>): (p: RoutePhase)
    ensures p == ToDropoff <==>
      (poll.Some? && poll.value.status == Status(TripStatus.OnRoute)) || (details.Some? && details.value.status == TripStatus.OnRoute)
  {
    if (poll.Some? && poll.value.status == Status(TripStatus.OnRoute)) || (details.Some? && details.value.status == TripStatus.OnRoute)
    then ToDropoff else ToPickup
  }

  // ---------------------------------------------------------------- origin and destination

  function PickupPoint(trip: Option<TripRequestData>): Option<LatLng> {
    if trip.Some? then Some((trip.value.pickupLat, trip.value.pickupLng)) else None
  }

  function DropoffPoint(trip: Option<TripRequestData>): Option<LatLng> {
    if trip.Some? then Some((trip.value.dropoffLat, trip.value.dropoffLng)) else None
  }

  /** Where the route starts: the routed origin, else the live position, else the pickup point. */
  function RouteOrigin(routed: Option<LatLng>, live: Option<LatLng>, trip: Option<TripRequestData>): (r: Option<LatLng>)
    ensures routed.Some? ==> r == routed
    ensures routed.None? && live.Some? ==> r == live
    ensures routed.None? && live.None? ==> r == PickupPoint(trip)
    ensures r.None? <==> routed.None? && live.None? && trip.None?
  {
    if routed.Some? then routed else if live.Some? then live else PickupPoint(trip)
  }

  /** Where the route ends: the pickup point while heading for pickup, the dropoff point after. */
  function Destination(phase: RoutePhase, trip: Option<TripRequestData>): (r: Option<LatLng>)
    ensures phase == ToPickup ==> r == PickupPoint(trip)
    ensures phase == ToDropoff ==> r == DropoffPoint(trip)
  {
    if phase == ToPickup then PickupPoint(trip) else DropoffPoint(trip)
  }

  /**
   * The label of a trip endpoint: the geocoded street address when complete,
   * else the geocoded place name, else the label carried by the trip, else
   * the fixed fallback. It is never the loading placeholder, unless some
   * name given for the place is literally that text.
   */
  function EndpointLabel(geocoded: Option<Address>, tripLabel: Option<string>): (r: string)
    ensures geocoded.Some? && IsComplete(geocoded.value) ==>
      r == geocoded.value.street.value + ", " + geocoded.value.city.value + ", " + geocoded.value.region.value
    ensures !(geocoded.Some? && IsComplete(geocoded.value)) ==>
      r == (if geocoded.Some? && geocoded.value.placeName.Some? then geocoded.value.placeName.value
            else tripLabel.GetOr(UNKNOWN_LOCATION))
  {
    var placeName := if geocoded.Some? && geocoded.value.placeName.Some? then geocoded.value.placeName else tripLabel;
    var parts := if geocoded.Some? then geocoded.value else Address(None, None, None, None);
    FormatAddress(Some(parts.(placeName := placeName)))
  }

  /** The screen never shows the loading placeholder for an endpoint unless a name given for it is that text. */
  lemma EndpointLabelNeverLoading(geocoded: Option<Address>, tripLabel: Option<string>)
    requires EndpointLabel(geocoded, tripLabel) == LOADING_ADDRESS
    ensures (geocoded.Some? && geocoded.value.placeName == Some(LOADING_ADDRESS)) || tripLabel == Some(LOADING_ADDRESS)
  {
    if geocoded.Some? && IsComplete(geocoded.value) {
      CompleteAddressIsNotPlaceholder(geocoded.value);
    }
  }

  // ---------------------------------------------------------------- cancellation

  /**
   * The cancel reason to submit, or the message shown instead: a reason must
   * be picked; "Other" needs non-blank text, which is submitted trimmed; any
   * other pick is submitted as it is.
   */
  function ValidateCancelReason(selected: string, custom: string): (r: Result<string>)
    ensures selected == "" ==> r == Err(SELECT_REASON_ERROR)
    ensures selected == OTHER_REASON && !IsFilled(custom) ==> r == Err(ENTER_REASON_ERROR)
    ensures selected == OTHER_REASON && IsFilled(custom) ==> r == Ok(Trim(custom))
    ensures selected != "" && selected != OTHER_REASON ==> r == Ok(selected)
  {
    if selected == "" then Err(SELECT_REASON_ERROR)
    else
      var reason := if selected == OTHER_REASON then Trim(custom) else selected;
      if reason == "" then Err(ENTER_REASON_ERROR) else Ok(reason)
  }

  /** Every listed option is accepted as picked, except "Other", which is accepted exactly with non-blank text. */
  lemma ListedReasonsAccepted(i: nat, custom: string)
    requires i < |DRIVER_CANCEL_OPTIONS|
    ensures DRIVER_CANCEL_OPTIONS[i] != OTHER_REASON ==> ValidateCancelReason(DRIVER_CANCEL_OPTIONS[i], custom) == Ok(DRIVER_CANCEL_OPTIONS[i])
    ensures DRIVER_CANCEL_OPTIONS[i] == OTHER_REASON ==>
      (ValidateCancelReason(DRIVER_CANCEL_OPTIONS[i], custom).Ok? <==> exists k :: 0 <= k < |custom| && !IsWhitespace(custom[k]))
  {
    IsFilledIff(custom);
  }

  /** A submitted custom reason carries no surrounding white space and is never blank. */
  lemma SubmittedOtherReasonIsClean(custom: string)
    requires ValidateCancelReason(OTHER_REASON, custom).Ok?
    ensures var reason := ValidateCancelReason(OTHER_REASON, custom).value;
      reason != [] && !IsWhitespace(reason[0]) && !IsWhitespace(reason[|reason| - 1]) && Trim(reason) == reason
  {
    TrimIdempotent(custom);
  }

  /** The cancel request for the held trip: the rider counts as picked up once heading for the dropoff. */
  function CancelRequest(trip: TripRequestData, reason: string, phase: RoutePhase): (r: CancelTripByDriver)
    ensures r.tripId == trip.tripId && r.driverId == trip.driverId && r.riderId == trip.riderId
    ensures r.reason == reason
    ensures !r.isRiderPicked <==> phase == ToPickup
  {
    CancelTripByDriver(trip.tripId, trip.driverId, trip.riderId, reason, phase != ToPickup)
  }

  /**
   * The cancel endpoint's answer. A field that is missing, or not a boolean,
   * is `None`; a missing body is `None` as a whole.
   */
  datatype CancelBody = CancelBody(success: Option<bool>, status: Option<bool>)

  /** How the cancel request settled: an answer, or a thrown error. */
  datatype CancelOutcome = Answered(body: Option<CancelBody>) | Threw

  /**
   * Whether an answer counts as a successful cancel: `success` is `true`, or
   * neither `success` nor `status` is `false`. A missing body therefore counts
   * as success, and an explicit `success: true` wins over `status: false`.
   */
  function CancelSucceeded(body: Option<CancelBody>): (ok: bool)
    ensures body.None? ==> ok
    ensures body.Some? && body.value.success == Some(false) ==> !ok
    ensures body.Some? && body.value.success == Some(true) ==> ok
    ensures body.Some? && body.value.success.None? ==> (ok <==> body.value.status != Some(false))
  {
    match body
    case None => true
    case Some(b) => b.success == Some(true) || (b.success != Some(false) && b.status != Some(false))
  }

  // ---------------------------------------------------------------- telemetry

  /** The `status` the realtime publisher reports for the phase. */
  function SocketTripStatus(phase: RoutePhase): (status: string)
    ensures phase == ToPickup ==> status == "assigned"
    ensures phase == ToDropoff ==> status == "on_route"
  {
    if phase == ToPickup then "assigned" else "on_route"
  }

  /** The name both publishers report: the profile's full name, or "". */
  function DriverName(profile: Option<UserDetails>): string {
    if profile.Some? then profile.value.fullName else ""
  }

  /**
   * What the persistence publisher pushes, if anything: nothing unless a
   * sample, the driver's details and a held trip are all known; then a busy,
   * online snapshot of the driver at the sample, linked to the trip and rider.
   */
  function LocationSnapshotFor(coords: Option<LatLng>, details: Option<DriverDetails>,
                               profile: Option<UserDetails>, trip: Option<TripRequestData>, now: int): (r: Option<LocationSnapshot>)
    ensures r.Some? <==> coords.Some? && details.Some? && trip.Some?
    ensures r.Some? ==>
      && r.value.latLng == coords.value && r.value.lastUpdated == now
      && r.value.driverId == details.value.id && r.value.name == DriverName(profile)
      && r.value.carMake == details.value.vehicleMake && r.value.carModel == details.value.vehicleModel
      && r.value.carColor == details.value.vehicleColor && r.value.carPlate == details.value.licensePlate
      && r.value.status == "busy" && r.value.isOnline
      && r.value.currentTrip == trip.value.tripId && r.value.currentRider == trip.value.riderId
  {
    if coords.None? || details.None? || trip.None? then None
    else
      var d := details.value;
      Some(LocationSnapshot(
        driverId := d.id, name := DriverName(profile),
        carMake := d.vehicleMake, carModel := d.vehicleModel, carColor := d.vehicleColor, carPlate := d.licensePlate,
        latLng := coords.value, lastUpdated := now, status := "busy", isOnline := true,
        currentTrip := trip.value.tripId, currentRider := trip.value.riderId))
  }

  /**
   * What the realtime publisher sends, if anything: nothing unless a sample,
   * a held trip and the driver's details are known; then the trip's ids (the
   * driver id falling back to the details' id), the vehicle, the position and
   * the phase's status.
   */
  function SocketUpdateFor(coords: Option<LatLng>, trip: Option<TripRequestData>, details: Option<DriverDetails>,
                           profile: Option<UserDetails>, phase: RoutePhase): (r: Option<DriverLocationUpdate>)
    ensures r.Some? <==> coords.Some? && trip.Some? && details.Some?
    ensures r.Some? ==>
      && r.value.tripId == trip.value.tripId && r.value.riderId == trip.value.riderId
      && r.value.driverId == (if trip.value.driverId != "" then trip.value.driverId else details.value.id)
      && r.value.driverName == DriverName(profile)
      && r.value.driverCarColor == details.value.vehicleColor && r.value.driverCarNumber == details.value.licensePlate
      && (r.value.lat, r.value.lng) == coords.value
      && r.value.status == SocketTripStatus(phase)
  {
    if coords.None? || trip.None? || details.None? then None
    else
      var t, d := trip.value, details.value;
      Some(DriverLocationUpdate(
        tripId := t.tripId, riderId := t.riderId,
        driverId := if t.driverId != "" then t.driverId else d.id,
        driverName := DriverName(profile),
        driverCarColor := d.vehicleColor, driverCarNumber := d.licensePlate,
        driverProfilePic := if profile.Some? then Some(profile.value.profilePictureUrl) else None,
        driverPhoneNumber := if profile.Some? then Some(profile.value.phoneNumber) else None,
        lat := coords.value.0, lng := coords.value.1,
        status := SocketTripStatus(phase)))
  }

  /** The periodic work the screen registers with the window's timers. */
  datatype Publisher = SocketPublisher | LocationPublisher | RouteRefreshCheck

  /**
   * A ref to an interval agrees with the timer table: the ref names a live
   * timer of that publisher, and every live timer of that publisher is the one
   * the ref names.
   */
  predicate RefTracks(timers: map<nat, Publisher>, ref: Option<nat>, p: Publisher) {
    && (ref.Some? ==> ref.value in timers && timers[ref.value] == p)
    && (forall id :: id in timers && timers[id] == p ==> ref == Some(id))
  }

  /** So no publisher ever has two intervals running. */
  lemma AtMostOneInterval(timers: map<nat, Publisher>, ref: Option<nat>, p: Publisher, a: nat, b: nat)
    requires RefTracks(timers, ref, p)
    requires a in timers && b in timers && timers[a] == p && timers[b] == p
    ensures a == b
  {
  }

  /** Clearing the interval a ref names, and nulling the ref: no timer of that publisher is left. */
  function ClearInterval(timers: map<nat, Publisher>, ref: Option<nat>): map<nat, Publisher> {
    if ref.Some? then timers - {ref.value} else timers
  }

  lemma ClearIntervalLeavesNone(timers: map<nat, Publisher>, ref: Option<nat>, p: Publisher, q: Publisher)
    requires RefTracks(timers, ref, p)
    ensures RefTracks(ClearInterval(timers, ref), None, p)
    ensures q != p ==> forall r :: RefTracks(timers, r, q) ==> RefTracks(ClearInterval(timers, ref), r, q)
  {
  }

  /** The interval refs the screen keeps, over the window's table of live timers. */
  datatype Intervals = Intervals(
    table: map<nat, Publisher>,
    nextId: nat,
    socketRef: Option<nat>,
    locationRef: Option<nat>,
    refreshRef: Option<nat>)

  function RefOf(iv: Intervals, p: Publisher): Option<nat> {
    match p
    case SocketPublisher => iv.socketRef
    case LocationPublisher => iv.locationRef
    case RouteRefreshCheck => iv.refreshRef
  }

  function WithRef(iv: Intervals, p: Publisher, ref: Option<nat>): (r: Intervals)
    ensures RefOf(r, p) == ref && r.table == iv.table && r.nextId == iv.nextId
    ensures forall q :: q != p ==> RefOf(r, q) == RefOf(iv, q)
  {
    match p
    case SocketPublisher => iv.(socketRef := ref)
    case LocationPublisher => iv.(locationRef := ref)
    case RouteRefreshCheck => iv.(refreshRef := ref)
  }

  /** Every ref tracks its publisher's one timer, and timer ids are handed out fresh. */
  predicate IntervalsValid(iv: Intervals) {
    && (forall p :: RefTracks(iv.table, RefOf(iv, p), p))
    && (forall id :: id in iv.table ==> id < iv.nextId)
  }

  /** No timers at all, as on mount and after unmount. */
  function NoIntervals(nextId: nat): (r: Intervals)
    ensures IntervalsValid(r) && r.table == map[] && r.nextId == nextId
    ensures forall p :: RefOf(r, p).None?
  {
    Intervals(map[], nextId, None, None, None)
  }

  /**
   * An interval effect re-running: the publisher's previous interval, if
   * any, is cleared and its ref nulled; then, when the effect's conditions
   * hold, a fresh interval is registered. The other publishers' timers and
   * refs are untouched, so no publisher ever runs twice.
   */
  function Restart(iv: Intervals, p: Publisher, start: bool): (r: Intervals)
    requires IntervalsValid(iv)
    ensures RefOf(r, p).Some? <==> start
    ensures RefOf(iv, p).Some? ==> RefOf(iv, p).value !in r.table
    ensures forall q :: q != p ==> RefOf(r, q) == RefOf(iv, q)
    ensures forall id :: id in iv.table && iv.table[id] != p ==> id in r.table && r.table[id] == iv.table[id]
    ensures forall id :: id in r.table && r.table[id] != p ==> id in iv.table && iv.table[id] == r.table[id]
    ensures r.nextId >= iv.nextId
  {
    var cleared := WithRef(iv.(table := ClearInterval(iv.table, RefOf(iv, p))), p, None);
    if start then
      var id := cleared.nextId;
      WithRef(cleared.(table := cleared.table[id := p], nextId := id + 1), p, Some(id))
    else cleared
  }

  /** `Restart` keeps every ref tracking its publisher's one timer. */
  lemma RestartKeepsValid(iv: Intervals, p: Publisher, start: bool)
    requires IntervalsValid(iv)
    ensures IntervalsValid(Restart(iv, p, start))
  {
    var table := ClearInterval(iv.table, RefOf(iv, p));
    var r := Restart(iv, p, start);
    forall q
      ensures RefTracks(r.table, RefOf(r, q), q)
    {
      assert RefTracks(iv.table, RefOf(iv, q), q);
      ClearIntervalLeavesNone(iv.table, RefOf(iv, p), p, q);
      if start {
        if q == p {
          RegisterTracks(table, iv.nextId, p, None, q);
        } else {
          RegisterTracks(table, iv.nextId, p, RefOf(iv, q), q);
        }
      }
    }
  }

  /** Registering a fresh timer for `p`: its ref now tracks it, and the other refs still track theirs. */
  lemma RegisterTracks(table: map<nat, Publisher>, id: nat, p: Publisher, ref: Option<nat>, q: Publisher)
    requires id !in table
    requires RefTracks(table, ref, q)
    ensures q == p && ref == None ==> RefTracks(table[id := p], Some(id), p)
    ensures q != p ==> RefTracks(table[id := p], ref, q)
  {
  }

  /** What a call to `send` puts on the wire: the event, when there is one and the channel is open. */
  function Transmitted(channel: Option<Socket>, update: Option<DriverLocationUpdate>): (wire: seq<DriverLocationUpdate>)
    ensures wire != [] <==> update.Some? && channel.Some? && channel.value.readyState == Open
    ensures wire != [] ==> wire == [update.value]
  {
    if update.Some? && channel.Some? && channel.value.readyState == Open then [update.value] else []
  }

  /** The cancel modal's four pieces of state. */
  datatype CancelModal = CancelModal(shown: bool, reason: string, custom: string, error: string)

  /** What the screen has asked the back end to do, in order. */
  datatype Outbox = Outbox(
    locationPushes: seq<LocationSnapshot>,
    cancels: seq<CancelTripByDriver>,
    pickups: seq<TripUpdate>,
    dropoffs: seq<TripUpdate>)

  /**
   * The trip screen. Its effects and handlers are methods, called by the
   * environment when their dependencies change or the user acts; the trip
   * it shows is the socket provider's held trip.
   */
  class OnRouteScreen {
    /** The realtime context the screen reads the held trip from and sends over. */
    const socket: WebSocketProvider
    /** The map's route overlay and the screen's marker refs. */
    const overlay: RouteOverlay
    /** The distance function (haversine in the source). */
    const dist: DistanceMeters

    var routePhase: RoutePhase
    /** The latest position sample (`latestCoordsRef` and `latestDriverOriginRef`). */
    var coords: Option<LatLng>
    /** The origin the current route was drawn from (`routedDriverOriginRef`). */
    var routedOrigin: Option<LatLng>
    var intervals: Intervals
    /** Every draw started, by generation; the live one is the only one not cancelled. */
    var drawTasks: map<nat, DrawTask>
    var liveDraw: Option<nat>
    var nextDraw: nat
    var modal: CancelModal
    var outbox: Outbox
    /** Every client-side navigation, in order. */
    var navigatedTo: seq<string>
    /** Set once `hardReloadHome` has run. */
    var reloadRequested: bool
    var mounted: bool

    ghost predicate Valid()
      reads this, overlay
    {
      && IntervalsValid(intervals)
      && overlay.Valid()
      && (coords.Some? ==> routedOrigin.Some?)
      && (liveDraw.Some? ==> liveDraw.value in drawTasks)
      && (forall k :: k in drawTasks ==> k < nextDraw)
      && (mounted <==> intervals.refreshRef.Some?)
      && (!mounted ==> intervals.table == map[] && liveDraw == None)
    }

    /** Whether draw `k` has been told to stop (its effect was cleaned up). */
    predicate Cancelled(k: nat)
      reads this
    {
      liveDraw != Some(k)
    }

    /** Mounting: nothing held by the screen yet, and the 30 s route check registered. */
    constructor (socket: WebSocketProvider, overlay: RouteOverlay, dist: DistanceMeters)
      requires overlay.Valid()
      ensures Valid() && mounted
      ensures this.socket == socket && this.overlay == overlay && this.dist == dist
      ensures routePhase == ToPickup && coords == None && routedOrigin == None
      ensures intervals.table == map[0 := RouteRefreshCheck] && intervals.refreshRef == Some(0)
      ensures intervals.socketRef == None && intervals.locationRef == None
      ensures drawTasks == map[] && liveDraw == None
      ensures modal == CancelModal(false, "", "", "") && outbox == Outbox([], [], [], [])
      ensures navigatedTo == [] && !reloadRequested
    {
      this.socket, this.overlay, this.dist := socket, overlay, dist;
      routePhase, coords, routedOrigin := ToPickup, None, None;
      RestartKeepsValid(NoIntervals(0), RouteRefreshCheck, true);
      intervals := Restart(NoIntervals(0), RouteRefreshCheck, true);
      drawTasks, liveDraw, nextDraw := map[], None, 0;
      modal := CancelModal(false, "", "", "");
      outbox := Outbox([], [], [], []);
      navigatedTo, reloadRequested, mounted := [], false, true;
    }

    /** A new position sample; the first one seeds the routed origin. */
    method OnCoords(sample: LatLng)
      requires Valid()
      modifies this
      ensures Valid()
      ensures coords == Some(sample) && routedOrigin == SeededOrigin(old(routedOrigin), Some(sample))
      ensures routePhase == old(routePhase) && intervals == old(intervals)
      ensures drawTasks == old(drawTasks) && liveDraw == old(liveDraw) && nextDraw == old(nextDraw)
      ensures modal == old(modal) && outbox == old(outbox)
      ensures navigatedTo == old(navigatedTo) && reloadRequested == old(reloadRequested) && mounted == old(mounted)
    {
      coords := Some(sample);
      routedOrigin := SeededOrigin(routedOrigin, coords);
    }

    /** A phase change re-routes from the latest sample; setting the same phase is no change. */
    method SetRoutePhase(p: RoutePhase)
      requires Valid()
      modifies this
      ensures Valid()
      ensures routePhase == p
      ensures routedOrigin == (if p != old(routePhase) then PhaseResetOrigin(old(routedOrigin), coords) else old(routedOrigin))
      ensures coords == old(coords) && intervals == old(intervals)
      ensures drawTasks == old(drawTasks) && liveDraw == old(liveDraw) && nextDraw == old(nextDraw)
      ensures modal == old(modal) && outbox == old(outbox)
      ensures navigatedTo == old(navigatedTo) && reloadRequested == old(reloadRequested) && mounted == old(mounted)
    {
      if p != routePhase {
        routePhase := p;
        routedOrigin := PhaseResetOrigin(routedOrigin, coords);
      }
    }

    /** With a trip held (with an id), follow the phase the reports imply. */
    method SyncRoutePhase(poll: Option<DriverTripStatusResponse>, details: Option<ActiveTrip>)
      requires Valid()
      modifies this
      ensures Valid()
      ensures socket.tripRequestData.Some? && socket.tripRequestData.value.tripId != "" ==>
        routePhase == PhaseFromReports(poll, details)
        && routedOrigin == (if routePhase != old(routePhase) then PhaseResetOrigin(old(routedOrigin), coords) else old(routedOrigin))
      ensures !(socket.tripRequestData.Some? && socket.tripRequestData.value.tripId != "") ==>
        routePhase == old(routePhase) && routedOrigin == old(routedOrigin)
      ensures coords == old(coords) && intervals == old(intervals)
      ensures drawTasks == old(drawTasks) && liveDraw == old(liveDraw) && nextDraw == old(nextDraw)
      ensures modal == old(modal) && outbox == old(outbox)
      ensures navigatedTo == old(navigatedTo) && reloadRequested == old(reloadRequested) && mounted == old(mounted)
    {
      if socket.tripRequestData.Some? && socket.tripRequestData.value.tripId != "" {
        SetRoutePhase(PhaseFromReports(poll, details));
      }
    }

    /** The screen-side part of the 30 s route check. */
    method RefreshRoutedOrigin()
      requires Valid()
      modifies this
      ensures Valid()
      ensures routedOrigin == RefreshedOrigin(old(routedOrigin), coords, dist)
      ensures routePhase == old(routePhase) && coords == old(coords) && intervals == old(intervals)
      ensures drawTasks == old(drawTasks) && liveDraw == old(liveDraw) && nextDraw == old(nextDraw)
      ensures modal == old(modal) && outbox == old(outbox)
      ensures navigatedTo == old(navigatedTo) && reloadRequested == old(reloadRequested) && mounted == old(mounted)
    {
      routedOrigin := RefreshedOrigin(routedOrigin, coords, dist);
    }
  
    // ------------------------------------------------------------ held trip

    /** Rehydration: with no trip held, hold the active trip the poll reports once its details are in. */
    method Rehydrate(poll: Option<DriverTripStatusResponse>, details: Option<ActiveTrip>, now: int)
      requires Valid()
      modifies socket
      ensures Valid()
      ensures socket.tripRequestData == Rehydrated(old(socket.tripRequestData), poll, details, now)
      ensures socket.showPopUp == old(socket.showPopUp) && socket.connected == old(socket.connected)
      ensures socket.socket == old(socket.socket) && socket.sent == old(socket.sent)
      ensures socket.openedFor == old(socket.openedFor) && socket.reloadRequested == old(socket.reloadRequested)
    {
      if socket.tripRequestData.None? && HasActiveTrip(poll) && details.Some? {
        socket.SetTripRequestData(Some(MapActiveTripToTripRequestData(details.value, now)));
      }
    }

    /** Leave for home once connected with no trip held and nothing left to hydrate. */
    method RedirectWhenIdle(statusLoading: bool, poll: Option<DriverTripStatusResponse>, detailsLoading: bool)
      requires Valid()
      modifies this
      ensures Valid()
      ensures navigatedTo == old(navigatedTo) +
        (if socket.connected && socket.tripRequestData.None?
            && !IsHydratingActiveTrip(socket.tripRequestData, statusLoading, poll, detailsLoading)
         then ["/"] else [])
      ensures routePhase == old(routePhase) && coords == old(coords) && routedOrigin == old(routedOrigin)
      ensures intervals == old(intervals) && drawTasks == old(drawTasks) && liveDraw == old(liveDraw) && nextDraw == old(nextDraw)
      ensures modal == old(modal) && outbox == old(outbox) && reloadRequested == old(reloadRequested) && mounted == old(mounted)
    {
      if socket.connected && socket.tripRequestData.None?
         && !IsHydratingActiveTrip(socket.tripRequestData, statusLoading, poll, detailsLoading) {
        navigatedTo := navigatedTo + ["/"];
      }
    }

    /** Clear the held trip and go home (replacing the history entry). */
    method LeaveTrip()
      requires Valid()
      modifies this, socket
      ensures Valid()
      ensures socket.tripRequestData == None && navigatedTo == old(navigatedTo) + ["/"]
      ensures socket.showPopUp == old(socket.showPopUp) && socket.connected == old(socket.connected)
      ensures socket.socket == old(socket.socket) && socket.sent == old(socket.sent)
      ensures socket.openedFor == old(socket.openedFor) && socket.reloadRequested == old(socket.reloadRequested)
      ensures routePhase == old(routePhase) && coords == old(coords) && routedOrigin == old(routedOrigin)
      ensures intervals == old(intervals) && drawTasks == old(drawTasks) && liveDraw == old(liveDraw) && nextDraw == old(nextDraw)
      ensures modal == old(modal) && outbox == old(outbox) && reloadRequested == old(reloadRequested) && mounted == old(mounted)
    {
      socket.SetTripRequestData(None);
      navigatedTo := navigatedTo + ["/"];
    }

    /** Either report says the trip is completed: clear it and go home, whether a trip is held or not. */
    method ClearIfCompleted(poll: Option<DriverTripStatusResponse>, details: Option<ActiveTrip>)
      requires Valid()
      modifies this, socket
      ensures Valid()
      ensures ReportsCompleted(poll, details) ==> socket.tripRequestData == None && navigatedTo == old(navigatedTo) + ["/"]
      ensures !ReportsCompleted(poll, details) ==> unchanged(socket) && navigatedTo == old(navigatedTo)
      ensures socket.showPopUp == old(socket.showPopUp) && socket.connected == old(socket.connected)
      ensures socket.socket == old(socket.socket) && socket.sent == old(socket.sent)
      ensures socket.openedFor == old(socket.openedFor) && socket.reloadRequested == old(socket.reloadRequested)
      ensures routePhase == old(routePhase) && coords == old(coords) && routedOrigin == old(routedOrigin)
      ensures intervals == old(intervals) && drawTasks == old(drawTasks) && liveDraw == old(liveDraw) && nextDraw == old(nextDraw)
      ensures modal == old(modal) && outbox == old(outbox) && reloadRequested == old(reloadRequested) && mounted == old(mounted)
    {
      if ReportsCompleted(poll, details) {
        LeaveTrip();
      }
    }

    /** The poll says no trip while one is held and hydration is over: clear it and go home. */
    method ClearIfClosed(statusLoading: bool, poll: Option<DriverTripStatusResponse>, detailsLoading: bool)
      requires Valid()
      modifies this, socket
      ensures Valid()
      ensures var closed := ReportsClosed(old(socket.tripRequestData),
                                          IsHydratingActiveTrip(old(socket.tripRequestData), statusLoading, poll, detailsLoading), poll);
        && (closed ==> socket.tripRequestData == None && navigatedTo == old(navigatedTo) + ["/"])
        && (!closed ==> unchanged(socket) && navigatedTo == old(navigatedTo))
      ensures socket.showPopUp == old(socket.showPopUp) && socket.connected == old(socket.connected)
      ensures socket.socket == old(socket.socket) && socket.sent == old(socket.sent)
      ensures socket.openedFor == old(socket.openedFor) && socket.reloadRequested == old(socket.reloadRequested)
      ensures routePhase == old(routePhase) && coords == old(coords) && routedOrigin == old(routedOrigin)
      ensures intervals == old(intervals) && drawTasks == old(drawTasks) && liveDraw == old(liveDraw) && nextDraw == old(nextDraw)
      ensures modal == old(modal) && outbox == old(outbox) && reloadRequested == old(reloadRequested) && mounted == old(mounted)
    {
      var hydrating := IsHydratingActiveTrip(socket.tripRequestData, statusLoading, poll, detailsLoading);
      if ReportsClosed(socket.tripRequestData, hydrating, poll) {
        LeaveTrip();
      }
    }

    // ------------------------------------------------------------ telemetry

    /** `sendSocketLocationUpdate`: send the realtime update, if one can be built. */
    method PublishSocketUpdate(details: Option<DriverDetails>, profile: Option<UserDetails>)
      requires Valid()
      modifies socket
      ensures Valid()
      ensures var wire := Transmitted(old(socket.socket),
                                      SocketUpdateFor(coords, old(socket.tripRequestData), details, profile, routePhase));
        && socket.sent == old(socket.sent) + wire
        && socket.showPopUp == (if wire != [] then false else old(socket.showPopUp))
      ensures socket.tripRequestData == old(socket.tripRequestData) && socket.connected == old(socket.connected)
      ensures socket.socket == old(socket.socket)
      ensures socket.openedFor == old(socket.openedFor) && socket.reloadRequested == old(socket.reloadRequested)
    {
      var update := SocketUpdateFor(coords, socket.tripRequestData, details, profile, routePhase);
      if update.Some? {
        socket.Send(update.value);
      }
    }

    /** `sendDriverLocationUpdate`: push the persisted snapshot, if one can be built. */
    method PersistLocation(details: Option<DriverDetails>, profile: Option<UserDetails>, now: int)
      requires Valid()
      modifies this
      ensures Valid()
      ensures var snapshot := LocationSnapshotFor(coords, details, profile, socket.tripRequestData, now);
        outbox == old(outbox).(locationPushes := old(outbox).locationPushes + (if snapshot.Some? then [snapshot.value] else []))
      ensures routePhase == old(routePhase) && coords == old(coords) && routedOrigin == old(routedOrigin)
      ensures intervals == old(intervals) && drawTasks == old(drawTasks) && liveDraw == old(liveDraw) && nextDraw == old(nextDraw)
      ensures modal == old(modal) && navigatedTo == old(navigatedTo) && reloadRequested == old(reloadRequested) && mounted == old(mounted)
    {
      var snapshot := LocationSnapshotFor(coords, details, profile, socket.tripRequestData, now);
      if snapshot.Some? {
        outbox := outbox.(locationPushes := outbox.locationPushes + [snapshot.value]);
      }
    }

    /**
     * The realtime publisher's effect: the previous 10 s interval is cleared;
     * when connected, holding a trip and with no location error, an update is
     * sent at once and a new interval registered.
     */
    method RestartSocketTelemetry(locationError: Option<string>, details: Option<DriverDetails>, profile: Option<UserDetails>)
      requires Valid() && mounted
      modifies this, socket
      ensures Valid()
      ensures var start := old(socket.connected) && old(socket.tripRequestData).Some? && locationError.None?;
        && intervals == Restart(old(intervals), SocketPublisher, start)
        && socket.sent == old(socket.sent) +
             (if start then Transmitted(old(socket.socket), SocketUpdateFor(coords, old(socket.tripRequestData), details, profile, routePhase))
              else [])
      ensures socket.tripRequestData == old(socket.tripRequestData) && socket.connected == old(socket.connected)
      ensures socket.socket == old(socket.socket)
      ensures socket.openedFor == old(socket.openedFor) && socket.reloadRequested == old(socket.reloadRequested)
      ensures routePhase == old(routePhase) && coords == old(coords) && routedOrigin == old(routedOrigin)
      ensures drawTasks == old(drawTasks) && liveDraw == old(liveDraw) && nextDraw == old(nextDraw)
      ensures modal == old(modal) && outbox == old(outbox)
      ensures navigatedTo == old(navigatedTo) && reloadRequested == old(reloadRequested) && mounted == old(mounted)
    {
      var start := socket.connected && socket.tripRequestData.Some? && locationError.None?;
      RestartKeepsValid(intervals, SocketPublisher, start);
      intervals := Restart(intervals, SocketPublisher, start);
      if start {
        PublishSocketUpdate(details, profile);
      }
    }

    /**
     * The persistence publisher's effect: the previous 15 s interval is
     * cleared; with a sample, the driver's details and a held trip, a snapshot
     * is pushed at once and a new interval registered.
     */
    method RestartLocationTelemetry(details: Option<DriverDetails>, profile: Option<UserDetails>, now: int)
      requires Valid() && mounted
      modifies this
      ensures Valid()
      ensures var start := coords.Some? && details.Some? && socket.tripRequestData.Some?;
        && intervals == Restart(old(intervals), LocationPublisher, start)
        && outbox.locationPushes == old(outbox.locationPushes) +
             (if start then [LocationSnapshotFor(coords, details, profile, socket.tripRequestData, now).value] else [])
      ensures outbox.cancels == old(outbox.cancels) && outbox.pickups == old(outbox.pickups) && outbox.dropoffs == old(outbox.dropoffs)
      ensures routePhase == old(routePhase) && coords == old(coords) && routedOrigin == old(routedOrigin)
      ensures drawTasks == old(drawTasks) && liveDraw == old(liveDraw) && nextDraw == old(nextDraw)
      ensures modal == old(modal) && navigatedTo == old(navigatedTo) && reloadRequested == old(reloadRequested) && mounted == old(mounted)
    {
      var start := coords.Some? && details.Some? && socket.tripRequestData.Some?;
      RestartKeepsValid(intervals, LocationPublisher, start);
      intervals := Restart(intervals, LocationPublisher, start);
      if start {
        PersistLocation(details, profile, now);
      }
    }

    /**
     * A window timer fires. A cleared timer never fires again; a live one runs
     * its publisher with the latest state.
     */
    method TimerFired(id: nat, details: Option<DriverDetails>, profile: Option<UserDetails>, now: int)
      requires Valid()
      modifies this, socket
      ensures Valid()
      ensures id !in intervals.table ==> unchanged(this) && unchanged(socket)
      ensures id in intervals.table && intervals.table[id] == SocketPublisher ==>
        && socket.sent == old(socket.sent) +
             Transmitted(old(socket.socket), SocketUpdateFor(coords, old(socket.tripRequestData), details, profile, routePhase))
        && routedOrigin == old(routedOrigin) && outbox == old(outbox)
      ensures id in intervals.table && intervals.table[id] == LocationPublisher ==>
        && socket.sent == old(socket.sent) && routedOrigin == old(routedOrigin)
        && outbox.locationPushes == old(outbox.locationPushes) +
             (var snapshot := LocationSnapshotFor(coords, details, profile, socket.tripRequestData, now);
              if snapshot.Some? then [snapshot.value] else [])
      ensures id in intervals.table && intervals.table[id] == RouteRefreshCheck ==>
        && socket.sent == old(socket.sent) && outbox == old(outbox)
        && routedOrigin == RefreshedOrigin(old(routedOrigin), coords, dist)
      ensures socket.tripRequestData == old(socket.tripRequestData) && socket.connected == old(socket.connected)
      ensures socket.socket == old(socket.socket)
      ensures socket.openedFor == old(socket.openedFor) && socket.reloadRequested == old(socket.reloadRequested)
      ensures routePhase == old(routePhase) && coords == old(coords) && intervals == old(intervals)
      ensures drawTasks == old(drawTasks) && liveDraw == old(liveDraw) && nextDraw == old(nextDraw)
      ensures modal == old(modal) && outbox.cancels == old(outbox.cancels)
      ensures outbox.pickups == old(outbox.pickups) && outbox.dropoffs == old(outbox.dropoffs)
      ensures navigatedTo == old(navigatedTo) && reloadRequested == old(reloadRequested) && mounted == old(mounted)
    {
      if id !in intervals.table {
        return;
      }
      match intervals.table[id]
      case SocketPublisher => PublishSocketUpdate(details, profile);
      case LocationPublisher => PersistLocation(details, profile, now);
      case RouteRefreshCheck => RefreshRoutedOrigin();
    }

    // ------------------------------------------------------------ route drawing

    /**
     * The draw effect re-running: the previous run, if it started a draw, is
     * cancelled and the overlay cleared; then, with an origin and a
     * destination, a new draw starts and becomes the live one. Every earlier
     * draw is cancelled from here on.
     */
    method StartRouteDraw()
      requires Valid() && mounted
      modifies this, overlay
      ensures Valid()
      ensures forall k :: k in old(drawTasks) ==> Cancelled(k)
      ensures var origin := RouteOrigin(routedOrigin, coords, socket.tripRequestData);
              var destination := Destination(routePhase, socket.tripRequestData);
        && (origin.Some? && destination.Some? ==>
              && drawTasks == old(drawTasks)[old(nextDraw) := AwaitingStyle(origin.value, destination.value)]
              && liveDraw == Some(old(nextDraw)) && nextDraw == old(nextDraw) + 1)
        && (!(origin.Some? && destination.Some?) ==>
              drawTasks == old(drawTasks) && liveDraw == None && nextDraw == old(nextDraw))
      ensures old(liveDraw).None? ==> unchanged(overlay)
      ensures old(liveDraw).Some? ==>
        && overlay.layers == RemoveLayer(old(overlay.layers), ROUTE_LAYER_ID)
        && overlay.sources == old(overlay.sources) - {ROUTE_SOURCE_ID}
        && overlay.pickupMarker == None && overlay.dropoffMarker == None
        && overlay.markersCreated == old(overlay.markersCreated)
      ensures routePhase == old(routePhase) && coords == old(coords) && routedOrigin == old(routedOrigin)
      ensures intervals == old(intervals) && modal == old(modal) && outbox == old(outbox)
      ensures navigatedTo == old(navigatedTo) && reloadRequested == old(reloadRequested) && mounted == old(mounted)
    {
      if liveDraw.Some? {
        overlay.ClearRoute();
      }
      var origin := RouteOrigin(routedOrigin, coords, socket.tripRequestData);
      var destination := Destination(routePhase, socket.tripRequestData);
      if origin.Some? && destination.Some? {
        drawTasks := drawTasks[nextDraw := AwaitingStyle(origin.value, destination.value)];
        liveDraw := Some(nextDraw);
        nextDraw := nextDraw + 1;
      } else {
        liveDraw := None;
      }
    }

    /** Draw `k` sees the style loaded; a cancelled draw stops before asking for a route. */
    method RouteStyleReady(k: nat)
      requires Valid() && k in drawTasks && drawTasks[k].AwaitingStyle?
      modifies this
      ensures Valid()
      ensures drawTasks == old(drawTasks)[k := StyleReady(old(drawTasks)[k], Cancelled(k))]
      ensures liveDraw == old(liveDraw) && nextDraw == old(nextDraw)
      ensures routePhase == old(routePhase) && coords == old(coords) && routedOrigin == old(routedOrigin)
      ensures intervals == old(intervals) && modal == old(modal) && outbox == old(outbox)
      ensures navigatedTo == old(navigatedTo) && reloadRequested == old(reloadRequested) && mounted == old(mounted)
    {
      drawTasks := drawTasks[k := StyleReady(drawTasks[k], Cancelled(k))];
    }

    /**
     * Draw `k`'s route call settles. A cancelled (stale) draw never touches the
     * overlay, so a superseded route can never be drawn over the live one.
     */
    method RouteSettledFor(k: nat, result: RouteResult)
      requires Valid() && k in drawTasks && drawTasks[k].AwaitingRoute?
      modifies this, overlay
      ensures Valid()
      ensures drawTasks == old(drawTasks)[k := Finished]
      ensures Cancelled(k) || result.RouteFailed? ==> unchanged(overlay)
      ensures !Cancelled(k) && result.Routed? ==>
        var task := old(drawTasks)[k];
        && overlay.sources == old(overlay.sources)[ROUTE_SOURCE_ID := result.geometry]
        && overlay.layers == WithRouteLayer(old(overlay.layers))
        && overlay.pickupMarker == None
        && (dist(task.origin, task.destination) < DROPOFF_HIDE_METERS ==>
              overlay.dropoffMarker == None && overlay.markersCreated == old(overlay.markersCreated))
        && (dist(task.origin, task.destination) >= DROPOFF_HIDE_METERS ==>
              overlay.dropoffMarker == Some(Marker(ToLngLat(task.destination)))
              && overlay.markersCreated == old(overlay.markersCreated) + (if old(overlay.dropoffMarker).None? then 1 else 0))
      ensures liveDraw == old(liveDraw) && nextDraw == old(nextDraw)
      ensures routePhase == old(routePhase) && coords == old(coords) && routedOrigin == old(routedOrigin)
      ensures intervals == old(intervals) && modal == old(modal) && outbox == old(outbox)
      ensures navigatedTo == old(navigatedTo) && reloadRequested == old(reloadRequested) && mounted == old(mounted)
    {
      overlay.RouteSettled(drawTasks[k], Cancelled(k), result, dist);
      drawTasks := drawTasks[k := Finished];
    }

    /** Unmounting: every interval cleared, the live draw cancelled and the overlay cleared. */
    method Unmount()
      requires Valid() && mounted
      modifies this, overlay
      ensures Valid() && !mounted
      ensures intervals == NoIntervals(old(intervals.nextId)) && liveDraw == None
      ensures forall k :: k in drawTasks ==> Cancelled(k)
      ensures old(liveDraw).None? ==> unchanged(overlay)
      ensures old(liveDraw).Some? ==>
        && !HasLayer(overlay.layers, ROUTE_LAYER_ID) && ROUTE_SOURCE_ID !in overlay.sources
        && overlay.pickupMarker == None && overlay.dropoffMarker == None
      ensures routePhase == old(routePhase) && coords == old(coords) && routedOrigin == old(routedOrigin)
      ensures drawTasks == old(drawTasks) && nextDraw == old(nextDraw)
      ensures modal == old(modal) && outbox == old(outbox)
      ensures navigatedTo == old(navigatedTo) && reloadRequested == old(reloadRequested)
    {
      intervals := NoIntervals(intervals.nextId);
      if liveDraw.Some? {
        overlay.ClearRoute();
      }
      liveDraw := None;
      mounted := false;
    }

    // ------------------------------------------------------------ actions

    /** "Cancel ride": a fresh modal. */
    method OpenCancelModal()
      requires Valid()
      modifies this
      ensures Valid()
      ensures modal == CancelModal(true, "", "", "")
      ensures routePhase == old(routePhase) && coords == old(coords) && routedOrigin == old(routedOrigin)
      ensures intervals == old(intervals) && drawTasks == old(drawTasks) && liveDraw == old(liveDraw) && nextDraw == old(nextDraw)
      ensures outbox == old(outbox) && navigatedTo == old(navigatedTo) && reloadRequested == old(reloadRequested) && mounted == old(mounted)
    {
      modal := CancelModal(true, "", "", "");
    }

    /** Picking a listed reason; any pick but "Other" drops the typed text. */
    method SelectCancelOption(option: string)
      requires Valid() && option in DRIVER_CANCEL_OPTIONS
      modifies this
      ensures Valid()
      ensures modal == old(modal).(reason := option, custom := if option == OTHER_REASON then old(modal).custom else "", error := "")
      ensures routePhase == old(routePhase) && coords == old(coords) && routedOrigin == old(routedOrigin)
      ensures intervals == old(intervals) && drawTasks == old(drawTasks) && liveDraw == old(liveDraw) && nextDraw == old(nextDraw)
      ensures outbox == old(outbox) && navigatedTo == old(navigatedTo) && reloadRequested == old(reloadRequested) && mounted == old(mounted)
    {
      var custom := if option == OTHER_REASON then modal.custom else "";
      modal := modal.(reason := option, custom := custom, error := "");
    }

    /** Typing the custom reason clears the message. */
    method EditCustomReason(text: string)
      requires Valid()
      modifies this
      ensures Valid()
      ensures modal == old(modal).(custom := text, error := "")
      ensures routePhase == old(routePhase) && coords == old(coords) && routedOrigin == old(routedOrigin)
      ensures intervals == old(intervals) && drawTasks == old(drawTasks) && liveDraw == old(liveDraw) && nextDraw == old(nextDraw)
      ensures outbox == old(outbox) && navigatedTo == old(navigatedTo) && reloadRequested == old(reloadRequested) && mounted == old(mounted)
    {
      modal := modal.(custom := text, error := "");
    }

    /** "Keep Ride": hide the modal, keeping what was entered. */
    method KeepRide()
      requires Valid()
      modifies this
      ensures Valid()
      ensures modal == old(modal).(shown := false)
      ensures routePhase == old(routePhase) && coords == old(coords) && routedOrigin == old(routedOrigin)
      ensures intervals == old(intervals) && drawTasks == old(drawTasks) && liveDraw == old(liveDraw) && nextDraw == old(nextDraw)
      ensures outbox == old(outbox) && navigatedTo == old(navigatedTo) && reloadRequested == old(reloadRequested) && mounted == old(mounted)
    {
      modal := modal.(shown := false);
    }

    /**
     * "Confirm Cancel", settled in one step with the request's outcome. No trip
     * held: nothing. A reason that does not validate: its message, and no
     * request. Otherwise the request is sent; a successful answer clears the
     * held trip and reloads home, anything else keeps the trip and shows the
     * failure message.
     */
    method ConfirmCancel(outcome: CancelOutcome)
      requires Valid()
      modifies this, socket
      ensures Valid()
      ensures old(socket.tripRequestData).None? ==> unchanged(this) && unchanged(socket)
      ensures old(socket.tripRequestData).Some? ==>
        var trip := old(socket.tripRequestData).value;
        var checked := ValidateCancelReason(old(modal).reason, old(modal).custom);
        var succeeded := outcome.Answered? && CancelSucceeded(outcome.body);
        && (checked.Err? ==>
              modal == old(modal).(error := checked.message) && outbox == old(outbox)
              && unchanged(socket) && reloadRequested == old(reloadRequested))
        && (checked.Ok? ==>
              outbox == old(outbox).(cancels := old(outbox).cancels + [CancelRequest(trip, checked.value, routePhase)]))
        && (checked.Ok? && succeeded ==>
              socket.tripRequestData == None && reloadRequested && modal == old(modal).(error := ""))
        && (checked.Ok? && !succeeded ==>
              unchanged(socket) && reloadRequested == old(reloadRequested)
              && modal == old(modal).(error := CANCEL_FAILED_ERROR))
      ensures socket.showPopUp == old(socket.showPopUp) && socket.connected == old(socket.connected)
      ensures socket.socket == old(socket.socket) && socket.sent == old(socket.sent)
      ensures socket.openedFor == old(socket.openedFor) && socket.reloadRequested == old(socket.reloadRequested)
      ensures routePhase == old(routePhase) && coords == old(coords) && routedOrigin == old(routedOrigin)
      ensures intervals == old(intervals) && drawTasks == old(drawTasks) && liveDraw == old(liveDraw) && nextDraw == old(nextDraw)
      ensures navigatedTo == old(navigatedTo) && mounted == old(mounted)
    {
      if socket.tripRequestData.None? {
        return;
      }
      var trip := socket.tripRequestData.value;
      var checked := ValidateCancelReason(modal.reason, modal.custom);
      if checked.Err? {
        modal := modal.(error := checked.message);
        return;
      }
      outbox := outbox.(cancels := outbox.cancels + [CancelRequest(trip, checked.value, routePhase)]);
      if outcome.Answered? && CancelSucceeded(outcome.body) {
        modal := modal.(error := "");
        socket.SetTripRequestData(None);
        reloadRequested := true;
      } else {
        modal := modal.(error := CANCEL_FAILED_ERROR);
      }
    }

    /**
     * "Confirm pickup", settled in one step: the status update is requested
     * for the held trip; once acknowledged, the screen heads for the dropoff.
     */
    method ConfirmPickup(acknowledged: bool)
      requires Valid()
      modifies this
      ensures Valid()
      ensures socket.tripRequestData.None? ==> unchanged(this)
      ensures socket.tripRequestData.Some? ==>
        var trip := socket.tripRequestData.value;
        && outbox == old(outbox).(pickups := old(outbox).pickups + [TripUpdate(trip.tripId, trip.driverId, trip.riderId)])
        && routePhase == (if acknowledged then ToDropoff else old(routePhase))
        && routedOrigin == (if routePhase != old(routePhase) then PhaseResetOrigin(old(routedOrigin), coords) else old(routedOrigin))
      ensures coords == old(coords) && intervals == old(intervals)
      ensures drawTasks == old(drawTasks) && liveDraw == old(liveDraw) && nextDraw == old(nextDraw)
      ensures modal == old(modal) && navigatedTo == old(navigatedTo) && reloadRequested == old(reloadRequested) && mounted == old(mounted)
    {
      if socket.tripRequestData.None? {
        return;
      }
      var trip := socket.tripRequestData.value;
      outbox := outbox.(pickups := outbox.pickups + [TripUpdate(trip.tripId, trip.driverId, trip.riderId)]);
      if acknowledged {
        SetRoutePhase(ToDropoff);
      }
    }

    /**
     * "Complete dropoff", settled in one step: the dropoff is requested for
     * the held trip; once acknowledged, the trip is cleared and home reloads.
     */
    method ConfirmDropoff(acknowledged: bool)
      requires Valid()
      modifies this, socket
      ensures Valid()
      ensures old(socket.tripRequestData).None? ==> unchanged(this) && unchanged(socket)
      ensures old(socket.tripRequestData).Some? ==>
        var trip := old(socket.tripRequestData).value;
        && outbox == old(outbox).(dropoffs := old(outbox).dropoffs + [TripUpdate(trip.tripId, trip.driverId, trip.riderId)])
        && (acknowledged ==> socket.tripRequestData == None && reloadRequested)
        && (!acknowledged ==> unchanged(socket) && reloadRequested == old(reloadRequested))
      ensures socket.showPopUp == old(socket.showPopUp) && socket.connected == old(socket.connected)
      ensures socket.socket == old(socket.socket) && socket.sent == old(socket.sent)
      ensures socket.openedFor == old(socket.openedFor) && socket.reloadRequested == old(socket.reloadRequested)
      ensures routePhase == old(routePhase) && coords == old(coords) && routedOrigin == old(routedOrigin)
      ensures intervals == old(intervals) && drawTasks == old(drawTasks) && liveDraw == old(liveDraw) && nextDraw == old(nextDraw)
      ensures modal == old(modal) && navigatedTo == old(navigatedTo) && mounted == old(mounted)
    {
      if socket.tripRequestData.None? {
        return;
      }
      var trip := socket.tripRequestData.value;
      outbox := outbox.(dropoffs := outbox.dropoffs + [TripUpdate(trip.tripId, trip.driverId, trip.riderId)]);
      if acknowledged {
        socket.SetTripRequestData(None);
        reloadRequested := true;
      }
    }
  }
}
