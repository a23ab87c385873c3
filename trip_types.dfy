/**
 * The records the client exchanges with the backend and the event channel:
 * the trip offer held in the socket context, the polled trip status, the
 * active-trip details, the driver's profile and vehicle, and the outbound
 * payloads. Only the shapes are here, plus the one derivation both trip
 * screens make from the polled status.
 */
module TripTypes {
  import opened Wrappers

  /** The `type` of an inbound trip offer, which is also the `type` of a rehydrated offer. */
  const TRIP_REQUEST: string := "TRIP_REQUEST"

  /** The `type` of the event that tells the driver the rider cancelled. */
  const TRIP_CANCELED_BY_RIDER: string := "TRIP_CANCELED_BY_RIDER"

  /** `[lat, lng]`, as the source's `[number, number]` tuples. */
  type LatLng = (real, real)

  /** The backend's trip status. */
  datatype TripStatus = Searching | Accepted | OnRoute | Completed | Cancelled

  /** `boolean | TripStatus`, the type of the polled `status` field. */
  datatype PolledStatus = Flag(flag: bool) | Status(tripStatus: TripStatus)

  /** The answer of the active-trip-status poll. */
  datatype DriverTripStatusResponse = DriverTripStatusResponse(tripId: string, status: PolledStatus)

  /** The details record of an active trip, fetched by trip id. */
  datatype ActiveTrip = ActiveTrip(
    tripId: string, riderId: string, driverId: string, paymentId: string,
    pickupLocation: string, dropoffLocation: string,
    pickupLat: real, pickupLng: real, dropoffLat: real, dropoffLng: real,
    estimatedDistanceKm: real, estimatedDurationMin: real, estimatedPrice: real,
    status: TripStatus)

  /**
   * The trip offer the socket context holds (`TripRequestDataI`); inbound
   * event payloads are parsed into this shape, `msgType` being their `type`.
   * An absent `trip_id` is modelled as the empty string, the other falsy value.
   */
  datatype TripRequestData = TripRequestData(
    msgType: string, driverId: string,
    dropoffLat: real, dropoffLng: real,
    estimatedDistanceKm: real, estimatedDurationMin: real, estimatedPrice: real,
    expiresAt: int,
    pickupLat: real, pickupLng: real,
    riderAge: int, riderGender: string, riderId: string, riderName: string,
    pickupLocation: string, dropoffLocation: string, tripId: string)

  /** The driver's vehicle and licence record. */
  datatype DriverDetails = DriverDetails(
    id: string, licenseNumber: string, licensePlate: string, phoneNumber: string,
    vehicleColor: string, vehicleMake: string, vehicleModel: string, vehicleType: string)

  /** The signed-in user's profile. */
  datatype UserDetails = UserDetails(
    userId: string, email: string, fullName: string, phoneNumber: string, profilePictureUrl: string)

  /** The persisted online status of the driver. */
  datatype DriverRedisStatus = Online | Offline

  /** The location snapshot pushed to the REST collaborator. */
  datatype LocationSnapshot = LocationSnapshot(
    driverId: string, name: string,
    carMake: string, carModel: string, carColor: string, carPlate: string,
    latLng: LatLng, lastUpdated: int, status: string, isOnline: bool,
    currentTrip: string, currentRider: string)

  /** The `DRIVER_LOCATION_UPDATE` event sent over the channel. */
  datatype DriverLocationUpdate = DriverLocationUpdate(
    tripId: string, riderId: string, driverId: string, driverName: string,
    driverCarColor: string, driverCarNumber: string,
    driverProfilePic: Option<string>, driverPhoneNumber: Option<string>,
    lat: real, lng: real, status: string)

  /** The body of the pickup-confirmation and dropoff-confirmation requests. */
  datatype TripUpdate = TripUpdate(tripId: string, driverId: string, riderId: string)

  /** The body of the driver's cancel request. */
  datatype CancelTripByDriver = CancelTripByDriver(
    tripId: string, driverId: string, riderId: string, reason: string, isRiderPicked: bool)

  /**
   * Whether the poll reports an active trip: its status is `true`,
   * `"accepted"` or `"on_route"`. No answer yet counts as no trip.
   */
  function HasActiveTrip(poll: Option<DriverTripStatusResponse>): (r: bool)
    ensures r <==> poll.Some? && poll.value.status in {Flag(true), Status(Accepted), Status(OnRoute)}
  {
    match poll
    case None => false
    case Some(response) =>
      match response.status
      case Flag(b) => b
      case Status(s) => s == Accepted || s == OnRoute
  }

  /** The id the trip-details query is keyed by: the polled trip id, or "" (which disables the query). */
  function ActiveTripId(poll: Option<DriverTripStatusResponse>): (id: string)
    ensures HasActiveTrip(poll) ==> id == poll.value.tripId
    ensures !HasActiveTrip(poll) ==> id == ""
  {
    if HasActiveTrip(poll) then poll.value.tripId else ""
  }
}
