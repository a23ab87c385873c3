/** Turning a fetched active trip back into the offer record the socket context holds. */
module ActiveTripMapper {
  import opened TripTypes

  /** How long a rehydrated offer is advertised as valid: fifteen minutes, in milliseconds. */
  const OFFER_LIFETIME_MS: int := 15 * 60 * 1000

  /**
   * The offer record for `trip` at wall-clock time `now` (milliseconds): the
   * trip's identities, points, labels and estimates unchanged, the rider fields
   * the details do not carry defaulted, and an expiry fifteen minutes ahead.
   */
  function MapActiveTripToTripRequestData(trip: ActiveTrip, now: int): (r: TripRequestData)
    ensures r.msgType == TRIP_REQUEST
    ensures r.tripId == trip.tripId && r.riderId == trip.riderId && r.driverId == trip.driverId
    ensures r.pickupLat == trip.pickupLat && r.pickupLng == trip.pickupLng
    ensures r.dropoffLat == trip.dropoffLat && r.dropoffLng == trip.dropoffLng
    ensures r.pickupLocation == trip.pickupLocation && r.dropoffLocation == trip.dropoffLocation
    ensures r.estimatedDistanceKm == trip.estimatedDistanceKm
    ensures r.estimatedDurationMin == trip.estimatedDurationMin
    ensures r.estimatedPrice == trip.estimatedPrice
    ensures r.riderAge == 0 && r.riderGender == "" && r.riderName == ""
    ensures r.expiresAt == now + 900000
  {
    TripRequestData(
      msgType := TRIP_REQUEST,
      driverId := trip.driverId,
      dropoffLat := trip.dropoffLat,
      dropoffLng := trip.dropoffLng,
      estimatedDistanceKm := trip.estimatedDistanceKm,
      estimatedDurationMin := trip.estimatedDurationMin,
      estimatedPrice := trip.estimatedPrice,
      expiresAt := now + OFFER_LIFETIME_MS,
      pickupLat := trip.pickupLat,
      pickupLng := trip.pickupLng,
      riderAge := 0,
      riderGender := "",
      riderId := trip.riderId,
      riderName := "",
      pickupLocation := trip.pickupLocation,
      dropoffLocation := trip.dropoffLocation,
      tripId := trip.tripId)
  }

  /**
   * The mapping forgets exactly the payment id and the trip status: two trips
   * give the same offer at the same time iff they agree on everything else.
   */
  lemma MapperForgetsOnlyPaymentAndStatus(a: ActiveTrip, b: ActiveTrip, now: int)
    ensures MapActiveTripToTripRequestData(a, now) == MapActiveTripToTripRequestData(b, now)
        <==> a.(paymentId := b.paymentId, status := b.status) == b
  {
    if MapActiveTripToTripRequestData(a, now) == MapActiveTripToTripRequestData(b, now) {
      var ra, rb := MapActiveTripToTripRequestData(a, now), MapActiveTripToTripRequestData(b, now);
      assert ra.tripId == rb.tripId && ra.pickupLat == rb.pickupLat;
    }
  }
}
