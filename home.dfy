/** The home screen: the online flag and the rehydrate-and-navigate rule. */

module Home {
  import opened Wrappers
  import opened TripTypes
  import opened ActiveTripMapper
  import opened WebSocketContext

  /** The home screen's `isOnline` state and the navigations it triggers. */
  class HomeScreen {
    /** The realtime context the screen writes a rehydrated trip into. */
    const socket: WebSocketProvider
    var isOnline: bool
    /** Every client-side navigation, in order. */
    var navigatedTo: seq<string>

    /** Whether the "You're Offline" prompt shows, given the three queries' loading flags. */
    predicate ShowsOfflinePrompt(statusLoading: bool, tripStatusLoading: bool, detailsLoading: bool)
      reads this
    {
      !isOnline && !statusLoading && !tripStatusLoading && !detailsLoading
    }

    /** Mounting: offline, with nowhere navigated. */
    constructor (socket: WebSocketProvider)
      ensures this.socket == socket && !isOnline && navigatedTo == []
    {
      this.socket := socket;
      isOnline, navigatedTo := false, [];
    }

    /** The stored status arrives: "online" and "offline" set the flag; no status leaves it. */
    method OnDriverStatus(status: Option<DriverRedisStatus>)
      modifies this
      ensures status == Some(Online) ==> isOnline
      ensures status == Some(Offline) ==> !isOnline
      ensures status.None? ==> isOnline == old(isOnline)
      ensures navigatedTo == old(navigatedTo)
    {
      if status == Some(Online) {
        isOnline := true;
        return;
      }
      if status == Some(Offline) {
        isOnline := false;
      }
    }

    /**
     * Once neither trip query is loading and the poll reports an active trip
     * whose details are in: go online, hold the mapped trip (whatever was
     * held) and move to the trip screen.
     */
    method RehydrateAndNavigate(tripStatusLoading: bool, poll: Option<DriverTripStatusResponse>,
                                detailsLoading: bool, details: Option<ActiveTrip>, now: int)
      modifies this, socket
      ensures var go := !tripStatusLoading && !detailsLoading && HasActiveTrip(poll) && details.Some?;
        && (go ==>
              && isOnline
              && socket.tripRequestData == Some(MapActiveTripToTripRequestData(details.value, now))
              && navigatedTo == old(navigatedTo) + ["/on-route"])
        && (!go ==> unchanged(this) && unchanged(socket))
      ensures socket.showPopUp == old(socket.showPopUp) && socket.connected == old(socket.connected)
      ensures socket.socket == old(socket.socket) && socket.sent == old(socket.sent)
      ensures socket.openedFor == old(socket.openedFor) && socket.reloadRequested == old(socket.reloadRequested)
    {
      if tripStatusLoading || detailsLoading {
        return;
      }
      if !HasActiveTrip(poll) || details.None? {
        return;
      }
      isOnline := true;
      socket.SetTripRequestData(Some(MapActiveTripToTripRequestData(details.value, now)));
      navigatedTo := navigatedTo + ["/on-route"];
    }

    /** "Go Online": the flag is set, so the offline prompt is gone whatever is loading. */
    method GoOnline()
      modifies this
      ensures isOnline && navigatedTo == old(navigatedTo)
      ensures forall a, b, c :: !ShowsOfflinePrompt(a, b, c)
    {
      isOnline := true;
    }
  }
}
