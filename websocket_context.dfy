/**
 * The socket context: one event channel per signed-in driver, the trip offer
 * it holds, the offer popup flag and the connection flag. Inbound events are
 * dispatched by `OnMessage`, a step on the part of the context they can
 * change; the provider object applies it in place.
 */
module WebSocketContext {
  import opened Wrappers
  import opened TripTypes

  /** An inbound frame: a payload that does not parse as JSON, or the parsed record. */
  datatype Frame = Malformed | Parsed(data: TripRequestData)

  /** What the context exposes to the screens, apart from `send`. */
  datatype Session = Session(tripRequestData: Option<TripRequestData>, showPopUp: bool, connected: bool)

  /** The context after an inbound frame, and whether the handler asked for a full reload of the app. */
  datatype Dispatched = Dispatched(next: Session, reload: bool)

  /** Frames the handler drops: unparseable ones, and those without a (truthy) trip id (heartbeats). */
  predicate IsNoise(f: Frame) {
    f.Malformed? || f.data.tripId == ""
  }

  predicate IsOffer(f: Frame) {
    !IsNoise(f) && f.data.msgType == TRIP_REQUEST
  }

  predicate IsRiderCancel(f: Frame) {
    !IsNoise(f) && f.data.msgType == TRIP_CANCELED_BY_RIDER
  }

  /**
   * The inbound-message handler. Noise and unknown event types change nothing;
   * an offer replaces the held trip and raises the popup; a rider cancel clears
   * both, whatever was held, and reloads. The connection flag is never touched.
   */
  function OnMessage(s: Session, f: Frame): (r: Dispatched)
    ensures r.next.connected == s.connected
    ensures IsNoise(f) ==> r == Dispatched(s, false)
    ensures IsOffer(f) ==> r == Dispatched(s.(tripRequestData := Some(f.data), showPopUp := true), false)
    ensures IsRiderCancel(f) ==> r == Dispatched(Session(None, false, s.connected), true)
    ensures !IsOffer(f) && !IsRiderCancel(f) ==> r == Dispatched(s, false)
  {
    match f
    case Malformed => Dispatched(s, false)
    case Parsed(data) =>
      if data.tripId == "" then Dispatched(s, false)
      else if data.msgType == TRIP_REQUEST then
        Dispatched(s.(tripRequestData := Some(data), showPopUp := true), false)
      else if data.msgType == TRIP_CANCELED_BY_RIDER then
        Dispatched(s.(tripRequestData := None, showPopUp := false), true)
      else Dispatched(s, false)
  }

  /** The context after the frames `fs` arrive in order. */
  function Run(s: Session, fs: seq<Frame>): Session
    decreases |fs|
  {
    if fs == [] then s else Run(OnMessage(s, fs[0]).next, fs[1..])
  }

  /** A stream of heartbeats and garbage leaves the context exactly as it was. */
  lemma {:induction false} NoiseImmunity(s: Session, fs: seq<Frame>)
    requires forall i :: 0 <= i < |fs| ==> IsNoise(fs[i])
    ensures Run(s, fs) == s
    decreases |fs|
  {
    if fs != [] {
      NoiseImmunity(s, fs[1..]);
    }
  }

  /** No inbound frame ever changes the connection flag. */
  lemma {:induction false} RunKeepsConnected(s: Session, fs: seq<Frame>)
    ensures Run(s, fs).connected == s.connected
    decreases |fs|
  {
    if fs != [] {
      RunKeepsConnected(OnMessage(s, fs[0]).next, fs[1..]);
    }
  }

  /**
   * At most one offer is held, and it is never invented: after a stream of
   * frames the held trip is the one held before, or the payload of an offer
   * in the stream.
   */
  lemma {:induction false} HeldTripWasOffered(s: Session, fs: seq<Frame>)
    requires Run(s, fs).tripRequestData.Some?
    ensures Run(s, fs).tripRequestData == s.tripRequestData
         || exists i :: 0 <= i < |fs| && IsOffer(fs[i]) && Run(s, fs).tripRequestData == Some(fs[i].data)
    decreases |fs|
  {
    if fs != [] {
      var s' := OnMessage(s, fs[0]).next;
      HeldTripWasOffered(s', fs[1..]);
      var held := Run(s, fs).tripRequestData;
      if held != s'.tripRequestData {
        var i :| 0 <= i < |fs[1..]| && IsOffer(fs[1..][i]) && held == Some(fs[1..][i].data);
        assert fs[i + 1] == fs[1..][i];
      } else if held != s.tripRequestData {
        assert IsOffer(fs[0]);
      }
    }
  }

  /**
   * A rider cancel wins over everything before it: if no offer arrives after
   * it, the driver holds no trip and no popup at the end of the stream.
   */
  lemma {:induction false} RiderCancelClears(s: Session, fs: seq<Frame>, k: nat)
    requires k < |fs| && IsRiderCancel(fs[k])
    requires forall j :: k < j < |fs| ==> !IsOffer(fs[j])
    ensures Run(s, fs).tripRequestData == None && !Run(s, fs).showPopUp
    decreases |fs|
  {
    if k == 0 {
      AfterCancel(OnMessage(s, fs[0]).next, fs[1..]);
    } else {
      RiderCancelClears(OnMessage(s, fs[0]).next, fs[1..], k - 1);
    }
  }

  /** From a cleared context, frames that are not offers keep it cleared. */
  lemma {:induction false} AfterCancel(s: Session, fs: seq<Frame>)
    requires s.tripRequestData == None && !s.showPopUp
    requires forall j :: 0 <= j < |fs| ==> !IsOffer(fs[j])
    ensures Run(s, fs).tripRequestData == None && !Run(s, fs).showPopUp
    decreases |fs|
  {
    if fs != [] {
      AfterCancel(OnMessage(s, fs[0]).next, fs[1..]);
    }
  }

  /** The browser's `WebSocket.readyState`. */
  datatype ReadyState = Connecting | Open | Closing | Closed

  /** The channel `wsRef.current` points at: opened for one driver id, in some ready state. */
  datatype Socket = Socket(driverId: string, readyState: ReadyState)

  /** The provider's state, updated in place by its handlers. */
  class WebSocketProvider {
    var tripRequestData: Option<TripRequestData>
    var showPopUp: bool
    var connected: bool
    /** `wsRef.current`. */
    var socket: Option<Socket>
    /** Every event handed to `ws.send`, in order. */
    var sent: seq<DriverLocationUpdate>
    /** The driver ids a channel was opened for, in order. */
    var openedFor: seq<string>
    /** Set once a handler has called `window.location.assign("/")`. */
    var reloadRequested: bool

    /** The part of the state an inbound frame can change. */
    function Snapshot(): Session
      reads this
    {
      Session(tripRequestData, showPopUp, connected)
    }

    constructor ()
      ensures tripRequestData == None && !showPopUp && !connected
      ensures socket == None && sent == [] && openedFor == [] && !reloadRequested
    {
      tripRequestData, showPopUp, connected := None, false, false;
      socket, sent, openedFor, reloadRequested := None, [], [], false;
    }

    /**
     * The effect run when the signed-in user's id changes: no channel without
     * a (truthy) user id; otherwise a new channel for that driver.
     */
    method Connect(userId: Option<string>)
      modifies this
      ensures userId.None? || userId.value == "" ==> unchanged(this)
      ensures userId.Some? && userId.value != "" ==>
        socket == Some(Socket(userId.value, Connecting)) && openedFor == old(openedFor) + [userId.value]
      ensures Snapshot() == old(Snapshot()) && sent == old(sent) && reloadRequested == old(reloadRequested)
    {
      if userId.None? || userId.value == "" {
        return;
      }
      socket := Some(Socket(userId.value, Connecting));
      openedFor := openedFor + [userId.value];
    }

    /** That effect's cleanup: close the channel and forget it; the held trip and popup are kept. */
    method Disconnect()
      modifies this
      ensures socket == None
      ensures Snapshot() == old(Snapshot()) && sent == old(sent) && openedFor == old(openedFor)
      ensures reloadRequested == old(reloadRequested)
    {
      socket := None;
    }

    /** `ws.onopen`: the channel is open and the context says so. */
    method OnOpen()
      modifies this
      ensures connected
      ensures socket == (if old(socket).Some? then Some(old(socket).value.(readyState := Open)) else None)
      ensures tripRequestData == old(tripRequestData) && showPopUp == old(showPopUp)
      ensures sent == old(sent) && openedFor == old(openedFor) && reloadRequested == old(reloadRequested)
    {
      connected := true;
      if socket.Some? {
        socket := Some(socket.value.(readyState := Open));
      }
    }

    /** `ws.onclose`: the channel is closed and the context says so; nothing reconnects. */
    method OnClose()
      modifies this
      ensures !connected
      ensures socket == (if old(socket).Some? then Some(old(socket).value.(readyState := Closed)) else None)
      ensures tripRequestData == old(tripRequestData) && showPopUp == old(showPopUp)
      ensures sent == old(sent) && openedFor == old(openedFor) && reloadRequested == old(reloadRequested)
    {
      connected := false;
      if socket.Some? {
        socket := Some(socket.value.(readyState := Closed));
      }
    }

    /** `ws.onerror` only logs: the connection flag, the channel and the held trip stay as they are. */
    method OnError()
      modifies this
      ensures unchanged(this)
    {
    }

    /** `ws.onmessage`: apply `OnMessage`; a rider cancel also requests the reload. */
    method HandleMessage(f: Frame)
      modifies this
      ensures Snapshot() == OnMessage(old(Snapshot()), f).next
      ensures reloadRequested == (old(reloadRequested) || OnMessage(old(Snapshot()), f).reload)
      ensures socket == old(socket) && sent == old(sent) && openedFor == old(openedFor)
    {
      var r := OnMessage(Snapshot(), f);
      tripRequestData, showPopUp, connected := r.next.tripRequestData, r.next.showPopUp, r.next.connected;
      if r.reload {
        reloadRequested := true;
      }
    }

    /**
     * `send`: transmit only over an open channel, and then lower the popup;
     * otherwise drop the event, queueing nothing.
     */
    method Send(data: DriverLocationUpdate)
      modifies this
      ensures socket.Some? && socket.value.readyState == Open ==> sent == old(sent) + [data] && !showPopUp
      ensures !(socket.Some? && socket.value.readyState == Open) ==> sent == old(sent) && showPopUp == old(showPopUp)
      ensures socket == old(socket) && tripRequestData == old(tripRequestData) && connected == old(connected)
      ensures openedFor == old(openedFor) && reloadRequested == old(reloadRequested)
    {
      if socket.Some? && socket.value.readyState == Open {
        sent := sent + [data];
        showPopUp := false;
      }
    }

    /** `setTripRequestData`, which the screens use to hydrate or clear the held trip. */
    method SetTripRequestData(t: Option<TripRequestData>)
      modifies this
      ensures tripRequestData == t
      ensures showPopUp == old(showPopUp) && connected == old(connected) && socket == old(socket)
      ensures sent == old(sent) && openedFor == old(openedFor) && reloadRequested == old(reloadRequested)
    {
      tripRequestData := t;
    }
  }
}
