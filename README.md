# Driver client trip lifecycle, in Dafny

A model of the real-time trip lifecycle of the Loop driver web client. The model covers:

- the socket context, which holds the current trip offer, the offer popup flag and the connection flag;
- the trip screen, which derives the route phase, the route origin and destination, the held trip's hydration and clearing, the cancel flow and the two location publishers from that context and from the polled trip status;
- the location hooks;
- the route overlay drawn on the shared map;
- the mapper that turns a fetched active trip into an offer record, and the address formatter;
- the home screen's online and rehydration rule, and the register and login forms.

Each source file has its own module:

| module | file(s) | form |
|---|---|---|
| `Wrappers` | — | `Option`, `Result` |
| `Text` | — | JavaScript `String.prototype.trim` and the "non-empty after trim" test |
| `TripTypes` | `src/API/trip-api-types.ts`, `src/API/auth-api-types.ts`, `src/context/WebSocket.tsx` | record shapes, plus the "has active trip" rule shared by two screens |
| `ActiveTripMapper` | `src/utils/activeTripMapper.ts` | function |
| `FormatLocationName` | `src/utils/formatLocationName.ts` | function |
| `WebSocketContext` | `src/context/WebSocket.tsx` | a pure dispatch step, and the class `WebSocketProvider` that applies it in place |
| `UserLocation` | `src/hooks/useGetUserLocation.tsx` | classes `LiveLocation` and `OneShotLocation` |
| `RouteMap` | `src/utils/onRouteMap.ts` | pure layer-list functions, the class `RouteOverlay` |
| `OnRoute` | `src/page/OnRoute.tsx` | pure decision functions, the class `OnRouteScreen` |
| `Home`, `Register`, `Login` | `src/page/Home.tsx`, `Register.tsx`, `Login.tsx` | classes over the screens' state, plus pure validators |

How the React code becomes Dafny:

- **Effects and handlers.** React effects and event handlers are methods. The environment calls them when the effect's dependencies change, or when the user or a callback acts.
- **Outside values.** What the screen reads from outside is passed in as parameters. This covers the polled trip status, the fetched trip details, the driver's details and profile, the current time, the outcome of a request, and the distance function.
- **Timers.** Intervals are a table of live timer ids. A fired timer runs only while its id is in the table.
- **Asynchronous route draw.** A draw is a task that moves from "waiting for the style" to "waiting for the route" to "finished". Its cancel flag is true exactly when a later run of the draw effect has started, or the screen has unmounted.
- **Navigation and reloads.** These are recorded as a navigation log and a "reload requested" flag.

## Model

| member | source | states |
|---|---|---|
| Text.TrimStart | src/page/OnRoute.tsx:502 | the result is a suffix of the input; what is dropped is all white space; the result does not start with white space |
| Text.TrimEnd | src/page/OnRoute.tsx:502 | the result is a prefix of the input; what is dropped is all white space; the result does not end with white space |
| Text.Trim | src/page/OnRoute.tsx:502 | the result is an infix `s[a..b]` of the input with only white space before `a` and after `b`, and it neither starts nor ends with white space |
| Text.EmptyNotFilled | src/page/Register.tsx:103 | the empty string is not non-empty after trim |
| Text.TrimEmptyIff | src/page/Register.tsx:103-106 | a string trims to empty exactly when every character is white space |
| Text.TrimStartAllWhitespace | src/page/Register.tsx:103-106 | a string of white space only is trimmed away entirely |
| Text.IsFilledIff | src/page/Login.tsx:77 | "non-empty after trim" holds exactly when some character is not white space |
| Text.TrimIdempotent | src/page/OnRoute.tsx:502 | trimming twice equals trimming once |
| TripTypes.HasActiveTrip | src/page/OnRoute.tsx:87-90 | an active trip is recognised exactly when the polled status is `true`, `accepted` or `on_route`; no answer means no trip (the home screen's rule at `src/page/Home.tsx:17-20` is the same) |
| TripTypes.ActiveTripId | src/page/OnRoute.tsx:91 | the details query is keyed by the polled trip id when there is an active trip, else by `""` |
| ActiveTripMapper.MapActiveTripToTripRequestData | src/utils/activeTripMapper.ts:4-26 | type `TRIP_REQUEST`; ids, coordinates, labels and estimates copied; rider age 0, gender and name `""`; expiry = now + 900000 ms |
| ActiveTripMapper.MapperForgetsOnlyPaymentAndStatus | src/utils/activeTripMapper.ts:7-25 | two active trips give the same offer at the same instant exactly when they differ at most in payment id and status |
| FormatLocationName.FormatAddress | src/utils/formatLocationName.ts:1-14 | no address gives the loading placeholder; a complete street address gives `street, city, region`; otherwise the place name if defined (even empty), else "Unknown location" |
| FormatLocationName.FormatAddressEmptyIff | src/utils/formatLocationName.ts:9-13 | the label is empty exactly when an incomplete address carries an empty place name |
| FormatLocationName.CompleteAddressIsNotPlaceholder | src/utils/formatLocationName.ts:9-11 | a complete street address is never rendered as the loading placeholder |
| WebSocketContext.OnMessage | src/context/WebSocket.tsx:77-95 | a malformed frame or one without a trip id changes nothing; an offer replaces the held trip and raises the popup; a rider cancel clears both and asks for a reload; any other type changes nothing; the connection flag is never touched |
| WebSocketContext.NoiseImmunity | src/context/WebSocket.tsx:78-81 | any stream of heartbeats and unparseable frames leaves the context exactly as it was |
| WebSocketContext.RunKeepsConnected | src/context/WebSocket.tsx:63-95 | no inbound frame ever changes the connection flag |
| WebSocketContext.HeldTripWasOffered | src/context/WebSocket.tsx:83-86 | after any stream, the held trip is the one held before or the payload of an offer in the stream |
| WebSocketContext.RiderCancelClears | src/context/WebSocket.tsx:87-91 | after a rider cancel with no later offer, no trip and no popup are held at the end of the stream |
| WebSocketContext.AfterCancel | src/context/WebSocket.tsx:87-91 | from a cleared context, frames that are not offers keep it cleared |
| WebSocketContext.WebSocketProvider.constructor | src/context/WebSocket.tsx:42-47 | no trip, no popup, not connected, no channel |
| WebSocketContext.WebSocketProvider.Connect | src/context/WebSocket.tsx:54-61 | no channel is opened without a (non-empty) user id; otherwise a channel for that id is opened, in the connecting state |
| WebSocketContext.WebSocketProvider.Disconnect | src/context/WebSocket.tsx:97-102 | the channel is closed and forgotten; the held trip and the popup are kept |
| WebSocketContext.WebSocketProvider.OnOpen | src/context/WebSocket.tsx:63-66 | connected becomes true and the channel is open |
| WebSocketContext.WebSocketProvider.OnClose | src/context/WebSocket.tsx:68-71 | connected becomes false and the channel is closed |
| WebSocketContext.WebSocketProvider.OnError | src/context/WebSocket.tsx:73-75 | an error event changes nothing, the connection flag included |
| WebSocketContext.WebSocketProvider.HandleMessage | src/context/WebSocket.tsx:77-95 | the context becomes `OnMessage` of the old one; a rider cancel sets the reload flag |
| WebSocketContext.WebSocketProvider.Send | src/context/WebSocket.tsx:105-111 | the event is transmitted only over an open channel, which then lowers the popup; otherwise nothing is sent or queued |
| WebSocketContext.WebSocketProvider.SetTripRequestData | src/context/WebSocket.tsx:44-45 | the held trip becomes the given one; nothing else changes |
| UserLocation.ErrorState | src/hooks/useGetUserLocation.tsx:65-76 | a denial gives `blocked` and the fixed denial message; any other error gives `idle` with the error's message, or the fixed fallback when that is empty |
| UserLocation.LiveLocation.constructor | src/hooks/useGetUserLocation.tsx:36-47 | a supported platform starts `locating` with no error and one watch; otherwise `unsupported`, "Geolocation not supported", and no watch |
| UserLocation.LiveLocation.OnPosition | src/hooks/useGetUserLocation.tsx:59-64 | a sample sets the position, `ready` and no error |
| UserLocation.LiveLocation.OnPositionError | src/hooks/useGetUserLocation.tsx:65-76 | status and message by `ErrorState`; the last position is kept |
| UserLocation.LiveLocation.RequestLocationAccess | src/hooks/useGetUserLocation.tsx:49-87 | back to `locating` with no error and the position kept; the version is bumped; the previous watch is cleared before a fresh one starts, so exactly one watch is active on a supporting platform |
| UserLocation.LiveLocation.Unmount | src/hooks/useGetUserLocation.tsx:84-86 | the watch is cleared |
| UserLocation.OneShotLocation.constructor | src/hooks/useGetUserLocation.tsx:4-23 | no position yet; the single request is made only when geolocation exists |
| UserLocation.OneShotLocation.OnSuccess | src/hooks/useGetUserLocation.tsx:7-11 | the position is known from then on |
| UserLocation.OneShotLocation.OnError | src/hooks/useGetUserLocation.tsx:13-15 | an error changes nothing |
| RouteMap.ToLngLat | src/utils/onRouteMap.ts:11-14 | the pair is swapped |
| RouteMap.ToLngLatInvolutive | src/utils/onRouteMap.ts:11-14 | swapping twice gives the point back |
| RouteMap.IndexOf | src/utils/onRouteMap.ts:92-94 | the position of the first layer with the id, or the length when there is none |
| RouteMap.AddLayer | src/utils/onRouteMap.ts:92-109 | exactly the new layer is added and every old layer kept, in order: on top without `before`, else directly below the first layer called `before`, which must exist |
| RouteMap.RemoveLayer | src/utils/onRouteMap.ts:152 | no layer with the id is left, every layer with another id is kept, and a list without the id is unchanged |
| RouteMap.RemoveLayerIdempotent | src/utils/onRouteMap.ts:152 | removing twice is removing once |
| RouteMap.RemoveLayerKeepsUnique | src/utils/onRouteMap.ts:152 | removing keeps the layer ids distinct |
| RouteMap.AddLayerKeepsUnique | src/utils/onRouteMap.ts:91-110 | adding a layer with a new id keeps the ids distinct |
| RouteMap.WithRouteLayer | src/utils/onRouteMap.ts:91-110 | the route layer is present afterwards; it is added only when absent, so a repeated draw never duplicates it; every existing layer is kept in order, and the route layer goes directly under the first `waterway-label` layer when there is one, else on top |
| RouteMap.UpsertKeepsValid | src/utils/onRouteMap.ts:78-110 | upserting the route source and layer keeps the overlay invariant (unique ids, every layer's source exists, only the route layer draws the route source) |
| RouteMap.ClearKeepsValid | src/utils/onRouteMap.ts:152-153 | clearing the route layer and source keeps the overlay invariant |
| RouteMap.StyleReady | src/utils/onRouteMap.ts:71-72 | a draw cancelled by the time the style loads stops before requesting a route |
| RouteMap.RouteOverlay.constructor | src/page/OnRoute.tsx:113-114 | a basemap-only map with both marker refs empty |
| RouteMap.RouteOverlay.RouteSettled | src/utils/onRouteMap.ts:74-136 | a cancelled draw or a failed route leaves the overlay untouched; otherwise every change of a successful draw is stated: the source holds the newest geometry, the route layer is added only if absent, the origin marker is null, and the destination marker is hidden under 20 m, else placed at the swapped destination and created only when absent |
| RouteMap.RouteOverlay.ClearRoute | src/utils/onRouteMap.ts:139-159 | no route layer, no route source and both marker refs null; the basemap is kept; clearing a cleared overlay changes nothing |
| OnRoute.SeededOrigin | src/page/OnRoute.tsx:148-155 | the first sample becomes the routed origin, which is then kept |
| OnRoute.RefreshedOrigin | src/page/OnRoute.tsx:157-175 | no sample keeps the origin; no origin adopts the sample; otherwise the sample is adopted exactly when it is at least 100 m away |
| OnRoute.SmallMovesNeverReroute | src/page/OnRoute.tsx:169-171 | while every sample stays within 100 m, no number of periodic checks moves the routed origin |
| OnRoute.RoutedOriginWasSampled | src/page/OnRoute.tsx:157-175 | after any run of checks the routed origin is the initial one or one of the samples seen |
| OnRoute.PhaseResetOrigin | src/page/OnRoute.tsx:182-188 | a phase change re-routes from the latest sample when there is one |
| OnRoute.Rehydrated | src/page/OnRoute.tsx:232-237 | with no trip held, an active trip and its details, the mapped details are held; a held trip is never overwritten; otherwise nothing is held |
| OnRoute.RehydrationMatchesPush | src/page/OnRoute.tsx:232-237 | rehydrating from the poll holds the same trip as receiving the mapped details as a pushed offer |
| OnRoute.PhaseFromReports | src/page/OnRoute.tsx:285-297 | the phase is "to dropoff" exactly when the poll or the details say `on_route` |
| OnRoute.RouteOrigin | src/page/OnRoute.tsx:309-311 | routed origin, else live position, else pickup point; there is no origin only when none of the three exists |
| OnRoute.Destination | src/page/OnRoute.tsx:313 | the pickup point while heading for pickup, else the dropoff point |
| OnRoute.EndpointLabel | src/page/OnRoute.tsx:315-329 | the complete geocoded street address; else the geocoded place name; else the trip's own label; else "Unknown location" |
| OnRoute.EndpointLabelNeverLoading | src/page/OnRoute.tsx:315-329 | an endpoint label reads as the loading placeholder only if a name given for the place is that text |
| OnRoute.ValidateCancelReason | src/page/OnRoute.tsx:494-508 | no pick gives "Please select a reason."; "Other" with blank text gives "Please enter your reason."; "Other" otherwise submits the trimmed text; any other pick is submitted as is |
| OnRoute.ListedReasonsAccepted | src/page/OnRoute.tsx:33-41 | every listed reason except "Other" is accepted as picked; "Other" is accepted exactly when its text has a non-white-space character |
| OnRoute.SubmittedOtherReasonIsClean | src/page/OnRoute.tsx:501-503 | a submitted custom reason is non-empty, has no surrounding white space and is a fixed point of trim |
| OnRoute.CancelRequest | src/page/OnRoute.tsx:513-519 | the held trip's ids and the reason; the rider counts as not picked up exactly in the pickup phase |
| OnRoute.CancelSucceeded | src/page/OnRoute.tsx:521-523 | a missing body succeeds; `success: false` fails; `success: true` succeeds; otherwise success exactly when `status` is not `false` |
| OnRoute.SocketTripStatus | src/page/OnRoute.tsx:352 | `assigned` while heading for pickup, else `on_route` |
| OnRoute.LocationSnapshotFor | src/page/OnRoute.tsx:206-230 | no snapshot unless a sample, the driver's details and a held trip all exist; then a busy, online snapshot at the sample, linked to the trip and the rider |
| OnRoute.SocketUpdateFor | src/page/OnRoute.tsx:331-354 | no update unless a sample, a held trip and the driver's details all exist; then the trip's ids (driver id falling back to the details' id), the vehicle, the position and the phase's status |
| OnRoute.AtMostOneInterval | src/page/OnRoute.tsx:356-396 | while a ref tracks its publisher, two live timers of that publisher are the same timer |
| OnRoute.ClearIntervalLeavesNone | src/page/OnRoute.tsx:357-360 | clearing the interval a ref names leaves no timer of that publisher, and other publishers' refs keep tracking |
| OnRoute.WithRef | src/page/OnRoute.tsx:359 | only the named publisher's ref changes |
| OnRoute.NoIntervals | src/page/OnRoute.tsx:369-374 | no timers and no refs |
| OnRoute.Restart | src/page/OnRoute.tsx:356-375 | the previous interval is gone; a new one exists exactly when the effect's conditions hold; other publishers' timers and refs are untouched |
| OnRoute.RestartKeepsValid | src/page/OnRoute.tsx:377-396 | a restart keeps every ref tracking its publisher's only timer, so no publisher ever runs twice |
| OnRoute.RegisterTracks | src/page/OnRoute.tsx:365-367 | registering a fresh timer makes the ref track it and keeps the other refs tracking |
| OnRoute.Transmitted | src/context/WebSocket.tsx:105-111 | an update goes on the wire exactly when there is one and the channel is open |
| OnRoute.OnRouteScreen.constructor | src/page/OnRoute.tsx:82-84 | heading for pickup with no samples, only the 30 s route check registered, no draws, a closed empty modal, and no requests |
| OnRoute.OnRouteScreen.OnCoords | src/page/OnRoute.tsx:140-155 | the latest sample is stored, and it seeds the routed origin when there is none |
| OnRoute.OnRouteScreen.SetRoutePhase | src/page/OnRoute.tsx:182-188 | the phase is set, and only a real change resets the routed origin |
| OnRoute.OnRouteScreen.SyncRoutePhase | src/page/OnRoute.tsx:285-297 | with a held trip id, the phase follows the reports; without one, nothing changes |
| OnRoute.OnRouteScreen.RefreshRoutedOrigin | src/page/OnRoute.tsx:158-175 | the routed origin follows `RefreshedOrigin` on the latest sample |
| OnRoute.OnRouteScreen.Rehydrate | src/page/OnRoute.tsx:232-237 | the held trip becomes `Rehydrated` of the old one; nothing else in the context changes |
| OnRoute.OnRouteScreen.RedirectWhenIdle | src/page/OnRoute.tsx:239-247 | connected, with no trip held and no hydration in progress, the screen goes home; otherwise it stays |
| OnRoute.OnRouteScreen.LeaveTrip | src/page/OnRoute.tsx:254-257 | the branch the completed and closed effects share: the held trip is cleared and the screen goes home; nothing else on the screen changes |
| OnRoute.OnRouteScreen.ClearIfCompleted | src/page/OnRoute.tsx:249-265 | when either report says completed, the held trip is cleared and the screen goes home; otherwise nothing changes |
| OnRoute.OnRouteScreen.ClearIfClosed | src/page/OnRoute.tsx:267-283 | the held trip is cleared exactly when the poll says `false` while a trip is held and hydration is over |
| OnRoute.OnRouteScreen.PublishSocketUpdate | src/page/OnRoute.tsx:331-354 | what is sent is `SocketUpdateFor` over an open channel, and nothing otherwise |
| OnRoute.OnRouteScreen.PersistLocation | src/page/OnRoute.tsx:206-230 | the pushed snapshot is `LocationSnapshotFor`, if any |
| OnRoute.OnRouteScreen.RestartSocketTelemetry | src/page/OnRoute.tsx:356-375 | the 10 s interval is restarted exactly when connected, holding a trip and free of location errors, with one immediate send; the interval table follows `Restart` |
| OnRoute.OnRouteScreen.RestartLocationTelemetry | src/page/OnRoute.tsx:377-396 | the 15 s interval is restarted exactly when a sample, the driver's details and a held trip exist, with one immediate push |
| OnRoute.OnRouteScreen.TimerFired | src/page/OnRoute.tsx:157-180 | a cleared timer does nothing; a live one runs its own publisher, or the route check, with the latest state |
| OnRoute.OnRouteScreen.StartRouteDraw | src/page/OnRoute.tsx:443-474 | the previous run's draw is cancelled and the overlay cleared; a new draw from origin to destination becomes the only live one when both exist; every earlier draw is cancelled |
| OnRoute.OnRouteScreen.RouteStyleReady | src/page/OnRoute.tsx:452-459 | the draw moves on by `StyleReady` with its cancel flag |
| OnRoute.OnRouteScreen.RouteSettledFor | src/page/OnRoute.tsx:452-459 | a stale (cancelled) draw or a failed route never touches the overlay; the live draw's successful route is drawn as `RouteSettled` states, a destination marker being created only when none existed |
| OnRoute.OnRouteScreen.Unmount | src/page/OnRoute.tsx:177-179 | every interval is cleared, the live draw is cancelled and the overlay is cleared |
| OnRoute.OnRouteScreen.OpenCancelModal | src/page/OnRoute.tsx:487-492 | the modal opens with no pick, no text and no message |
| OnRoute.OnRouteScreen.SelectCancelOption | src/page/OnRoute.tsx:750-756 | the pick is stored, a pick other than "Other" drops the typed text, and the message is cleared |
| OnRoute.OnRouteScreen.EditCustomReason | src/page/OnRoute.tsx:779-782 | the text is stored and the message is cleared |
| OnRoute.OnRouteScreen.KeepRide | src/page/OnRoute.tsx:799 | the modal hides and keeps its contents |
| OnRoute.OnRouteScreen.ConfirmCancel | src/page/OnRoute.tsx:494-537 | with no trip held, nothing happens; a reason that fails validation shows its message and sends no request; otherwise the request is sent; success clears the trip and reloads home; failure or an exception keeps the trip and shows "Unable to cancel ride. Please try again." |
| OnRoute.OnRouteScreen.ConfirmPickup | src/page/OnRoute.tsx:670-690 | the status update is requested for the held trip; only an acknowledged update moves to the dropoff phase |
| OnRoute.OnRouteScreen.ConfirmDropoff | src/page/OnRoute.tsx:698-719 | the dropoff is requested for the held trip; only an acknowledged request clears the trip and reloads home |
| Home.HomeScreen.constructor | src/page/Home.tsx:12 | the screen starts offline |
| Home.HomeScreen.OnDriverStatus | src/page/Home.tsx:25-35 | `online` sets the flag, `offline` clears it, no status leaves it |
| Home.HomeScreen.RehydrateAndNavigate | src/page/Home.tsx:37-51 | no effect while either trip query loads; with an active trip and its details, the screen goes online, holds the mapped trip and moves to `/on-route` |
| Home.HomeScreen.GoOnline | src/page/Home.tsx:53-63 | online, so the offline prompt cannot show whatever is loading |
| Register.WithAccountValue | src/page/Register.tsx:132-144 | only the named first-slide field changes |
| Register.WithVehicleValue | src/page/Register.tsx:146-158 | only the named second-slide field changes |
| Register.WithAccountValueSame | src/page/Register.tsx:132-144 | writing back a field's own value changes nothing |
| Register.UserDetailsValidIff | src/page/Register.tsx:99-108 | the first slide is complete exactly when each of its four fields has a non-white-space character |
| Register.DriverDetailsValidIff | src/page/Register.tsx:110-130 | the second slide is complete exactly when each of its seven fields has a non-white-space character |
| Register.BlankAccountIncomplete | src/page/Register.tsx:99-108 | any first-slide field that is blank after trim fails the first-slide check |
| Register.BlankVehicleIncomplete | src/page/Register.tsx:110-130 | any second-slide field that is blank after trim fails the second-slide check |
| Register.InitialFormIncomplete | src/page/Register.tsx:41-57 | the initial form fails both slide checks, so neither "Continue" nor submit accepts it as it first appears |
| Register.RegisterForm.constructor | src/page/Register.tsx:91-97 | slide 1, no message, all fields empty, no register call |
| Register.RegisterForm.UpdateUserDetails | src/page/Register.tsx:132-144 | the named first-slide field changes, the second slide is untouched, and the message clears |
| Register.RegisterForm.UpdateDriverDetails | src/page/Register.tsx:146-158 | the named second-slide field changes, the first slide is untouched, and the message clears |
| Register.RegisterForm.GoToDriverSlide | src/page/Register.tsx:160-168 | an incomplete first slide sets the message on slide 1; a complete one moves to slide 2 and clears the message |
| Register.RegisterForm.HandleSubmit | src/page/Register.tsx:170-186 | an incomplete second slide sets the message and makes no call; otherwise the payload is sent, complete on both slides; success goes to `/login`; an error shows its message, or "Registration failed." |
| Register.RegisterForm.Back | src/page/Register.tsx:416-419 | slide 1, with the message cleared |
| Login.LoginForm.constructor | src/page/Login.tsx:59-61 | email, password and message empty |
| Login.LoginForm.HandleLogin | src/page/Login.tsx:74-84 | a blank email or password sets "Email and password are required." and makes no request; otherwise the message clears and the untrimmed values are sent |
| Login.LoginForm.SetEmail | src/page/Login.tsx:139-142 | the email is set and the message clears |
| Login.LoginForm.SetPassword | src/page/Login.tsx:150-153 | the password is set and the message clears |
| Login.LoginGuardIff | src/page/Login.tsx:77 | a request goes out exactly when both fields hold a non-white-space character |

The live location hook starts as `unsupported` on a platform without geolocation. In `src/hooks/useGetUserLocation.tsx:49-56`, however, `requestLocationAccess` always sets `locating` with no error, and the effect that would start a watch returns early when geolocation is missing. On such a platform the hook therefore reads `locating` after a request, with no watch running. `UserLocation.LiveLocation.RequestLocationAccess` follows the code.

## Left out

- Great-circle distance (`getDistanceMeters`): floating-point trigonometry. Distance is a function parameter; only the 100 m and 20 m threshold decisions are modelled.
- Network calls: the routing service, reverse geocoding, the trip status poll and the trip-details fetch, and the pickup, dropoff, cancel, register, login and location-persistence calls. Their results are parameters, and the requests made are recorded in logs.
- Query-cache invalidations after pickup, dropoff, cancel and clearing. They only refetch the poll, whose new answer reaches the model as a parameter.
- OnRoute.OnRouteScreen.ConfirmCancel, ConfirmPickup, ConfirmDropoff, Register.RegisterForm.HandleSubmit: each is settled in one step with its outcome. The pending flags that disable buttons, and events interleaved during the request, are not modelled.
- Timing: the 10 s, 15 s and 30 s periods are not modelled. Timers are ids in a table, and the environment decides when one fires.
- Timing of the location publisher on the live map screen: this screen is not part of this model.
- Navigation and reloads: these are only logged.
- Mapbox rendering: the driver's car marker, `fitBounds`, disabling rotation, `ensureMap`/`resize` and waiting for the style. The map is taken to exist whenever the trip screen draws.
- The `routeSourceId`/`routeLayerId` override parameters of the draw and clear functions: the screen always uses the defaults.
- JSON parsing: an inbound frame is either unparseable or already a trip record.
- Socket close events: they are taken as coming from the current channel. A late `onclose` from a replaced channel is not distinguished.
- Socket reconnects, offer expiry enforcement, and the accept and reject offer flow: none of these appears in the code.
- The login screen's redirect once authenticated.
- Rendering: the "Loading…" guard and the location notice.
- TripTypes: records are reduced to the fields the core reads. Numbers are reals, and `expires_at`, now and ages are integers.
- RouteMap.RemoveLayer: the contract states which layers remain, not that they keep their order; the definition keeps it, but no lemma states it.
- Register.IsUserDetailsValid and Register.IsDriverDetailsValid: each is stated as a check over an enumeration of its fields, not as the source's literal conjunction. `UserDetailsValidIff` and `DriverDetailsValidIff` relate each to its fields' contents.
