/**
 * The route overlay on the shared map: one GeoJSON source and one line layer
 * for the active route, plus the two marker refs of the trip screen. Drawing
 * is asynchronous, with a cancel check after each of its two waits.
 */
module RouteMap {
  import opened Wrappers
  import opened TripTypes

  const ROUTE_SOURCE_ID: string := "driver-active-route"
  const ROUTE_LAYER_ID: string := "driver-active-route-line"
  /** The basemap layer the route line is slipped under, when the style has it. */
  const WATERWAY_LABEL_LAYER_ID: string := "waterway-label"
  /** Below this origin–destination distance the destination marker is hidden. */
  const DROPOFF_HIDE_METERS: real := 20.0

  /** The map library wants `[lng, lat]`; the client keeps `[lat, lng]`. */
  function ToLngLat(p: LatLng): (q: LatLng)
    ensures q.0 == p.1 && q.1 == p.0
  {
    (p.1, p.0)
  }

  /** Swapping twice gives the point back. */
  lemma ToLngLatInvolutive(p: LatLng)
    ensures ToLngLat(ToLngLat(p)) == p
  {
  }

  /** Great-circle distance in metres; its floating-point formula is not modelled. */
  type DistanceMeters = (LatLng, LatLng) -> real

  /** A route's line geometry, as the routing service returns it. */
  datatype Geometry = LineString(coordinates: seq<LatLng>)

  /** A style layer: its id and the id of the source it draws. */
  datatype Layer = Layer(id: string, source: string)

  /** A marker placed on the map at a `[lng, lat]` position. */
  datatype Marker = Marker(lngLat: LatLng)

  predicate HasLayer(layers: seq<Layer>, id: string) {
    exists i :: 0 <= i < |layers| && layers[i].id == id
  }

  predicate UniqueIds(layers: seq<Layer>) {
    forall i, j :: 0 <= i < j < |layers| ==> layers[i].id != layers[j].id
  }

  /** The position of the first layer called `id`, or the length when there is none. */
  function IndexOf(layers: seq<Layer>, id: string): (k: nat)
    ensures k <= |layers|
    ensures k < |layers| ==> layers[k].id == id
    ensures forall j :: 0 <= j < k ==> layers[j].id != id
    decreases |layers|
  {
    if layers == [] then 0
    else if layers[0].id == id then 0
    else 1 + IndexOf(layers[1..], id)
  }

  /**
   * `addLayer(layer, before)`: the new layer goes directly below the first
   * layer called `before`, or on top when no `before` is given. The map
   * library refuses a `before` it does not have, so one must exist.
   */
  function AddLayer(layers: seq<Layer>, layer: Layer, before: Option<string>): (r: seq<Layer>)
    requires before.None? || HasLayer(layers, before.value)
    ensures |r| == |layers| + 1
    ensures multiset(r) == multiset(layers) + multiset{layer}
    ensures before.None? ==> r == layers + [layer]
    ensures before.Some? ==>
      var k := IndexOf(layers, before.value);
      && k < |layers| && layers[k].id == before.value
      && r[..k] == layers[..k] && r[k] == layer && r[k + 1..] == layers[k..]
  {
    var k := if before.Some? then IndexOf(layers, before.value) else |layers|;
    assert layers == layers[..k] + layers[k..];
    var r := layers[..k] + [layer] + layers[k..];
    assert r[..k] == layers[..k] && r[k + 1..] == layers[k..];
    r
  }

  /** `removeLayer(id)`: exactly the layers with another id stay. */
  function RemoveLayer(layers: seq<Layer>, id: string): (r: seq<Layer>)
    ensures !HasLayer(r, id)
    ensures forall l :: l in layers && l.id != id <==> l in r
    ensures !HasLayer(layers, id) ==> r == layers
    decreases |layers|
  {
    if layers == [] then []
    else if layers[0].id == id then RemoveLayer(layers[1..], id)
    else [layers[0]] + RemoveLayer(layers[1..], id)
  }

  /** Removing a layer that is gone changes nothing, so removing twice is removing once. */
  lemma RemoveLayerIdempotent(layers: seq<Layer>, id: string)
    ensures RemoveLayer(RemoveLayer(layers, id), id) == RemoveLayer(layers, id)
  {
  }

  /** Removing layers keeps the ids distinct. */
  lemma {:induction false} RemoveLayerKeepsUnique(layers: seq<Layer>, id: string)
    requires UniqueIds(layers)
    ensures UniqueIds(RemoveLayer(layers, id))
    decreases |layers|
  {
    if layers != [] {
      RemoveLayerKeepsUnique(layers[1..], id);
      var rest := RemoveLayer(layers[1..], id);
      if layers[0].id != id {
        forall l | l in rest ensures l.id != layers[0].id {
          var j :| 1 <= j < |layers| && layers[j] == l;
        }
      }
    }
  }

  /** Adding a layer whose id is new keeps the ids distinct. */
  lemma AddLayerKeepsUnique(layers: seq<Layer>, layer: Layer, before: Option<string>)
    requires before.None? || HasLayer(layers, before.value)
    requires UniqueIds(layers) && !HasLayer(layers, layer.id)
    ensures UniqueIds(AddLayer(layers, layer, before))
  {
    var k := if before.Some? then IndexOf(layers, before.value) else |layers|;
    var r := AddLayer(layers, layer, before);
    assert r == layers[..k] + [layer] + layers[k..];
    forall i, j | 0 <= i < j < |r| ensures r[i].id != r[j].id {
      if i < k && j > k {
        assert r[j] == layers[j - 1];
      } else if i > k {
        assert r[i] == layers[i - 1] && r[j] == layers[j - 1];
      }
    }
  }

  /**
   * The overlay invariant on values: layer ids are distinct, every layer draws
   * an existing source, and only the route layer draws the route source.
   */
  predicate ValidStyle(sources: map<string, Geometry>, layers: seq<Layer>) {
    && UniqueIds(layers)
    && (forall l :: l in layers ==> l.source in sources)
    && (forall l :: l in layers && l.source == ROUTE_SOURCE_ID ==> l.id == ROUTE_LAYER_ID)
  }

  /**
   * The route layer, added only when absent: directly under the first
   * waterway-label layer when the style has one, else on top; every layer
   * already there is kept.
   */
  function WithRouteLayer(layers: seq<Layer>): (r: seq<Layer>)
    ensures HasLayer(r, ROUTE_LAYER_ID)
    ensures HasLayer(layers, ROUTE_LAYER_ID) ==> r == layers
    ensures !HasLayer(layers, ROUTE_LAYER_ID) ==>
      multiset(r) == multiset(layers) + multiset{Layer(ROUTE_LAYER_ID, ROUTE_SOURCE_ID)}
    ensures !HasLayer(layers, ROUTE_LAYER_ID) && !HasLayer(layers, WATERWAY_LABEL_LAYER_ID) ==>
      r == layers + [Layer(ROUTE_LAYER_ID, ROUTE_SOURCE_ID)]
    ensures !HasLayer(layers, ROUTE_LAYER_ID) && HasLayer(layers, WATERWAY_LABEL_LAYER_ID) ==>
      var k := IndexOf(layers, WATERWAY_LABEL_LAYER_ID);
      && k < |layers| && layers[k].id == WATERWAY_LABEL_LAYER_ID
      && r == layers[..k] + [Layer(ROUTE_LAYER_ID, ROUTE_SOURCE_ID)] + layers[k..]
    ensures forall l :: l in r ==> l in layers || l == Layer(ROUTE_LAYER_ID, ROUTE_SOURCE_ID)
  {
    if HasLayer(layers, ROUTE_LAYER_ID) then layers
    else
      var route := Layer(ROUTE_LAYER_ID, ROUTE_SOURCE_ID);
      var before := if HasLayer(layers, WATERWAY_LABEL_LAYER_ID) then Some(WATERWAY_LABEL_LAYER_ID) else None;
      var r := AddLayer(layers, route, before);
      assert route in multiset(r);
      assert forall l :: l in r ==> l in multiset(r);
      if before.Some? then
        var k := IndexOf(layers, WATERWAY_LABEL_LAYER_ID);
        assert r == r[..k] + [r[k]] + r[k + 1..];
        r
      else r
  }

  /** Upserting the route source and layer keeps the style valid and never duplicates the layer. */
  lemma UpsertKeepsValid(sources: map<string, Geometry>, layers: seq<Layer>, g: Geometry)
    requires ValidStyle(sources, layers)
    ensures ValidStyle(sources[ROUTE_SOURCE_ID := g], WithRouteLayer(layers))
  {
    if !HasLayer(layers, ROUTE_LAYER_ID) {
      var before := if HasLayer(layers, WATERWAY_LABEL_LAYER_ID) then Some(WATERWAY_LABEL_LAYER_ID) else None;
      AddLayerKeepsUnique(layers, Layer(ROUTE_LAYER_ID, ROUTE_SOURCE_ID), before);
    }
  }

  /** Clearing the route source and layer keeps the style valid. */
  lemma ClearKeepsValid(sources: map<string, Geometry>, layers: seq<Layer>)
    requires ValidStyle(sources, layers)
    ensures ValidStyle(sources - {ROUTE_SOURCE_ID}, RemoveLayer(layers, ROUTE_LAYER_ID))
  {
    RemoveLayerKeepsUnique(layers, ROUTE_LAYER_ID);
  }

  /** Where an asynchronous draw stands: waiting for the style, waiting for the route, or done. */
  datatype DrawTask =
    | AwaitingStyle(origin: LatLng, destination: LatLng)
    | AwaitingRoute(origin: LatLng, destination: LatLng)
    | Finished

  /** What the routing call settles with: a geometry, or a thrown error. */
  datatype RouteResult = Routed(geometry: Geometry) | RouteFailed

  /**
   * The draw resumes once the style is loaded: a cancelled draw stops here,
   * before asking for a route; otherwise it requests the route between the
   * same two points.
   */
  function StyleReady(task: DrawTask, cancelled: bool): (next: DrawTask)
    requires task.AwaitingStyle?
    ensures cancelled ==> next == Finished
    ensures !cancelled ==> next == AwaitingRoute(task.origin, task.destination)
  {
    if cancelled then Finished else AwaitingRoute(task.origin, task.destination)
  }

  /** The map's route source, route layer and the trip screen's marker refs. */
  class RouteOverlay {
    /** The map's sources by id (the basemap's and the route's). */
    var sources: map<string, Geometry>
    /** The map's layers, bottom to top. */
    var layers: seq<Layer>
    /** `pickupMarkerRef.current`, the origin marker. */
    var pickupMarker: Option<Marker>
    /** `dropoffMarkerRef.current`, the destination marker. */
    var dropoffMarker: Option<Marker>
    /** How many destination markers were ever created (the rest are moves). */
    var markersCreated: nat

    /** See `ValidStyle`. */
    ghost predicate Valid()
      reads this
    {
      ValidStyle(sources, layers)
    }

    /** A map showing only its basemap, with both marker refs empty. */
    constructor (basemapSources: map<string, Geometry>, basemapLayers: seq<Layer>)
      requires UniqueIds(basemapLayers) && ROUTE_SOURCE_ID !in basemapSources
      requires forall l :: l in basemapLayers ==> l.source in basemapSources
      ensures Valid()
      ensures sources == basemapSources && layers == basemapLayers
      ensures pickupMarker == None && dropoffMarker == None && markersCreated == 0
    {
      sources, layers := basemapSources, basemapLayers;
      pickupMarker, dropoffMarker, markersCreated := None, None, 0;
    }

    /**
     * The draw resumes once the route call settles. A cancelled draw or a
     * failed route leaves the overlay untouched. Otherwise the route source is
     * upserted with the new geometry, the route layer is added only if absent
     * (under the waterway labels when present), the origin marker is dropped,
     * and the destination marker is hidden within 20 m of the origin, else
     * placed at the destination (created only when there was none).
     */
    method RouteSettled(task: DrawTask, cancelled: bool, result: RouteResult, dist: DistanceMeters)
      requires Valid() && task.AwaitingRoute?
      modifies this
      ensures Valid()
      ensures cancelled || result.RouteFailed? ==> unchanged(this)
      ensures !cancelled && result.Routed? ==>
        && sources == old(sources)[ROUTE_SOURCE_ID := result.geometry]
        && layers == WithRouteLayer(old(layers))
        && pickupMarker == None
        && (dist(task.origin, task.destination) < DROPOFF_HIDE_METERS ==>
              dropoffMarker == None && markersCreated == old(markersCreated))
        && (dist(task.origin, task.destination) >= DROPOFF_HIDE_METERS ==>
              dropoffMarker == Some(Marker(ToLngLat(task.destination)))
              && markersCreated == old(markersCreated) + (if old(dropoffMarker).None? then 1 else 0))
    {
      if cancelled || result.RouteFailed? {
        return;
      }
      UpsertKeepsValid(sources, layers, result.geometry);
      sources := sources[ROUTE_SOURCE_ID := result.geometry];
      layers := WithRouteLayer(layers);
      pickupMarker := None;
      if dist(task.origin, task.destination) < DROPOFF_HIDE_METERS {
        dropoffMarker := None;
      } else if dropoffMarker.None? {
        dropoffMarker := Some(Marker(ToLngLat(task.destination)));
        markersCreated := markersCreated + 1;
      } else {
        dropoffMarker := Some(Marker(ToLngLat(task.destination)));
      }
    }

    /**
     * `clearRouteFromMap`: no route layer, no route source, no markers; the
     * basemap is kept. Clearing a cleared overlay changes nothing.
     */
    method ClearRoute()
      requires Valid()
      modifies this
      ensures Valid()
      ensures layers == RemoveLayer(old(layers), ROUTE_LAYER_ID) && !HasLayer(layers, ROUTE_LAYER_ID)
      ensures sources == old(sources) - {ROUTE_SOURCE_ID}
      ensures pickupMarker == None && dropoffMarker == None
      ensures markersCreated == old(markersCreated)
      ensures (!HasLayer(old(layers), ROUTE_LAYER_ID) && ROUTE_SOURCE_ID !in old(sources)
               && old(pickupMarker).None? && old(dropoffMarker).None?) ==> unchanged(this)
    {
      ClearKeepsValid(sources, layers);
      if ROUTE_SOURCE_ID !in sources {
        assert sources - {ROUTE_SOURCE_ID} == sources;
      }
      layers := RemoveLayer(layers, ROUTE_LAYER_ID);
      sources := sources - {ROUTE_SOURCE_ID};
      pickupMarker := None;
      dropoffMarker := None;
    }
  }
}
