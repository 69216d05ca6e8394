/** The host map widget (Leaflet), reduced to what the overlay library reads
    and changes: the current zoom and viewport size, the geographic-to-layer
    projection of the current view, its zoom-animation option, the set of
    event listeners registered on it and the set of layers added to it. */
module Leaflet {

  /** A screen or layer point in pixels. */
  datatype Point = Point(x: real, y: real)

  /** A geographic coordinate in degrees. */
  datatype LatLng = LatLng(lat: real, lng: real)

  datatype EventName = MoveEnd | Resize | ZoomAnim | Click

  /** One `map.on(event, fn, context)` registration. Leaflet does not register
      the same handler twice for one context, and `map.off` removes it, so
      the registrations form a set. */
  datatype Listener = Listener(event: EventName, context: object)

  class LeafletMap {
    var zoom: real
    var size: Point
    /** `map.options.zoomAnimation` */
    var zoomAnimation: bool
    /** `map.latLngToLayerPoint` at the current view (projection left abstract). */
    var toLayerPoint: LatLng -> Point
    var listeners: set<Listener>
    /** `map._layers`: the layers added to the map and not removed since. */
    var layers: set<object>

    constructor (zoom: real, size: Point, zoomAnimation: bool, toLayerPoint: LatLng -> Point)
      ensures this.zoom == zoom && this.size == size && this.zoomAnimation == zoomAnimation
      ensures this.toLayerPoint == toLayerPoint && listeners == {} && layers == {}
    {
      this.zoom := zoom;
      this.size := size;
      this.zoomAnimation := zoomAnimation;
      this.toLayerPoint := toLayerPoint;
      listeners := {};
      layers := {};
    }
  }
}
