/** `GLMap`: a click coordinator holding the most recent Points and Shapes
    handlers it created and the maps it listens to; a click on a
    registered map goes to the Points handler first, then to the Shapes
    handler. */
module GLMapModel {
  import opened Js
  import opened Leaflet
  import opened Glify
  import opened HandlerBase
  import opened PointsModel
  import opened ShapesModel
  import opened Grid
  import opened MapItemModel

  /** Calling `tryClick` on a handler that was never created. */
  const NoHandlerError: Error := TypeError("Cannot read properties of undefined (reading 'tryClick')")

  /** The click listener's answer, given what Points' `tryClick` answered
      (None when there is no Points handler) and what Shapes' `tryClick`
      would answer (None when there is no Shapes handler): a defined
      Points answer is returned without asking Shapes; otherwise the
      Shapes answer, which falls through to undefined when it is undefined
      itself. */
  function Dispatched(points: Option<Value>, shapes: Option<Result<Value>>): (r: Result<Value>)
    ensures points.Some? && points.value != Undefined ==> r == Ok(points.value)
    ensures points.None? ==> r == Err(NoHandlerError)
  {
    if points.None? then Err(NoHandlerError)
    else if points.value != Undefined then Ok(points.value)
    else if shapes.None? then Err(NoHandlerError)
    else shapes.value
  }

  /** What Points' `tryClick(e, map)` answers. */
  function PointsAnswer(handler: Points, e: ClickEvent, m: LeafletMap): Value
    reads handler, handler.item, handler.settings.hostMap, m
  {
    PointClickResult(handler.item.active, handler.settings.hostMap == m, handler.settings.click,
      Looked(handler.latLngLookup, handler.settings.data, e.latlng, handler.settings.hostMap.toLayerPoint),
      e, m.toLayerPoint, PointSize(handler.settings.size, handler.settings.hostMap.zoom) * handler.settings.sensitivity)
  }

  /** The Shapes handler as its own (single-instance) click target. */
  function ShapeTarget(handler: Shapes): ClickTarget
    reads handler, handler.item
  {
    ClickTarget(handler.item.active, handler.settings.hostMap, handler.settings.click, handler.polygonLookup)
  }

  /** Points is asked first: once it answers with a value, Shapes is not
      consulted, so neither its answer nor its absence matters. */
  lemma PointsFirst(hit: Value, shapes1: Option<Result<Value>>, shapes2: Option<Result<Value>>)
    requires hit != Undefined
    ensures Dispatched(Some(hit), shapes1) == Dispatched(Some(hit), shapes2) == Ok(hit)
  {
  }

  /** When Points answers undefined, the Shapes answer is the listener's. */
  lemma ShapesSecond(shapes: Result<Value>)
    ensures Dispatched(Some(Undefined), Some(shapes)) == shapes
    ensures Dispatched(Some(Undefined), None) == Err(NoHandlerError)
  {
  }

  /** With both handlers in place, a click that does not throw is never
      answered undefined, since Shapes answers true on a miss. */
  lemma DispatchedDefined(hit: Value, targets: seq<ClickTarget>, e: ClickEvent, m: LeafletMap, search: PolygonSearch)
    requires Dispatched(Some(hit), Some(ShapeClickResult(targets, e, m, search))).Ok?
    ensures Dispatched(Some(hit), Some(ShapeClickResult(targets, e, m, search))).value != Undefined
  {
    ShapeClickNeverUndefined(targets, e, m, search);
  }

  class GLMap {
    /** `maps` and `setupClick`: the same bookkeeping as `L.glify`'s. */
    const clicks: ClickRegistry
    /** `_points` and `_shapes`: null until the first `points()` and
        `shapes()` call. */
    var points: Points?
    var shapes: Shapes?

    ghost predicate Valid()
      reads this, clicks, clicks.maps
    {
      clicks.Valid()
    }

    constructor ()
      ensures Valid() && fresh(clicks) && clicks.maps == []
      ensures points == null && shapes == null
    {
      clicks := new ClickRegistry();
      points := null;
      shapes := null;
    }

    /** `points(settings)`: the new handler replaces the previous one. */
    method SetPoints(handler: Points) returns (r: Points)
      modifies this`points
      ensures points == handler && r == handler
    {
      points := handler;
      return handler;
    }

    /** `shapes(settings)`: the new handler replaces the previous one. */
    method SetShapes(handler: Shapes) returns (r: Shapes)
      modifies this`shapes
      ensures shapes == handler && r == handler
    {
      shapes := handler;
      return handler;
    }

    /** `setupClick(map)`: a map is registered, and listened to, once. */
    method SetupClick(m: LeafletMap)
      requires Valid()
      modifies clicks, m
      ensures Valid()
      ensures clicks.maps == Registered(old(clicks.maps), m)
      ensures m.listeners == if m in old(clicks.maps) then old(m.listeners) else old(m.listeners) + {Listener(EventName.Click, clicks)}
      ensures m.zoom == old(m.zoom) && m.size == old(m.size)
      ensures m.zoomAnimation == old(m.zoomAnimation) && m.toLayerPoint == old(m.toLayerPoint)
      ensures m.layers == old(m.layers)
    {
      clicks.SetupClick(m);
    }

    /** `this._points.tryClick(e, map)` */
    method AskPoints(e: ClickEvent, m: LeafletMap) returns (hit: Value)
      requires points != null
      ensures hit == PointsAnswer(points, e, m)
    {
      hit := points.TryClick(e, m);
    }

    /** `this._shapes.tryClick(e, map)` */
    method AskShapes(e: ClickEvent, m: LeafletMap, search: PolygonSearch) returns (r: Result<Value>)
      requires shapes != null
      ensures r == ShapeClickResult([ShapeTarget(shapes)], e, m, search)
    {
      r := shapes.TryClick(e, m, search);
    }

    /** The click listener `setupClick` puts on a map, for the current
        handlers; `search` is the Shapes handler's polygon search. */
    method Click(e: ClickEvent, m: LeafletMap, search: PolygonSearch) returns (r: Result<Value>)
      ensures r == Dispatched(
        if points == null then None else Some(PointsAnswer(points, e, m)),
        if shapes == null then None else Some(ShapeClickResult([ShapeTarget(shapes)], e, m, search)))
    {
      if points == null {
        return Err(NoHandlerError);
      }
      var hit := AskPoints(e, m);
      if hit != Undefined {
        return Ok(hit);
      }
      if shapes == null {
        return Err(NoHandlerError);
      }
      // `if (hit !== undefined) return hit;` and falling off the end both
      // answer the Shapes result
      r := AskShapes(e, m, search);
    }
  }
}
