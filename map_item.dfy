/** `MapItem`, the base of the handlers: the constructor checks what it is
    given in a fixed order, merges the settings over the handler's
    defaults, puts a canvas overlay on the map, appends the `className`
    setting to the canvas class and registers the map for clicks;
    `addTo` and `remove` switch the `active` flag that click dispatch
    reads. */
module MapItemModel {
  import opened Js
  import opened Leaflet
  import opened Helpers
  import opened Glify
  import opened CanvasOverlayModel
  import opened MapMatrixModel

  /** The class `new` was called on (`new.target`): MapItem itself, or a
      handler class with its `defaultSettings` getter (None when it is
      undefined) and whether it defines `render`, `drawOnCanvas` and
      `resetVertices` as functions. */
  datatype Subclass =
    | Direct
    | Handler(defaultSettings: Option<map<string, Value>>, render: bool, drawOnCanvas: bool, resetVertices: bool)

  /** `checkAbstractMethods()`: the first missing member, in the order
      defaultSettings, render, drawOnCanvas, resetVertices, is a TypeError. */
  function AbstractCheck(kind: Subclass): (r: Outcome)
    requires kind.Handler?
    ensures r.Pass? <==> kind.defaultSettings.Some? && kind.render && kind.drawOnCanvas && kind.resetVertices
    ensures r.Fail? ==> r.error.TypeError?
  {
    if kind.defaultSettings.None? then Fail(TypeError("You must override `defaultSettings`"))
    else if !kind.render then Fail(TypeError("You must override the `render` method"))
    else if !kind.drawOnCanvas then Fail(TypeError("You must override the `drawOnCanvas` method"))
    else if !kind.resetVertices then Fail(TypeError("You must override the `resetVertices` method"))
    else Pass
  }

  /** A missing render method is reported even when drawOnCanvas and
      resetVertices are missing too: the checks run in order. */
  lemma AbstractCheckOrder(defaults: map<string, Value>, drawOnCanvas: bool, resetVertices: bool)
    ensures AbstractCheck(Handler(Some(defaults), false, drawOnCanvas, resetVertices)) ==
      Fail(TypeError("You must override the `render` method"))
  {
  }

  /** `settings[key]` on a settings object: undefined when absent. */
  function Setting(settings: map<string, Value>, key: string): Value {
    if key in settings then settings[key] else Undefined
  }

  const NoDataError: Error := PlainError("no \"data\" array setting defined")
  const NoMapError: Error := PlainError("no leaflet \"map\" object setting defined")

  /** The checks the constructor makes before it creates the layer, in
      order: not MapItem itself, the abstract members, then `data` and
      `map` of the caller's settings (not the merged ones). */
  function Validation(kind: Subclass, user: map<string, Value>): (r: Outcome)
  {
    if kind.Direct? then Fail(TypeError("Cannot construct MapItem instances directly"))
    else if AbstractCheck(kind).Fail? then AbstractCheck(kind)
    else if !Truthy(Setting(user, "data")) then Fail(NoDataError)
    else if !Truthy(Setting(user, "map")) then Fail(NoMapError)
    else Pass
  }

  /** Constructing MapItem directly is a TypeError whatever the settings. */
  lemma DirectRejected(user: map<string, Value>)
    ensures Validation(Direct, user).Fail? && Validation(Direct, user).error.TypeError?
  {
  }

  /** Validation passes exactly for a complete handler class given a truthy
      `data` and a truthy `map`; a missing `data` is reported before the
      map is looked at. */
  lemma ValidationCases(kind: Subclass, user: map<string, Value>)
    ensures Validation(kind, user).Pass? <==>
      kind.Handler? && AbstractCheck(kind).Pass? && Truthy(Setting(user, "data")) && Truthy(Setting(user, "map"))
    ensures kind.Handler? && AbstractCheck(kind).Pass? && !Truthy(Setting(user, "data")) ==>
      Validation(kind, user) == Fail(NoDataError)
  {
  }

  /** The checks read the caller's settings: default values of `data` and
      `map` do not satisfy them. */
  lemma ValidationIgnoresDefaults(d1: map<string, Value>, d2: map<string, Value>, user: map<string, Value>)
    ensures Validation(Handler(Some(d1), true, true, true), user) == Validation(Handler(Some(d2), true, true, true), user)
    ensures "data" !in user ==> Validation(Handler(Some(d1), true, true, true), user) == Fail(NoDataError)
  {
  }

  /** The text `' ' + settings.className` appends: the string itself, or
      the text of another value where the model knows it. */
  function ClassText(v: Value): string {
    if v.Str? then v.s else if KeyText(v).Some? then KeyText(v).value else ""
  }

  /** The canvas class after `if (settings.className) canvas.className +=
      ' ' + settings.className`. */
  function WithClassName(canvasClass: string, className: Value): (r: string)
    ensures !Truthy(className) ==> r == canvasClass
  {
    if Truthy(className) then canvasClass + " " + ClassText(className) else canvasClass
  }

  /** A non-empty class name is appended after exactly one space, an empty
      one changes nothing. */
  lemma ClassNameAppended(canvasClass: string, name: string)
    ensures name != "" ==> WithClassName(canvasClass, Str(name)) == canvasClass + " " + name
    ensures name != "" ==> (|WithClassName(canvasClass, Str(name))| == |canvasClass| + 1 + |name| &&
      WithClassName(canvasClass, Str(name))[|canvasClass|] == ' ')
    ensures name == "" ==> WithClassName(canvasClass, Str(name)) == canvasClass
  {
  }

  /** The Leaflet map a value holds, if any. */
  function MapOf(v: Value): set<LeafletMap> {
    if v.HostMap? then {v.hostMap} else {}
  }

  class MapItem {
    var settings: map<string, Value>
    var instances: seq<MapItem>
    var active: bool
    var glLayer: CanvasOverlay?
    /** `mapMatrix`, the instance's own transform buffer. */
    const mapMatrix: MapMatrix

    /** The field initialisers, before the constructor body runs. */
    constructor ()
      ensures settings == map[] && instances == [] && active && glLayer == null
      ensures fresh(mapMatrix) && fresh(mapMatrix.buffer) && mapMatrix.buffer.Length == Size
    {
      settings := map[];
      instances := [];
      active := true;
      glLayer := null;
      mapMatrix := new MapMatrix();
    }

    /** The body of `constructor(settings)` up to `render()`, which each
        handler models itself. `any3d` is `L.Browser.any3d`; `registry` is
        `L.glify`, whose `setupClick` registers the map. */
    method Initialize(kind: Subclass, user: map<string, Value>, registry: ClickRegistry, any3d: bool) returns (outcome: Outcome)
      requires registry.Valid()
      modifies this, registry, MapOf(Setting(user, "map"))
      ensures registry.Valid()
      ensures Validation(kind, user).Fail? ==> outcome == Validation(kind, user)
      ensures kind.Handler? && AbstractCheck(kind).Pass? ==>
        instances == old(instances) + [this] && settings == Merged(user, kind.defaultSettings.value)
      ensures !(kind.Handler? && AbstractCheck(kind).Pass?) ==> instances == old(instances) && settings == old(settings)
      ensures active == old(active)
      ensures Validation(kind, user).Pass? && !Setting(user, "map").HostMap? ==> outcome.Fail? && outcome.error.TypeError?
      ensures Validation(kind, user).Pass? && Setting(user, "map").HostMap? ==>
        var m := Setting(user, "map").hostMap;
        glLayer != null && fresh(glLayer) && glLayer.hostMap == m && glLayer.canvas != null &&
        glLayer.canvas.className == WithClassName(ZoomClass(m.zoomAnimation && any3d), Setting(user, "className")) &&
        (Truthy(Setting(Merged(user, kind.defaultSettings.value), "click")) ==>
          (outcome.Pass? <==> "map" in kind.defaultSettings.value) &&
          (outcome.Pass? ==> registry.maps == Registered(old(registry.maps), m))) &&
        (!Truthy(Setting(Merged(user, kind.defaultSettings.value), "click")) ==>
          outcome.Pass? && registry.maps == old(registry.maps))
    {
      if kind.Direct? {
        return Fail(TypeError("Cannot construct MapItem instances directly"));
      }
      var check := AbstractCheck(kind);
      if check.Fail? {
        return check;
      }
      instances := instances + [this];
      settings := Defaults(user, kind.defaultSettings.value);
      if !Truthy(Setting(user, "data")) {
        return Fail(NoDataError);
      }
      if !Truthy(Setting(user, "map")) {
        return Fail(NoMapError);
      }
      // `L.canvasOverlay(...).addTo(settings.map)` calls `map.addLayer`
      var target := Setting(user, "map");
      if !target.HostMap? {
        return Fail(TypeError("map.addLayer is not a function"));
      }
      var m := target.hostMap;
      AttachLayer(m, Setting(user, "className"), any3d);
      assert MapOf(Setting(settings, "map")) <= MapOf(Setting(user, "map"));
      outcome := Setup(registry);
    }

    /** `setup()`: register the settings' map for clicks when a click
        callback is set (the shader and program setup are not modelled). */
    method Setup(registry: ClickRegistry) returns (outcome: Outcome)
      requires registry.Valid()
      modifies registry, MapOf(Setting(settings, "map"))
      ensures registry.Valid()
      ensures !Truthy(Setting(settings, "click")) ==> outcome.Pass? && registry.maps == old(registry.maps)
      ensures Truthy(Setting(settings, "click")) ==>
        (outcome.Pass? <==> Setting(settings, "map").HostMap?) &&
        (outcome.Fail? ==> outcome.error.TypeError?) &&
        (outcome.Pass? ==> registry.maps == Registered(old(registry.maps), Setting(settings, "map").hostMap))
      ensures Setting(settings, "map").HostMap? ==>
        Setting(settings, "map").hostMap.zoomAnimation == old(Setting(settings, "map").hostMap.zoomAnimation)
    {
      if Truthy(Setting(settings, "click")) {
        var clickMap := Setting(settings, "map");
        if !clickMap.HostMap? {
          return Fail(TypeError("map.on is not a function"));
        }
        registry.SetupClick(clickMap.hostMap);
      }
      return Pass;
    }

    /** `L.canvasOverlay(...).addTo(map)` and the class name: a new layer
        on the map, its canvas classed by zoom animation and `className`.
        The first frame cannot throw: `this.gl` is not yet set, so the
        handler's `drawOnCanvas` returns at once. */
    method AttachLayer(m: LeafletMap, className: Value, any3d: bool)
      modifies this`glLayer, m`listeners, m`layers
      ensures glLayer != null && fresh(glLayer) && glLayer.hostMap == m
      ensures m.layers == old(m.layers) + {glLayer}
      ensures glLayer.canvas != null && fresh(glLayer.canvas)
      ensures glLayer.canvas.className == WithClassName(ZoomClass(m.zoomAnimation && any3d), className)
      ensures m.listeners == old(m.listeners) + Subscriptions(glLayer, m.zoomAnimation && any3d)
      ensures glLayer.State() == RedrawState(None, [], 0)
    {
      // the user draw function is the arrow that calls `drawOnCanvas`
      var layer := new CanvasOverlay(Fn(0));
      var added := layer.AddToMap(m, any3d, {});
      glLayer := layer;
      layer.canvas.className := WithClassName(layer.canvas.className, className);
    }

    /** `addTo(map)`: put the layer on the given map, or on the settings'
        map when none is given, and mark the handler active (the following
        `render()` is the handler's). A layer already on that map is left as
        it is; otherwise its first frame runs, and a call in it that throws
        (one of `throwing`) escapes before the handler is marked active. */
    method AddTo(target: Option<LeafletMap>, any3d: bool, throwing: set<Value>) returns (outcome: Outcome)
      modifies this`active, glLayer, (if glLayer != null then {glLayer.canvas} else {})
      modifies (if target.Some? then {target.value} else MapOf(Setting(settings, "map")))
      ensures var dest := if target.Some? then HostMap(target.value) else Setting(settings, "map");
        (glLayer == null || !dest.HostMap?) ==> outcome.Fail? && outcome.error.TypeError?
      ensures var dest := if target.Some? then HostMap(target.value) else Setting(settings, "map");
        glLayer != null && dest.HostMap? && glLayer in old(dest.hostMap.layers) ==>
          outcome.Pass? && dest.hostMap.layers == old(dest.hostMap.layers) &&
          dest.hostMap.listeners == old(dest.hostMap.listeners) && unchanged(glLayer) &&
          (old(glLayer.canvas) != null ==> unchanged(old(glLayer.canvas)))
      ensures var dest := if target.Some? then HostMap(target.value) else Setting(settings, "map");
        glLayer != null && dest.HostMap? && glLayer !in old(dest.hostMap.layers) ==>
          var f := Frame(true, glLayer.userDrawFunc, old(glLayer.State()), throwing);
          outcome == f.outcome && glLayer.State() == f.after &&
          glLayer.hostMap == dest.hostMap && glLayer.canvas != null &&
          (old(glLayer.canvas) != null ==> glLayer.canvas == old(glLayer.canvas)) &&
          (old(glLayer.canvas) == null ==> fresh(glLayer.canvas)) &&
          glLayer.canvas.width == dest.hostMap.size.x && glLayer.canvas.height == dest.hostMap.size.y &&
          glLayer.canvas.className == ZoomClass(dest.hostMap.zoomAnimation && any3d) &&
          dest.hostMap.layers == old(dest.hostMap.layers) + {glLayer} &&
          dest.hostMap.listeners == old(dest.hostMap.listeners) + Subscriptions(glLayer, dest.hostMap.zoomAnimation && any3d)
      ensures outcome.Fail? ==> active == old(active)
      ensures outcome.Pass? ==> active
    {
      if glLayer == null {
        return Fail(TypeError("Cannot read properties of undefined (reading 'addTo')"));
      }
      var dest := if target.Some? then HostMap(target.value) else Setting(settings, "map");
      if !dest.HostMap? {
        return Fail(TypeError("map.addLayer is not a function"));
      }
      outcome := glLayer.AddToMap(dest.hostMap, any3d, throwing);
      if outcome.Fail? {
        return outcome;
      }
      active := true;
    }

    /** `remove()`: take the layer off the settings' map and mark the
        handler inactive. A layer that is not on that map is left as it is;
        otherwise it leaves the map, which forgets its listeners and its
        map. */
    method Remove() returns (outcome: Outcome)
      modifies this`active, MapOf(Setting(settings, "map")), (if glLayer != null then {glLayer} else {})
      ensures outcome.Pass? <==> glLayer != null && Setting(settings, "map").HostMap?
      ensures outcome.Fail? ==> outcome.error.TypeError? && active == old(active)
      ensures outcome.Pass? ==> !active
      ensures outcome.Pass? && glLayer in old(Setting(settings, "map").hostMap.layers) ==>
        var m := Setting(settings, "map").hostMap;
        m.layers == old(m.layers) - {glLayer} && glLayer.hostMap == null &&
        m.listeners == old(m.listeners) - Unsubscriptions(glLayer, m.zoomAnimation)
      ensures outcome.Pass? && glLayer !in old(Setting(settings, "map").hostMap.layers) ==>
        var m := Setting(settings, "map").hostMap;
        m.layers == old(m.layers) && m.listeners == old(m.listeners) && glLayer.hostMap == old(glLayer.hostMap)
    {
      var m := Setting(settings, "map");
      if !m.HostMap? {
        return Fail(TypeError("map.removeLayer is not a function"));
      }
      if glLayer == null {
        return Fail(TypeError("Cannot read properties of undefined (reading '_leaflet_id')"));
      }
      glLayer.RemoveFrom(m.hostMap);
      active := false;
      return Pass;
    }
  }
}
