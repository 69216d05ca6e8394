/** `L.CanvasOverlay`: a Leaflet layer owning one canvas. Redraw requests are
    coalesced through a nullable `_frame` handle, callbacks wait in a FIFO
    queue that `_redraw` drains after calling the user draw function, and
    `onAdd`/`onRemove` subscribe and unsubscribe the layer's map events. */
module CanvasOverlayModel {
  import opened Js
  import opened Leaflet

  /** A call `_redraw` makes: the user draw function, or a queued callback. */
  datatype Call = UserDraw | Callback(fn: Value)

  /** The redraw bookkeeping: the `_frame` handle (None for null), the
      `_redrawCallbacks` queue and the number of animation frames requested
      so far (each request returns a fresh handle). */
  datatype RedrawState = RedrawState(frame: Option<nat>, queue: seq<Value>, requested: nat)

  /** The state after `redraw(callback)`. */
  function Redrawn(s: RedrawState, callback: Value): (r: RedrawState)
    ensures r.queue == s.queue + (if IsFunction(callback) then [callback] else [])
    ensures s.frame.Some? ==> r.frame == s.frame && r.requested == s.requested
    ensures s.frame.None? ==> r.frame == Some(s.requested) && r.requested == s.requested + 1
  {
    var queue := if IsFunction(callback) then s.queue + [callback] else s.queue;
    if s.frame.None? then RedrawState(Some(s.requested), queue, s.requested + 1)
    else RedrawState(s.frame, queue, s.requested)
  }

  /** Several `redraw` calls in a row, before any frame fires. */
  function RedrawnAll(s: RedrawState, callbacks: seq<Value>): RedrawState
    decreases |callbacks|
  {
    if callbacks == [] then s else Redrawn(RedrawnAll(s, callbacks[..|callbacks| - 1]), callbacks[|callbacks| - 1])
  }

  /** The functions among the arguments, in order. */
  function Functions(values: seq<Value>): (r: seq<Value>)
    ensures forall k :: 0 <= k < |r| ==> IsFunction(r[k])
    ensures |r| <= |values|
    decreases |values|
  {
    if values == [] then []
    else Functions(values[..|values| - 1]) + (if IsFunction(values[|values| - 1]) then [values[|values| - 1]] else [])
  }

  /** Any number of `redraw` calls before the frame fires request exactly one
      animation frame when none was pending, and none when one was; the
      queue gains the function arguments in call order. */
  lemma {:induction false} RedrawsCoalesce(s: RedrawState, callbacks: seq<Value>)
    requires |callbacks| > 0
    ensures RedrawnAll(s, callbacks).queue == s.queue + Functions(callbacks)
    ensures RedrawnAll(s, callbacks).requested == s.requested + (if s.frame.None? then 1 else 0)
    ensures RedrawnAll(s, callbacks).frame == if s.frame.None? then Some(s.requested) else s.frame
    decreases |callbacks|
  {
    var pre := callbacks[..|callbacks| - 1];
    if pre != [] {
      RedrawsCoalesce(s, pre);
    }
  }

  /** The calls of one `_redraw`: the user draw function when it is set,
      then every queued callback once, oldest first. */
  function FrameCalls(userDrawFunc: Value, queue: seq<Value>): (r: seq<Call>)
    ensures |r| == |queue| + (if Truthy(userDrawFunc) then 1 else 0)
    ensures Truthy(userDrawFunc) ==> r[0] == UserDraw
  {
    (if Truthy(userDrawFunc) then [UserDraw] else []) + Drained(queue)
  }

  /** The callback calls of the drain loop, in queue order. */
  function Drained(queue: seq<Value>): (r: seq<Call>)
    ensures |r| == |queue|
    ensures forall k :: 0 <= k < |queue| ==> r[k] == Callback(queue[k])
  {
    seq(|queue|, k requires 0 <= k < |queue| => Callback(queue[k]))
  }

  /** The k-th queued callback is called k calls after the user draw, so
      the callbacks run exactly once each, oldest first. */
  lemma FrameCallsOrder(userDrawFunc: Value, queue: seq<Value>, k: nat)
    requires k < |queue|
    ensures FrameCalls(userDrawFunc, queue)[k + (if Truthy(userDrawFunc) then 1 else 0)] == Callback(queue[k])
  {
  }

  /** The calls of a frame are the optional user draw call, then the drain. */
  lemma FrameCallsSplit(before: seq<Call>, userDrawFunc: Value, queue: seq<Value>, head: seq<Call>)
    requires head == if Truthy(userDrawFunc) then [UserDraw] else []
    ensures before + head + Drained(queue) == before + FrameCalls(userDrawFunc, queue)
  {
    assert FrameCalls(userDrawFunc, queue) == head + Drained(queue);
  }

  /** Draining one more queued callback appends its call. */
  lemma DrainedStep(queue: seq<Value>, done: nat)
    requires done < |queue|
    ensures Drained(queue[..done + 1]) == Drained(queue[..done]) + [Callback(queue[done])]
  {
  }

  /** The callbacks a frame runs after a burst of `redraw` calls from an
      idle overlay are exactly the function arguments, in call order, after
      the user draw function. */
  lemma {:induction false} FrameRunsBurstInOrder(userDrawFunc: Value, requested: nat, callbacks: seq<Value>)
    requires |callbacks| > 0
    ensures FrameCalls(userDrawFunc, RedrawnAll(RedrawState(None, [], requested), callbacks).queue) ==
      (if Truthy(userDrawFunc) then [UserDraw] else []) + Drained(Functions(callbacks))
  {
    RedrawsCoalesce(RedrawState(None, [], requested), callbacks);
    assert [] + Functions(callbacks) == Functions(callbacks);
  }

  /** The index of the first queued callback that throws when called, or
      the length of the queue when none does. */
  function FirstThrowing(queue: seq<Value>, throwing: set<Value>): (r: nat)
    ensures r <= |queue|
    ensures forall k :: 0 <= k < r ==> queue[k] !in throwing
    ensures r < |queue| ==> queue[r] in throwing
    decreases |queue|
  {
    if queue == [] then 0
    else if queue[0] in throwing then 0
    else
      var r := 1 + FirstThrowing(queue[1..], throwing);
      assert forall k :: 1 <= k < r ==> queue[k] == queue[1..][k - 1];
      r
  }

  /** What the drain loop does: the callback that threw, if one did, the
      calls it made and the callbacks left queued. */
  datatype DrainRun = DrainRun(thrown: Option<Value>, made: seq<Call>, rest: seq<Value>)

  /** The drain of `queue`: every callback before the first throwing one is
      shifted and called; that one is shifted and called too, and throws. */
  function DrainOf(queue: seq<Value>, throwing: set<Value>): DrainRun {
    var k := FirstThrowing(queue, throwing);
    if k < |queue| then DrainRun(Some(queue[k]), Drained(queue[..k + 1]), queue[k + 1..])
    else DrainRun(None, Drained(queue), [])
  }

  /** What one `_redraw` does: its outcome, the calls it makes, and the
      redraw state it leaves. */
  datatype FrameRun = FrameRun(outcome: Outcome, made: seq<Call>, after: RedrawState)

  /** Reading `this._map.getSize()` on an overlay that is on no map. */
  const NoMapFrameError: Error := TypeError("Cannot read properties of null (reading 'getSize')")

  /** Calling a draw setting that is not a function. */
  const NotFunctionFrameError: Error := TypeError("this._userDrawFunc is not a function")

  /** `_redraw()` on state s, given whether the overlay is on a map and the
      functions that throw when called (`throwing`). Without a map it throws
      before calling anything; a set draw value that is not a function
      throws next. A throwing call ends the frame at once: the callbacks
      shifted so far are gone, the rest stay queued and `_frame` keeps its
      handle. Only a frame without a throw clears `_frame`. */
  function Frame(onMap: bool, userDrawFunc: Value, s: RedrawState, throwing: set<Value>): FrameRun {
    if !onMap then FrameRun(Fail(NoMapFrameError), [], s)
    else if Truthy(userDrawFunc) && !IsFunction(userDrawFunc) then
      FrameRun(Fail(NotFunctionFrameError), [], s)
    else if Truthy(userDrawFunc) && userDrawFunc in throwing then
      FrameRun(Fail(Raised(userDrawFunc)), [UserDraw], s)
    else
      var head := if Truthy(userDrawFunc) then [UserDraw] else [];
      var d := DrainOf(s.queue, throwing);
      if d.thrown.Some? then FrameRun(Fail(Raised(d.thrown.value)), head + d.made, s.(queue := d.rest))
      else FrameRun(Pass, head + d.made, s.(frame := None, queue := []))
  }

  /** A frame completes exactly when the overlay is on a map, the draw
      value is unset or a function that does not throw, and no queued
      callback throws; it then makes the calls of `FrameCalls`, empties the
      queue and clears the frame handle. */
  lemma FrameCompletes(onMap: bool, userDrawFunc: Value, s: RedrawState, throwing: set<Value>)
    ensures Frame(onMap, userDrawFunc, s, throwing).outcome.Pass? <==>
      onMap && (Truthy(userDrawFunc) ==> IsFunction(userDrawFunc) && userDrawFunc !in throwing) &&
      forall k :: 0 <= k < |s.queue| ==> s.queue[k] !in throwing
    ensures Frame(onMap, userDrawFunc, s, throwing).outcome.Pass? ==>
      Frame(onMap, userDrawFunc, s, throwing).made == FrameCalls(userDrawFunc, s.queue) &&
      Frame(onMap, userDrawFunc, s, throwing).after == RedrawState(None, [], s.requested)
  {
    var k := FirstThrowing(s.queue, throwing);
    if k < |s.queue| {
      assert s.queue[k] in throwing;
    }
  }

  /** A callback that throws is the last call of its frame: every earlier
      queued callback ran once, in order, and the later ones are still
      queued. */
  lemma FrameThrowsAt(userDrawFunc: Value, s: RedrawState, throwing: set<Value>, k: nat)
    requires !Truthy(userDrawFunc) || (IsFunction(userDrawFunc) && userDrawFunc !in throwing)
    requires k < |s.queue| && s.queue[k] in throwing
    requires forall j :: 0 <= j < k ==> s.queue[j] !in throwing
    ensures Frame(true, userDrawFunc, s, throwing) ==
      FrameRun(Fail(Raised(s.queue[k])),
        (if Truthy(userDrawFunc) then [UserDraw] else []) + Drained(s.queue[..k + 1]),
        RedrawState(s.frame, s.queue[k + 1..], s.requested))
  {
  }

  /** Once a frame has thrown, the handle stays set, so however many
      `redraw` calls follow, no animation frame is requested again: the
      callbacks are queued and never run. */
  lemma FailedFrameStalls(onMap: bool, userDrawFunc: Value, s: RedrawState, throwing: set<Value>, callbacks: seq<Value>)
    requires s.frame.Some? && |callbacks| > 0
    requires Frame(onMap, userDrawFunc, s, throwing).outcome.Fail?
    ensures var after := Frame(onMap, userDrawFunc, s, throwing).after;
      after.frame == s.frame &&
      RedrawnAll(after, callbacks).frame == s.frame &&
      RedrawnAll(after, callbacks).requested == s.requested &&
      RedrawnAll(after, callbacks).queue == after.queue + Functions(callbacks)
  {
    var after := Frame(onMap, userDrawFunc, s, throwing).after;
    assert after.frame == s.frame && after.requested == s.requested;
    RedrawsCoalesce(after, callbacks);
  }

  /** The events a layer subscribes on `onAdd` (zoomanim only when animated). */
  function Subscriptions(layer: object, animated: bool): set<Listener> {
    {Listener(MoveEnd, layer), Listener(Resize, layer)} + (if animated then {Listener(ZoomAnim, layer)} else {})
  }

  /** The events a layer unsubscribes on `onRemove` (zoomanim whenever the
      map's zoomAnimation option is set). */
  function Unsubscriptions(layer: object, zoomAnimation: bool): set<Listener> {
    {Listener(MoveEnd, layer), Listener(Resize, layer)} + (if zoomAnimation then {Listener(ZoomAnim, layer)} else {})
  }

  /** Every subscription of `onAdd` is undone by `onRemove`, whatever the
      browser's 3D support. */
  lemma SubscriptionsUndone(layer: object, zoomAnimation: bool, any3d: bool)
    ensures Subscriptions(layer, zoomAnimation && any3d) <= Unsubscriptions(layer, zoomAnimation)
  {
  }

  /** Adding a layer and removing it again restores the map's listeners,
      when the layer had none before. */
  lemma AddRemoveRestores(listeners: set<Listener>, layer: object, zoomAnimation: bool, any3d: bool)
    requires forall l :: l in listeners ==> l.context != layer
    ensures (listeners + Subscriptions(layer, zoomAnimation && any3d)) - Unsubscriptions(layer, zoomAnimation) == listeners
  {
  }

  /** `"leaflet-zoom-" + (animated ? "animated" : "hide")` */
  function ZoomClass(animated: bool): string {
    "leaflet-zoom-" + (if animated then "animated" else "hide")
  }

  /** The canvas element: its pixel size and its class attribute. */
  class Canvas {
    var width: real
    var height: real
    var className: string

    /** `document.createElement('canvas')`: 300 by 150, no class. */
    constructor ()
      ensures width == 300.0 && height == 150.0 && className == ""
    {
      width := 300.0;
      height := 150.0;
      className := "";
    }
  }

  class CanvasOverlay {
    var userDrawFunc: Value
    var frame: Option<nat>
    var redrawCallbacks: seq<Value>
    var requested: nat
    /** The calls the overlay has made, in order. */
    var calls: seq<Call>
    var canvas: Canvas?
    var hostMap: LeafletMap?

    function State(): RedrawState
      reads this
    {
      RedrawState(frame, redrawCallbacks, requested)
    }

    /** `initialize(userDrawFunc, options)`; the options are not modelled. */
    constructor (userDrawFunc: Value)
      ensures this.userDrawFunc == userDrawFunc
      ensures frame == None && redrawCallbacks == [] && requested == 0
      ensures calls == [] && canvas == null && hostMap == null
    {
      this.userDrawFunc := userDrawFunc;
      frame := None;
      redrawCallbacks := [];
      requested := 0;
      calls := [];
      canvas := null;
      hostMap := null;
    }

    /** `drawing(userDrawFunc)` */
    method Drawing(userDrawFunc: Value) returns (self: CanvasOverlay)
      modifies this`userDrawFunc
      ensures self == this && this.userDrawFunc == userDrawFunc
    {
      this.userDrawFunc := userDrawFunc;
      return this;
    }

    /** `redraw(callback)`: queue the callback when it is a function, and
        request an animation frame only when none is pending. */
    method Redraw(callback: Value) returns (self: CanvasOverlay)
      modifies this`redrawCallbacks, this`frame, this`requested
      ensures self == this
      ensures State() == Redrawn(old(State()), callback)
    {
      if IsFunction(callback) {
        redrawCallbacks := redrawCallbacks + [callback];
      }
      if frame == None {
        frame := Some(requested);
        requested := requested + 1;
      }
      return this;
    }

    /** `_redraw()`: read the map's size, bounds and zoom, call the user
        draw function when it is set, then shift and call queued callbacks
        until the queue is empty, then clear the frame handle. `throwing`
        holds the functions that throw when called. */
    method RedrawFrame(throwing: set<Value>) returns (outcome: Outcome)
      modifies this`redrawCallbacks, this`frame, this`calls
      ensures var f := Frame(hostMap != null, userDrawFunc, old(State()), throwing);
        outcome == f.outcome && calls == old(calls) + f.made && State() == f.after
    {
      if hostMap == null {
        return Fail(NoMapFrameError);
      }
      if Truthy(userDrawFunc) && !IsFunction(userDrawFunc) {
        return Fail(NotFunctionFrameError);
      }
      outcome := RunFrame(throwing);
    }

    /** `_redraw()` past its checks: the user draw call, then the drain. */
    method RunFrame(throwing: set<Value>) returns (outcome: Outcome)
      requires Truthy(userDrawFunc) ==> IsFunction(userDrawFunc)
      modifies this`redrawCallbacks, this`frame, this`calls
      ensures var f := Frame(true, userDrawFunc, old(State()), throwing);
        outcome == f.outcome && calls == old(calls) + f.made && State() == f.after
    {
      if Truthy(userDrawFunc) {
        calls := calls + [UserDraw];
        if userDrawFunc in throwing {
          return Fail(Raised(userDrawFunc));
        }
      }
      outcome := DrainFrame(throwing);
    }

    /** The end of `_redraw`: the drain, then clearing the frame handle
        when no callback threw. */
    method DrainFrame(throwing: set<Value>) returns (outcome: Outcome)
      modifies this`redrawCallbacks, this`frame, this`calls
      ensures var d := DrainOf(old(redrawCallbacks), throwing);
        calls == old(calls) + d.made &&
        (d.thrown.Some? ==> outcome == Fail(Raised(d.thrown.value)) && State() == old(State()).(queue := d.rest)) &&
        (d.thrown.None? ==> outcome == Pass && State() == old(State()).(frame := None, queue := []))
    {
      var thrown := DrainCallbacks(throwing);
      if thrown.Some? {
        return Fail(Raised(thrown.value));
      }
      frame := None;
      return Pass;
    }

    /** The drain loop of `_redraw`: shift and call queued callbacks until
        the queue is empty or a callback throws; `thrown` is the callback
        that threw. */
    method DrainCallbacks(throwing: set<Value>) returns (thrown: Option<Value>)
      modifies this`redrawCallbacks, this`calls
      ensures var d := DrainOf(old(redrawCallbacks), throwing);
        thrown == d.thrown && calls == old(calls) + d.made && redrawCallbacks == d.rest
    {
      ghost var queue := redrawCallbacks;
      ghost var done := 0;
      while |redrawCallbacks| > 0
        invariant done <= FirstThrowing(queue, throwing)
        invariant redrawCallbacks == queue[done..]
        invariant calls == old(calls) + Drained(queue[..done])
        decreases |queue| - done
      {
        var callback := redrawCallbacks[0];
        redrawCallbacks := redrawCallbacks[1..];
        calls := calls + [Callback(callback)];
        DrainedStep(queue, done);
        done := done + 1;
        if callback in throwing {
          return Some(callback);
        }
      }
      return None;
    }

    /** `_resize(resizeEvent)`: the canvas takes the new size. Before the
        first `onAdd` there is no canvas, a TypeError. */
    method Resize(newSize: Point) returns (outcome: Outcome)
      modifies canvas
      ensures outcome.Fail? <==> canvas == null
      ensures outcome.Fail? ==> outcome.error.TypeError?
      ensures canvas != null ==> canvas.width == newSize.x && canvas.height == newSize.y
      ensures canvas != null ==> canvas.className == old(canvas.className)
    {
      if canvas == null {
        return Fail(TypeError("Cannot set properties of undefined (setting 'width')"));
      }
      canvas.width := newSize.x;
      canvas.height := newSize.y;
      return Pass;
    }

    /** `onAdd(map)`: keep the map, create the canvas once, size it to the
        map, set its zoom class, subscribe moveend and resize (and zoomanim
        when the map animates zoom and the browser has 3D support), then
        `_reset`, which redraws. Pane insertion and positioning are not
        modelled. */
    method OnAdd(m: LeafletMap, any3d: bool, throwing: set<Value>) returns (outcome: Outcome)
      modifies this, m`listeners, canvas
      ensures hostMap == m && canvas != null
      ensures old(canvas) != null ==> canvas == old(canvas)
      ensures old(canvas) == null ==> fresh(canvas)
      ensures canvas.width == m.size.x && canvas.height == m.size.y
      ensures canvas.className == ZoomClass(m.zoomAnimation && any3d)
      ensures m.listeners == old(m.listeners) + Subscriptions(this, m.zoomAnimation && any3d)
      ensures userDrawFunc == old(userDrawFunc)
      ensures var f := Frame(true, userDrawFunc, old(State()), throwing);
        outcome == f.outcome && calls == old(calls) + f.made && State() == f.after
    {
      Attach(m, m.zoomAnimation && any3d);
      outcome := RedrawFrame(throwing);
    }

    /** The part of `onAdd` before `_reset`: keep the map, create the canvas
        once, size it, set its zoom class and subscribe to the map. */
    method Attach(m: LeafletMap, animated: bool)
      modifies this`hostMap, this`canvas, m`listeners, canvas
      ensures hostMap == m && canvas != null
      ensures old(canvas) != null ==> canvas == old(canvas)
      ensures old(canvas) == null ==> fresh(canvas)
      ensures canvas.width == m.size.x && canvas.height == m.size.y
      ensures canvas.className == ZoomClass(animated)
      ensures m.listeners == old(m.listeners) + Subscriptions(this, animated)
    {
      hostMap := m;
      if canvas == null {
        canvas := new Canvas();
      }
      canvas.width := m.size.x;
      canvas.height := m.size.y;
      canvas.className := ZoomClass(animated);
      m.listeners := m.listeners + {Listener(MoveEnd, this), Listener(EventName.Resize, this)};
      if animated {
        m.listeners := m.listeners + {Listener(ZoomAnim, this)};
      }
    }

    /** `layer.addTo(map)`, that is Leaflet's `map.addLayer(layer)` on a
        loaded map: a layer already on the map is left as it is; otherwise
        it joins the map's layers and `onAdd` runs. */
    method AddToMap(m: LeafletMap, any3d: bool, throwing: set<Value>) returns (outcome: Outcome)
      modifies this, m`listeners, m`layers, canvas
      ensures this in old(m.layers) ==>
        outcome == Pass && m.layers == old(m.layers) &&
        m.listeners == old(m.listeners) && unchanged(this) && (old(canvas) != null ==> unchanged(old(canvas)))
      ensures this !in old(m.layers) ==>
        m.layers == old(m.layers) + {this} && hostMap == m && canvas != null &&
        (old(canvas) != null ==> canvas == old(canvas)) && (old(canvas) == null ==> fresh(canvas)) &&
        canvas.width == m.size.x && canvas.height == m.size.y &&
        canvas.className == ZoomClass(m.zoomAnimation && any3d) &&
        m.listeners == old(m.listeners) + Subscriptions(this, m.zoomAnimation && any3d) &&
        userDrawFunc == old(userDrawFunc) &&
        var f := Frame(true, userDrawFunc, old(State()), throwing);
        outcome == f.outcome && calls == old(calls) + f.made && State() == f.after
    {
      if this in m.layers {
        return Pass;
      }
      m.layers := m.layers + {this};
      outcome := OnAdd(m, any3d, throwing);
    }

    /** Leaflet's `map.removeLayer(layer)`: a layer that is not on the map is
        left as it is; otherwise `onRemove` runs, the layer leaves the map's
        layers and its map is cleared. */
    method RemoveFrom(m: LeafletMap)
      modifies this`hostMap, m`listeners, m`layers
      ensures this !in old(m.layers) ==>
        m.layers == old(m.layers) && m.listeners == old(m.listeners) && hostMap == old(hostMap)
      ensures this in old(m.layers) ==>
        m.layers == old(m.layers) - {this} && hostMap == null &&
        m.listeners == old(m.listeners) - Unsubscriptions(this, m.zoomAnimation)
    {
      if this in m.layers {
        OnRemove(m);
        m.layers := m.layers - {this};
        hostMap := null;
      }
    }

    /** `onRemove(map)`: unsubscribe moveend and resize, and zoomanim when
        the map's zoomAnimation option is set. */
    method OnRemove(m: LeafletMap)
      modifies m`listeners
      ensures m.listeners == old(m.listeners) - Unsubscriptions(this, m.zoomAnimation)
    {
      m.listeners := m.listeners - {Listener(MoveEnd, this)};
      m.listeners := m.listeners - {Listener(EventName.Resize, this)};
      if m.zoomAnimation {
        m.listeners := m.listeners - {Listener(ZoomAnim, this)};
      }
    }
  }
}
