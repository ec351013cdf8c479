/** The boolean status callbacks of the runners and the controller. */
module Status {
  import opened Json

  /** A `Callable[[bool], None]` registered with the controller through
      `set_ws_status_callback` or `set_metro_status_callback`. What it does
      is outside the model; `calls` records every value it was given. */
  class StatusCallback {
    var calls: seq<bool>

    constructor ()
      ensures calls == []
    {
      calls := [];
    }

    method Call(running: bool)
      modifies this
      ensures calls == old(calls) + [running]
    {
      calls := calls + [running];
    }
  }

  /** The `on_state` callback a runner is built with: the controller's
      bound method `_handle_ws_state` or `_handle_metro_state`. It forwards
      each value to the status callback the controller holds at that moment
      (`_on_ws_status` or `_on_metro_status`, kept here as `registered`),
      and does nothing when none is registered. `received` records every
      call. */
  class StateHandler {
    var registered: Option<StatusCallback>
    var received: seq<bool>

    constructor ()
      ensures registered == None && received == []
    {
      registered := None;
      received := [];
    }

    ghost function Frame(): set<object>
      reads this
    {
      {this} + if registered.Some? then {registered.value} else {}
    }

    /** `_handle_ws_state(running)` / `_handle_metro_state(running)`. */
    method Handle(running: bool)
      modifies Frame()
      ensures registered == old(registered)
      ensures received == old(received) + [running]
      ensures registered.Some? ==> registered.value.calls == old(registered.value.calls) + [running]
    {
      received := received + [running];
      if registered.Some? {
        registered.value.Call(running);
      }
    }
  }

  /** The objects an optional `on_state` callback may change. */
  ghost function HandlerFrame(h: Option<StateHandler>): set<object>
    reads if h.Some? then {h.value} else {}
  {
    if h.Some? then h.value.Frame() else {}
  }

  /** Between the two states, the optional handler `h` was called with
      exactly `values`, in order, and forwarded each of them to the status
      callback registered with it, if any. */
  twostate predicate Reported(h: Option<StateHandler>, values: seq<bool>)
    reads if h.Some? then {h.value} else {}
    reads if h.Some? && h.value.registered.Some? then {h.value.registered.value} else {}
  {
    h.Some? ==>
      && h.value.registered == old(h.value.registered)
      && h.value.received == old(h.value.received) + values
      && (h.value.registered.Some? ==>
            h.value.registered.value.calls == old(h.value.registered.value.calls) + values)
  }
}
