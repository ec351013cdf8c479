/** `WebSocketIngestServer`: accepts log messages over a WebSocket and adds
    them to the store, tagged "websocket". Its background thread, asyncio
    event loop and listening socket are kept as plain state; each
    asynchronous step they take (the thread's `_run` creating the loop, the
    bind finishing, a scheduled `_shutdown` running) is a method the
    environment calls. */
module WsServer {
  import opened Json
  import opened LogTypes
  import opened Ingest
  import opened Environment
  import opened Store
  import opened Status
  import opened Process
  import opened Runner
  import Metro

  const DefaultHost: string := "127.0.0.1"
  const DefaultPort: int := 8765
  const WebSocketSource: string := "websocket"

  // ---------------------------------------------------------------------
  // The message rule

  /** The payload `_handle_message` takes from one message: the message
      decoded as JSON, or, only when that decode fails, the `[Diagnostics]`
      marker parse of it. */
  function MessagePayload(lib: Library, message: string): (r: Option<JsonValue>)
    ensures lib.loads(message).Some? ==> r == lib.loads(message)
    ensures lib.loads(message).None? ==> r == ParseDiagnosticsLine(lib, message)
  {
    match lib.loads(message)
    case Some(v) => Some(v)
    case None => ParseDiagnosticsLine(lib, message)
  }

  /** What `_handle_message` does with one message. */
  function MessageAdmission(lib: Library, message: string): Admission {
    Classify(MessagePayload(lib, message))
  }

  /** A message that is not JSON is read exactly as the tailers read a
      line: bare JSON is the only thing the WebSocket accepts beyond them. */
  lemma {:induction false} NonJsonMessageIsLine(lib: Library, message: string)
    requires lib.loads(message) == None
    ensures MessageAdmission(lib, message) == Metro.LineAdmission(lib, message)
  {
  }

  /** A marked line sent over the WebSocket yields the JSON after the
      marker. */
  lemma {:induction false} MarkedMessage(lib: Library, body: string, post: string)
    requires lib.loads(DiagnosticsPrefix + body + post) == None
    requires body != [] && !IsSpace(body[0]) && !IsSpace(body[|body| - 1])
    requires forall k :: 0 <= k < |post| ==> IsSpace(post[k])
    ensures MessagePayload(lib, DiagnosticsPrefix + body + post) == lib.loads(body)
  {
    ParseMarkedLine(lib, body, post);
  }

  /** Text that is neither JSON nor carries the marker is discarded. */
  lemma {:induction false} PlainTextDiscarded(lib: Library, message: string)
    requires lib.loads(message) == None
    requires forall k :: !OccursAt(message, DiagnosticsPrefix, k)
    ensures MessageAdmission(lib, message) == Skip
  {
  }

  /** A message that decodes to a non-empty JSON string is taken as
      decoded, whatever text the string holds, and is a truthy non-object. */
  lemma {:induction false} NonEmptyJsonStringIsNotAnObject(lib: Library, message: string, s: string)
    requires lib.loads(message) == Some(JString(s)) && s != []
    ensures MessageAdmission(lib, message) == NotAnObject(JString(s))
  {
  }

  // ---------------------------------------------------------------------
  // The server

  /** What the server's event loop is doing: not created yet (`_loop` is
      None), running `_serve` until the bind completes, serving in
      `run_forever`, given up after a failed bind, or stopped by
      `_shutdown`. */
  datatype LoopPhase = NoLoop | Binding | Serving | BindFailed | Stopped

  class WebSocketIngestServer {
    const store: LogStore
    const host: string
    const port: int
    const onState: Option<StateHandler>
    var thread: Option<DaemonThread>
    var phase: LoopPhase
    /** `_server` is set: the bind succeeded. */
    var serverBound: bool
    /** `_server.close()` has been called. */
    var serverClosed: bool
    /** `_shutdown` tasks scheduled by `stop` that have not run. */
    var pendingShutdowns: nat
    var running: bool
    /** Every value `_set_running` was given, in order. */
    ghost var reports: seq<bool>

    /** `is_running` is the last value reported, and it is true only while
        the loop serves on an open server; the thread is alive exactly
        until `_run` returns. */
    ghost predicate Valid()
      reads this
      reads if thread.Some? then {thread.value} else {}
    {
      && running == LastReported(reports)
      && (running ==> phase == Serving && !serverClosed)
      && (phase == NoLoop ==> pendingShutdowns == 0)
      && (serverBound <==> phase == Serving || phase == Stopped)
      && (serverClosed ==> phase == Stopped)
      && (phase != NoLoop ==> thread.Some?)
      && (thread.Some? ==> (thread.value.alive <==> phase == NoLoop || phase == Binding || phase == Serving))
    }

    constructor (store: LogStore, host: string := DefaultHost, port: int := DefaultPort,
                 onState: Option<StateHandler> := None)
      ensures this.store == store && this.host == host && this.port == port && this.onState == onState
      ensures thread == None && phase == NoLoop && !serverBound && !serverClosed
      ensures pendingShutdowns == 0 && !running && reports == []
      ensures Valid()
    {
      this.store := store;
      this.host := host;
      this.port := port;
      this.onState := onState;
      thread := None;
      phase := NoLoop;
      serverBound := false;
      serverClosed := false;
      pendingShutdowns := 0;
      running := false;
      reports := [];
    }

    /** `is_running`: the last value `_set_running` was given, `False`
        before any; true only while serving. */
    method IsRunning() returns (r: bool)
      requires Valid()
      ensures r == LastReported(reports)
      ensures r ==> phase == Serving && serverBound && !serverClosed
    {
      r := running;
    }

    /** `_set_running(value)`. */
    method SetRunning(value: bool)
      modifies this, HandlerFrame(onState)
      ensures running == value && reports == old(reports) + [value]
      ensures thread == old(thread) && phase == old(phase) && serverBound == old(serverBound)
      ensures serverClosed == old(serverClosed) && pendingShutdowns == old(pendingShutdowns)
      ensures Reported(onState, [value])
    {
      running := value;
      reports := reports + [value];
      if onState.Some? {
        onState.value.Handle(running);
      }
    }

    /** `start()`: the first call starts the thread; every later call, even
        after `stop` or after the thread has ended, does nothing. */
    method Start()
      requires Valid()
      modifies this
      ensures Valid()
      ensures old(thread).Some? ==> thread == old(thread)
      ensures old(thread) == None ==> thread.Some? && fresh(thread.value) && thread.value.alive
      ensures phase == old(phase) && serverBound == old(serverBound) && serverClosed == old(serverClosed)
      ensures pendingShutdowns == old(pendingShutdowns) && running == old(running) && reports == old(reports)
    {
      if thread.Some? {
        return;
      }
      var t := new DaemonThread.Start();
      thread := Some(t);
    }

    /** The thread's `_run` creates the event loop and starts `_serve`. */
    method RunBegins()
      requires Valid() && thread.Some? && thread.value.alive && phase == NoLoop
      modifies this
      ensures Valid()
      ensures phase == Binding
      ensures thread == old(thread) && serverBound == old(serverBound) && serverClosed == old(serverClosed)
      ensures pendingShutdowns == old(pendingShutdowns) && running == old(running) && reports == old(reports)
    {
      phase := Binding;
    }

    /** The bind in `_serve` completes: on success the server is set and
        `True` reported and the loop goes on to `run_forever`; on failure
        the error is logged, `False` reported and `_run` returns, ending the
        thread. Nothing is raised either way. */
    method BindFinished(ok: bool)
      requires Valid() && phase == Binding
      modifies this, HandlerFrame(onState), thread.value
      ensures Valid()
      ensures phase == (if ok then Serving else BindFailed) && serverBound == ok
      ensures thread == old(thread) && thread.value.alive == ok
      ensures serverClosed == old(serverClosed) && pendingShutdowns == old(pendingShutdowns)
      ensures running == ok && reports == old(reports) + [ok] && Reported(onState, [ok])
    {
      if ok {
        serverBound := true;
        phase := Serving;
        SetRunning(true);
      } else {
        phase := BindFailed;
        SetRunning(false);
        thread.value.Finish();
      }
    }

    /** `stop()`: nothing before the loop exists; otherwise schedule a
        `_shutdown` on the loop and report `False` at once. */
    method Stop()
      requires Valid()
      modifies this, HandlerFrame(onState)
      ensures Valid()
      ensures thread == old(thread) && phase == old(phase) && serverBound == old(serverBound)
      ensures serverClosed == old(serverClosed)
      ensures old(phase) == NoLoop ==>
                pendingShutdowns == old(pendingShutdowns) && running == old(running)
                && reports == old(reports) && Reported(onState, [])
      ensures old(phase) != NoLoop ==>
                pendingShutdowns == old(pendingShutdowns) + 1 && !running
                && reports == old(reports) + [false] && Reported(onState, [false])
    {
      if phase == NoLoop {
        return;
      }
      pendingShutdowns := pendingShutdowns + 1;
      SetRunning(false);
    }

    /** A scheduled `_shutdown` runs on the serving loop: it closes the
        server, stops the loop and reports `False` again; `run_forever`
        then returns and the thread ends. The model lets only the first
        scheduled shutdown run; any other still pending is counted but
        never runs. */
    method Shutdown()
      requires Valid() && phase == Serving && pendingShutdowns > 0
      modifies this, HandlerFrame(onState), thread.value
      ensures Valid()
      ensures phase == Stopped && serverClosed && serverBound
      ensures thread == old(thread) && !thread.value.alive
      ensures pendingShutdowns == old(pendingShutdowns) - 1
      ensures !running && reports == old(reports) + [false] && Reported(onState, [false])
    {
      serverClosed := true;
      phase := Stopped;
      pendingShutdowns := pendingShutdowns - 1;
      SetRunning(false);
      thread.value.Finish();
    }

    /** `_handle_message(message)`: a falsy payload is discarded; a truthy
        non-dict makes `to_log_entry` raise (returned as `NotAnObject`); a
        dict becomes exactly one entry with source "websocket". */
    method HandleMessage(message: string, rt: Runtime) returns (admission: Admission)
      requires store.Valid()
      modifies store, rt
      ensures store.Valid()
      ensures admission == MessageAdmission(rt.lib, message)
      ensures admission.Admit? ==>
                && rt.draws == old(rt.draws) + 1
                && store.State() == AddSpec(old(store.State()), store.maxHistory, store.reaction,
                                            ToLogEntry(rt.lib, admission.payload, WebSocketSource,
                                                       rt.uuid(old(rt.draws)), rt.clock(old(rt.draws))))
      ensures !admission.Admit? ==> rt.draws == old(rt.draws) && store.State() == old(store.State())
    {
      var payload := MessagePayload(rt.lib, message);
      admission := Classify(payload);
      if admission.Admit? {
        var entry := rt.Normalize(admission.payload, WebSocketSource);
        store.Add(entry);
      }
    }
  }
}
