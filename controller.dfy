/** `IngestController`: owns the WebSocket server and the Metro runner that
    feed one store, starts and stops each on request, and forwards their
    running-state changes to the status callbacks the UI registers. */
module Controller {
  import opened Json
  import opened Store
  import opened Status
  import opened Process
  import opened Runner
  import opened WsServer

  /** How `start_metro` ended. `MissingStartWithCommand` is the
      `AttributeError` raised when a command is given, because the runner
      has no `start_with_command`; `SpawnFailed` is the error `Popen`
      raised inside the runner's `start`. In both the runner has already
      been replaced. */
  datatype MetroStartOutcome = AlreadyRunning | Started | MissingStartWithCommand | SpawnFailed

  class IngestController {
    const store: LogStore
    var wsHost: string
    var wsPort: int
    var wsServer: Option<WebSocketIngestServer>
    var metro: Option<MetroRunner>
    /** The bound method `_handle_ws_state`; the callback it forwards to,
        `_on_ws_status`, is its `registered` field. */
    const wsHandler: StateHandler
    /** The bound method `_handle_metro_state`, forwarding to
        `_on_metro_status`. */
    const metroHandler: StateHandler

    /** Each runner the controller holds feeds its store and reports to its
        own handler. */
    ghost predicate Valid()
      reads this
      reads if wsServer.Some? then {wsServer.value} else {}
      reads if wsServer.Some? && wsServer.value.thread.Some? then {wsServer.value.thread.value} else {}
      reads if metro.Some? then {metro.value} else {}
      reads if metro.Some? && metro.value.thread.Some? then {metro.value.thread.value} else {}
      reads if metro.Some? && metro.value.proc.Some? then {metro.value.proc.value} else {}
    {
      && wsHandler != metroHandler
      && (wsServer.Some? ==>
            wsServer.value.store == store && wsServer.value.onState == Some(wsHandler) && wsServer.value.Valid())
      && (metro.Some? ==>
            metro.value.store == store && metro.value.onState == Some(metroHandler) && metro.value.Valid())
    }

    constructor (store: LogStore, host: string := DefaultHost, port: int := DefaultPort)
      ensures Valid()
      ensures this.store == store && wsHost == host && wsPort == port
      ensures wsServer == None && metro == None
      ensures fresh(wsHandler) && wsHandler.registered == None && wsHandler.received == []
      ensures fresh(metroHandler) && metroHandler.registered == None && metroHandler.received == []
    {
      this.store := store;
      wsHost := host;
      wsPort := port;
      wsServer := None;
      metro := None;
      wsHandler := new StateHandler();
      metroHandler := new StateHandler();
    }

    /** `set_ws_status_callback(callback)`: later WebSocket state changes
        go to `callback`. */
    method SetWsStatusCallback(callback: StatusCallback)
      modifies wsHandler
      ensures wsHandler.registered == Some(callback) && wsHandler.received == old(wsHandler.received)
    {
      wsHandler.registered := Some(callback);
    }

    /** `set_metro_status_callback(callback)`. */
    method SetMetroStatusCallback(callback: StatusCallback)
      modifies metroHandler
      ensures metroHandler.registered == Some(callback) && metroHandler.received == old(metroHandler.received)
    {
      metroHandler.registered := Some(callback);
    }

    /** `configure_ws(host, port)`: only the stored address changes; a
        server already built keeps its own. */
    method ConfigureWs(host: string, port: int)
      requires Valid()
      modifies this
      ensures Valid()
      ensures wsHost == host && wsPort == port
      ensures wsServer == old(wsServer) && metro == old(metro)
    {
      wsHost := host;
      wsPort := port;
    }

    /** `start_ws(host, port)`: reconfigure when both are given; do nothing
        more while the current server reports running; otherwise replace it
        with a fresh server on the current address and start that one. */
    method StartWs(host: Option<string>, port: Option<int>)
      requires Valid()
      modifies this
      ensures Valid()
      ensures metro == old(metro)
      ensures host.Some? && port.Some? ==> wsHost == host.value && wsPort == port.value
      ensures !(host.Some? && port.Some?) ==> wsHost == old(wsHost) && wsPort == old(wsPort)
      ensures old(wsServer).Some? && old(wsServer.value.running) ==> wsServer == old(wsServer)
      ensures !(old(wsServer).Some? && old(wsServer.value.running)) ==>
                && wsServer.Some? && fresh(wsServer.value)
                && wsServer.value.host == wsHost && wsServer.value.port == wsPort
                && wsServer.value.thread.Some? && wsServer.value.thread.value.alive
                && wsServer.value.phase == NoLoop && !wsServer.value.running
    {
      if host.Some? && port.Some? {
        ConfigureWs(host.value, port.value);
      }
      if wsServer.Some? {
        var running := wsServer.value.IsRunning();
        if running {
          return;
        }
      }
      var server := new WebSocketIngestServer(store, wsHost, wsPort, Some(wsHandler));
      server.Start();
      wsServer := Some(server);
    }

    /** `stop_ws()`: nothing without a server, otherwise the server's
        `stop`. */
    method StopWs()
      requires Valid()
      modifies if wsServer.Some? then {wsServer.value} + wsHandler.Frame() else {}
      ensures Valid()
      ensures wsServer == old(wsServer) && metro == old(metro)
      ensures wsServer.Some? ==>
                && wsServer.value.phase == old(wsServer.value.phase)
                && wsServer.value.thread == old(wsServer.value.thread)
                && wsServer.value.serverBound == old(wsServer.value.serverBound)
                && wsServer.value.serverClosed == old(wsServer.value.serverClosed)
                && (old(wsServer.value.phase) == NoLoop ==>
                      wsServer.value.reports == old(wsServer.value.reports) && Reported(Some(wsHandler), []))
                && (old(wsServer.value.phase) != NoLoop ==>
                      && wsServer.value.pendingShutdowns == old(wsServer.value.pendingShutdowns) + 1
                      && !wsServer.value.running
                      && wsServer.value.reports == old(wsServer.value.reports) + [false]
                      && Reported(Some(wsHandler), [false]))
    {
      if wsServer.None? {
        return;
      }
      wsServer.value.Stop();
    }

    /** `ws_running()`: false without a server, otherwise the server's
        `is_running`. */
    method WsRunning() returns (r: bool)
      requires Valid()
      ensures r <==> wsServer.Some? && LastReported(wsServer.value.reports)
      ensures r ==> wsServer.value.phase == Serving
    {
      if wsServer.None? {
        return false;
      }
      r := wsServer.value.IsRunning();
    }

    /** `start_metro(project_dir, command)`: nothing while the current
        runner reports running; otherwise the runner is replaced by a fresh
        one, which is started when no command (or an empty one) is given.
        `spawnOk` says whether the runner's `Popen` succeeds. */
    method StartMetro(projectDir: string, command: Option<seq<string>>, spawnOk: bool, stdoutAttached: bool)
      returns (outcome: MetroStartOutcome)
      requires Valid()
      modifies this, metroHandler.Frame()
      ensures Valid()
      ensures wsServer == old(wsServer) && wsHost == old(wsHost) && wsPort == old(wsPort)
      ensures old(metro).Some? && old(metro.value.running) ==>
                outcome == AlreadyRunning && metro == old(metro) && Reported(Some(metroHandler), [])
      ensures !(old(metro).Some? && old(metro.value.running)) ==>
                && metro.Some? && fresh(metro.value)
                && (command.Some? && command.value != [] ==>
                      && outcome == MissingStartWithCommand
                      && metro.value.proc == None && metro.value.thread == None && !metro.value.running
                      && Reported(Some(metroHandler), []))
                && (!(command.Some? && command.value != []) && !spawnOk ==>
                      && outcome == SpawnFailed
                      && metro.value.proc == None && metro.value.thread == None && !metro.value.running
                      && Reported(Some(metroHandler), []))
                && (!(command.Some? && command.value != []) && spawnOk ==>
                      && outcome == Started
                      && metro.value.proc.Some? && metro.value.proc.value.command == NpmStart
                      && metro.value.proc.value.cwd == projectDir
                      && metro.value.running == stdoutAttached
                      && metro.value.proc.value.stdoutAttached == stdoutAttached
                      && (!stdoutAttached ==> metro.value.thread == None)
                      && (stdoutAttached ==> metro.value.thread.Some? && metro.value.thread.value.alive)
                      && Reported(Some(metroHandler), [stdoutAttached]))
    {
      if metro.Some? {
        var running := metro.value.IsRunning();
        if running {
          return AlreadyRunning;
        }
      }
      var runner := new MetroRunner(store, Some(metroHandler));
      metro := Some(runner);
      if command.Some? && command.value != [] {
        return MissingStartWithCommand;
      }
      var raised := runner.Start(projectDir, spawnOk, stdoutAttached);
      outcome := if raised then SpawnFailed else Started;
    }

    /** `stop_metro()`: nothing without a runner, otherwise the runner's
        `stop`. */
    method StopMetro()
      requires Valid()
      modifies if metro.Some? then {metro.value} + metroHandler.Frame() else {}
      modifies if metro.Some? && metro.value.proc.Some? then {metro.value.proc.value} else {}
      ensures Valid()
      ensures metro == old(metro) && wsServer == old(wsServer)
      ensures metro.Some? ==>
                && metro.value.proc == old(metro.value.proc)
                && metro.value.thread == old(metro.value.thread)
                && TerminatedIfAlive(metro.value.proc)
                && !metro.value.running
                && metro.value.reports == old(metro.value.reports) + [false]
                && Reported(Some(metroHandler), [false])
    {
      if metro.None? {
        return;
      }
      metro.value.Stop();
    }

    /** `metro_running()`: false without a runner, otherwise the runner's
        `is_running`. */
    method MetroRunning() returns (r: bool)
      requires Valid()
      ensures r <==> metro.Some? && LastReported(metro.value.reports)
    {
      if metro.None? {
        return false;
      }
      r := metro.value.IsRunning();
    }
  }
}
