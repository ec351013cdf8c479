/** `MetroRunner`: spawns `npm run start` in an Expo project and tails its
    output on a background thread, tagging every entry "metro". Unlike the
    blocking tailer, it never propagates an error: it logs it and reports
    `False` through its `on_state` callback. The background thread's run of
    `_tail` is the method `Tail`, which the environment calls once the
    thread has started; it is modelled as one atomic step. */
module Runner {
  import opened Json
  import opened Environment
  import opened Store
  import opened Status
  import opened Process
  import opened Metro

  /** The value a running flag holds after being set to each of `values` in
      turn, starting from `false`. */
  function LastReported(values: seq<bool>): (r: bool)
  {
    if values == [] then false else values[|values| - 1]
  }

  class MetroRunner {
    const store: LogStore
    const onState: Option<StateHandler>
    var proc: Option<ChildProcess>
    var thread: Option<DaemonThread>
    var running: bool
    /** Every value `_set_running` was given, in order. */
    ghost var reports: seq<bool>

    /** `is_running` is the last value reported, and a live reader thread
        always has a child whose output pipe is attached to tail. */
    ghost predicate Valid()
      reads this
      reads if thread.Some? then {thread.value} else {}
      reads if proc.Some? then {proc.value} else {}
    {
      && running == LastReported(reports)
      && (thread.Some? && thread.value.alive ==> proc.Some? && proc.value.stdoutAttached)
    }

    constructor (store: LogStore, onState: Option<StateHandler> := None)
      ensures this.store == store && this.onState == onState
      ensures proc == None && thread == None && !running && reports == []
      ensures Valid()
    {
      this.store := store;
      this.onState := onState;
      proc := None;
      thread := None;
      running := false;
      reports := [];
    }

    /** `is_running`: the last value `_set_running` was given, `False`
        before any. */
    method IsRunning() returns (r: bool)
      requires Valid()
      ensures r == LastReported(reports)
    {
      r := running;
    }

    /** `_set_running(value)`: store the flag, then report it to `on_state`
        when there is one. */
    method SetRunning(value: bool)
      modifies this, HandlerFrame(onState)
      ensures running == value && reports == old(reports) + [value]
      ensures proc == old(proc) && thread == old(thread)
      ensures Reported(onState, [value])
    {
      running := value;
      reports := reports + [value];
      if onState.Some? {
        onState.value.Handle(running);
      }
    }

    /** `start(project_dir)`. Nothing happens while a reader thread is
        alive, even after `stop`. Otherwise the child is spawned; when
        `Popen` raises (`spawnOk` false) the error propagates with nothing
        changed or reported; without an output pipe `False` is reported
        and no thread is started, and with one `True` is reported before
        the reader thread starts. */
    method Start(projectDir: string, spawnOk: bool, stdoutAttached: bool) returns (raised: bool)
      requires Valid()
      modifies this, HandlerFrame(onState)
      ensures Valid()
      ensures raised <==> !(old(thread).Some? && old(thread.value.alive)) && !spawnOk
      ensures (old(thread).Some? && old(thread.value.alive)) || raised ==>
                && proc == old(proc) && thread == old(thread)
                && running == old(running) && reports == old(reports) && Reported(onState, [])
      ensures !(old(thread).Some? && old(thread.value.alive)) && !raised ==>
                && proc.Some? && fresh(proc.value)
                && proc.value.command == NpmStart && proc.value.cwd == projectDir
                && proc.value.stdoutAttached == stdoutAttached
                && proc.value.alive && proc.value.terminateRequests == 0
                && (!stdoutAttached ==>
                      thread == old(thread) && reports == old(reports) + [false] && Reported(onState, [false]))
                && (stdoutAttached ==>
                      && thread.Some? && fresh(thread.value) && thread.value.alive
                      && reports == old(reports) + [true] && Reported(onState, [true]))
    {
      if thread.Some? && thread.value.alive {
        return false;
      }
      if !spawnOk {
        return true;
      }
      raised := false;
      var child := new ChildProcess.Spawn(NpmStart, projectDir, stdoutAttached);
      proc := Some(child);
      if !child.stdoutAttached {
        SetRunning(false);
        return;
      }
      SetRunning(true);
      var reader := new DaemonThread.Start();
      thread := Some(reader);
    }

    /** `stop()`: request termination of a live child, then report `False`
        whether or not there was one. The reader thread is left to see the
        end of the output. */
    method Stop()
      requires Valid()
      modifies this, HandlerFrame(onState), if proc.Some? then {proc.value} else {}
      ensures Valid()
      ensures proc == old(proc) && thread == old(thread)
      ensures TerminatedIfAlive(proc)
      ensures !running && reports == old(reports) + [false] && Reported(onState, [false])
    {
      TerminateIfAlive(proc);
      SetRunning(false);
    }

    /** `_tail(stdout)`, run by the reader thread: `output` is what the
        child wrote before its output ended, or before reading it raised
        when `streamError` holds. Every line is ingested with source "metro"
        up to the first that raises; the error is logged (returned here as
        `failure`), `False` is reported in every case, and the thread ends. */
    method Tail(output: seq<string>, streamError: bool, rt: Runtime) returns (failure: Option<TailError>)
      requires Valid() && store.Valid()
      requires thread.Some? && thread.value.alive
      modifies this, HandlerFrame(onState), thread.value, store, rt
      ensures Valid()
      ensures Ingested(store, rt, output, MetroSource)
      ensures failure == TailFailure(rt.lib, output, streamError)
      ensures proc == old(proc) && thread == old(thread) && !thread.value.alive
      ensures !running && reports == old(reports) + [false] && Reported(onState, [false])
    {
      var _ := FeedLines(store, rt, output, MetroSource);
      failure := TailFailure(rt.lib, output, streamError);
      SetRunning(false);
      thread.value.Finish();
    }
  }
}
