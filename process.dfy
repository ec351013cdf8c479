/** The operating-system resources the runners hold: a spawned child
    process and a background thread. Their real behaviour is outside the model;
    what the core observes of them is kept as plain state, and the events
    that happen to them independently of the core (the child exiting, the
    thread finishing) are methods the environment calls. */
module Process {
  import opened Json

  /** The command both Metro tailers spawn. */
  const NpmStart: seq<string> := ["npm", "run", "start"]

  /** A child started with `subprocess.Popen(command, cwd=..., stdout=PIPE,
      stderr=STDOUT, text=True)`. */
  class ChildProcess {
    const command: seq<string>
    const cwd: string
    /** Whether `proc.stdout` is set, that is, the output pipe attached. */
    const stdoutAttached: bool
    /** `proc.poll() is None`: the child has not exited. */
    var alive: bool
    /** How many times `terminate()` (SIGTERM, no wait) was called. */
    var terminateRequests: nat

    constructor Spawn(command: seq<string>, cwd: string, stdoutAttached: bool)
      ensures this.command == command && this.cwd == cwd && this.stdoutAttached == stdoutAttached
      ensures alive && terminateRequests == 0
    {
      this.command := command;
      this.cwd := cwd;
      this.stdoutAttached := stdoutAttached;
      alive := true;
      terminateRequests := 0;
    }

    /** `proc.terminate()`: a request, so the child may still be alive. */
    method Terminate()
      modifies this
      ensures terminateRequests == old(terminateRequests) + 1
      ensures alive == old(alive)
    {
      terminateRequests := terminateRequests + 1;
    }

    /** The child exits (on its own or after a termination request). */
    method Exit()
      modifies this
      ensures !alive && terminateRequests == old(terminateRequests)
    {
      alive := false;
    }
  }

  /** A daemon `threading.Thread`; alive from `start()` until its target
      returns. */
  class DaemonThread {
    var alive: bool

    constructor Start()
      ensures alive
    {
      alive := true;
    }

    method Finish()
      modifies this
      ensures !alive
    {
      alive := false;
    }
  }

  /** `if proc and proc.poll() is None: proc.terminate()`: one termination
      request exactly when there is a child and it is still alive; the
      child exits later, if at all. */
  twostate predicate TerminatedIfAlive(proc: Option<ChildProcess>)
    reads if proc.Some? then {proc.value} else {}
  {
    proc.Some? ==>
      && proc.value.alive == old(proc.value.alive)
      && proc.value.terminateRequests == old(proc.value.terminateRequests) + (if old(proc.value.alive) then 1 else 0)
  }

  method TerminateIfAlive(proc: Option<ChildProcess>)
    modifies if proc.Some? then {proc.value} else {}
    ensures TerminatedIfAlive(proc)
  {
    if proc.Some? && proc.value.alive {
      proc.value.Terminate();
    }
  }
}
