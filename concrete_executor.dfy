/**
 * The controller side: `ConcreteExecutor` talks to one worker process over
 * a pair of command streams, and `ConcreteExecutorPool` caches executors by
 * (user class path, instrumentation), evicting the oldest insertion.
 *
 * The worker is the environment: starting it either fails or yields the
 * whole sequence of commands it will send (`replies`); whether it is alive
 * is a flag the environment may clear.
 */
module Executing {
  import opened Protocol

  /**
   * `onCommand`: the expected kind is accepted; an `ErrorCommand` raises
   * `ChildProcessError` with its exception; anything else raises
   * `UnexpectedCommand`. Reading past the end of the stream fails.
   */
  function OnCommand(reply: Option<Command>, accepts: Command -> bool): (r: Result<Command, Exception>)
    ensures reply.None? ==> r == Failure(StreamClosed)
    ensures reply.Some? && accepts(reply.value) ==> r == Success(reply.value)
    ensures reply.Some? && !accepts(reply.value) ==>
      r == Failure(if reply.value.ErrorCommand? then ChildProcessError(reply.value.exception) else UnexpectedCommand(reply.value))
  {
    match reply
    case None => Failure(StreamClosed)
    case Some(cmd) =>
      if accepts(cmd) then Success(cmd)
      else if cmd.ErrorCommand? then Failure(ChildProcessError(cmd.exception))
      else Failure(UnexpectedCommand(cmd))
  }

  predicate IsReady(c: Command) { c.ProcessReadyCommand? }

  predicate IsInvocationResult(c: Command) { c.InvocationResultCommand? }

  /** The commands the handshake sends, in order, each after a `Ready`. */
  function HandshakeCommands(user: string, dep: string, instrumentation: InstrumentationId): seq<Command> {
    [AddPathsCommand(user, dep), SetInstrumentationCommand(instrumentation)]
  }

  /** The step (0, 1 or 2) at which the handshake stops for lack of a `Ready`, or 3 when all three arrive. */
  function HandshakeStop(replies: seq<Command>): (j: nat)
    ensures j <= 3
    ensures forall i :: 0 <= i < j ==> i < |replies| && IsReady(replies[i])
    ensures j < 3 ==> j >= |replies| || !IsReady(replies[j])
  {
    if |replies| == 0 || !IsReady(replies[0]) then 0
    else if |replies| == 1 || !IsReady(replies[1]) then 1
    else if |replies| == 2 || !IsReady(replies[2]) then 2
    else 3
  }

  class ConcreteExecutor {
    const instrumentation: InstrumentationId
    const pathsToUserClasses: string
    const pathsToDependencyClasses: string
    /** `childProcessRunner.isRunning`. */
    var running: bool
    /** Commands written to the current worker, oldest first. */
    var sent: seq<Command>
    /** Everything the current worker sends, and how much of it has been read. */
    var incoming: seq<Command>
    var readPos: nat

    ghost predicate Valid()
      reads this
    {
      readPos <= |incoming|
    }

    /** The next command `readCommand` returns, if the worker sends one more. */
    function NextReply(): Option<Command>
      reads this
    {
      if readPos < |incoming| then Some(incoming[readPos]) else None
    }

    /** A new executor: the worker is not started yet (`createNew` then runs `RestartIfNeeded`). */
    constructor (instrumentation: InstrumentationId, pathsToUserClasses: string, pathsToDependencyClasses: string)
      ensures Valid() && !running
      ensures this.instrumentation == instrumentation && this.pathsToUserClasses == pathsToUserClasses
      ensures this.pathsToDependencyClasses == pathsToDependencyClasses
      ensures sent == [] && incoming == [] && readPos == 0
    {
      this.instrumentation := instrumentation;
      this.pathsToUserClasses := pathsToUserClasses;
      this.pathsToDependencyClasses := pathsToDependencyClasses;
      running := false;
      sent, incoming, readPos := [], [], 0;
    }

    method ReadCommand() returns (c: Option<Command>)
      requires Valid()
      modifies this
      ensures Valid()
      ensures c == old(NextReply())
      ensures readPos == old(if readPos < |incoming| then readPos + 1 else readPos)
      ensures running == old(running) && sent == old(sent) && incoming == old(incoming)
    {
      if readPos < |incoming| {
        c := Some(incoming[readPos]);
        readPos := readPos + 1;
      } else {
        c := None;
      }
    }

    method WriteCommand(cmd: Command)
      modifies this
      ensures sent == old(sent) + [cmd]
      ensures running == old(running) && incoming == old(incoming) && readPos == old(readPos)
    {
      sent := sent + [cmd];
    }

    /** `waitForReady`: reads one command, which must be `Ready`. */
    method WaitForReady() returns (err: Option<Exception>)
      requires Valid()
      modifies this
      ensures Valid()
      ensures var o := OnCommand(old(NextReply()), IsReady);
        err == if o.Success? then None else Some(o.error)
      ensures readPos == old(if readPos < |incoming| then readPos + 1 else readPos)
      ensures running == old(running) && sent == old(sent) && incoming == old(incoming)
    {
      var c := ReadCommand();
      var o := OnCommand(c, IsReady);
      err := if o.Success? then None else Some(o.error);
    }

    /**
     * Nothing when the worker is alive. Otherwise starts a new worker
     * (`start` is the failure of the start itself, if any) and runs the
     * handshake: Ready, AddPaths, Ready, SetInstrumentation, Ready. Any
     * failure becomes `ChildProcessStartException`; a worker that started
     * stays alive even when the handshake fails.
     */
    method RestartIfNeeded(start: Option<Exception>, replies: seq<Command>) returns (err: Option<Exception>)
      requires Valid()
      modifies this
      ensures Valid()
      ensures old(running) ==> err == None && running && sent == old(sent) && incoming == old(incoming) && readPos == old(readPos)
      ensures !old(running) && start.Some? ==>
        err == Some(ChildProcessStartException(start.value)) && !running
        && sent == old(sent) && incoming == old(incoming) && readPos == old(readPos)
      ensures !old(running) && start.None? ==>
        var j := HandshakeStop(replies);
        && running && incoming == replies
        && sent == HandshakeCommands(pathsToUserClasses, pathsToDependencyClasses, instrumentation)[..if j < 2 then j else 2]
        && readPos == (if j < 3 && j < |replies| then j + 1 else j)
        && (j == 3 ==> err == None && readPos == 3)
        && (j < 3 ==> err == Some(ChildProcessStartException(OnCommand(if j < |replies| then Some(replies[j]) else None, IsReady).error)))
    {
      if running {
        return None;
      }
      if start.Some? {
        return Some(ChildProcessStartException(start.value));
      }
      running, sent, incoming, readPos := true, [], replies, 0;
      var e := WaitForReady();
      if e.Some? {
        return Some(ChildProcessStartException(e.value));
      }
      WriteCommand(AddPathsCommand(pathsToUserClasses, pathsToDependencyClasses));
      e := WaitForReady();
      if e.Some? {
        return Some(ChildProcessStartException(e.value));
      }
      WriteCommand(SetInstrumentationCommand(instrumentation));
      e := WaitForReady();
      if e.Some? {
        return Some(ChildProcessStartException(e.value));
      }
      err := None;
    }

    /**
     * Ensures a live worker, sends exactly one `InvokeMethodCommand` and
     * reads exactly one reply, whose result is returned.
     */
    method Execute(className: string, signature: string, arguments: seq<Value>, parameters: Value,
                   start: Option<Exception>, replies: seq<Command>) returns (r: Result<Value, Exception>)
      requires Valid()
      modifies this
      ensures Valid() && running == (old(running) || start.None?)
      ensures !old(running) && (start.Some? || HandshakeStop(replies) < 3) ==>
        r.Failure? && r.error.ChildProcessStartException?
      ensures old(running) || (start.None? && HandshakeStop(replies) == 3) ==>
        var before := if old(running) then old(sent) else HandshakeCommands(pathsToUserClasses, pathsToDependencyClasses, instrumentation);
        var pos := if old(running) then old(readPos) else 3;
        var reply := if pos < |incoming| then Some(incoming[pos]) else None;
        var o := OnCommand(reply, IsInvocationResult);
        && sent == before + [InvokeMethodCommand(className, signature, arguments, parameters)]
        && readPos == (if pos < |incoming| then pos + 1 else pos)
        && r == (if o.Success? then Success(o.value.result) else Failure(o.error))
    {
      var err := RestartIfNeeded(start, replies);
      if err.Some? {
        return Failure(err.value);
      }
      WriteCommand(InvokeMethodCommand(className, signature, arguments, parameters));
      var c := ReadCommand();
      var o := OnCommand(c, IsInvocationResult);
      r := if o.Success? then Success(o.value.result) else Failure(o.error);
    }

    /**
     * Sends `cmd`; without an action nothing is read and `None` comes back,
     * with one the next command is read and handed to it unchecked.
     */
    method Request(cmd: Command, action: Option<Command -> Value>,
                   start: Option<Exception>, replies: seq<Command>) returns (r: Result<Option<Value>, Exception>)
      requires Valid()
      modifies this
      ensures Valid() && running == (old(running) || start.None?)
      ensures !old(running) && (start.Some? || HandshakeStop(replies) < 3) ==>
        r.Failure? && r.error.ChildProcessStartException?
      ensures old(running) || (start.None? && HandshakeStop(replies) == 3) ==>
        var before := if old(running) then old(sent) else HandshakeCommands(pathsToUserClasses, pathsToDependencyClasses, instrumentation);
        var pos := if old(running) then old(readPos) else 3;
        && sent == before + [cmd]
        && (action.None? ==> r == Success(None) && readPos == pos)
        && (action.Some? && pos < |incoming| ==> r == Success(Some(action.value(incoming[pos]))) && readPos == pos + 1)
        && (action.Some? && pos >= |incoming| ==> r == Failure(StreamClosed) && readPos == pos)
    {
      var err := RestartIfNeeded(start, replies);
      if err.Some? {
        return Failure(err.value);
      }
      WriteCommand(cmd);
      if action.None? {
        return Success(None);
      }
      var c := ReadCommand();
      if c.None? {
        return Failure(StreamClosed);
      }
      r := Success(Some(action.value(c.value)));
    }

    /** Nothing when the worker is gone; otherwise sends `Stop` once and waits for the worker to exit. */
    method Close()
      modifies this
      ensures !running
      ensures sent == old(sent) + (if old(running) then [StopProcessCommand] else [])
      ensures incoming == old(incoming) && readPos == old(readPos)
    {
      if !running {
        return;
      }
      WriteCommand(StopProcessCommand);
      running := false;
    }

    /** The environment: the worker exits on its own (a crash, or a `Stop` sent by `request`). */
    method ProcessExited()
      modifies this
      ensures !running && sent == old(sent) && incoming == old(incoming) && readPos == old(readPos)
    {
      running := false;
    }
  }

  /** The index of the first executor with the key, if any. */
  function FindExecutor(executors: seq<ConcreteExecutor>, instrumentation: InstrumentationId, user: string): (r: Option<nat>)
    ensures r.None? <==> forall i :: 0 <= i < |executors| ==>
      !(executors[i].pathsToUserClasses == user && executors[i].instrumentation == instrumentation)
    ensures r.Some? ==>
      && r.value < |executors|
      && executors[r.value].pathsToUserClasses == user && executors[r.value].instrumentation == instrumentation
      && forall i :: 0 <= i < r.value ==>
           !(executors[i].pathsToUserClasses == user && executors[i].instrumentation == instrumentation)
    decreases |executors|
  {
    if executors == [] then None
    else if executors[0].pathsToUserClasses == user && executors[0].instrumentation == instrumentation then Some(0)
    else
      var rest := FindExecutor(executors[1..], instrumentation, user);
      assert forall i :: 0 < i < |executors| ==> executors[1..][i - 1] == executors[i];
      if rest.None? then None else Some(rest.value + 1)
  }

  class ConcreteExecutorPool {
    const maxCount: int
    /** The `ArrayDeque`: newest insertion first. */
    var executors: seq<ConcreteExecutor>

    ghost predicate Valid()
      reads this
    {
      && |executors| <= maxCount
      && forall i, j :: 0 <= i < j < |executors| ==> executors[i] != executors[j]
    }

    /** `ArrayDeque(maxCount)` rejects a negative capacity. */
    constructor (maxCount: int)
      requires maxCount >= 0
      ensures Valid() && this.maxCount == maxCount && executors == []
    {
      this.maxCount := maxCount;
      executors := [];
    }

    /**
     * A hit returns the first executor with the same user class path and
     * instrumentation (dependency paths are not compared) and leaves the
     * deque as it is. A miss creates an executor, which starts its worker:
     * if that fails nothing is added; otherwise it is put first, and when
     * the deque then holds more than `maxCount` executors the last one is
     * removed and closed. The new executor has run the whole handshake; with
     * `maxCount == 0` it is itself the one removed, so it comes back closed.
     */
    method Get(instrumentation: InstrumentationId, user: string, dep: string,
               start: Option<Exception>, replies: seq<Command>) returns (r: Result<ConcreteExecutor, Exception>)
      requires Valid()
      modifies this, executors
      ensures Valid()
      ensures var hit := FindExecutor(old(executors), instrumentation, user);
        && (hit.Some? ==> r == Success(old(executors)[hit.value]) && executors == old(executors))
        && (hit.None? && r.Failure? ==> executors == old(executors) && r.error.ChildProcessStartException?)
        && (hit.None? && r.Success? ==>
              && fresh(r.value)
              && r.value.pathsToUserClasses == user && r.value.instrumentation == instrumentation
              && r.value.pathsToDependencyClasses == dep
              && executors == ([r.value] + old(executors))[..if |old(executors)| + 1 > maxCount then |old(executors)| else |old(executors)| + 1]
              && r.value.incoming == replies && r.value.readPos == 3
              && (maxCount > 0 ==>
                    r.value.running && r.value.sent == HandshakeCommands(user, dep, instrumentation))
              && (maxCount == 0 ==>
                    !r.value.running && r.value.sent == HandshakeCommands(user, dep, instrumentation) + [StopProcessCommand]))
      ensures forall e :: e in old(executors) && e in executors ==> unchanged(e)
      ensures forall e :: e in old(executors) && e !in executors ==>
        !e.running && e.sent == old(e.sent) + (if old(e.running) then [StopProcessCommand] else [])
    {
      var hit := FindExecutor(executors, instrumentation, user);
      if hit.Some? {
        return Success(executors[hit.value]);
      }
      var e := new ConcreteExecutor(instrumentation, user, dep);
      var err := e.RestartIfNeeded(start, replies);
      if err.Some? {
        return Failure(err.value);
      }
      ghost var before := executors;
      executors := [e] + executors;
      if |executors| > maxCount {
        var last := executors[|executors| - 1];
        executors := executors[..|executors| - 1];
        assert forall k :: 0 <= k < |before| - 1 ==> executors[k + 1] == before[k];
        last.Close();
      }
      r := Success(e);
    }

    /** Closes every executor, then empties the deque. */
    method Close()
      requires Valid()
      modifies this, executors
      ensures Valid() && executors == []
      ensures forall e :: e in old(executors) ==>
        !e.running && e.sent == old(e.sent) + (if old(e.running) then [StopProcessCommand] else [])
    {
      var i := 0;
      while i < |executors|
        invariant 0 <= i <= |executors| && executors == old(executors)
        invariant forall k :: 0 <= k < i ==>
          !executors[k].running && executors[k].sent == old(executors[k].sent) + (if old(executors[k].running) then [StopProcessCommand] else [])
        invariant forall k :: i <= k < |executors| ==> unchanged(executors[k])
      {
        executors[i].Close();
        i := i + 1;
      }
      executors := [];
    }
  }
}
