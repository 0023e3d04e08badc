/**
 * The worker process: announces itself, takes the class path and the
 * instrumentation from the controller, installs them in the agent's
 * transformer, then answers commands until told to stop.
 *
 * The input stream is the sequence of commands the controller sends; the
 * instrumentation's `invoke` and `handle` are given as functions of the
 * command.
 */
module ChildProcessing {
  import opened Protocol
  import opened DynamicTransform
  import opened Executing

  /** `File.pathSeparatorChar` on Unix. */
  const PathSeparator: char := ':'

  /** Kotlin's `split(c)`: the pieces between separators, empty ones included; never an empty list. */
  function Split(s: string, c: char): (r: seq<string>)
    ensures |r| >= 1
    ensures forall i :: 0 <= i < |r| ==> c !in r[i]
    decreases |s|
  {
    if |s| == 0 then [""]
    else if s[0] == c then [""] + Split(s[1..], c)
    else
      var t := Split(s[1..], c);
      [[s[0]] + t[0]] + t[1..]
  }

  /** `joinToString(c)`. */
  function Join(pieces: seq<string>, c: char): string
    requires |pieces| >= 1
    decreases |pieces|
  {
    if |pieces| == 1 then pieces[0] else pieces[0] + [c] + Join(pieces[1..], c)
  }

  /** Splitting loses nothing: joining the pieces back gives the string. */
  lemma {:induction false} JoinSplit(s: string, c: char)
    ensures Join(Split(s, c), c) == s
    decreases |s|
  {
    if |s| > 0 {
      JoinSplit(s[1..], c);
      var t := Split(s[1..], c);
      if s[0] != c {
        if |t| == 1 {
          assert Join(Split(s, c), c) == [s[0]] + t[0];
        } else {
          assert Split(s, c)[1..] == t[1..];
          assert Join(t, c) == t[0] + [c] + Join(t[1..], c);
        }
      }
      assert s == [s[0]] + s[1..];
    }
  }

  /** Pieces free of the separator are recovered by splitting their join. */
  lemma {:induction false} SplitJoin(pieces: seq<string>, c: char)
    requires |pieces| >= 1
    requires forall i :: 0 <= i < |pieces| ==> c !in pieces[i]
    ensures Split(Join(pieces, c), c) == pieces
    decreases |pieces|, |pieces[0]|
  {
    var p := pieces[0];
    if |p| == 0 {
      if |pieces| == 1 {
      } else {
        SplitJoin(pieces[1..], c);
        assert Join(pieces, c) == [c] + Join(pieces[1..], c);
        assert ([c] + Join(pieces[1..], c))[1..] == Join(pieces[1..], c);
      }
    } else {
      var shorter := [p[1..]] + pieces[1..];
      assert forall i :: 1 <= i < |shorter| ==> shorter[i] == pieces[i];
      assert c !in shorter[0] by {
        assert forall k :: 0 <= k < |p| - 1 ==> p[1..][k] == p[k + 1];
      }
      SplitJoin(shorter, c);
      assert Join(pieces, c) == [p[0]] + Join(shorter, c) by {
        if |pieces| > 1 {
          assert Join(shorter, c) == p[1..] + [c] + Join(pieces[1..], c);
        }
        assert p == [p[0]] + p[1..];
      }
      assert ([p[0]] + Join(shorter, c))[1..] == Join(shorter, c);
      assert p == [p[0]] + shorter[0];
      assert shorter[1..] == pieces[1..];
      assert pieces == [[p[0]] + shorter[0]] + shorter[1..];
    }
  }

  /** How `instrumentation.invoke` on a loaded class ends: a value, an `Exception`, or an `Error` the loop does not catch. */
  datatype InvokeOutcome = Returned(result: Value) | Threw(exception: Exception) | Crashed(error: Exception)

  /**
   * Why the worker stopped answering: `Stop`, or an exception nothing
   * catches — an `Error` from an invocation, or `StreamClosed` when the
   * input ends and `readCommand` has nothing to read.
   */
  datatype LoopEnd = Stopped | Died(error: Exception)

  /** What one command produces: the replies written, and whether the loop ends there. */
  datatype StepResult = StepResult(replies: seq<Command>, end: Option<LoopEnd>)

  /**
   * One iteration of `loop`: an invocation gets exactly one reply (its
   * result or the `Exception` it threw) unless an `Error` kills the worker;
   * `Stop` ends the loop silently; an instrumentation command is answered
   * iff `handle` gives a reply; anything else is answered with an error.
   */
  function Step(cmd: Command, invoke: Command -> InvokeOutcome, handle: Command -> Option<Command>): (r: StepResult)
    ensures cmd.InvokeMethodCommand? && invoke(cmd).Returned? ==>
      r == StepResult([InvocationResultCommand(invoke(cmd).result)], None)
    ensures cmd.InvokeMethodCommand? && invoke(cmd).Threw? ==>
      r == StepResult([ErrorCommand(invoke(cmd).exception)], None)
    ensures cmd.InvokeMethodCommand? && invoke(cmd).Crashed? ==> r == StepResult([], Some(Died(invoke(cmd).error)))
    ensures cmd.StopProcessCommand? ==> r == StepResult([], Some(Stopped))
    ensures cmd.InstrumentationCommand? ==>
      && r.end.None?
      && (handle(cmd).None? ==> r.replies == []) && (handle(cmd).Some? ==> r.replies == [handle(cmd).value])
    ensures !cmd.InvokeMethodCommand? && !cmd.StopProcessCommand? && !cmd.InstrumentationCommand? ==>
      r == StepResult([ErrorCommand(UnexpectedCommand(cmd))], None)
  {
    match cmd
    case InvokeMethodCommand(_, _, _, _) =>
      (match invoke(cmd)
       case Returned(v) => StepResult([InvocationResultCommand(v)], None)
       case Threw(e) => StepResult([ErrorCommand(e)], None)
       case Crashed(e) => StepResult([], Some(Died(e))))
    case StopProcessCommand => StepResult([], Some(Stopped))
    case InstrumentationCommand(_) =>
      (match handle(cmd)
       case Some(reply) => StepResult([reply], None)
       case None => StepResult([], None))
    case _ => StepResult([ErrorCommand(UnexpectedCommand(cmd))], None)
  }

  /**
   * The whole loop over the remaining input: replies in order, how it ended,
   * and how many commands it read. It reads up to the first command whose
   * step ends the loop and stops there; when no command does, it reads them
   * all and dies at the end of the input.
   */
  function RunLoop(cmds: seq<Command>, invoke: Command -> InvokeOutcome, handle: Command -> Option<Command>)
    : (r: (seq<Command>, LoopEnd, nat))
    ensures r.2 <= |cmds|
    ensures forall i :: 0 <= i < r.2 - 1 ==> Step(cmds[i], invoke, handle).end.None?
    ensures (exists i :: 0 <= i < |cmds| && Step(cmds[i], invoke, handle).end.Some?) ==>
      0 < r.2 && Step(cmds[r.2 - 1], invoke, handle).end == Some(r.1)
    ensures (forall i :: 0 <= i < |cmds| ==> Step(cmds[i], invoke, handle).end.None?) ==>
      r.1 == Died(StreamClosed) && r.2 == |cmds|
    decreases |cmds|
  {
    if cmds == [] then ([], Died(StreamClosed), 0)
    else
      var s := Step(cmds[0], invoke, handle);
      if s.end.Some? then (s.replies, s.end.value, 1)
      else
        var rest := RunLoop(cmds[1..], invoke, handle);
        assert forall i :: 0 < i < |cmds| ==> cmds[1..][i - 1] == cmds[i];
        (s.replies + rest.0, rest.1, rest.2 + 1)
  }

  /** The loop from position `k`: the step at `k`, then, unless it ends the loop, the loop from `k + 1`. */
  lemma RunLoopAt(cmds: seq<Command>, k: nat, invoke: Command -> InvokeOutcome, handle: Command -> Option<Command>)
    requires k < |cmds|
    ensures var s := Step(cmds[k], invoke, handle);
      var r := RunLoop(cmds[k..], invoke, handle);
      && (s.end.Some? ==> r == (s.replies, s.end.value, 1))
      && (s.end.None? ==>
            var q := RunLoop(cmds[k + 1..], invoke, handle);
            r == (s.replies + q.0, q.1, q.2 + 1))
  {
    assert cmds[k..][0] == cmds[k];
    assert cmds[k..][1..] == cmds[k + 1..];
  }

  /**
   * Request and reply pair up: when the controller sends invocations only
   * and then `Stop`, and none of them crashes the worker, the i-th reply
   * answers the i-th invocation and the loop ends at the `Stop`.
   */
  lemma {:induction false} InvocationsPairWithReplies(cmds: seq<Command>, n: nat, invoke: Command -> InvokeOutcome, handle: Command -> Option<Command>)
    requires n < |cmds| && cmds[n].StopProcessCommand?
    requires forall i :: 0 <= i < n ==> cmds[i].InvokeMethodCommand? && !invoke(cmds[i]).Crashed?
    ensures var r := RunLoop(cmds, invoke, handle);
      && r.1 == Stopped && r.2 == n + 1 && |r.0| == n
      && forall i :: 0 <= i < n ==> r.0[i] == Step(cmds[i], invoke, handle).replies[0]
    decreases n
  {
    if n > 0 {
      var tail := cmds[1..];
      assert forall i :: 0 <= i < n - 1 ==> tail[i] == cmds[i + 1];
      InvocationsPairWithReplies(tail, n - 1, invoke, handle);
    }
  }

  /** `readClasspath`: `AddPaths` is acknowledged with `Ready`; anything else gets an error reply and aborts start-up. */
  function ReadClasspath(cmd: Option<Command>): (r: (seq<Command>, Result<Command, Exception>))
    ensures cmd.Some? && cmd.value.AddPathsCommand? ==> r == ([ProcessReadyCommand], Success(cmd.value))
    ensures cmd.Some? && !cmd.value.AddPathsCommand? ==>
      r == ([ErrorCommand(UnexpectedCommand(cmd.value))], Failure(IllegalStateException("No classpath!")))
    ensures cmd.None? ==> r == ([], Failure(StreamClosed))
  {
    match cmd
    case None => ([], Failure(StreamClosed))
    case Some(c) =>
      if c.AddPathsCommand? then ([ProcessReadyCommand], Success(c))
      else ([ErrorCommand(UnexpectedCommand(c))], Failure(IllegalStateException("No classpath!")))
  }

  /** `getInstrumentation`: `SetInstrumentation` is acknowledged with `Ready`; `Stop` gets no reply; anything else gets an error reply. */
  function GetInstrumentation(cmd: Option<Command>): (r: (seq<Command>, Result<Option<InstrumentationId>, Exception>))
    ensures cmd.Some? && cmd.value.SetInstrumentationCommand? ==>
      r == ([ProcessReadyCommand], Success(Some(cmd.value.instrumentation)))
    ensures cmd.Some? && cmd.value.StopProcessCommand? ==> r == ([], Success(None))
    ensures cmd.Some? && !cmd.value.SetInstrumentationCommand? && !cmd.value.StopProcessCommand? ==>
      r == ([ErrorCommand(UnexpectedCommand(cmd.value))], Success(None))
    ensures cmd.None? ==> r == ([], Failure(StreamClosed))
  {
    match cmd
    case None => ([], Failure(StreamClosed))
    case Some(SetInstrumentationCommand(i)) => ([ProcessReadyCommand], Success(Some(i)))
    case Some(StopProcessCommand) => ([], Success(None))
    case Some(c) => ([ErrorCommand(UnexpectedCommand(c))], Success(None))
  }

  class Worker {
    /** What the controller sends, and how much of it has been read. */
    const input: seq<Command>
    var readPos: nat
    /** What the worker has written, oldest first. */
    var output: seq<Command>
    var connectorOpen: bool
    /** The URLs added to the class loader, in order. */
    var loaderUrls: seq<string>
    /** The agent's transformer, shared with class loading. */
    const agent: DynamicClassTransformer

    ghost predicate Valid()
      reads this
    {
      readPos <= |input|
    }

    constructor (input: seq<Command>, agent: DynamicClassTransformer)
      ensures Valid() && this.input == input && this.agent == agent
      ensures readPos == 0 && output == [] && connectorOpen && loaderUrls == []
    {
      this.input := input;
      this.agent := agent;
      readPos, output, connectorOpen, loaderUrls := 0, [], true, [];
    }

    method ReadCommand() returns (c: Option<Command>)
      requires Valid()
      modifies this
      ensures Valid()
      ensures c == old(if readPos < |input| then Some(input[readPos]) else None)
      ensures readPos == old(if readPos < |input| then readPos + 1 else readPos)
      ensures output == old(output) && connectorOpen == old(connectorOpen) && loaderUrls == old(loaderUrls)
    {
      if readPos < |input| {
        c := Some(input[readPos]);
        readPos := readPos + 1;
      } else {
        c := None;
      }
    }

    /**
     * `loop`: reads commands until `Stop`, an `Error` from an invocation,
     * or the end of the input, where reading fails, writing what `RunLoop`
     * says.
     */
    method Loop(invoke: Command -> InvokeOutcome, handle: Command -> Option<Command>) returns (end: LoopEnd)
      requires Valid()
      modifies this
      ensures Valid()
      ensures var r := RunLoop(old(input[readPos..]), invoke, handle);
        && output == old(output) + r.0 && end == r.1 && readPos == old(readPos) + r.2
      ensures connectorOpen == (old(connectorOpen) && end != Stopped)
      ensures loaderUrls == old(loaderUrls)
    {
      ghost var start, out0 := readPos, output;
      ghost var total := RunLoop(input[start..], invoke, handle);
      while true
        invariant Valid() && start <= readPos && loaderUrls == old(loaderUrls) && connectorOpen == old(connectorOpen)
        invariant var r := RunLoop(input[readPos..], invoke, handle);
          && out0 + total.0 == output + r.0 && total.1 == r.1 && start + total.2 == readPos + r.2
        decreases |input| - readPos
      {
        var here := readPos;
        ghost var before := output;
        var stop := ServeOne(invoke, handle);
        if here == |input| {
          assert input[here..] == [];
          return Died(StreamClosed);
        }
        RunLoopAt(input, here, invoke, handle);
        if stop.Some? {
          return stop.value;
        }
        ghost var s, q := Step(input[here], invoke, handle), RunLoop(input[readPos..], invoke, handle);
        AppendAssoc(before, s.replies, q.0);
        assert out0 + total.0 == output + q.0;
        assert total.1 == q.1 && start + total.2 == readPos + q.2;
      }
    }

    /**
     * One turn of the loop: read a command and answer it as `Step` says;
     * `Stop` also closes the connector. At the end of the input the read
     * fails with `StreamClosed` and nothing is written.
     */
    method ServeOne(invoke: Command -> InvokeOutcome, handle: Command -> Option<Command>) returns (stop: Option<LoopEnd>)
      requires Valid()
      modifies this
      ensures Valid() && loaderUrls == old(loaderUrls)
      ensures old(readPos) == |input| ==>
        stop == Some(Died(StreamClosed)) && readPos == old(readPos) && output == old(output) && connectorOpen == old(connectorOpen)
      ensures old(readPos) < |input| ==>
        var s := Step(input[old(readPos)], invoke, handle);
        && stop == s.end && readPos == old(readPos) + 1 && output == old(output) + s.replies
        && connectorOpen == (old(connectorOpen) && s.end != Some(Stopped))
    {
      var cmd := ReadCommand();
      if cmd.None? {
        return Some(Died(StreamClosed));
      }
      var s := Step(cmd.value, invoke, handle);
      output := output + s.replies;
      if s.end == Some(Stopped) {
        connectorOpen := false;
      }
      stop := s.end;
    }

    /**
     * Start-up: `Ready` before anything is read; the class path; both path
     * lists split on the separator and added to the loader, users' first;
     * then the instrumentation.
     */
    method Startup() returns (r: Result<Option<InstrumentationId>, Exception>, userPaths: seq<string>)
      requires Valid() && readPos == 0 && output == []
      modifies this
      ensures Valid()
      ensures output == StartupOutput(input) && r == StartupResult(input)
      ensures r.Success? ==>
        && readPos == 2 && |input| >= 2
        && userPaths == Split(input[0].pathsToUserClasses, PathSeparator)
        && loaderUrls == old(loaderUrls) + userPaths + Split(input[0].pathsToDependencyClasses, PathSeparator)
      ensures connectorOpen == old(connectorOpen)
    {
      output := output + [ProcessReadyCommand];
      var c := ReadCommand();
      var cp := ReadClasspath(c);
      output := output + cp.0;
      userPaths := [];
      if cp.1.Failure? {
        return Failure(cp.1.error), userPaths;
      }
      userPaths := Split(cp.1.value.pathsToUserClasses, PathSeparator);
      var pathsToDependencyClasses := Split(cp.1.value.pathsToDependencyClasses, PathSeparator);
      loaderUrls := loaderUrls + userPaths;
      loaderUrls := loaderUrls + pathsToDependencyClasses;
      c := ReadCommand();
      var gi := GetInstrumentation(c);
      output := output + gi.0;
      r := gi.1;
    }

    /**
     * `main`: start-up; when it yields an instrumentation, the agent gets
     * it and the user paths, and the loop runs over the rest of the input.
     * A start-up failure ends the worker with that exception.
     */
    method Run(invoke: Command -> InvokeOutcome, handle: Command -> Option<Command>) returns (r: Result<Option<LoopEnd>, Exception>)
      requires Valid() && readPos == 0 && output == []
      modifies this, agent
      ensures Valid()
      ensures |output| >= 1 && output[0] == ProcessReadyCommand
      ensures StartupResult(input).Failure? ==> r == Failure(StartupResult(input).error) && output == StartupOutput(input)
      ensures StartupResult(input) == Success(None) ==> r == Success(None) && output == StartupOutput(input)
      ensures StartupResult(input).Success? && StartupResult(input).value.Some? ==>
        var run := RunLoop(input[2..], invoke, handle);
        && agent.transformer == StartupResult(input).value
        && agent.pathsToUserClasses == old(agent.pathsToUserClasses) + (set p | p in Split(input[0].pathsToUserClasses, PathSeparator) :: Normalize(p))
        && r == Success(Some(run.1))
        && output == StartupOutput(input) + run.0
    {
      var instrumentation, userPaths := Startup();
      if instrumentation.Failure? {
        return Failure(instrumentation.error);
      }
      if instrumentation.value.None? {
        return Success(None);
      }
      agent.SetTransformer(instrumentation.value.value);
      agent.AddPaths(userPaths);
      var end := Loop(invoke, handle);
      r := Success(Some(end));
    }
  }

  /** The worker's start-up output, whatever comes after it: `Ready`, then the answers to the first two commands. */
  function StartupOutput(input: seq<Command>): seq<Command>
  {
    var cp := ReadClasspath(if |input| > 0 then Some(input[0]) else None);
    if cp.1.Failure? then [ProcessReadyCommand] + cp.0
    else [ProcessReadyCommand] + cp.0 + GetInstrumentation(if |input| > 1 then Some(input[1]) else None).0
  }

  /** How start-up ends: a failure, no instrumentation, or the instrumentation to run the loop with. */
  function StartupResult(input: seq<Command>): Result<Option<InstrumentationId>, Exception>
  {
    var cp := ReadClasspath(if |input| > 0 then Some(input[0]) else None);
    if cp.1.Failure? then Failure(cp.1.error)
    else GetInstrumentation(if |input| > 1 then Some(input[1]) else None).1
  }

  /**
   * The two sides of the handshake agree: a worker that receives the
   * controller's handshake commands answers with three `Ready`s, so the
   * controller's handshake completes; a worker sent anything but `AddPaths`
   * first answers its second message with an error, so the controller
   * stops at its second step.
   */
  lemma HandshakeAgreement(user: string, dep: string, instrumentation: InstrumentationId, rest: seq<Command>)
    ensures HandshakeStop(StartupOutput(HandshakeCommands(user, dep, instrumentation) + rest)) == 3
  {
    var input := HandshakeCommands(user, dep, instrumentation) + rest;
    assert input[0] == AddPathsCommand(user, dep) && input[1] == SetInstrumentationCommand(instrumentation);
  }

  lemma HandshakeRejectsWrongFirst(input: seq<Command>)
    requires |input| > 0 && !input[0].AddPathsCommand?
    ensures HandshakeStop(StartupOutput(input)) == 1
  {
  }
}
