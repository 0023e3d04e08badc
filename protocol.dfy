/**
 * Values, exceptions and wire commands shared by the controller, the worker
 * process and the instrumentations.
 *
 * The serializer is not modelled: a stream is a sequence of `Command` values,
 * and reading past the end of a stream fails with `StreamClosed`.
 */
module Protocol {

  datatype Option<+T> = None | Some(value: T)

  datatype Result<+T, +E> = Success(value: T) | Failure(error: E)

  /** Concatenation is associative; stated once so that proofs can name the step. */
  lemma AppendAssoc<T>(a: seq<T>, b: seq<T>, c: seq<T>)
    ensures a + (b + c) == a + b + c
  {
  }

  /** Opaque JVM values: `null`, Kotlin's `Unit`, or an object by identity. */
  datatype Value = Null | Unit | Ref(identity: nat)

  /** Identity of an `Instrumentation` object sent over the wire. */
  type InstrumentationId = nat

  /** The exceptions the core raises, by class name. */
  datatype Exception =
    | NoSuchMethodException(signature: string)
    | IllegalArgumentException(message: string)
    | IllegalStateException(message: string)
    | NoSuchElementException
    | NullPointerException
    | IndexOutOfBoundsException(index: int)
    | ClassNotFoundException(className: string)
    | NoSuchFieldException(fieldName: string)
    | UninitializedPropertyAccessException
    | StreamClosed
    | UserException(thrown: Value)
    | UnexpectedCommand(cmd: Command)
    | ChildProcessError(innerException: Exception)
    | ChildProcessStartException(cause: Exception)

  /** The closed set of messages exchanged between controller and worker. */
  datatype Command =
    | ProcessReadyCommand
    | AddPathsCommand(pathsToUserClasses: string, pathsToDependencyClasses: string)
    | SetInstrumentationCommand(instrumentation: InstrumentationId)
    | InvokeMethodCommand(className: string, signature: string, arguments: seq<Value>, parameters: Value)
    | InvocationResultCommand(result: Value)
    | ErrorCommand(exception: Exception)
    | StopProcessCommand
    | InstrumentationCommand(payload: nat)
}
