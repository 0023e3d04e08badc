/**
 * `ExecutionTraceInstrumentation`: runs a method and returns the trace of
 * that run; at class-load time registers the class and rewrites its bytes.
 */
module ExecutionTrace {
  import opened Protocol
  import opened TraceData
  import opened RuntimeStorage
  import opened TraceBuilder
  import opened TraceHandling
  import opened Instrumenting

  class ExecutionTraceInstrumentation {
    const traceHandler: TraceHandler

    ghost predicate Valid()
      reads this, traceHandler, traceHandler.processingStorage, traceHandler.storage
    {
      traceHandler.Valid()
    }

    constructor (storage: RuntimeTraceStorage)
      requires storage.Valid()
      ensures Valid() && traceHandler.storage == storage
      ensures traceHandler.instructionsList == None
      ensures fresh(traceHandler) && fresh(traceHandler.processingStorage)
    {
      traceHandler := new TraceHandler(storage);
    }

    /**
     * Runs the method (its outcome, `invoked`, is given: an exception the
     * invocation throws, or `None`), then computes the trace and resets the
     * buffers. A throwing invocation propagates and nothing else happens; a
     * failing trace computation propagates before the reset, so the buffers
     * keep their contents and an empty list stays cached, so every later
     * call fails the same way; otherwise the trace is that of the recorded
     * entries and the buffer is empty again.
     */
    method Invoke(invoked: Option<Exception>) returns (r: Result<Trace, Exception>)
      requires Valid()
      modifies traceHandler, traceHandler.storage
      ensures Valid()
      ensures invoked.Some? ==>
        && r == Failure(invoked.value)
        && traceHandler.instructionsList == old(traceHandler.instructionsList)
        && traceHandler.storage.counter == old(traceHandler.storage.counter)
      ensures invoked.None? ==>
        var src := if old(traceHandler.instructionsList).Some? then Success(old(traceHandler.instructionsList).value)
                   else old(traceHandler.Decoded());
        && (r.Failure? ==>
              && traceHandler.storage.counter == old(traceHandler.storage.counter)
              && traceHandler.instructionsList == (if src.Success? then Some(src.value) else None))
        && (src.Failure? ==> r == Failure(src.error))
        && (src.Success? && src.value == [] ==> r == Failure(NoSuchElementException))
        && (src.Success? && src.value != [] ==>
              && r.Success?
              && TreeOf(r.value.root, src.value)
              && r.value.usedStatics == PutStatics(src.value)
              && traceHandler.instructionsList == None
              && traceHandler.storage.counter == 0)
      ensures traceHandler.storage.counterCallId == old(traceHandler.storage.counterCallId)
    {
      if invoked.Some? {
        return Failure(invoked.value);
      }
      r := traceHandler.ComputeTrace();
      if r.Failure? {
        return;
      }
      traceHandler.ResetTrace();
    }

    /**
     * Registers the class under its name, then runs the instrumenting pass
     * over a copy of its bytes and returns the rewritten bytes; the caller's
     * buffer is not written.
     */
    method Transform(className: string, classfileBuffer: array<bv8>, pass: seq<bv8> -> seq<bv8>) returns (r: array<bv8>)
      requires Valid()
      requires className in traceHandler.processingStorage.classes
        || |traceHandler.processingStorage.classes| + 1 < 0x8000_0000
      modifies traceHandler.processingStorage
      ensures Valid()
      ensures fresh(r) && r[..] == pass(classfileBuffer[..])
      ensures traceHandler.processingStorage.classes ==
        if className in old(traceHandler.processingStorage.classes) then old(traceHandler.processingStorage.classes)
        else old(traceHandler.processingStorage.classes) + [className]
    {
      traceHandler.RegisterClass(className);
      var instrumenter := new Instrumenter(classfileBuffer);
      instrumenter.VisitClass(pass);
      r := instrumenter.classByteCode;
    }
  }
}
