/**
 * `RuntimeTraceStorage`: the process-wide buffers that instrumented code
 * writes while it runs, and the runtime effect of the two snippets
 * `TraceInstructionBytecodeInserter` injects — one at every method entry,
 * one before every instruction.
 */
module RuntimeStorage {
  import opened Protocol
  import opened TraceData

  const MaxInt: int := 0x7fff_ffff

  /** The JVM's `IADD` of 1 on an `Int`: wraps from `Int.MAX_VALUE` to `Int.MIN_VALUE`. */
  function NextCallId(c: Int32): (r: Int32)
    ensures c < MaxInt ==> r == c + 1 && r > c
    ensures c == MaxInt ==> r == -0x8000_0000
  {
    ToInt(c + 1)
  }

  class RuntimeTraceStorage {
    /** `$__trace__`: instruction ids in execution order. */
    const trace: array<Int64>
    /** `$__trace_call_id__`: the call id of the frame that ran each recorded instruction. */
    const traceCallId: array<Int32>
    /** `$__counter__`: the next free slot. */
    var counter: int
    /** `$__counter_call_id__`: the last call id handed out. */
    var counterCallId: Int32

    ghost predicate Valid()
      reads this
    {
      && trace.Length == traceCallId.Length
      && trace.Length <= MaxInt
      && 0 <= counter <= trace.Length
    }

    /** Both arrays have `capacity` slots, zeroed; both counters start at 0. */
    constructor (capacity: nat)
      requires 0 < capacity <= MaxInt
      ensures Valid()
      ensures trace.Length == capacity && counter == 0 && counterCallId == 0
      ensures fresh(trace) && fresh(traceCallId)
    {
      trace := new Int64[capacity](_ => 0);
      traceCallId := new Int32[capacity](_ => 0);
      counter := 0;
      counterCallId := 0;
    }

    /** The recorded (instruction id, call id) pairs, oldest first. */
    ghost function Entries(): (r: seq<(Int64, Int32)>)
      requires Valid()
      reads this, trace, traceCallId
      ensures |r| == counter
      ensures forall i :: 0 <= i < counter ==> r[i] == (trace[i], traceCallId[i])
    {
      var n, t, c := counter, trace[..counter], traceCallId[..counter];
      seq(n, i requires 0 <= i < n => (t[i], c[i]))
    }

    /**
     * Method entry: `counterCallId += 1` (wrapping) and the new value becomes
     * the frame's call id. Nothing else changes.
     */
    method EnterMethod() returns (callId: Int32)
      modifies this
      ensures callId == NextCallId(old(counterCallId)) && counterCallId == callId
      ensures counter == old(counter)
    {
      counterCallId := NextCallId(counterCallId);
      callId := counterCallId;
    }

    /**
     * Before an instruction: `trace[counter] = id`, `traceCallId[counter] =
     * callId`, `counter += 1`. A full buffer makes the first array store
     * throw `ArrayIndexOutOfBoundsException` before anything is written.
     */
    method Record(id: Int64, callId: Int32) returns (thrown: Option<Exception>)
      requires Valid()
      modifies this, trace, traceCallId
      ensures Valid()
      ensures counterCallId == old(counterCallId)
      ensures old(counter) < trace.Length ==>
        && thrown == None
        && counter == old(counter) + 1
        && trace[..] == old(trace[..])[old(counter) := id]
        && traceCallId[..] == old(traceCallId[..])[old(counter) := callId]
        && Entries() == old(Entries()) + [(id, callId)]
      ensures old(counter) == trace.Length ==>
        && thrown == Some(IndexOutOfBoundsException(old(counter)))
        && counter == old(counter)
        && trace[..] == old(trace[..]) && traceCallId[..] == old(traceCallId[..])
    {
      if counter >= trace.Length {
        return Some(IndexOutOfBoundsException(counter));
      }
      trace[counter] := id;
      traceCallId[counter] := callId;
      counter := counter + 1;
      thrown := None;
    }
  }
}
