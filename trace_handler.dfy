/**
 * `TraceHandler`: turns the runtime buffers into the instruction list
 * (memoised until the next reset), lists the static fields written, and
 * builds the call tree.
 */
module TraceHandling {
  import opened Protocol
  import opened TraceData
  import opened Processing
  import opened RuntimeStorage
  import opened TraceBuilder

  /** One recorded pair, resolved through the storage's tables; the description is looked up first. */
  function DecodeEntry(entry: (Int64, Int32), instructionsData: map<Int64, InstructionData>, idToClass: map<int, string>)
    : (r: Result<Instruction, Exception>)
    ensures r.Failure? <==> entry.0 !in instructionsData || UnpackId(entry.0).0 !in idToClass
    ensures r.Failure? ==> r.error == NoSuchElementException
    ensures r.Success? ==>
      var d := instructionsData[entry.0];
      r.value == Instruction(idToClass[UnpackId(entry.0).0], d.methodSignature, entry.1, UnpackId(entry.0).1, d.line, d)
  {
    if entry.0 !in instructionsData then Failure(NoSuchElementException)
    else
      var curInstrData := instructionsData[entry.0];
      var (classId, localId) := UnpackId(entry.0);
      if classId !in idToClass then Failure(NoSuchElementException)
      else Success(Instruction(idToClass[classId], curInstrData.methodSignature, entry.1, localId, curInstrData.line, curInstrData))
  }

  /** `(0 until counter).map { … }`: every entry decoded, in order; the first entry that fails decides the error. */
  function DecodeTrace(entries: seq<(Int64, Int32)>, instructionsData: map<Int64, InstructionData>, idToClass: map<int, string>)
    : (r: Result<seq<Instruction>, Exception>)
    ensures r.Success? ==> |r.value| == |entries|
    decreases |entries|
  {
    if entries == [] then Success([])
    else
      var n := |entries|;
      match DecodeTrace(entries[..n - 1], instructionsData, idToClass)
      case Failure(e) => Failure(e)
      case Success(prefix) =>
        match DecodeEntry(entries[n - 1], instructionsData, idToClass)
        case Failure(e) => Failure(e)
        case Success(instr) => Success(prefix + [instr])
  }

  /** Decoding succeeds exactly when every entry decodes, and then yields each entry's instruction at its index. */
  lemma {:induction false} DecodeTraceSuccess(entries: seq<(Int64, Int32)>, instructionsData: map<Int64, InstructionData>, idToClass: map<int, string>)
    ensures var r := DecodeTrace(entries, instructionsData, idToClass);
      && (r.Success? <==> forall i :: 0 <= i < |entries| ==> DecodeEntry(entries[i], instructionsData, idToClass).Success?)
      && (r.Success? ==> forall i :: 0 <= i < |entries| ==> Success(r.value[i]) == DecodeEntry(entries[i], instructionsData, idToClass))
    decreases |entries|
  {
    if entries != [] {
      var n := |entries|;
      var pre := entries[..n - 1];
      DecodeTraceSuccess(pre, instructionsData, idToClass);
      assert forall i :: 0 <= i < n - 1 ==> pre[i] == entries[i];
    }
  }

  /** A failure is the error of the first entry that does not decode. */
  lemma {:induction false} DecodeTraceFailure(entries: seq<(Int64, Int32)>, instructionsData: map<Int64, InstructionData>, idToClass: map<int, string>)
    requires DecodeTrace(entries, instructionsData, idToClass).Failure?
    ensures exists i :: FirstFailure(entries, instructionsData, idToClass, i, DecodeTrace(entries, instructionsData, idToClass).error)
    decreases |entries|
  {
    var n := |entries|;
    var pre := entries[..n - 1];
    assert forall i :: 0 <= i < n - 1 ==> pre[i] == entries[i];
    if DecodeTrace(pre, instructionsData, idToClass).Failure? {
      DecodeTraceFailure(pre, instructionsData, idToClass);
      var i :| FirstFailure(pre, instructionsData, idToClass, i, DecodeTrace(pre, instructionsData, idToClass).error);
      assert FirstFailure(entries, instructionsData, idToClass, i, DecodeTrace(entries, instructionsData, idToClass).error);
    } else {
      DecodeTraceSuccess(pre, instructionsData, idToClass);
      assert FirstFailure(entries, instructionsData, idToClass, n - 1, DecodeTrace(entries, instructionsData, idToClass).error);
    }
  }

  /** Entry `i` fails with `e`, and every entry before it decodes. */
  ghost predicate FirstFailure(entries: seq<(Int64, Int32)>, instructionsData: map<Int64, InstructionData>, idToClass: map<int, string>, i: int, e: Exception)
  {
    && 0 <= i < |entries|
    && DecodeEntry(entries[i], instructionsData, idToClass) == Failure(e)
    && forall j :: 0 <= j < i ==> DecodeEntry(entries[j], instructionsData, idToClass).Success?
  }

  /** Decoding a longer buffer extends the decoding of a prefix, or fails exactly as the prefix does. */
  lemma {:induction false} DecodePrefix(entries: seq<(Int64, Int32)>, k: nat, instructionsData: map<Int64, InstructionData>, idToClass: map<int, string>)
    requires k <= |entries|
    ensures var p := DecodeTrace(entries[..k], instructionsData, idToClass);
      var q := DecodeTrace(entries, instructionsData, idToClass);
      && (p.Failure? ==> q == p)
      && (q.Success? ==> p.Success? && p.value == q.value[..k])
    decreases |entries| - k
  {
    if k < |entries| {
      DecodePrefix(entries, k + 1, instructionsData, idToClass);
      assert entries[..k + 1][..k] == entries[..k];
    } else {
      assert entries[..k] == entries;
    }
  }

  /** Decoding one more entry: the prefix's result extended by that entry's, the prefix's error first. */
  lemma DecodeExtend(entries: seq<(Int64, Int32)>, k: nat, instructionsData: map<Int64, InstructionData>, idToClass: map<int, string>)
    requires k < |entries|
    ensures var p := DecodeTrace(entries[..k], instructionsData, idToClass);
      var e := DecodeEntry(entries[k], instructionsData, idToClass);
      DecodeTrace(entries[..k + 1], instructionsData, idToClass) ==
        if p.Failure? then p else if e.Failure? then Failure(e.error) else Success(p.value + [e.value])
  {
    assert entries[..k + 1][..k] == entries[..k];
  }

  /** Kotlin's `replace("/", ".")` on an internal class name. */
  function ReplaceSlash(s: string): (r: string)
    ensures |r| == |s| && '/' !in r
    ensures forall i :: 0 <= i < |s| ==> r[i] == (if s[i] == '/' then '.' else s[i])
  {
    seq(|s|, i requires 0 <= i < |s| => if s[i] == '/' then '.' else s[i])
  }

  /** The static field a `PutStaticInstruction` writes, its owner in dotted form. */
  function FieldOf(d: InstructionData): FieldId
    requires d.PutStaticInstruction?
  {
    FieldId(ReplaceSlash(d.owner), d.name)
  }

  /**
   * The fields written by `PutStatic` occurrences, one per occurrence, in
   * execution order: nothing is merged.
   */
  function PutStatics(list: seq<Instruction>): (r: seq<FieldId>)
    ensures |r| <= |list|
    decreases |list|
  {
    if list == [] then [] else PutStatics(list[..|list| - 1]) + Own(list[|list| - 1])
  }

  /** The field one occurrence contributes: its own for a `PutStatic`, none otherwise. */
  function Own(i: Instruction): (r: seq<FieldId>)
    ensures |r| <= 1
  {
    if i.instructionData.PutStaticInstruction? then [FieldOf(i.instructionData)] else []
  }

  /** A field is listed exactly when some `PutStatic` occurrence in the list writes it. */
  lemma {:induction false} PutStaticsMembers(list: seq<Instruction>)
    ensures forall i :: 0 <= i < |list| && list[i].instructionData.PutStaticInstruction? ==>
      FieldOf(list[i].instructionData) in PutStatics(list)
    ensures forall f :: f in PutStatics(list) ==>
      (exists i :: 0 <= i < |list| && list[i].instructionData.PutStaticInstruction? && f == FieldOf(list[i].instructionData))
    decreases |list|
  {
    if list != [] {
      var n := |list|;
      var pre := list[..n - 1];
      PutStaticsMembers(pre);
      assert forall i :: 0 <= i < n - 1 ==> pre[i] == list[i];
    }
  }

  /** Listing the fields commutes with concatenation: order and multiplicity are kept. */
  lemma {:induction false} PutStaticsAppend(a: seq<Instruction>, b: seq<Instruction>)
    ensures PutStatics(a + b) == PutStatics(a) + PutStatics(b)
    decreases |b|
  {
    if b == [] {
      assert a + b == a;
    } else {
      var ab, pre := a + b, b[..|b| - 1];
      assert ab[..|ab| - 1] == a + pre;
      assert ab[|ab| - 1] == b[|b| - 1];
      PutStaticsAppend(a, pre);
      calc {
        PutStatics(ab);
        PutStatics(a + pre) + Own(b[|b| - 1]);
        (PutStatics(a) + PutStatics(pre)) + Own(b[|b| - 1]);
        { AppendAssoc(PutStatics(a), PutStatics(pre), Own(b[|b| - 1])); }
        PutStatics(a) + PutStatics(b);
      }
    }
  }

  /** The number of fields listed is the number of `PutStatic` occurrences. */
  function CountPutStatics(list: seq<Instruction>): nat {
    if list == [] then 0
    else CountPutStatics(list[..|list| - 1]) + (if list[|list| - 1].instructionData.PutStaticInstruction? then 1 else 0)
  }

  lemma {:induction false} PutStaticsCount(list: seq<Instruction>)
    ensures |PutStatics(list)| == CountPutStatics(list)
    decreases |list|
  {
    if list != [] {
      PutStaticsCount(list[..|list| - 1]);
    }
  }

  class TraceHandler {
    const processingStorage: ProcessingStorage
    /** The process-wide `RuntimeTraceStorage`. */
    const storage: RuntimeTraceStorage
    /** The memoised instruction list; `None` until computed after a reset. */
    var instructionsList: Option<seq<Instruction>>

    ghost predicate Valid()
      reads this, processingStorage, storage
    {
      processingStorage.Valid() && storage.Valid()
    }

    constructor (storage: RuntimeTraceStorage)
      requires storage.Valid()
      ensures Valid() && fresh(processingStorage)
      ensures this.storage == storage && instructionsList == None
      ensures processingStorage.classes == []
    {
      processingStorage := new ProcessingStorage();
      this.storage := storage;
      instructionsList := None;
    }

    /** What `computeInstructionList` would decode from the buffers now. */
    ghost function Decoded(): Result<seq<Instruction>, Exception>
      requires Valid()
      reads this, processingStorage, storage, storage.trace, storage.traceCallId
    {
      DecodeTrace(storage.Entries(), processingStorage.instructionsData, processingStorage.idToClass)
    }

    method RegisterClass(className: string)
      requires Valid()
      requires className in processingStorage.classes || |processingStorage.classes| + 1 < 0x8000_0000
      modifies processingStorage
      ensures Valid()
      ensures processingStorage.classes ==
        if className in old(processingStorage.classes) then old(processingStorage.classes)
        else old(processingStorage.classes) + [className]
      ensures className in old(processingStorage.classes) ==>
        processingStorage.classToId == old(processingStorage.classToId)
      ensures processingStorage.instructionsData == old(processingStorage.instructionsData)
    {
      var _ := processingStorage.AddClass(className);
    }

    /** The `(0 until counter).map { … }` loop: reads the buffers and the tables, changes nothing. */
    method DecodeBuffers() returns (r: Result<seq<Instruction>, Exception>)
      requires Valid()
      ensures r == Decoded()
    {
      ghost var entries := storage.Entries();
      ghost var instructionsData, idToClass := processingStorage.instructionsData, processingStorage.idToClass;
      var list: seq<Instruction> := [];
      var ptr := 0;
      while ptr < storage.counter
        invariant 0 <= ptr <= storage.counter
        invariant DecodeTrace(entries[..ptr], instructionsData, idToClass) == Success(list)
      {
        var instrId := storage.trace[ptr];
        var curInstrData := processingStorage.GetInstruction(instrId);
        var classAndLocalId := processingStorage.ComputeClassNameAndLocalId(instrId);
        var callId := storage.traceCallId[ptr];
        assert entries[ptr] == (instrId, callId);
        DecodeExtend(entries, ptr, instructionsData, idToClass);
        if curInstrData.Failure? || classAndLocalId.Failure? {
          DecodePrefix(entries, ptr + 1, instructionsData, idToClass);
          return Failure(NoSuchElementException);
        }
        var (className, localId) := classAndLocalId.value;
        list := list + [Instruction(className, curInstrData.value.methodSignature, callId, localId, curInstrData.value.line, curInstrData.value)];
        ptr := ptr + 1;
      }
      assert entries[..ptr] == entries;
      r := Success(list);
    }

    /**
     * The cached list when there is one; otherwise the decoded buffers,
     * cached only when decoding succeeds.
     */
    method ComputeInstructionList() returns (r: Result<seq<Instruction>, Exception>)
      requires Valid()
      modifies this
      ensures Valid()
      ensures old(instructionsList).Some? ==> r == Success(old(instructionsList).value) && instructionsList == old(instructionsList)
      ensures old(instructionsList).None? ==>
        r == old(Decoded()) && instructionsList == (if r.Success? then Some(r.value) else None)
    {
      if instructionsList.Some? {
        return Success(instructionsList.value);
      }
      r := DecodeBuffers();
      if r.Success? {
        instructionsList := Some(r.value);
      }
    }

    method ComputePutStatics() returns (r: Result<seq<FieldId>, Exception>)
      requires Valid()
      modifies this
      ensures Valid()
      ensures var src := if old(instructionsList).Some? then Success(old(instructionsList).value) else old(Decoded());
        && (src.Failure? ==> r == Failure(src.error) && instructionsList == None)
        && (src.Success? ==> r == Success(PutStatics(src.value)) && instructionsList == Some(src.value))
    {
      var list := ComputeInstructionList();
      if list.Failure? {
        return Failure(list.error);
      }
      r := Success(PutStatics(list.value));
    }

    /**
     * The trace of the current (or cached) instruction list: failing when
     * decoding fails or the list is empty; otherwise the call tree of the
     * list (`TreeOf`) and the static fields written, every occurrence. An
     * empty list stays cached although the trace fails.
     */
    method ComputeTrace() returns (r: Result<Trace, Exception>)
      requires Valid()
      modifies this
      ensures Valid()
      ensures var src := if old(instructionsList).Some? then Success(old(instructionsList).value) else old(Decoded());
        && (src.Failure? ==> r == Failure(src.error) && instructionsList == None)
        && (src.Success? ==> instructionsList == Some(src.value))
        && (src.Success? && src.value == [] ==> r == Failure(NoSuchElementException))
        && (src.Success? && src.value != [] ==>
              && r.Success?
              && TreeOf(r.value.root, src.value)
              && r.value.usedStatics == PutStatics(src.value))
    {
      var list := ComputeInstructionList();
      if list.Failure? {
        return Failure(list.error);
      }
      var root := BuildTrace(list.value);
      if root.Failure? {
        return Failure(root.error);
      }
      var statics := ComputePutStatics();
      r := Success(Trace(root.value, statics.value));
    }

    /** Clears the cache and rewinds the buffer; the call-id counter keeps running. */
    method ResetTrace()
      modifies this, storage
      ensures instructionsList == None && storage.counter == 0
      ensures storage.counterCallId == old(storage.counterCallId)
    {
      instructionsList := None;
      storage.counter := 0;
    }
  }
}
