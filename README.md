# utbot-instrumentation, modelled in Dafny

This project models the concrete-execution core of utbot-instrumentation, a
Kotlin library. A controller process starts a worker JVM, hands it a class
path and an *instrumentation*, and asks it to invoke methods. The execution-trace
instrumentation rewrites every loaded class so that each executed
instruction writes its id and the id of the running call into two global
arrays. After the call, `TraceHandler` turns this flat log into a call tree.

The model follows the source file by file:

- `trace_data.dfy` holds the records: instruction descriptions, executed
  instructions, call nodes and traces.
- `processing.dfy` models `ProcessingStorage`:
  - the dense first-seen interning of classes and (class, method) pairs;
  - the 64-bit packing of a class id and a local index;
  - the first-write-wins table of instruction descriptions.
- `runtime_storage.dfy` models `RuntimeTraceStorage` as a class over two
  arrays. It also models the run-time effect of the two injected snippets: the
  call-id bump at method entry and the record before each instruction.
- `trace_builder.dfy` holds the single pass of `computeTrace`, with the
  stack of open frames and the implicit-throw reclassification.
  - It is proved against the reference definitions `OpenStack`,
    `ImplicitExit` and `Expected`.
  - Every entry lands in the tree once, in order.
  - Only the entries `ImplicitExit` selects are reclassified.
  - Depths run 1..n, each frame's leaves carry the frame's call id, and the
    open-id set equals the ids on the stack.
  - Each leaf lies under exactly the calls open when its entry ran, and no
    two calls are adjacent, so the nesting of the tree is fixed.
- `trace_handler.dfy` models the memoised decoding of the buffers, the
  static fields written, the trace and the reset.
- `execution_trace.dfy` models the execution-trace instrumentation's
  `invoke` and `transform`.
- `instrumenter.dfy` models `Instrumenter`: the byte copy, the
  replacement of the bytes by a pass, the probe ranges, and the source-file
  selection rule.
- `invoke_instrumentation.dfy` models method resolution, the receiver split,
  void-to-`Unit` and the wrapping of the target's exception.
- `dynamic_class_transformer.dfy` models the agent's path and name filter,
  with Unix path normalisation.
- `concrete_executor.dfy` models the controller:
  - the handshake, `execute`, `request` and `close` over command streams;
  - the executor pool, with insertion-order eviction.
- `child_process.dfy` models the worker's start-up and its command loop. A
  lemma shows that the controller's handshake completes against the worker's
  start-up.
- `mock_class_visitor.dfy` models the mock ids, the flag fields and the
  injected prologue.
- `mock_helper.dfy` models the mock value queues and `withMockedMethod`.
- `static_environment.dfy` models the append-only static environment.

Paths in the table below are relative to the repository root.

## Model

| member | source | states |
|---|---|---|
| TraceData.ToInt | utbot-instrumentation/src/main/kotlin/com/huawei/utbot/instrumentation/instrumentation/et/TraceHandler.kt:82-83 | `Long.toInt()` keeps the low 32 bits: the result is congruent to the input mod 2^32 and equals it when it fits |
| Processing.TruncDiv | utbot-instrumentation/src/main/kotlin/com/huawei/utbot/instrumentation/instrumentation/et/TraceHandler.kt:82 | Kotlin `Long` division truncates toward zero, for both signs of the dividend |
| Processing.TruncRem | utbot-instrumentation/src/main/kotlin/com/huawei/utbot/instrumentation/instrumentation/et/TraceHandler.kt:83 | the remainder takes the dividend's sign and satisfies a == q*b + r |
| Processing.PackUnpack | utbot-instrumentation/src/main/kotlin/com/huawei/utbot/instrumentation/instrumentation/et/TraceHandler.kt:70-85 | the local index always comes back; the whole pair comes back iff localId >= 0 or classId == 0; for a negative local index and a positive class the class comes back one less |
| Processing.InternStep | utbot-instrumentation/src/main/kotlin/com/huawei/utbot/instrumentation/instrumentation/et/TraceHandler.kt:64-68 | `getOrPut(size)` + `putIfAbsent`: a seen key keeps its id and both maps are unchanged; a new key gets id = number of keys and the tables stay dense, first-seen ordered and mutually inverse |
| Processing.InternedInverse | utbot-instrumentation/src/main/kotlin/com/huawei/utbot/instrumentation/instrumentation/et/TraceHandler.kt:64-79 | the forward and reverse tables are inverse bijections onto 0..n-1 |
| Processing.ProcessingStorage.constructor | utbot-instrumentation/src/main/kotlin/com/huawei/utbot/instrumentation/instrumentation/et/TraceHandler.kt:55-62 | all tables start empty |
| Processing.ProcessingStorage.AddClass | utbot-instrumentation/src/main/kotlin/com/huawei/utbot/instrumentation/instrumentation/et/TraceHandler.kt:64-68 | returns the class's dense first-seen id; re-adding changes nothing; the other tables are untouched |
| Processing.ProcessingStorage.AddClassMethod | utbot-instrumentation/src/main/kotlin/com/huawei/utbot/instrumentation/instrumentation/et/TraceHandler.kt:74-79 | the same for (class, method) pairs |
| Processing.ProcessingStorage.ComputeId | utbot-instrumentation/src/main/kotlin/com/huawei/utbot/instrumentation/instrumentation/et/TraceHandler.kt:70-72 | an unregistered class fails (the `!!`); for a registered class and a non-negative index the id decodes back to (class, index) |
| Processing.ProcessingStorage.ComputeClassNameAndLocalId | utbot-instrumentation/src/main/kotlin/com/huawei/utbot/instrumentation/instrumentation/et/TraceHandler.kt:81-85 | fails iff the unpacked class id is unknown; otherwise yields that class's name and the unpacked index |
| Processing.ProcessingStorage.AddInstruction | utbot-instrumentation/src/main/kotlin/com/huawei/utbot/instrumentation/instrumentation/et/TraceHandler.kt:87-89 | first write wins; the interning tables are unchanged |
| Processing.ProcessingStorage.GetInstruction | utbot-instrumentation/src/main/kotlin/com/huawei/utbot/instrumentation/instrumentation/et/TraceHandler.kt:91-93 | fails iff the id is unknown; otherwise the stored description |
| RuntimeStorage.NextCallId | utbot-instrumentation/src/main/kotlin/com/huawei/utbot/instrumentation/instrumentation/et/TraceHandler.kt:148-153 | the `IADD` of 1 on an `Int`: c+1 below `Int.MAX_VALUE`, wrapping to `Int.MIN_VALUE` there |
| RuntimeStorage.RuntimeTraceStorage.constructor | utbot-instrumentation/src/main/kotlin/com/huawei/utbot/instrumentation/instrumentation/et/TraceHandler.kt:104-131 | two zeroed arrays of the same capacity, both counters 0 |
| RuntimeStorage.RuntimeTraceStorage.Entries | utbot-instrumentation/src/main/kotlin/com/huawei/utbot/instrumentation/instrumentation/et/TraceHandler.kt:104-131 | the recorded (id, call id) pairs are the first `counter` slots of the two arrays |
| RuntimeStorage.RuntimeTraceStorage.EnterMethod | utbot-instrumentation/src/main/kotlin/com/huawei/utbot/instrumentation/instrumentation/et/TraceHandler.kt:145-155 | the counter becomes NextCallId(old) and that value is the frame's call id; the cursor is untouched |
| RuntimeStorage.RuntimeTraceStorage.Record | utbot-instrumentation/src/main/kotlin/com/huawei/utbot/instrumentation/instrumentation/et/TraceHandler.kt:157-176 | below capacity: both slots at the cursor written, the cursor advanced, the entries extended by exactly one pair; at capacity: an index exception and nothing written |
| TraceBuilder.Ids | utbot-instrumentation/src/main/kotlin/com/huawei/utbot/instrumentation/instrumentation/et/TraceHandler.kt:213-214 | the call ids of the stack, bottom first |
| TraceBuilder.PopTo | utbot-instrumentation/src/main/kotlin/com/huawei/utbot/instrumentation/instrumentation/et/TraceHandler.kt:243-246 | a prefix of the stack ending in the target id, with the id nowhere in the popped part: the longest such prefix |
| TraceBuilder.OpenStackShape | utbot-instrumentation/src/main/kotlin/com/huawei/utbot/instrumentation/instrumentation/et/TraceHandler.kt:214-262 | after k > 0 entries the open ids are non-empty and distinct, with the first entry's id at the bottom and the last entry's on top |
| TraceBuilder.Expected | utbot-instrumentation/src/main/kotlin/com/huawei/utbot/instrumentation/instrumentation/et/TraceHandler.kt:229-242 | the list with reclassification: identity fields kept, kinds changed only where `ImplicitExit` holds, each change an implicit throw with the instruction's line/signature (on return) or its data's (at the end); the last entry always ends in a return or a throw |
| TraceBuilder.OpenRoot | utbot-instrumentation/src/main/kotlin/com/huawei/utbot/instrumentation/instrumentation/et/TraceHandler.kt:220-226 | the first entry opens a root frame of depth 1 holding it |
| TraceBuilder.OpenChild | utbot-instrumentation/src/main/kotlin/com/huawei/utbot/instrumentation/instrumentation/et/TraceHandler.kt:248-259 | a new id opens a child frame one level deeper than the top; the stack invariants and the reference stack are kept |
| TraceBuilder.NoExitIntoNewFrame | utbot-instrumentation/src/main/kotlin/com/huawei/utbot/instrumentation/instrumentation/et/TraceHandler.kt:248-259 | entering a new frame never reclassifies the previous entry, and pushes exactly the new id |
| TraceBuilder.PushFrameShape | utbot-instrumentation/src/main/kotlin/com/huawei/utbot/instrumentation/instrumentation/et/TraceHandler.kt:248-259 | pushing a fresh frame keeps depths i+1, distinct ids and the open-id set equal to the stack's ids |
| TraceBuilder.ReclassifyOnReturn | utbot-instrumentation/src/main/kotlin/com/huawei/utbot/instrumentation/instrumentation/et/TraceHandler.kt:229-242 | returning to another open frame rewrites the top's last entry exactly as `Expected` says, keeping the stack's ids and shape |
| TraceBuilder.CloseFramesAbove | utbot-instrumentation/src/main/kotlin/com/huawei/utbot/instrumentation/instrumentation/et/TraceHandler.kt:243-246 | the pop loop ends with the target id on top (`PopTo`), removes the popped ids from the set, and loses no entry |
| TraceBuilder.PushLeaf | utbot-instrumentation/src/main/kotlin/com/huawei/utbot/instrumentation/instrumentation/et/TraceHandler.kt:247 | the top frame takes the entry as its last leaf |
| TraceBuilder.ReturnToOpenFrame | utbot-instrumentation/src/main/kotlin/com/huawei/utbot/instrumentation/instrumentation/et/TraceHandler.kt:227-247 | the whole "id already open" branch keeps the loop invariant for one more entry |
| TraceBuilder.ReclassifyAtEnd | utbot-instrumentation/src/main/kotlin/com/huawei/utbot/instrumentation/instrumentation/et/TraceHandler.kt:264-276 | after the last entry the leaves are exactly `Expected(list)` |
| TraceBuilder.CloseAll | utbot-instrumentation/src/main/kotlin/com/huawei/utbot/instrumentation/instrumentation/et/TraceHandler.kt:278 | the root holds all open frames' leaves in order, and its leaf paths are the stack's paths: each leaf sits under the call ids open when it ran; it is separated (no two adjacent calls), well formed from depth 1, and is the first entry's call |
| TraceBuilder.BuildTrace | utbot-instrumentation/src/main/kotlin/com/huawei/utbot/instrumentation/instrumentation/et/TraceHandler.kt:211-279 | fails with `NoSuchElementException` iff the list is empty; otherwise `TreeOf`: the leaves, depth first, are exactly `Expected(list)`; the j-th leaf lies under exactly the calls open after entry j (`OpenStack`), so the nesting is fixed; no two calls are adjacent; depths run from 1; the root carries the first entry's call id, class and method |
| TraceBuilder.NestedUnderTop | utbot-instrumentation/src/main/kotlin/com/huawei/utbot/instrumentation/instrumentation/et/TraceHandler.kt:248-259 | a frame opened while another is on top nests under that top frame: with entries of call ids 1, 2, 3 the third lies under [1, 2, 3], and the tree that makes 3 a sibling of 2 is not `TreeOf` the list |
| TraceHandling.DecodeEntry | utbot-instrumentation/src/main/kotlin/com/huawei/utbot/instrumentation/instrumentation/et/TraceHandler.kt:196-200 | an entry decodes iff its id has a description and its class id is known; the instruction carries the class name, the data's signature and line, the call id and the local index |
| TraceHandling.DecodeTraceSuccess | utbot-instrumentation/src/main/kotlin/com/huawei/utbot/instrumentation/instrumentation/et/TraceHandler.kt:195-201 | decoding succeeds iff every entry decodes, and then yields each entry's instruction at its index |
| TraceHandling.DecodeTraceFailure | utbot-instrumentation/src/main/kotlin/com/huawei/utbot/instrumentation/instrumentation/et/TraceHandler.kt:195-201 | a failure is the error of the first entry that does not decode |
| TraceHandling.DecodePrefix | utbot-instrumentation/src/main/kotlin/com/huawei/utbot/instrumentation/instrumentation/et/TraceHandler.kt:195-201 | a failing prefix makes the whole buffer fail the same way; a success extends the prefix's result |
| TraceHandling.ReplaceSlash | utbot-instrumentation/src/main/kotlin/com/huawei/utbot/instrumentation/instrumentation/et/TraceHandler.kt:209 | every `/` becomes `.`, nothing else changes |
| TraceHandling.PutStaticsMembers | utbot-instrumentation/src/main/kotlin/com/huawei/utbot/instrumentation/instrumentation/et/TraceHandler.kt:206-209 | a field is listed iff some `PutStatic` occurrence writes it (owner in dotted form) |
| TraceHandling.PutStaticsAppend | utbot-instrumentation/src/main/kotlin/com/huawei/utbot/instrumentation/instrumentation/et/TraceHandler.kt:206-209 | listing commutes with concatenation: order and repeats are kept |
| TraceHandling.PutStaticsCount | utbot-instrumentation/src/main/kotlin/com/huawei/utbot/instrumentation/instrumentation/et/TraceHandler.kt:206-209 | one field per `PutStatic` occurrence: no deduplication |
| TraceHandling.TraceHandler.constructor | utbot-instrumentation/src/main/kotlin/com/huawei/utbot/instrumentation/instrumentation/et/TraceHandler.kt:179-183 | a fresh, empty processing storage and no cached list |
| TraceHandling.TraceHandler.RegisterClass | utbot-instrumentation/src/main/kotlin/com/huawei/utbot/instrumentation/instrumentation/et/TraceHandler.kt:185-187 | the class is interned; re-registering keeps its id; descriptions untouched |
| TraceHandling.TraceHandler.DecodeBuffers | utbot-instrumentation/src/main/kotlin/com/huawei/utbot/instrumentation/instrumentation/et/TraceHandler.kt:195-201 | the loop over the buffers returns the decoding of the recorded entries |
| TraceHandling.TraceHandler.ComputeInstructionList | utbot-instrumentation/src/main/kotlin/com/huawei/utbot/instrumentation/instrumentation/et/TraceHandler.kt:193-204 | memoised: a cached list is returned as is; otherwise the decoding, cached only on success |
| TraceHandling.TraceHandler.ComputePutStatics | utbot-instrumentation/src/main/kotlin/com/huawei/utbot/instrumentation/instrumentation/et/TraceHandler.kt:206-209 | the fields of the (cached or decoded) list; a decoding failure propagates |
| TraceHandling.TraceHandler.ComputeTrace | utbot-instrumentation/src/main/kotlin/com/huawei/utbot/instrumentation/instrumentation/et/TraceHandler.kt:211-279 | a decoding failure fails and leaves nothing cached; an empty list fails with `NoSuchElementException` and stays cached; otherwise a tree that is `TreeOf` the decoded list (leaves, nesting, root call) and every static field written |
| TraceHandling.TraceHandler.ResetTrace | utbot-instrumentation/src/main/kotlin/com/huawei/utbot/instrumentation/instrumentation/et/TraceHandler.kt:281-284 | cache cleared, cursor 0, call-id counter unchanged |
| ExecutionTrace.ExecutionTraceInstrumentation.Invoke | utbot-instrumentation/src/main/kotlin/com/huawei/utbot/instrumentation/instrumentation/et/ExecutionTraceInstrumentation.kt:23-35 | a thrown invocation propagates untouched; otherwise the trace is computed before the reset; on success the tree is `TreeOf` the decoded list, the cursor is 0 and the cache empty; a failing trace computation skips the reset, so the cursor stays and an empty list stays cached, failing every later call the same way |
| ExecutionTrace.ExecutionTraceInstrumentation.Transform | utbot-instrumentation/src/main/kotlin/com/huawei/utbot/instrumentation/instrumentation/et/ExecutionTraceInstrumentation.kt:41-54 | registers the class first, then returns a fresh array holding the pass applied to the input bytes |
| Instrumenting.Instrumenter.constructor | utbot-instrumentation/src/main/kotlin/com/huawei/utbot/instrumentation/instrumentation/instrumenter/Instrumenter.kt:34-36 | a fresh copy of the bytes |
| Instrumenting.Instrumenter.VisitClass | utbot-instrumentation/src/main/kotlin/com/huawei/utbot/instrumentation/instrumentation/instrumenter/Instrumenter.kt:41-48 | the bytes become the pass's output, in a fresh array |
| Instrumenting.Instrumenter.ComputeMapOfRanges | utbot-instrumentation/src/main/kotlin/com/huawei/utbot/instrumentation/instrumentation/instrumenter/Instrumenter.kt:50-62 | one pass over the class, then the probe ranges |
| Instrumenting.MapOfRanges | utbot-instrumentation/src/main/kotlin/com/huawei/utbot/instrumentation/instrumentation/instrumenter/Instrumenter.kt:61 | fails iff some method has no probes; otherwise the same keys, each mapped to first..last probe |
| Instrumenting.RangesCoverProbes | utbot-instrumentation/src/main/kotlin/com/huawei/utbot/instrumentation/instrumentation/instrumenter/Instrumenter.kt:50-61 | for non-empty ascending probe lists the ranges exist and every probe of a method lies within its range |
| Instrumenting.ComputeSourceFileByClass | utbot-instrumentation/src/main/kotlin/com/huawei/utbot/instrumentation/instrumentation/instrumenter/Instrumenter.kt:116-133 | none without a source-file name; else the first preferred candidate in walk order; else the last candidate; else none |
| InvokeInstrumenting.FirstWithSignature | utbot-instrumentation/src/main/kotlin/com/huawei/utbot/instrumentation/instrumentation/InvokeInstrumentation.kt:33-34 | `firstOrNull` by signature: none iff no match, otherwise the first match |
| InvokeInstrumenting.Resolve | utbot-instrumentation/src/main/kotlin/com/huawei/utbot/instrumentation/instrumentation/InvokeInstrumentation.kt:32-35 | `firstOrNull` over methods then declared methods, then constructors: the first matching method if any, otherwise the first matching constructor; no match fails with `NoSuchMethodException("Signature: …")` |
| InvokeInstrumenting.SplitReceiver | utbot-instrumentation/src/main/kotlin/com/huawei/utbot/instrumentation/instrumentation/InvokeInstrumentation.kt:39-45 | static methods and constructors get a `null` receiver and all arguments; an instance method fails iff the list is empty or starts with `null`, otherwise receiver :: rest == arguments |
| InvokeInstrumenting.InstanceCallArguments | utbot-instrumentation/src/main/kotlin/com/huawei/utbot/instrumentation/instrumentation/InvokeInstrumentation.kt:39-55 | a successful call of an instance method had a non-null first argument; it is the receiver, the rest are the arguments, and the result is the call's (void as `Unit`, the target's exception wrapped) |
| InvokeInstrumenting.Invoke | utbot-instrumentation/src/main/kotlin/com/huawei/utbot/instrumentation/instrumentation/InvokeInstrumentation.kt:26-64 | resolution, receiver errors and the call's own exceptions are thrown; the target's exception is wrapped in an inner failure; a void method's result is `Unit` |
| InvokeInstrumenting.Transform | utbot-instrumentation/src/main/kotlin/com/huawei/utbot/instrumentation/instrumentation/InvokeInstrumentation.kt:69-75 | never changes bytecode |
| DynamicTransform.CollapseSlashes | utbot-instrumentation/src/main/kotlin/com/huawei/utbot/instrumentation/agent/DynamicClassTransformer.kt:15 | no two adjacent separators remain; first and last characters and all non-separator characters are kept |
| DynamicTransform.Normalize | utbot-instrumentation/src/main/kotlin/com/huawei/utbot/instrumentation/agent/DynamicClassTransformer.kt:15 | the result is normal (no doubled or trailing separator) and keeps the non-separator characters and the first character |
| DynamicTransform.CollapseDouble | utbot-instrumentation/src/main/kotlin/com/huawei/utbot/instrumentation/agent/DynamicClassTransformer.kt:15 | a doubled separator collapses exactly like a single one |
| DynamicTransform.NormalizeDouble | utbot-instrumentation/src/main/kotlin/com/huawei/utbot/instrumentation/agent/DynamicClassTransformer.kt:15 | `a//b` and `a/b` have the same normal form, so each run of separators counts as one |
| DynamicTransform.NormalizeFixed | utbot-instrumentation/src/main/kotlin/com/huawei/utbot/instrumentation/agent/DynamicClassTransformer.kt:15 | a normal path is its own normal form |
| DynamicTransform.NormalizeIdempotent | utbot-instrumentation/src/main/kotlin/com/huawei/utbot/instrumentation/agent/DynamicClassTransformer.kt:15-19 | normalising twice is normalising once |
| DynamicTransform.Contains | utbot-instrumentation/src/main/kotlin/com/huawei/utbot/instrumentation/agent/DynamicClassTransformer.kt:29 | `String.contains` holds iff the pattern occurs at some index |
| DynamicTransform.DynamicClassTransformer.AddPaths | utbot-instrumentation/src/main/kotlin/com/huawei/utbot/instrumentation/agent/DynamicClassTransformer.kt:17-19 | the set grows by exactly the normal forms of the paths |
| DynamicTransform.DynamicClassTransformer.Transform | utbot-instrumentation/src/main/kotlin/com/huawei/utbot/instrumentation/agent/DynamicClassTransformer.kt:21-35 | no code source fails on the lookup; a class delegates iff its normalised path is registered or its name contains `slf4j` (failing when no instrumentation is installed); otherwise `null` |
| DynamicTransform.DynamicClassTransformer.SetTransformer | utbot-instrumentation/src/main/kotlin/com/huawei/utbot/instrumentation/process/ChildProcess.kt:57 | the instrumentation is installed; the registered paths are unchanged |
| DynamicTransform.SelectionUpToSpelling | utbot-instrumentation/src/main/kotlin/com/huawei/utbot/instrumentation/agent/DynamicClassTransformer.kt:28-29 | two spellings of one path select the same classes |
| Executing.OnCommand | utbot-instrumentation/src/main/kotlin/com/huawei/utbot/instrumentation/ConcreteExecutor.kt:204-209 | the expected kind is accepted; `ErrorCommand` raises `ChildProcessError` with its exception; any other command raises `UnexpectedCommand` |
| Executing.HandshakeStop | utbot-instrumentation/src/main/kotlin/com/huawei/utbot/instrumentation/ConcreteExecutor.kt:155-187 | the step at which the handshake first misses a `Ready`, or 3 when all three arrive |
| Executing.ConcreteExecutor.WaitForReady | utbot-instrumentation/src/main/kotlin/com/huawei/utbot/instrumentation/ConcreteExecutor.kt:214-216 | reads exactly one command and accepts only `Ready` |
| Executing.ConcreteExecutor.ReadCommand | utbot-instrumentation/src/main/kotlin/com/huawei/utbot/instrumentation/util/KryoHelper.kt:60-64 | the next unread reply, advancing the cursor by one; none (the read fails) at the end of the stream; nothing else changes |
| Executing.ConcreteExecutor.WriteCommand | utbot-instrumentation/src/main/kotlin/com/huawei/utbot/instrumentation/util/KryoHelper.kt:55-58 | the command is appended to what was sent; nothing else changes |
| Executing.ConcreteExecutor.RestartIfNeeded | utbot-instrumentation/src/main/kotlin/com/huawei/utbot/instrumentation/ConcreteExecutor.kt:155-187 | nothing when running; a failed start is wrapped; otherwise Ready, AddPaths, Ready, SetInstrumentation, Ready, stopping at the first miss with the reason wrapped in `ChildProcessStartException`; the worker stays alive after a failed handshake |
| Executing.ConcreteExecutor.Execute | utbot-instrumentation/src/main/kotlin/com/huawei/utbot/instrumentation/ConcreteExecutor.kt:122-150 | after the handshake, exactly one `InvokeMethodCommand` sent and one reply read; a result reply yields its value, any other reply fails as `OnCommand` says |
| Executing.ConcreteExecutor.Request | utbot-instrumentation/src/main/kotlin/com/huawei/utbot/instrumentation/ConcreteExecutor.kt:195-199 | sends the command; without an action nothing is read and the result is `None`; with one, exactly one command is read and passed to it unchecked |
| Executing.ConcreteExecutor.Close | utbot-instrumentation/src/main/kotlin/com/huawei/utbot/instrumentation/ConcreteExecutor.kt:221-227 | no-op when not running; otherwise exactly one `Stop` sent and the worker gone |
| Executing.ConcreteExecutor.ProcessExited | utbot-instrumentation/src/main/kotlin/com/huawei/utbot/instrumentation/ConcreteExecutor.kt:218-219 | the worker is no longer running; the streams are untouched |
| Executing.FindExecutor | utbot-instrumentation/src/main/kotlin/com/huawei/utbot/instrumentation/ConcreteExecutor.kt:56-58 | the first executor with equal user paths and instrumentation, or none |
| Executing.ConcreteExecutorPool.constructor | utbot-instrumentation/src/main/kotlin/com/huawei/utbot/instrumentation/ConcreteExecutor.kt:43-44 | an empty deque |
| Executing.ConcreteExecutorPool.Get | utbot-instrumentation/src/main/kotlin/com/huawei/utbot/instrumentation/ConcreteExecutor.kt:50-65 | a hit returns the first match and leaves the deque as it is; a failed creation adds nothing; otherwise the new executor has run the whole handshake and goes first, and above `maxCount` the last one is dropped and closed, so with `maxCount == 0` the executor returned has already been sent `Stop`; size stays <= `maxCount` and executors distinct |
| Executing.ConcreteExecutorPool.Close | utbot-instrumentation/src/main/kotlin/com/huawei/utbot/instrumentation/ConcreteExecutor.kt:67-70 | every executor closed, each sent `Stop` iff it was running, deque empty |
| ChildProcessing.Split | utbot-instrumentation/src/main/kotlin/com/huawei/utbot/instrumentation/process/ChildProcess.kt:47-48 | at least one piece, none containing the separator |
| ChildProcessing.JoinSplit | utbot-instrumentation/src/main/kotlin/com/huawei/utbot/instrumentation/process/ChildProcess.kt:47-48 | joining the pieces gives back the string |
| ChildProcessing.SplitJoin | utbot-instrumentation/src/main/kotlin/com/huawei/utbot/instrumentation/process/ChildProcess.kt:47-48 | separator-free pieces are recovered by splitting their join |
| ChildProcessing.Step | utbot-instrumentation/src/main/kotlin/com/huawei/utbot/instrumentation/process/ChildProcess.kt:69-98 | an invocation that returns is answered with its result and one that throws with `ErrorCommand`, and the loop goes on; a crashing invocation ends the worker; `Stop` ends silently; an instrumentation command is answered iff `handle` replies; anything else gets `Error(UnexpectedCommand)` and the loop goes on |
| ChildProcessing.InvocationsPairWithReplies | utbot-instrumentation/src/main/kotlin/com/huawei/utbot/instrumentation/process/ChildProcess.kt:67-100 | invocations followed by `Stop`: the i-th reply answers the i-th invocation and the loop stops there |
| ChildProcessing.RunLoop | utbot-instrumentation/src/main/kotlin/com/huawei/utbot/instrumentation/process/ChildProcess.kt:67-100 | the loop reads at most the whole input; every command before the last one read lets it go on; it ends on the first command whose step ends it, with that ending; if none does it reads everything and dies with `StreamClosed` |
| ChildProcessing.ReadClasspath | utbot-instrumentation/src/main/kotlin/com/huawei/utbot/instrumentation/process/ChildProcess.kt:120-130 | `AddPaths` is acknowledged with `Ready`; anything else gets an error reply and fails with "No classpath!" |
| ChildProcessing.GetInstrumentation | utbot-instrumentation/src/main/kotlin/com/huawei/utbot/instrumentation/process/ChildProcess.kt:106-118 | `SetInstrumentation` is acknowledged with `Ready`; `Stop` gets no reply; anything else gets an error reply; only the first yields an instrumentation |
| ChildProcessing.Worker.constructor | utbot-instrumentation/src/main/kotlin/com/huawei/utbot/instrumentation/process/ChildProcess.kt:28-44 | nothing read or written, the connector open, the loader empty |
| ChildProcessing.Worker.ReadCommand | utbot-instrumentation/src/main/kotlin/com/huawei/utbot/instrumentation/util/KryoHelper.kt:60-64 | the next command, advancing by one; none at the end of the input; output, connector and loader unchanged |
| ChildProcessing.Worker.Loop | utbot-instrumentation/src/main/kotlin/com/huawei/utbot/instrumentation/process/ChildProcess.kt:67-100 | the output grows by exactly `RunLoop`'s replies; the connector is closed iff the loop stopped on `Stop`; running out of input ends the worker with `StreamClosed` |
| ChildProcessing.Worker.ServeOne | utbot-instrumentation/src/main/kotlin/com/huawei/utbot/instrumentation/process/ChildProcess.kt:68-99 | one turn reads one command and writes exactly the replies `Step` gives; only `Stop` closes the connector; at the end of the input nothing is written and the worker dies with `StreamClosed` |
| ChildProcessing.Worker.Startup | utbot-instrumentation/src/main/kotlin/com/huawei/utbot/instrumentation/process/ChildProcess.kt:44-50 | `Ready` first, then the class-path and instrumentation answers; user then dependency paths, split, go to the loader |
| ChildProcessing.Worker.Run | utbot-instrumentation/src/main/kotlin/com/huawei/utbot/instrumentation/process/ChildProcess.kt:27-62 | the first output is `Ready`; start-up failures end the worker; with an instrumentation the agent gets it and the normalised user paths, and the loop runs over the rest |
| ChildProcessing.HandshakeAgreement | utbot-instrumentation/src/main/kotlin/com/huawei/utbot/instrumentation/process/ChildProcess.kt:44-61 | a worker sent the controller's handshake answers with three `Ready`s, so the controller's handshake completes |
| ChildProcessing.HandshakeRejectsWrongFirst | utbot-instrumentation/src/main/kotlin/com/huawei/utbot/instrumentation/process/ChildProcess.kt:120-128 | a worker sent anything but `AddPaths` first makes the controller stop at its second step |
| MockVisiting.NatToString | utbot-instrumentation/src/main/kotlin/com/huawei/utbot/instrumentation/instrumentation/mock/MockClassVisitor.kt:70 | decimal digits only; one digit iff below 10 |
| MockVisiting.NatToStringInjective | utbot-instrumentation/src/main/kotlin/com/huawei/utbot/instrumentation/instrumentation/mock/MockClassVisitor.kt:70 | different ids print differently |
| MockVisiting.MockFieldNameInjective | utbot-instrumentation/src/main/kotlin/com/huawei/utbot/instrumentation/instrumentation/mock/MockClassVisitor.kt:69-71 | different ids give different flag fields |
| MockVisiting.NullIsNoFlag | utbot-instrumentation/src/main/kotlin/com/huawei/utbot/instrumentation/instrumentation/mock/MockClassVisitor.kt:69-71 | the name `$__is_mock_null` differs from every flag field name |
| MockVisiting.MockClassVisitor.Visit | utbot-instrumentation/src/main/kotlin/com/huawei/utbot/instrumentation/instrumentation/mock/MockClassVisitor.kt:29-39 | records the class name and forwards the event |
| MockVisiting.MockClassVisitor.VisitMethodOf | utbot-instrumentation/src/main/kotlin/com/huawei/utbot/instrumentation/instrumentation/mock/MockClassVisitor.kt:41-109 | initialisers pass through with no id; any other method gets id = number of keys so far under name+descriptor, queues its flag field and gets a prologue; every registered method keeps its flag queued; without a class name it fails after storing the id |
| MockVisiting.MockClassVisitor.VisitEndOfClass | utbot-instrumentation/src/main/kotlin/com/huawei/utbot/instrumentation/instrumentation/mock/MockClassVisitor.kt:111-125 | one public static synthetic final boolean field per queued flag, in order, before the delegate's end |
| MockVisiting.MockClassVisitor.constructor | utbot-instrumentation/src/main/kotlin/com/huawei/utbot/instrumentation/instrumentation/mock/MockClassVisitor.kt:17-24 | no ids, no class name, no queued fields and no events; every registered method has its flag queued |
| MockVisiting.FieldEvents | utbot-instrumentation/src/main/kotlin/com/huawei/utbot/instrumentation/instrumentation/mock/MockClassVisitor.kt:112 | one field event per flag, in order |
| MockVisiting.RegisterKeys | utbot-instrumentation/src/main/kotlin/com/huawei/utbot/instrumentation/instrumentation/mock/MockClassVisitor.kt:65-67 | the keys registered are exactly the method keys visited, repeats included once |
| MockVisiting.DenseIds | utbot-instrumentation/src/main/kotlin/com/huawei/utbot/instrumentation/instrumentation/mock/MockClassVisitor.kt:65-67 | for distinct keys the ids are 0, 1, 2, … in visiting order |
| MockVisiting.DistinctFlagFields | utbot-instrumentation/src/main/kotlin/com/huawei/utbot/instrumentation/instrumentation/mock/MockClassVisitor.kt:69-71 | distinct ids give distinct flag fields |
| MockVisiting.RunPrologue | utbot-instrumentation/src/main/kotlin/com/huawei/utbot/instrumentation/instrumentation/mock/MockClassVisitor.kt:75-106 | the original body runs iff the flag is clear; a set flag returns at once from a void method, otherwise returns `getMock(this or null, name+descriptor)` |
| MockHelping.MockContainer.constructor | utbot-instrumentation/src/test/kotlin/com/huawei/utbot/instrumentation/examples/mock/MockHelper.kt:70-71 | holds the given values with the pointer at 0 |
| MockHelping.MockContainer.NextValue | utbot-instrumentation/src/test/kotlin/com/huawei/utbot/instrumentation/examples/mock/MockHelper.kt:70-73 | the value at the index, then advancing; an exhausted container fails with the index and still advances |
| MockHelping.MockGetter.constructor | utbot-instrumentation/src/test/kotlin/com/huawei/utbot/instrumentation/examples/mock/MockHelper.kt:75 | no containers |
| MockHelping.MockGetter.GetMock | utbot-instrumentation/src/test/kotlin/com/huawei/utbot/instrumentation/examples/mock/MockHelper.kt:85-89 | no container for (receiver identity, key) fails; otherwise that container's next value |
| MockHelping.MockGetter.UpdateMocks | utbot-instrumentation/src/test/kotlin/com/huawei/utbot/instrumentation/examples/mock/MockHelper.kt:91-94 | a fresh container at the first value replaces that key's; other keys and receivers are kept |
| MockHelping.MockHelper.constructor | utbot-instrumentation/src/test/kotlin/com/huawei/utbot/instrumentation/examples/mock/MockHelper.kt:38-45 | given ids whose flag fields the class declares, every flag starts clear and every registered method's flag exists |
| MockHelping.MockHelper.FlagName | utbot-instrumentation/src/test/kotlin/com/huawei/utbot/instrumentation/examples/mock/MockHelper.kt:53-55 | a registered method names the flag field of its id; an unregistered one names `$__is_mock_null`, which is no flag field |
| MockHelping.MockHelper.WithMockedMethod | utbot-instrumentation/src/test/kotlin/com/huawei/utbot/instrumentation/examples/mock/MockHelper.kt:47-64 | void methods refused; an unregistered method or a missing flag field fails before any change; otherwise a fresh container with the values replaces only that receiver's key (all other containers kept), and the flag is set around the block and cleared after it, staying set if the block throws |
| StaticEnv.StaticEnvironment.constructor | utbot-instrumentation/src/main/kotlin/com/huawei/utbot/instrumentation/util/StaticEnvironment.kt:10-11 | empty |
| StaticEnv.StaticEnvironment.FromList | utbot-instrumentation/src/main/kotlin/com/huawei/utbot/instrumentation/util/StaticEnvironment.kt:15-21 | the same content as starting empty and adding the list |
| StaticEnv.StaticEnvironment.AddStaticFields | utbot-instrumentation/src/main/kotlin/com/huawei/utbot/instrumentation/util/StaticEnvironment.kt:23-25 | appends in order, keeping the prefix and duplicates |

## Left out

- Kryo serialisation is not modelled. A stream is a sequence of `Command`
  values. A read past its end returns no command, and the reader fails with
  `StreamClosed`: the controller's reads raise it, and the worker's loop ends
  with it. Writes always succeed.
- Process management is not modelled:
  - starting the worker is an outcome given by the caller;
  - the worker's whole output is given by the caller;
  - whether the worker is alive is a flag the environment may clear (`ProcessExited`);
  - `waitFor` is modelled as the worker being gone.
- Reflection and class loading are replaced by descriptions and by functions
  given by the caller: executables, call outcomes, `invoke`, `handle`,
  `getMock` and the instrumentation's `transform`.
- `execute`'s mapping of a `KCallable` to a class and a signature is not
  modelled. The class name and the signature are taken directly.
- ASM is not modelled. The reader, writer and visitor passes are a function on
  bytes. Only the mock visitor's bookkeeping and events are modelled, not the
  JVM instruction sequences it emits.
- The cast or unboxing of a mocked value in the prologue is not modelled.
- `TraceListStrategy` and `InvokeWithStaticsInstrumentation` are not part of
  this model. The instruction descriptions they register and the
  invocation's outcome are inputs.
- File walking is not modelled. The walk's entries are an input sequence.
- Normalisation follows the Unix rule for `File.path`: doubled separators
  collapse and a trailing one is dropped. Other platforms are not modelled.
- TraceBuilder.BuildTrace: open frames are values attached to their parent when
  they are closed, not shared references attached when they are opened. The
  contract fixes the finished tree's leaves, their nesting under the open
  calls, the separation of calls and the root; aliasing of the intermediate
  lists, visible only while the pass runs, is not modelled.
- Processing.ProcessingStorage.AddClass: more than 2^31 - 1 classes is
  excluded by a precondition rather than modelled as an `Int` overflow.
- MockHelping.MockContainer.NextValue: `ptr` is unbounded. Its `Int`
  wrap-around after 2^31 calls is not modelled.
- MockHelping.MockHelper.WithMockedMethod: the block is given by its outcome;
  the values it draws from the installed container are not modelled.
- MockHelping.MockGetter.GetMock: the error message leaves out the printed
  receiver and signature.
- The worker's stderr print and the logging are not modelled.
- Executing.ConcreteExecutorPool.constructor: a negative `maxCount`, for
  which `ArrayDeque` throws, is excluded by a precondition.
- Executing.ConcreteExecutor.constructor does not start the worker itself.
  The start that the source runs in `init` is the `RestartIfNeeded` call
  that `Get` makes right after construction.
- `withInstrumentation`, `ConcreteExecutor.invoke` and the default pool are
  not modelled.
- The bytecode `TraceInstructionBytecodeInserter` emits is not modelled. Its
  run-time effect is, as `EnterMethod` and `Record`.
- The capacity of the trace buffers is the constructor parameter `capacity`.
  `Settings` is not part of this model.
