/**
 * The test helper for mocks: `MockGetter` keeps, per receiver identity
 * (`null` for static methods) and method key, a queue of values that the
 * instrumented prologue draws from; `withMockedMethod` installs a queue,
 * raises the method's flag around a block and lowers it again.
 */
module MockHelping {
  import opened Protocol
  import opened MockVisiting

  /** The values one mocked method returns, in order. */
  class MockContainer {
    const values: seq<Value>
    var ptr: int

    constructor (values: seq<Value>)
      ensures this.values == values && ptr == 0
    {
      this.values := values;
      ptr := 0;
    }

    /**
     * `values[ptr++]`: the index is taken and `ptr` advanced before the list
     * is read, so an exhausted container still advances.
     */
    method NextValue() returns (r: Result<Value, Exception>)
      modifies this
      ensures ptr == old(ptr) + 1
      ensures 0 <= old(ptr) < |values| ==> r == Success(values[old(ptr)])
      ensures !(0 <= old(ptr) < |values|) ==> r == Failure(IndexOutOfBoundsException(old(ptr)))
    {
      var i := ptr;
      ptr := ptr + 1;
      if 0 <= i < |values| {
        r := Success(values[i]);
      } else {
        r := Failure(IndexOutOfBoundsException(i));
      }
    }
  }

  class MockGetter {
    /** Receiver identity → method key → container. */
    var mocks: map<Value, map<string, MockContainer>>

    constructor ()
      ensures mocks == map[]
    {
      mocks := map[];
    }

    /** The container for a receiver and a method key, if one was installed. */
    function Container(obj: Value, signature: string): Option<MockContainer>
      reads this
    {
      if obj in mocks && signature in mocks[obj] then Some(mocks[obj][signature]) else None
    }

    /** The next value for the method; no container is an error. */
    method GetMock(obj: Value, signature: string) returns (r: Result<Value, Exception>)
      modifies if Container(obj, signature).Some? then {Container(obj, signature).value} else {}
      ensures Container(obj, signature).None? ==> r == Failure(IllegalStateException("Can't get mock container for method"))
      ensures Container(obj, signature).Some? ==>
        var c := Container(obj, signature).value;
        && c.ptr == old(c.ptr) + 1
        && r == if 0 <= old(c.ptr) < |c.values| then Success(c.values[old(c.ptr)]) else Failure(IndexOutOfBoundsException(old(c.ptr)))
    {
      if obj !in mocks || signature !in mocks[obj] {
        return Failure(IllegalStateException("Can't get mock container for method"));
      }
      var container := mocks[obj][signature];
      r := container.NextValue();
    }

    /** A fresh container for this receiver and method, starting at the first value; other entries are kept. */
    method UpdateMocks(obj: Value, signature: string, values: seq<Value>)
      modifies this
      ensures var old_inner := if obj in old(mocks) then old(mocks)[obj] else map[];
        && obj in mocks && signature in mocks[obj]
        && fresh(mocks[obj][signature])
        && mocks[obj][signature].values == values && mocks[obj][signature].ptr == 0
        && mocks == old(mocks)[obj := old_inner[signature := mocks[obj][signature]]]
    {
      var methodMocks := if obj in mocks then mocks[obj] else map[];
      var container := new MockContainer(values);
      mocks := mocks[obj := methodMocks[signature := container]];
    }
  }

  /** What reflection knows of the method to mock. */
  datatype MockedMethod = MockedMethod(signature: string, returnsVoid: bool)

  class MockHelper {
    /** The ids the visitor gave while instrumenting the class. */
    const signatureToId: map<string, nat>
    /** The instrumented class's static flag fields and their current values. */
    var flags: map<string, bool>
    const getter: MockGetter

    /** Every method the visitor registered has its flag field in the loaded class. */
    ghost predicate Valid()
      reads this
    {
      forall s | s in signatureToId :: MockFieldName(signatureToId[s]) in flags
    }

    /**
     * The class as loaded after instrumentation: every queued flag field
     * exists and is clear. The ids and the fields come from one visitor run
     * over the class, so every registered method has its flag queued.
     */
    constructor (signatureToId: map<string, nat>, extraFields: seq<string>, getter: MockGetter)
      requires forall s | s in signatureToId :: MockFieldName(signatureToId[s]) in extraFields
      ensures this.signatureToId == signatureToId && this.getter == getter
      ensures flags == map f | f in extraFields :: false
      ensures Valid()
    {
      this.signatureToId := signatureToId;
      this.getter := getter;
      flags := map f | f in extraFields :: false;
    }

    /**
     * `IS_MOCK_FIELD + methodId`, where a missing id prints as `null`: a
     * registered method names its own flag, and any other names no flag.
     */
    function FlagName(signature: string): (r: string)
      ensures signature in signatureToId ==> r == MockFieldName(signatureToId[signature])
      ensures signature !in signatureToId ==> forall id: nat :: r != MockFieldName(id)
    {
      if signature in signatureToId then MockFieldName(signatureToId[signature])
      else
        assert forall id: nat :: MockFieldName(id) != IsMockField + "null" by {
          forall id: nat
            ensures MockFieldName(id) != IsMockField + "null"
          {
            NullIsNoFlag(id);
          }
        }
        IsMockField + "null"
    }

    /**
     * A `void` method is refused; a method without a flag field fails the
     * field lookup before anything changes; otherwise the values are
     * installed, the flag is raised, the block runs (`block` is its outcome)
     * and the flag is lowered again, unless the block threw, in which case
     * it stays raised.
     */
    method WithMockedMethod(m: MockedMethod, instance: Value, mockedValues: seq<Value>, block: Result<Value, Exception>)
      returns (r: Result<Value, Exception>)
      requires Valid()
      modifies this, getter
      ensures Valid()
      ensures m.returnsVoid ==>
        && r == Failure(IllegalStateException("Can't mock function returning void!"))
        && flags == old(flags) && getter.mocks == old(getter.mocks)
      ensures !m.returnsVoid && FlagName(m.signature) !in old(flags) ==>
        && m.signature !in signatureToId
        && r == Failure(NoSuchFieldException(FlagName(m.signature)))
        && flags == old(flags) && getter.mocks == old(getter.mocks)
      ensures !m.returnsVoid && FlagName(m.signature) in old(flags) ==>
        && r == block
        && flags == old(flags)[FlagName(m.signature) := block.Failure?]
        && getter.Container(instance, m.signature).Some?
        && fresh(getter.Container(instance, m.signature).value)
        && getter.Container(instance, m.signature).value.values == mockedValues
        && getter.Container(instance, m.signature).value.ptr == 0
        && var before: map<string, MockContainer> := if instance in old(getter.mocks) then old(getter.mocks)[instance] else map[];
           getter.mocks == old(getter.mocks)[instance := before[m.signature := getter.Container(instance, m.signature).value]]
    {
      if m.returnsVoid {
        return Failure(IllegalStateException("Can't mock function returning void!"));
      }
      var field := FlagName(m.signature);
      if field !in flags {
        return Failure(NoSuchFieldException(field));
      }
      getter.UpdateMocks(instance, m.signature, mockedValues);
      flags := flags[field := true];
      if block.Failure? {
        return block;
      }
      flags := flags[field := false];
      r := block;
    }
  }
}
