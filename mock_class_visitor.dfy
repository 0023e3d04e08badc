/**
 * `MockClassVisitor`: while a class is rewritten, gives every method other
 * than constructors and static initialisers a dense id, a boolean static
 * flag field named after the id, and a prologue that, when the flag is
 * set, returns a mocked value instead of running the body.
 *
 * The delegate visitor is represented by the sequence of events it
 * receives.
 */
module MockVisiting {
  import opened Protocol

  const IsMockField: string := "$__is_mock_"

  /** Decimal digits of `n`, as `Int.toString` prints a non-negative number. */
  function NatToString(n: nat): (r: string)
    ensures |r| >= 1
    ensures (|r| == 1) <==> n < 10
    ensures forall i :: 0 <= i < |r| ==> '0' <= r[i] <= '9'
    decreases n
  {
    if n < 10 then [Digit(n)] else NatToString(n / 10) + [Digit(n % 10)]
  }

  function Digit(d: nat): (c: char)
    requires d < 10
    ensures '0' <= c <= '9'
  {
    "0123456789"[d]
  }

  lemma DigitInjective(a: nat, b: nat)
    requires a < 10 && b < 10 && Digit(a) == Digit(b)
    ensures a == b
  {
  }

  /** Different numbers print differently. */
  lemma {:induction false} NatToStringInjective(a: nat, b: nat)
    requires NatToString(a) == NatToString(b)
    ensures a == b
    decreases a
  {
    var s := NatToString(a);
    if a < 10 {
      DigitInjective(a, b);
    } else {
      assert b >= 10;
      assert NatToString(a / 10) == s[..|s| - 1] == NatToString(b / 10);
      DigitInjective(a % 10, b % 10);
      NatToStringInjective(a / 10, b / 10);
    }
  }

  /** The flag field of the method with id `id`. */
  function MockFieldName(id: nat): string {
    IsMockField + NatToString(id)
  }

  lemma MockFieldNameInjective(a: nat, b: nat)
    requires MockFieldName(a) == MockFieldName(b)
    ensures a == b
  {
    assert MockFieldName(a)[|IsMockField|..] == NatToString(a);
    assert MockFieldName(b)[|IsMockField|..] == NatToString(b);
    NatToStringInjective(a, b);
  }

  /**
   * A method without an id looks its flag up as `IS_MOCK_FIELD + null`, a
   * name no flag field has, since ids print as digits.
   */
  lemma NullIsNoFlag(id: nat)
    ensures MockFieldName(id) != IsMockField + "null"
  {
    assert MockFieldName(id)[|IsMockField|] == NatToString(id)[0];
    assert (IsMockField + "null")[|IsMockField|] == 'n';
  }

  /** What the injected prologue of a mocked method needs. */
  datatype Prologue = Prologue(flagField: string, isStatic: bool, isVoid: bool, signature: string)

  /** The events the delegate visitor receives. */
  datatype ClassEvent =
    | VisitClass(name: string)
    | VisitMethod(name: string, descriptor: string, prologue: Option<Prologue>)
    | VisitField(name: string, descriptor: string, publicStaticSyntheticFinal: bool)
    | VisitEnd

  /** `<init>` and `<clinit>` are neither mocked nor counted. */
  predicate IsInitializer(name: string) {
    name == "<init>" || name == "<clinit>"
  }

  class MockClassVisitor {
    var signatureToId: map<string, nat>
    /** `lateinit var internalClassName`. */
    var internalClassName: Option<string>
    /** Flag fields to add at the end, in registration order. */
    var extraFields: seq<string>
    var events: seq<ClassEvent>

    /** Every registered method has its flag field queued. */
    ghost predicate FlagsQueued()
      reads this
    {
      forall s | s in signatureToId :: MockFieldName(signatureToId[s]) in extraFields
    }

    constructor ()
      ensures signatureToId == map[] && internalClassName == None && extraFields == [] && events == []
      ensures FlagsQueued()
    {
      signatureToId, internalClassName, extraFields, events := map[], None, [], [];
    }

    method Visit(name: string)
      modifies this
      ensures internalClassName == Some(name) && events == old(events) + [VisitClass(name)]
      ensures signatureToId == old(signatureToId) && extraFields == old(extraFields)
    {
      internalClassName := Some(name);
      events := events + [VisitClass(name)];
    }

    /**
     * Initialisers pass through untouched. Any other method is keyed by
     * name + descriptor and gets the current number of keys as its id
     * (its flag field is queued and its prologue installed); the id is
     * stored before the class name is needed, so a visitor that never saw
     * the class fails after that.
     */
    method VisitMethodOf(name: string, descriptor: string, isStatic: bool, isVoid: bool) returns (err: Option<Exception>)
      modifies this
      ensures IsInitializer(name) ==>
        && err == None && events == old(events) + [VisitMethod(name, descriptor, None)]
        && signatureToId == old(signatureToId) && extraFields == old(extraFields)
      ensures !IsInitializer(name) ==>
        var sig := name + descriptor;
        var id := |old(signatureToId)|;
        && signatureToId == old(signatureToId)[sig := id]
        && (internalClassName.None? ==>
              err == Some(UninitializedPropertyAccessException) && extraFields == old(extraFields) && events == old(events))
        && (internalClassName.Some? ==>
              && err == None
              && extraFields == old(extraFields) + [MockFieldName(id)]
              && events == old(events) + [VisitMethod(name, descriptor, Some(Prologue(MockFieldName(id), isStatic, isVoid, sig)))])
      ensures internalClassName == old(internalClassName)
      ensures old(FlagsQueued()) && internalClassName.Some? ==> FlagsQueued()
    {
      if IsInitializer(name) {
        events := events + [VisitMethod(name, descriptor, None)];
        return None;
      }
      var computedSignature := name + descriptor;
      var id := |signatureToId|;
      signatureToId := signatureToId[computedSignature := id];
      if internalClassName.None? {
        return Some(UninitializedPropertyAccessException);
      }
      var flag := MockFieldName(id);
      extraFields := extraFields + [flag];
      events := events + [VisitMethod(name, descriptor, Some(Prologue(flag, isStatic, isVoid, computedSignature)))];
      err := None;
    }

    /** Each queued flag becomes a public static synthetic final boolean field, in order; then the end of the class. */
    method VisitEndOfClass()
      modifies this
      ensures events == old(events) + FieldEvents(extraFields) + [VisitEnd]
      ensures signatureToId == old(signatureToId) && extraFields == old(extraFields)
    {
      var i := 0;
      while i < |extraFields|
        invariant 0 <= i <= |extraFields|
        invariant events == old(events) + FieldEvents(extraFields[..i])
        invariant signatureToId == old(signatureToId) && extraFields == old(extraFields)
      {
        assert extraFields[..i + 1][..i] == extraFields[..i];
        events := events + [VisitField(extraFields[i], "Z", true)];
        i := i + 1;
      }
      assert extraFields[..i] == extraFields;
      events := events + [VisitEnd];
    }
  }

  /** The field events for the queued flags: one per flag, in order, each a `boolean`. */
  function FieldEvents(fields: seq<string>): (r: seq<ClassEvent>)
    ensures |r| == |fields|
    ensures forall i :: 0 <= i < |fields| ==> r[i] == VisitField(fields[i], "Z", true)
  {
    if fields == [] then [] else FieldEvents(fields[..|fields| - 1]) + [VisitField(fields[|fields| - 1], "Z", true)]
  }

  /** The ids after visiting the given method keys in order, starting empty. */
  function Register(sigs: seq<string>): map<string, nat>
  {
    if sigs == [] then map[] else var m := Register(sigs[..|sigs| - 1]); m[sigs[|sigs| - 1] := |m|]
  }

  /** The keys registered are exactly the method keys visited. */
  lemma {:induction false} RegisterKeys(sigs: seq<string>)
    ensures Register(sigs).Keys == set s | s in sigs
    decreases |sigs|
  {
    if sigs != [] {
      var pre, last := sigs[..|sigs| - 1], sigs[|sigs| - 1];
      RegisterKeys(pre);
      assert sigs == pre + [last];
      assert (set s | s in sigs) == (set s | s in pre) + {last};
    }
  }

  /**
   * With distinct keys (the JVM forbids two methods with the same name and
   * descriptor) the ids are 0, 1, 2, … in visiting order, and so are the
   * flag fields, which are therefore distinct.
   */
  lemma {:induction false} DenseIds(sigs: seq<string>)
    requires forall i, j :: 0 <= i < j < |sigs| ==> sigs[i] != sigs[j]
    ensures |Register(sigs)| == |sigs|
    ensures Register(sigs).Keys == set s | s in sigs
    ensures forall i :: 0 <= i < |sigs| ==> Register(sigs)[sigs[i]] == i
    decreases |sigs|
  {
    RegisterKeys(sigs);
    if sigs != [] {
      var n := |sigs|;
      var pre, last := sigs[..n - 1], sigs[n - 1];
      DenseIds(pre);
      var m := Register(pre);
      forall i | 0 <= i < n - 1
        ensures pre[i] == sigs[i] && pre[i] != last
      {
        assert sigs[i] != sigs[n - 1];
      }
      assert last !in m;
      assert Register(sigs) == m[last := |m|];
    }
  }

  lemma DistinctFlagFields(a: nat, b: nat)
    requires a != b
    ensures MockFieldName(a) != MockFieldName(b)
  {
    if MockFieldName(a) == MockFieldName(b) {
      MockFieldNameInjective(a, b);
    }
  }

  /** What a call of a method with an installed prologue does. */
  datatype PrologueOutcome = RunOriginal | ReturnVoid | ReturnValue(value: Value) | Throw(exception: Exception)

  /**
   * A clear flag runs the original body; a set flag returns at once from a
   * `void` method, and otherwise returns what `getMock` gives for the
   * receiver (`null` for a static method) and the method's key.
   */
  function RunPrologue(p: Prologue, flag: bool, receiver: Value, getMock: (Value, string) -> Result<Value, Exception>)
    : (r: PrologueOutcome)
    ensures !flag <==> r == RunOriginal
    ensures flag && p.isVoid ==> r == ReturnVoid
    ensures flag && !p.isVoid ==>
      var m := getMock(if p.isStatic then Null else receiver, p.signature);
      r == if m.Success? then ReturnValue(m.value) else Throw(m.error)
  {
    if !flag then RunOriginal
    else if p.isVoid then ReturnVoid
    else
      match getMock(if p.isStatic then Null else receiver, p.signature)
      case Success(v) => ReturnValue(v)
      case Failure(e) => Throw(e)
  }
}
