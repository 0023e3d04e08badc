/**
 * `InvokeInstrumentation`: finds a method or constructor by signature,
 * splits the receiver off the arguments, calls it and wraps the outcome.
 * Reflection is replaced by a description of the class and a function that
 * gives the outcome of calling an executable with a receiver and arguments.
 */
module InvokeInstrumenting {
  import opened Protocol

  /** A method or constructor as reflection describes it. */
  datatype Executable = Executable(signature: string, isStatic: bool, isConstructor: bool, returnsVoid: bool)

  /** `clazz.methods`, `clazz.declaredMethods` and `clazz.declaredConstructors`, in reflection order. */
  datatype ClassInfo = ClassInfo(methods: seq<Executable>, declaredMethods: seq<Executable>, declaredConstructors: seq<Executable>)

  /** How a reflective call ends: a value, an exception thrown by the target, or an exception of the call itself. */
  datatype CallOutcome = Returned(value: Value) | TargetThrew(thrown: Value) | CallFailed(exception: Exception)

  /** The first executable in `es` with the signature. */
  function FirstWithSignature(es: seq<Executable>, signature: string): (r: Option<Executable>)
    ensures r.None? <==> forall i :: 0 <= i < |es| ==> es[i].signature != signature
    ensures r.Some? ==> r.value.signature == signature
    ensures r.Some? ==> exists i :: 0 <= i < |es| && es[i] == r.value && (forall j :: 0 <= j < i ==> es[j].signature != signature)
  {
    if es == [] then None
    else if es[0].signature == signature then Some(es[0])
    else
      var rest := FirstWithSignature(es[1..], signature);
      assert forall i :: 0 < i < |es| ==> es[i] == es[1..][i - 1];
      rest
  }

  /**
   * The first method (public, then declared) with the signature, or else
   * the first constructor with it; no match fails with
   * `NoSuchMethodException("Signature: …")`. Dropping repeated methods, as
   * the source's `toSet()` does, keeps the first of each, so the first match
   * is the same.
   */
  function Resolve(clazz: ClassInfo, signature: string): (r: Result<Executable, Exception>)
    ensures r.Failure? <==> forall e | e in clazz.methods + clazz.declaredMethods + clazz.declaredConstructors :: e.signature != signature
    ensures r.Failure? ==> r.error == NoSuchMethodException("Signature: " + signature)
    ensures r.Success? ==> r.value.signature == signature
    ensures r.Success? ==> r.value in clazz.methods + clazz.declaredMethods + clazz.declaredConstructors
    ensures (exists e | e in clazz.methods + clazz.declaredMethods :: e.signature == signature) ==>
      r.Success? && r.value in clazz.methods + clazz.declaredMethods
    ensures r.Success? && r.value !in clazz.methods + clazz.declaredMethods ==>
      forall e | e in clazz.methods + clazz.declaredMethods :: e.signature != signature
    ensures var ms := clazz.methods + clazz.declaredMethods;
      (exists i :: 0 <= i < |ms| && ms[i].signature == signature) ==>
        exists i :: 0 <= i < |ms| && r == Success(ms[i]) && forall j :: 0 <= j < i ==> ms[j].signature != signature
    ensures var ms, cs := clazz.methods + clazz.declaredMethods, clazz.declaredConstructors;
      (forall e | e in ms :: e.signature != signature) && (exists i :: 0 <= i < |cs| && cs[i].signature == signature) ==>
        exists i :: 0 <= i < |cs| && r == Success(cs[i]) && forall j :: 0 <= j < i ==> cs[j].signature != signature
  {
    var ms := clazz.methods + clazz.declaredMethods;
    match FirstWithSignature(ms, signature)
    case Some(m) => Success(m)
    case None =>
      match FirstWithSignature(clazz.declaredConstructors, signature)
      case Some(c) => Success(c)
      case None => Failure(NoSuchMethodException("Signature: " + signature))
  }

  /**
   * Static methods and constructors take no receiver; an instance method
   * takes the first argument, which must be present and not `null`.
   */
  function SplitReceiver(e: Executable, arguments: seq<Value>): (r: Result<(Value, seq<Value>), Exception>)
    ensures r.Failure? <==> !e.isStatic && !e.isConstructor && (arguments == [] || arguments[0] == Null)
    ensures r.Failure? ==> r.error == IllegalArgumentException("Wrong number of arguments.")
    ensures r.Success? && (e.isStatic || e.isConstructor) ==> r.value == (Null, arguments)
    ensures r.Success? && !e.isStatic && !e.isConstructor ==>
      r.value.0 != Null && [r.value.0] + r.value.1 == arguments
  {
    if e.isStatic || e.isConstructor then Success((Null, arguments))
    else if arguments == [] || arguments[0] == Null then Failure(IllegalArgumentException("Wrong number of arguments."))
    else Success((arguments[0], arguments[1..]))
  }

  /**
   * The outcome of one invocation: resolution and receiver errors, and
   * exceptions of the reflective call itself, are thrown (the outer
   * `Failure`); an exception thrown by the target is returned wrapped
   * (inner `Failure`); a `void` method's result is `Unit`.
   */
  function Invoke(clazz: ClassInfo, signature: string, arguments: seq<Value>,
                  call: (Executable, Value, seq<Value>) -> CallOutcome): (r: Result<Result<Value, Value>, Exception>)
    ensures Resolve(clazz, signature).Failure? ==> r == Failure(Resolve(clazz, signature).error)
    ensures Resolve(clazz, signature).Success? ==>
      var e := Resolve(clazz, signature).value;
      var split := SplitReceiver(e, arguments);
      && (split.Failure? ==> r == Failure(split.error))
      && (split.Success? ==>
            match call(e, split.value.0, split.value.1)
            case Returned(v) => r == Success(Success(if !e.isConstructor && e.returnsVoid then Unit else v))
            case TargetThrew(t) => r == Success(Failure(t))
            case CallFailed(x) => r == Failure(x))
  {
    match Resolve(clazz, signature)
    case Failure(err) => Failure(err)
    case Success(e) =>
      match SplitReceiver(e, arguments)
      case Failure(err) => Failure(err)
      case Success((thisObject, realArgs)) =>
        match call(e, thisObject, realArgs)
        case Returned(v) => Success(Success(if !e.isConstructor && e.returnsVoid then Unit else v))
        case TargetThrew(t) => Success(Failure(t))
        case CallFailed(x) => Failure(x)
  }

  /** An instance method is called with the first argument as receiver and the others, in order, as arguments. */
  lemma InstanceCallArguments(clazz: ClassInfo, signature: string, arguments: seq<Value>,
                              call: (Executable, Value, seq<Value>) -> CallOutcome)
    requires Resolve(clazz, signature).Success?
    requires var e := Resolve(clazz, signature).value; !e.isStatic && !e.isConstructor
    requires Invoke(clazz, signature, arguments, call).Success?
    ensures |arguments| > 0 && arguments[0] != Null
    ensures var e := Resolve(clazz, signature).value;
      Invoke(clazz, signature, arguments, call) ==
        match call(e, arguments[0], arguments[1..])
        case Returned(v) => Success(Success(if e.returnsVoid then Unit else v))
        case TargetThrew(t) => Success(Failure(t))
        case CallFailed(x) => Failure(x)
  {
  }

  /** This instrumentation never changes bytecode. */
  function Transform(className: string, classfileBuffer: seq<bv8>): (r: Option<seq<bv8>>)
    ensures r.None?
  {
    None
  }
}
