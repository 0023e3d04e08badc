/**
 * `ProcessingStorage`: the interning tables that give classes and
 * (class, method) pairs dense ids, the packing of a class id and a local
 * instruction index into one 64-bit instruction id, and the table of
 * instruction descriptions keyed by that id.
 */
module Processing {
  import opened Protocol
  import opened TraceData

  datatype ClassToMethod = ClassToMethod(className: string, methodName: string)

  /** 2^32, the multiplier of the class id in a packed instruction id. */
  const Shift: int := 0x1_0000_0000

  /** Kotlin `Long` division: the quotient is truncated toward zero. */
  function TruncDiv(a: int, b: int): (q: int)
    requires b > 0
    ensures a >= 0 ==> q == a / b
    ensures a < 0 ==> q == -((-a) / b)
  {
    if a >= 0 then a / b else -((-a) / b)
  }

  /** Kotlin `Long` remainder: it takes the sign of the dividend. */
  function TruncRem(a: int, b: int): (r: int)
    requires b > 0
    ensures a == TruncDiv(a, b) * b + r
    ensures a >= 0 ==> 0 <= r < b
    ensures a < 0 ==> -b < r <= 0
  {
    if a >= 0 then a % b else -((-a) % b)
  }

  /** `classId.toLong() * SHIFT + localId`: never overflows a `Long` for a class id that is an `Int` size. */
  function PackId(classId: int, localId: Int32): (id: Int64)
    requires 0 <= classId < 0x8000_0000
  {
    classId * Shift + localId
  }

  /** The arithmetic of `computeClassNameAndLocalId`: `((id / SHIFT).toInt(), (id % SHIFT).toInt())`. */
  function UnpackId(id: Int64): (Int32, Int32) {
    (ToInt(TruncDiv(id, Shift)), ToInt(TruncRem(id, Shift)))
  }

  /**
   * Unpacking inverts packing exactly when the local index is non-negative
   * or the class id is 0; a negative local index with a positive class id
   * comes back with class id one less. The local index itself always
   * comes back.
   */
  lemma PackUnpack(classId: int, localId: Int32)
    requires 0 <= classId < 0x8000_0000
    ensures UnpackId(PackId(classId, localId)).1 == localId
    ensures UnpackId(PackId(classId, localId)) == (classId, localId) <==> localId >= 0 || classId == 0
    ensures localId < 0 && classId > 0 ==> UnpackId(PackId(classId, localId)).0 == classId - 1
  {
    var id := PackId(classId, localId);
    if localId >= 0 {
      assert id / Shift == classId && id % Shift == localId;
    } else if classId == 0 {
      var l: int := localId;
      assert id == l;
      assert (-l) / Shift == 0 && (-l) % Shift == -l;
    } else {
      assert id == (classId - 1) * Shift + (Shift + localId);
      assert id / Shift == classId - 1 && id % Shift == Shift + localId;
    }
  }

  ghost predicate Distinct<K>(s: seq<K>) {
    forall i, j :: 0 <= i < j < |s| ==> s[i] != s[j]
  }

  /**
   * The forward and reverse maps hold exactly the keys of `seen`, in
   * first-seen order: the key at position `i` has id `i`.
   */
  ghost predicate Interned<K>(toId: map<K, int>, fromId: map<int, K>, seen: seq<K>) {
    && Distinct(seen)
    && |toId| == |seen|
    && (forall k :: k in toId ==> k in seen)
    && (forall i :: 0 <= i < |seen| ==> seen[i] in toId)
    && (forall i :: 0 <= i < |seen| ==> toId[seen[i]] == i)
    && (forall i :: i in fromId <==> 0 <= i < |seen|)
    && (forall i :: 0 <= i < |seen| ==> fromId[i] == seen[i])
  }

  /** `getOrPut(key) { size }` on the forward map, then `putIfAbsent(id, key)` on the reverse map. */
  function Intern<K(==)>(toId: map<K, int>, fromId: map<int, K>, key: K): (r: (int, map<K, int>, map<int, K>))
  {
    var id := if key in toId then toId[key] else |toId|;
    (id, toId[key := id], if id in fromId then fromId else fromId[id := key])
  }

  /**
   * Interning a key that was seen returns its id and changes nothing;
   * interning a new key gives it the next id and appends it to `seen`.
   */
  lemma InternStep<K>(toId: map<K, int>, fromId: map<int, K>, seen: seq<K>, key: K)
    requires Interned(toId, fromId, seen)
    ensures var r := Intern(toId, fromId, key);
      if key in seen then
        && 0 <= r.0 < |seen| && seen[r.0] == key
        && r.1 == toId && r.2 == fromId
      else
        && r.0 == |seen|
        && Interned(r.1, r.2, seen + [key])
  {
    var r := Intern(toId, fromId, key);
    if key in seen {
      var i :| 0 <= i < |seen| && seen[i] == key;
      assert toId[key] == i;
      assert toId[key := i] == toId;
    } else {
      var s := seen + [key];
      assert |seen| !in fromId;
      forall i | 0 <= i < |s|
        ensures r.1[s[i]] == i
      {
        if i < |seen| {
          assert s[i] == seen[i] && s[i] != key;
        }
      }
      forall k | k in r.1
        ensures k in s
      {
        if k != key {
          assert k in seen;
        }
      }
    }
  }

  /** The two maps are mutual inverses. */
  lemma InternedInverse<K>(toId: map<K, int>, fromId: map<int, K>, seen: seq<K>)
    requires Interned(toId, fromId, seen)
    ensures forall k :: k in toId ==> 0 <= toId[k] < |seen| && toId[k] in fromId && fromId[toId[k]] == k
    ensures forall i :: i in fromId ==> fromId[i] in toId && toId[fromId[i]] == i
  {
    forall k | k in toId
      ensures 0 <= toId[k] < |seen| && toId[k] in fromId && fromId[toId[k]] == k
    {
      var i :| 0 <= i < |seen| && seen[i] == k;
    }
  }

  class ProcessingStorage {
    var classToId: map<string, int>
    var idToClass: map<int, string>
    var classMethodToId: map<ClassToMethod, int>
    var idToClassMethod: map<int, ClassToMethod>
    var instructionsData: map<Int64, InstructionData>

    /** Classes and (class, method) pairs in the order they were first added. */
    ghost var classes: seq<string>
    ghost var classMethods: seq<ClassToMethod>

    ghost predicate Valid()
      reads this
    {
      && Interned(classToId, idToClass, classes)
      && Interned(classMethodToId, idToClassMethod, classMethods)
      && |classes| < 0x8000_0000
    }

    constructor ()
      ensures Valid()
      ensures classes == [] && classMethods == [] && instructionsData == map[]
    {
      classToId, idToClass := map[], map[];
      classMethodToId, idToClassMethod := map[], map[];
      instructionsData := map[];
      classes, classMethods := [], [];
    }

    /**
     * Returns the class's id: the one it already has, or the next dense id
     * when it is new. An `Int` id cannot exceed `Int.MAX_VALUE`, so at most
     * 2^31 classes can be registered.
     */
    method AddClass(className: string) returns (id: int)
      requires Valid()
      requires className in classes || |classes| + 1 < 0x8000_0000
      modifies this
      ensures Valid()
      ensures classes == if className in old(classes) then old(classes) else old(classes) + [className]
      ensures 0 <= id < |classes| && classes[id] == className
      ensures className in old(classes) ==> classToId == old(classToId) && idToClass == old(idToClass)
      ensures classMethodToId == old(classMethodToId) && idToClassMethod == old(idToClassMethod)
      ensures classMethods == old(classMethods) && instructionsData == old(instructionsData)
    {
      InternStep(classToId, idToClass, classes, className);
      var r := Intern(classToId, idToClass, className);
      id, classToId, idToClass := r.0, r.1, r.2;
      if className !in classes {
        classes := classes + [className];
      }
    }

    /** Same as `AddClass`, for a (class, method) pair. */
    method AddClassMethod(className: string, methodName: string) returns (id: int)
      requires Valid()
      modifies this
      ensures Valid()
      ensures var key := ClassToMethod(className, methodName);
        && classMethods == (if key in old(classMethods) then old(classMethods) else old(classMethods) + [key])
        && 0 <= id < |classMethods| && classMethods[id] == key
        && (key in old(classMethods) ==>
              classMethodToId == old(classMethodToId) && idToClassMethod == old(idToClassMethod))
      ensures classToId == old(classToId) && idToClass == old(idToClass)
      ensures classes == old(classes) && instructionsData == old(instructionsData)
    {
      var key := ClassToMethod(className, methodName);
      InternStep(classMethodToId, idToClassMethod, classMethods, key);
      var r := Intern(classMethodToId, idToClassMethod, key);
      id, classMethodToId, idToClassMethod := r.0, r.1, r.2;
      if key !in classMethods {
        classMethods := classMethods + [key];
      }
    }

    /**
     * `classToId[className]!!.toLong() * SHIFT + localId`. An unregistered
     * class fails; for a non-negative local index the id decodes back to
     * the class and the index.
     */
    function ComputeId(className: string, localId: Int32): (r: Result<Int64, Exception>)
      requires Valid()
      reads this
      ensures r.Failure? <==> className !in classToId
      ensures r.Failure? ==> r.error == NullPointerException
      ensures r.Success? && localId >= 0 ==> ComputeClassNameAndLocalId(r.value) == Success((className, localId))
    {
      if className !in classToId then Failure(NullPointerException)
      else
        var classId := classToId[className];
        InternedInverse(classToId, idToClass, classes);
        PackUnpack(classId, localId);
        Success(PackId(classId, localId))
    }

    /** `idToClass.getValue((id / SHIFT).toInt())` and `(id % SHIFT).toInt()`; an unknown class id fails. */
    function ComputeClassNameAndLocalId(id: Int64): (r: Result<(string, Int32), Exception>)
      reads this
      ensures r.Failure? <==> UnpackId(id).0 !in idToClass
      ensures r.Failure? ==> r.error == NoSuchElementException
      ensures r.Success? ==> r.value == (idToClass[UnpackId(id).0], UnpackId(id).1)
    {
      var (classId, localId) := UnpackId(id);
      if classId in idToClass then Success((idToClass[classId], localId)) else Failure(NoSuchElementException)
    }

    /** `putIfAbsent`: the first description stored for an id is kept. */
    method AddInstruction(id: Int64, instructionData: InstructionData)
      modifies this
      ensures instructionsData == if id in old(instructionsData) then old(instructionsData)
                                  else old(instructionsData)[id := instructionData]
      ensures classToId == old(classToId) && idToClass == old(idToClass)
      ensures classMethodToId == old(classMethodToId) && idToClassMethod == old(idToClassMethod)
      ensures classes == old(classes) && classMethods == old(classMethods)
    {
      if id !in instructionsData {
        instructionsData := instructionsData[id := instructionData];
      }
    }

    /** `getValue`: an unknown id fails. */
    function GetInstruction(id: Int64): (r: Result<InstructionData, Exception>)
      reads this
      ensures r.Success? <==> id in instructionsData
      ensures r.Success? ==> r.value == instructionsData[id]
      ensures r.Failure? ==> r.error == NoSuchElementException
    {
      if id in instructionsData then Success(instructionsData[id]) else Failure(NoSuchElementException)
    }
  }
}
