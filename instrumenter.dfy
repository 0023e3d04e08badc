/**
 * `Instrumenter`: holds a class's bytecode and replaces it with the output
 * of each visiting pass; plus the two pure rules around it — the probe
 * ranges of `computeMapOfRanges` and the source-file choice of
 * `computeSourceFileByClass`.
 *
 * A pass (reader, visitor, writer) is a function on bytes given by the
 * caller; the visitor's own findings (the probes of each method, the
 * `SourceFile` attribute) are given as values.
 */
module Instrumenting {
  import opened Protocol

  class Instrumenter {
    var classByteCode: array<bv8>

    /** `classByteCode.clone()`: a fresh copy, so later writes to `bytes` are not seen. */
    constructor (bytes: array<bv8>)
      ensures fresh(classByteCode)
      ensures classByteCode[..] == bytes[..]
    {
      classByteCode := new bv8[bytes.Length](i requires 0 <= i < bytes.Length reads bytes => bytes[i]);
    }

    /** One pass over the class: the writer's output becomes the new bytecode. */
    method VisitClass(pass: seq<bv8> -> seq<bv8>)
      modifies this
      ensures fresh(classByteCode)
      ensures classByteCode[..] == pass(old(classByteCode[..]))
    {
      var output := pass(classByteCode[..]);
      classByteCode := new bv8[|output|](i requires 0 <= i < |output| => output[i]);
    }

    /**
     * Runs the probe-inserting pass (the bytecode is replaced by its output),
     * then maps each method to the range of its probes.
     */
    method ComputeMapOfRanges(pass: seq<bv8> -> seq<bv8>, methodToProbes: map<string, seq<int>>)
      returns (r: Result<map<string, Range>, Exception>)
      modifies this
      ensures fresh(classByteCode)
      ensures classByteCode[..] == pass(old(classByteCode[..]))
      ensures r == MapOfRanges(methodToProbes)
    {
      VisitClass(pass);
      r := MapOfRanges(methodToProbes);
    }
  }

  /** Kotlin's `first..last`, an inclusive range. */
  datatype Range = Range(first: int, last: int)

  /**
   * `mapValues { probes.first()..probes.last() }`: one range per method; a
   * method without probes makes `first()` throw.
   */
  function MapOfRanges(methodToProbes: map<string, seq<int>>): (r: Result<map<string, Range>, Exception>)
    ensures r.Success? <==> forall m :: m in methodToProbes ==> |methodToProbes[m]| > 0
    ensures r.Failure? ==> r.error == NoSuchElementException
    ensures r.Success? ==> r.value.Keys == methodToProbes.Keys
    ensures r.Success? ==> forall m :: m in methodToProbes ==>
      var p := methodToProbes[m];
      r.value[m].first == p[0] && r.value[m].last == p[|p| - 1]
  {
    if exists m :: m in methodToProbes && |methodToProbes[m]| == 0 then Failure(NoSuchElementException)
    else Success(map m | m in methodToProbes :: Range(methodToProbes[m][0], methodToProbes[m][|methodToProbes[m]| - 1]))
  }

  ghost predicate Ascending(s: seq<int>) {
    forall i, j :: 0 <= i < j < |s| ==> s[i] <= s[j]
  }

  /** When each method's probes are numbered in ascending order, its range covers every one of them. */
  lemma RangesCoverProbes(methodToProbes: map<string, seq<int>>)
    requires forall m :: m in methodToProbes ==> |methodToProbes[m]| > 0 && Ascending(methodToProbes[m])
    ensures MapOfRanges(methodToProbes).Success?
    ensures forall m, i :: m in methodToProbes && 0 <= i < |methodToProbes[m]| ==>
      var rg := MapOfRanges(methodToProbes).value[m];
      rg.first <= methodToProbes[m][i] <= rg.last
  {
  }

  /** A file found by the directory walk: its path components and whether it is a regular file. */
  datatype WalkEntry = WalkEntry(path: seq<string>, isFile: bool)

  /** `Path.endsWith(Path)`: component-wise suffix. */
  predicate EndsWith(path: seq<string>, suffix: seq<string>) {
    |suffix| <= |path| && path[|path| - |suffix|..] == suffix
  }

  /** A regular file whose path ends with the source-file name. */
  predicate IsCandidate(e: WalkEntry, sourceFileName: string) {
    e.isFile && EndsWith(e.path, [sourceFileName])
  }

  /** A candidate that can be returned at once: there is no package, or its path ends with `package/sourceFileName`. */
  predicate IsPreferred(e: WalkEntry, sourceFileName: string, packageName: Option<seq<string>>) {
    IsCandidate(e, sourceFileName) && (packageName.None? || EndsWith(e.path, packageName.value + [sourceFileName]))
  }

  /**
   * The source file of a class. Without a `SourceFile` attribute there is
   * none. Otherwise the first preferred candidate in walk order wins; when
   * no candidate is preferred, the last candidate is returned, and none when
   * there is no candidate at all.
   */
  method ComputeSourceFileByClass(sourceFileName: Option<string>, packageName: Option<seq<string>>, files: seq<WalkEntry>)
    returns (r: Option<seq<string>>)
    ensures sourceFileName.None? ==> r.None?
    ensures sourceFileName.Some? && (exists i :: 0 <= i < |files| && IsPreferred(files[i], sourceFileName.value, packageName)) ==>
      exists i :: 0 <= i < |files| && IsPreferred(files[i], sourceFileName.value, packageName) && r == Some(files[i].path)
        && (forall j :: 0 <= j < i ==> !IsPreferred(files[j], sourceFileName.value, packageName))
    ensures sourceFileName.Some? && (forall i :: 0 <= i < |files| ==> !IsPreferred(files[i], sourceFileName.value, packageName)) ==>
      && (r.None? <==> forall i :: 0 <= i < |files| ==> !IsCandidate(files[i], sourceFileName.value))
      && (r.Some? ==>
            exists i :: 0 <= i < |files| && IsCandidate(files[i], sourceFileName.value) && r == Some(files[i].path)
              && (forall j :: i < j < |files| ==> !IsCandidate(files[j], sourceFileName.value)))
  {
    if sourceFileName.None? {
      return None;
    }
    var name := sourceFileName.value;
    var fileWithoutPackage: Option<seq<string>> := None;
    ghost var last := -1;
    for i := 0 to |files|
      invariant forall j :: 0 <= j < i ==> !IsPreferred(files[j], name, packageName)
      invariant -1 <= last < i
      invariant last == -1 <==> forall j :: 0 <= j < i ==> !IsCandidate(files[j], name)
      invariant last == -1 ==> fileWithoutPackage == None
      invariant last >= 0 ==> IsCandidate(files[last], name) && fileWithoutPackage == Some(files[last].path)
      invariant forall j :: last < j < i ==> !IsCandidate(files[j], name)
    {
      var f := files[i];
      if !IsCandidate(f, name) {
        continue;
      }
      if packageName.None? || EndsWith(f.path, packageName.value + [name]) {
        return Some(f.path);
      }
      fileWithoutPackage := Some(f.path);
      last := i;
    }
    return fileWithoutPackage;
  }
}
