/**
 * `DynamicClassTransformer`: the agent's single class-file transformer. It
 * hands a class to the current instrumentation only when the class comes
 * from one of the user's class paths, or its name mentions slf4j.
 */
module DynamicTransform {
  import opened Protocol

  /** No two adjacent separators. */
  predicate NoDoubleSlash(s: string) {
    forall i :: 0 <= i < |s| - 1 ==> !(s[i] == '/' && s[i + 1] == '/')
  }

  /** The form `java.io.File` keeps a path in on Unix: no repeated separator, no trailing one except the root itself. */
  predicate IsNormal(s: string) {
    NoDoubleSlash(s) && (|s| > 1 ==> s[|s| - 1] != '/')
  }

  /** The characters of `s` other than the separator, in order. */
  function NonSlash(s: string): string {
    if s == [] then [] else (if s[0] == '/' then [] else [s[0]]) + NonSlash(s[1..])
  }

  /** Each run of separators shrinks to one. */
  function CollapseSlashes(s: string): (r: string)
    ensures NoDoubleSlash(r)
    ensures |r| <= |s|
    ensures |s| > 0 ==> |r| > 0 && r[0] == s[0] && r[|r| - 1] == s[|s| - 1]
    ensures NonSlash(r) == NonSlash(s)
  {
    if |s| < 2 then s
    else if s[0] == '/' && s[1] == '/' then CollapseSlashes(s[1..])
    else
      var rest := CollapseSlashes(s[1..]);
      assert ([s[0]] + rest)[1..] == rest;
      [s[0]] + rest
  }

  /** `File(path).path` on Unix. */
  function Normalize(s: string): (r: string)
    ensures IsNormal(r)
    ensures NonSlash(r) == NonSlash(s)
    ensures |s| > 0 ==> |r| > 0 && r[0] == s[0]
  {
    var c := CollapseSlashes(s);
    if |c| > 1 && c[|c| - 1] == '/' then
      NonSlashDropLastSlash(c);
      c[..|c| - 1]
    else c
  }

  lemma {:induction false} NonSlashDropLastSlash(s: string)
    requires |s| > 0 && s[|s| - 1] == '/'
    ensures NonSlash(s[..|s| - 1]) == NonSlash(s)
  {
    if |s| > 1 {
      assert s[1..][..|s[1..]| - 1] == s[..|s| - 1][1..];
      NonSlashDropLastSlash(s[1..]);
    }
  }

  /** Collapsing leaves a path without repeated separators as it is. */
  lemma {:induction false} CollapseIdentity(s: string)
    requires NoDoubleSlash(s)
    ensures CollapseSlashes(s) == s
  {
    if |s| >= 2 {
      assert NoDoubleSlash(s[1..]) by {
        forall i | 0 <= i < |s[1..]| - 1 ensures !(s[1..][i] == '/' && s[1..][i + 1] == '/') {
          assert s[1..][i] == s[i + 1] && s[1..][i + 1] == s[i + 2];
        }
      }
      CollapseIdentity(s[1..]);
    }
  }

  /**
   * A doubled separator collapses like a single one. With `CollapseIdentity`
   * this fixes the function: removing doubled separators one at a time
   * reaches a string without any, which collapsing leaves as it is.
   */
  lemma {:induction false} CollapseDouble(a: string, b: string)
    ensures CollapseSlashes(a + ['/', '/'] + b) == CollapseSlashes(a + ['/'] + b)
    decreases |a|
  {
    var s, t := a + ['/', '/'] + b, a + ['/'] + b;
    if a == [] {
      assert s[1..] == t;
    } else {
      assert s[1..] == a[1..] + ['/', '/'] + b;
      assert t[1..] == a[1..] + ['/'] + b;
      assert s[0] == t[0] && s[1] == t[1];
      CollapseDouble(a[1..], b);
    }
  }

  /** Spelling a separator twice names the same path: `File("a//b").path == File("a/b").path`. */
  lemma NormalizeDouble(a: string, b: string)
    ensures Normalize(a + ['/', '/'] + b) == Normalize(a + ['/'] + b)
  {
    CollapseDouble(a, b);
  }

  /** A path already in normal form is its own normal form; hence normalising twice is normalising once. */
  lemma NormalizeFixed(s: string)
    requires IsNormal(s)
    ensures Normalize(s) == s
  {
    CollapseIdentity(s);
  }

  lemma NormalizeIdempotent(s: string)
    ensures Normalize(Normalize(s)) == Normalize(s)
  {
    NormalizeFixed(Normalize(s));
  }

  /** `t` occurs in `s` starting at index `i`. */
  predicate OccursAt(s: string, t: string, i: int) {
    0 <= i <= |s| - |t| && s[i..i + |t|] == t
  }

  /** Kotlin's `String.contains`: `t` occurs in `s` at some position. */
  function Contains(s: string, t: string): (r: bool)
    ensures r <==> exists i :: OccursAt(s, t, i)
    decreases |s|
  {
    if |s| < |t| then false
    else if s[..|t|] == t then
      assert OccursAt(s, t, 0);
      true
    else
      var r := Contains(s[1..], t);
      OccursShift(s, t);
      r
  }

  lemma OccursShift(s: string, t: string)
    requires |s| > 0 && !OccursAt(s, t, 0)
    ensures (exists i :: OccursAt(s, t, i)) <==> exists i :: OccursAt(s[1..], t, i)
  {
    forall i | OccursAt(s, t, i) ensures OccursAt(s[1..], t, i - 1) {
      assert s[1..][i - 1..i - 1 + |t|] == s[i..i + |t|];
    }
    forall i | OccursAt(s[1..], t, i) ensures OccursAt(s, t, i + 1) {
      assert s[1..][i..i + |t|] == s[i + 1..i + 1 + |t|];
    }
  }

  class DynamicClassTransformer {
    /** `lateinit var transformer`: `None` until the worker installs its instrumentation. */
    var transformer: Option<InstrumentationId>
    var pathsToUserClasses: set<string>

    constructor ()
      ensures transformer == None && pathsToUserClasses == {}
    {
      transformer := None;
      pathsToUserClasses := {};
    }

    method SetTransformer(instrumentation: InstrumentationId)
      modifies this
      ensures transformer == Some(instrumentation) && pathsToUserClasses == old(pathsToUserClasses)
    {
      transformer := Some(instrumentation);
    }

    /** Adds the normal form of every path. */
    method AddPaths(paths: seq<string>)
      modifies this
      ensures pathsToUserClasses == old(pathsToUserClasses) + set p | p in paths :: Normalize(p)
      ensures transformer == old(transformer)
      ensures forall q :: q in pathsToUserClasses ==> q in old(pathsToUserClasses) || IsNormal(q)
    {
      pathsToUserClasses := pathsToUserClasses + set p | p in paths :: Normalize(p);
    }

    /** Whether a class loaded from `path` goes to the instrumentation. */
    predicate Selected(className: string, path: string)
      reads this
    {
      Normalize(path) in pathsToUserClasses || Contains(className, "slf4j")
    }

    /**
     * A class without a code source fails on the path lookup; a selected
     * class goes to the installed instrumentation (`delegate` gives what its
     * transform returns), failing if none is installed yet; any other class
     * is left alone (`None`).
     */
    function Transform(className: string, codeSourcePath: Option<string>, classfileBuffer: seq<bv8>,
                       delegate: (InstrumentationId, string, seq<bv8>) -> Option<seq<bv8>>)
      : (r: Result<Option<seq<bv8>>, Exception>)
      reads this
      ensures codeSourcePath.None? ==> r == Failure(NullPointerException)
      ensures codeSourcePath.Some? && !Selected(className, codeSourcePath.value) ==> r == Success(None)
      ensures codeSourcePath.Some? && Selected(className, codeSourcePath.value) ==>
        r == (if transformer.None? then Failure(UninitializedPropertyAccessException)
              else Success(delegate(transformer.value, className, classfileBuffer)))
    {
      match codeSourcePath
      case None => Failure(NullPointerException)
      case Some(path) =>
        var pathToClassfile := Normalize(path);
        if pathToClassfile in pathsToUserClasses || Contains(className, "slf4j") then
          match transformer
          case None => Failure(UninitializedPropertyAccessException)
          case Some(t) => Success(delegate(t, className, classfileBuffer))
        else Success(None)
    }
  }

  /** A code source given in normal form, or in any other spelling of it, selects the same classes. */
  lemma SelectionUpToSpelling(t: DynamicClassTransformer, className: string, p: string, q: string)
    requires Normalize(p) == Normalize(q)
    ensures t.Selected(className, Normalize(p)) == t.Selected(className, q)
  {
    NormalizeIdempotent(p);
  }
}
