/**
 * Reconstruction of a call tree from the flat list of executed instruction
 * occurrences (the loop of `TraceHandler.computeTrace`).
 *
 * The reference definitions come first: `OpenStack` is the stack of call ids
 * still open after a prefix of the list, `ImplicitExit` says which occurrence
 * is reclassified as an implicit throw, and `Expected` is the list with those
 * reclassifications applied. `BuildTrace` is then proved to put every entry of
 * `Expected` into the tree exactly once, in order.
 */
module TraceBuilder {
  import opened Protocol
  import opened TraceData

  ghost predicate Distinct(s: seq<int>) {
    forall i, j :: 0 <= i < j < |s| ==> s[i] != s[j]
  }

  /** Call ids of a stack of frames, bottom first. */
  function Ids(stack: seq<TraceNode>): (r: seq<int>)
    ensures |r| == |stack|
    ensures forall i :: 0 <= i < |stack| ==> r[i] == stack[i].callId
  {
    seq(|stack|, i requires 0 <= i < |stack| => stack[i].callId)
  }

  /** Drops ids from the top of `s` until `c` is on top. */
  function PopTo(s: seq<int>, c: int): (r: seq<int>)
    requires c in s
    ensures 0 < |r| <= |s| && r == s[..|r|] && r[|r| - 1] == c
    ensures c !in s[|r|..]
    decreases |s|
  {
    if s[|s| - 1] == c then s else PopTo(s[..|s| - 1], c)
  }

  /**
   * The call ids of the open frames after the first `k` entries of `list`:
   * the first entry opens the root; an id already open returns control to
   * its frame; any other id opens a child of the current top.
   */
  function OpenStack(list: seq<Instruction>, k: nat): seq<int>
    requires k <= |list|
  {
    if k == 0 then []
    else
      var s := OpenStack(list, k - 1);
      var c := list[k - 1].callId;
      if s == [] then [c]
      else if c in s then PopTo(s, c)
      else s + [c]
  }

  /**
   * The stack of open call ids is never empty once an entry was read, has the
   * first entry's id at the bottom and the last entry's id on top, and holds
   * no id twice.
   */
  lemma {:induction false} OpenStackShape(list: seq<Instruction>, k: nat)
    requires 0 < k <= |list|
    ensures var s := OpenStack(list, k);
      && |s| > 0
      && s[0] == list[0].callId
      && s[|s| - 1] == list[k - 1].callId
      && Distinct(s)
  {
    if k > 1 {
      OpenStackShape(list, k - 1);
      var s := OpenStack(list, k - 1);
      var c := list[k - 1].callId;
      if c in s {
        var r := PopTo(s, c);
        assert r == s[..|r|];
        assert r[0] == s[0];
      } else {
        assert (s + [c])[0] == s[0];
      }
    }
  }

  /**
   * Entry `j` is reclassified as an implicit throw: it is neither a return nor
   * an explicit throw, and it is the last entry, or the next entry hands
   * control back to a different frame that is still open.
   */
  predicate ImplicitExit(list: seq<Instruction>, j: nat)
    requires j < |list|
  {
    var d := list[j].instructionData;
    && !d.ReturnInstruction?
    && !d.ExplicitThrowInstruction?
    && (j + 1 == |list|
        || (list[j + 1].callId != list[j].callId && list[j + 1].callId in OpenStack(list, j + 1)))
  }

  /** The reclassification done when control returns to an ancestor frame. */
  function ImplicitThrowOnReturn(i: Instruction): Instruction {
    i.(instructionData := ImplicitThrowInstruction(i.line, i.methodSignature))
  }

  /** The reclassification done after the last entry. */
  function ImplicitThrowAtEnd(i: Instruction): Instruction {
    i.(instructionData := ImplicitThrowInstruction(i.instructionData.line, i.instructionData.methodSignature))
  }

  function Final(list: seq<Instruction>, j: nat): Instruction
    requires j < |list|
  {
    if !ImplicitExit(list, j) then list[j]
    else if j + 1 < |list| then ImplicitThrowOnReturn(list[j])
    else ImplicitThrowAtEnd(list[j])
  }

  /**
   * The instruction list as it appears in the tree: only the entries that
   * `ImplicitExit` selects change, and only in their kind; the last entry
   * always ends in a return or a throw.
   */
  function Expected(list: seq<Instruction>): (r: seq<Instruction>)
    ensures |r| == |list|
    ensures forall j :: 0 <= j < |list| ==>
      && r[j].className == list[j].className
      && r[j].methodSignature == list[j].methodSignature
      && r[j].callId == list[j].callId
      && r[j].id == list[j].id
      && r[j].line == list[j].line
    ensures forall j :: 0 <= j < |list| && r[j].instructionData != list[j].instructionData ==> ImplicitExit(list, j)
    ensures forall j :: 0 <= j < |list| && ImplicitExit(list, j) ==>
      && r[j].instructionData.ImplicitThrowInstruction?
      && (j + 1 < |list| ==>
            && r[j].instructionData.line == list[j].line
            && r[j].instructionData.methodSignature == list[j].methodSignature)
      && (j + 1 == |list| ==>
            && r[j].instructionData.line == list[j].instructionData.line
            && r[j].instructionData.methodSignature == list[j].instructionData.methodSignature)
    ensures |list| > 0 ==>
      var d := r[|list| - 1].instructionData;
      d.ReturnInstruction? || d.ExplicitThrowInstruction? || d.ImplicitThrowInstruction?
  {
    seq(|list|, j requires 0 <= j < |list| => Final(list, j))
  }

  // ---- the open frames, as values ----

  function Append(n: TraceNode, e: TraceElement): TraceNode {
    n.(instructions := n.instructions + [e])
  }

  /** Replaces the last leaf of a node. */
  function WithLastLeaf(n: TraceNode, i: Instruction): TraceNode
    requires |n.instructions| > 0
  {
    n.(instructions := n.instructions[..|n.instructions| - 1] + [Leaf(i)])
  }

  /** Closes the top frame: it becomes the next child of the frame below it. */
  function CloseTop(stack: seq<TraceNode>): (r: seq<TraceNode>)
    requires |stack| >= 2
    ensures |r| == |stack| - 1
    ensures r[..|r| - 1] == stack[..|stack| - 2]
  {
    stack[..|stack| - 2] + [Append(stack[|stack| - 2], Call(stack[|stack| - 1]))]
  }

  /** Replaces the top frame. */
  function WithTop(stack: seq<TraceNode>, n: TraceNode): (r: seq<TraceNode>)
    requires |stack| > 0
  {
    stack[..|stack| - 1] + [n]
  }

  /** The instruction occurrences of all open frames, in execution order. */
  function FlattenStack(stack: seq<TraceNode>): seq<Instruction>
    decreases |stack|
  {
    if stack == [] then [] else FlattenStack(stack[..|stack| - 1]) + Flatten(stack[|stack| - 1])
  }

  /**
   * For each instruction occurrence of the open frames, in execution order,
   * the call ids from the bottom frame down to the frame whose leaf it is.
   */
  function PathsStack(stack: seq<TraceNode>): seq<seq<int>>
    decreases |stack|
  {
    if stack == [] then []
    else PathsStack(stack[..|stack| - 1]) + Prefixed(Ids(stack[..|stack| - 1]), Paths(stack[|stack| - 1]))
  }

  /** The open call ids after each of the first `k` entries. */
  function OpenStacks(list: seq<Instruction>, k: nat): (r: seq<seq<int>>)
    requires k <= |list|
    ensures |r| == k
    ensures forall j :: 0 <= j < k ==> r[j] == OpenStack(list, j + 1)
  {
    seq(k, j requires 0 <= j < k => OpenStack(list, j + 1))
  }

  lemma OpenStacksStep(list: seq<Instruction>, k: nat)
    requires k < |list|
    ensures OpenStacks(list, k + 1) == OpenStacks(list, k) + [OpenStack(list, k + 1)]
  {
  }

  lemma PrefixedAppend(p: seq<int>, a: seq<seq<int>>, b: seq<seq<int>>)
    ensures Prefixed(p, a + b) == Prefixed(p, a) + Prefixed(p, b)
  {
  }

  lemma PrefixedPrefixed(p: seq<int>, q: seq<int>, ps: seq<seq<int>>)
    ensures Prefixed(p, Prefixed(q, ps)) == Prefixed(p + q, ps)
  {
    forall i | 0 <= i < |ps|
      ensures p + (q + ps[i]) == p + q + ps[i]
    {
      AppendAssoc(p, q, ps[i]);
    }
  }

  lemma PrefixedNone(ps: seq<seq<int>>)
    ensures Prefixed([], ps) == ps
  {
    forall i | 0 <= i < |ps|
      ensures [] + ps[i] == ps[i]
    {
    }
  }

  lemma PathsAppend(n: TraceNode, e: TraceElement)
    ensures Paths(Append(n, e)) == Paths(n) + PathsElement(n.callId, e)
  {
    assert (n.instructions + [e])[..|n.instructions|] == n.instructions;
  }

  lemma PathsWithLastLeaf(n: TraceNode, i: Instruction)
    requires |n.instructions| > 0 && n.instructions[|n.instructions| - 1].Leaf?
    ensures Paths(WithLastLeaf(n, i)) == Paths(n)
  {
    var es := n.instructions;
    var pre := es[..|es| - 1];
    assert es == pre + [es[|es| - 1]];
    PathsAppend(n.(instructions := pre), es[|es| - 1]);
    PathsAppend(n.(instructions := pre), Leaf(i));
  }

  lemma PathsStackPush(stack: seq<TraceNode>, n: TraceNode)
    ensures PathsStack(stack + [n]) == PathsStack(stack) + Prefixed(Ids(stack), Paths(n))
  {
    assert (stack + [n])[..|stack|] == stack;
  }

  /** Closing the top frame into its parent keeps every entry's chain of call ids. */
  lemma PathsStackCloseTop(stack: seq<TraceNode>)
    requires |stack| >= 2
    ensures PathsStack(CloseTop(stack)) == PathsStack(stack)
  {
    var m := |stack|;
    var low, b, t := stack[..m - 2], stack[m - 2], stack[m - 1];
    var x, y := Prefixed(Ids(low), Paths(b)), Prefixed(Ids(low) + [b.callId], Paths(t));
    PathsCloseTopSplit(stack);
    PathsStackSplit2(stack);
    AppendAssoc(PathsStack(low), x, y);
  }

  lemma PathsCloseTopSplit(stack: seq<TraceNode>)
    requires |stack| >= 2
    ensures var m := |stack|;
      var low, b, t := stack[..m - 2], stack[m - 2], stack[m - 1];
      PathsStack(CloseTop(stack))
        == PathsStack(low) + (Prefixed(Ids(low), Paths(b)) + Prefixed(Ids(low) + [b.callId], Paths(t)))
  {
    var m := |stack|;
    var low, b, t := stack[..m - 2], stack[m - 2], stack[m - 1];
    var p := Ids(low);
    assert CloseTop(stack) == low + [Append(b, Call(t))];
    PathsStackPush(low, Append(b, Call(t)));
    PathsAppend(b, Call(t));
    PrefixedAppend(p, Paths(b), Prefixed([b.callId], Paths(t)));
    PrefixedPrefixed(p, [b.callId], Paths(t));
  }

  lemma PathsStackSplit2(stack: seq<TraceNode>)
    requires |stack| >= 2
    ensures var m := |stack|;
      var low, b, t := stack[..m - 2], stack[m - 2], stack[m - 1];
      PathsStack(stack)
        == PathsStack(low) + Prefixed(Ids(low), Paths(b)) + Prefixed(Ids(low) + [b.callId], Paths(t))
  {
    var m := |stack|;
    var low, b, t := stack[..m - 2], stack[m - 2], stack[m - 1];
    assert stack[..m - 1] == low + [b];
    PathsStackPush(low, b);
    assert Ids(stack[..m - 1]) == Ids(low) + [b.callId];
  }

  /** Replacing the top frame's last leaf keeps every entry's chain of call ids. */
  lemma PathsStackReplaceLast(stack: seq<TraceNode>, y: Instruction)
    requires |stack| > 0
    requires var es := stack[|stack| - 1].instructions; |es| > 0 && es[|es| - 1].Leaf?
    ensures PathsStack(WithTop(stack, WithLastLeaf(stack[|stack| - 1], y))) == PathsStack(stack)
  {
    var top := stack[|stack| - 1];
    PathsWithLastLeaf(top, y);
    PathsStackPush(stack[..|stack| - 1], WithLastLeaf(top, y));
  }

  function Elems(s: seq<int>): set<int> {
    set x | x in s
  }

  lemma FlattenAppend(n: TraceNode, e: TraceElement)
    ensures Flatten(Append(n, e)) == Flatten(n) + FlattenElement(e)
  {
    assert (n.instructions + [e])[..|n.instructions|] == n.instructions;
  }

  lemma FlattenWithLastLeaf(n: TraceNode, i: Instruction)
    requires |n.instructions| > 0 && n.instructions[|n.instructions| - 1].Leaf?
    ensures |Flatten(n)| > 0
    ensures Flatten(n)[|Flatten(n)| - 1] == n.instructions[|n.instructions| - 1].instruction
    ensures Flatten(WithLastLeaf(n, i)) == Flatten(n)[..|Flatten(n)| - 1] + [i]
  {
    var es := n.instructions;
    var pre := es[..|es| - 1];
    assert es == pre + [es[|es| - 1]];
    FlattenAppend(n.(instructions := pre), es[|es| - 1]);
    FlattenAppend(n.(instructions := pre), Leaf(i));
  }

  lemma FlattenStackPush(stack: seq<TraceNode>, n: TraceNode)
    ensures FlattenStack(stack + [n]) == FlattenStack(stack) + Flatten(n)
  {
    assert (stack + [n])[..|stack|] == stack;
  }

  lemma FlattenStackWithTop(stack: seq<TraceNode>, n: TraceNode)
    requires |stack| > 0
    ensures FlattenStack(stack) == FlattenStack(stack[..|stack| - 1]) + Flatten(stack[|stack| - 1])
    ensures FlattenStack(WithTop(stack, n)) == FlattenStack(stack[..|stack| - 1]) + Flatten(n)
  {
    FlattenStackPush(stack[..|stack| - 1], n);
  }

  lemma FlattenStackCloseTop(stack: seq<TraceNode>)
    requires |stack| >= 2
    ensures FlattenStack(CloseTop(stack)) == FlattenStack(stack)
  {
    var m := |stack|;
    var a, b, c := FlattenStack(stack[..m - 2]), Flatten(stack[m - 2]), Flatten(stack[m - 1]);
    assert Flatten(Append(stack[m - 2], Call(stack[m - 1]))) == b + c by {
      FlattenAppend(stack[m - 2], Call(stack[m - 1]));
    }
    assert FlattenStack(CloseTop(stack)) == a + (b + c) by {
      FlattenCloseTopSplit(stack);
    }
    assert FlattenStack(stack) == a + b + c by {
      FlattenStackSplit2(stack);
    }
    AppendAssoc(a, b, c);
  }

  lemma FlattenCloseTopSplit(stack: seq<TraceNode>)
    requires |stack| >= 2
    ensures FlattenStack(CloseTop(stack))
         == FlattenStack(stack[..|stack| - 2]) + Flatten(Append(stack[|stack| - 2], Call(stack[|stack| - 1])))
  {
    FlattenStackPop(CloseTop(stack));
  }

  lemma FlattenStackSplit2(stack: seq<TraceNode>)
    requires |stack| >= 2
    ensures FlattenStack(stack)
         == FlattenStack(stack[..|stack| - 2]) + Flatten(stack[|stack| - 2]) + Flatten(stack[|stack| - 1])
  {
    var m := |stack|;
    FlattenStackPop(stack[..m - 1]);
    FlattenStackPop(stack);
    assert stack[..m - 1][..m - 2] == stack[..m - 2];
  }

  /** `FlattenStack` on a non-empty stack, by its top frame. */
  lemma FlattenStackPop(stack: seq<TraceNode>)
    requires |stack| > 0
    ensures FlattenStack(stack) == FlattenStack(stack[..|stack| - 1]) + Flatten(stack[|stack| - 1])
  {
  }

  lemma WellFormedAppend(n: TraceNode, d: int, e: TraceElement)
    requires WellFormed(n, d)
    requires e.Leaf? ==> e.instruction.callId == n.callId
    requires e.Call? ==> WellFormed(e.node, d + 1)
    ensures WellFormed(Append(n, e), d)
  {
    var m := Append(n, e);
    assert m.instructions[0] == n.instructions[0];
    forall x | x in m.instructions
      ensures (x.Leaf? ==> x.instruction.callId == m.callId) && (x.Call? ==> WellFormed(x.node, d + 1))
    {
      if x != e {
        assert x in n.instructions;
      }
    }
  }

  lemma WellFormedWithLastLeaf(n: TraceNode, d: int, i: Instruction)
    requires WellFormed(n, d) && n.instructions[|n.instructions| - 1].Leaf?
    requires i.callId == n.callId
    requires i.className == n.instructions[|n.instructions| - 1].instruction.className
    requires i.methodSignature == n.instructions[|n.instructions| - 1].instruction.methodSignature
    ensures WellFormed(WithLastLeaf(n, i), d)
  {
    var m := WithLastLeaf(n, i);
    var es := n.instructions;
    forall x | x in m.instructions
      ensures (x.Leaf? ==> x.instruction.callId == m.callId) && (x.Call? ==> WellFormed(x.node, d + 1))
    {
      if x != Leaf(i) {
        assert x in es[..|es| - 1];
        assert x in es;
      }
    }
    if |es| == 1 {
      assert m.instructions[0] == Leaf(i);
    } else {
      assert m.instructions[0] == es[0];
    }
  }

  lemma ElemsWithoutTop(s: seq<int>)
    requires |s| > 0 && Distinct(s)
    ensures Elems(s) - {s[|s| - 1]} == Elems(s[..|s| - 1])
  {
    forall x | x in s[..|s| - 1]
      ensures x in s && x != s[|s| - 1]
    {
      var i :| 0 <= i < |s| - 1 && s[..|s| - 1][i] == x;
      assert s[i] == x;
    }
    forall x | x in s && x != s[|s| - 1]
      ensures x in s[..|s| - 1]
    {
      var i :| 0 <= i < |s| && s[i] == x;
      assert s[..|s| - 1][i] == x;
    }
  }

  /** The invariants of the open-frame stack. */
  ghost predicate StackShape(list: seq<Instruction>, stack: seq<TraceNode>, setOfCallIds: set<int>)
    requires |list| > 0
  {
    && |stack| > 0
    && stack[0].callId == list[0].callId
    && stack[0].className == list[0].className
    && stack[0].methodSignature == list[0].methodSignature
    && (forall i :: 0 <= i < |stack| ==> WellFormed(stack[i], i + 1))
    && Distinct(Ids(stack))
    && setOfCallIds == Elems(Ids(stack))
  }

  /** Replacing the top frame by one of the same call keeps the stack's shape. */
  lemma WithTopShape(list: seq<Instruction>, stack: seq<TraceNode>, setOfCallIds: set<int>, n: TraceNode)
    requires |list| > 0 && StackShape(list, stack, setOfCallIds)
    requires WellFormed(n, |stack|)
    requires n.callId == stack[|stack| - 1].callId
    requires n.className == stack[|stack| - 1].className
    requires n.methodSignature == stack[|stack| - 1].methodSignature
    ensures StackShape(list, WithTop(stack, n), setOfCallIds)
    ensures Ids(WithTop(stack, n)) == Ids(stack)
    ensures WithTop(stack, n)[|stack| - 1] == n
  {
    WithTopFrames(stack, n);
    assert Ids(WithTop(stack, n)) == Ids(stack);
  }

  lemma WithTopFrames(stack: seq<TraceNode>, n: TraceNode)
    requires |stack| > 0
    ensures |WithTop(stack, n)| == |stack|
    ensures forall i :: 0 <= i < |stack| - 1 ==> WithTop(stack, n)[i] == stack[i]
    ensures WithTop(stack, n)[|stack| - 1] == n
  {
  }

  /** Closing the top frame keeps the stack's shape and the instructions it holds. */
  lemma CloseTopShape(list: seq<Instruction>, stack: seq<TraceNode>, setOfCallIds: set<int>)
    requires |list| > 0 && StackShape(list, stack, setOfCallIds) && |stack| >= 2
    ensures StackShape(list, CloseTop(stack), setOfCallIds - {stack[|stack| - 1].callId})
    ensures Ids(CloseTop(stack)) == Ids(stack)[..|stack| - 1]
    ensures FlattenStack(CloseTop(stack)) == FlattenStack(stack)
    ensures PathsStack(CloseTop(stack)) == PathsStack(stack)
  {
    FlattenStackCloseTop(stack);
    PathsStackCloseTop(stack);
    CloseTopIds(stack);
    CloseTopWellFormed(stack);
  }

  lemma CloseTopIds(stack: seq<TraceNode>)
    requires |stack| >= 2 && Distinct(Ids(stack))
    ensures Ids(CloseTop(stack)) == Ids(stack)[..|stack| - 1]
    ensures Distinct(Ids(CloseTop(stack)))
    ensures Elems(Ids(CloseTop(stack))) == Elems(Ids(stack)) - {stack[|stack| - 1].callId}
  {
    var s := Ids(stack);
    var r := CloseTop(stack);
    ElemsWithoutTop(s);
    assert forall i :: 0 <= i < |r| - 1 ==> r[i] == stack[i];
    assert Ids(r) == s[..|s| - 1];
  }

  lemma CloseTopWellFormed(stack: seq<TraceNode>)
    requires |stack| >= 2 && forall i :: 0 <= i < |stack| ==> WellFormed(stack[i], i + 1)
    ensures forall i :: 0 <= i < |stack| - 1 ==> WellFormed(CloseTop(stack)[i], i + 1)
    ensures CloseTop(stack)[0].callId == stack[0].callId
    ensures CloseTop(stack)[0].className == stack[0].className
    ensures CloseTop(stack)[0].methodSignature == stack[0].methodSignature
  {
    WellFormedAppend(stack[|stack| - 2], |stack| - 1, Call(stack[|stack| - 1]));
    var r := CloseTop(stack);
    assert forall i :: 0 <= i < |r| - 1 ==> r[i] == stack[i];
  }

  /** Every open frame is separated, and every frame below the top ends with a leaf. */
  ghost predicate Separation(stack: seq<TraceNode>) {
    forall i :: 0 <= i < |stack| ==>
      && Separated(stack[i])
      && (i < |stack| - 1 ==>
            |stack[i].instructions| > 0 && stack[i].instructions[|stack[i].instructions| - 1].Leaf?)
  }

  lemma SeparatedAppend(n: TraceNode, e: TraceElement)
    requires Separated(n)
    requires e.Call? ==> Separated(e.node) && |n.instructions| > 0 && n.instructions[|n.instructions| - 1].Leaf?
    ensures Separated(Append(n, e))
  {
    var es := n.instructions + [e];
    forall i | 0 < i < |es|
      ensures es[i - 1].Leaf? || es[i].Leaf?
    {
      if i < |n.instructions| {
        assert es[i - 1] == n.instructions[i - 1] && es[i] == n.instructions[i];
      }
    }
    forall x | x in es && x.Call?
      ensures Separated(x.node)
    {
      if x != e {
        assert x in n.instructions;
      }
    }
  }

  lemma SeparatedWithLastLeaf(n: TraceNode, y: Instruction)
    requires Separated(n) && |n.instructions| > 0 && n.instructions[|n.instructions| - 1].Leaf?
    ensures Separated(WithLastLeaf(n, y))
  {
    var es := n.instructions;
    var es' := es[..|es| - 1] + [Leaf(y)];
    forall i | 0 < i < |es'|
      ensures es'[i - 1].Leaf? || es'[i].Leaf?
    {
      if i < |es| - 1 {
        assert es'[i - 1] == es[i - 1] && es'[i] == es[i];
      }
    }
    forall x | x in es' && x.Call?
      ensures Separated(x.node)
    {
      assert x in es[..|es| - 1];
      assert x in es;
    }
  }

  /** Replacing the top frame by a separated one keeps the stack separated. */
  lemma SeparationWithTop(stack: seq<TraceNode>, n: TraceNode)
    requires |stack| > 0 && Separation(stack) && Separated(n)
    ensures Separation(WithTop(stack, n))
  {
    WithTopFrames(stack, n);
  }

  /** Pushing a separated frame on a top that ends with a leaf keeps the stack separated. */
  lemma SeparationPush(stack: seq<TraceNode>, n: TraceNode)
    requires Separation(stack) && Separated(n)
    requires |stack| > 0 ==>
      var es := stack[|stack| - 1].instructions; |es| > 0 && es[|es| - 1].Leaf?
    ensures Separation(stack + [n])
  {
    var r := stack + [n];
    assert forall i :: 0 <= i < |stack| ==> r[i] == stack[i];
  }

  lemma SeparationCloseTop(stack: seq<TraceNode>)
    requires |stack| >= 2 && Separation(stack)
    ensures Separation(CloseTop(stack))
  {
    var m := |stack|;
    SeparatedAppend(stack[m - 2], Call(stack[m - 1]));
    var r := CloseTop(stack);
    assert forall i :: 0 <= i < m - 2 ==> r[i] == stack[i];
  }

  lemma SeparatedFrame(i: Instruction, depth: int)
    ensures Separated(Frame(i, depth))
  {
    var n := Frame(i, depth);
    assert forall e | e in n.instructions :: e == Leaf(i);
  }

  /**
   * The state after the first `k` entries: the open frames are those of
   * `OpenStack`, the top frame ends with entry `k - 1`, and the open frames
   * hold the first `k - 1` entries of `Expected` followed by entry `k - 1`,
   * whose own classification waits for the next entry.
   */
  ghost predicate Processed(list: seq<Instruction>, k: nat, stack: seq<TraceNode>, setOfCallIds: set<int>)
  {
    && 0 < k <= |list|
    && StackShape(list, stack, setOfCallIds)
    && Ids(stack) == OpenStack(list, k)
    && (var top := stack[|stack| - 1];
        top.instructions[|top.instructions| - 1] == Leaf(list[k - 1]))
    && FlattenStack(stack) == Expected(list)[..k - 1] + [list[k - 1]]
    && PathsStack(stack) == OpenStacks(list, k)
    && Separation(stack)
  }

  /** The first entry opens the root frame at depth 1. */
  method OpenRoot(list: seq<Instruction>) returns (stack: seq<TraceNode>, setOfCallIds: set<int>)
    requires |list| > 0
    ensures Processed(list, 1, stack, setOfCallIds)
  {
    var instr := list[0];
    var traceNode := Frame(instr, 1);
    stack := [traceNode];
    setOfCallIds := {instr.callId};
    FrameFacts(instr, 1);
    FlattenStackPush([], traceNode);
    assert Ids(stack) == [instr.callId];
    PathsStackPush([], traceNode);
    PathsFrame(instr, 1);
    PrefixedNone(Paths(traceNode));
    SeparatedFrame(instr, 1);
    SeparationPush([], traceNode);
  }

  /** An id not open yet: a new child frame, one level deeper than the top, takes the entry. */
  method OpenChild(list: seq<Instruction>, k: nat, stack: seq<TraceNode>, setOfCallIds: set<int>)
    returns (stack': seq<TraceNode>, setOfCallIds': set<int>)
    requires k < |list| && Processed(list, k, stack, setOfCallIds)
    requires list[k].callId !in setOfCallIds
    ensures Processed(list, k + 1, stack', setOfCallIds')
  {
    var instr := list[k];
    var traceNode := Frame(instr, stack[|stack| - 1].depth + 1);
    NoExitIntoNewFrame(list, k, stack, setOfCallIds);
    PushFrameShape(list, stack, setOfCallIds, instr);
    OpenStacksStep(list, k);
    SeparatedFrame(instr, |stack| + 1);
    SeparationPush(stack, traceNode);
    stack' := stack + [traceNode];
    setOfCallIds' := setOfCallIds + {instr.callId};
  }

  /**
   * Entering a frame that is not open keeps entry `k - 1` as it is, and the
   * open ids grow by the new id.
   */
  lemma NoExitIntoNewFrame(list: seq<Instruction>, k: nat, stack: seq<TraceNode>, setOfCallIds: set<int>)
    requires k < |list| && Processed(list, k, stack, setOfCallIds)
    requires list[k].callId !in setOfCallIds
    ensures FlattenStack(stack) == Expected(list)[..k]
    ensures OpenStack(list, k + 1) == Ids(stack) + [list[k].callId]
  {
    OpenStackShape(list, k);
    assert !ImplicitExit(list, k - 1);
    ExpectedStep(list, k);
  }

  /** A frame just opened by `i`, at depth `depth`. */
  function Frame(i: Instruction, depth: int): TraceNode {
    TraceNode(i.className, i.methodSignature, i.callId, depth, [Leaf(i)])
  }

  lemma FrameFacts(i: Instruction, depth: int)
    ensures Flatten(Frame(i, depth)) == [i]
    ensures WellFormed(Frame(i, depth), depth)
  {
    FlattenFrame(i, depth);
    WellFormedFrame(i, depth);
  }

  lemma FlattenFrame(i: Instruction, depth: int)
    ensures Flatten(Frame(i, depth)) == [i]
  {
    var es := [Leaf(i)];
    assert es[..0] == [];
    assert FlattenElements(es) == FlattenElements([]) + FlattenElement(Leaf(i));
  }

  lemma PathsFrame(i: Instruction, depth: int)
    ensures Paths(Frame(i, depth)) == [[i.callId]]
  {
    var es := [Leaf(i)];
    assert es[..0] == [];
    assert PathsElements(i.callId, es) == PathsElements(i.callId, []) + PathsElement(i.callId, Leaf(i));
  }

  lemma WellFormedFrame(i: Instruction, depth: int)
    ensures WellFormed(Frame(i, depth), depth)
  {
    var n := Frame(i, depth);
    assert forall e | e in n.instructions :: e == Leaf(i);
  }

  /** Pushing the frame of a new id keeps the stack's shape. */
  lemma PushFrameShape(list: seq<Instruction>, stack: seq<TraceNode>, setOfCallIds: set<int>, i: Instruction)
    requires |list| > 0 && StackShape(list, stack, setOfCallIds)
    requires i.callId !in setOfCallIds
    ensures StackShape(list, stack + [Frame(i, |stack| + 1)], setOfCallIds + {i.callId})
    ensures Ids(stack + [Frame(i, |stack| + 1)]) == Ids(stack) + [i.callId]
    ensures FlattenStack(stack + [Frame(i, |stack| + 1)]) == FlattenStack(stack) + [i]
    ensures PathsStack(stack + [Frame(i, |stack| + 1)]) == PathsStack(stack) + [Ids(stack) + [i.callId]]
  {
    var n := Frame(i, |stack| + 1);
    PathsStackPush(stack, n);
    PathsFrame(i, |stack| + 1);
    FrameFacts(i, |stack| + 1);
    FlattenStackPush(stack, n);
    PushFrameIds(stack, n);
    PushFrameWellFormed(stack, n);
  }

  lemma PushFrameIds(stack: seq<TraceNode>, n: TraceNode)
    requires Distinct(Ids(stack)) && n.callId !in Ids(stack)
    ensures Ids(stack + [n]) == Ids(stack) + [n.callId]
    ensures Distinct(Ids(stack + [n]))
    ensures Elems(Ids(stack + [n])) == Elems(Ids(stack)) + {n.callId}
  {
    var r := stack + [n];
    assert forall i :: 0 <= i < |stack| ==> r[i] == stack[i];
    assert Ids(r) == Ids(stack) + [n.callId];
  }

  lemma PushFrameWellFormed(stack: seq<TraceNode>, n: TraceNode)
    requires forall i :: 0 <= i < |stack| ==> WellFormed(stack[i], i + 1)
    requires WellFormed(n, |stack| + 1)
    ensures forall i :: 0 <= i < |stack| + 1 ==> WellFormed((stack + [n])[i], i + 1)
    ensures |stack| > 0 ==> (stack + [n])[0] == stack[0]
  {
    var r := stack + [n];
    assert forall i :: 0 <= i < |stack| ==> r[i] == stack[i];
  }

  lemma FlattenStackReplaceLast(stack: seq<TraceNode>, p: seq<Instruction>, y: Instruction)
    requires |stack| > 0
    requires var es := stack[|stack| - 1].instructions;
      |es| > 0 && es[|es| - 1].Leaf? && FlattenStack(stack) == p + [es[|es| - 1].instruction]
    ensures FlattenStack(WithTop(stack, WithLastLeaf(stack[|stack| - 1], y))) == p + [y]
  {
    var top := stack[|stack| - 1];
    var a, f := FlattenStack(stack[..|stack| - 1]), Flatten(top);
    FlattenStackWithTop(stack, WithLastLeaf(top, y));
    FlattenWithLastLeaf(top, y);
    assert a + f == p + [f[|f| - 1]];
    assert (a + f)[..|a + f| - 1] == a + f[..|f| - 1];
    assert a + f[..|f| - 1] == p;
    AppendAssoc(a, f[..|f| - 1], [y]);
  }

  lemma ExpectedStep(list: seq<Instruction>, k: nat)
    requires 0 < k <= |list|
    ensures Expected(list)[..k] == Expected(list)[..k - 1] + [Final(list, k - 1)]
  {
    var e := Expected(list);
    TakeStep(e, k);
  }

  lemma TakeStep<T>(e: seq<T>, k: nat)
    requires 0 < k <= |e|
    ensures e[..k] == e[..k - 1] + [e[k - 1]]
  {
  }

  /**
   * Control is about to leave the top frame for the frame of entry `k`: the
   * top's last entry, entry `k - 1`, gets its final classification.
   */
  method ReclassifyOnReturn(list: seq<Instruction>, k: nat, stack: seq<TraceNode>, setOfCallIds: set<int>)
    returns (stack': seq<TraceNode>)
    requires k < |list| && Processed(list, k, stack, setOfCallIds)
    requires list[k].callId in setOfCallIds
    ensures StackShape(list, stack', setOfCallIds)
    ensures Ids(stack') == Ids(stack)
    ensures FlattenStack(stack') == Expected(list)[..k]
    ensures PathsStack(stack') == PathsStack(stack)
    ensures Separation(stack')
  {
    var callId := list[k].callId;
    OpenStackShape(list, k);
    ExpectedStep(list, k);
    stack' := stack;
    var top := stack[|stack| - 1];
    var lastInstrs := top.instructions;
    var last := lastInstrs[|lastInstrs| - 1].instruction;
    if top.callId != callId && !last.instructionData.ReturnInstruction?
       && !last.instructionData.ExplicitThrowInstruction?
    {
      var marked := ImplicitThrowOnReturn(last);
      FlattenStackReplaceLast(stack, Expected(list)[..k - 1], marked);
      PathsStackReplaceLast(stack, marked);
      WellFormedWithLastLeaf(top, |stack|, marked);
      WithTopShape(list, stack, setOfCallIds, WithLastLeaf(top, marked));
      SeparatedWithLastLeaf(top, marked);
      SeparationWithTop(stack, WithLastLeaf(top, marked));
      stack' := WithTop(stack, WithLastLeaf(top, marked));
    }
  }

  /** Frames above the frame of `callId` are closed, each into its parent. */
  method CloseFramesAbove(list: seq<Instruction>, stack: seq<TraceNode>, setOfCallIds: set<int>, callId: int)
    returns (stack': seq<TraceNode>, setOfCallIds': set<int>)
    requires |list| > 0 && StackShape(list, stack, setOfCallIds)
    requires callId in Ids(stack)
    ensures StackShape(list, stack', setOfCallIds')
    ensures Ids(stack') == PopTo(Ids(stack), callId)
    ensures FlattenStack(stack') == FlattenStack(stack)
    ensures PathsStack(stack') == PathsStack(stack)
    ensures Separation(stack) ==> Separation(stack')
  {
    stack', setOfCallIds' := stack, setOfCallIds;
    while stack'[|stack'| - 1].callId != callId
      invariant StackShape(list, stack', setOfCallIds')
      invariant callId in Ids(stack')
      invariant PopTo(Ids(stack'), callId) == PopTo(Ids(stack), callId)
      invariant FlattenStack(stack') == FlattenStack(stack)
      invariant PathsStack(stack') == PathsStack(stack)
      invariant Separation(stack) ==> Separation(stack')
      decreases |stack'|
    {
      CloseTopShape(list, stack', setOfCallIds');
      if Separation(stack) {
        SeparationCloseTop(stack');
      }
      setOfCallIds' := setOfCallIds' - {stack'[|stack'| - 1].callId};
      stack' := CloseTop(stack');
    }
  }

  /** The top frame takes entry `k` as its next leaf. */
  lemma PushLeaf(list: seq<Instruction>, k: nat, stack: seq<TraceNode>, setOfCallIds: set<int>)
    requires k < |list| && StackShape(list, stack, setOfCallIds)
    requires stack[|stack| - 1].callId == list[k].callId
    requires Ids(stack) == OpenStack(list, k + 1)
    requires FlattenStack(stack) == Expected(list)[..k]
    requires PathsStack(stack) == OpenStacks(list, k)
    requires Separation(stack)
    ensures Processed(list, k + 1, WithTop(stack, Append(stack[|stack| - 1], Leaf(list[k]))), setOfCallIds)
  {
    SeparatedAppend(stack[|stack| - 1], Leaf(list[k]));
    SeparationWithTop(stack, Append(stack[|stack| - 1], Leaf(list[k])));
    PushLeafPaths(list, k, stack);
    var top := stack[|stack| - 1];
    var top' := Append(top, Leaf(list[k]));
    WellFormedAppend(top, |stack|, Leaf(list[k]));
    FlattenAppend(top, Leaf(list[k]));
    FlattenStackWithTop(stack, top');
    AppendAssoc(FlattenStack(stack[..|stack| - 1]), Flatten(top), [list[k]]);
    WithTopShape(list, stack, setOfCallIds, top');
    assert top'.instructions[|top'.instructions| - 1] == Leaf(list[k]);
  }

  lemma PushLeafPaths(list: seq<Instruction>, k: nat, stack: seq<TraceNode>)
    requires k < |list| && |stack| > 0
    requires stack[|stack| - 1].callId == list[k].callId
    requires Ids(stack) == OpenStack(list, k + 1)
    requires PathsStack(stack) == OpenStacks(list, k)
    ensures PathsStack(WithTop(stack, Append(stack[|stack| - 1], Leaf(list[k])))) == OpenStacks(list, k + 1)
  {
    var m := |stack|;
    var low, top := stack[..m - 1], stack[m - 1];
    var p := Ids(low);
    PathsStackPush(low, Append(top, Leaf(list[k])));
    PathsAppend(top, Leaf(list[k]));
    PrefixedAppend(p, Paths(top), [[top.callId]]);
    assert Prefixed(p, [[top.callId]]) == [p + [top.callId]];
    assert stack == low + [top];
    PathsStackPush(low, top);
    assert p + [top.callId] == Ids(stack);
    OpenStacksStep(list, k);
    AppendAssoc(PathsStack(low), Prefixed(p, Paths(top)), [Ids(stack)]);
  }

  /**
   * An id that is open already: if the top frame is another one and its last
   * entry is neither a return nor an explicit throw, that entry becomes an
   * implicit throw; then frames are closed until the id is on top, and that
   * frame takes the entry.
   */
  method ReturnToOpenFrame(list: seq<Instruction>, k: nat, stack: seq<TraceNode>, setOfCallIds: set<int>)
    returns (stack': seq<TraceNode>, setOfCallIds': set<int>)
    requires k < |list| && Processed(list, k, stack, setOfCallIds)
    requires list[k].callId in setOfCallIds
    ensures Processed(list, k + 1, stack', setOfCallIds')
  {
    var instr := list[k];
    var marked := ReclassifyOnReturn(list, k, stack, setOfCallIds);
    stack', setOfCallIds' := CloseFramesAbove(list, marked, setOfCallIds, instr.callId);
    PushLeaf(list, k, stack', setOfCallIds');
    stack' := WithTop(stack', Append(stack'[|stack'| - 1], Leaf(instr)));
  }

  /**
   * After the last entry: the top frame's last entry becomes an implicit
   * throw unless it is a return or an explicit throw.
   */
  method ReclassifyAtEnd(list: seq<Instruction>, stack: seq<TraceNode>, setOfCallIds: set<int>)
    returns (stack': seq<TraceNode>)
    requires Processed(list, |list|, stack, setOfCallIds)
    ensures StackShape(list, stack', setOfCallIds)
    ensures FlattenStack(stack') == Expected(list)
    ensures PathsStack(stack') == OpenStacks(list, |list|)
    ensures Separation(stack')
  {
    var n := |list|;
    ExpectedStep(list, n);
    assert Expected(list)[..n] == Expected(list);
    stack' := stack;
    var top := stack[|stack| - 1];
    var lastInstrs := top.instructions;
    var last := lastInstrs[|lastInstrs| - 1].instruction;
    if !last.instructionData.ReturnInstruction? && !last.instructionData.ExplicitThrowInstruction? {
      var marked := ImplicitThrowAtEnd(last);
      FlattenStackReplaceLast(stack, Expected(list)[..n - 1], marked);
      PathsStackReplaceLast(stack, marked);
      WellFormedWithLastLeaf(top, |stack|, marked);
      WithTopShape(list, stack, setOfCallIds, WithLastLeaf(top, marked));
      SeparatedWithLastLeaf(top, marked);
      SeparationWithTop(stack, WithLastLeaf(top, marked));
      stack' := WithTop(stack, WithLastLeaf(top, marked));
    }
  }

  /** Every open frame is closed into its parent; the bottom frame is the root. */
  method CloseAll(list: seq<Instruction>, stack: seq<TraceNode>, setOfCallIds: set<int>) returns (root: TraceNode)
    requires |list| > 0 && StackShape(list, stack, setOfCallIds)
    ensures Flatten(root) == FlattenStack(stack)
    ensures Paths(root) == PathsStack(stack)
    ensures Separation(stack) ==> Separated(root)
    ensures WellFormed(root, 1)
    ensures root.callId == list[0].callId
    ensures root.className == list[0].className && root.methodSignature == list[0].methodSignature
  {
    var stack', setOfCallIds' := stack, setOfCallIds;
    while |stack'| > 1
      invariant StackShape(list, stack', setOfCallIds')
      invariant FlattenStack(stack') == FlattenStack(stack)
      invariant PathsStack(stack') == PathsStack(stack)
      invariant Separation(stack) ==> Separation(stack')
    {
      CloseTopShape(list, stack', setOfCallIds');
      if Separation(stack) {
        SeparationCloseTop(stack');
      }
      setOfCallIds' := setOfCallIds' - {stack'[|stack'| - 1].callId};
      stack' := CloseTop(stack');
    }
    FlattenStackPop(stack');
    assert stack' == [] + [stack'[0]];
    PathsStackPush([], stack'[0]);
    PrefixedNone(Paths(stack'[0]));
    root := stack'[0];
  }

  /**
   * `root` is the call tree of a non-empty `list`: its leaves, depth first,
   * are `Expected(list)`; the call ids above leaf `j` are the frames open
   * after entry `j`; no node has two adjacent calls; every node is one level
   * deeper than its parent, from 1 at the root; and the root is the call of
   * the first entry.
   */
  ghost predicate TreeOf(root: TraceNode, list: seq<Instruction>) {
    && |list| > 0
    && Flatten(root) == Expected(list)
    && |Paths(root)| == |list|
    && (forall j :: 0 <= j < |list| ==> Paths(root)[j] == OpenStack(list, j + 1))
    && Separated(root)
    && WellFormed(root, 1)
    && root.callId == list[0].callId
    && root.className == list[0].className
    && root.methodSignature == list[0].methodSignature
  }

  /**
   * For call ids 1, 2, 3 the third entry opens a child of the second entry's
   * frame, three levels deep; a tree that puts it beside that frame instead
   * is not the call tree of the list.
   */
  lemma NestedUnderTop(a: Instruction, b: Instruction, c: Instruction)
    requires a.callId == 1 && b.callId == 2 && c.callId == 3
    ensures OpenStack([a, b, c], 3) == [1, 2, 3]
    ensures !TreeOf(Append(Append(Frame(a, 1), Call(Frame(b, 2))), Call(Frame(c, 2))), [a, b, c])
  {
    var list := [a, b, c];
    assert OpenStack(list, 1) == [1];
    assert OpenStack(list, 2) == [1, 2];
    var sibling := Append(Append(Frame(a, 1), Call(Frame(b, 2))), Call(Frame(c, 2)));
    SiblingPaths(a, b, c);
    assert Paths(sibling)[2] == [1, 3] != OpenStack(list, 3);
  }

  lemma SiblingPaths(a: Instruction, b: Instruction, c: Instruction)
    ensures Paths(Append(Append(Frame(a, 1), Call(Frame(b, 2))), Call(Frame(c, 2))))
         == [[a.callId], [a.callId, b.callId], [a.callId, c.callId]]
  {
    var inner := Append(Frame(a, 1), Call(Frame(b, 2)));
    PathsFrame(a, 1);
    PathsFrame(b, 2);
    PathsFrame(c, 2);
    PathsAppend(Frame(a, 1), Call(Frame(b, 2)));
    PathsAppend(inner, Call(Frame(c, 2)));
    PrefixedSingle([a.callId], [b.callId]);
    PrefixedSingle([a.callId], [c.callId]);
    assert [a.callId] + [b.callId] == [a.callId, b.callId];
    assert [a.callId] + [c.callId] == [a.callId, c.callId];
    assert inner.callId == Frame(a, 1).callId == a.callId;
    assert PathsElement(a.callId, Call(Frame(b, 2))) == Prefixed([a.callId], [[b.callId]]);
    assert PathsElement(a.callId, Call(Frame(c, 2))) == Prefixed([a.callId], [[c.callId]]);
    assert Paths(inner) == [[a.callId]] + [[a.callId, b.callId]];
    assert Paths(Append(inner, Call(Frame(c, 2)))) == [[a.callId]] + [[a.callId, b.callId]] + [[a.callId, c.callId]];
  }

  lemma PrefixedSingle(p: seq<int>, q: seq<int>)
    ensures Prefixed(p, [q]) == [p + q]
  {
    var r := Prefixed(p, [q]);
    assert r[0] == p + [q][0];
    assert r == [r[0]];
  }

  /**
   * `computeTrace`'s single pass over the instruction list. An empty list is
   * an error; otherwise the result is the call tree of the list (`TreeOf`):
   * every entry lands once, in order, reclassified only where `ImplicitExit`
   * says, inside the frame that was on top when it ran.
   */
  method BuildTrace(list: seq<Instruction>) returns (r: Result<TraceNode, Exception>)
    ensures r.Failure? <==> list == []
    ensures r.Failure? ==> r.error == NoSuchElementException
    ensures r.Success? ==> TreeOf(r.value, list)
  {
    var stack: seq<TraceNode> := [];
    var setOfCallIds: set<int> := {};
    var k := 0;
    while k < |list|
      invariant 0 <= k <= |list|
      invariant k == 0 <==> stack == []
      invariant k > 0 ==> Processed(list, k, stack, setOfCallIds)
    {
      var callId := list[k].callId;
      if stack == [] {
        stack, setOfCallIds := OpenRoot(list);
      } else if callId in setOfCallIds {
        stack, setOfCallIds := ReturnToOpenFrame(list, k, stack, setOfCallIds);
      } else {
        stack, setOfCallIds := OpenChild(list, k, stack, setOfCallIds);
      }
      k := k + 1;
    }
    if stack == [] {
      return Failure(NoSuchElementException);
    }
    var stack' := ReclassifyAtEnd(list, stack, setOfCallIds);
    var root := CloseAll(list, stack', setOfCallIds);
    r := Success(root);
  }
}
