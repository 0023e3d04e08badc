/**
 * The records of an execution trace: what is known about one bytecode
 * instruction, one executed occurrence of it, and the call tree that the
 * trace handler rebuilds from the flat log.
 */
module TraceData {

  /** JVM `Int` and `Long` ranges. */
  type Int32 = x: int | -0x8000_0000 <= x < 0x8000_0000
  type Int64 = x: int | -0x8000_0000_0000_0000 <= x < 0x8000_0000_0000_0000

  /** Kotlin `Long.toInt()`: keep the low 32 bits, two's complement. */
  function ToInt(x: int): (r: Int32)
    ensures r % 0x1_0000_0000 == x % 0x1_0000_0000
    ensures -0x8000_0000 <= x < 0x8000_0000 ==> r == x
  {
    var m := x % 0x1_0000_0000;
    if m < 0x8000_0000 then m else m - 0x1_0000_0000
  }

  /** Static description of one instrumented instruction, by kind. */
  datatype InstructionData =
    | CommonInstruction(line: int, methodSignature: string)
    | InvokeInstruction(line: int, methodSignature: string)
    | ReturnInstruction(line: int, methodSignature: string)
    | ImplicitThrowInstruction(line: int, methodSignature: string)
    | ExplicitThrowInstruction(line: int, methodSignature: string)
    | PutStaticInstruction(line: int, methodSignature: string, owner: string, name: string, descriptor: string)

  /** One executed occurrence of an instruction, tagged with the call that ran it. */
  datatype Instruction = Instruction(
    className: string,
    methodSignature: string,
    callId: int,
    id: int,
    line: int,
    instructionData: InstructionData)

  /** A child of a call node: an instruction occurrence or a nested call. */
  datatype TraceElement = Leaf(instruction: Instruction) | Call(node: TraceNode)

  /** One method activation with its instructions and nested calls, in execution order. */
  datatype TraceNode = TraceNode(
    className: string,
    methodSignature: string,
    callId: int,
    depth: int,
    instructions: seq<TraceElement>)

  datatype FieldId = FieldId(declaringClass: string, name: string)

  datatype Trace = Trace(root: TraceNode, usedStatics: seq<FieldId>)

  /** The instruction occurrences of a node's subtree, depth first, in order. */
  function Flatten(n: TraceNode): seq<Instruction>
    decreases n, 1
  {
    FlattenElements(n.instructions)
  }

  function FlattenElements(es: seq<TraceElement>): seq<Instruction>
    decreases es, 0
  {
    if es == [] then []
    else FlattenElements(es[..|es| - 1]) + FlattenElement(es[|es| - 1])
  }

  function FlattenElement(e: TraceElement): seq<Instruction>
    decreases e, 2
  {
    match e
    case Leaf(i) => [i]
    case Call(n) => Flatten(n)
  }

  /** Puts `p` in front of every path of `ps`. */
  function Prefixed(p: seq<int>, ps: seq<seq<int>>): (r: seq<seq<int>>)
    ensures |r| == |ps|
    ensures forall i :: 0 <= i < |ps| ==> r[i] == p + ps[i]
  {
    seq(|ps|, i requires 0 <= i < |ps| => p + ps[i])
  }

  /**
   * For each instruction occurrence of a node's subtree, depth first, the call
   * ids from this node down to the node whose own leaf it is.
   */
  function Paths(n: TraceNode): seq<seq<int>>
    decreases n, 1
  {
    PathsElements(n.callId, n.instructions)
  }

  function PathsElements(c: int, es: seq<TraceElement>): seq<seq<int>>
    decreases es, 0
  {
    if es == [] then []
    else PathsElements(c, es[..|es| - 1]) + PathsElement(c, es[|es| - 1])
  }

  function PathsElement(c: int, e: TraceElement): seq<seq<int>>
    decreases e, 2
  {
    match e
    case Leaf(_) => [[c]]
    case Call(n) => Prefixed([c], Paths(n))
  }

  /**
   * A call tree rooted at depth `d`: every node is one deeper than its parent,
   * starts with an instruction of its own method, and every instruction leaf
   * directly under a node carries that node's call id.
   */
  ghost predicate WellFormed(n: TraceNode, d: int)
    decreases n
  {
    && n.depth == d
    && |n.instructions| > 0
    && n.instructions[0].Leaf?
    && n.instructions[0].instruction.className == n.className
    && n.instructions[0].instruction.methodSignature == n.methodSignature
    && forall e | e in n.instructions ::
         && (e.Leaf? ==> e.instruction.callId == n.callId)
         && (e.Call? ==> WellFormed(e.node, d + 1))
  }

  /**
   * No node has two calls as adjacent children: control only comes back to a
   * frame through one of that frame's own instructions.
   */
  ghost predicate Separated(n: TraceNode)
    decreases n
  {
    && (forall i :: 0 < i < |n.instructions| ==> n.instructions[i - 1].Leaf? || n.instructions[i].Leaf?)
    && (forall e | e in n.instructions :: e.Call? ==> Separated(e.node))
  }
}
