/** What the validation passes of src/validate share: the parse result they
  * append diagnostics to, and the way they reach the action lists inside a
  * node (`node.key?.value ?? []`). */
module Validation {
  import opened Wrappers
  import opened Spans
  import opened NodeTypes
  import opened Ir

  /** `ParseResult` (src/ir.ts:37-40): the holders, and the diagnostics the
    * passes push onto. */
  class ParseResult {
    const holders: seq<IrNode>
    var diagnostics: seq<Diagnostic>

    constructor(holders: seq<IrNode>, diagnostics: seq<Diagnostic>)
      ensures this.holders == holders && this.diagnostics == diagnostics
    {
      this.holders := holders;
      this.diagnostics := diagnostics;
    }

    /** `result.diagnostics.push(d)`. */
    method Push(d: Diagnostic)
      modifies this
      ensures diagnostics == old(diagnostics) + [d]
    {
      diagnostics := diagnostics + [d];
    }
  }

  /** The position of the first field called `key`, or -1. */
  function FieldIndex(fs: seq<Field>, key: string): (i: int)
    ensures -1 <= i < |fs|
    ensures i >= 0 ==> fs[i].name == key && FindField(fs, key) == Some(fs[i])
    ensures i == -1 <==> key !in FieldNames(fs)
  {
    if |fs| == 0 then -1
    else if fs[0].name == key then 0
    else
      var j := FieldIndex(fs[1..], key);
      if j == -1 then -1 else j + 1
  }

  /** `n.key?.value ?? []`: the nodes of the field, or none when the field is
    * absent or holds no list. */
  function ActionsOf(n: IrNode, key: string): (r: seq<IrNode>)
    ensures key !in IrKeys(n) ==> r == []
    ensures var f := FindField(n.fields, key); f.Some? && f.value.value.INodes? ==> r == f.value.value.nodes
  {
    var i := FieldIndex(n.fields, key);
    if i >= 0 && n.fields[i].value.INodes? then n.fields[i].value.nodes else []
  }

  /** The type of an action node. */
  predicate IsA(n: IrNode, t: ActionType)
  {
    n.tag == Act(t)
  }

  /** The number of actions of type `t` in a list. */
  function CountOf(actions: seq<IrNode>, t: ActionType): (c: nat)
    ensures c <= |actions|
  {
    if |actions| == 0 then 0
    else CountOf(actions[..|actions| - 1], t) + (if IsA(actions[|actions| - 1], t) then 1 else 0)
  }

  /** The action lists a CONDITIONAL or RANDOM holds: the if and else bodies,
    * or the random body. */
  function Bodies(a: IrNode): (bs: seq<seq<IrNode>>)
    ensures |bs| <= 2
  {
    if IsA(a, CONDITIONAL) then [ActionsOf(a, "ifActions"), ActionsOf(a, "elseActions")]
    else if IsA(a, RANDOM) then [ActionsOf(a, "actions")]
    else []
  }
}
