/** The nesting pass of src/validate/nesting.ts: a conditional or a random
  * action may not appear inside another one, at any depth. */
module Nesting {
  import opened Wrappers
  import opened Spans
  import opened NodeTypes
  import opened Ir
  import opened Validation

  /** The actions that open a context of their own. */
  predicate IsControl(t: ActionType)
  {
    t == CONDITIONAL || t == RANDOM
  }

  predicate IsControlNode(a: IrNode)
  {
    a.tag.Act? && IsControl(a.tag.a)
  }

  /** CONTEXT_NAMES (src/validate/nesting.ts:22-27). */
  function ContextName(t: ActionType): string
    requires IsControl(t)
  {
    if t == CONDITIONAL then "conditional" else "random action"
  }

  function NestingError(a: IrNode, context: ActionType): Diagnostic
    requires IsControlNode(a) && IsControl(context)
  {
    ErrorAt("Cannot use a " + ContextName(a.tag.a) + " inside of a " + ContextName(context), a.kwSpan)
  }

  /** `checkActionNesting(result, context, actions)` as a value
    * (src/validate/nesting.ts:29-50). */
  function NestingIn(context: ActionType, actions: seq<IrNode>): seq<Diagnostic>
    requires IsControl(context)
    decreases actions, 0
  {
    if |actions| == 0 then []
    else NestingIn(context, actions[..|actions| - 1]) + NestingOne(context, actions[|actions| - 1])
  }

  /** One action inside `context`: its own error, then its bodies, each in
    * the context the action opens. */
  function NestingOne(context: ActionType, a: IrNode): seq<Diagnostic>
    requires IsControl(context)
    decreases a, 3
  {
    (if IsControlNode(a) then [NestingError(a, context)] else []) + Inner(a)
  }

  /** The bodies of a conditional or random action, checked in its context. */
  function Inner(a: IrNode): seq<Diagnostic>
    decreases a, 2
  {
    if IsA(a, CONDITIONAL) then NestBody(a, "ifActions", CONDITIONAL) + NestBody(a, "elseActions", CONDITIONAL)
    else if IsA(a, RANDOM) then NestBody(a, "actions", RANDOM)
    else []
  }

  /** `checkActionNesting(result, context, a.key?.value ?? [])`. */
  function NestBody(a: IrNode, key: string, context: ActionType): seq<Diagnostic>
    requires IsControl(context)
    decreases a, 1
  {
    var i := FieldIndex(a.fields, key);
    if i >= 0 && a.fields[i].value.INodes? then NestingIn(context, a.fields[i].value.nodes) else []
  }

  /** The top level of a holder: its actions are not inside any context. */
  function TopLevel(actions: seq<IrNode>): seq<Diagnostic>
  {
    if |actions| == 0 then [] else TopLevel(actions[..|actions| - 1]) + Inner(actions[|actions| - 1])
  }

  /** `checkNesting` as a value (src/validate/nesting.ts:4-20): holders
    * without an actions field are skipped. */
  function HolderNesting(holders: seq<IrNode>): seq<Diagnostic>
  {
    if |holders| == 0 then []
    else
      var h := holders[|holders| - 1];
      HolderNesting(holders[..|holders| - 1]) + (if "actions" in IrKeys(h) then TopLevel(ActionsOf(h, "actions")) else [])
  }

  // ---------------------------------------------------------------------
  // An independent count: the conditionals and random actions of a tree

  /** The conditional and random actions in a list, at every depth. */
  function Controls(actions: seq<IrNode>): nat
    decreases actions, 0
  {
    if |actions| == 0 then 0
    else
      var a := actions[|actions| - 1];
      Controls(actions[..|actions| - 1]) + (if IsControlNode(a) then 1 else 0) + InnerControls(a)
  }

  /** The conditional and random actions in the bodies of one action. */
  function InnerControls(a: IrNode): nat
    decreases a, 2
  {
    if IsA(a, CONDITIONAL) then BodyControls(a, "ifActions") + BodyControls(a, "elseActions")
    else if IsA(a, RANDOM) then BodyControls(a, "actions")
    else 0
  }

  function BodyControls(a: IrNode, key: string): nat
    decreases a, 1
  {
    var i := FieldIndex(a.fields, key);
    if i >= 0 && a.fields[i].value.INodes? then Controls(a.fields[i].value.nodes) else 0
  }

  /** Inside a context, every conditional and random action is reported,
    * once, however deep it sits. */
  lemma {:induction false} NestingCountsControls(context: ActionType, actions: seq<IrNode>)
    requires IsControl(context)
    ensures |NestingIn(context, actions)| == Controls(actions)
    decreases actions, 0
  {
    if |actions| > 0 {
      var a := actions[|actions| - 1];
      NestingCountsControls(context, actions[..|actions| - 1]);
      InnerCountsControls(a);
    }
  }

  lemma {:induction false} InnerCountsControls(a: IrNode)
    ensures |Inner(a)| == InnerControls(a)
    decreases a, 2
  {
    if IsA(a, CONDITIONAL) {
      BodyCountsControls(a, "ifActions", CONDITIONAL);
      BodyCountsControls(a, "elseActions", CONDITIONAL);
    } else if IsA(a, RANDOM) {
      BodyCountsControls(a, "actions", RANDOM);
    }
  }

  lemma {:induction false} BodyCountsControls(a: IrNode, key: string, context: ActionType)
    requires IsControl(context)
    ensures |NestBody(a, key, context)| == BodyControls(a, key)
    decreases a, 1
  {
    var i := FieldIndex(a.fields, key);
    if i >= 0 && a.fields[i].value.INodes? {
      NestingCountsControls(context, a.fields[i].value.nodes);
    }
  }

  /** The number of conditional and random actions at the top of a list. */
  function TopControls(actions: seq<IrNode>): nat
  {
    if |actions| == 0 then 0
    else TopControls(actions[..|actions| - 1]) + (if IsControlNode(actions[|actions| - 1]) then 1 else 0)
  }

  /** At the top level only the nested ones are reported: a holder is
    * silent iff all its conditionals and random actions are at its top. */
  lemma {:induction false} TopLevelCountsNested(actions: seq<IrNode>)
    ensures |TopLevel(actions)| + TopControls(actions) == Controls(actions)
  {
    if |actions| > 0 {
      TopLevelCountsNested(actions[..|actions| - 1]);
      InnerCountsControls(actions[|actions| - 1]);
    }
  }

  // ---------------------------------------------------------------------
  // The pass

  /** `checkActionNesting` (src/validate/nesting.ts:29-50). */
  method CheckActionNesting(result: ParseResult, context: ActionType, actions: seq<IrNode>)
    requires IsControl(context)
    modifies result
    ensures result.diagnostics == old(result.diagnostics) + NestingIn(context, actions)
    decreases actions, 0
  {
    var i := 0;
    while i < |actions|
      invariant 0 <= i <= |actions|
      invariant result.diagnostics == old(result.diagnostics) + NestingIn(context, actions[..i])
    {
      var a := actions[i];
      ghost var before := result.diagnostics;
      assert actions[..i + 1][..i] == actions[..i];
      if IsControlNode(a) {
        result.Push(NestingError(a, context));
      }
      CheckInner(result, a);
      AppendAssoc(before, if IsControlNode(a) then [NestingError(a, context)] else [], Inner(a));
      AppendAssoc(old(result.diagnostics), NestingIn(context, actions[..i]), NestingOne(context, a));
      i := i + 1;
    }
    assert actions[..i] == actions;
  }

  /** The recursive calls for the bodies of one action. */
  method CheckInner(result: ParseResult, a: IrNode)
    modifies result
    ensures result.diagnostics == old(result.diagnostics) + Inner(a)
    decreases a, 2
  {
    if IsA(a, CONDITIONAL) {
      CheckBody(result, a, "ifActions", CONDITIONAL);
      CheckBody(result, a, "elseActions", CONDITIONAL);
      AppendAssoc(old(result.diagnostics), NestBody(a, "ifActions", CONDITIONAL), NestBody(a, "elseActions", CONDITIONAL));
    } else if IsA(a, RANDOM) {
      CheckBody(result, a, "actions", RANDOM);
    }
  }

  method CheckBody(result: ParseResult, a: IrNode, key: string, context: ActionType)
    requires IsControl(context)
    modifies result
    ensures result.diagnostics == old(result.diagnostics) + NestBody(a, key, context)
    decreases a, 1
  {
    var i := FieldIndex(a.fields, key);
    if i >= 0 && a.fields[i].value.INodes? {
      CheckActionNesting(result, context, a.fields[i].value.nodes);
    }
  }

  /** `checkNesting` (src/validate/nesting.ts:4-20). */
  method CheckNesting(result: ParseResult)
    modifies result
    ensures result.diagnostics == old(result.diagnostics) + HolderNesting(result.holders)
  {
    var k := 0;
    while k < |result.holders|
      invariant 0 <= k <= |result.holders|
      invariant result.diagnostics == old(result.diagnostics) + HolderNesting(result.holders[..k])
    {
      var h := result.holders[k];
      assert result.holders[..k + 1][..k] == result.holders[..k];
      if "actions" in IrKeys(h) {
        var actions := ActionsOf(h, "actions");
        ghost var start := result.diagnostics;
        var i := 0;
        while i < |actions|
          invariant 0 <= i <= |actions|
          invariant result.diagnostics == start + TopLevel(actions[..i])
        {
          assert actions[..i + 1][..i] == actions[..i];
          CheckInner(result, actions[i]);
          AppendAssoc(start, TopLevel(actions[..i]), Inner(actions[i]));
          i := i + 1;
        }
        assert actions[..i] == actions;
        AppendAssoc(old(result.diagnostics), HolderNesting(result.holders[..k]), TopLevel(actions));
      }
      k := k + 1;
    }
    assert result.holders[..k] == result.holders;
  }
}
