/** The context pass of src/validate/context.ts: exits only in
  * conditionals, cancel-event only in events, the damage-amount condition
  * only in the Player Damage event. */
module ContextRules {
  import opened Wrappers
  import opened Spans
  import opened NodeTypes
  import opened Ir
  import opened Validation

  const EXIT_MESSAGE := "Exit action can only be used in conditionals"
  const CANCEL_MESSAGE := "Cancel Event action can only be used in event actions"
  const DAMAGE_MESSAGE := "Damage Amount condition can only be used in the Player Damage event"

  predicate IsEvent(holder: IrNode)
  {
    holder.tag == Hold(EVENT)
  }

  /** `holder.type === "EVENT" && holder.event?.value === "Player Damage"`. */
  predicate IsPlayerDamage(holder: IrNode)
  {
    IsEvent(holder) && FieldValue(holder.fields, "event") == Some(IPrim(PStr("Player Damage")))
  }

  // ---------------------------------------------------------------------
  // The diagnostics, as values

  /** `checkExitActions` (src/validate/context.ts:70-84): an exit is an error
    * at the top and inside random actions; conditionals are not entered. */
  function ExitErrors(actions: seq<IrNode>): seq<Diagnostic>
    decreases actions, 0
  {
    if |actions| == 0 then [] else ExitErrors(actions[..|actions| - 1]) + ExitOne(actions[|actions| - 1])
  }

  function ExitOne(a: IrNode): seq<Diagnostic>
    decreases a, 2
  {
    (if IsA(a, EXIT) then [ErrorAt(EXIT_MESSAGE, a.kwSpan)] else [])
    + (if IsA(a, RANDOM) then ExitBody(a, "actions") else [])
  }

  function ExitBody(a: IrNode, key: string): seq<Diagnostic>
    decreases a, 1
  {
    var i := FieldIndex(a.fields, key);
    if i >= 0 && a.fields[i].value.INodes? then ExitErrors(a.fields[i].value.nodes) else []
  }

  /** `checkActionContext` (src/validate/context.ts:31-51): the bodies
    * first, then a cancel-event outside an event. */
  function CancelErrors(holder: IrNode, actions: seq<IrNode>): seq<Diagnostic>
    decreases actions, 0
  {
    if |actions| == 0 then [] else CancelErrors(holder, actions[..|actions| - 1]) + CancelOne(holder, actions[|actions| - 1])
  }

  function CancelOne(holder: IrNode, a: IrNode): seq<Diagnostic>
    decreases a, 3
  {
    CancelInner(holder, a) + (if IsA(a, CANCEL_EVENT) && !IsEvent(holder) then [ErrorAt(CANCEL_MESSAGE, a.kwSpan)] else [])
  }

  function CancelInner(holder: IrNode, a: IrNode): seq<Diagnostic>
    decreases a, 2
  {
    if IsA(a, CONDITIONAL) then CancelBody(holder, a, "ifActions") + CancelBody(holder, a, "elseActions")
    else if IsA(a, RANDOM) then CancelBody(holder, a, "actions")
    else []
  }

  function CancelBody(holder: IrNode, a: IrNode, key: string): seq<Diagnostic>
    decreases a, 1
  {
    var i := FieldIndex(a.fields, key);
    if i >= 0 && a.fields[i].value.INodes? then CancelErrors(holder, a.fields[i].value.nodes) else []
  }

  /** `checkConditionalContext` (src/validate/context.ts:53-68). */
  function DamageErrors(holder: IrNode, conditions: seq<IrNode>): seq<Diagnostic>
  {
    if |conditions| == 0 then []
    else
      var c := conditions[|conditions| - 1];
      DamageErrors(holder, conditions[..|conditions| - 1])
      + (if c.tag == Cond(COMPARE_DAMAGE) && !IsPlayerDamage(holder) then [ErrorAt(DAMAGE_MESSAGE, c.kwSpan)] else [])
  }

  /** The conditions of the holder's own conditionals (not nested ones). */
  function TopDamageErrors(holder: IrNode, actions: seq<IrNode>): seq<Diagnostic>
  {
    if |actions| == 0 then []
    else
      var a := actions[|actions| - 1];
      TopDamageErrors(holder, actions[..|actions| - 1])
      + (if IsA(a, CONDITIONAL) then DamageErrors(holder, ActionsOf(a, "conditions")) else [])
  }

  /** `checkHolderContext` (src/validate/context.ts:12-29): nothing without
    * actions; only the exit check for a holder of unknown type. */
  function HolderContext(holder: IrNode): seq<Diagnostic>
  {
    if "actions" !in IrKeys(holder) then []
    else
      var actions := ActionsOf(holder, "actions");
      ExitErrors(actions)
      + (if holder.tag == Hold(UNKNOWN) then []
         else CancelErrors(holder, actions) + TopDamageErrors(holder, actions))
  }

  /** `checkContext` (src/validate/context.ts:4-10). */
  function ContextErrors(holders: seq<IrNode>): seq<Diagnostic>
  {
    if |holders| == 0 then [] else ContextErrors(holders[..|holders| - 1]) + HolderContext(holders[|holders| - 1])
  }

  // ---------------------------------------------------------------------
  // A reference count: the actions of one type reachable through the bodies
  // of the given kinds of action

  function Reach(actions: seq<IrNode>, through: set<ActionType>, target: ActionType): nat
    decreases actions, 0
  {
    if |actions| == 0 then 0
    else Reach(actions[..|actions| - 1], through, target) + ReachOne(actions[|actions| - 1], through, target)
  }

  function ReachOne(a: IrNode, through: set<ActionType>, target: ActionType): nat
    decreases a, 3
  {
    (if IsA(a, target) then 1 else 0)
    + (if !a.tag.Act? || a.tag.a !in through then 0
       else if a.tag.a == CONDITIONAL then ReachBody(a, "ifActions", through, target) + ReachBody(a, "elseActions", through, target)
       else if a.tag.a == RANDOM then ReachBody(a, "actions", through, target)
       else 0)
  }

  function ReachBody(a: IrNode, key: string, through: set<ActionType>, target: ActionType): nat
    decreases a, 2
  {
    var i := FieldIndex(a.fields, key);
    if i >= 0 && a.fields[i].value.INodes? then Reach(a.fields[i].value.nodes, through, target) else 0
  }

  /** Every exit at the top or inside random actions is reported once;
    * exits inside conditionals are not. */
  lemma {:induction false} ExitsReported(actions: seq<IrNode>)
    ensures |ExitErrors(actions)| == Reach(actions, {RANDOM}, EXIT)
    decreases actions, 0
  {
    if |actions| > 0 {
      ExitsReported(actions[..|actions| - 1]);
      ExitOneReported(actions[|actions| - 1]);
    }
  }

  lemma {:induction false} ExitOneReported(a: IrNode)
    ensures |ExitOne(a)| == ReachOne(a, {RANDOM}, EXIT)
    decreases a, 2
  {
    var i := FieldIndex(a.fields, "actions");
    if IsA(a, RANDOM) && i >= 0 && a.fields[i].value.INodes? {
      ExitsReported(a.fields[i].value.nodes);
    }
  }

  /** The exit check reports errors with the exit message and nothing else. */
  lemma {:induction false} ExitMessagesOnly(actions: seq<IrNode>)
    ensures forall d :: d in ExitErrors(actions) ==> d.message == EXIT_MESSAGE && d.level == Error
    decreases actions, 0
  {
    if |actions| > 0 {
      ExitMessagesOnly(actions[..|actions| - 1]);
      ExitOneMessages(actions[|actions| - 1]);
    }
  }

  lemma {:induction false} ExitOneMessages(a: IrNode)
    ensures forall d :: d in ExitOne(a) ==> d.message == EXIT_MESSAGE && d.level == Error
    decreases a, 2
  {
    var i := FieldIndex(a.fields, "actions");
    if IsA(a, RANDOM) && i >= 0 && a.fields[i].value.INodes? {
      ExitMessagesOnly(a.fields[i].value.nodes);
    }
  }

  /** Outside an event every cancel-event at any depth is reported once; in
    * an event none is. */
  lemma {:induction false} CancelsReported(holder: IrNode, actions: seq<IrNode>)
    ensures |CancelErrors(holder, actions)| == if IsEvent(holder) then 0 else Reach(actions, {CONDITIONAL, RANDOM}, CANCEL_EVENT)
    decreases actions, 0
  {
    if |actions| > 0 {
      CancelsReported(holder, actions[..|actions| - 1]);
      CancelOneReported(holder, actions[|actions| - 1]);
    }
  }

  lemma {:induction false} CancelOneReported(holder: IrNode, a: IrNode)
    ensures |CancelOne(holder, a)| == if IsEvent(holder) then 0 else ReachOne(a, {CONDITIONAL, RANDOM}, CANCEL_EVENT)
    decreases a, 2
  {
    if IsA(a, CONDITIONAL) {
      CancelBodyReported(holder, a, "ifActions");
      CancelBodyReported(holder, a, "elseActions");
    } else if IsA(a, RANDOM) {
      CancelBodyReported(holder, a, "actions");
    }
  }

  lemma {:induction false} CancelBodyReported(holder: IrNode, a: IrNode, key: string)
    ensures |CancelBody(holder, a, key)| == if IsEvent(holder) then 0 else ReachBody(a, key, {CONDITIONAL, RANDOM}, CANCEL_EVENT)
    decreases a, 1
  {
    var i := FieldIndex(a.fields, key);
    if i >= 0 && a.fields[i].value.INodes? {
      CancelsReported(holder, a.fields[i].value.nodes);
    }
  }

  /** The number of damage-amount conditions in a list. */
  function DamageConditions(conditions: seq<IrNode>): nat
  {
    if |conditions| == 0 then 0
    else DamageConditions(conditions[..|conditions| - 1]) + (if conditions[|conditions| - 1].tag == Cond(COMPARE_DAMAGE) then 1 else 0)
  }

  /** In the Player Damage event the damage condition is accepted; anywhere
    * else each one is reported. */
  lemma {:induction false} DamageReported(holder: IrNode, conditions: seq<IrNode>)
    ensures |DamageErrors(holder, conditions)| == if IsPlayerDamage(holder) then 0 else DamageConditions(conditions)
  {
    if |conditions| > 0 {
      DamageReported(holder, conditions[..|conditions| - 1]);
    }
  }

  /** A holder of unknown type is only checked for exits. */
  lemma UnknownHolderOnlyExits(holder: IrNode)
    requires holder.tag == Hold(UNKNOWN)
    ensures HolderContext(holder) == ExitErrors(ActionsOf(holder, "actions"))
  {
  }

  // ---------------------------------------------------------------------
  // The pass

  /** `checkExitActions`. */
  method CheckExitActions(result: ParseResult, actions: seq<IrNode>)
    modifies result
    ensures result.diagnostics == old(result.diagnostics) + ExitErrors(actions)
    decreases actions, 0
  {
    var i := 0;
    while i < |actions|
      invariant 0 <= i <= |actions|
      invariant result.diagnostics == old(result.diagnostics) + ExitErrors(actions[..i])
    {
      assert actions[..i + 1][..i] == actions[..i];
      AppendAssoc(old(result.diagnostics), ExitErrors(actions[..i]), ExitOne(actions[i]));
      CheckExitOne(result, actions[i]);
      i := i + 1;
    }
    assert actions[..i] == actions;
  }

  /** One action of `checkExitActions`. */
  method CheckExitOne(result: ParseResult, a: IrNode)
    modifies result
    ensures result.diagnostics == old(result.diagnostics) + ExitOne(a)
    decreases a, 2
  {
    ghost var own: seq<Diagnostic> := if IsA(a, EXIT) then [ErrorAt(EXIT_MESSAGE, a.kwSpan)] else [];
    ghost var body: seq<Diagnostic> := if IsA(a, RANDOM) then ExitBody(a, "actions") else [];
    if IsA(a, EXIT) {
      result.Push(ErrorAt(EXIT_MESSAGE, a.kwSpan));
    }
    assert result.diagnostics == old(result.diagnostics) + own;
    if IsA(a, RANDOM) {
      CheckExitBody(result, a, "actions");
    }
    assert result.diagnostics == old(result.diagnostics) + own + body;
    AppendAssoc(old(result.diagnostics), own, body);
  }

  method CheckExitBody(result: ParseResult, a: IrNode, key: string)
    modifies result
    ensures result.diagnostics == old(result.diagnostics) + ExitBody(a, key)
    decreases a, 1
  {
    var i := FieldIndex(a.fields, key);
    if i >= 0 && a.fields[i].value.INodes? {
      CheckExitActions(result, a.fields[i].value.nodes);
    }
  }

  /** `checkActionContext`. */
  method CheckActionContext(result: ParseResult, holder: IrNode, actions: seq<IrNode>)
    modifies result
    ensures result.diagnostics == old(result.diagnostics) + CancelErrors(holder, actions)
    decreases actions, 0
  {
    var i := 0;
    while i < |actions|
      invariant 0 <= i <= |actions|
      invariant result.diagnostics == old(result.diagnostics) + CancelErrors(holder, actions[..i])
    {
      assert actions[..i + 1][..i] == actions[..i];
      AppendAssoc(old(result.diagnostics), CancelErrors(holder, actions[..i]), CancelOne(holder, actions[i]));
      CheckCancelOne(result, holder, actions[i]);
      i := i + 1;
    }
    assert actions[..i] == actions;
  }

  /** One action of `checkActionContext`. */
  method CheckCancelOne(result: ParseResult, holder: IrNode, a: IrNode)
    modifies result
    ensures result.diagnostics == old(result.diagnostics) + CancelOne(holder, a)
    decreases a, 3
  {
    if IsA(a, CONDITIONAL) {
      CheckCancelBody(result, holder, a, "ifActions");
      CheckCancelBody(result, holder, a, "elseActions");
      AppendAssoc(old(result.diagnostics), CancelBody(holder, a, "ifActions"), CancelBody(holder, a, "elseActions"));
    } else if IsA(a, RANDOM) {
      CheckCancelBody(result, holder, a, "actions");
    }
    if IsA(a, CANCEL_EVENT) && !IsEvent(holder) {
      AppendAssoc(old(result.diagnostics), CancelInner(holder, a), [ErrorAt(CANCEL_MESSAGE, a.kwSpan)]);
      result.Push(ErrorAt(CANCEL_MESSAGE, a.kwSpan));
    }
  }

  method CheckCancelBody(result: ParseResult, holder: IrNode, a: IrNode, key: string)
    modifies result
    ensures result.diagnostics == old(result.diagnostics) + CancelBody(holder, a, key)
    decreases a, 1
  {
    var i := FieldIndex(a.fields, key);
    if i >= 0 && a.fields[i].value.INodes? {
      CheckActionContext(result, holder, a.fields[i].value.nodes);
    }
  }

  /** `checkConditionalContext`. */
  method CheckConditionalContext(result: ParseResult, holder: IrNode, conditions: seq<IrNode>)
    modifies result
    ensures result.diagnostics == old(result.diagnostics) + DamageErrors(holder, conditions)
  {
    var i := 0;
    while i < |conditions|
      invariant 0 <= i <= |conditions|
      invariant result.diagnostics == old(result.diagnostics) + DamageErrors(holder, conditions[..i])
    {
      var c := conditions[i];
      assert conditions[..i + 1][..i] == conditions[..i];
      if c.tag == Cond(COMPARE_DAMAGE) && !IsPlayerDamage(holder) {
        AppendAssoc(old(result.diagnostics), DamageErrors(holder, conditions[..i]), [ErrorAt(DAMAGE_MESSAGE, c.kwSpan)]);
        result.Push(ErrorAt(DAMAGE_MESSAGE, c.kwSpan));
      }
      i := i + 1;
    }
    assert conditions[..i] == conditions;
  }

  /** The loop over the holder's own conditionals. */
  method CheckTopConditionals(result: ParseResult, holder: IrNode, actions: seq<IrNode>)
    modifies result
    ensures result.diagnostics == old(result.diagnostics) + TopDamageErrors(holder, actions)
  {
    var i := 0;
    while i < |actions|
      invariant 0 <= i <= |actions|
      invariant result.diagnostics == old(result.diagnostics) + TopDamageErrors(holder, actions[..i])
    {
      var a := actions[i];
      assert actions[..i + 1][..i] == actions[..i];
      if IsA(a, CONDITIONAL) {
        AppendAssoc(old(result.diagnostics), TopDamageErrors(holder, actions[..i]), DamageErrors(holder, ActionsOf(a, "conditions")));
        CheckConditionalContext(result, holder, ActionsOf(a, "conditions"));
      }
      i := i + 1;
    }
    assert actions[..i] == actions;
  }

  /** `checkHolderContext`. */
  method CheckHolderContext(result: ParseResult, holder: IrNode)
    modifies result
    ensures result.diagnostics == old(result.diagnostics) + HolderContext(holder)
  {
    if "actions" !in IrKeys(holder) {
      return;
    }
    var actions := ActionsOf(holder, "actions");
    CheckExitActions(result, actions);
    if holder.tag == Hold(UNKNOWN) {
      return;
    }
    ghost var afterExit := result.diagnostics;
    CheckActionContext(result, holder, actions);
    CheckTopConditionals(result, holder, actions);
    AppendAssoc(afterExit, CancelErrors(holder, actions), TopDamageErrors(holder, actions));
    AppendAssoc(old(result.diagnostics), ExitErrors(actions), CancelErrors(holder, actions) + TopDamageErrors(holder, actions));
  }

  /** `checkContext`. */
  method CheckContext(result: ParseResult)
    modifies result
    ensures result.diagnostics == old(result.diagnostics) + ContextErrors(result.holders)
  {
    var k := 0;
    while k < |result.holders|
      invariant 0 <= k <= |result.holders|
      invariant result.diagnostics == old(result.diagnostics) + ContextErrors(result.holders[..k])
    {
      assert result.holders[..k + 1][..k] == result.holders[..k];
      AppendAssoc(old(result.diagnostics), ContextErrors(result.holders[..k]), HolderContext(result.holders[k]));
      CheckHolderContext(result, result.holders[k]);
      k := k + 1;
    }
    assert result.holders[..k] == result.holders;
  }
}
