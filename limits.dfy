/** The action limits pass of src/validate/limits.ts: in every block, the
  * actions of a type beyond that type's limit are errors. */
module Limits {
  import opened Wrappers
  import opened Spans
  import opened NodeTypes
  import opened Ir
  import opened Strings
  import opened Validation

  /** ACTION_LIMITS (src/validate/limits.ts:11-51). */
  function Limit(t: ActionType): nat
  {
    match t
    case FUNCTION => 10
    case CONDITIONAL => 15
    case SET_GROUP => 1
    case KILL => 1
    case HEAL => 5
    case TITLE => 5
    case ACTION_BAR => 5
    case RESET_INVENTORY => 1
    case CHANGE_MAX_HEALTH => 5
    case GIVE_ITEM => 20
    case REMOVE_ITEM => 20
    case MESSAGE => 20
    case APPLY_POTION_EFFECT => 22
    case CLEAR_POTION_EFFECTS => 5
    case GIVE_EXPERIENCE_LEVELS => 5
    case SEND_TO_LOBBY => 1
    case CHANGE_STAT => 10
    case CHANGE_GLOBAL_STAT => 10
    case TELEPORT => 5
    case FAIL_PARKOUR => 1
    case PLAY_SOUND => 25
    case SET_COMPASS_TARGET => 5
    case SET_GAMEMODE => 1
    case CHANGE_HEALTH => 5
    case CHANGE_HUNGER => 5
    case RANDOM => 5
    case APPLY_INVENTORY_LAYOUT => 5
    case ENCHANT_HELD_ITEM => 5
    case PAUSE => 30
    case SET_TEAM => 1
    case CHANGE_TEAM_STAT => 10
    case SET_MENU => 10
    case DROP_ITEM => 5
    case SET_VELOCITY => 5
    case LAUNCH => 5
    case EXIT => 1
    case CANCEL_EVENT => 1
  }

  /** The message of an exceeded limit; `names` is the display-name table
    * of the action types, which lives outside this repository. */
  function LimitMessage(t: ActionType, names: ActionType -> string): string
  {
    "Limit of " + IntText(Limit(t)) + " " + names(t) + " actions exceeded"
  }

  /** Whether the last action of the list is beyond its type's limit: the
    * earlier actions of its type already use up the whole limit. */
  predicate OverLast(actions: seq<IrNode>)
    requires |actions| > 0
  {
    var a := actions[|actions| - 1];
    a.tag.Act? && CountOf(actions[..|actions| - 1], a.tag.a) >= Limit(a.tag.a)
  }

  /** The diagnostics of the first loop of `checkActionLimits`, in order. */
  function OverLimit(actions: seq<IrNode>, names: ActionType -> string): (r: seq<Diagnostic>)
    ensures |r| <= |actions|
  {
    if |actions| == 0 then []
    else
      var a := actions[|actions| - 1];
      OverLimit(actions[..|actions| - 1], names)
      + (if OverLast(actions) then [ErrorAt(LimitMessage(a.tag.a, names), a.span)] else [])
  }

  /** `checkActionLimits` as a value: this block's excess, then the if, else
    * and random bodies of its actions, each checked on its own. */
  function BlockLimits(actions: seq<IrNode>, names: ActionType -> string): seq<Diagnostic>
    decreases actions, 1
  {
    OverLimit(actions, names) + NestedLimits(actions, names)
  }

  /** The diagnostics of the bodies of the actions of a list, in order. */
  function NestedLimits(actions: seq<IrNode>, names: ActionType -> string): seq<Diagnostic>
    decreases actions, 0
  {
    if |actions| == 0 then []
    else NestedLimits(actions[..|actions| - 1], names) + ChildLimits(actions[|actions| - 1], names)
  }

  /** The diagnostics of the bodies of one action. */
  function ChildLimits(a: IrNode, names: ActionType -> string): seq<Diagnostic>
    decreases a, 3
  {
    if IsA(a, CONDITIONAL) then BodyLimits(a, "ifActions", names) + BodyLimits(a, "elseActions", names)
    else if IsA(a, RANDOM) then BodyLimits(a, "actions", names)
    else []
  }

  /** `BlockLimits(ActionsOf(a, key))`, written so that termination is seen. */
  function BodyLimits(a: IrNode, key: string, names: ActionType -> string): seq<Diagnostic>
    decreases a, 2
  {
    var i := FieldIndex(a.fields, key);
    if i >= 0 && a.fields[i].value.INodes? then BlockLimits(a.fields[i].value.nodes, names) else []
  }

  /** The number of actions of type `t` that the first loop reports. */
  function Reported(actions: seq<IrNode>, t: ActionType): nat
  {
    if |actions| == 0 then 0
    else Reported(actions[..|actions| - 1], t) + (if IsA(actions[|actions| - 1], t) && OverLast(actions) then 1 else 0)
  }

  /** Exactly the actions beyond the limit are reported: of `n` actions of a
    * type with limit `l`, the last `n - l` are. */
  lemma {:induction false} ReportedIsExcess(actions: seq<IrNode>, t: ActionType)
    ensures Reported(actions, t) == if CountOf(actions, t) <= Limit(t) then 0 else CountOf(actions, t) - Limit(t)
  {
    if |actions| > 0 {
      ReportedIsExcess(actions[..|actions| - 1], t);
    }
  }

  /** A block reports nothing of its own iff no type goes beyond its limit. */
  lemma {:induction false} SilentIffWithinLimits(actions: seq<IrNode>, names: ActionType -> string)
    ensures OverLimit(actions, names) == [] <==> forall t: ActionType :: CountOf(actions, t) <= Limit(t)
  {
    if |actions| > 0 {
      var init := actions[..|actions| - 1];
      var a := actions[|actions| - 1];
      SilentIffWithinLimits(init, names);
      forall t: ActionType
        ensures CountOf(init, t) <= CountOf(actions, t)
        ensures !IsA(a, t) ==> CountOf(init, t) == CountOf(actions, t)
      {
      }
      if OverLimit(actions, names) == [] {
        assert OverLimit(init, names) == [];
        assert !OverLast(actions);
        forall t: ActionType
          ensures CountOf(actions, t) <= Limit(t)
        {
          assert CountOf(init, t) <= Limit(t);
        }
      } else if OverLimit(init, names) != [] {
        var t: ActionType :| CountOf(init, t) > Limit(t);
        assert CountOf(actions, t) > Limit(t);
      } else {
        assert OverLast(actions);
        assert CountOf(actions, a.tag.a) > Limit(a.tag.a);
      }
    }
  }

  /** `checkActionLimits` (src/validate/limits.ts:53-73). The counters start
    * from a copy of the limit table and count down; a counter at zero or
    * below reports the action. */
  method CheckActionLimits(result: ParseResult, actions: seq<IrNode>, names: ActionType -> string)
    modifies result
    ensures result.diagnostics == old(result.diagnostics) + BlockLimits(actions, names)
    decreases actions, 1
  {
    CountDown(result, actions, names);
    ghost var start := result.diagnostics;
    var i := 0;
    while i < |actions|
      invariant 0 <= i <= |actions|
      invariant result.diagnostics == start + NestedLimits(actions[..i], names)
    {
      var a := actions[i];
      ghost var before := result.diagnostics;
      NestedLimitsStep(actions, i, names);
      if IsA(a, CONDITIONAL) {
        CheckBody(result, a, "ifActions", names);
        CheckBody(result, a, "elseActions", names);
        AppendAssoc(before, BodyLimits(a, "ifActions", names), BodyLimits(a, "elseActions", names));
      } else if IsA(a, RANDOM) {
        CheckBody(result, a, "actions", names);
      }
      AppendAssoc(start, NestedLimits(actions[..i], names), ChildLimits(a, names));
      i := i + 1;
    }
    assert actions[..i] == actions;
    AppendAssoc(old(result.diagnostics), OverLimit(actions, names), NestedLimits(actions, names));
  }

  /** The first loop of `checkActionLimits`. */
  method CountDown(result: ParseResult, actions: seq<IrNode>, names: ActionType -> string)
    modifies result
    ensures result.diagnostics == old(result.diagnostics) + OverLimit(actions, names)
  {
    var limits: map<ActionType, int> := map t: ActionType | true :: Limit(t);
    var i := 0;
    while i < |actions|
      invariant 0 <= i <= |actions|
      invariant forall t: ActionType :: t in limits && limits[t] == Limit(t) - CountOf(actions[..i], t)
      invariant result.diagnostics == old(result.diagnostics) + OverLimit(actions[..i], names)
    {
      var a := actions[i];
      assert actions[..i + 1][..i] == actions[..i];
      if a.tag.Act? {
        if limits[a.tag.a] <= 0 {
          AppendAssoc(old(result.diagnostics), OverLimit(actions[..i], names), [ErrorAt(LimitMessage(a.tag.a, names), a.span)]);
          result.Push(ErrorAt(LimitMessage(a.tag.a, names), a.span));
        }
        limits := limits[a.tag.a := limits[a.tag.a] - 1];
      }
      i := i + 1;
    }
    assert actions[..i] == actions;
  }

  lemma NestedLimitsStep(actions: seq<IrNode>, i: nat, names: ActionType -> string)
    requires i < |actions|
    ensures NestedLimits(actions[..i + 1], names) == NestedLimits(actions[..i], names) + ChildLimits(actions[i], names)
  {
    assert actions[..i + 1][..i] == actions[..i];
  }

  lemma HolderLimitsStep(holders: seq<IrNode>, i: nat, names: ActionType -> string)
    requires i < |holders|
    ensures HolderLimits(holders[..i + 1], names) == HolderLimits(holders[..i], names) + BlockLimits(ActionsOf(holders[i], "actions"), names)
  {
    assert holders[..i + 1][..i] == holders[..i];
  }

  /** `checkActionLimits(result, a.key?.value ?? [])`. */
  method CheckBody(result: ParseResult, a: IrNode, key: string, names: ActionType -> string)
    modifies result
    ensures result.diagnostics == old(result.diagnostics) + BodyLimits(a, key, names)
    decreases a, 2
  {
    var i := FieldIndex(a.fields, key);
    if i >= 0 && a.fields[i].value.INodes? {
      CheckActionLimits(result, a.fields[i].value.nodes, names);
    }
  }

  /** `checkLimits` as written (src/validate/limits.ts:5-9): it reads
    * `holder.actions.value` without a `?.`, so a holder whose actions were
    * never read (its name failed to parse) throws; `None` is the throw. */
  function LimitsAsWritten(holders: seq<IrNode>, names: ActionType -> string): Option<seq<Diagnostic>>
  {
    if |holders| == 0 then Some([])
    else
      var h := holders[|holders| - 1];
      var init := LimitsAsWritten(holders[..|holders| - 1], names);
      if init.None? || "actions" !in IrKeys(h) then None
      else Some(init.value + BlockLimits(ActionsOf(h, "actions"), names))
  }

  /** The pass as written throws iff some holder has no actions field. */
  lemma {:induction false} AsWrittenThrowsIff(holders: seq<IrNode>, names: ActionType -> string)
    ensures LimitsAsWritten(holders, names).None? <==> exists k :: 0 <= k < |holders| && "actions" !in IrKeys(holders[k])
  {
    if |holders| > 0 {
      var init := holders[..|holders| - 1];
      AsWrittenThrowsIff(init, names);
      assert forall k :: 0 <= k < |init| ==> init[k] == holders[k];
    }
  }

  /** A `goto function` whose name is a number keeps no actions field, and
    * the limits pass then throws. */
  lemma HolderWithoutActionsThrows(names: ActionType -> string)
    ensures LimitsAsWritten([IrNode(Hold(FUNCTION_HOLDER), Span(0, 4), [], Span(0, 15))], names).None?
  {
    var h := IrNode(Hold(FUNCTION_HOLDER), Span(0, 4), [], Span(0, 15));
    assert "actions" !in IrKeys(h);
  }

  /** The limits of every holder, skipping those without actions as the
    * other passes do. */
  function HolderLimits(holders: seq<IrNode>, names: ActionType -> string): seq<Diagnostic>
  {
    if |holders| == 0 then []
    else HolderLimits(holders[..|holders| - 1], names) + BlockLimits(ActionsOf(holders[|holders| - 1], "actions"), names)
  }

  /** The corrected pass agrees with the pass as written wherever that one
    * does not throw. */
  lemma {:induction false} CorrectedAgrees(holders: seq<IrNode>, names: ActionType -> string)
    ensures LimitsAsWritten(holders, names).Some? ==> LimitsAsWritten(holders, names) == Some(HolderLimits(holders, names))
  {
    if |holders| > 0 {
      CorrectedAgrees(holders[..|holders| - 1], names);
    }
  }

  /** `checkLimits`, with `holder.actions?.value ?? []`. */
  method CheckLimits(result: ParseResult, names: ActionType -> string)
    modifies result
    ensures result.diagnostics == old(result.diagnostics) + HolderLimits(result.holders, names)
  {
    var i := 0;
    while i < |result.holders|
      invariant 0 <= i <= |result.holders|
      invariant result.diagnostics == old(result.diagnostics) + HolderLimits(result.holders[..i], names)
    {
      HolderLimitsStep(result.holders, i, names);
      AppendAssoc(old(result.diagnostics), HolderLimits(result.holders[..i], names), BlockLimits(ActionsOf(result.holders[i], "actions"), names));
      CheckActionLimits(result, ActionsOf(result.holders[i], "actions"), names);
      i := i + 1;
    }
    assert result.holders[..i] == result.holders;
  }
}
