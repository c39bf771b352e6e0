/** The inlay hints of the editors (editors/common/src/inlayHints.ts): one
  * label per field of every action and condition of the parsed holders,
  * placed at the field's span. A field of the IR is always an object
  * `{ value, span }`, which JavaScript finds truthy, so no field is skipped
  * for being absent. */
module InlayHints {
  import opened Wrappers
  import opened Spans
  import opened NodeTypes
  import opened Ir
  import opened Validation

  datatype InlayHint = InlayHint(text: string, span: Span)

  /** The actions whose fields get no hints
    * (editors/common/src/inlayHints.ts:30-34). */
  predicate IsStat(a: IrNode)
  {
    a.tag == Act(CHANGE_STAT) || a.tag == Act(CHANGE_TEAM_STAT) || a.tag == Act(CHANGE_GLOBAL_STAT)
  }

  /** The keys whose fields get no hint of their own
    * (editors/common/src/inlayHints.ts:46). */
  predicate IsBodyKey(key: string)
  {
    key == "ifActions" || key == "elseActions"
  }

  /** One hint per field, labelled with its name: the reference the hint
    * functions below are proved against. */
  function Labelled(fs: seq<Field>): (r: seq<InlayHint>)
    ensures |r| == |fs| && forall i :: 0 <= i < |fs| ==> r[i] == InlayHint(fs[i].name, fs[i].span)
  {
    seq(|fs|, i requires 0 <= i < |fs| => InlayHint(fs[i].name, fs[i].span))
  }

  /** The hints of the fields of one node in key order, leaving out the
    * `ifActions` and `elseActions` fields when `skipBodies`
    * (editors/common/src/inlayHints.ts:45-53, 65-71). */
  function FieldHints(fs: seq<Field>, skipBodies: bool): (r: seq<InlayHint>)
    ensures |r| <= |fs|
    ensures !skipBodies ==> r == Labelled(fs)
    ensures (forall i :: 0 <= i < |fs| ==> !IsBodyKey(fs[i].name)) ==> r == Labelled(fs)
    ensures skipBodies ==> forall k :: 0 <= k < |r| ==> !IsBodyKey(r[k].text)
  {
    if |fs| == 0 then []
    else
      var f := fs[|fs| - 1];
      var init := FieldHints(fs[..|fs| - 1], skipBodies);
      assert Labelled(fs) == Labelled(fs[..|fs| - 1]) + [InlayHint(f.name, f.span)];
      init + (if skipBodies && IsBodyKey(f.name) then [] else [InlayHint(f.name, f.span)])
  }

  /** One more field of a node adds its hint, or none for a skipped body. */
  lemma FieldHintsSnoc(fs: seq<Field>, i: int, skipBodies: bool)
    requires 0 <= i < |fs|
    ensures FieldHints(fs[..i + 1], skipBodies) == FieldHints(fs[..i], skipBodies)
      + (if skipBodies && IsBodyKey(fs[i].name) then [] else [InlayHint(fs[i].name, fs[i].span)])
  {
    assert fs[..i + 1][..i] == fs[..i];
  }

  /** `provideInlayHintsForConditions` as a value
    * (editors/common/src/inlayHints.ts:59-75): every field of every
    * condition, `inverted` included. */
  function ConditionsHints(cs: seq<IrNode>): (r: seq<InlayHint>)
  {
    if |cs| == 0 then [] else ConditionsHints(cs[..|cs| - 1]) + Labelled(cs[|cs| - 1].fields)
  }

  /** `provideInlayHintsForActions` as a value
    * (editors/common/src/inlayHints.ts:24-57). */
  function ActionsHints(actions: seq<IrNode>): (r: seq<InlayHint>)
    decreases actions, 0
  {
    if |actions| == 0 then []
    else ActionsHints(actions[..|actions| - 1]) + ActionHints(actions[|actions| - 1])
  }

  /** The hints of one action: none for a stat change; otherwise the hints
    * of its conditions and bodies, then those of its own fields. */
  function ActionHints(a: IrNode): (r: seq<InlayHint>)
    ensures IsStat(a) ==> r == []
    decreases a, 3
  {
    if IsStat(a) then [] else NestedHints(a) + FieldHints(a.fields, true)
  }

  /** The hints from inside a conditional (its conditions, then its if and
    * else bodies) or a random action (its body). */
  function NestedHints(a: IrNode): seq<InlayHint>
    decreases a, 2
  {
    if IsA(a, CONDITIONAL) then
      ConditionsHints(ActionsOf(a, "conditions")) + BodyHints(a, "ifActions") + BodyHints(a, "elseActions")
    else if IsA(a, RANDOM) then BodyHints(a, "actions")
    else []
  }

  /** `provideInlayHintsForActions(action.key?.value ?? [])`. */
  function BodyHints(a: IrNode, key: string): seq<InlayHint>
    decreases a, 1
  {
    var i := FieldIndex(a.fields, key);
    if i >= 0 && a.fields[i].value.INodes? then ActionsHints(a.fields[i].value.nodes) else []
  }

  /** `provideInlayHints` as a value (editors/common/src/inlayHints.ts:12-22):
    * the hints of every holder's actions, holder after holder. */
  function HoldersHints(holders: seq<IrNode>): seq<InlayHint>
  {
    Flatten(holders, HolderHints)
  }

  /** The hints of every node of a list, one node after the other. */
  function Flatten(ns: seq<IrNode>, f: IrNode -> seq<InlayHint>): seq<InlayHint>
  {
    if |ns| == 0 then [] else Flatten(ns[..|ns| - 1], f) + f(ns[|ns| - 1])
  }

  /** `provideInlayHintsForActions(holders.actions?.value ?? [])`. */
  function HolderHints(h: IrNode): seq<InlayHint>
  {
    ActionsHints(ActionsOf(h, "actions"))
  }

  // ---------------------------------------------------------------------
  // Laws

  /** The hints of a list of actions are those of each action, in order. */
  lemma {:induction false} ActionsHintsFlatten(actions: seq<IrNode>)
    ensures ActionsHints(actions) == Flatten(actions, ActionHints)
    decreases |actions|
  {
    if |actions| > 0 {
      ActionsHintsFlatten(actions[..|actions| - 1]);
    }
  }

  /** The hints of two lists of actions, one after the other, are the hints
    * of the first list, then those of the second. */
  lemma ActionsHintsAppend(xs: seq<IrNode>, ys: seq<IrNode>)
    ensures ActionsHints(xs + ys) == ActionsHints(xs) + ActionsHints(ys)
  {
    ActionsHintsFlatten(xs);
    ActionsHintsFlatten(ys);
    ActionsHintsFlatten(xs + ys);
    FlattenAppend(xs, ys, ActionHints);
  }

  /** Likewise for any per-node hints, holders among them. */
  lemma {:induction false} FlattenAppend(xs: seq<IrNode>, ys: seq<IrNode>, f: IrNode -> seq<InlayHint>)
    ensures Flatten(xs + ys, f) == Flatten(xs, f) + Flatten(ys, f)
    decreases |ys|
  {
    if |ys| == 0 {
      assert xs + ys == xs;
    } else {
      var init, last := ys[..|ys| - 1], ys[|ys| - 1];
      assert (xs + ys)[..|xs + ys| - 1] == xs + init;
      FlattenAppend(xs, init, f);
    }
  }

  lemma HoldersHintsAppend(xs: seq<IrNode>, ys: seq<IrNode>)
    ensures HoldersHints(xs + ys) == HoldersHints(xs) + HoldersHints(ys)
  {
    FlattenAppend(xs, ys, HolderHints);
  }

  lemma LastSplit(xs: seq<IrNode>, ys: seq<IrNode>)
    requires |ys| > 0
    ensures xs + ys == (xs + ys[..|ys| - 1]) + [ys[|ys| - 1]]
  {
  }

  /** An action that is neither a stat change, a conditional nor a random
    * action, and has no body keys, gets exactly one hint per field. */
  lemma PlainActionHints(a: IrNode)
    requires !IsStat(a) && !IsA(a, CONDITIONAL) && !IsA(a, RANDOM)
    requires forall i :: 0 <= i < |a.fields| ==> !IsBodyKey(a.fields[i].name)
    ensures ActionHints(a) == Labelled(a.fields)
  {
  }

  /** A stat change anywhere in a list adds no hint: the list has the hints
    * it would have without it. */
  lemma StatActionSilent(xs: seq<IrNode>, a: IrNode, ys: seq<IrNode>)
    requires IsStat(a)
    ensures ActionsHints(xs + [a] + ys) == ActionsHints(xs + ys)
  {
    ActionsHintsAppend(xs + [a], ys);
    ActionsHintsAppend(xs, [a]);
    ActionsHintsAppend(xs, ys);
    assert [a][..0] == [];
  }

  /** The hints of one condition are all its fields, in key order. */
  lemma OneConditionHints(c: IrNode)
    ensures ConditionsHints([c]) == Labelled(c.fields)
  {
    assert [c][..0] == [];
  }

  // ---------------------------------------------------------------------
  // The traversal

  /** `provideInlayHints` (editors/common/src/inlayHints.ts:12-22), on the
    * holders `parseFromString` returns. */
  method ProvideInlayHints(holders: seq<IrNode>) returns (hints: seq<InlayHint>)
    ensures hints == HoldersHints(holders)
  {
    hints := [];
    var k := 0;
    while k < |holders|
      invariant 0 <= k <= |holders|
      invariant hints == HoldersHints(holders[..k])
    {
      assert holders[..k + 1][..k] == holders[..k];
      var more := ProvideInlayHintsForActions(ActionsOf(holders[k], "actions"));
      hints := hints + more;
      k := k + 1;
    }
    assert holders[..k] == holders;
  }

  /** `provideInlayHintsForActions` (editors/common/src/inlayHints.ts:24-57). */
  method ProvideInlayHintsForActions(actions: seq<IrNode>) returns (hints: seq<InlayHint>)
    ensures hints == ActionsHints(actions)
    decreases actions, 0
  {
    hints := [];
    var i := 0;
    while i < |actions|
      invariant 0 <= i <= |actions|
      invariant hints == ActionsHints(actions[..i])
    {
      assert actions[..i + 1][..i] == actions[..i];
      var more := HintsForAction(actions[i]);
      hints := hints + more;
      i := i + 1;
    }
    assert actions[..i] == actions;
  }

  /** One round of the loop of editors/common/src/inlayHints.ts:30-54. */
  method HintsForAction(a: IrNode) returns (hints: seq<InlayHint>)
    ensures hints == ActionHints(a)
    decreases a, 3
  {
    if IsStat(a) {
      return [];
    }
    var nested := HintsNested(a);
    var own := HintsForKeys(a);
    hints := nested + own;
  }

  /** The key loop of editors/common/src/inlayHints.ts:45-53. */
  method HintsForKeys(a: IrNode) returns (hints: seq<InlayHint>)
    ensures hints == FieldHints(a.fields, true)
  {
    hints := [];
    var keys := IrKeys(a);
    var i := 0;
    while i < |keys|
      invariant 0 <= i <= |keys|
      invariant hints == FieldHints(a.fields[..i], true)
    {
      FieldHintsSnoc(a.fields, i, true);
      var key := keys[i];
      if !IsBodyKey(key) {
        hints := hints + [InlayHint(key, a.fields[i].span)];
      }
      i := i + 1;
    }
    assert a.fields[..i] == a.fields;
  }

  /** The recursive calls for a conditional or random action
    * (editors/common/src/inlayHints.ts:36-43). */
  method HintsNested(a: IrNode) returns (hints: seq<InlayHint>)
    ensures hints == NestedHints(a)
    decreases a, 2
  {
    hints := [];
    if IsA(a, CONDITIONAL) {
      hints := ProvideInlayHintsForConditions(ActionsOf(a, "conditions"));
      var ifHints := HintsInBody(a, "ifActions");
      var elseHints := HintsInBody(a, "elseActions");
      hints := hints + ifHints + elseHints;
    } else if IsA(a, RANDOM) {
      hints := HintsInBody(a, "actions");
    }
  }

  method HintsInBody(a: IrNode, key: string) returns (hints: seq<InlayHint>)
    ensures hints == BodyHints(a, key)
    decreases a, 1
  {
    hints := [];
    var i := FieldIndex(a.fields, key);
    if i >= 0 && a.fields[i].value.INodes? {
      hints := ProvideInlayHintsForActions(a.fields[i].value.nodes);
    }
  }

  /** `provideInlayHintsForConditions` (editors/common/src/inlayHints.ts:59-75). */
  method ProvideInlayHintsForConditions(cs: seq<IrNode>) returns (hints: seq<InlayHint>)
    ensures hints == ConditionsHints(cs)
  {
    hints := [];
    var j := 0;
    while j < |cs|
      invariant 0 <= j <= |cs|
      invariant hints == ConditionsHints(cs[..j])
    {
      assert cs[..j + 1][..j] == cs[..j];
      var fs := cs[j].fields;
      ghost var before := hints;
      var i := 0;
      while i < |fs|
        invariant 0 <= i <= |fs|
        invariant hints == before + Labelled(fs[..i])
      {
        assert Labelled(fs[..i + 1]) == Labelled(fs[..i]) + [InlayHint(fs[i].name, fs[i].span)];
        hints := hints + [InlayHint(fs[i].name, fs[i].span)];
        i := i + 1;
      }
      assert fs[..i] == fs;
      j := j + 1;
    }
    assert cs[..j] == cs;
  }
}
