/** The function-cooldown pass of src/validate/cooldowns.ts: calling a
  * function again before anything pauses warns that the call will never
  * run. The cooldown object becomes a map from function name to the
  * `global` flag of the call that put it on cooldown. */
module Cooldowns {
  import opened Wrappers
  import opened Spans
  import opened NodeTypes
  import opened Ir
  import opened Strings
  import opened Validation

  type Cooldowns = map<string, bool>

  /** The diagnostics of a stretch of actions, and the cooldowns after it. */
  datatype Flow = Flow(diags: seq<Diagnostic>, after: Cooldowns)

  const NEVER_RUN := "Function will never run"

  /** `String(value)` of a leaf, the key an object is indexed with. */
  function PropertyKey(p: Prim): string
  {
    match p
    case PUndefined => "undefined"
    case PNull => "null"
    case PBool(b) => if b then "true" else "false"
    case PInt(i) => IntText(i)
    case PStr(s) => s
    case PFloat(raw) => raw
    case PLocation(_) => "[object Object]"
  }

  /** `action.function.value` as a key, or `None` when the field is absent
    * (src/validate/cooldowns.ts:32-34). */
  function FunctionName(a: IrNode): (r: Option<string>)
    ensures r.None? <==> "function" !in FieldNames(a.fields)
  {
    match FieldValue(a.fields, "function")
    case None => None
    case Some(IPrim(p)) => Some(PropertyKey(p))
    case Some(INodes(_)) => Some("")
  }

  /** `action.global?.value ?? d`: the flag, or `d` when it is absent, null
    * or undefined. */
  function GlobalOr(a: IrNode, d: bool): bool
  {
    match FieldValue(a.fields, "global")
    case Some(IPrim(PBool(b))) => b
    case _ => d
  }

  /** Whether a call of `name` warns: the name is on cooldown, and not both
    * the recorded call was local and this one global
    * (src/validate/cooldowns.ts:36-41). */
  predicate Warns(name: string, cd: Cooldowns, global: bool)
  {
    name in cd && !(!cd[name] && global)
  }

  /** "Some direct child of the list is a PAUSE". */
  predicate HasPause(xs: seq<IrNode>)
  {
    exists k :: 0 <= k < |xs| && IsA(xs[k], PAUSE)
  }

  /** `doesActionPause` (src/validate/cooldowns.ts:55-77), as a property. */
  predicate DoesPause(a: IrNode)
  {
    || IsA(a, PAUSE)
    || (IsA(a, RANDOM) && HasPause(ActionsOf(a, "actions")))
    || (IsA(a, CONDITIONAL) && (HasPause(ActionsOf(a, "ifActions")) || HasPause(ActionsOf(a, "elseActions"))))
  }

  // ---------------------------------------------------------------------
  // `checkCooldownsForActions` as a value

  /** The actions of a list, in order, each seeing the cooldowns the
    * previous one left. */
  function Run(actions: seq<IrNode>, cd: Cooldowns): Flow
    decreases actions, 0
  {
    if |actions| == 0 then Flow([], cd)
    else
      var s := Step(actions[0], cd);
      var rest := Run(actions[1..], s.after);
      Flow(s.diags + rest.diags, rest.after)
  }

  /** One action: what it does itself, then the reset after a pause
    * (src/validate/cooldowns.ts:49-51). */
  function Step(a: IrNode, cd: Cooldowns): Flow
    decreases a, 3
  {
    var own := Own(a, cd);
    Flow(own.diags, if DoesPause(a) then map[] else own.after)
  }

  /** The body of the loop of `checkCooldownsForActions` before the pause
    * check (src/validate/cooldowns.ts:20-47). The branches and the random
    * sub-actions work on copies, so they leave the cooldowns as they were. */
  function Own(a: IrNode, cd: Cooldowns): Flow
    decreases a, 2
  {
    if IsA(a, CONDITIONAL) then Flow(BodyRun(a, "ifActions", cd) + BodyRun(a, "elseActions", cd), cd)
    else if IsA(a, RANDOM) then Flow(EachRun(a, "actions", cd), cd)
    else if IsA(a, FUNCTION) then
      match FunctionName(a)
      case None => Flow([], cd)
      case Some(name) =>
        if Warns(name, cd, GlobalOr(a, true)) then Flow([WarnAt(NEVER_RUN, a.span)], cd)
        else Flow([], cd[name := GlobalOr(a, false)])
    else Flow([], cd)
  }

  /** A body checked with a copy of the cooldowns. */
  function BodyRun(a: IrNode, key: string, cd: Cooldowns): seq<Diagnostic>
    decreases a, 1
  {
    var i := FieldIndex(a.fields, key);
    if i >= 0 && a.fields[i].value.INodes? then Run(a.fields[i].value.nodes, cd).diags else []
  }

  /** The sub-actions of a random action, each checked alone with its own
    * copy of the cooldowns. */
  function EachRun(a: IrNode, key: string, cd: Cooldowns): seq<Diagnostic>
    decreases a, 1
  {
    var i := FieldIndex(a.fields, key);
    if i >= 0 && a.fields[i].value.INodes? then Each(a.fields[i].value.nodes, cd) else []
  }

  /** Checking `[x]` with a copy of the cooldowns is one step whose
    * cooldowns are dropped (see `SingletonIsStep`). */
  function Each(subs: seq<IrNode>, cd: Cooldowns): seq<Diagnostic>
    decreases subs, 0
  {
    if |subs| == 0 then [] else Step(subs[0], cd).diags + Each(subs[1..], cd)
  }

  /** `checkCooldowns` (src/validate/cooldowns.ts:8-12): every holder starts
    * with no cooldowns. */
  function HolderCooldowns(holders: seq<IrNode>): seq<Diagnostic>
  {
    if |holders| == 0 then []
    else HolderCooldowns(holders[..|holders| - 1]) + Run(ActionsOf(holders[|holders| - 1], "actions"), map[]).diags
  }

  // ---------------------------------------------------------------------
  // Properties

  /** The first call of a function in a stretch never warns. */
  lemma FirstCallNeverWarns(name: string, global: bool)
    ensures !Warns(name, map[], global)
  {
  }

  /** A call warns only about a name an earlier call in the same stretch
    * recorded: the warning names a function already on cooldown. */
  lemma WarnsOnlyRecorded(name: string, cd: Cooldowns, global: bool)
    ensures Warns(name, cd, global) ==> name in cd
    ensures name in cd && cd[name] ==> Warns(name, cd, global)
    ensures name in cd && !global ==> Warns(name, cd, global)
  {
  }

  /** The pass only warns, and always with the same message. */
  lemma {:induction false} OnlyNeverRunWarnings(actions: seq<IrNode>, cd: Cooldowns)
    ensures forall d :: d in Run(actions, cd).diags ==> d.message == NEVER_RUN && d.level == Warning
    decreases actions, 0
  {
    if |actions| > 0 {
      OneWarnings(actions[0], cd);
      OnlyNeverRunWarnings(actions[1..], Step(actions[0], cd).after);
    }
  }

  lemma {:induction false} OneWarnings(a: IrNode, cd: Cooldowns)
    ensures forall d :: d in Step(a, cd).diags ==> d.message == NEVER_RUN && d.level == Warning
    decreases a, 3
  {
    assert Step(a, cd).diags == Own(a, cd).diags;
    OwnWarnings(a, cd);
  }

  lemma {:induction false} OwnWarnings(a: IrNode, cd: Cooldowns)
    ensures forall d :: d in Own(a, cd).diags ==> d.message == NEVER_RUN && d.level == Warning
    decreases a, 2
  {
    if IsA(a, CONDITIONAL) {
      BodyWarnings(a, "ifActions", cd);
      BodyWarnings(a, "elseActions", cd);
    } else if IsA(a, RANDOM) {
      var i := FieldIndex(a.fields, "actions");
      if i >= 0 && a.fields[i].value.INodes? {
        EachWarnings(a.fields[i].value.nodes, cd);
      }
    }
  }

  lemma {:induction false} BodyWarnings(a: IrNode, key: string, cd: Cooldowns)
    ensures forall d :: d in BodyRun(a, key, cd) ==> d.message == NEVER_RUN && d.level == Warning
    decreases a, 1
  {
    var i := FieldIndex(a.fields, key);
    if i >= 0 && a.fields[i].value.INodes? {
      OnlyNeverRunWarnings(a.fields[i].value.nodes, cd);
    }
  }

  lemma {:induction false} EachWarnings(subs: seq<IrNode>, cd: Cooldowns)
    ensures forall d :: d in Each(subs, cd) ==> d.message == NEVER_RUN && d.level == Warning
    decreases subs, 0
  {
    if |subs| > 0 {
      OneWarnings(subs[0], cd);
      EachWarnings(subs[1..], cd);
    }
  }

  /** Whether no action of the list pauses. */
  predicate NoPause(actions: seq<IrNode>)
  {
    forall k :: 0 <= k < |actions| ==> !DoesPause(actions[k])
  }

  /** Until something pauses, a function once on cooldown stays on it. */
  lemma {:induction false} CooldownsOnlyGrow(actions: seq<IrNode>, cd: Cooldowns)
    requires NoPause(actions)
    ensures cd.Keys <= Run(actions, cd).after.Keys
    decreases |actions|
  {
    if |actions| > 0 {
      assert !DoesPause(actions[0]);
      assert NoPause(actions[1..]) by {
        forall k | 0 <= k < |actions| - 1
          ensures !DoesPause(actions[1..][k])
        {
          assert actions[1..][k] == actions[k + 1];
        }
      }
      OwnKeepsKeys(actions[0], cd);
      CooldownsOnlyGrow(actions[1..], Step(actions[0], cd).after);
    }
  }

  lemma OwnKeepsKeys(a: IrNode, cd: Cooldowns)
    ensures cd.Keys <= Own(a, cd).after.Keys
  {
  }

  /** The copy handed to `[subAction]` is the same as one step. */
  lemma SingletonIsStep(x: IrNode, cd: Cooldowns)
    ensures Run([x], cd).diags == Step(x, cd).diags
  {
    assert [x][1..] == [];
  }

  /** Nothing the branches of a conditional or the sub-actions of a random
    * action record reaches the actions after it. */
  lemma BranchesDoNotLeak(a: IrNode, cd: Cooldowns)
    requires IsA(a, CONDITIONAL) || IsA(a, RANDOM)
    ensures Step(a, cd).after == if DoesPause(a) then map[] else cd
  {
  }

  /** A pause forgets every cooldown: what comes after it is checked as if
    * the stretch started there. */
  lemma PauseForgets(actions: seq<IrNode>, cd: Cooldowns)
    requires |actions| > 0 && DoesPause(actions[0])
    ensures Run(actions, cd).diags == Step(actions[0], cd).diags + Run(actions[1..], map[]).diags
  {
  }

  /** A call with no `global` argument counts as global when it is checked
    * but as local when it is recorded, so the same call written twice in a
    * row is not warned about. */
  lemma {:induction false} PlainRepeatedCallNotWarned(a: IrNode, name: string)
    requires IsA(a, FUNCTION) && FunctionName(a) == Some(name)
    requires "global" !in FieldNames(a.fields)
    ensures Run([a, a], map[]).diags == []
  {
    assert GlobalOr(a, true) && !GlobalOr(a, false);
    assert !DoesPause(a);
    assert !IsA(a, CONDITIONAL) && !IsA(a, RANDOM);
    assert Own(a, map[]) == Flow([], map[name := false]);
    var first := Step(a, map[]);
    assert !Warns(name, first.after, true);
    assert Own(a, first.after).diags == [];
    assert [a][1..] == [];
    assert Run([a], first.after).diags == Step(a, first.after).diags + Run([], Step(a, first.after).after).diags;
    assert Run([a], first.after).diags == [];
    assert [a, a][0] == a && [a, a][1..] == [a];
    assert Run([a, a], map[]).diags == first.diags + Run([a], first.after).diags;
  }

  // ---------------------------------------------------------------------
  // The membership test as written

  /** The names every plain JavaScript object answers `in` for, through
    * `Object.prototype`, without having recorded them. */
  const PROTOTYPE_KEYS: set<string> := {
    "constructor", "hasOwnProperty", "isPrototypeOf", "propertyIsEnumerable", "toString",
    "valueOf", "toLocaleString", "__defineGetter__", "__defineSetter__", "__lookupGetter__",
    "__lookupSetter__"}

  /** The warning test as written (src/validate/cooldowns.ts:36-41): `in`
    * also sees the inherited names, whose `.global` is undefined. */
  predicate WarnsAsWritten(name: string, cd: Cooldowns, global: bool)
  {
    (name in cd || name in PROTOTYPE_KEYS) && !(!(name in cd && cd[name]) && global)
  }

  /** The first call `function "toString" false` of a stretch is warned
    * about, though nothing put it on cooldown. */
  lemma PrototypeNameWarnsAsWritten()
    ensures WarnsAsWritten("toString", map[], false)
    ensures !Warns("toString", map[], false)
  {
  }

  /** Both tests agree on every name that is not an inherited one. */
  lemma AsWrittenAgreesOffPrototype(name: string, cd: Cooldowns, global: bool)
    requires name !in PROTOTYPE_KEYS
    ensures WarnsAsWritten(name, cd, global) <==> Warns(name, cd, global)
  {
  }

  // ---------------------------------------------------------------------
  // The pass

  /** `doesActionPause` (src/validate/cooldowns.ts:55-77). */
  method DoesActionPause(a: IrNode) returns (r: bool)
    ensures r == DoesPause(a)
  {
    if IsA(a, PAUSE) {
      return true;
    }
    if IsA(a, RANDOM) {
      r := AnyPause(ActionsOf(a, "actions"));
      return;
    }
    if IsA(a, CONDITIONAL) {
      r := AnyPause(ActionsOf(a, "ifActions"));
      if r {
        return;
      }
      r := AnyPause(ActionsOf(a, "elseActions"));
      return;
    }
    return false;
  }

  /** One of the `for … if (x.type === 'PAUSE') return true` scans. */
  method AnyPause(xs: seq<IrNode>) returns (r: bool)
    ensures r == HasPause(xs)
  {
    var k := 0;
    while k < |xs|
      invariant 0 <= k <= |xs|
      invariant forall j :: 0 <= j < k ==> !IsA(xs[j], PAUSE)
    {
      if IsA(xs[k], PAUSE) {
        return true;
      }
      k := k + 1;
    }
    return false;
  }

  /** `checkCooldownsForActions` (src/validate/cooldowns.ts:14-53). The map
    * is a value, so passing it on is the `{ ...cooldowns }` copy. */
  method CheckCooldownsForActions(result: ParseResult, actions: seq<IrNode>, cd: Cooldowns)
    modifies result
    ensures result.diagnostics == old(result.diagnostics) + Run(actions, cd).diags
    decreases actions, 0
  {
    var cooldowns := cd;
    var i := 0;
    while i < |actions|
      invariant 0 <= i <= |actions|
      invariant old(result.diagnostics) + Run(actions, cd).diags == result.diagnostics + Run(actions[i..], cooldowns).diags
    {
      ghost var before := result.diagnostics;
      ghost var s := Step(actions[i], cooldowns);
      assert actions[i..][0] == actions[i] && actions[i..][1..] == actions[i + 1..];
      AppendAssoc(before, s.diags, Run(actions[i + 1..], s.after).diags);
      cooldowns := CheckAction(result, actions[i], cooldowns);
      i := i + 1;
    }
  }

  /** One pass of the loop body, returning the cooldowns it leaves. */
  method CheckAction(result: ParseResult, a: IrNode, cd: Cooldowns) returns (after: Cooldowns)
    modifies result
    ensures result.diagnostics == old(result.diagnostics) + Step(a, cd).diags
    ensures after == Step(a, cd).after
    decreases a, 3
  {
    after := cd;
    if IsA(a, CONDITIONAL) {
      CheckBody(result, a, "ifActions", cd);
      CheckBody(result, a, "elseActions", cd);
      AppendAssoc(old(result.diagnostics), BodyRun(a, "ifActions", cd), BodyRun(a, "elseActions", cd));
    } else if IsA(a, RANDOM) {
      CheckEach(result, a, "actions", cd);
    } else if IsA(a, FUNCTION) {
      var name := FunctionName(a);
      if name.None? {
        return;
      }
      if Warns(name.value, cd, GlobalOr(a, true)) {
        result.Push(WarnAt(NEVER_RUN, a.span));
      } else {
        after := cd[name.value := GlobalOr(a, false)];
      }
    }
    var pauses := DoesActionPause(a);
    if pauses {
      after := map[];
    }
  }

  method CheckBody(result: ParseResult, a: IrNode, key: string, cd: Cooldowns)
    modifies result
    ensures result.diagnostics == old(result.diagnostics) + BodyRun(a, key, cd)
    decreases a, 1
  {
    var i := FieldIndex(a.fields, key);
    if i >= 0 && a.fields[i].value.INodes? {
      CheckCooldownsForActions(result, a.fields[i].value.nodes, cd);
    }
  }

  /** `for (const subAction of …) checkCooldownsForActions(result, [subAction], { ...cooldowns })`. */
  method CheckEach(result: ParseResult, a: IrNode, key: string, cd: Cooldowns)
    modifies result
    ensures result.diagnostics == old(result.diagnostics) + EachRun(a, key, cd)
    decreases a, 1
  {
    var i := FieldIndex(a.fields, key);
    if i >= 0 && a.fields[i].value.INodes? {
      var subs := a.fields[i].value.nodes;
      var k := 0;
      while k < |subs|
        invariant 0 <= k <= |subs|
        invariant old(result.diagnostics) + Each(subs, cd) == result.diagnostics + Each(subs[k..], cd)
      {
        assert subs[k..][0] == subs[k] && subs[k..][1..] == subs[k + 1..];
        AppendAssoc(result.diagnostics, Step(subs[k], cd).diags, Each(subs[k + 1..], cd));
        var dropped := CheckAction(result, subs[k], cd);
        k := k + 1;
      }
    }
  }

  /** `checkCooldowns`. */
  method CheckCooldowns(result: ParseResult)
    modifies result
    ensures result.diagnostics == old(result.diagnostics) + HolderCooldowns(result.holders)
  {
    var k := 0;
    while k < |result.holders|
      invariant 0 <= k <= |result.holders|
      invariant result.diagnostics == old(result.diagnostics) + HolderCooldowns(result.holders[..k])
    {
      assert result.holders[..k + 1][..k] == result.holders[..k];
      AppendAssoc(old(result.diagnostics), HolderCooldowns(result.holders[..k]), Run(ActionsOf(result.holders[k], "actions"), map[]).diags);
      CheckCooldownsForActions(result, ActionsOf(result.holders[k], "actions"), map[]);
      k := k + 1;
    }
    assert result.holders[..k] == result.holders;
  }
}
