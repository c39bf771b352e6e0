/** The importer's plan (ct_module/src/steps): the list of menu steps that
  * recreates parsed action holders in the game. The steps are plain data;
  * the two closures the source builds, which probe the live inventory and
  * the chat history, are recorded by what they probe. */
module CtSteps {
  import opened Wrappers
  import opened NodeTypes
  import opened Ir
  import opened JsValues
  import opened Transform
  import opened CtUtils

  /** The live-game test of a CONDITIONAL step: whether a slot called
    * `name` is on the open page (paging on until it is, by
    * ct_module/src/steps/helpers.ts:58-90), or whether the chat reports a
    * missing function (ct_module/src/steps/generateSteps.ts:164-187). */
  datatype Probe = SlotOrNextPage(name: string, isNormalized: bool) | FunctionMissing(name: string)

  /** `Step` (ct_module/src/steps/step.ts:1-37). */
  datatype Step =
    | RunCommand(command: string)
    | SendMessage(message: string)
    | SelectValue(key: string, keyIsNormalized: bool, value: string, valueIsNormalized: bool)
    | ClickButton(key: string, keyIsNormalized: bool)
    | Conditional(probe: Probe)

  /** What the step builders throw: an `Error` with its message, or a
    * JavaScript `TypeError`, described by the operation that raised it. */
  datatype StepError = Thrown(message: string) | TypeError(what: string)

  type Steps = Result<seq<Step>, StepError>

  /** Two step lists built one after the other: the first error, or both
    * lists concatenated. */
  function Followed(a: Steps, b: Steps): (r: Steps)
    ensures r.Ok? <==> a.Ok? && b.Ok?
    ensures r.Ok? ==> r.value == a.value + b.value
    ensures a.Err? ==> r == a
    ensures a.Ok? && b.Err? ==> r == b
  {
    if a.Err? then a else if b.Err? then b else Ok(a.value + b.value)
  }

  lemma FollowedAssoc(a: Steps, b: Steps, c: Steps)
    ensures Followed(Followed(a, b), c) == Followed(a, Followed(b, c))
  {
    if a.Ok? && b.Ok? && c.Ok? {
      AppendAssoc(a.value, b.value, c.value);
    }
  }

  lemma FollowedUnit(a: Steps)
    ensures Followed(a, Ok([])) == a
    ensures Followed(Ok([]), a) == a
  {
    if a.Ok? {
      assert a.value + [] == a.value;
      assert [] + a.value == a.value;
    }
  }

  // ---------------------------------------------------------------------
  // ct_module/src/steps/helpers.ts

  /** `booleanAsValue` (ct_module/src/steps/helpers.ts:5-7), on the field's
    * truthiness. */
  function BooleanAsValue(v: BareValue): (r: string)
    ensures r == "Enabled" || r == "Disabled"
    ensures r == "Enabled" <==> Truthy(v)
  {
    if Truthy(v) then "Enabled" else "Disabled"
  }

  /** `numberAsValue` (ct_module/src/steps/helpers.ts:9-11): `toString`,
    * which `undefined` and `null` do not have. */
  function NumberAsValue(v: BareValue): (r: Result<string, StepError>)
    ensures r.Err? <==> Nullish(v)
    ensures v.BPrim? && v.p.PInt? ==> r == Ok(Strings.IntText(v.p.i))
  {
    if Nullish(v) then Err(TypeError("toString of " + JsText(v))) else Ok(JsText(v))
  }

  /** `stringAsValue` (ct_module/src/steps/helpers.ts:13-15): a string
    * value is passed on as it is. */
  function StringAsValue(v: BareValue): (r: string)
    ensures v.BPrim? && v.p.PStr? ==> r == v.p.s
  {
    JsText(v)
  }

  /** The click on a button followed by the choice of a value. */
  function Pair(key: string, keyIsNormalized: bool, value: string, valueIsNormalized: bool): seq<Step>
  {
    [ClickButton(key, keyIsNormalized), SelectValue(key, keyIsNormalized, value, valueIsNormalized)]
  }

  /** `stepsClickButtonThenSelectValue`
    * (ct_module/src/steps/helpers.ts:17-43): the key is checked first, then
    * the value, each only when flagged as normalized; then the click and the
    * choice, flags copied. */
  function StepsClickButtonThenSelectValue(key: string, keyIsNormalized: bool, value: string, valueIsNormalized: bool): (r: Steps)
    ensures r.Ok? <==> (keyIsNormalized ==> IsNormalizedKey(key)) && (valueIsNormalized ==> IsNormalizedKey(value))
    ensures keyIsNormalized && !IsNormalizedKey(key) ==> r == Err(Thrown(NotNormalizedMessage(key)))
    ensures (keyIsNormalized ==> IsNormalizedKey(key)) && valueIsNormalized && !IsNormalizedKey(value) ==>
      r == Err(Thrown(NotNormalizedMessage(value)))
    ensures r.Ok? ==> (|r.value| == 2 && r.value[0] == ClickButton(key, keyIsNormalized)
      && r.value[1] == SelectValue(key, keyIsNormalized, value, valueIsNormalized))
  {
    var keyCheck := if keyIsNormalized then AssertIsNormalized(key) else Ok(());
    var valueCheck := if valueIsNormalized then AssertIsNormalized(value) else Ok(());
    if keyCheck.Err? then Err(Thrown(keyCheck.error))
    else if valueCheck.Err? then Err(Thrown(valueCheck.error))
    else Ok(Pair(key, keyIsNormalized, value, valueIsNormalized))
  }

  /** `stepsAddAction` (ct_module/src/steps/helpers.ts:45-48): the action
    * name is checked, then handed to the add-action menu; the first check
    * decides nothing the second would not. */
  function StepsAddAction(actionName: string): (r: Steps)
    ensures r == StepsClickButtonThenSelectValue("add_action", true, actionName, true)
  {
    AddActionKey();
    match AssertIsNormalized(actionName)
    case Err(m) => Err(Thrown(m))
    case Ok(_) => StepsClickButtonThenSelectValue("add_action", true, actionName, true)
  }

  lemma AddActionKey()
    ensures IsNormalizedKey("add_action")
  {
  }

  /** `stepGoBack` (ct_module/src/steps/helpers.ts:50-56). */
  function StepGoBack(): Step
  {
    ClickButton("go_back", true)
  }

  /** `stepClickButtonOrNextPage` (ct_module/src/steps/helpers.ts:58-90):
    * the name is checked when flagged, then one CONDITIONAL step probing for
    * the slot. */
  function StepClickButtonOrNextPage(name: string, isNormalized: bool): (r: Result<Step, StepError>)
    ensures r.Err? <==> isNormalized && !IsNormalizedKey(name)
    ensures r.Err? ==> r.error == Thrown(NotNormalizedMessage(name))
    ensures r.Ok? ==> r.value == Conditional(SlotOrNextPage(name, isNormalized))
  {
    if isNormalized && AssertIsNormalized(name).Err? then Err(Thrown(AssertIsNormalized(name).error))
    else Ok(Conditional(SlotOrNextPage(name, isNormalized)))
  }

  // ---------------------------------------------------------------------
  // ct_module/src/steps/generateSteps.ts

  /** A number field's text, then its click-and-choose pair. */
  function NumberPair(key: string, v: BareValue): Steps
  {
    match NumberAsValue(v)
    case Err(e) => Err(e)
    case Ok(s) => StepsClickButtonThenSelectValue(key, true, s, false)
  }

  /** The steps of a group change (ct_module/src/steps/generateSteps.ts:20-36). */
  function SetGroup(group: BareValue, demotionProtection: BareValue): Steps
  {
    Followed(StepsAddAction("change_players_group"),
    Followed(StepsClickButtonThenSelectValue("group", true, StringAsValue(group), false),
    Followed(StepsClickButtonThenSelectValue("demotion_protection", true, BooleanAsValue(demotionProtection), false),
    Ok([StepGoBack()]))))
  }

  /** The steps of a title (ct_module/src/steps/generateSteps.ts:41-75). */
  function Title(title: BareValue, subtitle: BareValue, fadein: BareValue, stay: BareValue, fadeout: BareValue): Steps
  {
    Followed(StepsAddAction("display_title"),
    Followed(StepsClickButtonThenSelectValue("title", true, StringAsValue(title), false),
    Followed(StepsClickButtonThenSelectValue("subtitle", true, StringAsValue(subtitle), false),
    Durations(fadein, stay, fadeout))))
  }

  /** The last steps of a title: its three durations, then back. */
  function Durations(fadein: BareValue, stay: BareValue, fadeout: BareValue): Steps
  {
    Followed(NumberPair("fadein", fadein),
    Followed(NumberPair("stay", stay),
    Followed(NumberPair("fadeout", fadeout),
    Ok([StepGoBack()]))))
  }

  /** `stepsFromAction` (ct_module/src/steps/generateSteps.ts:15-144): a
    * conditional is added without its contents, a group change and a title
    * are added and filled in, every other action type gives no steps, and
    * anything that is not an action is an unknown type. The parts are built
    * left to right, so the first error met is the one thrown. */
  function StepsFromAction(a: Bare): (r: Steps)
    ensures !a.tag.Act? ==> r == Err(Thrown("Unknown action type: " + TypeName(a.tag)))
    ensures a.tag.Act? && a.tag.a !in {CONDITIONAL, SET_GROUP, TITLE} ==> r == Ok([])
  {
    if a.tag == Act(CONDITIONAL) then StepsAddAction("conditional")
    else if a.tag == Act(SET_GROUP) then SetGroup(Get(a, "group"), Get(a, "demotionProtection"))
    else if a.tag == Act(TITLE) then
      Title(Get(a, "title"), Get(a, "subtitle"), Get(a, "fadein"), Get(a, "stay"), Get(a, "fadeout"))
    else if a.tag.Act? then Ok([])
    else Err(Thrown("Unknown action type: " + TypeName(a.tag)))
  }

  /** The steps of a list of nodes, one node after the other, stopping at
    * the first error. */
  function FoldSteps(xs: seq<Bare>, f: Bare -> Steps): Steps
  {
    if |xs| == 0 then Ok([]) else Followed(FoldSteps(xs[..|xs| - 1], f), f(xs[|xs| - 1]))
  }

  /** What `for (const action of holder.actions)` walks: the list, the
    * characters of a string (each of which is an action of unknown type
    * `undefined`), or nothing iterable at all. */
  function ActionList(v: BareValue): (r: Result<seq<Bare>, StepError>)
    ensures v.BNodes? ==> r == Ok(v.nodes)
  {
    match v
    case BNodes(ns) => Ok(ns)
    case BPrim(PStr(s)) =>
      if s == "" then Ok([]) else Err(Thrown("Unknown action type: undefined"))
    case BPrim(_) => Err(TypeError("holder.actions is not iterable"))
  }

  /** The steps before a holder's actions
    * (ct_module/src/steps/generateSteps.ts:156-205). */
  function HeaderSteps(h: Bare): (r: Steps)
    ensures h.tag == Hold(UNKNOWN) ==> r == Ok([])
    ensures h.tag == Hold(FUNCTION_HOLDER) ==> (r.Ok? && |r.value| == 2
      && r.value[0] == RunCommand("/function edit " + JsText(Get(h, "name")))
      && r.value[1].Conditional?)
    ensures h.tag == Hold(EVENT) ==> r == EventHeader(Get(h, "event"))
    ensures !h.tag.Hold? ==> r == Err(Thrown("Unknown holder type: " + TypeName(h.tag)))
  {
    if h.tag == Hold(FUNCTION_HOLDER) then Ok(FunctionHeader(JsText(Get(h, "name"))))
    else if h.tag == Hold(EVENT) then EventHeader(Get(h, "event"))
    else if h.tag == Hold(UNKNOWN) then Ok([])
    else Err(Thrown("Unknown holder type: " + TypeName(h.tag)))
  }

  /** The header of a function holder: open its editor, and create the
    * function when the chat says it does not exist
    * (ct_module/src/steps/generateSteps.ts:158-189). */
  function FunctionHeader(name: string): seq<Step>
  {
    [RunCommand("/function edit " + name), Conditional(FunctionMissing(name))]
  }

  /** The header of an event holder: open the event menu, then find the
    * event's button by its normalized name
    * (ct_module/src/steps/generateSteps.ts:190-198). The name must be a
    * string, since `normalized` calls its `trim`. */
  function EventHeader(event: BareValue): (r: Steps)
    ensures r.Ok? <==> event.BPrim? && event.p.PStr? && Normalized(event.p.s) != ""
    ensures r.Ok? ==> (|r.value| == 2 && r.value[0] == RunCommand("/eventactions")
      && r.value[1] == Conditional(SlotOrNextPage(Normalized(event.p.s), true)))
  {
    match event
    case BPrim(PStr(e)) =>
      (match StepClickButtonOrNextPage(Normalized(e), true)
       case Err(m) => Err(m)
       case Ok(step) => Ok([RunCommand("/eventactions"), step]))
    case _ => Err(TypeError("holder.event.trim is not a function"))
  }

  /** `stepsFromActions` (ct_module/src/steps/generateSteps.ts:146-153) as a
    * value. */
  function ActionsSteps(actions: seq<Bare>): Steps
  {
    FoldSteps(actions, StepsFromAction)
  }

  /** `stepsFromHolder` (ct_module/src/steps/generateSteps.ts:155-210) as a
    * value: the header, then the steps of the holder's actions. */
  function HolderSteps(h: Bare): Steps
  {
    Followed(HeaderSteps(h), HolderActionsSteps(h))
  }

  /** The steps of a holder's actions, or why they cannot be walked. */
  function HolderActionsSteps(h: Bare): Steps
  {
    match ActionList(Get(h, "actions"))
    case Err(e) => Err(e)
    case Ok(actions) => ActionsSteps(actions)
  }

  /** `generateSteps` (ct_module/src/steps/generateSteps.ts:212-219) as a
    * value. */
  function HoldersSteps(holders: seq<Bare>): Steps
  {
    FoldSteps(holders, HolderSteps)
  }

  // ---------------------------------------------------------------------
  // Laws

  /** The steps of two lists, one after the other, are the steps of the
    * first followed by those of the second. */
  lemma {:induction false} FoldAppend(xs: seq<Bare>, ys: seq<Bare>, f: Bare -> Steps)
    ensures FoldSteps(xs + ys, f) == Followed(FoldSteps(xs, f), FoldSteps(ys, f))
    decreases |ys|
  {
    if |ys| == 0 {
      assert xs + ys == xs;
      FollowedUnit(FoldSteps(xs, f));
    } else {
      var init, last := ys[..|ys| - 1], ys[|ys| - 1];
      assert (xs + ys)[..|xs + ys| - 1] == xs + init;
      FoldAppend(xs, init, f);
      FollowedAssoc(FoldSteps(xs, f), FoldSteps(init, f), f(last));
    }
  }

  /** A fold succeeds exactly when every node's steps do. */
  lemma {:induction false} FoldOk(xs: seq<Bare>, f: Bare -> Steps)
    ensures FoldSteps(xs, f).Ok? <==> forall i :: 0 <= i < |xs| ==> f(xs[i]).Ok?
    decreases |xs|
  {
    if |xs| > 0 {
      FoldOk(xs[..|xs| - 1], f);
      assert forall i :: 0 <= i < |xs| - 1 ==> xs[..|xs| - 1][i] == xs[i];
    }
  }

  /** `generateSteps` concatenates the steps of the holders in order. */
  lemma HoldersStepsAppend(xs: seq<Bare>, ys: seq<Bare>)
    ensures HoldersSteps(xs + ys) == Followed(HoldersSteps(xs), HoldersSteps(ys))
  {
    FoldAppend(xs, ys, HolderSteps);
  }

  /** `stepsFromActions` concatenates the steps of the actions in order. */
  lemma ActionsStepsAppend(xs: seq<Bare>, ys: seq<Bare>)
    ensures ActionsSteps(xs + ys) == Followed(ActionsSteps(xs), ActionsSteps(ys))
  {
    FoldAppend(xs, ys, StepsFromAction);
  }

  /** The menu keys the step builders use are all normalized. */
  lemma FixedKeys()
    ensures IsNormalizedKey("conditional") && IsNormalizedKey("change_players_group")
    ensures IsNormalizedKey("group") && IsNormalizedKey("demotion_protection")
    ensures IsNormalizedKey("display_title") && IsNormalizedKey("title") && IsNormalizedKey("subtitle")
    ensures IsNormalizedKey("fadein") && IsNormalizedKey("stay") && IsNormalizedKey("fadeout")
  {
  }

  /** Adding an action with a normalized name is the add-action pair. */
  lemma AddActionOk(name: string)
    requires IsNormalizedKey(name)
    ensures StepsAddAction(name) == Ok(Pair("add_action", true, name, true))
  {
    AddActionKey();
  }

  /** A pair under a normalized key with a free value always builds. */
  lemma FixedPair(key: string, value: string)
    requires IsNormalizedKey(key)
    ensures StepsClickButtonThenSelectValue(key, true, value, false) == Ok(Pair(key, true, value, false))
  {
  }

  /** A conditional is only added: the add-action pair, nothing of its
    * conditions or bodies. */
  lemma ConditionalSteps(a: Bare)
    requires a.tag == Act(CONDITIONAL)
    ensures StepsFromAction(a) == Ok(Pair("add_action", true, "conditional", true))
  {
    FixedKeys();
    AddActionOk("conditional");
  }

  /** A group change is seven steps: the add-action pair, the group pair,
    * the demotion-protection pair, and back. */
  lemma SetGroupSteps(a: Bare)
    requires a.tag == Act(SET_GROUP)
    ensures StepsFromAction(a) == Ok(
      Pair("add_action", true, "change_players_group", true)
      + Pair("group", true, StringAsValue(Get(a, "group")), false)
      + Pair("demotion_protection", true, BooleanAsValue(Get(a, "demotionProtection")), false)
      + [ClickButton("go_back", true)])
    ensures |StepsFromAction(a).value| == 7
  {
    SetGroupOk(Get(a, "group"), Get(a, "demotionProtection"));
  }

  lemma SetGroupOk(group: BareValue, demotionProtection: BareValue)
    ensures SetGroup(group, demotionProtection) == Ok(
      Pair("add_action", true, "change_players_group", true)
      + Pair("group", true, StringAsValue(group), false)
      + Pair("demotion_protection", true, BooleanAsValue(demotionProtection), false)
      + [ClickButton("go_back", true)])
  {
    var g, d := StringAsValue(group), BooleanAsValue(demotionProtection);
    var p1, p2, p3 := Pair("add_action", true, "change_players_group", true), Pair("group", true, g, false),
      Pair("demotion_protection", true, d, false);
    FixedKeys();
    AddActionOk("change_players_group");
    FixedPair("group", g);
    FixedPair("demotion_protection", d);
    assert p1 + (p2 + (p3 + [StepGoBack()])) == p1 + p2 + p3 + [StepGoBack()];
  }

  /** A duration pair builds exactly when the duration is present. */
  lemma NumberPairOk(key: string, v: BareValue)
    requires IsNormalizedKey(key)
    ensures NumberPair(key, v).Ok? <==> !Nullish(v)
    ensures !Nullish(v) ==> NumberPair(key, v) == Ok(Pair(key, true, JsText(v), false))
  {
    if !Nullish(v) {
      FixedPair(key, JsText(v));
    }
  }

  /** The durations build exactly when all three are present. */
  lemma DurationsOk(fi: BareValue, sy: BareValue, fo: BareValue)
    ensures Durations(fi, sy, fo).Ok? <==> !Nullish(fi) && !Nullish(sy) && !Nullish(fo)
    ensures Durations(fi, sy, fo).Ok? ==> (Durations(fi, sy, fo).value ==
      Pair("fadein", true, JsText(fi), false) + Pair("stay", true, JsText(sy), false)
      + Pair("fadeout", true, JsText(fo), false) + [ClickButton("go_back", true)])
  {
    FixedKeys();
    NumberPairOk("fadein", fi);
    NumberPairOk("stay", sy);
    NumberPairOk("fadeout", fo);
    if !Nullish(fi) && !Nullish(sy) && !Nullish(fo) {
      var p4, p5, p6 := Pair("fadein", true, JsText(fi), false), Pair("stay", true, JsText(sy), false),
        Pair("fadeout", true, JsText(fo), false);
      assert p4 + (p5 + (p6 + [StepGoBack()])) == p4 + p5 + p6 + [StepGoBack()];
    }
  }

  /** A title is thirteen steps (the add-action pair, five pairs and back)
    * exactly when its three durations are present. */
  lemma TitleSteps(a: Bare)
    requires a.tag == Act(TITLE)
    ensures StepsFromAction(a).Ok? <==>
      !Nullish(Get(a, "fadein")) && !Nullish(Get(a, "stay")) && !Nullish(Get(a, "fadeout"))
    ensures StepsFromAction(a).Ok? ==> (StepsFromAction(a).value ==
      Pair("add_action", true, "display_title", true)
      + Pair("title", true, StringAsValue(Get(a, "title")), false)
      + Pair("subtitle", true, StringAsValue(Get(a, "subtitle")), false)
      + Pair("fadein", true, JsText(Get(a, "fadein")), false)
      + Pair("stay", true, JsText(Get(a, "stay")), false)
      + Pair("fadeout", true, JsText(Get(a, "fadeout")), false)
      + [ClickButton("go_back", true)])
    ensures StepsFromAction(a).Ok? ==> |StepsFromAction(a).value| == 13
  {
    TitleOk(Get(a, "title"), Get(a, "subtitle"), Get(a, "fadein"), Get(a, "stay"), Get(a, "fadeout"));
  }

  lemma TitleOk(title: BareValue, subtitle: BareValue, fi: BareValue, sy: BareValue, fo: BareValue)
    ensures Title(title, subtitle, fi, sy, fo).Ok? <==> !Nullish(fi) && !Nullish(sy) && !Nullish(fo)
    ensures Title(title, subtitle, fi, sy, fo).Ok? ==> (Title(title, subtitle, fi, sy, fo).value ==
      Pair("add_action", true, "display_title", true)
      + Pair("title", true, StringAsValue(title), false)
      + Pair("subtitle", true, StringAsValue(subtitle), false)
      + Pair("fadein", true, JsText(fi), false)
      + Pair("stay", true, JsText(sy), false)
      + Pair("fadeout", true, JsText(fo), false)
      + [ClickButton("go_back", true)])
  {
    var t, st := StringAsValue(title), StringAsValue(subtitle);
    FixedKeys();
    AddActionOk("display_title");
    FixedPair("title", t);
    FixedPair("subtitle", st);
    DurationsOk(fi, sy, fo);
    var p1, p2, p3 := Pair("add_action", true, "display_title", true), Pair("title", true, t, false),
      Pair("subtitle", true, st, false);
    var tail := Durations(fi, sy, fo);
    if tail.Ok? {
      assert p1 + (p2 + (p3 + tail.value)) == p1 + p2 + p3 + tail.value;
    }
  }

  /** An event whose name normalizes to nothing (blank, or only symbols)
    * cannot be opened: the key check throws. */
  lemma EmptyEventKey(h: Bare, e: string)
    requires h.tag == Hold(EVENT) && Get(h, "event") == BPrim(PStr(e))
    requires Normalized(e) == ""
    ensures HolderSteps(h) == Err(Thrown(NotNormalizedMessage("")))
  {
    assert !IsNormalizedKey("");
    assert HeaderSteps(h) == EventHeader(BPrim(PStr(e))) == Err(Thrown(NotNormalizedMessage("")));
  }

  /** An unknown holder's steps are those of its actions. */
  lemma UnknownHolderSteps(h: Bare)
    requires h.tag == Hold(UNKNOWN) && Get(h, "actions").BNodes?
    ensures HolderSteps(h) == ActionsSteps(Get(h, "actions").nodes)
  {
    FollowedUnit(HolderActionsSteps(h));
  }

  // ---------------------------------------------------------------------
  // The loops

  /** `stepsFromActions` (ct_module/src/steps/generateSteps.ts:146-153). */
  method StepsFromActions(actions: seq<Bare>) returns (r: Steps)
    ensures r == ActionsSteps(actions)
  {
    var steps: seq<Step> := [];
    var i := 0;
    while i < |actions|
      invariant 0 <= i <= |actions|
      invariant FoldSteps(actions[..i], StepsFromAction) == Ok(steps)
    {
      assert actions[..i + 1][..i] == actions[..i];
      var actionSteps := StepsFromAction(actions[i]);
      if actionSteps.Err? {
        FoldErr(actions, i + 1, StepsFromAction);
        return actionSteps;
      }
      steps := steps + actionSteps.value;
      i := i + 1;
    }
    assert actions[..i] == actions;
    r := Ok(steps);
  }

  /** Once a prefix fails, the whole list fails with the same error. */
  lemma {:induction false} FoldErr(xs: seq<Bare>, n: nat, f: Bare -> Steps)
    requires n <= |xs| && FoldSteps(xs[..n], f).Err?
    ensures FoldSteps(xs, f) == FoldSteps(xs[..n], f)
    decreases |xs| - n
  {
    if n < |xs| {
      assert xs[..n + 1][..n] == xs[..n];
      FoldErr(xs, n + 1, f);
    } else {
      assert xs[..n] == xs;
    }
  }

  /** `stepsFromHolder` (ct_module/src/steps/generateSteps.ts:155-210): the
    * header, then each step of the actions pushed in turn. */
  method StepsFromHolder(h: Bare) returns (r: Steps)
    ensures r == HolderSteps(h)
  {
    var header := HeaderSteps(h);
    if header.Err? {
      return header;
    }
    var list := ActionList(Get(h, "actions"));
    if list.Err? {
      return Err(list.error);
    }
    var actionSteps := StepsFromActions(list.value);
    assert HolderActionsSteps(h) == actionSteps;
    if actionSteps.Err? {
      return actionSteps;
    }
    var acts := actionSteps.value;
    var steps := header.value;
    var i := 0;
    while i < |acts|
      invariant 0 <= i <= |acts|
      invariant steps == header.value + acts[..i]
    {
      assert acts[..i + 1] == acts[..i] + [acts[i]];
      steps := steps + [acts[i]];
      i := i + 1;
    }
    assert acts[..i] == acts;
    r := Ok(steps);
  }

  /** `generateSteps` (ct_module/src/steps/generateSteps.ts:212-219). */
  method GenerateSteps(holders: seq<Bare>) returns (r: Steps)
    ensures r == HoldersSteps(holders)
  {
    var steps: seq<Step> := [];
    var i := 0;
    while i < |holders|
      invariant 0 <= i <= |holders|
      invariant FoldSteps(holders[..i], HolderSteps) == Ok(steps)
    {
      assert holders[..i + 1][..i] == holders[..i];
      var holderSteps := StepsFromHolder(holders[i]);
      if holderSteps.Err? {
        FoldErr(holders, i + 1, HolderSteps);
        return holderSteps;
      }
      steps := steps + holderSteps.value;
      i := i + 1;
    }
    assert holders[..i] == holders;
    r := Ok(steps);
  }
}
