/** How the code generator writes actions (src/codegen/actions.ts). The
  * actions are those of the action model the generator reads: a
  * conditional, a variable change, an action bar, an inventory layout and an
  * experience-level gift; any other type is written as an error comment. */
module CodegenActions {
  import opened Wrappers
  import opened Strings
  import opened Ir
  import opened JsValues
  import opened CodegenHelpers
  import opened CodegenArguments

  /** The holder of a variable: a player's, the global one, or a team's. */
  datatype VarHolder = PlayerVars | GlobalVars | TeamVars(team: string)

  /** `op` of a variable change: `'unset'` or an operation. */
  datatype VarOp = UnsetVar | Apply(op: Operation)

  /** The actions as the generator receives them; absent fields are `None`. */
  datatype Action =
    | Conditional(matchAny: Option<bool>, conditions: Option<seq<Bare>>)
    | ChangeVar(holder: Option<VarHolder>, name: Option<string>, op: Option<VarOp>, value: BareValue, unset: Option<bool>)
    | ActionBar(message: Option<string>)
    | ApplyInventoryLayout(layout: Option<string>)
    | GiveExperienceLevels
    | Unimplemented(typeName: string)

  /** The tables and helpers the generator takes from elsewhere: the symbol
    * tables, and `generateConditions` of src/codegen/conditions.ts, which is
    * not part of this model. */
  datatype Writers = Writers(sym: SymbolTables, conditions: (seq<Bare>, CodeStyle) -> string)

  /** A string field that JavaScript finds truthy: present and not empty. */
  predicate Given(s: Option<string>)
  {
    s.Some? && s.value != ""
  }

  /** The tab before each line: the style's inside a block, none outside. */
  function TabOf(style: CodeStyle, inBlock: bool): string
  {
    if inBlock then style.tab else ""
  }

  /** The text of every action, in order. */
  function ActionTexts(actions: seq<Action>, style: CodeStyle, w: Writers): (r: seq<string>)
    ensures |r| == |actions| && forall i :: 0 <= i < |actions| ==> r[i] == GenerateAction(actions[i], style, w)
  {
    seq(|actions|, i requires 0 <= i < |actions| => GenerateAction(actions[i], style, w))
  }

  /** `generateActions` (src/codegen/actions.ts:8-19): the tab, then the
    * action texts with a newline and the tab between them. */
  function GenerateActions(actions: seq<Action>, style: CodeStyle, inBlock: bool, w: Writers): (r: string)
    ensures StartsWith(r, TabOf(style, inBlock))
    ensures |actions| == 0 ==> r == TabOf(style, inBlock)
    ensures |actions| == 1 ==> r == TabOf(style, inBlock) + GenerateAction(actions[0], style, w)
  {
    var tab := TabOf(style, inBlock);
    tab + Join(ActionTexts(actions, style, w), "\n" + tab)
  }

  /** `generateAction` (src/codegen/actions.ts:21-38). */
  function GenerateAction(a: Action, style: CodeStyle, w: Writers): (r: string)
    ensures a.Unimplemented? ==> r == ErrorText("Action not implemented: " + a.typeName)
    ensures a.GiveExperienceLevels? ==> r == ""
  {
    match a
    case Conditional(_, _) => GenerateActionConditional(a, style, w)
    case ChangeVar(_, _, _, _, _) => GenerateActionChangeVar(a, style, w)
    case ActionBar(message) => KeywordAndText("actionBar", message)
    case ApplyInventoryLayout(layout) => KeywordAndText("applyLayout", layout)
    case GiveExperienceLevels => ""
    case Unimplemented(t) => ErrorText("Action not implemented: " + t)
  }

  /** `generateActionActionBar` and `generateActionApplyInventoryLayout`
    * (src/codegen/actions.ts:62-84): the keyword, a space, then the quoted
    * text, or a hint when it is missing or empty. */
  function KeywordAndText(keyword: string, text: Option<string>): (r: string)
    ensures Given(text) ==> r == keyword + " " + Quote(text.value)
    ensures !Given(text) ==> r == keyword + " " + Hint("?")
  {
    var value := if Given(text) then GenerateString(text.value) else Hint("?");
    JoinTwo(keyword, value, " ");
    Join([keyword, value], " ")
  }

  /** The mode word of a conditional: `or` when `matchAny` is set, otherwise
    * a hint (src/codegen/actions.ts:55). */
  function ModeWord(matchAny: Option<bool>): string
  {
    if matchAny == Some(true) then "or" else Hint("?")
  }

  /** `generateActionConditional` (src/codegen/actions.ts:46-60): `if`, the
    * mode word unless shorthands are on and `matchAny` is `false`, then the
    * conditions or a hint. */
  function GenerateActionConditional(a: Action, style: CodeStyle, w: Writers): (r: string)
    requires a.Conditional?
    ensures var conds := if a.conditions.Some? then w.conditions(a.conditions.value, style) else Hint("?");
      if style.useCommonShorthands && a.matchAny == Some(false) then r == "if " + conds
      else r == "if " + ModeWord(a.matchAny) + " " + conds
  {
    var conds := if a.conditions.Some? then w.conditions(a.conditions.value, style) else Hint("?");
    var mode := if !(style.useCommonShorthands && a.matchAny == Some(false)) then [ModeWord(a.matchAny)] else [];
    if |mode| == 1 then
      JoinThree("if", mode[0], conds, " ");
      assert ["if"] + mode + [conds] == ["if", mode[0], conds];
      Join(["if"] + mode + [conds], " ")
    else
      JoinTwo("if", conds, " ");
      Join(["if"] + mode + [conds], " ")
  }

  /** `CHANGE_VAR_KWS` (src/codegen/actions.ts:86-92). */
  function VarKeyword(h: VarHolder): string
  {
    match h
    case PlayerVars => "var"
    case GlobalVars => "globalvar"
    case TeamVars(_) => "teamvar"
  }

  /** The words of a variable change before the operation: the keyword or a
    * hint, the name or a hint, and a team's quoted name
    * (src/codegen/actions.ts:101-104). */
  function ChangeVarHead(a: Action): (head: seq<string>)
    requires a.ChangeVar?
    ensures |head| == (if a.holder.Some? && a.holder.value.TeamVars? then 3 else 2)
  {
    [if a.holder.Some? then VarKeyword(a.holder.value) else Hint("?var"),
     if a.name.Some? then a.name.value else Hint("?")]
    + (if a.holder.Some? && a.holder.value.TeamVars? then [MaybeQuote(a.holder.value.team)] else [])
  }

  /** Whether the shorthand form applies: shorthands on and `unset` not set
    * (src/codegen/actions.ts:112). */
  predicate Shorthand(a: Action, style: CodeStyle)
    requires a.ChangeVar?
  {
    style.useCommonShorthands && a.unset != Some(true)
  }

  /** The words of a variable change (src/codegen/actions.ts:94-120). */
  function ChangeVarWords(a: Action, style: CodeStyle, sym: SymbolTables): (words: seq<string>)
    requires a.ChangeVar?
    ensures |words| > |ChangeVarHead(a)| && words[..|ChangeVarHead(a)|] == ChangeVarHead(a)
    ensures a.op == Some(UnsetVar) ==> words == ChangeVarHead(a) + ["unset"]
    ensures a.op != Some(UnsetVar) ==> (|words| >= |ChangeVarHead(a)| + 2
      && words[|ChangeVarHead(a)|] == (if a.op.Some? then GenerateOperation(a.op.value.op, style, sym) else Hint("?"))
      && words[|ChangeVarHead(a)| + 1] == (if Truthy(a.value) then "" else Hint("?")))
    ensures a.op != Some(UnsetVar) && Shorthand(a, style) ==> |words| == |ChangeVarHead(a)| + 2
    ensures a.op != Some(UnsetVar) && !Shorthand(a, style) ==>
      |words| == |ChangeVarHead(a)| + 3 && words[|words| - 1] == (if a.unset == Some(true) then "true" else Hint("?"))
  {
    var head := ChangeVarHead(a);
    if a.op == Some(UnsetVar) then head + ["unset"]
    else
      var body := head
        + [if a.op.Some? then GenerateOperation(a.op.value.op, style, sym) else Hint("?"),
           if Truthy(a.value) then GenerateValue() else Hint("?")];
      if Shorthand(a, style) then body
      else body + [if a.unset == Some(true) then GenerateBoolean(true) else Hint("?")]
  }

  /** `generateActionChangeVar` (src/codegen/actions.ts:94-120): the words
    * joined by spaces. */
  function GenerateActionChangeVar(a: Action, style: CodeStyle, w: Writers): (r: string)
    requires a.ChangeVar?
    ensures a.op == Some(UnsetVar) ==> EndsWith(r, " unset")
  {
    var words := ChangeVarWords(a, style, w.sym);
    if a.op == Some(UnsetVar) then
      JoinSnoc(ChangeVarHead(a), "unset", " ");
      Join(words, " ")
    else Join(words, " ")
  }

  // ---------------------------------------------------------------------
  // Laws

  /** Splitting a variable change at spaces gives back its words when none
    * of them holds a space. */
  lemma ChangeVarTokens(a: Action, style: CodeStyle, w: Writers)
    requires a.ChangeVar?
    requires var words := ChangeVarWords(a, style, w.sym);
      forall i :: 0 <= i < |words| ==> ' ' !in words[i]
    ensures Split(GenerateActionChangeVar(a, style, w), ' ') == ChangeVarWords(a, style, w.sym)
  {
    SplitJoin(ChangeVarWords(a, style, w.sym), ' ');
  }

  /** With shorthands on and a falsy `unset`, the text stops after the value:
    * it is the text without shorthands up to its last word. */
  lemma ShorthandDropsUnset(a: Action, style: CodeStyle, w: Writers)
    requires a.ChangeVar? && a.op != Some(UnsetVar) && Shorthand(a, style)
    ensures var full := ChangeVarWords(a, style.(useCommonShorthands := false), w.sym);
      ChangeVarWords(a, style, w.sym) == full[..|full| - 1]
      && full[|full| - 1] == Hint("?")
  {
    var full := ChangeVarWords(a, style.(useCommonShorthands := false), w.sym);
    var short := ChangeVarWords(a, style, w.sym);
    assert short == full[..|full| - 1];
  }

  /** When no action text and no tab holds a newline, every action is a line
    * of its own, each starting with the tab. */
  lemma ActionLines(actions: seq<Action>, style: CodeStyle, inBlock: bool, w: Writers)
    requires |actions| >= 1
    requires '\n' !in TabOf(style, inBlock)
    requires forall i :: 0 <= i < |actions| ==> '\n' !in GenerateAction(actions[i], style, w)
    ensures Split(GenerateActions(actions, style, inBlock, w), '\n')
      == Prefixed(TabOf(style, inBlock), ActionTexts(actions, style, w))
  {
    var tab := TabOf(style, inBlock);
    var texts := ActionTexts(actions, style, w);
    JoinPrefixed(tab, texts, "\n");
    var lines := Prefixed(tab, texts);
    forall i | 0 <= i < |lines|
      ensures '\n' !in lines[i]
    {
      assert lines[i] == tab + texts[i];
    }
    SplitJoin(lines, '\n');
  }
}
