/** The transform (src/transform/arguments.ts, actions.ts, conditions.ts and
  * style.ts): text edits that turn the source an old tree was parsed from
  * into source for a new bare tree, keeping whatever the two trees share.
  * Arguments, actions and conditions call each other, so they form one
  * module. The `...F` functions state what the insert side produces; the
  * methods walk the diff scripts with the moving position of the source. */
module Transform {
  import opened Wrappers
  import opened Spans
  import opened Strings
  import opened NodeTypes
  import opened Ir
  import opened Semantics
  import opened Diffs
  import opened Scripts
  import opened TextEdits
  import opened Styles
  import opened JsValues

  datatype StatStyle = PlaceholderStat | ShorthandStat

  datatype PlaceholderStyle = NormalPlaceholder | QuotedPlaceholder

  /** `CodeStyle` (src/transform/style.ts:6-14). */
  datatype CodeStyle = CodeStyle(
    tab: string,
    binOpStyle: OpStyle,
    cmpOpStyle: OpStyle,
    statStyle: StatStyle,
    placeholderStyle: PlaceholderStyle,
    lineLength: int,
    explicitConditionalAnd: bool)

  /** `DEFAULT_CODE_STYLE` (src/transform/style.ts:16-24). */
  const DEFAULT_CODE_STYLE := CodeStyle("    ", Symbolic, Symbolic, ShorthandStat, NormalPlaceholder, 80, false)

  /** The keyword and symbol tables the transform reads from outside this
    * repository: `ACTION_KWS` and `CONDITIONS` (the keyword of a node type),
    * `OPERATION_SYMBOLS` and `COMPARISON_SYMBOLS`. */
  datatype Symbols = Symbols(keyword: NodeType -> string, operation: string -> string, comparison: string -> string)

  /** `edit(span(pos, pos), text)`: an insertion at `pos`. */
  function At(pos: nat, text: string): TextEdit
  {
    TextEdit(Span(pos, pos), text)
  }

  // ---------------------------------------------------------------------
  // Sizes, for termination only

  ghost function BSize(b: Bare): nat
    decreases b, 2, 0
  {
    1 + BFieldsSize(b, |b.fields|)
  }

  /** The sizes of the first `n` field values of `b`. */
  ghost function BFieldsSize(b: Bare, n: nat): nat
    requires n <= |b.fields|
    decreases b, 1, n
  {
    if n == 0 then 0
    else
      var last := b.fields[n - 1];
      assert last in b.fields;
      BFieldsSize(b, n - 1) + BValueSize(last.1)
  }

  ghost function BValueSize(v: BareValue): nat
    decreases v, 0, 0
  {
    match v
    case BPrim(_) => 1
    case BNodes(ns) => 1 + BNodesSize(ns)
  }

  ghost function BNodesSize(ns: seq<Bare>): nat
    decreases ns, 3, 0
  {
    if |ns| == 0 then 0 else BNodesSize(ns[..|ns| - 1]) + BSize(ns[|ns| - 1])
  }

  ghost function ISize(n: IrNode): nat
    decreases n, 2, 0
  {
    1 + IFieldsSize(n.fields)
  }

  ghost function IFieldsSize(fs: seq<Field>): nat
    decreases fs, 1, 0
  {
    if |fs| == 0 then 0 else IFieldsSize(fs[..|fs| - 1]) + IValueSize(fs[|fs| - 1].value)
  }

  ghost function IValueSize(v: IrValue): nat
    decreases v, 0, 0
  {
    match v
    case IPrim(_) => 1
    case INodes(ns) => 1 + INodesSize(ns)
  }

  ghost function INodesSize(ns: seq<IrNode>): nat
    decreases ns, 3, 0
  {
    if |ns| == 0 then 0 else INodesSize(ns[..|ns| - 1]) + ISize(ns[|ns| - 1])
  }

  lemma {:induction false} BNodeBound(ns: seq<Bare>, i: nat)
    requires i < |ns|
    ensures BSize(ns[i]) <= BNodesSize(ns)
  {
    if i < |ns| - 1 {
      BNodeBound(ns[..|ns| - 1], i);
    }
  }

  lemma BNodeInBound(ns: seq<Bare>, x: Bare)
    requires x in ns
    ensures BSize(x) <= BNodesSize(ns)
  {
    var i :| 0 <= i < |ns| && ns[i] == x;
    BNodeBound(ns, i);
  }

  lemma {:induction false} BFieldBound(b: Bare, n: nat, i: nat)
    requires i < n <= |b.fields|
    ensures BValueSize(b.fields[i].1) <= BFieldsSize(b, n)
    decreases n
  {
    if i < n - 1 {
      BFieldBound(b, n - 1, i);
    }
  }

  lemma {:induction false} INodeBound(ns: seq<IrNode>, i: nat)
    requires i < |ns|
    ensures ISize(ns[i]) <= INodesSize(ns)
  {
    if i < |ns| - 1 {
      INodeBound(ns[..|ns| - 1], i);
    }
  }

  lemma INodeInBound(ns: seq<IrNode>, x: IrNode)
    requires x in ns
    ensures ISize(x) <= INodesSize(ns)
  {
    var i :| 0 <= i < |ns| && ns[i] == x;
    INodeBound(ns, i);
  }

  lemma {:induction false} IFieldBound(fs: seq<Field>, i: nat)
    requires i < |fs|
    ensures IValueSize(fs[i].value) <= IFieldsSize(fs)
  {
    if i < |fs| - 1 {
      IFieldBound(fs[..|fs| - 1], i);
    }
  }

  lemma IFieldInBound(fs: seq<Field>, f: Field)
    requires f in fs
    ensures IValueSize(f.value) <= IFieldsSize(fs)
  {
    var i :| 0 <= i < |fs| && fs[i] == f;
    IFieldBound(fs, i);
  }

  // ---------------------------------------------------------------------
  // Reading a bare node as an object

  /** `obj[key]` on the fields of a bare node: the first field called `key`,
    * or `undefined`. */
  function Lookup(fs: seq<(string, BareValue)>, key: string): (r: BareValue)
    ensures r == BPrim(PUndefined) || exists i :: 0 <= i < |fs| && fs[i].0 == key && fs[i].1 == r
    ensures key !in BareFieldNames(fs) ==> r == BPrim(PUndefined)
  {
    if |fs| == 0 then BPrim(PUndefined)
    else if fs[0].0 == key then fs[0].1
    else
      var r := Lookup(fs[1..], key);
      assert forall i :: 0 <= i < |fs| - 1 ==> fs[1..][i] == fs[i + 1];
      r
  }

  /** `b[key]`: the value of field `key`, or `undefined`. */
  function Get(b: Bare, key: string): (r: BareValue)
    ensures BValueSize(r) <= BSize(b)
  {
    LookupBound(b, key);
    Lookup(b.fields, key)
  }

  lemma LookupBound(b: Bare, key: string)
    ensures BValueSize(Lookup(b.fields, key)) <= BSize(b)
  {
    var r := Lookup(b.fields, key);
    if r != BPrim(PUndefined) {
      var i :| 0 <= i < |b.fields| && b.fields[i].0 == key && b.fields[i].1 == r;
      BFieldBound(b, |b.fields|, i);
    }
  }

  /** The bare nodes a value holds: a list read where a list is expected. */
  function BNodesOf(v: BareValue): (r: seq<Bare>)
    ensures BNodesSize(r) < BValueSize(v)
  {
    if v.BNodes? then v.nodes else []
  }

  function INodesOf(v: IrValue): (r: seq<IrNode>)
    ensures INodesSize(r) < IValueSize(v)
  {
    if v.INodes? then v.nodes else []
  }

  /** The list in field `key` of a bare node. */
  function ListOf(b: Bare, key: string): (r: seq<Bare>)
    ensures BNodesSize(r) < BSize(b)
  {
    BNodesOf(Get(b, key))
  }

  /** The kind the descriptor of a node's type gives a field, from the
    * corrected table: it agrees with the table as written except for
    * CHANGE_HUNGER, whose `op` is an operation and `amount` an amount. */
  function ActionKind(tag: NodeType, key: string): (r: Option<SemanticKind>)
    ensures !tag.Act? ==> r.None?
    ensures tag.Act? && tag.a != CHANGE_HUNGER ==> r == KindOf(ActionDescriptorAsWritten(tag.a), key)
    ensures tag == Act(CHANGE_HUNGER) && key == "op" ==> r == Some(Operation)
    ensures tag == Act(CHANGE_HUNGER) && key == "amount" ==> r == Some(Amount)
  {
    ChangeHungerCorrected();
    if tag.Act? then KindOf(ActionDescriptor(tag.a), key) else None
  }

  function ConditionKind(tag: NodeType, key: string): Option<SemanticKind>
  {
    if tag.Cond? then KindOf(ConditionDescriptor(tag.c), key) else None
  }

  /** Looking a key up in an unwrapped node finds the unwrapped value of the
    * first field of that name. */
  lemma {:induction false} LookupUnwrap(fs: seq<Field>, key: string)
    ensures Lookup(UnwrapFields(fs), key)
      == (match FindField(fs, key)
          case Some(f) => UnwrapValue(f.value)
          case None => BPrim(PUndefined))
  {
    if |fs| > 0 {
      LookupUnwrap(fs[1..], key);
      assert UnwrapFields(fs)[1..] == UnwrapFields(fs[1..]);
    }
  }

  // ---------------------------------------------------------------------
  // Argument text

  /** `s.replace(c, d)` with a one-character string pattern: only the first
    * occurrence is replaced. */
  function ReplaceFirst(s: string, c: char, d: char): string
  {
    var i := IndexOf(s, c);
    if i < 0 then s else s[..i] + [d] + s[i + 1..]
  }

  /** Without `c` the text is kept; otherwise its first `c`, and only that
    * one, becomes `d` (src/transform/arguments.ts:92). */
  lemma ReplaceFirstIs(s: string, c: char, d: char)
    ensures |ReplaceFirst(s, c, d)| == |s|
    ensures c !in s ==> ReplaceFirst(s, c, d) == s
    ensures c in s ==> (exists i :: 0 <= i < |s| && c !in s[..i] && ReplaceFirst(s, c, d) == s[..i] + [d] + s[i + 1..])
  {
  }

  /** A second `_` of a written comparison stays. */
  lemma ReplaceKeepsLater(s: string, i: nat, j: nat)
    requires i < j < |s| && s[i] == '_' && s[j] == '_'
    ensures ReplaceFirst(s, '_', ' ')[j] == '_'
  {
    var k := IndexOf(s, '_');
    assert s[i] in s;
    assert forall m :: 0 <= m < k ==> s[..k][m] == s[m];
    assert k <= i;
  }

  /** The mode word of a conditional: nothing for an implicit `and`. */
  function ModeWord(explicitAnd: bool, matchAny: bool): (r: string)
    ensures r == "" <==> !explicitAnd && !matchAny
    ensures r != "" ==> r == (if matchAny then "or" else "and")
  {
    if !explicitAnd && !matchAny then "" else if matchAny then "or" else "and"
  }

  function LocationText(v: BareValue): string
  {
    match v
    case BPrim(PLocation(LocationCustom(c))) => "custom_coordinates \"" + c + "\""
    case BPrim(PLocation(LocationSpawn)) => "house_spawn"
    case _ => "invokers_location"
  }

  /** The text `insertArgument` emits for an argument of a kind that is not
    * a list (src/transform/arguments.ts:57-58, 80-121). */
  function ArgumentText(arg: BareValue, kind: Option<SemanticKind>, style: CodeStyle, sym: Symbols): string
  {
    match kind
    case Some(StringKind) => "\"" + JsText(arg) + "\""
    case Some(Operation) =>
      if style.binOpStyle.Symbolic? then sym.operation(JsText(arg)) else JsText(arg)
    case Some(Comparison) =>
      if style.cmpOpStyle.Symbolic? then sym.comparison(JsText(arg)) else ReplaceFirst(JsText(arg), '_', ' ')
    case Some(ConditionalMode) => ModeWord(style.explicitConditionalAnd, Truthy(arg))
    case Some(LocationKind) => LocationText(arg)
    case Some(Inversion) => if Truthy(arg) then "!" else ""
    case _ => JsText(arg)
  }

  predicate IsBlockKind(kind: Option<SemanticKind>)
  {
    kind == Some(Actions) || kind == Some(Conditions)
  }

  // ---------------------------------------------------------------------
  // What the insert side produces

  /** `insertArgument` (src/transform/arguments.ts:46-123). */
  function InsertArgumentF(arg: BareValue, pos: nat, kind: Option<SemanticKind>, style: CodeStyle, sym: Symbols): seq<TextEdit>
    decreases BValueSize(arg), 0, 0
  {
    if Nullish(arg) then []
    else if kind == Some(Actions) then
      [At(pos, "{\n")] + InsertActionsF(BNodesOf(arg), pos, true, style, sym) + [At(pos, "}")]
    else if kind == Some(Conditions) then
      [At(pos, "{\n")] + ConditionInsertsF(BNodesOf(arg), pos + 1, style, sym) + [At(pos, "}")]
    else [At(pos, ArgumentText(arg, kind, style, sym))]
  }

  /** `insertActions` = `modifyActions([], …)`: every action inserted at
    * `pos`, each after a newline and an optional tab. */
  function InsertActionsF(xs: seq<Bare>, pos: nat, tab: bool, style: CodeStyle, sym: Symbols): seq<TextEdit>
    decreases BNodesSize(xs), 5, 0
  {
    if |xs| == 0 then []
    else
      assert BNodesSize(xs) == BNodesSize(xs[..|xs| - 1]) + BSize(xs[|xs| - 1]);
      InsertActionsF(xs[..|xs| - 1], pos, tab, style, sym) + InsertEntryF(xs[|xs| - 1], pos, tab, style, sym)
  }

  /** The edits of one insert entry of `modifyActions`
    * (src/transform/actions.ts:32-35). */
  function InsertEntryF(x: Bare, pos: nat, tab: bool, style: CodeStyle, sym: Symbols): seq<TextEdit>
    decreases BSize(x), 4, 0
  {
    [At(pos, "\n")] + (if tab then [At(pos, style.tab)] else []) + InsertActionF(x, pos, style, sym)
  }

  /** `insertAction` (src/transform/actions.ts:49-79). */
  function InsertActionF(b: Bare, pos: nat, style: CodeStyle, sym: Symbols): seq<TextEdit>
    decreases BSize(b), 3, 0
  {
    if b.tag == Act(CONDITIONAL) then InsertConditionalF(b, pos, style, sym)
    else if b.tag == Act(RANDOM) then
      [At(pos, "random {\n")] + InsertActionsF(ListOf(b, "actions"), pos, true, style, sym) + [At(pos, "}")]
    else [At(pos, sym.keyword(b.tag))] + ActionArgsF(b, b.fields, pos, style, sym)
  }

  /** `" "` and the inserted argument for each of the fields `fs` of `b`. */
  function ActionArgsF(b: Bare, fs: seq<(string, BareValue)>, pos: nat, style: CodeStyle, sym: Symbols): seq<TextEdit>
    decreases BSize(b), 1, |fs|
  {
    if |fs| == 0 then []
    else
      var key := fs[|fs| - 1].0;
      ActionArgsF(b, fs[..|fs| - 1], pos, style, sym)
      + [At(pos, " ")] + InsertArgumentF(Get(b, key), pos, ActionKind(b.tag, key), style, sym)
  }

  /** `insertCondition` (src/transform/conditions.ts:47-72). */
  function InsertConditionF(c: Bare, pos: nat, style: CodeStyle, sym: Symbols): seq<TextEdit>
    decreases BSize(c), 3, 0
  {
    (if Get(c, "inverted") == BPrim(PBool(true)) then [At(pos, "!")] else [])
    + [At(pos, sym.keyword(c.tag))] + ConditionArgsF(c, c.fields, pos, style, sym)
  }

  /** `" "` and the inserted argument for each field but `inverted`. */
  function ConditionArgsF(c: Bare, fs: seq<(string, BareValue)>, pos: nat, style: CodeStyle, sym: Symbols): seq<TextEdit>
    decreases BSize(c), 1, |fs|
  {
    if |fs| == 0 then []
    else
      var key := fs[|fs| - 1].0;
      ConditionArgsF(c, fs[..|fs| - 1], pos, style, sym)
      + (if key == "inverted" then []
         else [At(pos, " ")] + InsertArgumentF(Get(c, key), pos, ConditionKind(c.tag, key), style, sym))
  }

  /** The insert entries of `modifyConditions([], xs, …)`: each condition
    * and `", "` at `at`. */
  function ConditionInsertsF(xs: seq<Bare>, at: nat, style: CodeStyle, sym: Symbols): seq<TextEdit>
    decreases BNodesSize(xs), 5, 0
  {
    if |xs| == 0 then []
    else
      assert BNodesSize(xs) == BNodesSize(xs[..|xs| - 1]) + BSize(xs[|xs| - 1]);
      ConditionInsertsF(xs[..|xs| - 1], at, style, sym) + InsertConditionF(xs[|xs| - 1], at, style, sym) + [At(at, ", ")]
  }

  /** The edit group of each condition (src/transform/actions.ts:122-128). */
  function GroupsF(cs: seq<Bare>, pos: nat, style: CodeStyle, sym: Symbols): (gs: seq<seq<TextEdit>>)
    ensures |gs| == |cs|
    decreases BNodesSize(cs), 4, 0
  {
    if |cs| == 0 then []
    else
      assert BNodesSize(cs) == BNodesSize(cs[..|cs| - 1]) + BSize(cs[|cs| - 1]);
      GroupsF(cs[..|cs| - 1], pos, style, sym) + [InsertConditionF(cs[|cs| - 1], pos, style, sym)]
  }

  /** The total text length of some edits. */
  function EditsLength(es: seq<TextEdit>): nat
  {
    if |es| == 0 then 0 else EditsLength(es[..|es| - 1]) + |es[|es| - 1].text|
  }

  function GroupsLength(gs: seq<seq<TextEdit>>): nat
  {
    if |gs| == 0 then 0 else GroupsLength(gs[..|gs| - 1]) + EditsLength(gs[|gs| - 1])
  }

  /** The groups in order, each followed by `", \n"`. */
  function Lines(gs: seq<seq<TextEdit>>, pos: nat): seq<TextEdit>
  {
    if |gs| == 0 then [] else Lines(gs[..|gs| - 1], pos) + gs[|gs| - 1] + [At(pos, ", \n")]
  }

  /** A block body: each action after a tab and before a newline. */
  function BodyF(xs: seq<Bare>, pos: nat, style: CodeStyle, sym: Symbols): seq<TextEdit>
    decreases BNodesSize(xs), 4, 0
  {
    if |xs| == 0 then []
    else
      assert BNodesSize(xs) == BNodesSize(xs[..|xs| - 1]) + BSize(xs[|xs| - 1]);
      BodyF(xs[..|xs| - 1], pos, style, sym) + [At(pos, style.tab)] + InsertActionF(xs[|xs| - 1], pos, style, sym) + [At(pos, "\n")]
  }

  /** `insertActionConditional` (src/transform/actions.ts:108-167). */
  function InsertConditionalF(b: Bare, pos: nat, style: CodeStyle, sym: Symbols): seq<TextEdit>
    decreases BSize(b), 2, 0
  {
    ConditionalHeadF(GroupsF(ListOf(b, "conditions"), pos, style, sym), Truthy(Get(b, "matchAny")), pos, style)
    + BlockF(ListOf(b, "ifActions"), pos, style, sym)
    + ElseF(ListOf(b, "elseActions"), pos, style, sym)
  }

  /** Everything up to the opening brace of the body
    * (src/transform/actions.ts:116-146). */
  function ConditionalHeadF(groups: seq<seq<TextEdit>>, matchAny: bool, pos: nat, style: CodeStyle): seq<TextEdit>
  {
    [At(pos, "if ")]
    + (if !(!style.explicitConditionalAnd && !matchAny) then [At(pos, if matchAny then "or" else "and")] else [])
    + [At(pos, "(")]
    + (if GroupsLength(groups) > style.lineLength then [At(pos, "\n")] else [])
    + Lines(groups, pos)
    + [At(pos, ") {\n")]
  }

  /** A body and its closing brace. */
  function BlockF(xs: seq<Bare>, pos: nat, style: CodeStyle, sym: Symbols): seq<TextEdit>
    decreases BNodesSize(xs), 5, 0
  {
    BodyF(xs, pos, style, sym) + [At(pos, "}")]
  }

  /** The else block, present only when there are else actions. */
  function ElseF(xs: seq<Bare>, pos: nat, style: CodeStyle, sym: Symbols): seq<TextEdit>
    decreases BNodesSize(xs), 6, 0
  {
    if |xs| > 0 then [At(pos, " else {\n")] + BlockF(xs, pos, style, sym) else []
  }

  /** Edit groups in order. */
  function Flatten(gs: seq<seq<TextEdit>>): seq<TextEdit>
  {
    if |gs| == 0 then [] else Flatten(gs[..|gs| - 1]) + gs[|gs| - 1]
  }

  lemma FlattenSnoc(gs: seq<seq<TextEdit>>, g: seq<TextEdit>)
    ensures Flatten(gs + [g]) == Flatten(gs) + g
  {
    assert (gs + [g])[..|gs|] == gs;
  }

  /** One erasing edit per old element. */
  function Erasures(ns: seq<IrNode>): seq<TextEdit>
  {
    if |ns| == 0 then [] else Erasures(ns[..|ns| - 1]) + [TextEdit(ns[|ns| - 1].span, "")]
  }

  /** `pos` in `modifyAction` after the keys `done`: the end of the keyword
    * until some key is found in the old node, the end of the whole old node
    * from then on (src/transform/actions.ts:87, 96-97). */
  function ModifyPos(f: IrNode, done: seq<(string, BareValue)>): (p: nat)
    ensures p == f.kwSpan.end || p == f.span.end
    ensures (forall k :: 0 <= k < |done| ==> FindField(f.fields, done[k].0).None?) ==> p == f.kwSpan.end
  {
    if |done| == 0 then f.kwSpan.end
    else if FindField(f.fields, done[|done| - 1].0).Some? then f.span.end
    else ModifyPos(f, done[..|done| - 1])
  }

  // ---------------------------------------------------------------------
  // What the modify side produces. `diff` is only known to return a
  // shortest edit script, so these relate the inputs to every list of edits
  // the source can produce for one of them.

  /** `modifyArgument` (src/transform/arguments.ts:17-44). */
  ghost predicate ArgumentOutcome(from: Field, to: BareValue, kind: Option<SemanticKind>, style: CodeStyle, sym: Symbols, edits: seq<TextEdit>)
    decreases IValueSize(from.value) + BValueSize(to), 0, 0
  {
    if StrictEq(from.value, to) then edits == []
    else if kind == Some(Actions) then
      ActionsOutcome(INodesOf(from.value), BNodesOf(to), from.span.start, true, style, sym, edits)
    else if kind == Some(Conditions) then
      ConditionsOutcome(INodesOf(from.value), BNodesOf(to), from.span.start, style, sym, edits)
    else edits == [TextEdit(from.span, "")] + InsertArgumentF(to, from.span.end, kind, style, sym)
  }

  /** `modifyActions` (src/transform/actions.ts:20-47): for some shortest
    * script from `from` to `to`, the edits of its entries in order. */
  ghost predicate ActionsOutcome(from: seq<IrNode>, to: seq<Bare>, pos: nat, tab: bool, style: CodeStyle, sym: Symbols, edits: seq<TextEdit>)
    decreases INodesSize(from) + BNodesSize(to), 5, 0
  {
    exists script: seq<Change>, parts: seq<seq<TextEdit>> :: ActionsWitness(from, to, pos, tab, style, sym, edits, script, parts)
  }

  ghost predicate ActionsWitness(from: seq<IrNode>, to: seq<Bare>, pos: nat, tab: bool, style: CodeStyle, sym: Symbols,
                                 edits: seq<TextEdit>, script: seq<Change>, parts: seq<seq<TextEdit>>)
    decreases INodesSize(from) + BNodesSize(to), 4, 0
  {
    Aligns(script, from, to) && Shortest(script, from, to)
    && |parts| == |script| && edits == Flatten(parts)
    && ActionSteps(from, to, script, pos, tab, style, sym, parts)
  }

  /** The first `|parts|` entries of the script each give their part. */
  ghost predicate ActionSteps(from: seq<IrNode>, to: seq<Bare>, script: seq<Change>, pos: nat, tab: bool,
                              style: CodeStyle, sym: Symbols, parts: seq<seq<TextEdit>>)
    requires Aligns(script, from, to) && |parts| <= |script|
    decreases INodesSize(from) + BNodesSize(to), 3, |parts| + 1
  {
    |parts| == 0
    || (ActionSteps(from, to, script, pos, tab, style, sym, parts[..|parts| - 1])
        && ActionStep(from, to, script, |parts| - 1, Cursor(script[..|parts| - 1], pos), tab, style, sym, parts[|parts| - 1]))
  }

  /** Entry `j` of the script gave part `j`. */
  lemma {:induction false} ActionStepsAt(from: seq<IrNode>, to: seq<Bare>, script: seq<Change>, pos: nat, tab: bool,
                                         style: CodeStyle, sym: Symbols, parts: seq<seq<TextEdit>>, j: nat)
    requires Aligns(script, from, to) && |parts| <= |script|
    requires ActionSteps(from, to, script, pos, tab, style, sym, parts)
    requires j < |parts|
    ensures ActionStep(from, to, script, j, Cursor(script[..j], pos), tab, style, sym, parts[j])
  {
    if j < |parts| - 1 {
      ActionStepsAt(from, to, script, pos, tab, style, sym, parts[..|parts| - 1], j);
    }
  }

  lemma ActionStepsSnoc(from: seq<IrNode>, to: seq<Bare>, script: seq<Change>, pos: nat, tab: bool,
                        style: CodeStyle, sym: Symbols, parts: seq<seq<TextEdit>>, part: seq<TextEdit>)
    requires Aligns(script, from, to) && |parts| < |script|
    requires ActionSteps(from, to, script, pos, tab, style, sym, parts)
    requires ActionStep(from, to, script, |parts|, Cursor(script[..|parts|], pos), tab, style, sym, part)
    ensures ActionSteps(from, to, script, pos, tab, style, sym, parts + [part])
  {
    assert (parts + [part])[..|parts|] == parts;
  }

  /** One more round of the loop of `modifyActions` keeps its invariant. */
  lemma ActionsAdvance(from: seq<IrNode>, to: seq<Bare>, script: seq<Change>, pos: nat, tab: bool,
                       style: CodeStyle, sym: Symbols, parts: seq<seq<TextEdit>>, part: seq<TextEdit>, nextPos: nat)
    requires Aligns(script, from, to) && |parts| < |script|
    requires ActionSteps(from, to, script, pos, tab, style, sym, parts)
    requires ActionStep(from, to, script, |parts|, Cursor(script[..|parts|], pos), tab, style, sym, part)
    requires nextPos == if script[|parts|].Insert? then Cursor(script[..|parts|], pos) else script[|parts|].from.span.end
    ensures ActionSteps(from, to, script, pos, tab, style, sym, parts + [part])
    ensures nextPos == Cursor(script[..|parts| + 1], pos)
    ensures Flatten(parts + [part]) == Flatten(parts) + part
  {
    ActionStepsSnoc(from, to, script, pos, tab, style, sym, parts, part);
    CursorStep(script, |parts|, pos);
    FlattenSnoc(parts, part);
  }

  /** The edits of entry `j`, at the position `cur` reached before it
    * (src/transform/actions.ts:31-43). */
  ghost predicate ActionStep(from: seq<IrNode>, to: seq<Bare>, script: seq<Change>, j: nat, cur: nat, tab: bool,
                             style: CodeStyle, sym: Symbols, part: seq<TextEdit>)
    requires Aligns(script, from, to) && j < |script|
    decreases INodesSize(from) + BNodesSize(to), 3, 0
  {
    match script[j]
    case Insert(x) => part == InsertEntryF(x, cur, tab, style, sym)
    case Delete(f) => part == [TextEdit(f.span, "")]
    case Modify(f, x) =>
      StepBound(from, to, script, j);
      ActionOutcome(f, x, style, sym, part)
  }

  /** `modifyAction` (src/transform/actions.ts:81-106): one group of edits
    * per key of the new node. */
  ghost predicate ActionOutcome(f: IrNode, x: Bare, style: CodeStyle, sym: Symbols, edits: seq<TextEdit>)
    decreases ISize(f) + BSize(x), 2, 0
  {
    exists parts: seq<seq<TextEdit>> :: ActionFieldsWitness(f, x, style, sym, edits, parts)
  }

  ghost predicate ActionFieldsWitness(f: IrNode, x: Bare, style: CodeStyle, sym: Symbols, edits: seq<TextEdit>, parts: seq<seq<TextEdit>>)
    decreases ISize(f) + BSize(x), 1, 0
  {
    |parts| == |x.fields| && edits == Flatten(parts) && ActionFields(f, x, style, sym, parts)
  }

  /** The first `|parts|` keys of the new node each give their part. */
  ghost predicate ActionFields(f: IrNode, x: Bare, style: CodeStyle, sym: Symbols, parts: seq<seq<TextEdit>>)
    requires |parts| <= |x.fields|
    decreases ISize(f) + BSize(x), 0, 1
  {
    forall i :: 0 <= i < |parts| ==> ActionField(f, x, i, style, sym, parts[i])
  }

  lemma ActionFieldsSnoc(f: IrNode, x: Bare, style: CodeStyle, sym: Symbols, parts: seq<seq<TextEdit>>, part: seq<TextEdit>)
    requires |parts| < |x.fields|
    requires ActionFields(f, x, style, sym, parts)
    requires ActionField(f, x, |parts|, style, sym, part)
    ensures ActionFields(f, x, style, sym, parts + [part])
  {
    forall i | 0 <= i < |parts| + 1
      ensures ActionField(f, x, i, style, sym, (parts + [part])[i])
    {
      if i < |parts| {
        assert (parts + [part])[i] == parts[i];
      }
    }
  }

  /** A key the old node has goes through `modifyArgument`; a missing one
    * gets `" "` and the inserted argument at `pos`. */
  ghost predicate ActionField(f: IrNode, x: Bare, i: nat, style: CodeStyle, sym: Symbols, part: seq<TextEdit>)
    requires i < |x.fields|
    decreases ISize(f) + BSize(x), 0, 0
  {
    var key := x.fields[i].0;
    var kind := ActionKind(x.tag, key);
    match FindField(f.fields, key)
    case Some(ff) =>
      IFieldInBound(f.fields, ff);
      ArgumentOutcome(ff, Get(x, key), kind, style, sym, part)
    case None =>
      var p := ModifyPos(f, x.fields[..i]);
      part == [At(p, " ")] + InsertArgumentF(Get(x, key), p, kind, style, sym)
  }

  /** `modifyConditions` (src/transform/conditions.ts:20-45): like
    * `modifyActions`, from the position after `pos`. */
  ghost predicate ConditionsOutcome(from: seq<IrNode>, to: seq<Bare>, pos: nat, style: CodeStyle, sym: Symbols, edits: seq<TextEdit>)
    decreases INodesSize(from) + BNodesSize(to), 5, 0
  {
    exists script: seq<Change>, parts: seq<seq<TextEdit>> :: ConditionsWitness(from, to, pos, style, sym, edits, script, parts)
  }

  ghost predicate ConditionsWitness(from: seq<IrNode>, to: seq<Bare>, pos: nat, style: CodeStyle, sym: Symbols,
                                    edits: seq<TextEdit>, script: seq<Change>, parts: seq<seq<TextEdit>>)
    decreases INodesSize(from) + BNodesSize(to), 4, 0
  {
    Aligns(script, from, to) && Shortest(script, from, to)
    && |parts| == |script| && edits == Flatten(parts)
    && ConditionSteps(from, to, script, pos, style, sym, parts)
  }

  /** The first `|parts|` entries of the script each give their part. */
  ghost predicate ConditionSteps(from: seq<IrNode>, to: seq<Bare>, script: seq<Change>, pos: nat,
                                 style: CodeStyle, sym: Symbols, parts: seq<seq<TextEdit>>)
    requires Aligns(script, from, to) && |parts| <= |script|
    decreases INodesSize(from) + BNodesSize(to), 3, |parts| + 1
  {
    |parts| == 0
    || (ConditionSteps(from, to, script, pos, style, sym, parts[..|parts| - 1])
        && ConditionStep(from, to, script, |parts| - 1, Cursor(script[..|parts| - 1], pos + 1), style, sym, parts[|parts| - 1]))
  }

  /** Entry `j` of the script gave part `j`. */
  lemma {:induction false} ConditionStepsAt(from: seq<IrNode>, to: seq<Bare>, script: seq<Change>, pos: nat,
                                            style: CodeStyle, sym: Symbols, parts: seq<seq<TextEdit>>, j: nat)
    requires Aligns(script, from, to) && |parts| <= |script|
    requires ConditionSteps(from, to, script, pos, style, sym, parts)
    requires j < |parts|
    ensures ConditionStep(from, to, script, j, Cursor(script[..j], pos + 1), style, sym, parts[j])
  {
    if j < |parts| - 1 {
      ConditionStepsAt(from, to, script, pos, style, sym, parts[..|parts| - 1], j);
    }
  }

  lemma ConditionStepsSnoc(from: seq<IrNode>, to: seq<Bare>, script: seq<Change>, pos: nat,
                           style: CodeStyle, sym: Symbols, parts: seq<seq<TextEdit>>, part: seq<TextEdit>)
    requires Aligns(script, from, to) && |parts| < |script|
    requires ConditionSteps(from, to, script, pos, style, sym, parts)
    requires ConditionStep(from, to, script, |parts|, Cursor(script[..|parts|], pos + 1), style, sym, part)
    ensures ConditionSteps(from, to, script, pos, style, sym, parts + [part])
  {
    assert (parts + [part])[..|parts|] == parts;
  }

  /** An insert is the condition and `", "`; a delete or a modify as for
    * actions (src/transform/conditions.ts:31-41). */
  ghost predicate ConditionStep(from: seq<IrNode>, to: seq<Bare>, script: seq<Change>, j: nat, cur: nat,
                                style: CodeStyle, sym: Symbols, part: seq<TextEdit>)
    requires Aligns(script, from, to) && j < |script|
    decreases INodesSize(from) + BNodesSize(to), 3, 0
  {
    match script[j]
    case Insert(x) => part == InsertConditionF(x, cur, style, sym) + [At(cur, ", ")]
    case Delete(f) => part == [TextEdit(f.span, "")]
    case Modify(f, x) =>
      StepBound(from, to, script, j);
      ConditionOutcome(f, x, style, sym, part)
  }

  /** `modifyCondition` (src/transform/conditions.ts:74-98): one group of
    * edits per key of the OLD node, with the kinds of the new node's type. */
  ghost predicate ConditionOutcome(f: IrNode, x: Bare, style: CodeStyle, sym: Symbols, edits: seq<TextEdit>)
    decreases ISize(f) + BSize(x), 2, 0
  {
    exists parts: seq<seq<TextEdit>> :: ConditionFieldsWitness(f, x, style, sym, edits, parts)
  }

  ghost predicate ConditionFieldsWitness(f: IrNode, x: Bare, style: CodeStyle, sym: Symbols, edits: seq<TextEdit>, parts: seq<seq<TextEdit>>)
    decreases ISize(f) + BSize(x), 1, 0
  {
    |parts| == |f.fields| && edits == Flatten(parts) && ConditionFields(f, x, style, sym, parts)
  }

  /** The first `|parts|` keys of the old node each give their part. */
  ghost predicate ConditionFields(f: IrNode, x: Bare, style: CodeStyle, sym: Symbols, parts: seq<seq<TextEdit>>)
    requires |parts| <= |f.fields|
    decreases ISize(f) + BSize(x), 0, 1
  {
    forall i :: 0 <= i < |parts| ==> ConditionField(f, x, i, style, sym, parts[i])
  }

  lemma ConditionFieldsSnoc(f: IrNode, x: Bare, style: CodeStyle, sym: Symbols, parts: seq<seq<TextEdit>>, part: seq<TextEdit>)
    requires |parts| < |f.fields|
    requires ConditionFields(f, x, style, sym, parts)
    requires ConditionField(f, x, |parts|, style, sym, part)
    ensures ConditionFields(f, x, style, sym, parts + [part])
  {
    forall i | 0 <= i < |parts| + 1
      ensures ConditionField(f, x, i, style, sym, (parts + [part])[i])
    {
      if i < |parts| {
        assert (parts + [part])[i] == parts[i];
      }
    }
  }

  /** The key is the old node's own, so its first field of that name goes
    * through `modifyArgument`. */
  ghost predicate ConditionField(f: IrNode, x: Bare, i: nat, style: CodeStyle, sym: Symbols, part: seq<TextEdit>)
    requires i < |f.fields|
    decreases ISize(f) + BSize(x), 0, 0
  {
    var key := f.fields[i].name;
    assert FieldNames(f.fields)[i] == key;
    var ff := FindField(f.fields, key).value;
    IFieldInBound(f.fields, ff);
    ArgumentOutcome(ff, Get(x, key), ConditionKind(x.tag, key), style, sym, part)
  }

  lemma CursorStep(script: seq<Change>, i: nat, start: nat)
    requires i < |script|
    ensures Cursor(script[..i + 1], start)
      == if script[i].Insert? then Cursor(script[..i], start) else script[i].from.span.end
  {
    assert script[..i + 1][..i] == script[..i];
  }

  lemma StepBound(from: seq<IrNode>, to: seq<Bare>, script: seq<Change>, j: nat)
    requires Aligns(script, from, to) && j < |script| && script[j].Modify?
    ensures ISize(script[j].from) + BSize(script[j].to) <= INodesSize(from) + BNodesSize(to)
  {
    FromInFroms(script, j);
    ToInTos(script, j);
    INodeInBound(from, script[j].from);
    BNodeInBound(to, script[j].to);
  }

  // ---------------------------------------------------------------------
  // The operations

  /** `diff(from, to)`, with its minimality read through `Shortest`. */
  method ShortestScript(from: seq<IrNode>, to: seq<Bare>) returns (script: seq<Change>)
    ensures Aligns(script, from, to) && Shortest(script, from, to)
  {
    script := Diff(from, to);
  }

  /** `insertArgument` (src/transform/arguments.ts:46-123). */
  method InsertArgument(arg: BareValue, pos: nat, kind: Option<SemanticKind>, style: CodeStyle, sym: Symbols) returns (edits: seq<TextEdit>)
    ensures edits == InsertArgumentF(arg, pos, kind, style, sym)
    decreases BValueSize(arg), 0, 0
  {
    if Nullish(arg) {
      return [];
    }
    if kind == Some(Actions) {
      var inner := InsertActions(BNodesOf(arg), pos, true, style, sym);
      edits := [At(pos, "{\n")] + inner + [At(pos, "}")];
    } else if kind == Some(Conditions) {
      var inner := InsertConditions(BNodesOf(arg), pos, style, sym);
      edits := [At(pos, "{\n")] + inner + [At(pos, "}")];
    } else {
      edits := [At(pos, ArgumentText(arg, kind, style, sym))];
    }
  }

  /** `modifyArgument` (src/transform/arguments.ts:17-44). */
  method ModifyArgument(from: Field, to: BareValue, kind: Option<SemanticKind>, style: CodeStyle, sym: Symbols) returns (edits: seq<TextEdit>)
    ensures ArgumentOutcome(from, to, kind, style, sym, edits)
    decreases IValueSize(from.value) + BValueSize(to), 1, 0
  {
    if StrictEq(from.value, to) {
      return [];
    }
    if kind == Some(Actions) {
      edits := ModifyActions(INodesOf(from.value), BNodesOf(to), from.span.start, true, style, sym);
    } else if kind == Some(Conditions) {
      edits := ModifyConditions(INodesOf(from.value), BNodesOf(to), from.span.start, style, sym);
    } else {
      var inserted := InsertArgument(to, from.span.end, kind, style, sym);
      edits := [TextEdit(from.span, "")] + inserted;
    }
  }

  /** `insertActions` (src/transform/actions.ts:12-18). */
  method InsertActions(xs: seq<Bare>, pos: nat, tab: bool, style: CodeStyle, sym: Symbols) returns (edits: seq<TextEdit>)
    ensures edits == InsertActionsF(xs, pos, tab, style, sym)
    decreases BNodesSize(xs), 7, 0
  {
    edits := ModifyActions([], xs, pos, tab, style, sym);
    ActionsFromEmpty(xs, pos, tab, style, sym, edits);
  }

  /** `modifyActions` (src/transform/actions.ts:20-47). */
  method ModifyActions(from: seq<IrNode>, to: seq<Bare>, pos: nat, tab: bool, style: CodeStyle, sym: Symbols) returns (edits: seq<TextEdit>)
    ensures ActionsOutcome(from, to, pos, tab, style, sym, edits)
    decreases INodesSize(from) + BNodesSize(to), 6, 0
  {
    var script := ShortestScript(from, to);
    edits := [];
    ghost var parts: seq<seq<TextEdit>> := [];
    var currentPos := pos;
    var i := 0;
    while i < |script|
      invariant 0 <= i <= |script|
      invariant |parts| == i && edits == Flatten(parts)
      invariant currentPos == Cursor(script[..i], pos)
      invariant ActionSteps(from, to, script, pos, tab, style, sym, parts)
    {
      var part;
      part, currentPos := ActionsRound(from, to, script, pos, tab, style, sym, parts, i, currentPos);
      edits := edits + part;
      parts := parts + [part];
      i := i + 1;
    }
    assert script[..i] == script;
    assert ActionsWitness(from, to, pos, tab, style, sym, edits, script, parts);
  }

  /** The round of the loop of `modifyActions` for entry `i`, and
    * what it adds to the loop's invariant. */
  method ActionsRound(from: seq<IrNode>, to: seq<Bare>, script: seq<Change>, pos: nat, tab: bool, style: CodeStyle, sym: Symbols,
                      ghost parts: seq<seq<TextEdit>>, i: nat, currentPos: nat) returns (part: seq<TextEdit>, nextPos: nat)
    requires Aligns(script, from, to) && i == |parts| < |script|
    requires ActionSteps(from, to, script, pos, tab, style, sym, parts)
    requires currentPos == Cursor(script[..|parts|], pos)
    ensures ActionSteps(from, to, script, pos, tab, style, sym, parts + [part])
    ensures nextPos == Cursor(script[..|parts| + 1], pos)
    ensures Flatten(parts + [part]) == Flatten(parts) + part
    decreases INodesSize(from) + BNodesSize(to), 5, 1
  {
    part, nextPos := ActionEntry(from, to, script, i, currentPos, tab, style, sym);
    ActionsAdvance(from, to, script, pos, tab, style, sym, parts, part, nextPos);
  }

  /** One round of the loop of src/transform/actions.ts:30-44. */
  method ActionEntry(from: seq<IrNode>, to: seq<Bare>, script: seq<Change>, i: nat, currentPos: nat, tab: bool,
                     style: CodeStyle, sym: Symbols) returns (part: seq<TextEdit>, nextPos: nat)
    requires Aligns(script, from, to) && i < |script|
    ensures ActionStep(from, to, script, i, currentPos, tab, style, sym, part)
    ensures nextPos == if script[i].Insert? then currentPos else script[i].from.span.end
    decreases INodesSize(from) + BNodesSize(to), 5, 0
  {
    match script[i]
    case Insert(x) =>
      ToInTos(script, i);
      BNodeInBound(to, x);
      var action := InsertAction(x, currentPos, style, sym);
      part := [At(currentPos, "\n")] + (if tab then [At(currentPos, style.tab)] else []) + action;
      nextPos := currentPos;
    case Delete(f) =>
      nextPos := f.span.end;
      part := [TextEdit(f.span, "")];
    case Modify(f, x) =>
      nextPos := f.span.end;
      StepBound(from, to, script, i);
      part := ModifyAction(f, x, style, sym);
  }

  /** `insertAction` (src/transform/actions.ts:49-79). */
  method InsertAction(b: Bare, pos: nat, style: CodeStyle, sym: Symbols) returns (edits: seq<TextEdit>)
    ensures edits == InsertActionF(b, pos, style, sym)
    decreases BSize(b), 3, 0
  {
    if b.tag == Act(CONDITIONAL) {
      edits := InsertActionConditional(b, pos, style, sym);
      return;
    }
    if b.tag == Act(RANDOM) {
      edits := InsertActionRandom(b, pos, style, sym);
      return;
    }
    var args: seq<TextEdit> := [];
    var i := 0;
    while i < |b.fields|
      invariant 0 <= i <= |b.fields|
      invariant args == ActionArgsF(b, b.fields[..i], pos, style, sym)
    {
      var property := b.fields[i].0;
      var kind := ActionKind(b.tag, property);
      var argument := InsertArgument(Get(b, property), pos, kind, style, sym);
      args := args + [At(pos, " ")] + argument;
      ActionArgsStep(b, i, pos, style, sym);
      i := i + 1;
    }
    assert b.fields[..i] == b.fields;
    edits := [At(pos, sym.keyword(b.tag))] + args;
  }

  lemma ActionArgsStep(b: Bare, i: nat, pos: nat, style: CodeStyle, sym: Symbols)
    requires i < |b.fields|
    ensures ActionArgsF(b, b.fields[..i + 1], pos, style, sym)
      == ActionArgsF(b, b.fields[..i], pos, style, sym)
         + [At(pos, " ")] + InsertArgumentF(Get(b, b.fields[i].0), pos, ActionKind(b.tag, b.fields[i].0), style, sym)
  {
    assert b.fields[..i + 1][..i] == b.fields[..i];
  }

  /** `modifyAction` (src/transform/actions.ts:81-106). */
  method ModifyAction(from: IrNode, to: Bare, style: CodeStyle, sym: Symbols) returns (edits: seq<TextEdit>)
    ensures ActionOutcome(from, to, style, sym, edits)
    decreases ISize(from) + BSize(to), 4, 0
  {
    edits := [];
    ghost var parts: seq<seq<TextEdit>> := [];
    var pos := from.kwSpan.end;
    var i := 0;
    while i < |to.fields|
      invariant 0 <= i <= |to.fields|
      invariant |parts| == i && edits == Flatten(parts)
      invariant pos == ModifyPos(from, to.fields[..i])
      invariant ActionFields(from, to, style, sym, parts)
    {
      var part;
      part, pos := ModifyActionField(from, to, i, pos, style, sym);
      ActionFieldsSnoc(from, to, style, sym, parts, part);
      FlattenSnoc(parts, part);
      edits := edits + part;
      parts := parts + [part];
      i := i + 1;
    }
    assert ActionFieldsWitness(from, to, style, sym, edits, parts);
  }

  /** One round of the loop of src/transform/actions.ts:88-104: the key
    * `to.fields[i]`, at the position `pos` reached so far. */
  method ModifyActionField(from: IrNode, to: Bare, i: nat, pos: nat, style: CodeStyle, sym: Symbols) returns (part: seq<TextEdit>, nextPos: nat)
    requires i < |to.fields| && pos == ModifyPos(from, to.fields[..i])
    ensures ActionField(from, to, i, style, sym, part)
    ensures nextPos == ModifyPos(from, to.fields[..i + 1])
    decreases ISize(from) + BSize(to), 3, 0
  {
    var property := to.fields[i].0;
    var kind := ActionKind(to.tag, property);
    var fromArgument := FindField(from.fields, property);
    var toArgument := Get(to, property);
    assert to.fields[..i + 1][..i] == to.fields[..i];
    if fromArgument.Some? {
      nextPos := from.span.end;
      IFieldInBound(from.fields, fromArgument.value);
      part := ModifyArgument(fromArgument.value, toArgument, kind, style, sym);
    } else {
      nextPos := pos;
      var argument := InsertArgument(toArgument, pos, kind, style, sym);
      part := [At(pos, " ")] + argument;
    }
  }

  /** `insertActionConditional` (src/transform/actions.ts:108-167). */
  method InsertActionConditional(b: Bare, pos: nat, style: CodeStyle, sym: Symbols) returns (edits: seq<TextEdit>)
    ensures edits == InsertConditionalF(b, pos, style, sym)
    decreases BSize(b), 2, 0
  {
    var conditionEdits := ConditionGroups(ListOf(b, "conditions"), pos, style, sym, BSize(b));
    var head := ConditionalHead(conditionEdits, Truthy(Get(b, "matchAny")), pos, style);
    var ifBody := Body(ListOf(b, "ifActions"), pos, style, sym, BSize(b));
    var ifBlock := ifBody + [At(pos, "}")];
    assert ifBlock == BlockF(ListOf(b, "ifActions"), pos, style, sym);
    var elseActions := ListOf(b, "elseActions");
    var elseBlock: seq<TextEdit> := [];
    if |elseActions| > 0 {
      var elseBody := Body(elseActions, pos, style, sym, BSize(b));
      elseBlock := [At(pos, " else {\n")] + (elseBody + [At(pos, "}")]);
    }
    assert elseBlock == ElseF(elseActions, pos, style, sym);
    edits := head + ifBlock + elseBlock;
  }

  /** src/transform/actions.ts:116-146: the keyword, the mode, the
    * conditions (on lines of their own when their text is longer than a
    * line) and the opening of the body. */
  method ConditionalHead(conditionEdits: seq<seq<TextEdit>>, matchAny: bool, pos: nat, style: CodeStyle) returns (edits: seq<TextEdit>)
    ensures edits == ConditionalHeadF(conditionEdits, matchAny, pos, style)
  {
    edits := [At(pos, "if ")];
    if !(!style.explicitConditionalAnd && !matchAny) {
      edits := edits + [At(pos, if matchAny then "or" else "and")];
    }
    edits := edits + [At(pos, "(")];
    var length := TotalLength(conditionEdits);
    if length > style.lineLength {
      edits := edits + [At(pos, "\n")];
    }
    edits := AppendLines(edits, conditionEdits, pos);
    edits := edits + [At(pos, ") {\n")];
  }

  /** The loop of src/transform/actions.ts:124-128: one edit group per
    * condition. */
  method ConditionGroups(conditions: seq<Bare>, pos: nat, style: CodeStyle, sym: Symbols, ghost bound: nat) returns (groups: seq<seq<TextEdit>>)
    requires BNodesSize(conditions) < bound
    ensures groups == GroupsF(conditions, pos, style, sym)
    decreases bound, 1, 0
  {
    groups := [];
    var i := 0;
    while i < |conditions|
      invariant 0 <= i <= |conditions|
      invariant groups == GroupsF(conditions[..i], pos, style, sym)
    {
      BNodeBound(conditions, i);
      var group := InsertCondition(conditions[i], pos, style, sym);
      assert conditions[..i + 1][..i] == conditions[..i];
      groups := groups + [group];
      i := i + 1;
    }
    assert conditions[..i] == conditions;
  }

  /** The loops of src/transform/actions.ts:130-135: the total text length
    * of the groups. */
  method TotalLength(groups: seq<seq<TextEdit>>) returns (length: nat)
    ensures length == GroupsLength(groups)
  {
    length := 0;
    var g := 0;
    while g < |groups|
      invariant 0 <= g <= |groups|
      invariant length == GroupsLength(groups[..g])
    {
      var group := groups[g];
      var k := 0;
      while k < |group|
        invariant 0 <= k <= |group|
        invariant length == GroupsLength(groups[..g]) + EditsLength(group[..k])
      {
        length := length + |group[k].text|;
        assert group[..k + 1][..k] == group[..k];
        k := k + 1;
      }
      assert group[..k] == group;
      assert groups[..g + 1][..g] == groups[..g];
      g := g + 1;
    }
    assert groups[..g] == groups;
  }

  /** The loop of src/transform/actions.ts:140-143: each group and
    * `", \n"`. */
  method AppendLines(edits: seq<TextEdit>, groups: seq<seq<TextEdit>>, pos: nat) returns (r: seq<TextEdit>)
    ensures r == edits + Lines(groups, pos)
  {
    r := edits;
    var g := 0;
    while g < |groups|
      invariant 0 <= g <= |groups|
      invariant r == edits + Lines(groups[..g], pos)
    {
      r := r + groups[g] + [At(pos, ", \n")];
      assert groups[..g + 1][..g] == groups[..g];
      g := g + 1;
    }
    assert groups[..g] == groups;
  }

  /** The loops of src/transform/actions.ts:147-151 and 158-162: each
    * action after a tab and before a newline. */
  method Body(xs: seq<Bare>, pos: nat, style: CodeStyle, sym: Symbols, ghost bound: nat) returns (r: seq<TextEdit>)
    requires BNodesSize(xs) < bound
    ensures r == BodyF(xs, pos, style, sym)
    decreases bound, 1, 0
  {
    r := [];
    var i := 0;
    while i < |xs|
      invariant 0 <= i <= |xs|
      invariant r == BodyF(xs[..i], pos, style, sym)
    {
      BNodeBound(xs, i);
      var action := InsertAction(xs[i], pos, style, sym);
      r := r + [At(pos, style.tab)] + action + [At(pos, "\n")];
      BodyStep(xs, i, pos, style, sym);
      i := i + 1;
    }
    assert xs[..i] == xs;
  }

  lemma BodyStep(xs: seq<Bare>, i: nat, pos: nat, style: CodeStyle, sym: Symbols)
    requires i < |xs|
    ensures BodyF(xs[..i + 1], pos, style, sym)
      == BodyF(xs[..i], pos, style, sym) + [At(pos, style.tab)] + InsertActionF(xs[i], pos, style, sym) + [At(pos, "\n")]
  {
    assert xs[..i + 1][..i] == xs[..i];
  }

  /** `insertActionRandom` (src/transform/actions.ts:169-180). */
  method InsertActionRandom(b: Bare, pos: nat, style: CodeStyle, sym: Symbols) returns (edits: seq<TextEdit>)
    ensures edits == InsertActionF(b, pos, style, sym)
    requires b.tag == Act(RANDOM)
    decreases BSize(b), 2, 0
  {
    edits := [At(pos, "random {\n")];
    var actions := InsertActions(ListOf(b, "actions"), pos, true, style, sym);
    edits := edits + actions + [At(pos, "}")];
  }

  /** `insertConditions` (src/transform/conditions.ts:12-18). */
  method InsertConditions(xs: seq<Bare>, pos: nat, style: CodeStyle, sym: Symbols) returns (edits: seq<TextEdit>)
    ensures edits == ConditionInsertsF(xs, pos + 1, style, sym)
    decreases BNodesSize(xs), 7, 0
  {
    edits := ModifyConditions([], xs, pos, style, sym);
    ConditionsFromEmpty(xs, pos, style, sym, edits);
  }

  /** `modifyConditions` (src/transform/conditions.ts:20-45). */
  method ModifyConditions(from: seq<IrNode>, to: seq<Bare>, pos: nat, style: CodeStyle, sym: Symbols) returns (edits: seq<TextEdit>)
    ensures ConditionsOutcome(from, to, pos, style, sym, edits)
    decreases INodesSize(from) + BNodesSize(to), 6, 0
  {
    var script := ShortestScript(from, to);
    edits := [];
    ghost var parts: seq<seq<TextEdit>> := [];
    var currentPos := pos + 1;
    var i := 0;
    while i < |script|
      invariant 0 <= i <= |script|
      invariant |parts| == i && edits == Flatten(parts)
      invariant currentPos == Cursor(script[..i], pos + 1)
      invariant ConditionSteps(from, to, script, pos, style, sym, parts)
    {
      var part;
      part, currentPos := ConditionEntry(from, to, script, i, currentPos, style, sym);
      ConditionStepsSnoc(from, to, script, pos, style, sym, parts, part);
      CursorStep(script, i, pos + 1);
      FlattenSnoc(parts, part);
      edits := edits + part;
      parts := parts + [part];
      i := i + 1;
    }
    assert script[..i] == script;
    assert ConditionsWitness(from, to, pos, style, sym, edits, script, parts);
  }

  /** One round of the loop of src/transform/conditions.ts:30-42. */
  method ConditionEntry(from: seq<IrNode>, to: seq<Bare>, script: seq<Change>, i: nat, currentPos: nat,
                        style: CodeStyle, sym: Symbols) returns (part: seq<TextEdit>, nextPos: nat)
    requires Aligns(script, from, to) && i < |script|
    ensures ConditionStep(from, to, script, i, currentPos, style, sym, part)
    ensures nextPos == if script[i].Insert? then currentPos else script[i].from.span.end
    decreases INodesSize(from) + BNodesSize(to), 5, 0
  {
    match script[i]
    case Insert(x) =>
      ToInTos(script, i);
      BNodeInBound(to, x);
      var condition := InsertCondition(x, currentPos, style, sym);
      part := condition + [At(currentPos, ", ")];
      nextPos := currentPos;
    case Delete(f) =>
      nextPos := f.span.end;
      part := [TextEdit(f.span, "")];
    case Modify(f, x) =>
      nextPos := f.span.end;
      StepBound(from, to, script, i);
      part := ModifyCondition(f, x, style, sym);
  }

  /** `insertCondition` (src/transform/conditions.ts:47-72). */
  method InsertCondition(c: Bare, pos: nat, style: CodeStyle, sym: Symbols) returns (edits: seq<TextEdit>)
    ensures edits == InsertConditionF(c, pos, style, sym)
    decreases BSize(c), 3, 0
  {
    var head: seq<TextEdit> := [];
    if Get(c, "inverted") == BPrim(PBool(true)) {
      head := [At(pos, "!")];
    }
    var args: seq<TextEdit> := [];
    var i := 0;
    while i < |c.fields|
      invariant 0 <= i <= |c.fields|
      invariant args == ConditionArgsF(c, c.fields[..i], pos, style, sym)
    {
      var property := c.fields[i].0;
      var piece: seq<TextEdit> := [];
      if property != "inverted" {
        var kind := ConditionKind(c.tag, property);
        var argument := InsertArgument(Get(c, property), pos, kind, style, sym);
        piece := [At(pos, " ")] + argument;
      }
      args := args + piece;
      ConditionArgsStep(c, i, pos, style, sym);
      i := i + 1;
    }
    assert c.fields[..i] == c.fields;
    edits := head + [At(pos, sym.keyword(c.tag))] + args;
  }

  lemma ConditionArgsStep(c: Bare, i: nat, pos: nat, style: CodeStyle, sym: Symbols)
    requires i < |c.fields|
    ensures ConditionArgsF(c, c.fields[..i + 1], pos, style, sym)
      == ConditionArgsF(c, c.fields[..i], pos, style, sym)
         + (if c.fields[i].0 == "inverted" then []
            else [At(pos, " ")] + InsertArgumentF(Get(c, c.fields[i].0), pos, ConditionKind(c.tag, c.fields[i].0), style, sym))
  {
    assert c.fields[..i + 1][..i] == c.fields[..i];
  }

  /** `modifyCondition` (src/transform/conditions.ts:74-98). */
  method ModifyCondition(from: IrNode, to: Bare, style: CodeStyle, sym: Symbols) returns (edits: seq<TextEdit>)
    ensures ConditionOutcome(from, to, style, sym, edits)
    decreases ISize(from) + BSize(to), 4, 0
  {
    edits := [];
    ghost var parts: seq<seq<TextEdit>> := [];
    var i := 0;
    while i < |from.fields|
      invariant 0 <= i <= |from.fields|
      invariant |parts| == i && edits == Flatten(parts)
      invariant ConditionFields(from, to, style, sym, parts)
    {
      var part := ModifyConditionField(from, to, i, style, sym);
      ConditionFieldsSnoc(from, to, style, sym, parts, part);
      FlattenSnoc(parts, part);
      edits := edits + part;
      parts := parts + [part];
      i := i + 1;
    }
    assert ConditionFieldsWitness(from, to, style, sym, edits, parts);
  }

  /** One round of the loop of src/transform/conditions.ts:84-97: the old
    * node's key `from.fields[i]`. */
  method ModifyConditionField(from: IrNode, to: Bare, i: nat, style: CodeStyle, sym: Symbols) returns (part: seq<TextEdit>)
    requires i < |from.fields|
    ensures ConditionField(from, to, i, style, sym, part)
    decreases ISize(from) + BSize(to), 3, 0
  {
    var property := from.fields[i].name;
    var kind := ConditionKind(to.tag, property);
    assert FieldNames(from.fields)[i] == property;
    var fromArgument := FindField(from.fields, property).value;
    IFieldInBound(from.fields, fromArgument);
    part := ModifyArgument(fromArgument, Get(to, property), kind, style, sym);
  }

  // ---------------------------------------------------------------------
  // Laws

  /** With no old elements every entry is an insert at `pos`: the edits are
    * exactly the insert side's (src/transform/actions.ts:12-18). */
  lemma {:induction false} ActionsFromEmpty(to: seq<Bare>, pos: nat, tab: bool, style: CodeStyle, sym: Symbols, edits: seq<TextEdit>)
    requires ActionsOutcome([], to, pos, tab, style, sym, edits)
    ensures edits == InsertActionsF(to, pos, tab, style, sym)
  {
    var script, parts :| ActionsWitness([], to, pos, tab, style, sym, edits, script, parts);
    assert ActionSteps([], to, script, pos, tab, style, sym, parts);
    EmptySides(script);
    AllInserts(script);
    forall j | 0 <= j < |script|
      ensures parts[j] == InsertEntryF(to[j], pos, tab, style, sym)
    {
      ActionStepsAt([], to, script, pos, tab, style, sym, parts, j);
      assert Cursor(script[..j], pos) == pos;
    }
    FlattenInserts(to, parts, pos, tab, style, sym);
  }

  lemma {:induction false} FlattenInserts(to: seq<Bare>, parts: seq<seq<TextEdit>>, pos: nat, tab: bool, style: CodeStyle, sym: Symbols)
    requires |parts| == |to|
    requires forall j :: 0 <= j < |to| ==> parts[j] == InsertEntryF(to[j], pos, tab, style, sym)
    ensures Flatten(parts) == InsertActionsF(to, pos, tab, style, sym)
  {
    if |to| > 0 {
      FlattenInserts(to[..|to| - 1], parts[..|parts| - 1], pos, tab, style, sym);
    }
  }

  /** With no new elements every old element is erased. */
  lemma {:induction false} ActionsToEmpty(from: seq<IrNode>, pos: nat, tab: bool, style: CodeStyle, sym: Symbols, edits: seq<TextEdit>)
    requires ActionsOutcome(from, [], pos, tab, style, sym, edits)
    ensures edits == Erasures(from)
  {
    var script, parts :| ActionsWitness(from, [], pos, tab, style, sym, edits, script, parts);
    assert ActionSteps(from, [], script, pos, tab, style, sym, parts);
    EmptySides(script);
    AllDeletes(script);
    forall j | 0 <= j < |script|
      ensures parts[j] == [TextEdit(from[j].span, "")]
    {
      ActionStepsAt(from, [], script, pos, tab, style, sym, parts, j);
    }
    FlattenErasures(from, parts);
  }

  lemma {:induction false} FlattenErasures(from: seq<IrNode>, parts: seq<seq<TextEdit>>)
    requires |parts| == |from|
    requires forall j :: 0 <= j < |from| ==> parts[j] == [TextEdit(from[j].span, "")]
    ensures Flatten(parts) == Erasures(from)
  {
    if |from| > 0 {
      FlattenErasures(from[..|from| - 1], parts[..|parts| - 1]);
    }
  }

  /** With no old conditions every entry is an insert just past `pos`. */
  lemma {:induction false} ConditionsFromEmpty(to: seq<Bare>, pos: nat, style: CodeStyle, sym: Symbols, edits: seq<TextEdit>)
    requires ConditionsOutcome([], to, pos, style, sym, edits)
    ensures edits == ConditionInsertsF(to, pos + 1, style, sym)
  {
    var script, parts :| ConditionsWitness([], to, pos, style, sym, edits, script, parts);
    assert ConditionSteps([], to, script, pos, style, sym, parts);
    EmptySides(script);
    AllInserts(script);
    forall j | 0 <= j < |script|
      ensures parts[j] == InsertConditionF(to[j], pos + 1, style, sym) + [At(pos + 1, ", ")]
    {
      ConditionStepsAt([], to, script, pos, style, sym, parts, j);
      assert Cursor(script[..j], pos + 1) == pos + 1;
    }
    FlattenConditionInserts(to, parts, pos + 1, style, sym);
  }

  lemma {:induction false} FlattenConditionInserts(to: seq<Bare>, parts: seq<seq<TextEdit>>, at: nat, style: CodeStyle, sym: Symbols)
    requires |parts| == |to|
    requires forall j :: 0 <= j < |to| ==> parts[j] == InsertConditionF(to[j], at, style, sym) + [At(at, ", ")]
    ensures Flatten(parts) == ConditionInsertsF(to, at, style, sym)
  {
    if |to| > 0 {
      FlattenConditionInserts(to[..|to| - 1], parts[..|parts| - 1], at, style, sym);
    }
  }

  /** With no new conditions every old condition is erased. */
  lemma {:induction false} ConditionsToEmpty(from: seq<IrNode>, pos: nat, style: CodeStyle, sym: Symbols, edits: seq<TextEdit>)
    requires ConditionsOutcome(from, [], pos, style, sym, edits)
    ensures edits == Erasures(from)
  {
    var script, parts :| ConditionsWitness(from, [], pos, style, sym, edits, script, parts);
    assert ConditionSteps(from, [], script, pos, style, sym, parts);
    EmptySides(script);
    AllDeletes(script);
    forall j | 0 <= j < |script|
      ensures parts[j] == [TextEdit(from[j].span, "")]
    {
      ConditionStepsAt(from, [], script, pos, style, sym, parts, j);
    }
    FlattenErasures(from, parts);
  }

  // ---------------------------------------------------------------------
  // Unchanged trees need no edits

  /** A value `modifyArgument` leaves alone when it meets its own unwrapped
    * form: a leaf that is not an object, or a list of a block kind whose
    * elements are stable in turn. A location is rebuilt by every parse, and
    * a list of another kind is rewritten as text. */
  predicate StableArg(kind: Option<SemanticKind>, v: IrValue)
    decreases v, 2, 0
  {
    match v
    case IPrim(p) => !p.PLocation?
    case INodes(ns) =>
      (kind == Some(Actions) && StableActions(ns))
      || (kind == Some(Conditions) && StableConditions(ns))
  }

  predicate StableActions(ns: seq<IrNode>)
    decreases ns, 1, 0
  {
    forall i :: 0 <= i < |ns| ==> StableAction(ns[i])
  }

  predicate StableAction(n: IrNode)
    decreases n, 0, 0
  {
    forall i :: 0 <= i < |n.fields| ==> StableArg(ActionKind(n.tag, n.fields[i].name), n.fields[i].value)
  }

  predicate StableConditions(ns: seq<IrNode>)
    decreases ns, 1, 0
  {
    forall i :: 0 <= i < |ns| ==> StableCondition(ns[i])
  }

  predicate StableCondition(n: IrNode)
    decreases n, 0, 0
  {
    forall i :: 0 <= i < |n.fields| ==> StableArg(ConditionKind(n.tag, n.fields[i].name), n.fields[i].value)
  }

  /** Modifying a stable argument into its own unwrapped form edits
    * nothing. */
  lemma {:induction false} ArgumentIdentity(from: Field, kind: Option<SemanticKind>, style: CodeStyle, sym: Symbols, edits: seq<TextEdit>)
    requires StableArg(kind, from.value)
    requires ArgumentOutcome(from, UnwrapValue(from.value), kind, style, sym, edits)
    ensures edits == []
    decreases IValueSize(from.value), 0, 0
  {
    StrictEqUnwrap(from.value);
    match from.value
    case IPrim(_) =>
    case INodes(ns) =>
      assert UnwrapValue(from.value) == BNodes(UnwrapNodes(ns));
      if kind == Some(Actions) {
        ActionsIdentity(ns, from.span.start, true, style, sym, edits);
      } else {
        ConditionsIdentity(ns, from.span.start, style, sym, edits);
      }
  }

  /** Diffing stable actions against their own unwrapped forms edits
    * nothing: every entry is a modify of an element into itself. */
  lemma {:induction false} ActionsIdentity(from: seq<IrNode>, pos: nat, tab: bool, style: CodeStyle, sym: Symbols, edits: seq<TextEdit>)
    requires StableActions(from)
    requires ActionsOutcome(from, UnwrapNodes(from), pos, tab, style, sym, edits)
    ensures edits == []
    decreases INodesSize(from), 2, 0
  {
    var to := UnwrapNodes(from);
    var script, parts :| ActionsWitness(from, to, pos, tab, style, sym, edits, script, parts);
    IdentityScript(from, script);
    forall j | 0 <= j < |script|
      ensures parts[j] == []
    {
      ActionStepsAt(from, to, script, pos, tab, style, sym, parts, j);
      INodeBound(from, j);
      ActionIdentity(from[j], style, sym, parts[j]);
    }
    FlattenNothing(parts);
  }

  lemma {:induction false} ActionIdentity(f: IrNode, style: CodeStyle, sym: Symbols, edits: seq<TextEdit>)
    requires StableAction(f)
    requires ActionOutcome(f, UnwrapIr(f), style, sym, edits)
    ensures edits == []
    decreases ISize(f), 1, 0
  {
    var x := UnwrapIr(f);
    var parts :| ActionFieldsWitness(f, x, style, sym, edits, parts);
    assert ActionFields(f, x, style, sym, parts);
    forall i | 0 <= i < |x.fields|
      ensures parts[i] == []
    {
      ActionFieldIdentity(f, i, style, sym, parts[i]);
    }
    FlattenNothing(parts);
  }

  lemma {:induction false} ActionFieldIdentity(f: IrNode, i: nat, style: CodeStyle, sym: Symbols, part: seq<TextEdit>)
    requires StableAction(f) && i < |UnwrapIr(f).fields|
    requires ActionField(f, UnwrapIr(f), i, style, sym, part)
    ensures part == []
    decreases ISize(f), 0, 1
  {
    var x := UnwrapIr(f);
    UnwrapFieldsElementwise(f.fields);
    var key := f.fields[i].name;
    assert x.fields[i].0 == key;
    assert FieldNames(f.fields)[i] == key;
    var ff := FindField(f.fields, key).value;
    LookupUnwrap(f.fields, key);
    var k :| 0 <= k < |f.fields| && f.fields[k] == ff;
    IFieldBound(f.fields, k);
    ArgumentIdentity(ff, ActionKind(f.tag, key), style, sym, part);
  }

  lemma {:induction false} ConditionsIdentity(from: seq<IrNode>, pos: nat, style: CodeStyle, sym: Symbols, edits: seq<TextEdit>)
    requires StableConditions(from)
    requires ConditionsOutcome(from, UnwrapNodes(from), pos, style, sym, edits)
    ensures edits == []
    decreases INodesSize(from), 2, 0
  {
    var to := UnwrapNodes(from);
    var script, parts :| ConditionsWitness(from, to, pos, style, sym, edits, script, parts);
    IdentityScript(from, script);
    forall j | 0 <= j < |script|
      ensures parts[j] == []
    {
      ConditionStepsAt(from, to, script, pos, style, sym, parts, j);
      INodeBound(from, j);
      ConditionIdentity(from[j], style, sym, parts[j]);
    }
    FlattenNothing(parts);
  }

  lemma {:induction false} ConditionIdentity(f: IrNode, style: CodeStyle, sym: Symbols, edits: seq<TextEdit>)
    requires StableCondition(f)
    requires ConditionOutcome(f, UnwrapIr(f), style, sym, edits)
    ensures edits == []
    decreases ISize(f), 1, 0
  {
    var x := UnwrapIr(f);
    var parts :| ConditionFieldsWitness(f, x, style, sym, edits, parts);
    assert ConditionFields(f, x, style, sym, parts);
    forall i | 0 <= i < |f.fields|
      ensures parts[i] == []
    {
      ConditionFieldIdentity(f, i, style, sym, parts[i]);
    }
    FlattenNothing(parts);
  }

  lemma {:induction false} ConditionFieldIdentity(f: IrNode, i: nat, style: CodeStyle, sym: Symbols, part: seq<TextEdit>)
    requires StableCondition(f) && i < |f.fields|
    requires ConditionField(f, UnwrapIr(f), i, style, sym, part)
    ensures part == []
    decreases ISize(f), 0, 1
  {
    var key := f.fields[i].name;
    assert FieldNames(f.fields)[i] == key;
    var ff := FindField(f.fields, key).value;
    LookupUnwrap(f.fields, key);
    var k :| 0 <= k < |f.fields| && f.fields[k] == ff;
    IFieldBound(f.fields, k);
    ArgumentIdentity(ff, ConditionKind(f.tag, key), style, sym, part);
  }

  lemma {:induction false} FlattenNothing(gs: seq<seq<TextEdit>>)
    requires forall j :: 0 <= j < |gs| ==> gs[j] == []
    ensures Flatten(gs) == []
  {
    if |gs| > 0 {
      FlattenNothing(gs[..|gs| - 1]);
    }
  }

  // ---------------------------------------------------------------------
  // Where the insert side puts its edits

  /** Every edit is an insertion at `p`. */
  predicate InsertsAt(edits: seq<TextEdit>, p: nat)
  {
    forall i :: 0 <= i < |edits| ==> edits[i].span == Span(p, p)
  }

  lemma InsertsAtJoin(a: seq<TextEdit>, b: seq<TextEdit>, p: nat)
    requires InsertsAt(a, p) && InsertsAt(b, p)
    ensures InsertsAt(a + b, p)
  {
    assert forall i :: 0 <= i < |b| ==> (a + b)[|a| + i] == b[i];
  }

  /** An argument of any kind but a list of conditions is inserted at
    * `pos` (src/transform/arguments.ts:52-121). */
  lemma {:induction false} InsertArgumentAt(arg: BareValue, pos: nat, kind: Option<SemanticKind>, style: CodeStyle, sym: Symbols)
    requires kind != Some(Conditions)
    ensures InsertsAt(InsertArgumentF(arg, pos, kind, style, sym), pos)
    decreases BValueSize(arg), 0, 0
  {
    if !Nullish(arg) && kind == Some(Actions) {
      InsertActionsAt(BNodesOf(arg), pos, true, style, sym);
      InsertsAtJoin([At(pos, "{\n")], InsertActionsF(BNodesOf(arg), pos, true, style, sym), pos);
      InsertsAtJoin([At(pos, "{\n")] + InsertActionsF(BNodesOf(arg), pos, true, style, sym), [At(pos, "}")], pos);
    }
  }

  /** Inserted actions land at `pos`, in order. */
  lemma {:induction false} InsertActionsAt(xs: seq<Bare>, pos: nat, tab: bool, style: CodeStyle, sym: Symbols)
    ensures InsertsAt(InsertActionsF(xs, pos, tab, style, sym), pos)
    decreases BNodesSize(xs), 5, 0
  {
    if |xs| > 0 {
      assert BNodesSize(xs) == BNodesSize(xs[..|xs| - 1]) + BSize(xs[|xs| - 1]);
      InsertActionsAt(xs[..|xs| - 1], pos, tab, style, sym);
      InsertEntryAt(xs[|xs| - 1], pos, tab, style, sym);
      InsertsAtJoin(InsertActionsF(xs[..|xs| - 1], pos, tab, style, sym), InsertEntryF(xs[|xs| - 1], pos, tab, style, sym), pos);
    }
  }

  lemma {:induction false} InsertEntryAt(x: Bare, pos: nat, tab: bool, style: CodeStyle, sym: Symbols)
    ensures InsertsAt(InsertEntryF(x, pos, tab, style, sym), pos)
    decreases BSize(x), 4, 0
  {
    var head := [At(pos, "\n")] + (if tab then [At(pos, style.tab)] else []);
    InsertActionAt(x, pos, style, sym);
    InsertsAtJoin(head, InsertActionF(x, pos, style, sym), pos);
  }

  /** Every edit of an inserted action is at `pos`
    * (src/transform/actions.ts:54-76). */
  lemma {:induction false} InsertActionAt(b: Bare, pos: nat, style: CodeStyle, sym: Symbols)
    ensures InsertsAt(InsertActionF(b, pos, style, sym), pos)
    decreases BSize(b), 3, 0
  {
    if b.tag == Act(CONDITIONAL) {
      InsertConditionalAt(b, pos, style, sym);
    } else if b.tag == Act(RANDOM) {
      var inner := InsertActionsF(ListOf(b, "actions"), pos, true, style, sym);
      InsertActionsAt(ListOf(b, "actions"), pos, true, style, sym);
      InsertsAtJoin([At(pos, "random {\n")], inner, pos);
      InsertsAtJoin([At(pos, "random {\n")] + inner, [At(pos, "}")], pos);
    } else {
      ActionArgsAt(b, b.fields, pos, style, sym);
      InsertsAtJoin([At(pos, sym.keyword(b.tag))], ActionArgsF(b, b.fields, pos, style, sym), pos);
    }
  }

  lemma {:induction false} ActionArgsAt(b: Bare, fs: seq<(string, BareValue)>, pos: nat, style: CodeStyle, sym: Symbols)
    requires b.tag != Act(CONDITIONAL)
    ensures InsertsAt(ActionArgsF(b, fs, pos, style, sym), pos)
    decreases BSize(b), 1, |fs|
  {
    if |fs| > 0 {
      var key := fs[|fs| - 1].0;
      var kind := ActionKind(b.tag, key);
      if b.tag.Act? {
        ActionKindsNoConditions(b.tag.a, key);
      }
      ActionArgsAt(b, fs[..|fs| - 1], pos, style, sym);
      InsertArgumentAt(Get(b, key), pos, kind, style, sym);
      var init := ActionArgsF(b, fs[..|fs| - 1], pos, style, sym);
      InsertsAtJoin(init, [At(pos, " ")], pos);
      InsertsAtJoin(init + [At(pos, " ")], InsertArgumentF(Get(b, key), pos, kind, style, sym), pos);
    }
  }

  /** Every edit of an inserted condition is at `pos`
    * (src/transform/conditions.ts:56-69). */
  lemma {:induction false} InsertConditionAt(c: Bare, pos: nat, style: CodeStyle, sym: Symbols)
    ensures InsertsAt(InsertConditionF(c, pos, style, sym), pos)
    decreases BSize(c), 3, 0
  {
    var head := (if Get(c, "inverted") == BPrim(PBool(true)) then [At(pos, "!")] else []) + [At(pos, sym.keyword(c.tag))];
    ConditionArgsAt(c, c.fields, pos, style, sym);
    InsertsAtJoin(head, ConditionArgsF(c, c.fields, pos, style, sym), pos);
  }

  lemma {:induction false} ConditionArgsAt(c: Bare, fs: seq<(string, BareValue)>, pos: nat, style: CodeStyle, sym: Symbols)
    ensures InsertsAt(ConditionArgsF(c, fs, pos, style, sym), pos)
    decreases BSize(c), 1, |fs|
  {
    if |fs| > 0 {
      var key := fs[|fs| - 1].0;
      var kind := ConditionKind(c.tag, key);
      if c.tag.Cond? {
        ConditionKindsFlat(c.tag.c, key);
      }
      ConditionArgsAt(c, fs[..|fs| - 1], pos, style, sym);
      var init := ConditionArgsF(c, fs[..|fs| - 1], pos, style, sym);
      if key != "inverted" {
        InsertArgumentAt(Get(c, key), pos, kind, style, sym);
        InsertsAtJoin([At(pos, " ")], InsertArgumentF(Get(c, key), pos, kind, style, sym), pos);
        InsertsAtJoin(init, [At(pos, " ")] + InsertArgumentF(Get(c, key), pos, kind, style, sym), pos);
      } else {
        assert ConditionArgsF(c, fs, pos, style, sym) == init + [];
      }
    }
  }

  /** Inserted conditions land at `at`. */
  lemma {:induction false} ConditionInsertsAt(xs: seq<Bare>, at: nat, style: CodeStyle, sym: Symbols)
    ensures InsertsAt(ConditionInsertsF(xs, at, style, sym), at)
    decreases BNodesSize(xs), 5, 0
  {
    if |xs| > 0 {
      assert BNodesSize(xs) == BNodesSize(xs[..|xs| - 1]) + BSize(xs[|xs| - 1]);
      var init := ConditionInsertsF(xs[..|xs| - 1], at, style, sym);
      var one := InsertConditionF(xs[|xs| - 1], at, style, sym);
      ConditionInsertsAt(xs[..|xs| - 1], at, style, sym);
      InsertConditionAt(xs[|xs| - 1], at, style, sym);
      InsertsAtJoin(init, one, at);
      InsertsAtJoin(init + one, [At(at, ", ")], at);
    }
  }

  /** Every edit of an inserted conditional is at `pos`
    * (src/transform/actions.ts:108-167). */
  lemma {:induction false} InsertConditionalAt(b: Bare, pos: nat, style: CodeStyle, sym: Symbols)
    ensures InsertsAt(InsertConditionalF(b, pos, style, sym), pos)
    decreases BSize(b), 2, 0
  {
    var groups := GroupsF(ListOf(b, "conditions"), pos, style, sym);
    var head := ConditionalHeadF(groups, Truthy(Get(b, "matchAny")), pos, style);
    var block := BlockF(ListOf(b, "ifActions"), pos, style, sym);
    GroupsAt(ListOf(b, "conditions"), pos, style, sym);
    HeadAt(groups, Truthy(Get(b, "matchAny")), pos, style);
    BlockAt(ListOf(b, "ifActions"), pos, style, sym);
    ElseAt(ListOf(b, "elseActions"), pos, style, sym);
    InsertsAtJoin(head, block, pos);
    InsertsAtJoin(head + block, ElseF(ListOf(b, "elseActions"), pos, style, sym), pos);
  }

  lemma HeadAt(groups: seq<seq<TextEdit>>, matchAny: bool, pos: nat, style: CodeStyle)
    requires forall g :: 0 <= g < |groups| ==> InsertsAt(groups[g], pos)
    ensures InsertsAt(ConditionalHeadF(groups, matchAny, pos, style), pos)
  {
    var mode := if !(!style.explicitConditionalAnd && !matchAny) then [At(pos, if matchAny then "or" else "and")] else [];
    var wrap := if GroupsLength(groups) > style.lineLength then [At(pos, "\n")] else [];
    LinesAt(groups, pos);
    var r0 := [At(pos, "if ")] + mode + [At(pos, "(")] + wrap;
    assert InsertsAt(r0, pos);
    InsertsAtJoin(r0, Lines(groups, pos), pos);
    InsertsAtJoin(r0 + Lines(groups, pos), [At(pos, ") {\n")], pos);
  }

  lemma BlockAt(xs: seq<Bare>, pos: nat, style: CodeStyle, sym: Symbols)
    ensures InsertsAt(BlockF(xs, pos, style, sym), pos)
    decreases BNodesSize(xs), 5, 0
  {
    BodyAt(xs, pos, style, sym);
    InsertsAtJoin(BodyF(xs, pos, style, sym), [At(pos, "}")], pos);
  }

  lemma ElseAt(xs: seq<Bare>, pos: nat, style: CodeStyle, sym: Symbols)
    ensures InsertsAt(ElseF(xs, pos, style, sym), pos)
    decreases BNodesSize(xs), 6, 0
  {
    if |xs| > 0 {
      BlockAt(xs, pos, style, sym);
      InsertsAtJoin([At(pos, " else {\n")], BlockF(xs, pos, style, sym), pos);
    }
  }

  lemma {:induction false} GroupsAt(cs: seq<Bare>, pos: nat, style: CodeStyle, sym: Symbols)
    ensures forall g :: 0 <= g < |cs| ==> InsertsAt(GroupsF(cs, pos, style, sym)[g], pos)
    decreases BNodesSize(cs), 4, 0
  {
    if |cs| > 0 {
      assert BNodesSize(cs) == BNodesSize(cs[..|cs| - 1]) + BSize(cs[|cs| - 1]);
      GroupsAt(cs[..|cs| - 1], pos, style, sym);
      InsertConditionAt(cs[|cs| - 1], pos, style, sym);
    }
  }

  lemma {:induction false} LinesAt(gs: seq<seq<TextEdit>>, pos: nat)
    requires forall g :: 0 <= g < |gs| ==> InsertsAt(gs[g], pos)
    ensures InsertsAt(Lines(gs, pos), pos)
  {
    if |gs| > 0 {
      LinesAt(gs[..|gs| - 1], pos);
      InsertsAtJoin(Lines(gs[..|gs| - 1], pos), gs[|gs| - 1], pos);
      InsertsAtJoin(Lines(gs[..|gs| - 1], pos) + gs[|gs| - 1], [At(pos, ", \n")], pos);
    }
  }

  lemma {:induction false} BodyAt(xs: seq<Bare>, pos: nat, style: CodeStyle, sym: Symbols)
    ensures InsertsAt(BodyF(xs, pos, style, sym), pos)
    decreases BNodesSize(xs), 4, 0
  {
    if |xs| > 0 {
      assert BNodesSize(xs) == BNodesSize(xs[..|xs| - 1]) + BSize(xs[|xs| - 1]);
      var init := BodyF(xs[..|xs| - 1], pos, style, sym);
      var one := InsertActionF(xs[|xs| - 1], pos, style, sym);
      BodyAt(xs[..|xs| - 1], pos, style, sym);
      InsertActionAt(xs[|xs| - 1], pos, style, sym);
      InsertsAtJoin(init, [At(pos, style.tab)], pos);
      InsertsAtJoin(init + [At(pos, style.tab)], one, pos);
      InsertsAtJoin(init + [At(pos, style.tab)] + one, [At(pos, "\n")], pos);
    }
  }

  /** Applying inserted actions puts their text at `pos` and keeps the rest
    * of the source (src/transform/actions.ts:12-18 with
    * src/transform/edit.ts:12-25). */
  lemma InsertActionsPlaced(src: string, xs: seq<Bare>, pos: nat, tab: bool, style: CodeStyle, sym: Symbols)
    requires pos <= |src|
    ensures var edits := InsertActionsF(xs, pos, tab, style, sym);
      Applied(src, edits) == src[..pos] + Texts(edits) + src[pos..]
  {
    InsertActionsAt(xs, pos, tab, style, sym);
    ApplyInsertions(src, InsertActionsF(xs, pos, tab, style, sym), pos);
  }

  /** For a kind that is not a list, modifying a changed argument replaces
    * its span by the argument's new text (src/transform/arguments.ts:38-42,
    * src/transform/edit.ts:19). */
  lemma ArgumentReplaces(src: string, from: Field, to: BareValue, kind: Option<SemanticKind>, style: CodeStyle, sym: Symbols, edits: seq<TextEdit>)
    requires from.span.start <= from.span.end <= |src|
    requires !IsBlockKind(kind) && !StrictEq(from.value, to) && !Nullish(to)
    requires ArgumentOutcome(from, to, kind, style, sym, edits)
    ensures Applied(src, edits)
      == src[..from.span.start] + ArgumentText(to, kind, style, sym) + src[from.span.end..]
  {
    var text := ArgumentText(to, kind, style, sym);
    var s := from.span.start;
    var e := from.span.end;
    assert edits == [TextEdit(Span(s, e), ""), TextEdit(Span(e, e), text)];
    EraseThenInsert(src, edits, [TextEdit(Span(s, e), text)], s, e, text);
  }

  /** A changed argument whose new value is `undefined` or `null` is erased. */
  lemma ArgumentOmitted(from: Field, to: BareValue, kind: Option<SemanticKind>, style: CodeStyle, sym: Symbols, edits: seq<TextEdit>)
    requires !IsBlockKind(kind) && !StrictEq(from.value, to) && Nullish(to)
    requires ArgumentOutcome(from, to, kind, style, sym, edits)
    ensures edits == [TextEdit(from.span, "")]
  {
  }
}
