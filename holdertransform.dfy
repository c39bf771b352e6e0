/** The holder level of the transform (src/transform/holders.ts): the edits
  * that turn the source of a list of old holders into source for a list of
  * new bare holders. A holder is diffed like an action list, from position
  * 0; a modified holder diffs its own fields, and its `actions` through
  * `modifyActions`. */
module HolderTransform {
  import opened Wrappers
  import opened Spans
  import opened NodeTypes
  import opened Ir
  import opened Semantics
  import opened Diffs
  import opened Scripts
  import opened TextEdits
  import opened JsValues
  import opened Transform

  /** `ACTION_HOLDER_SEMANTIC_DESCRIPTORS[to.type][property]`. */
  function HolderKind(tag: NodeType, key: string): Option<SemanticKind>
  {
    if tag.Hold? then KindOf(HolderDescriptor(tag.h), key) else None
  }

  /** `from.actions?.value ?? []`. */
  function OldActions(f: IrNode): seq<IrNode>
  {
    match FindField(f.fields, "actions")
    case Some(a) => INodesOf(a.value)
    case None => []
  }

  // ---------------------------------------------------------------------
  // The insert side

  /** The `goto` line of `insertHolder`; an UNKNOWN holder has none
    * (src/transform/holders.ts:43-53). A name or event is printed as
    * JavaScript's template literal prints it. */
  function Header(h: Bare): Option<string>
  {
    match h.tag
    case Hold(FUNCTION_HOLDER) => Some("goto function \"" + JsText(Get(h, "name")) + "\"\n")
    case Hold(EVENT) => Some("goto event \"" + JsText(Get(h, "event")) + "\"\n")
    case _ => None
  }

  /** What `insertHolder` produces: the header, then the holder's actions
    * without a tab. */
  function InsertHolderF(h: Bare, pos: nat, style: CodeStyle, sym: Symbols): seq<TextEdit>
  {
    (if Header(h).Some? then [At(pos, Header(h).value)] else [])
    + InsertActionsF(ListOf(h, "actions"), pos, false, style, sym)
  }

  /** The edits of one insert entry of `modifyHolders`: the holder and a
    * newline (src/transform/holders.ts:21-23). */
  function InsertHolderEntryF(x: Bare, pos: nat, style: CodeStyle, sym: Symbols): seq<TextEdit>
  {
    InsertHolderF(x, pos, style, sym) + [At(pos, "\n")]
  }

  /** The edits of `modifyHolders` from no old holders. */
  function InsertHoldersF(xs: seq<Bare>, pos: nat, style: CodeStyle, sym: Symbols): seq<TextEdit>
  {
    if |xs| == 0 then []
    else InsertHoldersF(xs[..|xs| - 1], pos, style, sym) + InsertHolderEntryF(xs[|xs| - 1], pos, style, sym)
  }

  // ---------------------------------------------------------------------
  // What the modify side produces

  /** `pos` in `modifyHolder` before key `n` of the old holder: the end of
    * its keyword until a key whose kind is not `actions` has been seen, the
    * end of the whole old holder from then on (src/transform/holders.ts:66,
    * 71-73, 81-82). */
  function HolderPos(f: IrNode, x: Bare, n: nat): (p: nat)
    requires n <= |f.fields|
    ensures (forall k :: 0 <= k < n ==> HolderKind(x.tag, f.fields[k].name) == Some(Actions)) ==> p == f.kwSpan.end
    ensures (exists k :: 0 <= k < n && HolderKind(x.tag, f.fields[k].name) != Some(Actions)) ==> p == f.span.end
  {
    if n == 0 then f.kwSpan.end
    else if HolderKind(x.tag, f.fields[n - 1].name) == Some(Actions) then HolderPos(f, x, n - 1)
    else f.span.end
  }

  /** The edits of key `i` of the old holder, at the position `pos` reached
    * before it: the `actions` are diffed without a tab; any other key is
    * the old holder's own, so it goes through `modifyArgument`
    * (src/transform/holders.ts:67-87). */
  ghost predicate HolderField(f: IrNode, x: Bare, i: nat, pos: nat, style: CodeStyle, sym: Symbols, part: seq<TextEdit>)
    requires i < |f.fields|
  {
    var key := f.fields[i].name;
    if HolderKind(x.tag, key) == Some(Actions) then
      ActionsOutcome(OldActions(f), ListOf(x, "actions"), pos, false, style, sym, part)
    else
      assert FieldNames(f.fields)[i] == key;
      ArgumentOutcome(FindField(f.fields, key).value, Get(x, key), HolderKind(x.tag, key), style, sym, part)
  }

  /** The first `|parts|` keys of the old holder each gave their part. */
  ghost predicate HolderFields(f: IrNode, x: Bare, style: CodeStyle, sym: Symbols, parts: seq<seq<TextEdit>>)
    requires |parts| <= |f.fields|
    decreases |parts|
  {
    |parts| == 0
    || (HolderFields(f, x, style, sym, parts[..|parts| - 1])
        && HolderField(f, x, |parts| - 1, HolderPos(f, x, |parts| - 1), style, sym, parts[|parts| - 1]))
  }

  lemma {:induction false} HolderFieldsPrefix(f: IrNode, x: Bare, style: CodeStyle, sym: Symbols, parts: seq<seq<TextEdit>>, k: nat)
    requires |parts| <= |f.fields| && HolderFields(f, x, style, sym, parts) && k <= |parts|
    ensures HolderFields(f, x, style, sym, parts[..k])
    decreases |parts|
  {
    if k == |parts| {
      assert parts[..k] == parts;
    } else {
      var pre := parts[..|parts| - 1];
      assert pre[..k] == parts[..k];
      HolderFieldsPrefix(f, x, style, sym, pre, k);
    }
  }

  lemma HolderFieldsAt(f: IrNode, x: Bare, style: CodeStyle, sym: Symbols, parts: seq<seq<TextEdit>>, i: nat)
    requires |parts| <= |f.fields| && HolderFields(f, x, style, sym, parts) && i < |parts|
    ensures HolderField(f, x, i, HolderPos(f, x, i), style, sym, parts[i])
  {
    HolderFieldsPrefix(f, x, style, sym, parts, i + 1);
    var q := parts[..i + 1];
    HolderFieldsLast(f, x, style, sym, q);
    assert |q| - 1 == i && q[|q| - 1] == parts[i];
  }

  lemma HolderFieldsLast(f: IrNode, x: Bare, style: CodeStyle, sym: Symbols, parts: seq<seq<TextEdit>>)
    requires 0 < |parts| <= |f.fields| && HolderFields(f, x, style, sym, parts)
    ensures HolderField(f, x, |parts| - 1, HolderPos(f, x, |parts| - 1), style, sym, parts[|parts| - 1])
  {
  }

  /** `modifyHolder` (src/transform/holders.ts:60-91): one group of edits per
    * key of the old holder. */
  ghost predicate HolderOutcome(f: IrNode, x: Bare, style: CodeStyle, sym: Symbols, edits: seq<TextEdit>)
  {
    exists parts: seq<seq<TextEdit>> :: HolderFieldsWitness(f, x, style, sym, edits, parts)
  }

  ghost predicate HolderFieldsWitness(f: IrNode, x: Bare, style: CodeStyle, sym: Symbols, edits: seq<TextEdit>, parts: seq<seq<TextEdit>>)
  {
    |parts| == |f.fields| && edits == Flatten(parts) && HolderFields(f, x, style, sym, parts)
  }

  /** The edits of entry `j` of the script at the position `cur` reached
    * before it (src/transform/holders.ts:21-30). */
  ghost predicate HolderStep(script: seq<Change>, j: nat, cur: nat, style: CodeStyle, sym: Symbols, part: seq<TextEdit>)
    requires j < |script|
  {
    match script[j]
    case Insert(x) => part == InsertHolderEntryF(x, cur, style, sym)
    case Delete(f) => part == [TextEdit(f.span, "")]
    case Modify(f, x) => HolderOutcome(f, x, style, sym, part)
  }

  /** The first `|parts|` entries of the script each gave their part. */
  ghost predicate HolderSteps(script: seq<Change>, style: CodeStyle, sym: Symbols, parts: seq<seq<TextEdit>>)
    requires |parts| <= |script|
    decreases |parts|
  {
    |parts| == 0
    || (HolderSteps(script, style, sym, parts[..|parts| - 1])
        && HolderStep(script, |parts| - 1, Cursor(script[..|parts| - 1], 0), style, sym, parts[|parts| - 1]))
  }

  lemma {:induction false} HolderStepsAt(script: seq<Change>, style: CodeStyle, sym: Symbols, parts: seq<seq<TextEdit>>, j: nat)
    requires |parts| <= |script| && HolderSteps(script, style, sym, parts) && j < |parts|
    ensures HolderStep(script, j, Cursor(script[..j], 0), style, sym, parts[j])
  {
    if j < |parts| - 1 {
      HolderStepsAt(script, style, sym, parts[..|parts| - 1], j);
    }
  }

  /** `modifyHolders` (src/transform/holders.ts:11-34): for some shortest
    * script from `from` to `to`, the edits of its entries in order. */
  ghost predicate HoldersOutcome(from: seq<IrNode>, to: seq<Bare>, style: CodeStyle, sym: Symbols, edits: seq<TextEdit>)
  {
    exists script: seq<Change>, parts: seq<seq<TextEdit>> :: HoldersWitness(from, to, style, sym, edits, script, parts)
  }

  ghost predicate HoldersWitness(from: seq<IrNode>, to: seq<Bare>, style: CodeStyle, sym: Symbols,
                                 edits: seq<TextEdit>, script: seq<Change>, parts: seq<seq<TextEdit>>)
  {
    Aligns(script, from, to) && Shortest(script, from, to)
    && |parts| == |script| && edits == Flatten(parts)
    && HolderSteps(script, style, sym, parts)
  }

  // ---------------------------------------------------------------------
  // The operations

  /** `modifyHolders` (src/transform/holders.ts:11-34). */
  method ModifyHolders(from: seq<IrNode>, to: seq<Bare>, style: CodeStyle, sym: Symbols) returns (edits: seq<TextEdit>)
    ensures HoldersOutcome(from, to, style, sym, edits)
  {
    var script := ShortestScript(from, to);
    ghost var parts;
    edits, parts := ScriptEdits(script, style, sym);
    assert HoldersWitness(from, to, style, sym, edits, script, parts);
  }

  /** The loop of `modifyHolders` (src/transform/holders.ts:17-33) over the
    * entries of a script: the edits of every entry, in order, with the
    * cursor moving past each removed or modified holder. */
  method ScriptEdits(script: seq<Change>, style: CodeStyle, sym: Symbols) returns (edits: seq<TextEdit>, ghost parts: seq<seq<TextEdit>>)
    ensures |parts| == |script| && edits == Flatten(parts)
    ensures HolderSteps(script, style, sym, parts)
  {
    edits := [];
    parts := [];
    var pos := 0;
    var i := 0;
    while i < |script|
      invariant 0 <= i <= |script|
      invariant |parts| == i && edits == Flatten(parts)
      invariant pos == Cursor(script[..i], 0)
      invariant HolderSteps(script, style, sym, parts)
    {
      var part;
      part, pos, edits := HoldersRound(script, style, sym, parts, i, pos, edits);
      parts := parts + [part];
      i := i + 1;
    }
  }

  /** The round of the loop of `modifyHolders` for entry `i`, and what it
    * adds to the loop's invariant. */
  method HoldersRound(script: seq<Change>, style: CodeStyle, sym: Symbols, ghost parts: seq<seq<TextEdit>>, i: nat, pos: nat,
                      edits: seq<TextEdit>)
    returns (part: seq<TextEdit>, nextPos: nat, nextEdits: seq<TextEdit>)
    requires i == |parts| < |script|
    requires HolderSteps(script, style, sym, parts) && pos == Cursor(script[..i], 0) && edits == Flatten(parts)
    ensures HolderSteps(script, style, sym, parts + [part])
    ensures nextPos == Cursor(script[..i + 1], 0)
    ensures nextEdits == Flatten(parts + [part])
  {
    part, nextPos := HolderEntry(script, i, pos, style, sym);
    assert (parts + [part])[..i] == parts;
    CursorStep(script, i, 0);
    FlattenSnoc(parts, part);
    nextEdits := edits + part;
  }

  /** One round of the loop of src/transform/holders.ts:20-31. */
  method HolderEntry(script: seq<Change>, i: nat, pos: nat, style: CodeStyle, sym: Symbols) returns (part: seq<TextEdit>, nextPos: nat)
    requires i < |script|
    ensures HolderStep(script, i, pos, style, sym, part)
    ensures nextPos == if script[i].Insert? then pos else script[i].from.span.end
  {
    match script[i]
    case Insert(x) =>
      var holder := InsertHolder(x, pos, style, sym);
      part := holder + [At(pos, "\n")];
      nextPos := pos;
    case Delete(f) =>
      nextPos := f.span.end;
      part := [TextEdit(f.span, "")];
    case Modify(f, x) =>
      nextPos := f.span.end;
      part := ModifyHolder(f, x, style, sym);
  }

  /** `insertHolder` (src/transform/holders.ts:36-58). */
  method InsertHolder(h: Bare, pos: nat, style: CodeStyle, sym: Symbols) returns (edits: seq<TextEdit>)
    ensures edits == InsertHolderF(h, pos, style, sym)
    ensures InsertsAt(edits, pos)
  {
    edits := [];
    match h.tag {
      case Hold(FUNCTION_HOLDER) =>
        edits := edits + [At(pos, "goto function \"" + JsText(Get(h, "name")) + "\"\n")];
      case Hold(EVENT) =>
        edits := edits + [At(pos, "goto event \"" + JsText(Get(h, "event")) + "\"\n")];
      case _ =>
    }
    var actions := InsertActions(ListOf(h, "actions"), pos, false, style, sym);
    edits := edits + actions;
    InsertHolderAt(h, pos, style, sym);
  }

  /** `modifyHolder` (src/transform/holders.ts:60-91). */
  method ModifyHolder(from: IrNode, to: Bare, style: CodeStyle, sym: Symbols) returns (edits: seq<TextEdit>)
    ensures HolderOutcome(from, to, style, sym, edits)
  {
    edits := [];
    ghost var parts: seq<seq<TextEdit>> := [];
    var pos := from.kwSpan.end;
    var i := 0;
    while i < |from.fields|
      invariant 0 <= i <= |from.fields|
      invariant |parts| == i && edits == Flatten(parts)
      invariant pos == HolderPos(from, to, i)
      invariant HolderFields(from, to, style, sym, parts)
    {
      var part;
      part, pos := ModifyHolderField(from, to, i, pos, style, sym);
      assert (parts + [part])[..i] == parts;
      FlattenSnoc(parts, part);
      edits := edits + part;
      parts := parts + [part];
      i := i + 1;
    }
    assert HolderFieldsWitness(from, to, style, sym, edits, parts);
  }

  /** One round of the loop of src/transform/holders.ts:67-88: key `i` of
    * the old holder. The key is the holder's own, so its argument is
    * always found and the branch that inserts a missing one is never
    * taken. */
  method ModifyHolderField(from: IrNode, to: Bare, i: nat, pos: nat, style: CodeStyle, sym: Symbols) returns (part: seq<TextEdit>, nextPos: nat)
    requires i < |from.fields| && pos == HolderPos(from, to, i)
    ensures HolderField(from, to, i, pos, style, sym, part)
    ensures nextPos == HolderPos(from, to, i + 1)
  {
    var property := from.fields[i].name;
    var kind := HolderKind(to.tag, property);
    if kind == Some(Actions) {
      part := ModifyActions(OldActions(from), ListOf(to, "actions"), pos, false, style, sym);
      nextPos := pos;
      return;
    }
    assert FieldNames(from.fields)[i] == property;
    var fromArgument := FindField(from.fields, property).value;
    nextPos := from.span.end;
    part := ModifyArgument(fromArgument, Get(to, property), kind, style, sym);
  }

  // ---------------------------------------------------------------------
  // Laws

  /** Every edit of an inserted holder is an insertion at `pos`. */
  lemma InsertHolderAt(h: Bare, pos: nat, style: CodeStyle, sym: Symbols)
    ensures InsertsAt(InsertHolderF(h, pos, style, sym), pos)
  {
    var head := if Header(h).Some? then [At(pos, Header(h).value)] else [];
    InsertActionsAt(ListOf(h, "actions"), pos, false, style, sym);
    InsertsAtJoin(head, InsertActionsF(ListOf(h, "actions"), pos, false, style, sym), pos);
  }

  /** Applying an inserted holder puts its header and actions at `pos` and
    * keeps the rest of the source (src/transform/holders.ts:36-58 with
    * src/transform/edit.ts:12-25). */
  lemma InsertHolderPlaced(src: string, h: Bare, pos: nat, style: CodeStyle, sym: Symbols)
    requires pos <= |src|
    ensures var edits := InsertHolderF(h, pos, style, sym);
      Applied(src, edits) == src[..pos] + Texts(edits) + src[pos..]
  {
    InsertHolderAt(h, pos, style, sym);
    ApplyInsertions(src, InsertHolderF(h, pos, style, sym), pos);
  }

  /** The text an inserted holder starts with: its `goto` line, or its first
    * inserted action's newline for an UNKNOWN holder. */
  lemma InsertHolderHeader(h: Bare, pos: nat, style: CodeStyle, sym: Symbols)
    ensures h.tag == Hold(FUNCTION_HOLDER) ==>
      InsertHolderF(h, pos, style, sym)[0].text == "goto function \"" + JsText(Get(h, "name")) + "\"\n"
    ensures h.tag == Hold(EVENT) ==>
      InsertHolderF(h, pos, style, sym)[0].text == "goto event \"" + JsText(Get(h, "event")) + "\"\n"
    ensures h.tag == Hold(UNKNOWN) ==>
      InsertHolderF(h, pos, style, sym) == InsertActionsF(ListOf(h, "actions"), pos, false, style, sym)
  {
  }

  /** With no old holders every entry is an insert at position 0, each
    * holder followed by a newline. */
  lemma {:induction false} HoldersFromEmpty(to: seq<Bare>, style: CodeStyle, sym: Symbols, edits: seq<TextEdit>)
    requires HoldersOutcome([], to, style, sym, edits)
    ensures edits == InsertHoldersF(to, 0, style, sym)
  {
    var script, parts :| HoldersWitness([], to, style, sym, edits, script, parts);
    EmptySides(script);
    AllInserts(script);
    forall j | 0 <= j < |script|
      ensures parts[j] == InsertHolderEntryF(to[j], 0, style, sym)
    {
      HolderStepsAt(script, style, sym, parts, j);
      assert Cursor(script[..j], 0) == 0;
    }
    FlattenHolderInserts(to, parts, style, sym);
  }

  lemma {:induction false} FlattenHolderInserts(to: seq<Bare>, parts: seq<seq<TextEdit>>, style: CodeStyle, sym: Symbols)
    requires |parts| == |to|
    requires forall j :: 0 <= j < |to| ==> parts[j] == InsertHolderEntryF(to[j], 0, style, sym)
    ensures Flatten(parts) == InsertHoldersF(to, 0, style, sym)
  {
    if |to| > 0 {
      FlattenHolderInserts(to[..|to| - 1], parts[..|parts| - 1], style, sym);
    }
  }

  /** With no new holders every old holder is erased whole. */
  lemma {:induction false} HoldersToEmpty(from: seq<IrNode>, style: CodeStyle, sym: Symbols, edits: seq<TextEdit>)
    requires HoldersOutcome(from, [], style, sym, edits)
    ensures edits == Erasures(from)
  {
    var script, parts :| HoldersWitness(from, [], style, sym, edits, script, parts);
    EmptySides(script);
    AllDeletes(script);
    forall j | 0 <= j < |script|
      ensures parts[j] == [TextEdit(from[j].span, "")]
    {
      HolderStepsAt(script, style, sym, parts, j);
    }
    FlattenErasures(from, parts);
  }

  /** Inserted holders land at `pos`, in order. */
  lemma {:induction false} InsertHoldersAt(xs: seq<Bare>, pos: nat, style: CodeStyle, sym: Symbols)
    ensures InsertsAt(InsertHoldersF(xs, pos, style, sym), pos)
  {
    if |xs| > 0 {
      InsertHoldersAt(xs[..|xs| - 1], pos, style, sym);
      InsertHolderAt(xs[|xs| - 1], pos, style, sym);
      InsertsAtJoin(InsertHolderF(xs[|xs| - 1], pos, style, sym), [At(pos, "\n")], pos);
      InsertsAtJoin(InsertHoldersF(xs[..|xs| - 1], pos, style, sym), InsertHolderEntryF(xs[|xs| - 1], pos, style, sym), pos);
    }
  }

  /** Into an empty file, new holders are written in order, each followed by
    * a newline. */
  lemma HoldersIntoEmptyFile(to: seq<Bare>, style: CodeStyle, sym: Symbols, edits: seq<TextEdit>)
    requires HoldersOutcome([], to, style, sym, edits)
    ensures Applied("", edits) == Texts(InsertHoldersF(to, 0, style, sym))
  {
    HoldersFromEmpty(to, style, sym, edits);
    InsertHoldersAt(to, 0, style, sym);
    ApplyInsertions("", edits, 0);
  }

  /** In a holder whose first key is not `actions` (a FUNCTION holder reads
    * its name first), the actions are diffed at the END of the old holder:
    * an action inserted before the old ones is written after them. */
  lemma ActionsAfterName(f: IrNode, x: Bare, i: nat)
    requires 0 < i < |f.fields|
    requires HolderKind(x.tag, f.fields[0].name) != Some(Actions)
    ensures HolderPos(f, x, i) == f.span.end
  {
  }

  // ---------------------------------------------------------------------
  // Unchanged holders need no edits

  /** A holder `modifyHolder` leaves alone when it meets its own unwrapped
    * form: its actions are stable, and so is every other argument. */
  predicate StableHolder(f: IrNode)
  {
    StableActions(OldActions(f))
    && forall i :: 0 <= i < |f.fields| ==>
         HolderKind(f.tag, f.fields[i].name) == Some(Actions) || StableArg(HolderKind(f.tag, f.fields[i].name), f.fields[i].value)
  }

  /** The `actions` of an unwrapped holder are the unwrapped old actions. */
  lemma UnwrappedActions(f: IrNode)
    ensures ListOf(UnwrapIr(f), "actions") == UnwrapNodes(OldActions(f))
  {
    LookupUnwrap(f.fields, "actions");
  }

  lemma HolderFieldIdentity(f: IrNode, i: nat, style: CodeStyle, sym: Symbols, part: seq<TextEdit>)
    requires StableHolder(f) && i < |f.fields|
    requires HolderField(f, UnwrapIr(f), i, HolderPos(f, UnwrapIr(f), i), style, sym, part)
    ensures part == []
  {
    var x := UnwrapIr(f);
    if HolderKind(x.tag, f.fields[i].name) == Some(Actions) {
      HolderActionsIdentity(f, i, style, sym, part);
    } else {
      HolderArgIdentity(f, i, style, sym, part);
    }
  }

  lemma HolderActionsIdentity(f: IrNode, i: nat, style: CodeStyle, sym: Symbols, part: seq<TextEdit>)
    requires StableHolder(f) && i < |f.fields|
    requires HolderKind(UnwrapIr(f).tag, f.fields[i].name) == Some(Actions)
    requires ActionsOutcome(OldActions(f), ListOf(UnwrapIr(f), "actions"), HolderPos(f, UnwrapIr(f), i), false, style, sym, part)
    ensures part == []
  {
    UnwrappedActions(f);
    ActionsIdentity(OldActions(f), HolderPos(f, UnwrapIr(f), i), false, style, sym, part);
  }

  lemma HolderArgIdentity(f: IrNode, i: nat, style: CodeStyle, sym: Symbols, part: seq<TextEdit>)
    requires StableHolder(f) && i < |f.fields|
    requires HolderKind(UnwrapIr(f).tag, f.fields[i].name) != Some(Actions)
    requires FieldNames(f.fields)[i] == f.fields[i].name
    requires ArgumentOutcome(FindField(f.fields, f.fields[i].name).value, Get(UnwrapIr(f), f.fields[i].name),
                             HolderKind(UnwrapIr(f).tag, f.fields[i].name), style, sym, part)
    ensures part == []
  {
    var key := f.fields[i].name;
    var ff := FindField(f.fields, key).value;
    LookupUnwrap(f.fields, key);
    var k :| 0 <= k < |f.fields| && f.fields[k] == ff;
    ArgumentIdentity(ff, HolderKind(UnwrapIr(f).tag, key), style, sym, part);
  }

  /** Modifying a stable holder into its own unwrapped form edits nothing. */
  lemma HolderIdentity(f: IrNode, style: CodeStyle, sym: Symbols, edits: seq<TextEdit>)
    requires StableHolder(f)
    requires HolderOutcome(f, UnwrapIr(f), style, sym, edits)
    ensures edits == []
  {
    var x := UnwrapIr(f);
    var parts :| HolderFieldsWitness(f, x, style, sym, edits, parts);
    forall i | 0 <= i < |f.fields|
      ensures parts[i] == []
    {
      HolderFieldsAt(f, x, style, sym, parts, i);
      HolderFieldIdentity(f, i, style, sym, parts[i]);
    }
    FlattenNothing(parts);
  }

  /** Diffing stable holders against their own unwrapped forms edits
    * nothing: every entry is a modify of a holder into itself. */
  lemma HoldersIdentity(from: seq<IrNode>, style: CodeStyle, sym: Symbols, edits: seq<TextEdit>)
    requires forall i :: 0 <= i < |from| ==> StableHolder(from[i])
    requires HoldersOutcome(from, UnwrapNodes(from), style, sym, edits)
    ensures edits == []
  {
    var script, parts :| HoldersWitness(from, UnwrapNodes(from), style, sym, edits, script, parts);
    IdentityScript(from, script);
    forall j | 0 <= j < |script|
      ensures parts[j] == []
    {
      HolderStepsAt(script, style, sym, parts, j);
      HolderIdentity(from[j], style, sym, parts[j]);
    }
    FlattenNothing(parts);
  }
}
