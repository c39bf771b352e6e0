/** The argument readers of src/parse/arguments.ts. Each is a method on the
  * parser that eats the tokens it recognises; keyword readers are tables of
  * ordered alternatives. The enumerations of housing-common (potion
  * effects, lobbies, enchantments, permissions, item properties, item
  * locations, sounds, value shorthands) are parameters, and so is the test
  * `isNumeric`, which relies on `parseFloat`. */
module Arguments {
  import opened Wrappers
  import opened Spans
  import opened Tokens
  import opened Strings
  import opened ParserCore
  import Ir

  // ---------------------------------------------------------------------
  // Tables

  /** The alternatives of `parseOperation` (src/parse/arguments.ts:129-161). */
  function OperationTable(): seq<(Operation, seq<Alt>)>
  {
    [ (Increment, [Named("increment"), Named("inc"), Pat(OpPat(TBinOpEq, "plus"))]),
      (Decrement, [Named("decrement"), Named("dec"), Pat(OpPat(TBinOpEq, "minus"))]),
      (Multiply, [Named("multiply"), Named("mult"), Named("mul"), Pat(OpPat(TBinOpEq, "star"))]),
      (Divide, [Named("divide"), Named("div"), Pat(OpPat(TBinOpEq, "slash"))]),
      (Set, [Named("set"), Pat(OpPat(TCmpOp, "equals"))]) ]
  }

  const OPERATION_NAMES: string := "increment, decrement, set, multiply, divide"

  /** The comparisons of housing-common. */
  datatype Comparison = CompareEquals | CompareLess | CompareLessOrEquals | CompareGreater | CompareGreaterOrEquals

  function ComparisonName(c: Comparison): string
  {
    match c
    case CompareEquals => "equals"
    case CompareLess => "less_than"
    case CompareLessOrEquals => "less_than_or_equals"
    case CompareGreater => "greater_than"
    case CompareGreaterOrEquals => "greater_than_or_equals"
  }

  /** The alternatives of `parseComparison` (src/parse/arguments.ts:69-96). */
  function ComparisonTable(): seq<(Comparison, seq<Alt>)>
  {
    [ (CompareEquals, [Named("equals"), Named("equal"), Pat(OpPat(TCmpOp, "equals")), Pat(OpPat(TCmpOpEq, "equals"))]),
      (CompareLess, [Named("less than"), Pat(OpPat(TCmpOp, "less_than"))]),
      (CompareLessOrEquals, [Named("less than or equals"), Named("less than or equal"), Pat(OpPat(TCmpOpEq, "less_than"))]),
      (CompareGreater, [Named("greater than"), Pat(OpPat(TCmpOp, "greater_than"))]),
      (CompareGreaterOrEquals, [Named("greater than or equals"), Named("greater than or equal"), Pat(OpPat(TCmpOpEq, "greater_than"))]) ]
  }

  datatype Gamemode = Survival | Adventure | Creative

  function GamemodeName(g: Gamemode): string
  {
    match g
    case Survival => "survival"
    case Adventure => "adventure"
    case Creative => "creative"
  }

  function GamemodeTable(): seq<(Gamemode, seq<Alt>)>
  {
    [(Survival, [Named("survival")]), (Adventure, [Named("adventure")]), (Creative, [Named("creative")])]
  }

  /** The kinds of location `parseLocation` accepts, before the coordinates
    * of a custom one are read. */
  datatype LocationKind = CustomLocation | SpawnLocation | InvokersLocation

  function LocationTable(): seq<(LocationKind, seq<Alt>)>
  {
    [ (CustomLocation, [Named("custom_location"), Named("custom_coordinates")]),
      (SpawnLocation, [Named("house_spawn"), Named("houseSpawn")]),
      (InvokersLocation, [Named("invokers_location"), Named("invokers location")]) ]
  }

  /** An inventory slot: a number, or one of the named slots. */
  datatype InventorySlot = SlotNumber(n: int) | SlotNamed(name: string)

  function SlotTable(): seq<(string, seq<Alt>)>
  {
    [ ("helmet", [Named("helmet")]), ("chestplate", [Named("chestplate")]),
      ("leggings", [Named("leggings")]), ("boots", [Named("boots")]),
      ("first", [Named("first available slot"), Named("first slot")]),
      ("hand", [Named("hand slot")]) ]
  }

  /** What `parseValue` returns: a number, the raw text of a decimal, or a
    * string. */
  datatype Value = NumberValue(n: int) | DecimalText(raw: string) | TextValue(s: string)

  // ---------------------------------------------------------------------
  // Table lemmas

  /** Rows of words alone never match a symbol token. */
  lemma WordsMissSymbol(t: Token, alts: seq<Alt>)
    requires !NameToken(t)
    requires forall j :: 0 <= j < |alts| ==> alts[j].Named?
    ensures !AnyAlt(t, alts)
    decreases |alts|
  {
    if |alts| > 0 {
      WordsMissSymbol(t, alts[1..]);
    }
  }

  /** Rows made of names alone match only word tokens. */
  lemma {:induction false} NamedRowsNeedName<T>(t: Token, table: seq<(T, seq<Alt>)>)
    requires forall i, j :: 0 <= i < |table| && 0 <= j < |table[i].1| ==> table[i].1[j].Named?
    ensures FirstMatch(t, table).Some? ==> NameToken(t)
    decreases |table|
  {
    if |table| > 0 {
      if !NameToken(t) {
        WordsMissSymbol(t, table[0].1);
      }
      NamedRowsNeedName(t, table[1..]);
    }
  }

  /** Only a word token names a slot. */
  lemma SlotNeedsName(t: Token)
    ensures FirstMatch(t, SlotTable()).Some? ==> NameToken(t)
  {
    NamedRowsNeedName(t, SlotTable());
  }

  /** The operation a symbol token selects: the first row whose operator
    * pattern it matches. */
  lemma {:induction false} OperationRowsOfSymbol(t: Token)
    requires !NameToken(t)
    ensures FirstMatch(t, OperationTable()) ==
      if Matches(t, OpPat(TBinOpEq, "plus")) then Some(Increment)
      else if Matches(t, OpPat(TBinOpEq, "minus")) then Some(Decrement)
      else if Matches(t, OpPat(TBinOpEq, "star")) then Some(Multiply)
      else if Matches(t, OpPat(TBinOpEq, "slash")) then Some(Divide)
      else if Matches(t, OpPat(TCmpOp, "equals")) then Some(Set)
      else None
  {
    var table := OperationTable();
    WordsThenPattern(t, "increment", "inc", OpPat(TBinOpEq, "plus"));
    WordsThenPattern(t, "decrement", "dec", OpPat(TBinOpEq, "minus"));
    var mul := table[2].1;
    assert mul[1..] == [Named("mult"), Named("mul"), Pat(OpPat(TBinOpEq, "star"))];
    WordsThenPattern(t, "mult", "mul", OpPat(TBinOpEq, "star"));
    assert AnyAlt(t, mul) == AnyAlt(t, mul[1..]);
    WordsThenPattern(t, "divide", "div", OpPat(TBinOpEq, "slash"));
    WordThenPattern(t, "set", OpPat(TCmpOp, "equals"));
    assert table[1..][1..] == table[2..];
    assert table[2..][1..] == table[3..];
    assert table[3..][1..] == table[4..];
    assert table[4..][1..] == [];
    assert FirstMatch(t, table[4..]) == if Matches(t, OpPat(TCmpOp, "equals")) then Some(Set) else None;
    assert FirstMatch(t, table[3..]) == if Matches(t, OpPat(TBinOpEq, "slash")) then Some(Divide) else FirstMatch(t, table[4..]);
    assert FirstMatch(t, table[2..]) == if Matches(t, OpPat(TBinOpEq, "star")) then Some(Multiply) else FirstMatch(t, table[3..]);
    assert FirstMatch(t, table[1..]) == if Matches(t, OpPat(TBinOpEq, "minus")) then Some(Decrement) else FirstMatch(t, table[2..]);
  }

  /** By token kind: `+=`, `-=`, `*=`, `/=` and `=` select increment,
    * decrement, multiply, divide and set; every other symbol selects
    * nothing. */
  lemma OperationOfSymbol(t: Token)
    requires !NameToken(t)
    ensures FirstMatch(t, OperationTable()) ==
      if t.kind == BinOpEqTok(Plus) then Some(Increment)
      else if t.kind == BinOpEqTok(Minus) then Some(Decrement)
      else if t.kind == BinOpEqTok(Star) then Some(Multiply)
      else if t.kind == BinOpEqTok(Slash) then Some(Divide)
      else if t.kind == CmpOpTok(Equals) then Some(Set)
      else None
  {
    OperationRowsOfSymbol(t);
    OpPatKinds(t);
  }

  /** The operator patterns of the operation and comparison tables, by the
    * token kinds they match. */
  lemma OpPatKinds(t: Token)
    ensures Matches(t, OpPat(TBinOpEq, "plus")) <==> t.kind == BinOpEqTok(Plus)
    ensures Matches(t, OpPat(TBinOpEq, "minus")) <==> t.kind == BinOpEqTok(Minus)
    ensures Matches(t, OpPat(TBinOpEq, "star")) <==> t.kind == BinOpEqTok(Star)
    ensures Matches(t, OpPat(TBinOpEq, "slash")) <==> t.kind == BinOpEqTok(Slash)
    ensures Matches(t, OpPat(TCmpOp, "equals")) <==> t.kind == CmpOpTok(Equals)
    ensures Matches(t, OpPat(TCmpOpEq, "equals")) <==> t.kind == CmpOpEqTok(Equals)
    ensures Matches(t, OpPat(TCmpOp, "less_than")) <==> t.kind == CmpOpTok(LessThan)
    ensures Matches(t, OpPat(TCmpOpEq, "less_than")) <==> t.kind == CmpOpEqTok(LessThan)
    ensures Matches(t, OpPat(TCmpOp, "greater_than")) <==> t.kind == CmpOpTok(GreaterThan)
    ensures Matches(t, OpPat(TCmpOpEq, "greater_than")) <==> t.kind == CmpOpEqTok(GreaterThan)
  {
    BinOpEqPat(t, Plus);
    BinOpEqPat(t, Minus);
    BinOpEqPat(t, Star);
    BinOpEqPat(t, Slash);
    CmpOpPat(t, Equals);
    CmpOpPat(t, LessThan);
    CmpOpPat(t, GreaterThan);
  }

  /** The pattern of a compound assignment operator matches just its token. */
  lemma BinOpEqPat(t: Token, o: BinOp)
    ensures Matches(t, OpPat(TBinOpEq, BinOpString(o))) <==> t.kind == BinOpEqTok(o)
  {
    OpPatMeaning(t, TBinOpEq, BinOpString(o));
    if t.kind.BinOpEqTok? {
      assert BinOpOfString(BinOpString(t.kind.bop)) == Some(t.kind.bop);
      assert BinOpOfString(BinOpString(o)) == Some(o);
    }
  }

  /** The patterns of a comparison operator, bare or with `=`, match just
    * their tokens. */
  lemma CmpOpPat(t: Token, o: CmpOp)
    ensures Matches(t, OpPat(TCmpOp, CmpOpString(o))) <==> t.kind == CmpOpTok(o)
    ensures Matches(t, OpPat(TCmpOpEq, CmpOpString(o))) <==> t.kind == CmpOpEqTok(o)
  {
    OpPatMeaning(t, TCmpOp, CmpOpString(o));
    OpPatMeaning(t, TCmpOpEq, CmpOpString(o));
    if t.kind.CmpOpTok? || t.kind.CmpOpEqTok? {
      assert CmpOpOfString(CmpOpString(t.kind.cop)) == Some(t.kind.cop);
      assert CmpOpOfString(CmpOpString(o)) == Some(o);
    }
  }

  /** The comparison a symbol token selects: the first row whose operator
    * patterns it matches. */
  lemma {:induction false} ComparisonRowsOfSymbol(t: Token)
    requires !NameToken(t)
    ensures FirstMatch(t, ComparisonTable()) ==
      if Matches(t, OpPat(TCmpOp, "equals")) || Matches(t, OpPat(TCmpOpEq, "equals")) then Some(CompareEquals)
      else if Matches(t, OpPat(TCmpOp, "less_than")) then Some(CompareLess)
      else if Matches(t, OpPat(TCmpOpEq, "less_than")) then Some(CompareLessOrEquals)
      else if Matches(t, OpPat(TCmpOp, "greater_than")) then Some(CompareGreater)
      else if Matches(t, OpPat(TCmpOpEq, "greater_than")) then Some(CompareGreaterOrEquals)
      else None
  {
    var table := ComparisonTable();
    var eq := table[0].1;
    assert eq[1..][1..] == [Pat(OpPat(TCmpOp, "equals")), Pat(OpPat(TCmpOpEq, "equals"))];
    assert eq[1..][1..][1..] == [Pat(OpPat(TCmpOpEq, "equals"))];
    assert eq[1..][1..][1..][1..] == [];
    assert AnyAlt(t, eq[1..][1..][1..]) == Matches(t, OpPat(TCmpOpEq, "equals"));
    assert AnyAlt(t, eq[1..][1..]) == (Matches(t, OpPat(TCmpOp, "equals")) || Matches(t, OpPat(TCmpOpEq, "equals")));
    assert AnyAlt(t, eq) == AnyAlt(t, eq[1..][1..]);
    WordThenPattern(t, "less than", OpPat(TCmpOp, "less_than"));
    WordsThenPattern(t, "less than or equals", "less than or equal", OpPat(TCmpOpEq, "less_than"));
    WordThenPattern(t, "greater than", OpPat(TCmpOp, "greater_than"));
    WordsThenPattern(t, "greater than or equals", "greater than or equal", OpPat(TCmpOpEq, "greater_than"));
    assert table[1..][1..] == table[2..];
    assert table[2..][1..] == table[3..];
    assert table[3..][1..] == table[4..];
    assert table[4..][1..] == [];
    assert FirstMatch(t, table[4..]) == if Matches(t, OpPat(TCmpOpEq, "greater_than")) then Some(CompareGreaterOrEquals) else None;
    assert FirstMatch(t, table[3..]) == if Matches(t, OpPat(TCmpOp, "greater_than")) then Some(CompareGreater) else FirstMatch(t, table[4..]);
    assert FirstMatch(t, table[2..]) == if Matches(t, OpPat(TCmpOpEq, "less_than")) then Some(CompareLessOrEquals) else FirstMatch(t, table[3..]);
    assert FirstMatch(t, table[1..]) == if Matches(t, OpPat(TCmpOp, "less_than")) then Some(CompareLess) else FirstMatch(t, table[2..]);
  }

  /** By token kind: `=` and `==` select equals, and `<`, `<=`, `>`, `>=`
    * the other comparisons; every other symbol selects nothing. */
  lemma ComparisonOfSymbol(t: Token)
    requires !NameToken(t)
    ensures FirstMatch(t, ComparisonTable()) ==
      if t.kind == CmpOpTok(Equals) || t.kind == CmpOpEqTok(Equals) then Some(CompareEquals)
      else if t.kind == CmpOpTok(LessThan) then Some(CompareLess)
      else if t.kind == CmpOpEqTok(LessThan) then Some(CompareLessOrEquals)
      else if t.kind == CmpOpTok(GreaterThan) then Some(CompareGreater)
      else if t.kind == CmpOpEqTok(GreaterThan) then Some(CompareGreaterOrEquals)
      else None
  {
    ComparisonRowsOfSymbol(t);
    OpPatKinds(t);
  }

  // ---------------------------------------------------------------------
  // Coordinates (src/parse/arguments.ts:312-373)

  /** `isRelative`: a `~` or `^` alone or followed by a number. */
  predicate IsRelative(s: string, isNumeric: string -> bool)
  {
    (StartsWith(s, "~") || StartsWith(s, "^")) && (|s| == 1 || isNumeric(s[1..]))
  }

  /** One space-separated component of a coordinates literal, with the span
    * the parser gives it. */
  datatype Component = Component(text: string, span: Span)

  /** The position of piece `i` in the text the pieces are joined from with
    * one-character separators. */
  function Offset(parts: seq<string>, i: nat): nat
    requires i <= |parts|
  {
    if i == 0 then 0 else |parts[0]| + 1 + Offset(parts[1..], i - 1)
  }

  /** One more piece: the offset grows by its length and the separator. */
  lemma {:induction false} OffsetStep(parts: seq<string>, i: nat)
    requires i < |parts|
    ensures Offset(parts, i + 1) == Offset(parts, i) + |parts[i]| + 1
    decreases i
  {
    if i > 0 {
      OffsetStep(parts[1..], i - 1);
    }
  }

  /** The components of a literal whose first character is at `base + 1`:
    * piece `i` spans from `base + 1 + Offset(parts, i)` for its length,
    * as the `offset` accumulator of the source computes. */
  function Components(parts: seq<string>, base: nat): (cs: seq<Component>)
    ensures |cs| == |parts|
    ensures forall i :: 0 <= i < |parts| ==>
      cs[i] == Component(parts[i], Span(base + 1 + Offset(parts, i), base + 1 + Offset(parts, i) + |parts[i]|))
  {
    seq(|parts|, i requires 0 <= i < |parts| =>
      Component(parts[i], Span(base + 1 + Offset(parts, i), base + 1 + Offset(parts, i) + |parts[i]|)))
  }

  /** Piece `i` sits at `Offset(parts, i)` of the joined text. */
  lemma {:induction false} JoinedPieceAt(parts: seq<string>, c: char, i: nat)
    requires i < |parts|
    ensures var s := Join(parts, [c]);
      Offset(parts, i) + |parts[i]| <= |s| && s[Offset(parts, i)..Offset(parts, i) + |parts[i]|] == parts[i]
    decreases i
  {
    var s := Join(parts, [c]);
    if |parts| == 1 {
    } else {
      assert s == parts[0] + [c] + Join(parts[1..], [c]);
      if i > 0 {
        JoinedPieceAt(parts[1..], c, i - 1);
        var k := |parts[0]| + 1;
        assert s[k..] == Join(parts[1..], [c]);
        assert s[Offset(parts, i)..Offset(parts, i) + |parts[i]|]
            == s[k..][Offset(parts[1..], i - 1)..Offset(parts[1..], i - 1) + |parts[1..][i - 1]|];
      }
    }
  }

  /** Each component's span, moved back by the literal's start and its opening
    * quote, selects exactly that component's text in the literal's value. */
  lemma ComponentSpansSelectText(value: string, base: nat, i: nat)
    requires i < |Split(value, ' ')|
    ensures var c := Components(Split(value, ' '), base)[i];
      base + 1 <= c.span.start <= c.span.end <= base + 1 + |value|
      && value[c.span.start - base - 1..c.span.end - base - 1] == c.text
  {
    JoinSplit(value, ' ');
    JoinedPieceAt(Split(value, ' '), ' ', i);
  }

  /** "Invalid component" for each component that is neither relative nor
    * numeric, in order. */
  function InvalidComponents(cs: seq<Component>, isNumeric: string -> bool): (ds: seq<Diagnostic>)
    ensures |ds| <= |cs|
  {
    if |cs| == 0 then []
    else
      var c := cs[|cs| - 1];
      InvalidComponents(cs[..|cs| - 1], isNumeric)
      + (if IsRelative(c.text, isNumeric) || isNumeric(c.text) then [] else [ErrorAt("Invalid component", c.span)])
  }

  predicate Directional(c: Component)
  {
    StartsWith(c.text, "^")
  }

  /** The checks on the shape of three or more components. As written, the
    * pitch check is applied to component 4 twice; `fixYaw` checks component
    * 3 as the yaw instead. */
  function ShapeChecks(cs: seq<Component>, sp: Span, isNumeric: string -> bool, fixYaw: bool): seq<Diagnostic>
    requires |cs| >= 3
  {
    MixedDirections(cs, sp) + MissingYaw(cs) + PitchYawChecks(cs, isNumeric, fixYaw)
  }

  /** Some components directional (`^`) and some not. */
  function MixedDirections(cs: seq<Component>, sp: Span): seq<Diagnostic>
  {
    var anyDirectional := exists i :: 0 <= i < |cs| && Directional(cs[i]);
    var allDirectional := forall i :: 0 <= i < |cs| ==> Directional(cs[i]);
    if anyDirectional && !allDirectional then [ErrorAt("All components must be directional", sp)] else []
  }

  /** Four components, or more than five: a yaw is missing. */
  function MissingYaw(cs: seq<Component>): seq<Diagnostic>
  {
    if |cs| > 3 && |cs| != 5 then [ErrorAt("Expected yaw", cs[3].span)] else []
  }

  /** Five components: the pitch, and then the yaw, must be numeric. */
  function PitchYawChecks(cs: seq<Component>, isNumeric: string -> bool, fixYaw: bool): seq<Diagnostic>
  {
    if |cs| == 5 then
      var yaw := if fixYaw then cs[3] else cs[4];
      (if isNumeric(cs[4].text) then [] else [ErrorAt("Invalid pitch", cs[4].span)])
      + (if isNumeric(yaw.text) then [] else [ErrorAt(if fixYaw then "Invalid yaw" else "Invalid pitch", yaw.span)])
    else []
  }

  /** The diagnostics of `parseCoordinates` for a literal `value` at span
    * `sp`, and the value it returns. */
  function CoordinateChecks(value: string, sp: Span, isNumeric: string -> bool, fixYaw: bool): (seq<Diagnostic>, string)
  {
    var cs := Components(Split(value, ' '), sp.start);
    if |cs| < 3 then (InvalidComponents(cs, isNumeric) + [ErrorAt("Expected 3 components", Span(sp.start, sp.end))], "")
    else (InvalidComponents(cs, isNumeric) + ShapeChecks(cs, sp, isNumeric, fixYaw), value)
  }

  /** Fewer than three components: the last diagnostic is "Expected 3
    * components" over the whole literal, and the result is empty. With
    * three or more, the literal is returned unchanged. */
  lemma CoordinatesNeedThree(value: string, sp: Span, isNumeric: string -> bool, fixYaw: bool)
    ensures var (ds, v) := CoordinateChecks(value, sp, isNumeric, fixYaw);
      (|Split(value, ' ')| < 3 ==> v == "" && |ds| > 0 && ds[|ds| - 1] == ErrorAt("Expected 3 components", sp))
      && (|Split(value, ' ')| >= 3 ==> v == value)
  {
  }

  /** Exactly four components: "Expected yaw" at the fourth. */
  lemma FourComponentsExpectYaw(cs: seq<Component>, sp: Span, isNumeric: string -> bool, fixYaw: bool)
    requires |cs| == 4
    ensures ErrorAt("Expected yaw", cs[3].span) in ShapeChecks(cs, sp, isNumeric, fixYaw)
  {
  }

  /** As written, with five components the fourth is never checked as a
    * number, while a non-numeric fifth is reported twice as "Invalid
    * pitch". For `"1 2 3 ~ x"` (where `~` is relative but not a number) the
    * fourth goes unreported and the fifth gets two identical diagnostics. */
  lemma PitchCheckedTwiceAsWritten(cs: seq<Component>, sp: Span, isNumeric: string -> bool)
    requires |cs| == 5
    ensures var ds := ShapeChecks(cs, sp, isNumeric, false);
      (isNumeric(cs[4].text) ==> forall d :: d in ds ==> d.message != "Invalid pitch" && d.message != "Invalid yaw")
      && (!isNumeric(cs[4].text) ==> |ds| >= 2 && ds[|ds| - 2] == ds[|ds| - 1] == ErrorAt("Invalid pitch", cs[4].span))
  {
  }

  /** Corrected, the fourth component is checked as the yaw and the fifth as
    * the pitch, each once. */
  lemma PitchAndYawCorrected(cs: seq<Component>, sp: Span, isNumeric: string -> bool)
    requires |cs| == 5
    ensures var ds := ShapeChecks(cs, sp, isNumeric, true);
      (ErrorAt("Invalid yaw", cs[3].span) in ds <==> !isNumeric(cs[3].text))
      && (ErrorAt("Invalid pitch", cs[4].span) in ds <==> !isNumeric(cs[4].text))
  {
    var ds := ShapeChecks(cs, sp, isNumeric, true);
    var head := (if (exists i :: 0 <= i < |cs| && Directional(cs[i])) && !(forall i :: 0 <= i < |cs| ==> Directional(cs[i]))
                 then [ErrorAt("All components must be directional", sp)] else []);
    var pitch := if isNumeric(cs[4].text) then [] else [ErrorAt("Invalid pitch", cs[4].span)];
    var yaw := if isNumeric(cs[3].text) then [] else [ErrorAt("Invalid yaw", cs[3].span)];
    assert ds == head + [] + (pitch + yaw);
  }

  // ---------------------------------------------------------------------
  // Placeholders (src/parse/placeholders.ts)

  /** The placeholder name: the text before the first `/`. */
  function PlaceholderName(value: string): string
  {
    var index := IndexOf(value, '/');
    Substring(value, 0, if index == -1 then |value| else index)
  }

  /** The arguments: the text after the first `/` split on spaces; none
    * without a `/`. */
  function PlaceholderArgs(value: string): seq<string>
  {
    var index := IndexOf(value, '/');
    if index == -1 then [] else Split(value[index + 1..], ' ')
  }

  /** The name and arguments give back the placeholder text: without a `/`
    * the name is the whole text, otherwise the text is the name, a `/`, and
    * the arguments joined with spaces. */
  lemma PlaceholderSplits(value: string)
    ensures '/' !in value ==> PlaceholderName(value) == value && PlaceholderArgs(value) == []
    ensures '/' in value ==>
      '/' !in PlaceholderName(value)
      && value == PlaceholderName(value) + "/" + Join(PlaceholderArgs(value), " ")
  {
    var index := IndexOf(value, '/');
    if index >= 0 {
      JoinSplit(value[index + 1..], ' ');
      assert value == value[..index] + "/" + value[index + 1..];
    }
  }

  /** How the placeholder names are treated. */
  datatype PlaceholderClass = TextPlaceholder | NumberPlaceholder | StatPlaceholder | TeamStatPlaceholder | UnknownPlaceholder

  function ClassOf(name: string): PlaceholderClass
  {
    if name in {"server.name", "server.shortname", "player.name", "player.version", "player.gamemode",
                "player.region.name", "player.group.name", "player.group.tag", "player.group.color",
                "player.team.name", "player.team.tag", "player.team.color", "player.parkour.formatted",
                "house.name", "house.visitingrules"} then TextPlaceholder
    else if name in {"player.ping", "player.health", "player.maxhealth", "player.hunger", "player.experience",
                     "player.level", "player.protocol", "player.location.x", "player.location.y",
                     "player.location.z", "player.location.pitch", "player.location.yaw",
                     "player.group.priority", "player.parkour.ticks", "house.guests", "house.cookies",
                     "house.players"} then NumberPlaceholder
    else if name in {"stat.player", "stat.global"} then StatPlaceholder
    else if name == "stat.team" then TeamStatPlaceholder
    else UnknownPlaceholder
  }

  /** The diagnostics of the arity check for the (unwrapped) placeholder text
    * `value` of a token at `sp` (src/parse/placeholders.ts:24-86). Argument
    * diagnostics start just after the `/`, or at the last character when
    * there is none. */
  function PlaceholderChecks(value: string, sp: Span): seq<Diagnostic>
  {
    var index := IndexOf(value, '/');
    var args := PlaceholderArgs(value);
    var lo := if index == -1 then |value| - 1 else index + 1;
    var argSpan := Span(if sp.start + lo < 0 then 0 else sp.start + lo, sp.end);
    var invalid := ErrorAt("Invalid placeholder", sp);
    match ClassOf(PlaceholderName(value))
    case TextPlaceholder =>
      (if |args| > 0 then [ErrorAt("No arguments expected", argSpan)] else []) + [invalid]
    case NumberPlaceholder =>
      if |args| > 0 then [ErrorAt("No arguments expected", argSpan)] else []
    case StatPlaceholder =>
      if |args| == 0 then [ErrorAt("Expected stat key", argSpan)] else []
    case TeamStatPlaceholder =>
      (if |args| == 0 then [ErrorAt("Expected stat key", argSpan)] else [])
      + (if |args| == 1 then [ErrorAt("Expected team name", argSpan)] else [])
      + (if |args| > 2 then [ErrorAt("Team stat key cannot contain spaces", argSpan)] else [])
    case UnknownPlaceholder => [invalid]
  }

  /** The arity rules: text placeholders and unknown names are always
    * reported as invalid; number placeholders accept no argument; a player
    * or global stat needs its key; a team stat needs exactly a key and a
    * team. */
  lemma PlaceholderArity(value: string, sp: Span)
    ensures var ds := PlaceholderChecks(value, sp);
      var args := PlaceholderArgs(value);
      var k := ClassOf(PlaceholderName(value));
      ((k == TextPlaceholder || k == UnknownPlaceholder) ==> ErrorAt("Invalid placeholder", sp) in ds)
      && (k == NumberPlaceholder ==> (ds == [] <==> |args| == 0))
      && (k == StatPlaceholder ==> (ds == [] <==> |args| > 0))
      && (k == TeamStatPlaceholder ==> (ds == [] <==> |args| == 2))
      && (k == TeamStatPlaceholder && |args| == 1 ==> |ds| == 1 && ds[0].message == "Expected team name")
  {
  }

  // ---------------------------------------------------------------------
  // The readers

  /** `parseOperation` (src/parse/arguments.ts:129-171). */
  method ParseOperation(p: Parser) returns (r: Outcome<Operation>)
    requires p.Valid()
    modifies p
    ensures p.Valid()
    ensures var m := FirstMatch(old(p.token), OperationTable());
      r == (if m.Some? then Ok(m.value) else Err(ErrorAt(OperationMessage(old(p.token), OPERATION_NAMES), old(p.token).span)))
    ensures r.Ok? ==> p.prev == old(p.token) && p.index == p.After(old(p.index))
    ensures r.Err? ==> unchanged(p)
  {
    var m := p.EatFirst(OperationTable());
    if m.Some? {
      return Ok(m.value);
    }
    return Err(ErrorAt(OperationMessage(p.token, OPERATION_NAMES), p.token.span));
  }

  /** `parseVarName`: the rules of `parseStatName` (src/parse/arguments.ts:111-127). */
  method ParseVarName(p: Parser) returns (r: Outcome<string>)
    requires p.Valid()
    modifies p
    ensures p.Valid()
    ensures r == StatNameCheck(old(p.token))
    ensures r.Ok? ==> p.index == old(p.index) + 1
    ensures r.Err? ==> unchanged(p)
  {
    r := p.ParseStatName();
  }

  /** A reader that reports instead of throwing: on no match it adds a
    * diagnostic, consumes one token and returns the fallback
    * (`parseGamemode`, `parseComparison`). */
  method EatFirstOrReport<T>(p: Parser, table: seq<(T, seq<Alt>)>, fallback: T, what: string, names: string) returns (r: T)
    requires p.Valid()
    modifies p, p.ctx
    ensures p.Valid()
    ensures var m := FirstMatch(old(p.token), table);
      (m.Some? ==> r == m.value && p.ctx.diagnostics == old(p.ctx.diagnostics))
      && (m.None? ==>
            r == fallback
            && p.ctx.diagnostics == old(p.ctx.diagnostics) + [ErrorAt(ReportMessage(old(p.token), what, names), old(p.token).span)])
    ensures p.prev == old(p.token) && p.index == p.After(old(p.index))
  {
    var m := p.EatFirst(table);
    if m.Some? {
      return m.value;
    }
    p.AddDiagnostic(ErrorAt(ReportMessage(p.token, what, names), p.token.span));
    p.Next();
    return fallback;
  }

  /** "Expected <what> (<names>)" for a word, "Expected <what>" otherwise. */
  function ReportMessage(t: Token, what: string, names: string): string
  {
    if NameToken(t) then "Expected " + what + " (" + names + ")" else "Expected " + what
  }

  /** `parseGamemode` (src/parse/arguments.ts:47-66). */
  method ParseGamemode(p: Parser) returns (r: Gamemode)
    requires p.Valid()
    modifies p, p.ctx
    ensures p.Valid()
    ensures var m := FirstMatch(old(p.token), GamemodeTable());
      (m.Some? ==> r == m.value && p.ctx.diagnostics == old(p.ctx.diagnostics))
      && (m.None? ==>
            r == Survival
            && p.ctx.diagnostics == old(p.ctx.diagnostics)
               + [ErrorAt(ReportMessage(old(p.token), "gamemode", "survival, adventure, creative"), old(p.token).span)])
    ensures p.prev == old(p.token) && p.index == p.After(old(p.index))
  {
    r := EatFirstOrReport(p, GamemodeTable(), Survival, "gamemode", "survival, adventure, creative");
  }

  /** `parseComparison` (src/parse/arguments.ts:68-109). */
  method ParseComparison(p: Parser) returns (r: Comparison)
    requires p.Valid()
    modifies p, p.ctx
    ensures p.Valid()
    ensures var m := FirstMatch(old(p.token), ComparisonTable());
      (m.Some? ==> r == m.value && p.ctx.diagnostics == old(p.ctx.diagnostics))
      && (m.None? ==>
            r == CompareEquals
            && p.ctx.diagnostics == old(p.ctx.diagnostics)
               + [ErrorAt(ReportMessage(old(p.token), "comparison", COMPARISON_NAMES), old(p.token).span)])
    ensures p.prev == old(p.token) && p.index == p.After(old(p.index))
  {
    r := EatFirstOrReport(p, ComparisonTable(), CompareEquals, "comparison", COMPARISON_NAMES);
  }

  const COMPARISON_NAMES: string := "less than, less than or equals, equals, greater than, greater than or equals"

  /** The readers over a table of names (`parsePotionEffect`, `parseLobby`,
    * `parseEnchantment`, `parsePermission`, `parseItemProperty`,
    * `parseItemLocation`, src/parse/arguments.ts:236-310): the first name
    * the token spells, otherwise "Expected <what>". */
  method ParseFromNames(p: Parser, names: seq<string>, what: string) returns (r: Outcome<string>)
    requires p.Valid()
    modifies p
    ensures p.Valid()
    ensures NameToken(old(p.token)) && old(p.token).kind.value in names ==>
      r == Ok(old(p.token).kind.value) && p.index == old(p.index) + 1
    ensures !(NameToken(old(p.token)) && old(p.token).kind.value in names) ==>
      r == Err(ErrorAt("Expected " + what, old(p.token).span)) && unchanged(p)
  {
    NameTableSelects(p.token, names);
    var m := p.EatFirst(NameTable(names));
    if m.Some? {
      return Ok(m.value);
    }
    return Err(ErrorAt("Expected " + what, p.token.span));
  }

  /** The sound path for a name or path of the sound table; any other text is
    * kept as it is. */
  function SoundPath(sounds: seq<(string, string)>, value: string): (path: string)
    ensures (exists i :: 0 <= i < |sounds| && (sounds[i].0 == value || sounds[i].1 == value)) ==>
      exists i :: 0 <= i < |sounds| && path == sounds[i].1
    ensures (forall i :: 0 <= i < |sounds| ==> sounds[i].0 != value && sounds[i].1 != value) ==> path == value
  {
    if |sounds| == 0 then value
    else if sounds[0].0 == value || sounds[0].1 == value then sounds[0].1
    else
      var path := SoundPath(sounds[1..], value);
      assert forall i :: 1 <= i < |sounds| ==> sounds[i] == sounds[1..][i - 1];
      path
  }

  /** `parseSound` (src/parse/arguments.ts:266-280): a string literal, mapped
    * through the sound table of (name, path) pairs. */
  method ParseSound(p: Parser, sounds: seq<(string, string)>) returns (r: Outcome<string>)
    requires p.Valid()
    modifies p
    ensures p.Valid()
    ensures old(p.token).kind.Str? ==> r == Ok(SoundPath(sounds, old(p.token).kind.value)) && p.index == old(p.index) + 1
    ensures !old(p.token).kind.Str? ==> r == Err(ErrorAt("Expected sound", old(p.token).span)) && unchanged(p)
  {
    if !p.token.kind.Str? {
      return Err(ErrorAt("Expected sound", p.token.span));
    }
    var value := p.token.kind.value;
    p.Next();
    var i := 0;
    while i < |sounds|
      invariant 0 <= i <= |sounds|
      invariant SoundPath(sounds, value) == SoundPath(sounds[i..], value)
    {
      assert sounds[i..][1..] == sounds[i + 1..];
      if sounds[i].0 == value || sounds[i].1 == value {
        return Ok(sounds[i].1);
      }
      i := i + 1;
    }
    return Ok(value);
  }

  /** `parseInventorySlot` (src/parse/arguments.ts:202-234): a number token as a
    * bounded number in [-1, 39], otherwise a named slot. */
  method ParseInventorySlot(p: Parser) returns (r: Outcome<InventorySlot>)
    requires p.Valid()
    modifies p
    ensures p.Valid()
    ensures p.index >= old(p.index)
    ensures r.Ok? && r.value.SlotNumber? ==> -1 <= r.value.n <= 39
    ensures old(p.token).kind.I64? ==>
      var (n, j) := ReadI64(p.tokens, old(p.index));
      p.index == j
      && (n.Ok? && -1 <= n.value <= 39 ==> r == Ok(SlotNumber(n.value)))
      && (n.Ok? && !(-1 <= n.value <= 39) ==> r == Err(ErrorAt(BoundMessage(-1, 39), old(p.token).span)))
      && (n.Err? ==> r == Err(n.error))
    ensures !old(p.token).kind.I64? ==>
      var m := FirstMatch(old(p.token), SlotTable());
      (m.Some? ==> r == Ok(SlotNamed(m.value)) && p.index == old(p.index) + 1)
      && (m.None? ==> unchanged(p) && r == Err(ErrorAt(
            if NameToken(old(p.token)) then "Expected inventory slot (helmet, chestplate, leggings, boots, first slot, hand slot)"
            else "Expected inventory slot", old(p.token).span)))
  {
    if p.Check(KindIs(TI64)) {
      var n := p.ParseBoundedNumber(-1, 39);
      return if n.Ok? then Ok(SlotNumber(n.value)) else Err(n.error);
    }
    r := ParseSlotName(p);
  }

  /** The named inventory slots, tried in order. */
  method ParseSlotName(p: Parser) returns (r: Outcome<InventorySlot>)
    requires p.Valid()
    modifies p
    ensures p.Valid()
    ensures var m := FirstMatch(old(p.token), SlotTable());
      (m.Some? ==> r == Ok(SlotNamed(m.value)) && p.index == old(p.index) + 1)
      && (m.None? ==> unchanged(p) && r == Err(ErrorAt(
            if NameToken(old(p.token)) then "Expected inventory slot (helmet, chestplate, leggings, boots, first slot, hand slot)"
            else "Expected inventory slot", old(p.token).span)))
  {
    var table := SlotTable();
    SlotNeedsName(p.token);
    var m := p.EatFirst(table);
    if m.Some? {
      return Ok(SlotNamed(m.value));
    }
    if NameToken(p.token) {
      return Err(ErrorAt("Expected inventory slot (helmet, chestplate, leggings, boots, first slot, hand slot)", p.token.span));
    }
    return Err(ErrorAt("Expected inventory slot", p.token.span));
  }

  /** The `map` over the pieces of a literal whose opening quote is at
    * `base`: builds each component with its span, tracking the running
    * offset, and reports the invalid ones. */
  method ReportComponents(p: Parser, parts: seq<string>, base: nat, isNumeric: string -> bool) returns (components: seq<Component>)
    modifies p.ctx
    ensures components == Components(parts, base)
    ensures p.ctx.diagnostics == old(p.ctx.diagnostics) + InvalidComponents(components, isNumeric)
  {
    ghost var cs := Components(parts, base);
    components := [];
    var offset := 0;
    var i := 0;
    while i < |parts|
      invariant 0 <= i <= |parts|
      invariant offset == Offset(parts, i)
      invariant components == cs[..i]
      invariant p.ctx.diagnostics == old(p.ctx.diagnostics) + InvalidComponents(components, isNumeric)
    {
      var start := base + 1 + offset;
      var c := Component(parts[i], Span(start, start + |parts[i]|));
      ComponentStep(parts, base, i, c);
      InvalidStep(components, c, isNumeric);
      ghost var before := p.ctx.diagnostics;
      if !(IsRelative(parts[i], isNumeric) || isNumeric(parts[i])) {
        p.AddDiagnostic(ErrorAt("Invalid component", c.span));
      }
      AppendAssoc(old(p.ctx.diagnostics), InvalidComponents(components, isNumeric), p.ctx.diagnostics[|before|..]);
      OffsetStep(parts, i);
      offset := offset + |parts[i]| + 1;
      components := components + [c];
      i := i + 1;
    }
  }

  /** The next component extends the prefix of `Components`. */
  lemma ComponentStep(parts: seq<string>, base: nat, i: nat, c: Component)
    requires i < |parts|
    requires c == Component(parts[i], Span(base + 1 + Offset(parts, i), base + 1 + Offset(parts, i) + |parts[i]|))
    ensures Components(parts, base)[..i + 1] == Components(parts, base)[..i] + [c]
  {
    var cs := Components(parts, base);
    assert cs[i] == c;
  }

  /** One more component adds its own finding, if any, at the end. */
  lemma InvalidStep(cs: seq<Component>, c: Component, isNumeric: string -> bool)
    ensures InvalidComponents(cs + [c], isNumeric) == InvalidComponents(cs, isNumeric)
      + (if IsRelative(c.text, isNumeric) || isNumeric(c.text) then [] else [ErrorAt("Invalid component", c.span)])
  {
    assert (cs + [c])[..|cs|] == cs;
  }

  /** The checks of three or more components, reported in order. */
  method ReportShape(p: Parser, components: seq<Component>, sp: Span, isNumeric: string -> bool, fixYaw: bool)
    requires |components| >= 3
    modifies p.ctx
    ensures p.ctx.diagnostics == old(p.ctx.diagnostics) + ShapeChecks(components, sp, isNumeric, fixYaw)
  {
    ReportDirections(p, components, sp);
    ghost var mid := p.ctx.diagnostics;
    var requiresPitchYaw := |components| == 5;
    if |components| > 3 && !requiresPitchYaw {
      p.AddDiagnostic(ErrorAt("Expected yaw", components[3].span));
    }
    AppendAssoc(old(p.ctx.diagnostics), MixedDirections(components, sp), MissingYaw(components));
    ReportPitchYaw(p, components, isNumeric, fixYaw);
    AppendAssoc(old(p.ctx.diagnostics), MixedDirections(components, sp) + MissingYaw(components), PitchYawChecks(components, isNumeric, fixYaw));
  }

  /** "All components must be directional", when they are mixed. */
  method ReportDirections(p: Parser, components: seq<Component>, sp: Span)
    modifies p.ctx
    ensures p.ctx.diagnostics == old(p.ctx.diagnostics) + MixedDirections(components, sp)
  {
    var allDirectional := forall k :: 0 <= k < |components| ==> Directional(components[k]);
    var anyDirectional := exists k :: 0 <= k < |components| && Directional(components[k]);
    if anyDirectional && !allDirectional {
      p.AddDiagnostic(ErrorAt("All components must be directional", sp));
    }
  }

  /** The pitch and yaw checks of five components. */
  method ReportPitchYaw(p: Parser, components: seq<Component>, isNumeric: string -> bool, fixYaw: bool)
    modifies p.ctx
    ensures p.ctx.diagnostics == old(p.ctx.diagnostics) + PitchYawChecks(components, isNumeric, fixYaw)
  {
    if |components| == 5 {
      var pitch := components[4];
      if !isNumeric(pitch.text) {
        p.AddDiagnostic(ErrorAt("Invalid pitch", pitch.span));
      }
      ghost var mid := p.ctx.diagnostics;
      var yaw := if fixYaw then components[3] else components[4];
      if !isNumeric(yaw.text) {
        p.AddDiagnostic(ErrorAt(if fixYaw then "Invalid yaw" else "Invalid pitch", yaw.span));
      }
      AppendAssoc(old(p.ctx.diagnostics), mid[|old(p.ctx.diagnostics)|..], p.ctx.diagnostics[|mid|..]);
    }
  }

  /** `parseCoordinates` with the yaw check a parameter: a string literal
    * whose components are checked, each finding added as a diagnostic. */
  method ParseCoordinatesWith(p: Parser, isNumeric: string -> bool, fixYaw: bool) returns (r: Outcome<string>)
    requires p.Valid()
    modifies p, p.ctx
    ensures p.Valid()
    ensures old(p.token).kind.Str? ==>
      var (ds, v) := CoordinateChecks(old(p.token).kind.value, old(p.token).span, isNumeric, fixYaw);
      r == Ok(v) && p.ctx.diagnostics == old(p.ctx.diagnostics) + ds && p.index == old(p.index) + 1
    ensures !old(p.token).kind.Str? ==>
      r == Err(ErrorAt("Expected coordinates", old(p.token).span)) && unchanged(p) && unchanged(p.ctx)
  {
    if !p.token.kind.Str? {
      return Err(ErrorAt("Expected coordinates", p.token.span));
    }
    var value := p.token.kind.value;
    var sp := p.token.span;
    p.Next();
    var components := ReportComponents(p, Split(value, ' '), sp.start, isNumeric);
    if |components| < 3 {
      p.AddDiagnostic(ErrorAt("Expected 3 components", Span(sp.start, sp.end)));
      AppendAssoc(old(p.ctx.diagnostics), InvalidComponents(components, isNumeric), [ErrorAt("Expected 3 components", Span(sp.start, sp.end))]);
      return Ok("");
    }
    ReportShape(p, components, sp, isNumeric, fixYaw);
    AppendAssoc(old(p.ctx.diagnostics), InvalidComponents(components, isNumeric), ShapeChecks(components, sp, isNumeric, fixYaw));
    return Ok(value);
  }

  /** `parseCoordinates` as written (src/parse/arguments.ts:312-373). */
  method ParseCoordinates(p: Parser, isNumeric: string -> bool) returns (r: Outcome<string>)
    requires p.Valid()
    modifies p, p.ctx
    ensures p.Valid()
    ensures old(p.token).kind.Str? ==>
      var (ds, v) := CoordinateChecks(old(p.token).kind.value, old(p.token).span, isNumeric, false);
      r == Ok(v) && p.ctx.diagnostics == old(p.ctx.diagnostics) + ds && p.index == old(p.index) + 1
    ensures !old(p.token).kind.Str? ==>
      r == Err(ErrorAt("Expected coordinates", old(p.token).span)) && unchanged(p) && unchanged(p.ctx)
  {
    r := ParseCoordinatesWith(p, isNumeric, false);
  }

  /** `parseCoordinates` with the fourth component checked as the yaw. */
  method ParseCoordinatesCorrected(p: Parser, isNumeric: string -> bool) returns (r: Outcome<string>)
    requires p.Valid()
    modifies p, p.ctx
    ensures p.Valid()
    ensures old(p.token).kind.Str? ==>
      var (ds, v) := CoordinateChecks(old(p.token).kind.value, old(p.token).span, isNumeric, true);
      r == Ok(v) && p.ctx.diagnostics == old(p.ctx.diagnostics) + ds && p.index == old(p.index) + 1
    ensures !old(p.token).kind.Str? ==>
      r == Err(ErrorAt("Expected coordinates", old(p.token).span)) && unchanged(p) && unchanged(p.ctx)
  {
    r := ParseCoordinatesWith(p, isNumeric, true);
  }

  /** `parseLocation` (src/parse/arguments.ts:32-45); a custom location reads
    * its coordinates with the corrected yaw check. */
  method ParseLocation(p: Parser, isNumeric: string -> bool) returns (r: Outcome<Ir.Location>)
    requires p.Valid()
    modifies p, p.ctx
    ensures p.Valid()
    ensures p.index >= old(p.index)
    ensures var m := FirstMatch(old(p.token), LocationTable());
      (m == Some(SpawnLocation) ==> r == Ok(Ir.LocationSpawn))
      && (m == Some(InvokersLocation) ==> r == Ok(Ir.LocationInvokers))
      && (m.None? ==> r == Err(ErrorAt("Invalid location", old(p.token).span)) && unchanged(p))
    ensures FirstMatch(old(p.token), LocationTable()) == Some(CustomLocation) ==>
      old(p.index) < |p.tokens|
      && var t := p.tokens[old(p.index)];
      (t.kind.Str? ==> r == Ok(Ir.LocationCustom(CoordinateChecks(t.kind.value, t.span, isNumeric, true).1)))
      && (!t.kind.Str? ==> r == Err(ErrorAt("Expected coordinates", t.span)))
  {
    NamedRowsNeedName(p.token, LocationTable());
    ghost var i0 := p.index;
    var m := p.EatFirst(LocationTable());
    if m == Some(CustomLocation) {
      NameIsNotLast(p.tokens, i0);
      assert p.token == p.tokens[i0];
      r := ParseCustomLocation(p, isNumeric);
      return;
    }
    if m == Some(SpawnLocation) {
      return Ok(Ir.LocationSpawn);
    }
    if m == Some(InvokersLocation) {
      return Ok(Ir.LocationInvokers);
    }
    return Err(ErrorAt("Invalid location", p.token.span));
  }

  /** A word token is never the closing `eof`, so a token follows it. */
  lemma NameIsNotLast(ts: seq<Token>, i: int)
    requires WellFormedStream(ts) && 1 <= i <= |ts| && NameToken(ts[i - 1])
    ensures i < |ts|
  {
  }

  /** The coordinates of a custom location, once its keyword is eaten. */
  method ParseCustomLocation(p: Parser, isNumeric: string -> bool) returns (r: Outcome<Ir.Location>)
    requires p.Valid()
    modifies p, p.ctx
    ensures p.Valid()
    ensures p.index >= old(p.index)
    ensures old(p.token).kind.Str? ==>
      r == Ok(Ir.LocationCustom(CoordinateChecks(old(p.token).kind.value, old(p.token).span, isNumeric, true).1))
    ensures !old(p.token).kind.Str? ==> r == Err(ErrorAt("Expected coordinates", old(p.token).span))
  {
    var value := ParseCoordinatesCorrected(p, isNumeric);
    return if value.Ok? then Ok(Ir.LocationCustom(value.value)) else Err(value.error);
  }

  /** `parseNumericalPlaceholder` (src/parse/placeholders.ts:4-89): a
    * placeholder token, or a string literal wrapped in `%`, checked for its
    * name and arity; the result is the placeholder text wrapped in `%`. */
  method ParseNumericalPlaceholder(p: Parser) returns (r: Outcome<string>)
    requires p.Valid()
    modifies p, p.ctx
    ensures p.Valid()
    ensures p.index >= old(p.index)
    ensures !(old(p.token).kind.Str? || old(p.token).kind.Placeholder?) ==>
      r == Err(ErrorAt("Expected placeholder", old(p.token).span)) && unchanged(p) && unchanged(p.ctx)
    ensures old(p.token).kind.Placeholder? ==>
      var v := old(p.token).kind.value;
      r == Ok("%" + v + "%") && p.ctx.diagnostics == old(p.ctx.diagnostics) + PlaceholderChecks(v, old(p.token).span)
    ensures old(p.token).kind.Str? ==>
      var v := old(p.token).kind.value;
      if StartsWith(v, "%") && EndsWith(v, "%") then
        var inner := Substring(v, 1, |v| - 1);
        r == Ok("%" + inner + "%") && p.ctx.diagnostics == old(p.ctx.diagnostics) + PlaceholderChecks(inner, old(p.token).span)
      else r == Ok("") && p.ctx.diagnostics == old(p.ctx.diagnostics) + [ErrorAt("Expected placeholder", old(p.token).span)]
    ensures r.Ok? ==> p.index == old(p.index) + 1
  {
    if !(p.token.kind.Str? || p.token.kind.Placeholder?) {
      return Err(ErrorAt("Expected placeholder", p.token.span));
    }
    var value := p.token.kind.value;
    var span := p.token.span;
    p.Next();
    if p.prev.kind.Str? {
      if !(StartsWith(value, "%") && EndsWith(value, "%")) {
        p.AddDiagnostic(ErrorAt("Expected placeholder", p.prev.span));
        return Ok("");
      }
      value := Substring(value, 1, |value| - 1);
    }
    ReportPlaceholder(p, value, span);
    return Ok("%" + value + "%");
  }

  /** Adds the arity diagnostics of a placeholder, in order. */
  method ReportPlaceholder(p: Parser, value: string, span: Span)
    modifies p.ctx
    ensures p.ctx.diagnostics == old(p.ctx.diagnostics) + PlaceholderChecks(value, span)
  {
    var ds := PlaceholderChecks(value, span);
    AddDiagnostics(p, ds);
  }

  /** Adds the diagnostics `ds`, in order. */
  method AddDiagnostics(p: Parser, ds: seq<Diagnostic>)
    modifies p.ctx
    ensures p.ctx.diagnostics == old(p.ctx.diagnostics) + ds
  {
    var i := 0;
    while i < |ds|
      invariant 0 <= i <= |ds|
      invariant p.ctx.diagnostics == old(p.ctx.diagnostics) + ds[..i]
    {
      p.AddDiagnostic(ds[i]);
      assert ds[..i + 1] == ds[..i] + [ds[i]];
      i := i + 1;
    }
    assert ds[..|ds|] == ds;
  }

  /** `parseNumericValue` (src/parse/arguments.ts:173-190): a number, or a
    * placeholder. A shorthand identifier is let through to the placeholder
    * reader, which only accepts string and placeholder tokens and so
    * rejects it. */
  method ParseNumericValue(p: Parser, shorthands: seq<string>) returns (r: Outcome<Value>)
    requires p.Valid()
    modifies p, p.ctx
    ensures p.Valid()
    ensures p.index >= old(p.index)
    ensures r.Ok? && r.value.NumberValue? ==> I64_MIN <= r.value.n <= I64_MAX
    ensures old(p.token).kind.I64? || old(p.token).kind == BinOpTok(Minus) ==>
      var (n, j) := ReadI64(p.tokens, old(p.index));
      p.index == j && r == (if n.Ok? then Ok(NumberValue(n.value)) else Err(n.error))
    ensures old(p.token).kind.Ident? && old(p.token).kind.value in shorthands ==>
      r == Err(ErrorAt("Expected placeholder", old(p.token).span))
    ensures old(p.token).kind.Placeholder? ==>
      r == Ok(TextValue("%" + old(p.token).kind.value + "%"))
    ensures !(old(p.token).kind.I64? || old(p.token).kind == BinOpTok(Minus) || old(p.token).kind.Placeholder?
              || old(p.token).kind.Str? || (old(p.token).kind.Ident? && old(p.token).kind.value in shorthands)) ==>
      r == Err(ErrorAt("Expected amount", old(p.token).span))
  {
    ghost var t := p.token;
    MinusPatMeaning(p.token);
    if p.Check(KindIs(TI64)) || p.Check(OpPat(TBinOp, "minus")) {
      assert t.kind.I64? || t.kind == BinOpTok(Minus);
      var n := p.ParseI64();
      return if n.Ok? then Ok(NumberValue(n.value)) else Err(n.error);
    }
    assert !t.kind.I64? && t.kind != BinOpTok(Minus);
    var isShorthand := IsShorthand(p, shorthands);
    if isShorthand || p.Check(KindIs(TPlaceholder)) || p.Check(KindIs(TStr)) {
      assert isShorthand || t.kind.Placeholder? || t.kind.Str?;
      var s := ParseNumericalPlaceholder(p);
      if isShorthand {
        assert s == Err(ErrorAt("Expected placeholder", t.span));
      } else if t.kind.Placeholder? {
        assert s == Ok("%" + t.kind.value + "%");
      }
      return if s.Ok? then Ok(TextValue(s.value)) else Err(s.error);
    }
    assert !t.kind.Placeholder? && !t.kind.Str? && !(t.kind.Ident? && t.kind.value in shorthands);
    return Err(ErrorAt("Expected amount", p.token.span));
  }

  /** Whether the current token is one of the shorthand identifiers. */
  method IsShorthand(p: Parser, shorthands: seq<string>) returns (b: bool)
    requires p.Valid()
    ensures b <==> p.token.kind.Ident? && p.token.kind.value in shorthands
  {
    b := false;
    var i := 0;
    while i < |shorthands|
      invariant 0 <= i <= |shorthands|
      invariant b <==> p.token.kind.Ident? && p.token.kind.value in shorthands[..i]
    {
      IdentPatMeaning(p.token, shorthands[i]);
      if p.Check(IdentPat(shorthands[i])) {
        b := true;
      }
      assert shorthands[..i + 1] == shorthands[..i] + [shorthands[i]];
      i := i + 1;
    }
    assert shorthands[..|shorthands|] == shorthands;
  }

  /** `parseValue` (src/parse/arguments.ts:192-200), the `parseAmount` of the
    * sub-parsers: a string literal, the raw text of a decimal, or a numeric
    * value. */
  method ParseValue(p: Parser, shorthands: seq<string>) returns (r: Outcome<Value>)
    requires p.Valid()
    modifies p, p.ctx
    ensures p.Valid()
    ensures p.index >= old(p.index)
    ensures r.Ok? && r.value.NumberValue? ==> I64_MIN <= r.value.n <= I64_MAX
    ensures old(p.token).kind.Str? ==> r == Ok(TextValue(old(p.token).kind.value)) && p.index == old(p.index) + 1
    ensures old(p.token).kind.F64? ==> r == Ok(DecimalText(old(p.token).kind.value)) && p.index == old(p.index) + 1
    ensures old(p.token).kind.I64? ==> r.Ok? ==> r.value.NumberValue?
    ensures old(p.token).kind.I64? || old(p.token).kind == BinOpTok(Minus) ==>
      var (n, j) := ReadI64(p.tokens, old(p.index));
      p.index == j && r == (if n.Ok? then Ok(NumberValue(n.value)) else Err(n.error))
    ensures old(p.token).kind.Ident? && old(p.token).kind.value in shorthands ==>
      r == Err(ErrorAt("Expected placeholder", old(p.token).span))
    ensures old(p.token).kind.Placeholder? ==>
      r == Ok(TextValue("%" + old(p.token).kind.value + "%"))
    ensures !(old(p.token).kind.I64? || old(p.token).kind == BinOpTok(Minus) || old(p.token).kind.Placeholder?
              || old(p.token).kind.Str? || old(p.token).kind.F64?
              || (old(p.token).kind.Ident? && old(p.token).kind.value in shorthands)) ==>
      r == Err(ErrorAt("Expected amount", old(p.token).span))
  {
    if p.Check(KindIs(TStr)) {
      var s := p.ParseStr();
      match s {
        case Ok(text) => return Ok(TextValue(text));
        case Err(e) => return Err(e);
      }
    } else if p.Check(KindIs(TF64)) {
      var f := p.ParseFloat();
      match f {
        case Ok(raw) => return Ok(DecimalText(raw));
        case Err(e) => return Err(e);
      }
    }
    r := ParseNumericValue(p, shorthands);
  }
}
