/** The `Parser` class of src/parse/parser.ts: a one-token lookahead over the
  * lexer's output, with `check`/`eat`/`expect`, error recovery, and the
  * argument readers of that file. The lexer is represented by the sequence
  * of tokens it yields; `index` counts how many of them have been read, so
  * `token` is `tokens[index - 1]`. A thrown `Diagnostic` is an `Err`
  * outcome. The members that src/parse/actions.ts and its siblings call on
  * the parser but that src/parse/parser.ts does not define (`parseName`,
  * `parseBoolean`, `parseBoundedNumber`, `parseFloat`, `addDiagnostic`,
  * recovery to a synchronisation set, pushing a token back) are given at the
  * end of the class, each with the behaviour its call sites rely on. */
module ParserCore {
  import opened Wrappers
  import opened Spans
  import opened Helpers
  import opened Tokens
  import opened Strings
  import opened Context

  type Outcome<T> = Result<T, Diagnostic>

  /** The tokens the lexer yields for a text it reads without error, up to the
    * first `eof`: the stream ends with `eof`, has no earlier `eof`, and every
    * `i64` token holds a run of digits. */
  predicate WellFormedStream(ts: seq<Token>)
  {
    |ts| > 0 && ts[|ts| - 1].kind == Eof
    && (forall i :: 0 <= i < |ts| - 1 ==> ts[i].kind != Eof)
    && (forall i :: 0 <= i < |ts| ==> ts[i].kind.I64? ==> DigitString(ts[i].kind.value))
  }

  /** A token other than `eof` is followed by another one. */
  lemma NotEofIsFollowed(ts: seq<Token>, i: nat)
    requires WellFormedStream(ts) && 1 <= i <= |ts| && ts[i - 1].kind != Eof
    ensures i < |ts|
  {
  }

  // ---------------------------------------------------------------------
  // Patterns used by the parsers

  function IdentPat(v: string): Pattern { Partial(Some(TIdent), None, None, Some(v)) }
  function StrPat(v: string): Pattern { Partial(Some(TStr), None, None, Some(v)) }
  function OpPat(tag: KindTag, op: string): Pattern { Partial(Some(tag), Some(op), None, None) }
  function DelimPat(tag: KindTag, d: Delimiter): Pattern { Partial(Some(tag), None, Some(d), None) }

  /** `{kind: "ident", value: v}` matches exactly the identifier `v`. */
  lemma IdentPatMeaning(t: Token, v: string)
    ensures Matches(t, IdentPat(v)) <==> t.kind == Ident(v)
  {
    PartialMatchMeaning(t, IdentPat(v));
  }

  /** `{kind: "str", value: v}` matches exactly the string literal `v`. */
  lemma StrPatMeaning(t: Token, v: string)
    ensures Matches(t, StrPat(v)) <==> t.kind == Str(v)
  {
    PartialMatchMeaning(t, StrPat(v));
  }

  /** An operator pattern matches the tokens of its kind whose operator has
    * that name. */
  lemma OpPatMeaning(t: Token, tag: KindTag, op: string)
    ensures Matches(t, OpPat(tag, op)) <==> Tag(t.kind) == tag && OpOf(t.kind) == Some(op)
  {
    PartialMatchMeaning(t, OpPat(tag, op));
  }

  /** A delimiter pattern matches the tokens of its kind with that delimiter. */
  lemma DelimPatMeaning(t: Token, tag: KindTag, d: Delimiter)
    ensures Matches(t, DelimPat(tag, d)) <==> Tag(t.kind) == tag && DelimOf(t.kind) == Some(d)
  {
    PartialMatchMeaning(t, DelimPat(tag, d));
  }

  /** `{kind: "bin_op", op: "minus"}` matches exactly the `-` token. */
  lemma MinusPatMeaning(t: Token)
    ensures Matches(t, OpPat(TBinOp, "minus")) <==> t.kind == BinOpTok(Minus)
  {
    OpPatMeaning(t, TBinOp, "minus");
    if t.kind.BinOpTok? {
      assert BinOpOfString(BinOpString(t.kind.bop)) == Some(t.kind.bop);
    }
  }

  /** The message `expect` throws for a pattern with a kind. */
  function ExpectMessage(p: Pattern): string
    requires p.KindIs? || p.kind.Some?
  {
    "Expected " + Render(TokenToString(p).value)
  }

  // ---------------------------------------------------------------------
  // Ordered alternatives: `eatOption(a) || eatOption(b) || eat(pattern)`

  /** One alternative of a keyword matcher: a name accepted as identifier or
    * as string literal (`eatOption`), or a token pattern (`eat`). */
  datatype Alt = Named(name: string) | Pat(pattern: Pattern)

  predicate AltMatches(t: Token, a: Alt)
  {
    match a
    case Named(n) => t.kind == Ident(n) || t.kind == Str(n)
    case Pat(p) => Matches(t, p)
  }

  /** Some alternative matches. */
  predicate AnyAlt(t: Token, alts: seq<Alt>)
  {
    |alts| > 0 && (AltMatches(t, alts[0]) || AnyAlt(t, alts[1..]))
  }

  /** The value of the first row of `table` that has an alternative matching
    * `t`: what a chain of `if (eat… || eat…) return v` statements returns. */
  function FirstMatch<T>(t: Token, table: seq<(T, seq<Alt>)>): Option<T>
  {
    if |table| == 0 then None
    else if AnyAlt(t, table[0].1) then Some(table[0].0)
    else FirstMatch(t, table[1..])
  }

  /** The alternatives of a table of names, each tried with `eatOption`: the
    * `for (const x of TABLE) if (p.eatOption(x)) return x` loops. */
  function NameTable(names: seq<string>): (table: seq<(string, seq<Alt>)>)
    ensures |table| == |names|
    ensures forall i :: 0 <= i < |names| ==> table[i] == (names[i], [Named(names[i])])
  {
    if |names| == 0 then [] else [(names[0], [Named(names[0])])] + NameTable(names[1..])
  }

  /** A name table selects the name the token spells, if it is in the table. */
  lemma {:induction false} NameTableSelects(t: Token, names: seq<string>)
    ensures FirstMatch(t, NameTable(names)) ==
      (if NameToken(t) && t.kind.value in names then Some(t.kind.value) else None)
    decreases |names|
  {
    if |names| > 0 {
      var table := NameTable(names);
      assert table[1..] == NameTable(names[1..]);
      NameTableSelects(t, names[1..]);
      NameRowMatches(t, names[0]);
      InHeadOrTail(names, if NameToken(t) then t.kind.value else "");
    }
  }

  /** The row of one name matches the word tokens that spell it. */
  lemma NameRowMatches(t: Token, n: string)
    ensures AnyAlt(t, [Named(n)]) <==> NameToken(t) && t.kind.value == n
  {
    assert [Named(n)][1..] == [];
  }

  lemma InHeadOrTail<T>(s: seq<T>, x: T)
    requires |s| > 0
    ensures x in s <==> x == s[0] || x in s[1..]
  {
    assert s == [s[0]] + s[1..];
  }

  // ---------------------------------------------------------------------
  // Recovery

  /** Where recovery stops: before an action keyword (`recover`), or before a
    * token of a synchronisation set (`parseRecovering(sync, …)`); always at
    * `eof`. */
  datatype Sync = ActionKeywords | SyncSet(patterns: seq<Pattern>)

  predicate AnyMatches(t: Token, ps: seq<Pattern>)
  {
    exists i :: 0 <= i < |ps| && Matches(t, ps[i])
  }

  predicate StopsAt(t: Token, s: Sync)
  {
    t.kind == Eof
    || (if s.ActionKeywords? then t.kind.Ident? && IsAction(t.kind.value) else AnyMatches(t, s.patterns))
  }

  /** The index recovery reaches from index `i`: the first token at or after
    * the current one where recovery stops. It never moves past `eof`. */
  function RecoverFrom(ts: seq<Token>, i: nat, s: Sync): (j: nat)
    requires WellFormedStream(ts) && 1 <= i <= |ts|
    ensures i <= j <= |ts|
    decreases |ts| - i
  {
    if StopsAt(ts[i - 1], s) then i else RecoverFrom(ts, i + 1, s)
  }

  /** Recovery stops where `StopsAt` holds. */
  lemma {:induction false} RecoverReachesStop(ts: seq<Token>, i: nat, s: Sync)
    requires WellFormedStream(ts) && 1 <= i <= |ts|
    ensures StopsAt(ts[RecoverFrom(ts, i, s) - 1], s)
    decreases |ts| - i
  {
    if !StopsAt(ts[i - 1], s) {
      RecoverReachesStop(ts, i + 1, s);
    }
  }

  /** Recovery passes over a token where it does not stop. */
  lemma RecoverSkips(ts: seq<Token>, i: nat, s: Sync)
    requires WellFormedStream(ts) && 1 <= i <= |ts| && !StopsAt(ts[i - 1], s)
    ensures i < |ts| && RecoverFrom(ts, i, s) == RecoverFrom(ts, i + 1, s)
  {
  }

  lemma RecoverStops(ts: seq<Token>, i: nat, s: Sync)
    requires WellFormedStream(ts) && 1 <= i <= |ts| && StopsAt(ts[i - 1], s)
    ensures RecoverFrom(ts, i, s) == i
  {
  }

  /** Recovery from a stopping token stays there; recovering twice is
    * recovering once. */
  lemma RecoverIdempotent(ts: seq<Token>, i: nat, s: Sync)
    requires WellFormedStream(ts) && 1 <= i <= |ts|
    ensures RecoverFrom(ts, RecoverFrom(ts, i, s), s) == RecoverFrom(ts, i, s)
  {
    RecoverReachesStop(ts, i, s);
    RecoverStops(ts, RecoverFrom(ts, i, s), s);
  }

  // ---------------------------------------------------------------------
  // Argument readers of src/parse/parser.ts as decisions on tokens

  const I64_MIN: int := -0x8000_0000_0000_0000
  const I64_MAX: int := 0x7FFF_FFFF_FFFF_FFFF
  const I64_LIMIT_MESSAGE: string := "Number exceeds 64-bit integer limit"

  /** `parseI64` started at index `i`: the number read or the diagnostic
    * thrown, and the index the parser is left at. An optional `-` token
    * comes first; the range check happens after the digits are consumed, so
    * its diagnostic is at the digits' span. */
  function ReadI64(ts: seq<Token>, i: nat): (r: (Outcome<int>, nat))
    requires WellFormedStream(ts) && 1 <= i <= |ts|
    ensures i <= r.1 <= |ts|
    ensures r.0.Ok? ==> I64_MIN <= r.0.value <= I64_MAX
  {
    var neg := ts[i - 1].kind == BinOpTok(Minus);
    var j := if neg then i + 1 else i;
    var t := ts[j - 1];
    if !t.kind.I64? then (Err(ErrorAt(ExpectMessage(KindIs(TI64)), t.span)), j)
    else
      var n: int := DecimalValue(t.kind.value);
      var v := if neg then -n else n;
      if v < I64_MIN || v > I64_MAX then (Err(ErrorAt(I64_LIMIT_MESSAGE, t.span)), j + 1)
      else (Ok(v), j + 1)
  }

  /** After the optional `-`, an `i64` token at `j` reads as its value with
    * the sign applied, or is reported when that is out of range. */
  lemma ReadI64Digits(ts: seq<Token>, i: nat, j: nat, v: int)
    requires WellFormedStream(ts) && 1 <= i <= |ts|
    requires j == if ts[i - 1].kind == BinOpTok(Minus) then i + 1 else i
    requires j <= |ts| && ts[j - 1].kind.I64?
    requires v == if j == i + 1 then -(DecimalValue(ts[j - 1].kind.value) as int) else DecimalValue(ts[j - 1].kind.value)
    ensures ReadI64(ts, i) == (if v < I64_MIN || v > I64_MAX then Err(ErrorAt(I64_LIMIT_MESSAGE, ts[j - 1].span)) else Ok(v), j + 1)
  {
  }

  /** An `i64` token holding the decimal text of a number up to 2^63 - 1 reads
    * as that number; after a `-`, every number up to 2^63 reads as its
    * negation. Larger numbers are reported. */
  lemma ReadI64Decimal(ts: seq<Token>, i: nat, n: nat)
    requires WellFormedStream(ts) && 1 <= i < |ts|
    ensures ts[i - 1].kind == I64(NatText(n)) ==>
      ReadI64(ts, i).0 == (if n <= I64_MAX then Ok(n) else Err(ErrorAt(I64_LIMIT_MESSAGE, ts[i - 1].span)))
    ensures ts[i - 1].kind == BinOpTok(Minus) && ts[i].kind == I64(NatText(n)) ==>
      ReadI64(ts, i).0 == (if n <= -I64_MIN then Ok(-(n as int)) else Err(ErrorAt(I64_LIMIT_MESSAGE, ts[i].span)))
  {
    DecimalValueOfNatText(n);
  }

  /** The messages `expect` throws for the kinds the readers need. */
  lemma ExpectMessages()
    ensures ExpectMessage(KindIs(TI64)) == "Expected number"
    ensures ExpectMessage(KindIs(TStr)) == "Expected string"
  {
    assert TokenToString(KindIs(TI64)) == Ok(Some("number"));
    assert TokenToString(KindIs(TStr)) == Ok(Some("string"));
  }

  /** A token that is neither a number nor `-` is reported as "Expected number"
    * at its own span, and nothing is consumed. */
  lemma ReadI64NeedsNumber(ts: seq<Token>, i: nat)
    requires WellFormedStream(ts) && 1 <= i <= |ts|
    requires !ts[i - 1].kind.I64? && ts[i - 1].kind != BinOpTok(Minus)
    ensures ReadI64(ts, i) == (Err(Diagnostic("Expected number", Error, Some(ts[i - 1].span))), i)
  {
    ExpectMessages();
  }

  /** Identifier and string tokens carry a name. */
  predicate NameToken(t: Token)
  {
    t.kind.Ident? || t.kind.Str?
  }

  /** The rule on stat (variable) names: 1 to 16 characters, no space. */
  predicate ValidStatName(v: string)
  {
    1 <= |v| <= 16 && ' ' !in v
  }

  /** The check `parseStatName` and `parseVarName` make on the current token,
    * with the messages in the order the checks are made. */
  function StatNameCheck(t: Token): (r: Outcome<string>)
    ensures r.Ok? <==> NameToken(t) && ValidStatName(t.kind.value)
    ensures r.Ok? ==> r.value == t.kind.value
    ensures r.Err? ==> r.error.span == Some(t.span) && r.error.level == Error
    ensures !NameToken(t) ==> r.Err? && r.error.message == "Expected stat name"
    ensures NameToken(t) && |t.kind.value| == 0 ==> r.Err? && r.error.message == "Stat name cannot be empty"
  {
    if !NameToken(t) then Err(ErrorAt("Expected stat name", t.span))
    else
      var v := t.kind.value;
      if |v| > 16 then Err(ErrorAt("Stat name exceeds 16-character limit", t.span))
      else if |v| < 1 then Err(ErrorAt("Stat name cannot be empty", t.span))
      else if ' ' in v then Err(ErrorAt("Stat name cannot contain spaces", t.span))
      else Ok(v)
  }

  /** The five modes of a stat change (`Mode`, and `Operation` of
    * housing-common). */
  datatype Operation = Increment | Decrement | Multiply | Divide | Set

  function OperationName(o: Operation): string
  {
    match o
    case Increment => "increment"
    case Decrement => "decrement"
    case Multiply => "multiply"
    case Divide => "divide"
    case Set => "set"
  }

  /** The alternatives `parseStatMode` tries, in order
    * (src/parse/parser.ts:196-210). `setOp` is the operator name in the
    * comparison pattern for `set`: the code writes "equal", while the lexer
    * names the `=` token "equals". */
  function StatModeTable(setOp: string): seq<(Operation, seq<Alt>)>
  {
    [ (Increment, [Named("increment"), Named("inc"), Pat(OpPat(TBinOpEq, "plus"))]),
      (Decrement, [Named("decrement"), Named("dec"), Pat(OpPat(TBinOpEq, "minus"))]),
      (Multiply, [Named("multiply"), Named("mul"), Pat(OpPat(TBinOpEq, "star"))]),
      (Divide, [Named("divide"), Named("div"), Pat(OpPat(TBinOpEq, "slash"))]),
      (Set, [Named("set"), Pat(OpPat(TCmpOp, setOp))]) ]
  }

  /** The message of an unrecognised operation: the list of names is given
    * only when the token is a word. */
  function OperationMessage(t: Token, names: string): string
  {
    if NameToken(t) then "Expected operation (" + names + ")" else "Expected operation"
  }

  const STAT_MODE_NAMES: string := "increment, decrement, multiply, divide, set"

  /** A row `[Named(a), Named(b), Pat(p)]` matches a non-word token exactly
    when its pattern does. */
  lemma WordsThenPattern(t: Token, a: string, b: string, p: Pattern)
    requires !NameToken(t)
    ensures AnyAlt(t, [Named(a), Named(b), Pat(p)]) <==> Matches(t, p)
  {
    var alts := [Named(a), Named(b), Pat(p)];
    assert alts[1..] == [Named(b), Pat(p)];
    assert alts[1..][1..] == [Pat(p)];
    assert alts[1..][1..][1..] == [];
    assert !AnyAlt(t, []);
    assert AnyAlt(t, [Pat(p)]) == Matches(t, p);
    assert AnyAlt(t, [Named(b), Pat(p)]) == Matches(t, p);
  }

  /** The row of `set`: the word, then the comparison pattern. */
  lemma WordThenPattern(t: Token, a: string, p: Pattern)
    requires !NameToken(t)
    ensures AnyAlt(t, [Named(a), Pat(p)]) <==> Matches(t, p)
  {
    var alts := [Named(a), Pat(p)];
    assert alts[1..] == [Pat(p)];
    assert alts[1..][1..] == [];
    assert !AnyAlt(t, []);
    assert AnyAlt(t, [Pat(p)]) == Matches(t, p);
  }

  /** The mode `parseStatMode` selects for a token that is not a word: the
    * result of its five rows' patterns in order. */
  lemma StatModeOfSymbol(t: Token, setOp: string)
    requires !NameToken(t)
    ensures FirstMatch(t, StatModeTable(setOp)) ==
      if Matches(t, OpPat(TBinOpEq, "plus")) then Some(Increment)
      else if Matches(t, OpPat(TBinOpEq, "minus")) then Some(Decrement)
      else if Matches(t, OpPat(TBinOpEq, "star")) then Some(Multiply)
      else if Matches(t, OpPat(TBinOpEq, "slash")) then Some(Divide)
      else if Matches(t, OpPat(TCmpOp, setOp)) then Some(Set)
      else None
  {
    var table := StatModeTable(setOp);
    WordsThenPattern(t, "increment", "inc", OpPat(TBinOpEq, "plus"));
    WordsThenPattern(t, "decrement", "dec", OpPat(TBinOpEq, "minus"));
    WordsThenPattern(t, "multiply", "mul", OpPat(TBinOpEq, "star"));
    WordsThenPattern(t, "divide", "div", OpPat(TBinOpEq, "slash"));
    WordThenPattern(t, "set", OpPat(TCmpOp, setOp));
    assert table[1..][1..] == table[2..];
    assert table[2..][1..] == table[3..];
    assert table[3..][1..] == table[4..];
    assert table[4..][1..] == [];
    assert FirstMatch(t, table[4..]) == if Matches(t, OpPat(TCmpOp, setOp)) then Some(Set) else None;
    assert FirstMatch(t, table[3..]) == if Matches(t, OpPat(TBinOpEq, "slash")) then Some(Divide) else FirstMatch(t, table[4..]);
    assert FirstMatch(t, table[2..]) == if Matches(t, OpPat(TBinOpEq, "star")) then Some(Multiply) else FirstMatch(t, table[3..]);
    assert FirstMatch(t, table[1..]) == if Matches(t, OpPat(TBinOpEq, "minus")) then Some(Decrement) else FirstMatch(t, table[2..]);
  }

  /** The compound assignments select their modes: `+=`, `-=`, `*=`, `/=`;
    * `**=` selects none. */
  lemma StatModeCompoundAssignments(setOp: string, o: BinOp, sp: Span)
    ensures FirstMatch(Token(BinOpEqTok(o), sp), StatModeTable(setOp)) ==
      match o
      case Plus => Some(Increment)
      case Minus => Some(Decrement)
      case Star => Some(Multiply)
      case Slash => Some(Divide)
      case StarStar => None
  {
    var t := Token(BinOpEqTok(o), sp);
    StatModeOfSymbol(t, setOp);
    OpPatMeaning(t, TBinOpEq, "plus");
    OpPatMeaning(t, TBinOpEq, "minus");
    OpPatMeaning(t, TBinOpEq, "star");
    OpPatMeaning(t, TBinOpEq, "slash");
    OpPatMeaning(t, TCmpOp, setOp);
  }

  /** As written, `parseStatMode` selects `set` only for the word `set`: the
    * `=` token matches none of its alternatives, so `stat x = 5` is
    * reported as "Expected operation". */
  lemma StatModeEqualsAsWritten(sp: Span)
    ensures FirstMatch(Token(CmpOpTok(Equals), sp), StatModeTable("equal")).None?
  {
    var t := Token(CmpOpTok(Equals), sp);
    StatModeOfSymbol(t, "equal");
    OpPatMeaning(t, TBinOpEq, "plus");
    OpPatMeaning(t, TBinOpEq, "minus");
    OpPatMeaning(t, TBinOpEq, "star");
    OpPatMeaning(t, TBinOpEq, "slash");
    OpPatMeaning(t, TCmpOp, "equal");
  }

  /** With the operator name the lexer uses, `=` selects `set`. */
  lemma StatModeEqualsCorrected(sp: Span)
    ensures FirstMatch(Token(CmpOpTok(Equals), sp), StatModeTable("equals")) == Some(Set)
  {
    var t := Token(CmpOpTok(Equals), sp);
    StatModeOfSymbol(t, "equals");
    OpPatMeaning(t, TBinOpEq, "plus");
    OpPatMeaning(t, TBinOpEq, "minus");
    OpPatMeaning(t, TBinOpEq, "star");
    OpPatMeaning(t, TBinOpEq, "slash");
    OpPatMeaning(t, TCmpOp, "equals");
  }

  /** What `parseStatAmount` returns: a number, or the text of a placeholder. */
  datatype Amount = AmountNum(n: int) | AmountText(s: string)

  // ---------------------------------------------------------------------

  class Parser {
    const ctx: CompileCtx
    const tokens: seq<Token>
    var index: nat
    var token: Token
    var prev: Token

    predicate Valid()
      reads this
    {
      WellFormedStream(tokens) && 1 <= index <= |tokens| && token == tokens[index - 1]
    }

    /** The index after one more `advanceToken`: at the end the lexer keeps
      * returning the same `eof`. */
    function After(i: nat): nat
    {
      if i < |tokens| then i + 1 else i
    }

    /** The constructor reads the first token; `prev` starts as the empty
      * `eof` at 0 (src/parse/parser.ts:31-37). */
    constructor(ctx: CompileCtx, tokens: seq<Token>)
      requires WellFormedStream(tokens)
      ensures Valid()
      ensures this.ctx == ctx && this.tokens == tokens
      ensures index == 1 && prev == Token(Eof, Span(0, 0))
    {
      this.ctx := ctx;
      this.tokens := tokens;
      index := 1;
      token := tokens[0];
      prev := Token(Eof, Span(0, 0));
    }

    /** `next()`: the current token becomes `prev` (src/parse/parser.ts:378-381). */
    method Next()
      requires Valid()
      modifies this
      ensures Valid()
      ensures prev == old(token) && index == After(old(index))
      ensures old(token).kind != Eof ==> index == old(index) + 1
    {
      prev := token;
      if index < |tokens| {
        token := tokens[index];
        index := index + 1;
      }
    }

    /** `check(tok)` (src/parse/parser.ts:372-376). */
    predicate Check(p: Pattern)
      reads this
    {
      Matches(token, p)
    }

    /** `eat(tok)`: advances exactly when `check` matches
      * (src/parse/parser.ts:366-370). */
    method Eat(p: Pattern) returns (b: bool)
      requires Valid()
      modifies this
      ensures Valid()
      ensures b == Matches(old(token), p)
      ensures b ==> prev == old(token) && index == After(old(index))
      ensures !b ==> unchanged(this)
    {
      b := Check(p);
      if b {
        Next();
      }
    }

    /** `eatIdent(value)` (src/parse/parser.ts:346-348). */
    method EatIdent(v: string) returns (b: bool)
      requires Valid()
      modifies this
      ensures Valid()
      ensures b == (old(token).kind == Ident(v))
      ensures b ==> prev == old(token) && index == After(old(index))
      ensures !b ==> unchanged(this)
    {
      IdentPatMeaning(token, v);
      b := Eat(IdentPat(v));
    }

    /** `eatOption(value)`: the identifier, or else the string literal, with
      * that text (src/parse/parser.ts:341-344). */
    method EatOption(v: string) returns (b: bool)
      requires Valid()
      modifies this
      ensures Valid()
      ensures b == (old(token).kind == Ident(v) || old(token).kind == Str(v))
      ensures b ==> prev == old(token) && index == After(old(index))
      ensures !b ==> unchanged(this)
    {
      b := EatIdent(v);
      if !b {
        StrPatMeaning(token, v);
        b := Eat(StrPat(v));
      }
    }

    /** `expect(tok)`: eats a matching token, otherwise throws
      * "Expected <tokenToString(tok)>" at the current token without
      * advancing (src/parse/parser.ts:360-364). */
    method Expect(p: Pattern) returns (r: Outcome<()>)
      requires Valid()
      requires p.KindIs? || p.kind.Some?
      modifies this
      ensures Valid()
      ensures r.Ok? <==> Matches(old(token), p)
      ensures r.Ok? ==> prev == old(token) && index == After(old(index))
      ensures r.Err? ==> unchanged(this) && r.error == ErrorAt(ExpectMessage(p), old(token).span)
    {
      var b := Eat(p);
      if !b {
        return Err(ErrorAt(ExpectMessage(p), token.span));
      }
      return Ok(());
    }

    /** Tries the alternatives in order and eats the first that matches. */
    method EatAny(alts: seq<Alt>) returns (b: bool)
      requires Valid()
      modifies this
      ensures Valid()
      ensures b == AnyAlt(old(token), alts)
      ensures b ==> prev == old(token) && index == After(old(index))
      ensures !b ==> unchanged(this)
    {
      var j := 0;
      while j < |alts|
        invariant 0 <= j <= |alts|
        invariant unchanged(this)
        invariant AnyAlt(token, alts) == AnyAlt(token, alts[j..])
      {
        assert alts[j..][1..] == alts[j + 1..];
        match alts[j] {
          case Named(n) => b := EatOption(n);
          case Pat(p) => b := Eat(p);
        }
        if b {
          return;
        }
        j := j + 1;
      }
      b := false;
    }

    /** A chain of `if (eat… || eat…) return v` statements: the value of the
      * first row with a matching alternative, whose token is eaten. */
    method EatFirst<T>(table: seq<(T, seq<Alt>)>) returns (r: Option<T>)
      requires Valid()
      modifies this
      ensures Valid()
      ensures r == FirstMatch(old(token), table)
      ensures r.Some? ==> prev == old(token) && index == After(old(index))
      ensures r.None? ==> unchanged(this)
    {
      var i := 0;
      while i < |table|
        invariant 0 <= i <= |table|
        invariant unchanged(this)
        invariant FirstMatch(token, table) == FirstMatch(token, table[i..])
      {
        assert table[i..][1..] == table[i + 1..];
        var b := EatAny(table[i].1);
        if b {
          return Some(table[i].0);
        }
        i := i + 1;
      }
      return None;
    }

    /** `recover()` and recovery to a synchronisation set: skips tokens up to
      * the first one where recovery stops (src/parse/parser.ts:350-358). */
    method Recover(s: Sync)
      requires Valid()
      modifies this
      ensures Valid()
      ensures index == RecoverFrom(tokens, old(index), s)
      ensures StopsAt(token, s)
      ensures index == old(index) ==> token == old(token) && prev == old(prev)
      ensures index > old(index) ==> prev == tokens[index - 2]
    {
      if StopsAt(token, s) {
        RecoverStops(tokens, index, s);
        return;
      }
      Skip(s);
      SkipRest(s);
    }

    /** The rest of a recovery that has passed over at least one token. */
    method SkipRest(s: Sync)
      requires Valid() && index >= 2 && prev == tokens[index - 2]
      modifies this
      ensures Valid() && index >= old(index) && prev == tokens[index - 2]
      ensures index == RecoverFrom(tokens, old(index), s)
      ensures StopsAt(token, s)
    {
      while !StopsAt(token, s)
        invariant Valid() && index >= old(index) && index >= 2 && prev == tokens[index - 2]
        invariant RecoverFrom(tokens, index, s) == RecoverFrom(tokens, old(index), s)
        decreases |tokens| - index
      {
        Skip(s);
      }
      RecoverStops(tokens, index, s);
    }

    /** One token recovery passes over. */
    method Skip(s: Sync)
      requires Valid() && !StopsAt(token, s)
      modifies this
      ensures Valid() && index == old(index) + 1 && prev == old(token) && prev == tokens[index - 2]
      ensures RecoverFrom(tokens, index, s) == RecoverFrom(tokens, old(index), s)
    {
      RecoverSkips(tokens, index, s);
      Next();
    }

    /** The `catch` of `parseRecovering`: a thrown diagnostic is emitted to the
      * context and the parser recovers; a value is passed on
      * (src/parse/parser.ts:279-297). */
    method Catch<T>(r: Outcome<T>, s: Sync) returns (o: Option<T>)
      requires Valid()
      modifies this, ctx
      ensures Valid()
      ensures r.Ok? ==> o == Some(r.value) && unchanged(this) && unchanged(ctx)
      ensures r.Err? ==> o.None? && ctx.diagnostics == old(ctx.diagnostics) + [r.error]
      ensures r.Err? ==> index == RecoverFrom(tokens, old(index), s) && StopsAt(token, s)
      ensures index >= old(index)
    {
      if r.Err? {
        ctx.Emit(r.error);
        Recover(s);
        return None;
      }
      return Some(r.value);
    }

    /** `parseI64()` (src/parse/parser.ts:254-268). */
    method ParseI64() returns (r: Outcome<int>)
      requires Valid()
      modifies this
      ensures Valid()
      ensures (r, index) == ReadI64(tokens, old(index))
      ensures index > old(index) ==> prev == tokens[index - 2]
    {
      ghost var i0 := index;
      MinusPatMeaning(token);
      var negative := Eat(OpPat(TBinOp, "minus"));
      ghost var j := index;
      assert j == if negative then i0 + 1 else i0;
      assert negative == (tokens[i0 - 1].kind == BinOpTok(Minus));
      var e := Expect(KindIs(TI64));
      if e.Err? {
        assert !tokens[j - 1].kind.I64?;
        assert ReadI64(tokens, i0) == (Err(e.error), index);
        return Err(e.error);
      }
      NotEofIsFollowed(tokens, j);
      assert prev == tokens[j - 1] && index == j + 1;
      var n: int := DecimalValue(prev.kind.value);
      var value := if negative then -n else n;
      ReadI64Digits(tokens, i0, j, value);
      if value < I64_MIN || value > I64_MAX {
        return Err(ErrorAt(I64_LIMIT_MESSAGE, prev.span));
      }
      return Ok(value);
    }

    /** `parseStatName()`: checks the current token's name and eats it when
      * it is valid (src/parse/parser.ts:175-193). */
    method ParseStatName() returns (r: Outcome<string>)
      requires Valid()
      modifies this
      ensures Valid()
      ensures r == StatNameCheck(old(token))
      ensures r.Ok? ==> prev == old(token) && index == old(index) + 1
      ensures r.Err? ==> unchanged(this)
    {
      r := StatNameCheck(token);
      if r.Ok? {
        Next();
      }
    }

    /** `parseStatMode()` with the operator name of its `set` pattern as a
      * parameter. */
    method ParseStatModeWith(setOp: string) returns (r: Outcome<Operation>)
      requires Valid()
      modifies this
      ensures Valid()
      ensures var m := FirstMatch(old(token), StatModeTable(setOp));
        r == (if m.Some? then Ok(m.value) else Err(ErrorAt(OperationMessage(old(token), STAT_MODE_NAMES), old(token).span)))
      ensures r.Ok? ==> prev == old(token) && index == After(old(index))
      ensures r.Err? ==> unchanged(this)
    {
      var m := EatFirst(StatModeTable(setOp));
      if m.Some? {
        return Ok(m.value);
      }
      return Err(ErrorAt(OperationMessage(token, STAT_MODE_NAMES), token.span));
    }

    /** `parseStatMode()` as written (src/parse/parser.ts:195-215). */
    method ParseStatMode() returns (r: Outcome<Operation>)
      requires Valid()
      modifies this
      ensures Valid()
      ensures var m := FirstMatch(old(token), StatModeTable("equal"));
        r == (if m.Some? then Ok(m.value) else Err(ErrorAt(OperationMessage(old(token), STAT_MODE_NAMES), old(token).span)))
      ensures r.Ok? ==> prev == old(token) && index == After(old(index))
      ensures r.Err? ==> unchanged(this)
    {
      r := ParseStatModeWith("equal");
    }

    /** `parseStatMode()` with the `=` pattern naming the operator the lexer
      * produces, so `=` selects `set`. */
    method ParseStatModeCorrected() returns (r: Outcome<Operation>)
      requires Valid()
      modifies this
      ensures Valid()
      ensures var m := FirstMatch(old(token), StatModeTable("equals"));
        r == (if m.Some? then Ok(m.value) else Err(ErrorAt(OperationMessage(old(token), STAT_MODE_NAMES), old(token).span)))
      ensures r.Ok? ==> prev == old(token) && index == After(old(index))
      ensures r.Err? ==> unchanged(this)
    {
      r := ParseStatModeWith("equals");
    }

    /** `parseStr()`: the value of a string literal (src/parse/parser.ts:249-252).
      * The newer `parseString` of the sub-parsers is the same reader. */
    method ParseStr() returns (r: Outcome<string>)
      requires Valid()
      modifies this
      ensures Valid()
      ensures old(token).kind.Str? ==> r == Ok(old(token).kind.value) && prev == old(token) && index == old(index) + 1
      ensures !old(token).kind.Str? ==> r == Err(ErrorAt("Expected string", old(token).span)) && unchanged(this)
    {
      ExpectMessages();
      var e := Expect(KindIs(TStr));
      if e.Err? {
        return Err(e.error);
      }
      return Ok(prev.kind.value);
    }

    /** `parseStatAmount()` (src/parse/parser.ts:217-247): a number, a
      * placeholder or string taken as is, or a stat shorthand turned into its
      * placeholder text. */
    method ParseStatAmount() returns (r: Outcome<Amount>)
      requires Valid()
      modifies this
      ensures Valid()
      ensures index >= old(index)
      ensures old(token).kind.I64? || old(token).kind == BinOpTok(Minus) ==>
        var (n, j) := ReadI64(tokens, old(index));
        index == j && r == (if n.Ok? then Ok(AmountNum(n.value)) else Err(n.error))
      ensures old(token).kind.Placeholder? || old(token).kind.Str? ==>
        r == Ok(AmountText(old(token).kind.value)) && index == old(index) + 1
      ensures old(token).kind == Ident("stat") ==>
        var c := StatNameCheck(tokens[old(index)]);
        r == (if c.Ok? then Ok(AmountText("%stat.player/" + c.value + "%")) else Err(c.error))
      ensures old(token).kind == Ident("globalstat") ==>
        var c := StatNameCheck(tokens[old(index)]);
        r == (if c.Ok? then Ok(AmountText("%stat.global/" + c.value + "%")) else Err(c.error))
      ensures !(old(token).kind.I64? || old(token).kind == BinOpTok(Minus) || old(token).kind.Placeholder?
                || old(token).kind.Str? || old(token).kind in {Ident("stat"), Ident("globalstat"), Ident("teamstat")}) ==>
        r == Err(ErrorAt("expected amount", old(token).span)) && unchanged(this)
    {
      MinusPatMeaning(token);
      if Check(KindIs(TI64)) || Check(OpPat(TBinOp, "minus")) {
        var n := ParseI64();
        return if n.Ok? then Ok(AmountNum(n.value)) else Err(n.error);
      }
      if Check(KindIs(TPlaceholder)) || Check(KindIs(TStr)) {
        Next();
        return Ok(AmountText(prev.kind.value));
      }
      r := ParseStatShorthand();
    }

    /** The stat shorthands of `parseStatAmount`, and its final error
      * (src/parse/parser.ts:229-246). */
    method ParseStatShorthand() returns (r: Outcome<Amount>)
      requires Valid()
      modifies this
      ensures Valid()
      ensures index >= old(index)
      ensures old(token).kind == Ident("stat") ==>
        var c := StatNameCheck(tokens[old(index)]);
        r == (if c.Ok? then Ok(AmountText("%stat.player/" + c.value + "%")) else Err(c.error))
      ensures old(token).kind == Ident("globalstat") ==>
        var c := StatNameCheck(tokens[old(index)]);
        r == (if c.Ok? then Ok(AmountText("%stat.global/" + c.value + "%")) else Err(c.error))
      ensures old(token).kind == Ident("teamstat") && old(index) + 1 < |tokens| ==>
        var c := StatNameCheck(tokens[old(index)]);
        var t := tokens[old(index) + 1];
        var d := StatNameCheck(t);
        r == (if c.Err? then Err(c.error)
              else if !NameToken(t) then Err(ErrorAt("Expected team name", t.span))
              else if d.Err? then Err(d.error)
              else Ok(AmountText("%stat.team/" + c.value + " " + d.value + "%")))
      ensures old(token).kind !in {Ident("stat"), Ident("globalstat"), Ident("teamstat")} ==>
        r == Err(ErrorAt("expected amount", old(token).span)) && unchanged(this)
    {
      var b := EatIdent("stat");
      if b {
        var name := ParseStatName();
        return if name.Ok? then Ok(AmountText("%stat.player/" + name.value + "%")) else Err(name.error);
      }
      b := EatIdent("globalstat");
      if b {
        var name := ParseStatName();
        return if name.Ok? then Ok(AmountText("%stat.global/" + name.value + "%")) else Err(name.error);
      }
      b := EatIdent("teamstat");
      if b {
        r := ParseTeamStatAmount();
        return;
      }
      return Err(ErrorAt("expected amount", token.span));
    }

    /** The `teamstat N T` shorthand after its keyword (src/parse/parser.ts:237-245). */
    method ParseTeamStatAmount() returns (r: Outcome<Amount>)
      requires Valid()
      modifies this
      ensures Valid()
      ensures index >= old(index)
      ensures old(index) < |tokens| ==>
        var c := StatNameCheck(old(token));
        var t := tokens[old(index)];
        var d := StatNameCheck(t);
        r == (if c.Err? then Err(c.error)
              else if !NameToken(t) then Err(ErrorAt("Expected team name", t.span))
              else if d.Err? then Err(d.error)
              else Ok(AmountText("%stat.team/" + c.value + " " + d.value + "%")))
    {
      var name := ParseStatName();
      if name.Err? {
        return Err(name.error);
      }
      if !(Check(KindIs(TIdent)) || Check(KindIs(TStr))) {
        return Err(ErrorAt("Expected team name", token.span));
      }
      var team := ParseStatName();
      return if team.Ok? then Ok(AmountText("%stat.team/" + name.value + " " + team.value + "%")) else Err(team.error);
    }

    // -------------------------------------------------------------------
    // The parser members the sub-parsers call that src/parse/parser.ts
    // does not define.

    /** `addDiagnostic(d)`: reports without throwing. */
    method AddDiagnostic(d: Diagnostic)
      modifies ctx
      ensures ctx.diagnostics == old(ctx.diagnostics) + [d]
    {
      ctx.Emit(d);
    }

    /** `parseName()`: the text of a string literal or identifier, otherwise
      * "Expected name". */
    method ParseName() returns (r: Outcome<string>)
      requires Valid()
      modifies this
      ensures Valid()
      ensures NameToken(old(token)) ==> r == Ok(old(token).kind.value) && prev == old(token) && index == old(index) + 1
      ensures !NameToken(old(token)) ==> r == Err(ErrorAt("Expected name", old(token).span)) && unchanged(this)
    {
      if token.kind.Ident? || token.kind.Str? {
        Next();
        return Ok(prev.kind.value);
      }
      return Err(ErrorAt("Expected name", token.span));
    }

    /** `parseBoolean()`: the identifier `true` or `false`, otherwise
      * "Expected boolean". */
    method ParseBoolean() returns (r: Outcome<bool>)
      requires Valid()
      modifies this
      ensures Valid()
      ensures old(token).kind == Ident("true") ==> r == Ok(true) && index == old(index) + 1
      ensures old(token).kind == Ident("false") ==> r == Ok(false) && index == old(index) + 1
      ensures old(token).kind !in {Ident("true"), Ident("false")} ==>
        r == Err(ErrorAt("Expected boolean", old(token).span)) && unchanged(this)
      ensures r.Ok? ==> prev == old(token)
    {
      var b := EatIdent("true");
      if b {
        return Ok(true);
      }
      b := EatIdent("false");
      if b {
        return Ok(false);
      }
      return Err(ErrorAt("Expected boolean", token.span));
    }

    /** `parseBoundedNumber(lo, hi)`: `parseI64`, then a thrown range error at
      * the number when it lies outside `[lo, hi]`. */
    method ParseBoundedNumber(lo: int, hi: int) returns (r: Outcome<int>)
      requires Valid()
      modifies this
      ensures Valid()
      ensures var (n, j) := ReadI64(tokens, old(index));
        index == j
        && r == (if n.Err? then Err(n.error)
                 else if n.value < lo || n.value > hi then Err(ErrorAt(BoundMessage(lo, hi), prev.span))
                 else n)
      ensures r.Ok? ==> lo <= r.value <= hi
      ensures index > old(index) ==> prev == tokens[index - 2]
    {
      r := ParseI64();
      if r.Ok? && (r.value < lo || r.value > hi) {
        r := Err(ErrorAt(BoundMessage(lo, hi), prev.span));
      }
    }

    /** `parseFloat()`: the raw text of a number token, otherwise
      * "Expected number". The text is not converted. */
    method ParseFloat() returns (r: Outcome<string>)
      requires Valid()
      modifies this
      ensures Valid()
      ensures old(token).kind.I64? || old(token).kind.F64? ==>
        r == Ok(old(token).kind.value) && prev == old(token) && index == old(index) + 1
      ensures !(old(token).kind.I64? || old(token).kind.F64?) ==>
        r == Err(ErrorAt("Expected number", old(token).span)) && unchanged(this)
    {
      if token.kind.I64? || token.kind.F64? {
        Next();
        return Ok(prev.kind.value);
      }
      return Err(ErrorAt("Expected number", token.span));
    }

    /** Puts the token before the current one back in front: `token` becomes
      * that token again and the current one will be read next; `prev` is
      * left as it is (src/parse/actions.ts:151-159). */
    method PushBack()
      requires Valid() && index >= 2
      modifies this
      ensures Valid()
      ensures index == old(index) - 1 && token == tokens[index - 1] && prev == old(prev)
    {
      index := index - 1;
      token := tokens[index - 1];
    }
  }

  /** The range error of `parseBoundedNumber`. */
  function BoundMessage(lo: int, hi: int): string
  {
    "Number must be between " + IntText(lo) + " and " + IntText(hi)
  }
}
