/** src/parse/token.ts: the token variants, the `token` constructor, the
  * key/value view that `Parser.check` compares, and `tokenToString` with its
  * symbol tables. */
module Tokens {
  import opened Wrappers
  import opened Spans
  import opened Helpers

  datatype BinOp = Plus | Minus | Star | Slash | StarStar
  datatype CmpOp = GreaterThan | LessThan | Equals
  datatype Delimiter = Parenthesis | Brace | Bracket

  /** `TokenType`: a kind together with the properties that kind carries. */
  datatype Kind =
    | Comma
    | Exclamation
    | BinOpTok(bop: BinOp)
    | BinOpEqTok(bop: BinOp)
    | CmpOpTok(cop: CmpOp)
    | CmpOpEqTok(cop: CmpOp)
    | OpenDelim(delim: Delimiter)
    | CloseDelim(delim: Delimiter)
    | Str(value: string)
    | I64(value: string)
    | F64(value: string)
    | Placeholder(value: string)
    | Ident(value: string)
    | Eol
    | Eof
    | Unknown(value: string)

  datatype Token = Token(kind: Kind, span: Span)

  /** The `kind` strings of the token variants. */
  datatype KindTag =
    | TComma | TExclamation | TBinOp | TBinOpEq | TCmpOp | TCmpOpEq
    | TOpenDelim | TCloseDelim | TStr | TI64 | TF64 | TPlaceholder
    | TIdent | TEol | TEof | TUnknown

  function Tag(k: Kind): KindTag
  {
    match k
    case Comma => TComma
    case Exclamation => TExclamation
    case BinOpTok(_) => TBinOp
    case BinOpEqTok(_) => TBinOpEq
    case CmpOpTok(_) => TCmpOp
    case CmpOpEqTok(_) => TCmpOpEq
    case OpenDelim(_) => TOpenDelim
    case CloseDelim(_) => TCloseDelim
    case Str(_) => TStr
    case I64(_) => TI64
    case F64(_) => TF64
    case Placeholder(_) => TPlaceholder
    case Ident(_) => TIdent
    case Eol => TEol
    case Eof => TEof
    case Unknown(_) => TUnknown
  }

  function TagString(t: KindTag): string
  {
    match t
    case TComma => "comma"
    case TExclamation => "exclamation"
    case TBinOp => "bin_op"
    case TBinOpEq => "bin_op_eq"
    case TCmpOp => "cmp_op"
    case TCmpOpEq => "cmp_op_eq"
    case TOpenDelim => "open_delim"
    case TCloseDelim => "close_delim"
    case TStr => "str"
    case TI64 => "i64"
    case TF64 => "f64"
    case TPlaceholder => "placeholder"
    case TIdent => "ident"
    case TEol => "eol"
    case TEof => "eof"
    case TUnknown => "unknown"
  }

  function BinOpString(o: BinOp): string
  {
    match o
    case Plus => "plus"
    case Minus => "minus"
    case Star => "star"
    case Slash => "slash"
    case StarStar => "star_star"
  }

  function CmpOpString(o: CmpOp): string
  {
    match o
    case GreaterThan => "greater_than"
    case LessThan => "less_than"
    case Equals => "equals"
  }

  function DelimiterString(d: Delimiter): string
  {
    match d
    case Parenthesis => "parenthesis"
    case Brace => "brace"
    case Bracket => "bracket"
  }

  /** The property keys each variant declares besides `kind` and `span`
    * (src/parse/token.ts:23-45). */
  function DeclaredProps(t: KindTag): seq<string>
  {
    match t
    case TBinOp => ["op"]
    case TBinOpEq => ["op"]
    case TCmpOp => ["op"]
    case TCmpOpEq => ["op"]
    case TOpenDelim => ["delim"]
    case TCloseDelim => ["delim"]
    case TStr => ["value"]
    case TI64 => ["value"]
    case TF64 => ["value"]
    case TPlaceholder => ["value"]
    case TIdent => ["value"]
    case TUnknown => ["value"]
    case _ => []
  }

  /** The properties of a kind, as the object spread `...props` lays them out. */
  function Props(k: Kind): Obj
  {
    match k
    case BinOpTok(o) => [("op", Text(BinOpString(o)))]
    case BinOpEqTok(o) => [("op", Text(BinOpString(o)))]
    case CmpOpTok(o) => [("op", Text(CmpOpString(o)))]
    case CmpOpEqTok(o) => [("op", Text(CmpOpString(o)))]
    case OpenDelim(d) => [("delim", Text(DelimiterString(d)))]
    case CloseDelim(d) => [("delim", Text(DelimiterString(d)))]
    case Str(v) => [("value", Text(v))]
    case I64(v) => [("value", Text(v))]
    case F64(v) => [("value", Text(v))]
    case Placeholder(v) => [("value", Text(v))]
    case Ident(v) => [("value", Text(v))]
    case Unknown(v) => [("value", Text(v))]
    case _ => []
  }

  /** The key/value view of a token object that `partialEq` compares: `kind`
    * followed by the spread properties. The `span` key is left out of this
    * view; no pattern of the parser names it. */
  function Fields(t: Token): Obj
  {
    [("kind", Text(TagString(Tag(t.kind))))] + Props(t.kind)
  }

  function TagOfString(s: string): Option<KindTag>
  {
    match s
    case "comma" => Some(TComma)
    case "exclamation" => Some(TExclamation)
    case "bin_op" => Some(TBinOp)
    case "bin_op_eq" => Some(TBinOpEq)
    case "cmp_op" => Some(TCmpOp)
    case "cmp_op_eq" => Some(TCmpOpEq)
    case "open_delim" => Some(TOpenDelim)
    case "close_delim" => Some(TCloseDelim)
    case "str" => Some(TStr)
    case "i64" => Some(TI64)
    case "f64" => Some(TF64)
    case "placeholder" => Some(TPlaceholder)
    case "ident" => Some(TIdent)
    case "eol" => Some(TEol)
    case "eof" => Some(TEof)
    case "unknown" => Some(TUnknown)
    case _ => None
  }

  function BinOpOfString(s: string): Option<BinOp>
  {
    match s
    case "plus" => Some(Plus)
    case "minus" => Some(Minus)
    case "star" => Some(Star)
    case "slash" => Some(Slash)
    case "star_star" => Some(StarStar)
    case _ => None
  }

  function CmpOpOfString(s: string): Option<CmpOp>
  {
    match s
    case "greater_than" => Some(GreaterThan)
    case "less_than" => Some(LessThan)
    case "equals" => Some(Equals)
    case _ => None
  }

  function DelimiterOfString(s: string): Option<Delimiter>
  {
    match s
    case "parenthesis" => Some(Parenthesis)
    case "brace" => Some(Brace)
    case "bracket" => Some(Bracket)
    case _ => None
  }

  function TextProp(o: Obj, key: string): Option<string>
  {
    match Get(o, key)
    case Text(s) => Some(s)
    case _ => None
  }

  /** Reads a token kind back from its key/value view. */
  function KindOfObj(o: Obj): Option<Kind>
  {
    match TextProp(o, "kind")
    case None => None
    case Some(ks) =>
      match TagOfString(ks)
      case None => None
      case Some(tag) =>
        match tag
        case TComma => Some(Comma)
        case TExclamation => Some(Exclamation)
        case TEol => Some(Eol)
        case TEof => Some(Eof)
        case TBinOp =>
          (match TextProp(o, "op") case Some(s) => (match BinOpOfString(s) case Some(b) => Some(BinOpTok(b)) case None => None) case None => None)
        case TBinOpEq =>
          (match TextProp(o, "op") case Some(s) => (match BinOpOfString(s) case Some(b) => Some(BinOpEqTok(b)) case None => None) case None => None)
        case TCmpOp =>
          (match TextProp(o, "op") case Some(s) => (match CmpOpOfString(s) case Some(c) => Some(CmpOpTok(c)) case None => None) case None => None)
        case TCmpOpEq =>
          (match TextProp(o, "op") case Some(s) => (match CmpOpOfString(s) case Some(c) => Some(CmpOpEqTok(c)) case None => None) case None => None)
        case TOpenDelim =>
          (match TextProp(o, "delim") case Some(s) => (match DelimiterOfString(s) case Some(d) => Some(OpenDelim(d)) case None => None) case None => None)
        case TCloseDelim =>
          (match TextProp(o, "delim") case Some(s) => (match DelimiterOfString(s) case Some(d) => Some(CloseDelim(d)) case None => None) case None => None)
        case TStr => (match TextProp(o, "value") case Some(v) => Some(Str(v)) case None => None)
        case TI64 => (match TextProp(o, "value") case Some(v) => Some(I64(v)) case None => None)
        case TF64 => (match TextProp(o, "value") case Some(v) => Some(F64(v)) case None => None)
        case TPlaceholder => (match TextProp(o, "value") case Some(v) => Some(Placeholder(v)) case None => None)
        case TIdent => (match TextProp(o, "value") case Some(v) => Some(Ident(v)) case None => None)
        case TUnknown => (match TextProp(o, "value") case Some(v) => Some(Unknown(v)) case None => None)
  }

  /** `token(kind, span, props)`: the object holds `kind`, `span` and exactly
    * the properties its variant declares, and those determine the kind. */
  function MakeToken(k: Kind, sp: Span): (t: Token)
    ensures t.span == sp
    ensures Keys(Fields(t)) == ["kind"] + DeclaredProps(Tag(k))
    ensures KindOfObj(Fields(t)) == Some(k)
  {
    FieldsDetermineKind(Token(k, sp));
    Token(k, sp)
  }

  function OpVal(k: Kind): JsVal
  {
    if OpOf(k).Some? then Text(OpOf(k).value) else Undefined
  }

  function DelimVal(k: Kind): JsVal
  {
    if DelimOf(k).Some? then Text(DelimiterString(DelimOf(k).value)) else Undefined
  }

  function ValueVal(k: Kind): JsVal
  {
    if ValueOf(k).Some? then Text(ValueOf(k).value) else Undefined
  }

  /** What each key of a token's object view holds. */
  lemma GetFields(t: Token)
    ensures Get(Fields(t), "kind") == Text(TagString(Tag(t.kind)))
    ensures Get(Fields(t), "op") == OpVal(t.kind)
    ensures Get(Fields(t), "delim") == DelimVal(t.kind)
    ensures Get(Fields(t), "value") == ValueVal(t.kind)
  {
    var head: Obj := [("kind", Text(TagString(Tag(t.kind))))];
    assert Keys(head) == ["kind"];
    GetAppend(head, Props(t.kind), "op");
    GetAppend(head, Props(t.kind), "delim");
    GetAppend(head, Props(t.kind), "value");
    var pr := Props(t.kind);
    assert |pr| <= 1;
    if |pr| == 1 {
      assert pr[1..] == [];
    }
  }

  lemma FieldsDetermineKind(t: Token)
    ensures KindOfObj(Fields(t)) == Some(t.kind)
  {
    var f := Fields(t);
    GetFields(t);
    assert TagOfString(TagString(Tag(t.kind))) == Some(Tag(t.kind));
    assert TextProp(f, "kind") == Some(TagString(Tag(t.kind)));
    match t.kind
    case BinOpTok(o) =>
      assert BinOpOfString(BinOpString(o)) == Some(o);
    case BinOpEqTok(o) =>
      assert BinOpOfString(BinOpString(o)) == Some(o);
    case CmpOpTok(o) =>
      assert CmpOpOfString(CmpOpString(o)) == Some(o);
    case CmpOpEqTok(o) =>
      assert CmpOpOfString(CmpOpString(o)) == Some(o);
    case OpenDelim(d) =>
      assert DelimiterOfString(DelimiterString(d)) == Some(d);
    case CloseDelim(d) =>
      assert DelimiterOfString(DelimiterString(d)) == Some(d);
    case _ =>
  }

  /** A pattern given to `check`, `eat` and `expect`: a bare kind string, or a
    * `Partial<Token>` whose present keys must all match. The operator is kept
    * as text, as an object literal may hold any string there. */
  datatype Pattern =
    | KindIs(tag: KindTag)
    | Partial(kind: Option<KindTag>, op: Option<string>, delim: Option<Delimiter>, value: Option<string>)

  /** The key/value view of a partial pattern: its present keys only. */
  function PatternObj(p: Pattern): Obj
    requires p.Partial?
  {
    KindPart(p) + OpPart(p) + DelimPart(p) + ValuePart(p)
  }

  function KindPart(p: Pattern): Obj
    requires p.Partial?
  {
    if p.kind.Some? then [("kind", Text(TagString(p.kind.value)))] else []
  }

  function OpPart(p: Pattern): Obj
    requires p.Partial?
  {
    if p.op.Some? then [("op", Text(p.op.value))] else []
  }

  function DelimPart(p: Pattern): Obj
    requires p.Partial?
  {
    if p.delim.Some? then [("delim", Text(DelimiterString(p.delim.value)))] else []
  }

  function ValuePart(p: Pattern): Obj
    requires p.Partial?
  {
    if p.value.Some? then [("value", Text(p.value.value))] else []
  }

  /** `check(tok)` on the current token (src/parse/parser.ts:372-376). */
  predicate Matches(t: Token, p: Pattern)
  {
    match p
    case KindIs(tag) => Tag(t.kind) == tag
    case Partial(_, _, _, _) => PartialEq(Fields(t), PatternObj(p))
  }

  /** The operator name a token carries, if any. */
  function OpOf(k: Kind): Option<string>
  {
    match k
    case BinOpTok(o) => Some(BinOpString(o))
    case BinOpEqTok(o) => Some(BinOpString(o))
    case CmpOpTok(o) => Some(CmpOpString(o))
    case CmpOpEqTok(o) => Some(CmpOpString(o))
    case _ => None
  }

  function DelimOf(k: Kind): Option<Delimiter>
  {
    match k
    case OpenDelim(d) => Some(d)
    case CloseDelim(d) => Some(d)
    case _ => None
  }

  function ValueOf(k: Kind): Option<string>
  {
    match k
    case Str(v) => Some(v)
    case I64(v) => Some(v)
    case F64(v) => Some(v)
    case Placeholder(v) => Some(v)
    case Ident(v) => Some(v)
    case Unknown(v) => Some(v)
    case _ => None
  }

  lemma TagStringInjective(a: KindTag, b: KindTag)
    ensures TagString(a) == TagString(b) ==> a == b
  {
    assert TagOfString(TagString(a)) == Some(a);
    assert TagOfString(TagString(b)) == Some(b);
  }

  lemma DelimiterStringInjective(a: Delimiter, b: Delimiter)
    ensures DelimiterString(a) == DelimiterString(b) ==> a == b
  {
    assert DelimiterOfString(DelimiterString(a)) == Some(a);
    assert DelimiterOfString(DelimiterString(b)) == Some(b);
  }

  function PartKeys(present: bool, key: string): seq<string>
  {
    if present then [key] else []
  }

  /** The keys a partial pattern holds: one per present field. */
  lemma PatternKeys(p: Pattern)
    requires p.Partial?
    ensures Keys(PatternObj(p)) == PartKeys(p.kind.Some?, "kind") + PartKeys(p.op.Some?, "op")
      + PartKeys(p.delim.Some?, "delim") + PartKeys(p.value.Some?, "value")
  {
    var kp, opp, dp, vp := KindPart(p), OpPart(p), DelimPart(p), ValuePart(p);
    KeysAppend(kp, opp);
    KeysAppend(kp + opp, dp);
    KeysAppend(kp + opp + dp, vp);
    PartKeysOf(kp, p.kind.Some?, "kind");
    PartKeysOf(opp, p.op.Some?, "op");
    PartKeysOf(dp, p.delim.Some?, "delim");
    PartKeysOf(vp, p.value.Some?, "value");
  }

  lemma PartKeysOf(o: Obj, present: bool, key: string)
    requires if present then |o| == 1 && o[0].0 == key else o == []
    ensures Keys(o) == PartKeys(present, key)
  {
  }

  /** The value a partial pattern holds under each present key. */
  lemma PatternValues(p: Pattern)
    requires p.Partial?
    ensures p.kind.Some? ==> Get(PatternObj(p), "kind") == Text(TagString(p.kind.value))
    ensures p.op.Some? ==> Get(PatternObj(p), "op") == Text(p.op.value)
    ensures p.delim.Some? ==> Get(PatternObj(p), "delim") == Text(DelimiterString(p.delim.value))
    ensures p.value.Some? ==> Get(PatternObj(p), "value") == Text(p.value.value)
  {
    var kp, opp, dp, vp := KindPart(p), OpPart(p), DelimPart(p), ValuePart(p);
    var rest := opp + (dp + vp);
    assert PatternObj(p) == kp + rest;
    GetAppend(kp, rest, "op");
    GetAppend(kp, rest, "delim");
    GetAppend(kp, rest, "value");
    GetAppend(opp, dp + vp, "delim");
    GetAppend(opp, dp + vp, "value");
    GetAppend(dp, vp, "value");
  }

  lemma AgreeOnPartKeys(f: Obj, o: Obj, a: bool, b: bool, c: bool, d: bool)
    ensures (forall k :: k in PartKeys(a, "kind") + PartKeys(b, "op") + PartKeys(c, "delim") + PartKeys(d, "value")
               ==> Get(f, k) == Get(o, k))
        <==> ((a ==> Get(f, "kind") == Get(o, "kind")) && (b ==> Get(f, "op") == Get(o, "op"))
              && (c ==> Get(f, "delim") == Get(o, "delim")) && (d ==> Get(f, "value") == Get(o, "value")))
  {
    var ks := PartKeys(a, "kind") + PartKeys(b, "op") + PartKeys(c, "delim") + PartKeys(d, "value");
    assert a ==> "kind" in ks;
    assert b ==> "op" in ks;
    assert c ==> "delim" in ks;
    assert d ==> "value" in ks;
    assert forall k :: k in ks ==> (k == "kind" && a) || (k == "op" && b) || (k == "delim" && c) || (k == "value" && d);
  }

  /** A partial pattern matches exactly the tokens that agree with each of its
    * present fields: kind, operator name, delimiter and value. */
  lemma PartialMatchMeaning(t: Token, p: Pattern)
    requires p.Partial?
    ensures Matches(t, p) <==>
      (p.kind.Some? ==> Tag(t.kind) == p.kind.value)
      && (p.op.Some? ==> OpOf(t.kind) == p.op)
      && (p.delim.Some? ==> DelimOf(t.kind) == p.delim)
      && (p.value.Some? ==> ValueOf(t.kind) == p.value)
  {
    var f, o := Fields(t), PatternObj(p);
    PartialEqByKeys(f, o);
    PatternKeys(p);
    AgreeOnPartKeys(f, o, p.kind.Some?, p.op.Some?, p.delim.Some?, p.value.Some?);
    GetFields(t);
    PatternValues(p);
    if p.kind.Some? {
      TagStringInjective(Tag(t.kind), p.kind.value);
    }
    if p.delim.Some? && DelimOf(t.kind).Some? {
      DelimiterStringInjective(DelimOf(t.kind).value, p.delim.value);
    }
  }

  /** The pattern `{kind: "cmp_op", op: "equal"}` (src/parse/parser.ts:208)
    * matches no token at all: comparison tokens carry the operator name
    * "equals". */
  lemma EqualPatternMatchesNothing(t: Token)
    ensures !Matches(t, Partial(Some(TCmpOp), Some("equal"), None, None))
  {
    PartialMatchMeaning(t, Partial(Some(TCmpOp), Some("equal"), None, None));
  }

  /** `TOKEN_KIND_NAMES` (src/parse/token.ts:60-79). */
  function KindName(t: KindTag): string
  {
    match t
    case TComma => ","
    case TExclamation => "!"
    case TBinOp => "binary operator"
    case TBinOpEq => "binary operator"
    case TCmpOp => "comparison"
    case TCmpOpEq => "comparison"
    case TOpenDelim => "opening delimiter"
    case TCloseDelim => "closing delimiter"
    case TStr => "string"
    case TI64 => "number"
    case TF64 => "number"
    case TPlaceholder => "placeholder"
    case TIdent => "identifier"
    case TEol => "end of line"
    case TEof => "end of file"
    case TUnknown => "unknown token"
  }

  /** `DELIMITER_SYMBOLS`. */
  function DelimiterSymbols(d: Delimiter): (s: string)
    ensures |s| == 2
  {
    match d
    case Parenthesis => "()"
    case Brace => "{}"
    case Bracket => "[]"
  }

  /** `BIN_OP_SYMBOLS[name]`; `undefined` for a name outside the table. */
  function BinOpSymbol(name: string): Option<string>
  {
    match name
    case "plus" => Some("+")
    case "minus" => Some("-")
    case "star" => Some("*")
    case "slash" => Some("/")
    case "star_star" => Some("**")
    case _ => None
  }

  /** `CMP_OP_SYMBOLS[name]`. */
  function CmpOpSymbol(name: string): Option<string>
  {
    match name
    case "greater_than" => Some(">")
    case "less_than" => Some("<")
    case "equals" => Some("=")
    case _ => None
  }

  /** A string as a template literal prints it: `undefined` when absent. */
  function Render(s: Option<string>): string
  {
    if s.Some? then s.value else "undefined"
  }

  /** JavaScript truthiness of an optional string. */
  predicate Truthy(s: Option<string>)
  {
    s.Some? && s.value != ""
  }

  /** `tokenToString(tok)` (src/parse/token.ts:107-138). The result is
    * `undefined` (None) where a table lookup misses; a partial token without a
    * kind throws. */
  function TokenToString(p: Pattern): Result<Option<string>, string>
  {
    match p
    case KindIs(tag) => Ok(Some(KindName(tag)))
    case Partial(kind, op, delim, value) =>
      match kind
      case None => Err("undefined token kind")
      case Some(tag) =>
        match tag
        case TComma => Ok(Some(","))
        case TBinOp => Ok(if Truthy(op) then BinOpSymbol(op.value) else Some(KindName(tag)))
        case TBinOpEq => Ok(Some(if Truthy(op) then Render(BinOpSymbol(op.value)) + "=" else KindName(tag)))
        case TCmpOp => Ok(if Truthy(op) then CmpOpSymbol(op.value) else Some(KindName(tag)))
        case TCmpOpEq => Ok(Some(if Truthy(op) then Render(CmpOpSymbol(op.value)) + "=" else KindName(tag)))
        case TOpenDelim => Ok(Some(if delim.Some? then [DelimiterSymbols(delim.value)[0]] else KindName(tag)))
        case TCloseDelim => Ok(Some(if delim.Some? then [DelimiterSymbols(delim.value)[1]] else KindName(tag)))
        case TUnknown => Ok(value)
        case _ => Ok(Some(KindName(tag)))
  }

  /** The symbol a lexer operator or delimiter token stands for: the text
    * the lexer reads it from. */
  function Lexeme(k: Kind): Option<string>
  {
    match k
    case Comma => Some(",")
    case BinOpTok(o) => Some(match o case Plus => "+" case Minus => "-" case Star => "*" case Slash => "/" case StarStar => "**")
    case BinOpEqTok(o) => Some(match o case Plus => "+=" case Minus => "-=" case Star => "*=" case Slash => "/=" case StarStar => "**=")
    case CmpOpTok(o) => Some(match o case GreaterThan => ">" case LessThan => "<" case Equals => "=")
    case CmpOpEqTok(o) => Some(match o case GreaterThan => ">=" case LessThan => "<=" case Equals => "==")
    case OpenDelim(d) => Some(match d case Parenthesis => "(" case Brace => "{" case Bracket => "[")
    case CloseDelim(d) => Some(match d case Parenthesis => ")" case Brace => "}" case Bracket => "]")
    case _ => None
  }

  /** The pattern that names every field of a token kind. */
  function FullPattern(k: Kind): Pattern
  {
    Partial(Some(Tag(k)), OpOf(k), DelimOf(k), ValueOf(k))
  }

  /** For every operator, comparison, delimiter and comma token, the full
    * pattern prints back as the symbol the token is read from: the
    * operator symbol, with `=` appended for the `_eq` kinds, or the first or
    * second character of the delimiter pair. */
  lemma TokenToStringPrintsLexeme(k: Kind)
    requires Lexeme(k).Some?
    ensures TokenToString(FullPattern(k)) == Ok(Lexeme(k))
  {
    match k
    case OpenDelim(d) => assert DelimiterSymbols(d)[0] == Lexeme(k).value[0];
    case CloseDelim(d) => assert DelimiterSymbols(d)[1] == Lexeme(k).value[0];
    case BinOpTok(o) => match o { case _ => }
    case BinOpEqTok(o) =>
      match o {
        case Plus => assert "+" + "=" == "+=";
        case Minus => assert "-" + "=" == "-=";
        case Star => assert "*" + "=" == "*=";
        case Slash => assert "/" + "=" == "/=";
        case StarStar => assert "**" + "=" == "**=";
      }
    case CmpOpTok(o) => match o { case _ => }
    case CmpOpEqTok(o) =>
      match o {
        case Equals => assert "=" + "=" == "==";
        case LessThan => assert "<" + "=" == "<=";
        case GreaterThan => assert ">" + "=" == ">=";
      }
    case _ =>
  }

  /** A bare kind string prints as its entry of the kind-name table, and so
    * does a partial token whose operator or delimiter is missing. */
  lemma TokenToStringFallsBackToKindName(tag: KindTag)
    requires tag != TComma && tag != TUnknown
    ensures TokenToString(KindIs(tag)) == Ok(Some(KindName(tag)))
    ensures TokenToString(Partial(Some(tag), None, None, None)) == Ok(Some(KindName(tag)))
  {
  }

  /** A partial token without a kind throws. */
  lemma TokenToStringUndefinedKindThrows(op: Option<string>, delim: Option<Delimiter>, value: Option<string>)
    ensures TokenToString(Partial(None, op, delim, value)).Err?
  {
  }
}
