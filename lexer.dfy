/** The imperative lexer of src/parse/lexer.ts: a cursor `pos` over the
  * source text, advanced one character at a time by `Next`. Each method is
  * proved to compute what the functions of `LexSpec` describe. */
module LexerClass {
  import opened Wrappers
  import opened Spans
  import opened Tokens
  import opened LexSpec

  /** `/^\s+$/.test(s)` for a string of at most one character. */
  predicate SpaceStr(s: string)
  {
    |s| == 1 && IsSpace(s[0])
  }

  /** `/[0-9]/.test(s)` for a string of at most one character. */
  predicate DigitStr(s: string)
  {
    |s| == 1 && IsDigit(s[0])
  }

  /** `/[a-zA-Z_]/.test(s)` for a string of at most one character. */
  predicate IdentStartStr(s: string)
  {
    |s| == 1 && IsIdentStart(s[0])
  }

  /** `/[a-zA-Z_/]/.test(s)` for a string of at most one character. */
  predicate IdentPartStr(s: string)
  {
    |s| == 1 && IsIdentPart(s[0])
  }

  class Lexer {
    const src: string
    var pos: nat

    ghost predicate Valid()
      reads this
    {
      pos <= |src|
    }

    constructor(src: string)
      ensures Valid() && this.src == src && pos == 0
    {
      this.src := src;
      pos := 0;
    }

    function HasNext(): (b: bool)
      reads this
      ensures b <==> pos < |src|
    {
      pos < |src|
    }

    /** `src.charAt(pos + skip)`: one character, or `""` past the end. */
    function Peek(skip: nat): (s: string)
      reads this
      ensures |s| <= 1
      ensures s == "" <==> pos + skip >= |src|
      ensures pos + skip < |src| ==> s[0] == src[pos + skip]
    {
      if pos + skip < |src| then [src[pos + skip]] else ""
    }

    /** `peek() === ch` for a one-character `ch`. */
    function PeekIs(ch: char): (b: bool)
      reads this
      ensures b <==> Peek(0) == [ch]
    {
      CharIs(src, pos, ch)
    }

    /** `src.charAt(pos++)`. */
    method Next() returns (c: string)
      modifies this
      ensures pos == old(pos) + 1
      ensures c == old(Peek(0))
    {
      c := Peek(0);
      pos := pos + 1;
    }

    /** Reads the next token, or the diagnostic the lexer throws, exactly as
      * `Scan` describes (src/parse/lexer.ts:14-181). */
    method AdvanceToken() returns (r: Result<Token, Diagnostic>)
      requires Valid()
      modifies this
      ensures Valid()
      ensures (r, pos) == Scan(src, old(pos))
      decreases |src| - pos
    {
      while HasNext() && SpaceStr(Peek(0)) && !PeekIs('\n')
        invariant old(pos) <= pos <= |src|
        invariant SkipBlanks(src, pos) == SkipBlanks(src, old(pos))
        decreases |src| - pos
      {
        var skipped := Next();
      }
      if !HasNext() {
        return Ok(Token(Eof, Span(pos, pos)));
      }
      var lo := pos;
      assert lo == SkipBlanks(src, old(pos));
      var singleSpan := Span(lo, lo + 1);
      var c := Next();
      assert c == [src[lo]];

      if c[0] == '/' && PeekIs('/') {
        SkipLineComment();
        r := AdvanceToken();
        return;
      }
      if c[0] == '/' && PeekIs('*') {
        SkipBlockComment();
        r := AdvanceToken();
        return;
      }
      r := LexToken(lo, c, singleSpan);
    }

    /** Eats a `//` comment whose second `/` is at the cursor, up to the next
      * newline (src/parse/lexer.ts:27-29). */
    method SkipLineComment()
      requires pos < |src|
      modifies this
      ensures Valid() && pos == LineEnd(src, old(pos) + 1)
    {
      var skipped := Next();
      while HasNext() && !PeekIs('\n')
        invariant old(pos) + 1 <= pos <= |src|
        invariant LineEnd(src, pos) == LineEnd(src, old(pos) + 1)
        decreases |src| - pos
      {
        skipped := Next();
      }
    }

    /** Eats a block comment whose `*` is at the cursor, counting nested
      * comments (src/parse/lexer.ts:35-49). */
    method SkipBlockComment()
      requires pos < |src|
      modifies this
      ensures Valid() && pos == BlockEnd(src, old(pos) + 1, 1)
    {
      var skipped := Next();
      var depth := 1;
      while HasNext()
        invariant old(pos) + 1 <= pos <= |src|
        invariant depth >= 1
        invariant BlockEnd(src, pos, depth) == BlockEnd(src, old(pos) + 1, 1)
        decreases |src| - pos
      {
        var c := Next();
        if c == "/" && PeekIs('*') {
          skipped := Next();
          depth := depth + 1;
        } else if c == "*" && PeekIs('/') {
          skipped := Next();
          depth := depth - 1;
          if depth == 0 {
            break;
          }
        }
      }
    }

    /** The token that starts at `lo` once blanks and comments are out of the
      * way; `c` has just been consumed (src/parse/lexer.ts:54-180). */
    method LexToken(lo: nat, c: string, singleSpan: Span) returns (r: Result<Token, Diagnostic>)
      requires lo < |src| && pos == lo + 1 && c == [src[lo]] && singleSpan == Span(lo, lo + 1)
      modifies this
      ensures Valid()
      ensures (r, pos) == ScanToken(src, lo)
    {
      var ch := c[0];  // `c` holds exactly one character
      if ch == ',' {
        return Ok(Token(Comma, singleSpan));
      }
      if ch == '+' {
        r := LexWithEq(lo, BinOpTok(Plus), BinOpEqTok(Plus));
        return;
      }
      if ch == '-' {
        r := LexWithEq(lo, BinOpTok(Minus), BinOpEqTok(Minus));
        return;
      }
      if ch == '*' {
        if PeekIs('*') {
          var skipped := Next();
          return Ok(Token(BinOpTok(StarStar), Span(lo, lo + 2)));
        }
        r := LexWithEq(lo, BinOpTok(Star), BinOpEqTok(Star));
        return;
      }
      if ch == '/' {
        // The `peek(0) === "/"` test of src/parse/lexer.ts:83 cannot succeed:
        // a second `/` was taken as a line comment already.
        r := LexWithEq(lo, BinOpTok(Slash), BinOpEqTok(Slash));
        return;
      }
      if ch == '=' {
        r := LexWithEq(lo, CmpOpTok(Equals), CmpOpEqTok(Equals));
        return;
      }
      if ch == '<' {
        r := LexWithEq(lo, CmpOpTok(LessThan), CmpOpEqTok(LessThan));
        return;
      }
      if ch == '>' {
        r := LexWithEq(lo, CmpOpTok(GreaterThan), CmpOpEqTok(GreaterThan));
        return;
      }
      if ch == '(' { return Ok(Token(OpenDelim(Parenthesis), singleSpan)); }
      if ch == ')' { return Ok(Token(CloseDelim(Parenthesis), singleSpan)); }
      if ch == '{' { return Ok(Token(OpenDelim(Brace), singleSpan)); }
      if ch == '}' { return Ok(Token(CloseDelim(Brace), singleSpan)); }
      if ch == '[' { return Ok(Token(OpenDelim(Bracket), singleSpan)); }
      if ch == ']' { return Ok(Token(CloseDelim(Bracket), singleSpan)); }

      if ch == '"' {
        var value := LexString();
        return Ok(Token(Str(value), Span(lo, pos)));
      }
      if ch == '%' {
        var value := LexPlaceholder();
        return Ok(Token(Placeholder(value), Span(lo, pos)));
      }
      if DigitStr(c) {
        var value := c;
        value := LexDigits(lo, value);
        if PeekIs('.') {
          value := value + ".";
          var dot := Next();
          value := LexDigits(lo, value);
          return Ok(Token(F64(value), Span(lo, pos)));
        }
        return Ok(Token(I64(value), Span(lo, pos)));
      }
      if IdentStartStr(c) {
        var value := c;
        while HasNext()
          invariant lo + 1 <= pos <= |src|
          invariant value == src[lo..pos]
          invariant IdentRun(src, pos) == IdentRun(src, lo + 1)
          decreases |src| - pos
        {
          if !IdentPartStr(Peek(0)) {
            break;
          }
          var ch := Next();
          value := value + ch;
        }
        return Ok(Token(Ident(value), Span(lo, pos)));
      }
      if ch == '\n' {
        return Ok(Token(Eol, singleSpan));
      }
      return Err(ErrorAt("unknown token \"" + c + "\"", singleSpan));
    }

    /** An operator that becomes its two-character form before `=`. */
    method LexWithEq(lo: nat, one: Kind, two: Kind) returns (r: Result<Token, Diagnostic>)
      requires lo < |src| && pos == lo + 1
      modifies this
      ensures Valid()
      ensures (r, pos) == WithEq(src, lo, one, two)
    {
      if PeekIs('=') {
        var skipped := Next();
        return Ok(Token(two, Span(lo, lo + 2)));
      }
      return Ok(Token(one, Span(lo, lo + 1)));
    }

    /** The body of a string literal up to and including the closing quote
      * (src/parse/lexer.ts:124-135). */
    method LexString() returns (value: string)
      requires Valid()
      modifies this
      ensures Valid()
      ensures (value, pos) == StrLit(src, old(pos), false, "")
    {
      value := "";
      var escapeNext := false;
      while HasNext()
        invariant old(pos) <= pos <= |src|
        invariant StrLit(src, pos, escapeNext, value) == StrLit(src, old(pos), false, "")
        decreases |src| - pos
      {
        var ch := Next();
        if !escapeNext && ch == "\"" {
          break;
        }
        if !escapeNext && ch == "\\" {
          escapeNext := true;
          continue;
        }
        escapeNext := false;
        value := value + ch;
      }
    }

    /** The body of a placeholder up to and including the closing `%`
      * (src/parse/lexer.ts:141-146). */
    method LexPlaceholder() returns (value: string)
      requires Valid()
      modifies this
      ensures Valid()
      ensures (value, pos) == PlaceholderLit(src, old(pos), "")
    {
      value := "";
      while HasNext()
        invariant old(pos) <= pos <= |src|
        invariant PlaceholderLit(src, pos, value) == PlaceholderLit(src, old(pos), "")
        decreases |src| - pos
      {
        var ch := Next();
        if ch == "%" {
          break;
        }
        value := value + ch;
      }
    }

    /** Appends the run of digits at the cursor to `value`
      * (src/parse/lexer.ts:153-156, 160-163). */
    method LexDigits(lo: nat, value0: string) returns (value: string)
      requires lo <= pos <= |src| && value0 == src[lo..pos]
      modifies this
      ensures pos == DigitRun(src, old(pos)) && value == src[lo..pos]
    {
      value := value0;
      while HasNext()
        invariant old(pos) <= pos <= |src|
        invariant value == src[lo..pos]
        invariant DigitRun(src, pos) == DigitRun(src, old(pos))
        decreases |src| - pos
      {
        if !DigitStr(Peek(0)) {
          break;
        }
        var ch := Next();
        value := value + ch;
      }
    }
  }
}
