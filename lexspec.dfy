/** The lexer of src/parse/lexer.ts as functions of the source text and the
  * cursor position: `Scan(src, pos)` is the token `advanceToken` returns (or
  * the diagnostic it throws) together with the new cursor position. The
  * `Lexer` class proves its imperative `AdvanceToken` equal to `Scan`. */
module LexSpec {
  import opened Wrappers
  import opened Spans
  import opened Tokens

  /** `/^\s+$/.test(c)` for one character, restricted to ASCII whitespace. */
  predicate IsSpace(c: char)
  {
    c == ' ' || c == '\t' || c == '\n' || c == '\r' || c == '\U{B}' || c == '\U{C}'
  }

  /** Whitespace that the lexer skips in front of a token: all but `\n`. */
  predicate IsBlank(c: char)
  {
    IsSpace(c) && c != '\n'
  }

  /** `/[0-9]/.test(c)`. */
  predicate IsDigit(c: char)
  {
    '0' <= c <= '9'
  }

  /** `/[a-zA-Z_]/.test(c)`. */
  predicate IsIdentStart(c: char)
  {
    'a' <= c <= 'z' || 'A' <= c <= 'Z' || c == '_'
  }

  /** `/[a-zA-Z_/]/.test(c)`. */
  predicate IsIdentPart(c: char)
  {
    IsIdentStart(c) || c == '/'
  }

  /** `src.charAt(i) === ch` for a one-character `ch`. */
  predicate CharIs(src: string, i: nat, ch: char)
  {
    i < |src| && src[i] == ch
  }

  /** The position after the blanks starting at `p` (src/parse/lexer.ts:16-18). */
  function SkipBlanks(src: string, p: nat): (q: nat)
    requires p <= |src|
    ensures p <= q <= |src|
    ensures q < |src| ==> !IsBlank(src[q])
    ensures forall i :: p <= i < q ==> IsBlank(src[i])
    decreases |src| - p
  {
    if p < |src| && IsBlank(src[p]) then SkipBlanks(src, p + 1) else p
  }

  /** The position of the `\n` ending a line comment, or the end of input
    * (src/parse/lexer.ts:27-29). */
  function LineEnd(src: string, p: nat): (q: nat)
    requires p <= |src|
    ensures p <= q <= |src|
    ensures q == |src| || src[q] == '\n'
    ensures forall i :: p <= i < q ==> src[i] != '\n'
    decreases |src| - p
  {
    if p < |src| && src[p] != '\n' then LineEnd(src, p + 1) else p
  }

  /** The position just after a block comment whose body starts at `p` with
    * `depth` comments open (src/parse/lexer.ts:38-49). */
  function BlockEnd(src: string, p: nat, depth: nat): (q: nat)
    requires p <= |src| && depth >= 1
    ensures p <= q <= |src|
    decreases |src| - p
  {
    if p >= |src| then p
    else if src[p] == '/' && CharIs(src, p + 1, '*') then BlockEnd(src, p + 2, depth + 1)
    else if src[p] == '*' && CharIs(src, p + 1, '/') then
      (if depth == 1 then p + 2 else BlockEnd(src, p + 2, depth - 1))
    else BlockEnd(src, p + 1, depth)
  }

  /** Whether the block comment body starting at `p` with `depth` open
    * comments is closed before the end of input. */
  predicate BlockCloses(src: string, p: nat, depth: nat)
    requires p <= |src| && depth >= 1
    decreases |src| - p
  {
    if p >= |src| then false
    else if src[p] == '/' && CharIs(src, p + 1, '*') then BlockCloses(src, p + 2, depth + 1)
    else if src[p] == '*' && CharIs(src, p + 1, '/') then
      (if depth == 1 then true else BlockCloses(src, p + 2, depth - 1))
    else BlockCloses(src, p + 1, depth)
  }

  /** The value and end position of a string literal whose body starts at
    * `p`; `acc` is the value read so far (src/parse/lexer.ts:124-135). */
  function StrLit(src: string, p: nat, escaped: bool, acc: string): (r: (string, nat))
    requires p <= |src|
    ensures p <= r.1 <= |src|
    decreases |src| - p
  {
    if p >= |src| then (acc, p)
    else if !escaped && src[p] == '"' then (acc, p + 1)
    else if !escaped && src[p] == '\\' then StrLit(src, p + 1, true, acc)
    else StrLit(src, p + 1, false, acc + [src[p]])
  }

  /** The value and end position of a placeholder whose body starts at `p`
    * (src/parse/lexer.ts:141-146). */
  function PlaceholderLit(src: string, p: nat, acc: string): (r: (string, nat))
    requires p <= |src|
    ensures p <= r.1 <= |src|
    decreases |src| - p
  {
    if p >= |src| then (acc, p)
    else if src[p] == '%' then (acc, p + 1)
    else PlaceholderLit(src, p + 1, acc + [src[p]])
  }

  /** The end of the run of digits starting at `p`. */
  function DigitRun(src: string, p: nat): (q: nat)
    requires p <= |src|
    ensures p <= q <= |src|
    ensures q < |src| ==> !IsDigit(src[q])
    ensures forall i :: p <= i < q ==> IsDigit(src[i])
    decreases |src| - p
  {
    if p < |src| && IsDigit(src[p]) then DigitRun(src, p + 1) else p
  }

  /** The end of the run of identifier characters starting at `p`. */
  function IdentRun(src: string, p: nat): (q: nat)
    requires p <= |src|
    ensures p <= q <= |src|
    ensures q < |src| ==> !IsIdentPart(src[q])
    ensures forall i :: p <= i < q ==> IsIdentPart(src[i])
    decreases |src| - p
  {
    if p < |src| && IsIdentPart(src[p]) then IdentRun(src, p + 1) else p
  }

  /** The lexer's result: the token or thrown diagnostic, and the cursor. */
  type Step = (Result<Token, Diagnostic>, nat)

  /** The one- or two-character token read at `lo` for an operator that may
    * be followed by `=`. */
  function WithEq(src: string, lo: nat, one: Kind, two: Kind): Step
  {
    if CharIs(src, lo + 1, '=') then (Ok(Token(two, Span(lo, lo + 2))), lo + 2)
    else (Ok(Token(one, Span(lo, lo + 1))), lo + 1)
  }

  /** The token that starts at `lo`, which is not blank and does not begin a
    * comment (src/parse/lexer.ts:54-180). */
  function ScanToken(src: string, lo: nat): (r: Step)
    requires lo < |src|
  {
    var c := src[lo];
    var single := Span(lo, lo + 1);
    if c == ',' then (Ok(Token(Comma, single)), lo + 1)
    else if c == '+' then WithEq(src, lo, BinOpTok(Plus), BinOpEqTok(Plus))
    else if c == '-' then WithEq(src, lo, BinOpTok(Minus), BinOpEqTok(Minus))
    else if c == '*' then
      if CharIs(src, lo + 1, '*') then (Ok(Token(BinOpTok(StarStar), Span(lo, lo + 2))), lo + 2)
      else WithEq(src, lo, BinOpTok(Star), BinOpEqTok(Star))
    else if c == '/' then WithEq(src, lo, BinOpTok(Slash), BinOpEqTok(Slash))
    else if c == '=' then WithEq(src, lo, CmpOpTok(Equals), CmpOpEqTok(Equals))
    else if c == '<' then WithEq(src, lo, CmpOpTok(LessThan), CmpOpEqTok(LessThan))
    else if c == '>' then WithEq(src, lo, CmpOpTok(GreaterThan), CmpOpEqTok(GreaterThan))
    else if c == '(' then (Ok(Token(OpenDelim(Parenthesis), single)), lo + 1)
    else if c == ')' then (Ok(Token(CloseDelim(Parenthesis), single)), lo + 1)
    else if c == '{' then (Ok(Token(OpenDelim(Brace), single)), lo + 1)
    else if c == '}' then (Ok(Token(CloseDelim(Brace), single)), lo + 1)
    else if c == '[' then (Ok(Token(OpenDelim(Bracket), single)), lo + 1)
    else if c == ']' then (Ok(Token(CloseDelim(Bracket), single)), lo + 1)
    else if c == '"' then
      var (v, q) := StrLit(src, lo + 1, false, "");
      (Ok(Token(Str(v), Span(lo, q))), q)
    else if c == '%' then
      var (v, q) := PlaceholderLit(src, lo + 1, "");
      (Ok(Token(Placeholder(v), Span(lo, q))), q)
    else if IsDigit(c) then
      var q := DigitRun(src, lo + 1);
      if CharIs(src, q, '.') then
        var q2 := DigitRun(src, q + 1);
        (Ok(Token(F64(src[lo..q2]), Span(lo, q2))), q2)
      else (Ok(Token(I64(src[lo..q]), Span(lo, q))), q)
    else if IsIdentStart(c) then
      var q := IdentRun(src, lo + 1);
      (Ok(Token(Ident(src[lo..q]), Span(lo, q))), q)
    else if c == '\n' then (Ok(Token(Eol, single)), lo + 1)
    else (Err(ErrorAt("unknown token \"" + [c] + "\"", single)), lo + 1)
  }

  /** What a well-behaved step promises: a token's span lies between the old
    * and the new cursor and ends at the new cursor, an error covers the one
    * character just consumed, and only `eof` leaves the cursor in place. */
  predicate StepOk(src: string, p: nat, r: Step)
  {
    p <= r.1 <= |src|
    && (r.0.Ok? ==>
          p <= r.0.value.span.start <= r.0.value.span.end == r.1
          && (r.0.value.kind == Eof <==> r.0.value.span.start == r.0.value.span.end))
    && (r.0.Err? ==> r.1 >= 1 && p < r.1 && r.0.error.span == Some(Span(r.1 - 1, r.1)))
    && (r.0.Ok? && r.0.value.kind == Eof ==> r.1 == |src|)
  }

  lemma ScanTokenOk(src: string, lo: nat)
    requires lo < |src|
    ensures StepOk(src, lo, ScanToken(src, lo))
  {
    var c := src[lo];
    if c == '"' {
      var (v, q) := StrLit(src, lo + 1, false, "");
    } else if c == '%' {
      var (v, q) := PlaceholderLit(src, lo + 1, "");
    }
  }

  /** `advanceToken()` run from cursor `p` (src/parse/lexer.ts:14-181). */
  function Scan(src: string, p: nat): (r: Step)
    requires p <= |src|
    ensures StepOk(src, p, r)
    decreases |src| - p
  {
    var lo := SkipBlanks(src, p);
    if lo == |src| then (Ok(Token(Eof, Span(lo, lo))), lo)
    else if src[lo] == '/' && CharIs(src, lo + 1, '/') then Scan(src, LineEnd(src, lo + 2))
    else if src[lo] == '/' && CharIs(src, lo + 1, '*') then Scan(src, BlockEnd(src, lo + 2, 1))
    else
      ScanTokenOk(src, lo);
      ScanToken(src, lo)
  }

  // ---------------------------------------------------------------------
  // Properties of the lexer

  /** At the end of input the lexer returns `eof` with the empty span at the
    * cursor and leaves the cursor in place, so it keeps returning `eof`. */
  lemma EofAtEnd(src: string)
    ensures Scan(src, |src|) == (Ok(Token(Eof, Span(|src|, |src|))), |src|)
  {
  }

  lemma EofIsSticky(src: string, p: nat)
    requires p <= |src|
    requires Scan(src, p).0 == Ok(Token(Eof, Span(|src|, |src|)))
    ensures Scan(src, Scan(src, p).1) == Scan(src, p)
  {
  }

  /** Blanks in front of a newline are skipped and the newline is a
    * one-character `eol` token. */
  lemma BlanksThenNewline(src: string, p: nat, q: nat)
    requires p <= q < |src| && src[q] == '\n'
    requires forall i :: p <= i < q ==> IsBlank(src[i])
    ensures Scan(src, p) == (Ok(Token(Eol, Span(q, q + 1))), q + 1)
  {
    SkipBlanksTo(src, p, q);
  }

  lemma {:induction false} SkipBlanksTo(src: string, p: nat, q: nat)
    requires p <= q <= |src|
    requires forall i :: p <= i < q ==> IsBlank(src[i])
    requires q < |src| ==> !IsBlank(src[q])
    ensures SkipBlanks(src, p) == q
    decreases q - p
  {
    if p < q {
      SkipBlanksTo(src, p + 1, q);
    }
  }

  lemma {:induction false} LineEndAt(src: string, p: nat, q: nat)
    requires p <= q < |src| && src[q] == '\n'
    requires forall i :: p <= i < q ==> src[i] != '\n'
    ensures LineEnd(src, p) == q
    decreases q - p
  {
    if p < q {
      LineEndAt(src, p + 1, q);
    }
  }

  /** A `//` comment runs up to, but not including, the next newline, which
    * still comes out as an `eol` token. */
  lemma LineCommentKeepsNewline(src: string, p: nat, q: nat, e: nat)
    requires p <= q && q + 1 < e < |src|
    requires forall i :: p <= i < q ==> IsBlank(src[i])
    requires src[q] == '/' && src[q + 1] == '/'
    requires src[e] == '\n' && forall i :: q + 2 <= i < e ==> src[i] != '\n'
    ensures Scan(src, p) == (Ok(Token(Eol, Span(e, e + 1))), e + 1)
  {
    SkipBlanksTo(src, p, q);
    LineEndAt(src, q + 2, e);
    assert SkipBlanks(src, e) == e;
  }

  /** Block comments nest: when the body starting at `p` closes `inner` open
    * comments, a scan that starts with `outer + inner` open comments closes
    * the inner ones at the same place and then goes on with `outer`. */
  lemma {:induction false} BlockEndNests(src: string, p: nat, outer: nat, inner: nat)
    requires p <= |src| && outer >= 1 && inner >= 1
    requires BlockCloses(src, p, inner)
    ensures BlockEnd(src, p, outer + inner) == BlockEnd(src, BlockEnd(src, p, inner), outer)
    ensures BlockCloses(src, p, outer + inner) == BlockCloses(src, BlockEnd(src, p, inner), outer)
    decreases |src| - p
  {
    if src[p] == '/' && CharIs(src, p + 1, '*') {
      BlockEndNests(src, p + 2, outer, inner + 1);
    } else if src[p] == '*' && CharIs(src, p + 1, '/') {
      if inner > 1 {
        BlockEndNests(src, p + 2, outer, inner - 1);
      }
    } else {
      BlockEndNests(src, p + 1, outer, inner);
    }
  }

  /** A block comment that is never closed swallows the rest of the input. */
  lemma {:induction false} UnclosedBlockRunsToEnd(src: string, p: nat, depth: nat)
    requires p <= |src| && depth >= 1
    requires !BlockCloses(src, p, depth)
    ensures BlockEnd(src, p, depth) == |src|
    decreases |src| - p
  {
    if p < |src| {
      if src[p] == '/' && CharIs(src, p + 1, '*') {
        UnclosedBlockRunsToEnd(src, p + 2, depth + 1);
      } else if src[p] == '*' && CharIs(src, p + 1, '/') {
        UnclosedBlockRunsToEnd(src, p + 2, depth - 1);
      } else {
        UnclosedBlockRunsToEnd(src, p + 1, depth);
      }
    }
  }

  /** A closed block comment ends just after a `*` `/` pair. */
  lemma {:induction false} ClosedBlockEndsWithCloser(src: string, p: nat, depth: nat)
    requires p <= |src| && depth >= 1
    requires BlockCloses(src, p, depth)
    ensures p + 2 <= BlockEnd(src, p, depth)
    ensures src[BlockEnd(src, p, depth) - 2] == '*' && src[BlockEnd(src, p, depth) - 1] == '/'
    decreases |src| - p
  {
    if src[p] == '/' && CharIs(src, p + 1, '*') {
      ClosedBlockEndsWithCloser(src, p + 2, depth + 1);
    } else if src[p] == '*' && CharIs(src, p + 1, '/') {
      if depth > 1 {
        ClosedBlockEndsWithCloser(src, p + 2, depth - 1);
      }
    } else {
      ClosedBlockEndsWithCloser(src, p + 1, depth);
    }
  }

  /** Two-character operators win over one-character ones: `+= -= *= /=`,
    * `**` and `== <= >=` give a token of length 2, and every operator,
    * comparison, delimiter and comma token spans exactly the symbol it is
    * printed as. */
  lemma TwoCharOperatorsWin(src: string, lo: nat)
    requires lo + 1 < |src|
    requires (src[lo] in {'+', '-', '*', '/', '=', '<', '>'} && src[lo + 1] == '=')
             || (src[lo] == '*' && src[lo + 1] == '*')
    requires !(src[lo] == '/' && src[lo + 1] == '/')
    ensures ScanToken(src, lo).0.Ok?
    ensures ScanToken(src, lo).0.value.span == Span(lo, lo + 2)
    ensures Lexeme(ScanToken(src, lo).0.value.kind) == Some(src[lo..lo + 2])
  {
    var two := src[lo..lo + 2];
    assert two == [src[lo], src[lo + 1]];
  }

  lemma OperatorTokenIsItsSymbol(src: string, lo: nat)
    requires lo < |src|
    requires ScanToken(src, lo).0.Ok? && Lexeme(ScanToken(src, lo).0.value.kind).Some?
    ensures var t := ScanToken(src, lo).0.value;
      t.span.end <= |src| && Lexeme(t.kind) == Some(src[t.span.start..t.span.end])
      && TokenToString(FullPattern(t.kind)) == Ok(Some(src[t.span.start..t.span.end]))
  {
    var t := ScanToken(src, lo).0.value;
    SymbolLexeme(src, lo);
    if t.span.end == lo + 2 {
      assert src[lo..lo + 2] == [src[lo], src[lo + 1]];
    } else {
      assert src[lo..lo + 1] == [src[lo]];
    }
    TokenToStringPrintsLexeme(t.kind);
  }

  /** A symbol token is its one or two characters. */
  lemma SymbolLexeme(src: string, lo: nat)
    requires lo < |src|
    requires ScanToken(src, lo).0.Ok? && Lexeme(ScanToken(src, lo).0.value.kind).Some?
    ensures var t := ScanToken(src, lo).0.value;
      t.span.start == lo
      && ((t.span.end == lo + 1 && Lexeme(t.kind) == Some([src[lo]]))
          || (t.span.end == lo + 2 && lo + 1 < |src| && Lexeme(t.kind) == Some([src[lo], src[lo + 1]])))
  {
    var c := src[lo];
    if c == '+' {
      WithEqLexeme(src, lo, BinOpTok(Plus), BinOpEqTok(Plus));
    } else if c == '-' {
      WithEqLexeme(src, lo, BinOpTok(Minus), BinOpEqTok(Minus));
    } else if c == '*' {
      if !CharIs(src, lo + 1, '*') {
        WithEqLexeme(src, lo, BinOpTok(Star), BinOpEqTok(Star));
      }
    } else if c == '/' {
      WithEqLexeme(src, lo, BinOpTok(Slash), BinOpEqTok(Slash));
    } else if c == '=' {
      WithEqLexeme(src, lo, CmpOpTok(Equals), CmpOpEqTok(Equals));
    } else if c == '<' {
      WithEqLexeme(src, lo, CmpOpTok(LessThan), CmpOpEqTok(LessThan));
    } else if c == '>' {
      WithEqLexeme(src, lo, CmpOpTok(GreaterThan), CmpOpEqTok(GreaterThan));
    }
  }

  /** An operator that may be followed by `=`. */
  lemma WithEqLexeme(src: string, lo: nat, one: Kind, two: Kind)
    requires lo < |src| && Lexeme(one) == Some([src[lo]]) && Lexeme(two) == Some([src[lo], '='])
    ensures var t := WithEq(src, lo, one, two).0.value;
      t.span.start == lo
      && ((t.span.end == lo + 1 && Lexeme(t.kind) == Some([src[lo]]))
          || (t.span.end == lo + 2 && lo + 1 < |src| && Lexeme(t.kind) == Some([src[lo], src[lo + 1]])))
  {
  }

  /** `"` followed by what the lexer reads back as `s`: quotes and
    * backslashes get a backslash in front. */
  function Escape(s: string): (e: string)
    ensures |e| >= |s|
  {
    if |s| == 0 then []
    else (if s[0] == '"' || s[0] == '\\' then ['\\', s[0]] else [s[0]]) + Escape(s[1..])
  }

  lemma {:induction false} StrLitReadsEscaped(src: string, p: nat, s: string, acc: string)
    requires p + |Escape(s)| < |src|
    requires src[p..p + |Escape(s)|] == Escape(s) && src[p + |Escape(s)|] == '"'
    ensures StrLit(src, p, false, acc) == (acc + s, p + |Escape(s)| + 1)
    decreases |s|
  {
    if |s| == 0 {
      assert acc + s == acc;
    } else {
      var e, rest := Escape(s), Escape(s[1..]);
      var head := if s[0] == '"' || s[0] == '\\' then ['\\', s[0]] else [s[0]];
      assert e == head + rest;
      SliceAt(src, p, e, 0);
      SliceDrop(src, p, e, |head|);
      assert e[|head|..] == rest;
      if |head| == 2 {
        SliceAt(src, p, e, 1);
        StrLitReadsEscaped(src, p + 2, s[1..], acc + [s[0]]);
      } else {
        StrLitReadsEscaped(src, p + 1, s[1..], acc + [s[0]]);
      }
      assert acc + [s[0]] + s[1..] == acc + s;
    }
  }

  /** A character of a slice is the character of the sequence. */
  lemma SliceAt(src: string, p: nat, e: string, k: nat)
    requires p + |e| <= |src| && src[p..p + |e|] == e && k < |e|
    ensures src[p + k] == e[k]
  {
    assert src[p..p + |e|][k] == src[p + k];
  }

  /** A slice with its first `n` characters dropped. */
  lemma SliceDrop(src: string, p: nat, e: string, n: nat)
    requires p + |e| <= |src| && src[p..p + |e|] == e && n <= |e|
    ensures src[p + n..p + |e|] == e[n..]
  {
    assert src[p..p + |e|][n..] == src[p + n..p + |e|];
  }

  /** A string literal round-trips: the lexer reads `"` + Escape(s) + `"` as
    * the string token `s`, whose span covers both quotes. */
  lemma StringLiteralRoundTrip(src: string, lo: nat, s: string)
    requires lo + |Escape(s)| + 1 < |src|
    requires src[lo] == '"'
    requires src[lo + 1..lo + 1 + |Escape(s)|] == Escape(s) && src[lo + 1 + |Escape(s)|] == '"'
    ensures ScanToken(src, lo) == (Ok(Token(Str(s), Span(lo, lo + |Escape(s)| + 2))), lo + |Escape(s)| + 2)
  {
    StrLitReadsEscaped(src, lo + 1, s, "");
    assert "" + s == s;
    ScanQuote(src, lo);
  }

  /** A `"` starts a string literal token. */
  lemma ScanQuote(src: string, lo: nat)
    requires lo < |src| && src[lo] == '"'
    ensures var (v, q) := StrLit(src, lo + 1, false, "");
      ScanToken(src, lo) == (Ok(Token(Str(v), Span(lo, q))), q)
  {
  }

  /** A string literal that is never closed runs to the end of input. */
  lemma {:induction false} UnterminatedStringRunsToEnd(src: string, p: nat, escaped: bool, acc: string)
    requires p <= |src|
    requires forall i :: p <= i < |src| ==> src[i] != '"'
    ensures StrLit(src, p, escaped, acc).1 == |src|
    decreases |src| - p
  {
    if p < |src| {
      if !escaped && src[p] == '\\' {
        UnterminatedStringRunsToEnd(src, p + 1, true, acc);
      } else {
        UnterminatedStringRunsToEnd(src, p + 1, false, acc + [src[p]]);
      }
    }
  }

  /** Number tokens carry their raw text: a run of digits is `i64`; digits, a
    * dot and digits are `f64`. Neither can be extended by a further digit. */
  lemma NumberTokens(src: string, lo: nat)
    requires lo < |src| && IsDigit(src[lo])
    ensures var t := ScanToken(src, lo).0.value;
      ScanToken(src, lo).0.Ok?
      && (t.kind.I64? || t.kind.F64?)
      && t.kind.value == src[t.span.start..t.span.end]
      && t.span.start == lo && t.span.end <= |src|
      && (t.span.end < |src| ==> !IsDigit(src[t.span.end]))
      && (t.kind.I64? ==> (forall i :: lo <= i < t.span.end ==> IsDigit(src[i]))
                          && !CharIs(src, t.span.end, '.'))
      && (t.kind.F64? ==>
            exists d :: (lo < d < t.span.end && src[d] == '.'
                         && forall i :: lo <= i < t.span.end && i != d ==> IsDigit(src[i])))
  {
    var q := DigitRun(src, lo + 1);
    if CharIs(src, q, '.') {
      var q2 := DigitRun(src, q + 1);
      assert lo < q < q2 && src[q] == '.';
    }
  }

  /** Identifiers start with a letter or `_`, continue over letters, `_` and
    * `/`, and are maximal. */
  lemma IdentifierTokens(src: string, lo: nat)
    requires lo < |src| && IsIdentStart(src[lo])
    ensures var t := ScanToken(src, lo).0.value;
      ScanToken(src, lo).0.Ok?
      && t.kind == Ident(src[lo..t.span.end])
      && t.span.start == lo && lo < t.span.end <= |src|
      && (forall i :: lo <= i < t.span.end ==> IsIdentPart(src[i]))
      && (t.span.end < |src| ==> !IsIdentPart(src[t.span.end]))
  {
  }

  /** A character with no branch, such as `!`, `~` or `.`, is an error with a
    * one-character span. */
  lemma UnknownCharacter(src: string, lo: nat)
    requires lo < |src|
    requires src[lo] in {'!', '~', '.', '#', '&', '^', '\''}
    ensures ScanToken(src, lo)
         == (Err(ErrorAt("unknown token \"" + [src[lo]] + "\"", Span(lo, lo + 1))), lo + 1)
  {
  }
}
