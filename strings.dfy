/** The JavaScript string operations the toolchain relies on: `split` on a
  * one-character separator, joining, `indexOf`, `substring`, and decimal
  * text for integers (`BigInt(text)` and `toString()`). */
module Strings {

  /** `s.split(sep)` for a one-character separator: the pieces between the
    * separators, so a text without `sep` is one piece and `""` is `[""]`. */
  function Split(s: string, sep: char): (parts: seq<string>)
    ensures |parts| >= 1
    ensures forall i :: 0 <= i < |parts| ==> sep !in parts[i]
    decreases |s|
  {
    if |s| == 0 then [""]
    else
      var rest := Split(s[1..], sep);
      if s[0] == sep then [""] + rest
      else [[s[0]] + rest[0]] + rest[1..]
  }

  /** The pieces joined with `sep` between consecutive pieces. */
  function Join(parts: seq<string>, sep: string): string
  {
    if |parts| == 0 then ""
    else if |parts| == 1 then parts[0]
    else parts[0] + sep + Join(parts[1..], sep)
  }

  /** Joining the pieces of a split with the separator gives back the text. */
  lemma {:induction false} JoinSplit(s: string, sep: char)
    ensures Join(Split(s, sep), [sep]) == s
    decreases |s|
  {
    if |s| > 0 {
      var rest := Split(s[1..], sep);
      JoinSplit(s[1..], sep);
      var parts := Split(s, sep);
      if s[0] == sep {
        assert parts == [""] + rest;
        assert parts[1..] == rest;
        calc {
          Join(parts, [sep]);
          "" + [sep] + Join(rest, [sep]);
          [sep] + s[1..];
          s;
        }
      } else {
        assert parts == [[s[0]] + rest[0]] + rest[1..];
        JoinCons(s[0], rest, [sep]);
        assert s == [s[0]] + s[1..];
      }
    }
  }

  /** Prepending a character to the first piece prepends it to the join. */
  lemma JoinCons(c: char, rest: seq<string>, sep: string)
    requires |rest| >= 1
    ensures Join([[c] + rest[0]] + rest[1..], sep) == [c] + Join(rest, sep)
  {
    var parts := [[c] + rest[0]] + rest[1..];
    assert parts[0] == [c] + rest[0];
    assert parts[1..] == rest[1..];
    if |rest| > 1 {
      assert Join(parts, sep) == parts[0] + sep + Join(parts[1..], sep);
      assert Join(rest, sep) == rest[0] + sep + Join(rest[1..], sep);
    }
  }

  /** `s.indexOf(c)`: the first position of `c`, or -1. */
  function IndexOf(s: string, c: char): (r: int)
    ensures -1 <= r < |s|
    ensures r == -1 <==> c !in s
    ensures r >= 0 ==> s[r] == c && c !in s[..r]
    decreases |s|
  {
    if |s| == 0 then -1
    else if s[0] == c then 0
    else
      var r := IndexOf(s[1..], c);
      assert s[1..][..if r < 0 then 0 else r] == s[1..1 + if r < 0 then 0 else r];
      if r == -1 then -1 else r + 1
  }

  /** `s.substring(a, b)`: both ends clamped to the text, then swapped when the
    * first exceeds the second. */
  function Substring(s: string, a: int, b: int): (r: string)
    ensures |r| <= |s|
  {
    var x := if a < 0 then 0 else if a > |s| then |s| else a;
    var y := if b < 0 then 0 else if b > |s| then |s| else b;
    if x <= y then s[x..y] else s[y..x]
  }

  predicate StartsWith(s: string, prefix: string)
  {
    |prefix| <= |s| && s[..|prefix|] == prefix
  }

  predicate EndsWith(s: string, suffix: string)
  {
    |suffix| <= |s| && s[|s| - |suffix|..] == suffix
  }

  predicate IsDigitChar(c: char)
  {
    '0' <= c <= '9'
  }

  /** A non-empty run of decimal digits, as the lexer produces for `i64`. */
  predicate DigitString(s: string)
  {
    |s| > 0 && forall i :: 0 <= i < |s| ==> IsDigitChar(s[i])
  }

  /** `BigInt(s)` for a digit string. */
  function DecimalValue(s: string): nat
    requires forall i :: 0 <= i < |s| ==> IsDigitChar(s[i])
    decreases |s|
  {
    if |s| == 0 then 0
    else
      assert IsDigitChar(s[|s| - 1]);
      DecimalValue(s[..|s| - 1]) * 10 + (s[|s| - 1] as int - '0' as int)
  }

  /** `n.toString()` for a natural number. */
  function NatText(n: nat): (s: string)
    ensures DigitString(s)
    decreases n
  {
    var d := [(('0' as int) + n % 10) as char];
    if n < 10 then d else NatText(n / 10) + d
  }

  /** `n.toString()` for an integer: a minus sign before a negative one. */
  function IntText(n: int): string
  {
    if n < 0 then "-" + NatText(-n) else NatText(n)
  }

  /** Reading back the decimal text of a number gives the number. */
  lemma {:induction false} DecimalValueOfNatText(n: nat)
    ensures DecimalValue(NatText(n)) == n
    decreases n
  {
    var d := [(('0' as int) + n % 10) as char];
    if n < 10 {
      assert d[..0] == [];
    } else {
      DecimalValueOfNatText(n / 10);
      var s := NatText(n / 10) + d;
      assert s[..|s| - 1] == NatText(n / 10);
    }
  }

  /** A text without the separator is a single piece. */
  lemma {:induction false} SplitNoSep(s: string, sep: char)
    requires sep !in s
    ensures Split(s, sep) == [s]
    decreases |s|
  {
    if |s| > 0 {
      assert sep !in s[1..];
      SplitNoSep(s[1..], sep);
      assert s == [s[0]] + s[1..];
    }
  }

  /** Splitting at a separator between two texts splits each of them. */
  lemma {:induction false} SplitConcat(a: string, b: string, sep: char)
    ensures Split(a + [sep] + b, sep) == Split(a, sep) + Split(b, sep)
    decreases |a|
  {
    var s := a + [sep] + b;
    if |a| == 0 {
      assert s[1..] == b;
    } else {
      assert s[1..] == a[1..] + [sep] + b;
      SplitConcat(a[1..], b, sep);
    }
  }

  /** The pieces of every text of a list, one list after the other. */
  function SplitEach(xs: seq<string>, sep: char): seq<string>
  {
    if |xs| == 0 then [] else Split(xs[0], sep) + SplitEach(xs[1..], sep)
  }

  /** Splitting a join splits every joined text. */
  lemma {:induction false} SplitJoinEach(xs: seq<string>, sep: char)
    requires |xs| >= 1
    ensures Split(Join(xs, [sep]), sep) == SplitEach(xs, sep)
  {
    if |xs| > 1 {
      SplitJoinEach(xs[1..], sep);
      SplitConcat(xs[0], Join(xs[1..], [sep]), sep);
    }
  }

  /** Splitting a join of texts without the separator gives them back: `split`
    * undoes `join`, as `JoinSplit` shows the other way round. */
  lemma {:induction false} SplitJoin(xs: seq<string>, sep: char)
    requires |xs| >= 1
    requires forall i :: 0 <= i < |xs| ==> sep !in xs[i]
    ensures Split(Join(xs, [sep]), sep) == xs
  {
    SplitJoinEach(xs, sep);
    SplitEachSingle(xs, sep);
  }

  lemma {:induction false} SplitEachSingle(xs: seq<string>, sep: char)
    requires forall i :: 0 <= i < |xs| ==> sep !in xs[i]
    ensures SplitEach(xs, sep) == xs
  {
    if |xs| > 0 {
      SplitNoSep(xs[0], sep);
      SplitEachSingle(xs[1..], sep);
      assert xs == [xs[0]] + xs[1..];
    }
  }

  /** Joining one more piece appends the separator and the piece. */
  lemma {:induction false} JoinSnoc(xs: seq<string>, y: string, sep: string)
    requires |xs| >= 1
    ensures Join(xs + [y], sep) == Join(xs, sep) + sep + y
  {
    var ys := xs + [y];
    if |xs| == 1 {
      assert ys[1..] == [y];
    } else {
      assert ys[1..] == xs[1..] + [y];
      JoinSnoc(xs[1..], y, sep);
    }
  }

  /** Every piece with `prefix` in front. */
  function Prefixed(prefix: string, xs: seq<string>): (r: seq<string>)
    ensures |r| == |xs| && forall i :: 0 <= i < |xs| ==> r[i] == prefix + xs[i]
  {
    seq(|xs|, i requires 0 <= i < |xs| => prefix + xs[i])
  }

  /** A prefix before the join and after every separator is a prefix on
    * every piece. */
  lemma {:induction false} JoinPrefixed(prefix: string, xs: seq<string>, sep: string)
    requires |xs| >= 1
    ensures prefix + Join(xs, sep + prefix) == Join(Prefixed(prefix, xs), sep)
  {
    var ps := Prefixed(prefix, xs);
    if |xs| > 1 {
      JoinPrefixed(prefix, xs[1..], sep);
      assert ps[1..] == Prefixed(prefix, xs[1..]);
    }
  }

  lemma JoinTwo(a: string, b: string, sep: string)
    ensures Join([a, b], sep) == a + sep + b
  {
    assert [a, b][1..] == [b];
  }

  lemma JoinThree(a: string, b: string, c: string, sep: string)
    ensures Join([a, b, c], sep) == a + sep + b + sep + c
  {
    assert [a, b, c][1..] == [b, c];
    JoinTwo(b, c, sep);
  }
}
