/** The string helpers of the code generator (src/codegen/helpers.ts) and
  * its `CodeStyle` record (src/codegen/style.ts). */
module CodegenHelpers {
  import opened Strings
  import opened Styles

  datatype PlaceholderStyle = ShorthandPlaceholder | NormalPlaceholder | QuotedPlaceholder

  /** `CodeStyle` of the generator (src/codegen/style.ts:6-13). */
  datatype CodeStyle = CodeStyle(
    tab: string,
    lineLength: int,
    binOpStyle: OpStyle,
    cmpOpStyle: OpStyle,
    placeholderStyle: PlaceholderStyle,
    useCommonShorthands: bool)

  /** `DEFAULT_CODE_STYLE` (src/codegen/style.ts:15-22). */
  const DEFAULT_CODE_STYLE := CodeStyle("    ", 80, Symbolic, Symbolic, ShorthandPlaceholder, true)

  /** A text between double quotes, nothing escaped. */
  function Quote(s: string): (r: string)
    ensures |r| == |s| + 2 && r[0] == '"' && r[|r| - 1] == '"' && r[1..|r| - 1] == s
  {
    "\"" + s + "\""
  }

  /** `error(message)` (src/codegen/helpers.ts:3-5). */
  function ErrorText(message: string): (r: string)
    ensures |r| == |message| + 13
    ensures StartsWith(r, "/* error: ") && EndsWith(r, " */")
    ensures r[10..|r| - 3] == message
  {
    "/* error: " + message + " */"
  }

  /** `hint(message)` (src/codegen/helpers.ts:7-9). */
  function Hint(message: string): (r: string)
    ensures |r| == |message| + 6
    ensures StartsWith(r, "/* ") && EndsWith(r, " */")
    ensures r[3..|r| - 3] == message
  {
    "/* " + message + " */"
  }

  /** `concat(elements, sep)` (src/codegen/helpers.ts:11-19): the first
    * element, or `""`, then every later one after a separator. */
  method Concat(elements: seq<string>, sep: string) returns (res: string)
    ensures res == Join(elements, sep)
  {
    res := if |elements| > 0 then elements[0] else "";
    var i := 1;
    while i < |elements|
      invariant |elements| > 0 ==> 1 <= i <= |elements| && res == Join(elements[..i], sep)
      invariant |elements| == 0 ==> res == ""
    {
      JoinSnoc(elements[..i], elements[i], sep);
      assert elements[..i + 1] == elements[..i] + [elements[i]];
      res := res + sep + elements[i];
      i := i + 1;
    }
    if |elements| > 0 {
      assert elements[..i] == elements;
    }
  }

  /** `maybeQuote(name)` (src/codegen/helpers.ts:21-24): the name between
    * quotes exactly when it holds a space. */
  function MaybeQuote(name: string): (r: string)
    ensures ' ' in name ==> r == Quote(name)
    ensures ' ' !in name ==> r == name
  {
    if ' ' in name then Quote(name) else name
  }

  /** `word.charAt(0).toUpperCase() + word.slice(1)`. */
  function CapWord(w: string): (r: string)
    ensures |r| == |w|
  {
    if |w| == 0 then "" else [UpperChar(w[0])] + w[1..]
  }

  function CapWords(ws: seq<string>): (r: seq<string>)
    ensures |r| == |ws| && forall i :: 0 <= i < |ws| ==> r[i] == CapWord(ws[i])
  {
    seq(|ws|, i requires 0 <= i < |ws| => CapWord(ws[i]))
  }

  /** `s.split(' ').map(capitalize).join(' ')`
    * (src/codegen/helpers.ts:36-38). */
  function CapitalizeWords(s: string): (r: string)
    ensures r == Capitals(s, true)
  {
    CapitalsSplit(s, true);
    assert HeadsCapped(Split(s, ' '), true) == CapWords(Split(s, ' '));
    Join(CapWords(Split(s, ' ')), " ")
  }

  /** The characters of `s` with those that start a word upper-cased: the
    * first (when `atStart`) and every one after a space. */
  function Capitals(s: string, atStart: bool): (r: string)
    ensures |r| == |s|
    ensures forall i :: 0 <= i < |s| ==>
      r[i] == if (i == 0 && atStart) || (i > 0 && s[i - 1] == ' ') then UpperChar(s[i]) else s[i]
    decreases |s|
  {
    if |s| == 0 then ""
    else
      var rest := Capitals(s[1..], s[0] == ' ');
      var r := [if atStart then UpperChar(s[0]) else s[0]] + rest;
      assert forall i :: 1 <= i < |s| ==> r[i] == rest[i - 1] && s[1..][i - 1] == s[i];
      r
  }

  /** The split pieces with the first one capitalised only when `first`. */
  function HeadsCapped(ws: seq<string>, first: bool): seq<string>
    requires |ws| >= 1
  {
    [if first then CapWord(ws[0]) else ws[0]] + CapWords(ws[1..])
  }

  /** Capitalising the split pieces and joining them again capitalises the
    * first letter of every word in place. */
  lemma {:induction false} CapitalsSplit(s: string, atStart: bool)
    ensures Join(HeadsCapped(Split(s, ' '), atStart), " ") == Capitals(s, atStart)
    decreases |s|
  {
    if |s| > 0 {
      var rest := Split(s[1..], ' ');
      if s[0] == ' ' {
        CapitalsSplit(s[1..], true);
        var hs := HeadsCapped(Split(s, ' '), atStart);
        assert Split(s, ' ') == [""] + rest;
        assert hs == [""] + HeadsCapped(rest, true);
        assert hs[1..] == HeadsCapped(rest, true);
      } else {
        CapitalsSplit(s[1..], false);
        var c := if atStart then UpperChar(s[0]) else s[0];
        var h := HeadsCapped(rest, false);
        assert Split(s, ' ') == [[s[0]] + rest[0]] + rest[1..];
        assert HeadsCapped(Split(s, ' '), atStart) == [[c] + h[0]] + h[1..];
        JoinCons(c, h, " ");
      }
    }
  }

  /** The name in the letter case of a written style
    * (src/codegen/helpers.ts:30-39). */
  function Cased(name: string, capitalization: Capitalization): (r: string)
    ensures |r| == |name|
    ensures capitalization == Lowercase ==> forall i :: 0 <= i < |r| ==> r[i] == LowerChar(name[i])
    ensures capitalization == Uppercase ==> forall i :: 0 <= i < |r| ==> r[i] == UpperChar(name[i])
    ensures capitalization == Capitalized ==> forall i :: 0 <= i < |r| ==>
      r[i] == if i == 0 || name[i - 1] == ' ' then UpperChar(LowerChar(name[i])) else LowerChar(name[i])
  {
    match capitalization
    case Lowercase => Lower(name)
    case Uppercase => Upper(name)
    case Capitalized =>
      var low := Lower(name);
      assert forall i :: 0 <= i < |name| ==> (low[i] == ' ' <==> name[i] == ' ');
      CapitalizeWords(low)
  }

  /** `withWrittenStyle(name, style)` (src/codegen/helpers.ts:26-44): the
    * name in the style's letter case, quoted when the style says so or when
    * the name holds a space. */
  function WithWrittenStyle(name: string, style: WrittenStyle): (r: string)
    ensures style.quoted || ' ' in name ==> r == Quote(Cased(name, style.capitalization))
    ensures !style.quoted && ' ' !in name ==> r == Cased(name, style.capitalization)
  {
    var capitalizedName := Cased(name, style.capitalization);
    if style.quoted || ' ' in name then Quote(capitalizedName) else capitalizedName
  }

  /** A capitalised word keeps its other letters lower case: in particular a
    * name already in lower case, one word, comes out with only its first
    * letter changed. */
  lemma CapitalizedOneWord(name: string)
    requires |name| > 0 && ' ' !in name
    requires forall i :: 0 <= i < |name| ==> !IsUpper(name[i])
    ensures Cased(name, Capitalized) == [UpperChar(name[0])] + name[1..]
  {
    var r := Cased(name, Capitalized);
    assert forall i :: 0 <= i < |name| ==> LowerChar(name[i]) == name[i];
    forall i | 1 <= i < |name|
      ensures r[i] == name[i]
    {
      assert name[i - 1] != ' ';
    }
    assert r[1..] == name[1..];
  }
}
