/** How the code generator writes operators and plain arguments
  * (src/codegen/arguments.ts). */
module CodegenArguments {
  import opened Styles
  import opened CodegenHelpers

  /** `Operation` of the action model. */
  datatype Operation = Increment | Decrement | SetOp | Multiply | Divide

  /** `Comparison` of the condition model. */
  datatype Comparison = LessThan | LessThanOrEquals | EqualsCmp | GreaterThan | GreaterThanOrEquals

  /** The symbol tables `OPERATION_SYMBOLS` and `COMPARISON_SYMBOLS`, which
    * are defined outside this repository. */
  datatype SymbolTables = SymbolTables(operation: Operation -> string, comparison: Comparison -> string)

  /** `OPERATION_NAMES` (src/codegen/arguments.ts:12-20). */
  function OperationName(op: Operation): string
  {
    match op
    case Increment => "inc"
    case Decrement => "dec"
    case SetOp => "set"
    case Multiply => "mul"
    case Divide => "div"
  }

  /** `COMPARISON_NAMES` (src/codegen/arguments.ts:22-30). */
  function ComparisonName(op: Comparison): string
  {
    match op
    case LessThan => "less than"
    case LessThanOrEquals => "less than or equals"
    case EqualsCmp => "equals"
    case GreaterThan => "greater than"
    case GreaterThanOrEquals => "greater than or equals"
  }

  /** `generateOperation` (src/codegen/arguments.ts:32-41). */
  function GenerateOperation(op: Operation, style: CodeStyle, sym: SymbolTables): (r: string)
    ensures style.binOpStyle.Symbolic? ==> r == sym.operation(op)
    ensures style.binOpStyle.Written? ==> r == WithWrittenStyle(OperationName(op), style.binOpStyle.written)
  {
    if style.binOpStyle.Symbolic? then sym.operation(op)
    else WithWrittenStyle(OperationName(op), style.binOpStyle.written)
  }

  /** `generateComparison` (src/codegen/arguments.ts:43-52). */
  function GenerateComparison(op: Comparison, style: CodeStyle, sym: SymbolTables): (r: string)
    ensures style.cmpOpStyle.Symbolic? ==> r == sym.comparison(op)
    ensures style.cmpOpStyle.Written? ==> r == WithWrittenStyle(ComparisonName(op), style.cmpOpStyle.written)
  {
    if style.cmpOpStyle.Symbolic? then sym.comparison(op)
    else WithWrittenStyle(ComparisonName(op), style.cmpOpStyle.written)
  }

  /** `generateValue` (src/codegen/arguments.ts:54-59) writes nothing. */
  function GenerateValue(): (r: string)
    ensures |r| == 0
  {
    ""
  }

  /** `generateBoolean` (src/codegen/arguments.ts:61-66). */
  function GenerateBoolean(b: bool): (r: string)
    ensures b <==> r == "true"
    ensures !b <==> r == "false"
  {
    if b then "true" else "false"
  }

  /** `generateString` (src/codegen/arguments.ts:68-73): between quotes,
    * nothing escaped. */
  function GenerateString(s: string): (r: string)
    ensures r == Quote(s)
  {
    "\"" + s + "\""
  }

  // ---------------------------------------------------------------------
  // Written operators can be read back

  /** Lower-case letters and spaces only. */
  predicate LowerWords(n: string)
  {
    forall i :: 0 <= i < |n| ==> IsLower(n[i]) || n[i] == ' '
  }

  /** Lowering a written name gives back the name, whatever the letter case. */
  lemma LowerCased(n: string, cap: Capitalization)
    requires LowerWords(n)
    ensures Lower(Cased(n, cap)) == n
  {
    var r := Cased(n, cap);
    forall i | 0 <= i < |n|
      ensures LowerChar(r[i]) == n[i]
    {
      var c := n[i];
      assert LowerChar(c) == c;
      CaseRoundTrip(c);
      if cap == Capitalized {
        assert r[i] == if i == 0 || n[i - 1] == ' ' then UpperChar(LowerChar(n[i])) else LowerChar(n[i]);
      }
    }
  }

  /** Two names written in the same style give the same text only if they
    * are the same name. */
  lemma WrittenInjective(n: string, m: string, w: WrittenStyle)
    requires LowerWords(n) && LowerWords(m)
    requires WithWrittenStyle(n, w) == WithWrittenStyle(m, w)
    ensures n == m
  {
    var a := Cased(n, w.capitalization);
    var b := Cased(m, w.capitalization);
    if (w.quoted || ' ' in n) && !(w.quoted || ' ' in m) {
      assert false;
    }
    if !(w.quoted || ' ' in n) && (w.quoted || ' ' in m) {
      assert false;
    }
    if w.quoted || ' ' in n {
      assert a == Quote(a)[1..|a| + 1] == Quote(b)[1..|b| + 1] == b;
    }
    LowerCased(n, w.capitalization);
    LowerCased(m, w.capitalization);
  }

  /** In a written style the text determines the operation. */
  lemma WrittenOperationDetermines(a: Operation, b: Operation, style: CodeStyle, sym: SymbolTables)
    requires style.binOpStyle.Written?
    requires GenerateOperation(a, style, sym) == GenerateOperation(b, style, sym)
    ensures a == b
  {
    OperationNameLower(a);
    OperationNameLower(b);
    WrittenInjective(OperationName(a), OperationName(b), style.binOpStyle.written);
    OperationNameInjective(a, b);
  }

  /** In a written style the text determines the comparison. */
  lemma WrittenComparisonDetermines(a: Comparison, b: Comparison, style: CodeStyle, sym: SymbolTables)
    requires style.cmpOpStyle.Written?
    requires GenerateComparison(a, style, sym) == GenerateComparison(b, style, sym)
    ensures a == b
  {
    ComparisonNameLower(a);
    ComparisonNameLower(b);
    WrittenInjective(ComparisonName(a), ComparisonName(b), style.cmpOpStyle.written);
    ComparisonNameInjective(a, b);
  }

  lemma OperationNameLower(op: Operation)
    ensures LowerWords(OperationName(op))
  {
    var n := OperationName(op);
    assert |n| == 3 && IsLower(n[0]) && IsLower(n[1]) && IsLower(n[2]);
  }

  lemma OperationNameInjective(a: Operation, b: Operation)
    requires OperationName(a) == OperationName(b)
    ensures a == b
  {
    var n := OperationName(a);
    assert n[0] == OperationName(b)[0] && n[1] == OperationName(b)[1];
  }

  lemma ComparisonNameLower(op: Comparison)
    ensures LowerWords(ComparisonName(op))
  {
    var n := ComparisonName(op);
    forall i | 0 <= i < |n|
      ensures IsLower(n[i]) || n[i] == ' '
    {
    }
  }

  lemma ComparisonNameInjective(a: Comparison, b: Comparison)
    requires ComparisonName(a) == ComparisonName(b)
    ensures a == b
  {
    assert |ComparisonName(a)| == |ComparisonName(b)|;
  }

  /** Every comparison name but `equals` has a space, so in a written style
    * it is always quoted. */
  lemma WrittenComparisonQuoted(op: Comparison, style: CodeStyle, sym: SymbolTables)
    requires style.cmpOpStyle.Written? && op != EqualsCmp
    ensures GenerateComparison(op, style, sym) == Quote(Cased(ComparisonName(op), style.cmpOpStyle.written.capitalization))
  {
    var n := ComparisonName(op);
    assert n[4] == ' ' || n[7] == ' ';
  }
}
