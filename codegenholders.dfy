/** How the code generator writes action holders (src/codegen/holders.ts). */
module CodegenHolders {
  import opened Wrappers
  import opened Strings
  import opened CodegenHelpers
  import opened CodegenActions

  /** The holders as the generator receives them; absent fields are `None`.
    * A holder of any other type is written as an error comment. */
  datatype Holder =
    | UnknownHolder(actions: Option<seq<Action>>)
    | FunctionHolder(name: Option<string>, actions: Option<seq<Action>>)
    | EventHolder(event: Option<string>, actions: Option<seq<Action>>)
    | OtherHolder(typeName: string)

  /** `holder.actions ?? []`. */
  function ActionsOf(h: Holder): seq<Action>
    requires !h.OtherHolder?
  {
    if h.actions.Some? then h.actions.value else []
  }

  /** The name after `goto function` or `goto event`: quoted when it holds a
    * space, a hint when it is missing or empty. */
  function Target(s: Option<string>): string
  {
    if Given(s) then MaybeQuote(s.value) else Hint("?")
  }

  /** The first line of a function or event holder. */
  function HeaderLine(h: Holder): string
    requires h.FunctionHolder? || h.EventHolder?
  {
    if h.FunctionHolder? then "goto function " + Target(h.name) else "goto event " + Target(h.event)
  }

  /** `generateHolder` (src/codegen/holders.ts:16-29) with
    * `generateHolderUnknown`, `generateHolderFunction` and
    * `generateHolderEvent` (src/codegen/holders.ts:31-77): an unknown
    * holder is its actions; a function or event holder is its `goto` line,
    * an empty line, then its actions. */
  function GenerateHolder(h: Holder, style: CodeStyle, w: Writers): (r: string)
    ensures h.UnknownHolder? ==> r == GenerateActions(ActionsOf(h), style, false, w)
    ensures h.FunctionHolder? || h.EventHolder? ==>
      r == HeaderLine(h) + "\n\n" + GenerateActions(ActionsOf(h), style, false, w)
    ensures h.OtherHolder? ==> r == ErrorText("Action holder not implemented")
  {
    match h
    case UnknownHolder(_) => GenerateActions(ActionsOf(h), style, false, w)
    case OtherHolder(_) => ErrorText("Action holder not implemented")
    case _ =>
      var body := GenerateActions(ActionsOf(h), style, false, w);
      HeaderJoin(HeaderLine(h), body);
      Join([HeaderLine(h), "", body], "\n")
  }

  /** A header, an empty line and a body, joined by newlines. */
  lemma HeaderJoin(header: string, body: string)
    ensures Join([header, "", body], "\n") == header + "\n\n" + body
  {
    JoinThree(header, "", body, "\n");
    assert header + "\n" + "" + "\n" + body == header + "\n\n" + body;
  }

  function HolderTexts(hs: seq<Holder>, style: CodeStyle, w: Writers): (r: seq<string>)
    ensures |r| == |hs| && forall i :: 0 <= i < |hs| ==> r[i] == GenerateHolder(hs[i], style, w)
  {
    seq(|hs|, i requires 0 <= i < |hs| => GenerateHolder(hs[i], style, w))
  }

  /** `generateHolders` (src/codegen/holders.ts:6-14): the holder texts, one
    * newline between consecutive ones. */
  function GenerateHolders(hs: seq<Holder>, style: CodeStyle, w: Writers): (r: string)
    ensures |hs| == 0 ==> r == ""
    ensures |hs| == 1 ==> r == GenerateHolder(hs[0], style, w)
  {
    Join(HolderTexts(hs, style, w), "\n")
  }

  // ---------------------------------------------------------------------
  // Laws

  /** The lines of the generated file are the lines of the holders, one
    * holder after the other. */
  lemma HolderLines(hs: seq<Holder>, style: CodeStyle, w: Writers)
    requires |hs| >= 1
    ensures Split(GenerateHolders(hs, style, w), '\n') == SplitEach(HolderTexts(hs, style, w), '\n')
  {
    SplitJoinEach(HolderTexts(hs, style, w), '\n');
  }

  /** A function or event holder whose name has no newline is its `goto`
    * line, an empty line, then the lines of its actions. */
  lemma HeaderLines(h: Holder, style: CodeStyle, w: Writers)
    requires h.FunctionHolder? || h.EventHolder?
    requires '\n' !in HeaderLine(h)
    ensures Split(GenerateHolder(h, style, w), '\n')
      == [HeaderLine(h), ""] + Split(GenerateActions(ActionsOf(h), style, false, w), '\n')
  {
    var body := GenerateActions(ActionsOf(h), style, false, w);
    HeaderSplit(HeaderLine(h), body);
  }

  lemma HeaderSplit(header: string, body: string)
    requires '\n' !in header
    ensures Split(header + "\n\n" + body, '\n') == [header, ""] + Split(body, '\n')
  {
    assert header + "\n\n" + body == header + ['\n'] + ("" + ['\n'] + body);
    SplitConcat(header, "" + ['\n'] + body, '\n');
    SplitConcat("", body, '\n');
    SplitNoSep(header, '\n');
  }

  /** A holder without actions: an unknown one writes nothing, a function
    * or event one its `goto` line and an empty line. */
  lemma EmptyHolder(h: Holder, style: CodeStyle, w: Writers)
    requires !h.OtherHolder? && ActionsOf(h) == []
    ensures h.UnknownHolder? ==> GenerateHolder(h, style, w) == ""
    ensures !h.UnknownHolder? ==> GenerateHolder(h, style, w) == HeaderLine(h) + "\n\n"
  {
  }
}
