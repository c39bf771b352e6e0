/** Text edits and their application (src/transform/edit.ts). An edit
  * replaces a span of the ORIGINAL source with new text; `applyEdits`
  * applies a list of them one after the other, shifting each span by the
  * length change the earlier edits caused. */
module TextEdits {
  import opened Spans

  /** `{ span, text }`; `edit(span, text)` of src/transform/edit.ts:8-10 is
    * this constructor. */
  datatype TextEdit = TextEdit(span: Span, text: string)

  /** An index of `s.slice` resolved against a text of length `len`: a
    * negative index counts from the end, and the result is clamped. */
  function SliceIndex(i: int, len: nat): (r: nat)
    ensures r <= len
    ensures 0 <= i <= len ==> r == i
  {
    if i < 0 then (if len + i < 0 then 0 else len + i)
    else if i > len then len
    else i
  }

  /** `s.slice(a, b)`: empty when the resolved end precedes the resolved
    * start. */
  function Slice(s: string, a: int, b: int): (r: string)
    ensures 0 <= a <= b <= |s| ==> r == s[a..b]
    ensures |r| <= |s|
  {
    var x := SliceIndex(a, |s|);
    var y := SliceIndex(b, |s|);
    if x <= y then s[x..y] else ""
  }

  /** How much an edit changes the length: `text.length - (end - start)`. */
  function Delta(e: TextEdit): int
  {
    |e.text| - (e.span.end - e.span.start)
  }

  /** The length change of a whole list. */
  function SumDelta(edits: seq<TextEdit>): int
  {
    if |edits| == 0 then 0 else SumDelta(edits[..|edits| - 1]) + Delta(edits[|edits| - 1])
  }

  /** The texts of a list of edits, concatenated in order. */
  function Texts(edits: seq<TextEdit>): string
  {
    if |edits| == 0 then "" else Texts(edits[..|edits| - 1]) + edits[|edits| - 1].text
  }

  /** One round of the loop of src/transform/edit.ts:15-22: the span shifted
    * by `offset`, replaced by the edit's text. */
  function ApplyOne(src: string, e: TextEdit, offset: int): string
  {
    var start := e.span.start + offset;
    var end := e.span.end + offset;
    Slice(src, 0, start) + e.text + Slice(src, end, |src|)
  }

  /** The text and the offset the loop holds between two rounds. */
  datatype Progress = Progress(text: string, offset: int)

  /** One round of the loop on the text and the offset. */
  function Step(p: Progress, e: TextEdit): Progress
  {
    Progress(ApplyOne(p.text, e, p.offset), p.offset + Delta(e))
  }

  /** Where the loop stands after the rounds of `edits`. */
  function Run(src: string, edits: seq<TextEdit>): Progress
    decreases |edits|
  {
    if |edits| == 0 then Progress(src, 0)
    else Step(Run(src, edits[..|edits| - 1]), edits[|edits| - 1])
  }

  /** What `applyEdits(src, edits)` returns. */
  function Applied(src: string, edits: seq<TextEdit>): string
  {
    Run(src, edits).text
  }

  /** The end of the last edit, or 0 for none. */
  function End(edits: seq<TextEdit>): nat
  {
    if |edits| == 0 then 0 else edits[|edits| - 1].span.end
  }

  /** The edits lie inside `src` and follow each other: each starts no
    * earlier than the end of the previous one. */
  predicate Ordered(src: string, edits: seq<TextEdit>)
    decreases |edits|
  {
    |edits| == 0
    || (Ordered(src, edits[..|edits| - 1])
        && End(edits[..|edits| - 1]) <= edits[|edits| - 1].span.start
        && edits[|edits| - 1].span.start <= edits[|edits| - 1].span.end <= |src|)
  }

  /** The original text up to the end of the last edit, with the span of
    * every edit replaced by its text. */
  function Patched(src: string, edits: seq<TextEdit>): string
    requires Ordered(src, edits)
    decreases |edits|
  {
    if |edits| == 0 then ""
    else
      var init := edits[..|edits| - 1];
      var e := edits[|edits| - 1];
      Patched(src, init) + src[End(init)..e.span.start] + e.text
  }

  /** The reference meaning of a list of ordered edits: the original text
    * with every edit's span of the ORIGINAL replaced by its text. */
  function Patch(src: string, edits: seq<TextEdit>): string
    requires Ordered(src, edits)
  {
    Patched(src, edits) + src[End(edits)..]
  }

  /** `applyEdits` (src/transform/edit.ts:12-25). */
  method ApplyEdits(src: string, edits: seq<TextEdit>) returns (r: string)
    ensures r == Applied(src, edits)
    ensures |edits| == 0 ==> r == src
    ensures Ordered(src, edits) ==> r == Patch(src, edits)
    ensures Ordered(src, edits) ==> |r| == |src| + SumDelta(edits)
  {
    r := src;
    var offset := 0;
    var i := 0;
    while i < |edits|
      invariant 0 <= i <= |edits|
      invariant Run(src, edits[..i]) == Progress(r, offset)
    {
      RunSnoc(src, edits, i, r, offset);
      r, offset := ApplyOne(r, edits[i], offset), offset + Delta(edits[i]);
      i := i + 1;
    }
    assert edits[..i] == edits;
    if Ordered(src, edits) {
      ApplyIsPatch(src, edits);
    }
  }

  /** The loop after one more round. */
  lemma RunSnoc(src: string, edits: seq<TextEdit>, i: nat, r: string, offset: int)
    requires i < |edits| && Run(src, edits[..i]) == Progress(r, offset)
    ensures Run(src, edits[..i + 1]) == Step(Progress(r, offset), edits[i])
  {
    assert edits[..i + 1][..i] == edits[..i];
  }

  // ---------------------------------------------------------------------
  // Laws of applyEdits

  /** Every span refers to the original text: after the rounds of ordered
    * edits the loop holds the patched text followed by the rest of the
    * original, and its offset is how far the two have drifted apart. */
  lemma {:induction false} RunOrdered(src: string, edits: seq<TextEdit>)
    requires Ordered(src, edits)
    ensures End(edits) <= |src|
    ensures Run(src, edits)
      == Progress(Patched(src, edits) + src[End(edits)..], |Patched(src, edits)| - End(edits))
    decreases |edits|
  {
    if |edits| > 0 {
      var init := edits[..|edits| - 1];
      RunOrdered(src, init);
      StepOrdered(src, edits[|edits| - 1], Run(src, init), Patched(src, init), End(init));
    }
  }

  /** One round, with the offset of the text produced so far, replaces the
    * edit's span of the original. */
  lemma StepOrdered(src: string, e: TextEdit, p: Progress, prefix: string, from: nat)
    requires from <= e.span.start <= e.span.end <= |src|
    requires p == Progress(prefix + src[from..], |prefix| - from)
    ensures var done := prefix + src[from..e.span.start] + e.text;
      Step(p, e) == Progress(done + src[e.span.end..], |done| - e.span.end)
  {
    var rest := src[from..];
    var offset := |prefix| - from;
    SliceAfterPrefix(prefix, rest, e.span.start - from, e.span.start + offset);
    SliceRestAfterPrefix(prefix, rest, e.span.end - from, e.span.end + offset);
    assert rest[..e.span.start - from] == src[from..e.span.start];
    assert rest[e.span.end - from..] == src[e.span.end..];
    var done := prefix + src[from..e.span.start] + e.text;
    assert Step(p, e).text == done + src[e.span.end..];
    assert Step(p, e).offset == |done| - e.span.end;
  }

  /** Slicing behind a prefix of known length. */
  lemma SliceAfterPrefix(prefix: string, rest: string, a: nat, i: int)
    requires a <= |rest| && i == |prefix| + a
    ensures Slice(prefix + rest, 0, i) == prefix + rest[..a]
  {
    assert (prefix + rest)[0..i] == prefix + rest[..a];
  }

  lemma SliceRestAfterPrefix(prefix: string, rest: string, b: nat, j: int)
    requires b <= |rest| && j == |prefix| + b
    ensures Slice(prefix + rest, j, |prefix + rest|) == rest[b..]
  {
    assert (prefix + rest)[j..|prefix + rest|] == rest[b..];
  }

  /** Applying ordered edits is patching the original. */
  lemma ApplyIsPatch(src: string, edits: seq<TextEdit>)
    requires Ordered(src, edits)
    ensures Applied(src, edits) == Patch(src, edits)
    ensures |Applied(src, edits)| == |src| + SumDelta(edits)
  {
    RunOrdered(src, edits);
    PatchLength(src, edits);
  }

  /** The result is as long as the original plus each edit's length
    * change. */
  lemma PatchLength(src: string, edits: seq<TextEdit>)
    requires Ordered(src, edits)
    ensures |Patch(src, edits)| == |src| + SumDelta(edits)
  {
    RunOrdered(src, edits);
    PatchedLength(src, edits);
  }

  lemma {:induction false} PatchedLength(src: string, edits: seq<TextEdit>)
    requires Ordered(src, edits)
    ensures |Patched(src, edits)| == End(edits) + SumDelta(edits)
    decreases |edits|
  {
    if |edits| > 0 {
      PatchedLength(src, edits[..|edits| - 1]);
    }
  }

  /** Zero-width edits at one position are ordered, and patch in their
    * texts there in list order. */
  lemma {:induction false} PatchedInsertions(src: string, edits: seq<TextEdit>, p: nat)
    requires p <= |src|
    requires forall i :: 0 <= i < |edits| ==> edits[i].span == Span(p, p)
    ensures Ordered(src, edits)
    ensures |edits| > 0 ==> End(edits) == p && Patched(src, edits) == src[..p] + Texts(edits)
    decreases |edits|
  {
    if |edits| > 0 {
      var init := edits[..|edits| - 1];
      var x := edits[|edits| - 1];
      PatchedInsertions(src, init, p);
      assert edits == init + [x];
      PatchSnoc(src, init, x);
      if |init| == 0 {
        assert src[0..p] == src[..p];
      } else {
        assert src[p..p] == "";
      }
    }
  }

  /** Applying zero-width edits at one position inserts their texts there,
    * in list order, keeping the text on both sides. */
  lemma ApplyInsertions(src: string, edits: seq<TextEdit>, p: nat)
    requires p <= |src|
    requires forall i :: 0 <= i < |edits| ==> edits[i].span == Span(p, p)
    ensures Ordered(src, edits)
    ensures Applied(src, edits) == src[..p] + Texts(edits) + src[p..]
  {
    PatchedInsertions(src, edits, p);
    ApplyIsPatch(src, edits);
    if |edits| == 0 {
      assert src == src[..p] + src[p..];
    }
  }

  /** Erasing `[s, e)` and then inserting at `e` replaces `[s, e)`: both
    * lists give the text with `[s, e)` replaced. */
  lemma EraseThenInsert(src: string, two: seq<TextEdit>, one: seq<TextEdit>, s: nat, e: nat, t: string)
    requires s <= e <= |src|
    requires two == [TextEdit(Span(s, e), ""), TextEdit(Span(e, e), t)]
    requires one == [TextEdit(Span(s, e), t)]
    ensures Applied(src, two) == Applied(src, one) == src[..s] + t + src[e..]
  {
    var erase := TextEdit(Span(s, e), "");
    PatchOne(src, erase);
    PatchSnoc(src, [erase], TextEdit(Span(e, e), t));
    assert two == [erase] + [TextEdit(Span(e, e), t)];
    PatchOne(src, TextEdit(Span(s, e), t));
    ApplyIsPatch(src, two);
    ApplyIsPatch(src, one);
    assert src[e..e] == "" && src[..s] + "" == src[..s];
  }

  /** A single edit patches its span. */
  lemma PatchOne(src: string, x: TextEdit)
    requires x.span.start <= x.span.end <= |src|
    ensures Ordered(src, [x]) && End([x]) == x.span.end
    ensures Patched(src, [x]) == src[..x.span.start] + x.text
  {
    var init := [x][..0];
    assert init == [];
    assert Ordered(src, init) && End(init) == 0 && Patched(src, init) == "";
    assert Patched(src, [x]) == Patched(src, init) + src[0..x.span.start] + x.text;
    assert "" + src[0..x.span.start] == src[..x.span.start];
  }

  /** An edit after the last one extends the patched text. */
  lemma PatchSnoc(src: string, edits: seq<TextEdit>, x: TextEdit)
    requires Ordered(src, edits)
    requires End(edits) <= x.span.start <= x.span.end <= |src|
    ensures Ordered(src, edits + [x]) && End(edits + [x]) == x.span.end
    ensures Patched(src, edits + [x]) == Patched(src, edits) + src[End(edits)..x.span.start] + x.text
  {
    assert (edits + [x])[..|edits|] == edits;
  }

  /** Text before the first edit and after the last one is kept. */
  lemma OutsideKept(src: string, edits: seq<TextEdit>)
    requires Ordered(src, edits) && |edits| > 0
    ensures edits[0].span.start <= |src| && End(edits) <= |src|
    ensures var r := Patch(src, edits);
      var tail := src[End(edits)..];
      src[..edits[0].span.start] <= r
      && |tail| <= |r| && r[|r| - |tail|..] == tail
  {
    PatchedStart(src, edits);
    RunOrdered(src, edits);
  }

  /** Patching keeps the text before the first edit. */
  lemma {:induction false} PatchedStart(src: string, edits: seq<TextEdit>)
    requires Ordered(src, edits) && |edits| > 0
    ensures edits[0].span.start <= |src|
    ensures src[..edits[0].span.start] <= Patched(src, edits)
    decreases |edits|
  {
    var init := edits[..|edits| - 1];
    if |edits| == 1 {
      assert src[0..edits[0].span.start] == src[..edits[0].span.start];
    } else {
      PatchedStart(src, init);
      assert init[0] == edits[0];
    }
  }
}
