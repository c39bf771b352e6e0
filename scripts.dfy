/** Reading a diff script the way the transform walks it: the position
  * cursor that moves to the end of every deleted or modified old element,
  * and the shape of the scripts `diff` returns for an empty side and for an
  * unchanged list. */
module Scripts {
  import opened Ir
  import opened Diffs

  /** `currentPos` after walking the entries of `s` from `start`: a delete
    * or a modify moves it to the end of its old element, an insert leaves
    * it (src/transform/actions.ts:29-43, src/transform/conditions.ts:29-42,
    * src/transform/holders.ts:17-29). */
  function Cursor(s: seq<Change>, start: nat): (r: nat)
    ensures |s| > 0 && !s[|s| - 1].Insert? ==> r == s[|s| - 1].from.span.end
    ensures (forall j :: 0 <= j < |s| ==> s[j].Insert?) ==> r == start
  {
    if |s| == 0 then start
    else if s[|s| - 1].Insert? then Cursor(s[..|s| - 1], start)
    else s[|s| - 1].from.span.end
  }

  /** The entries of an all-insert script are the inserts of its `to`
    * elements, in order. */
  lemma {:induction false} AllInserts(s: seq<Change>)
    requires forall j :: 0 <= j < |s| ==> s[j].Insert?
    ensures Froms(s) == [] && |Tos(s)| == |s|
    ensures forall j :: 0 <= j < |s| ==> s[j] == Insert(Tos(s)[j])
  {
    if |s| > 0 {
      AllInserts(s[..|s| - 1]);
      assert forall j :: 0 <= j < |s| - 1 ==> s[..|s| - 1][j] == s[j];
    }
  }

  /** The entries of an all-delete script are the deletes of its `from`
    * elements, in order. */
  lemma {:induction false} AllDeletes(s: seq<Change>)
    requires forall j :: 0 <= j < |s| ==> s[j].Delete?
    ensures Tos(s) == [] && |Froms(s)| == |s|
    ensures forall j :: 0 <= j < |s| ==> s[j] == Delete(Froms(s)[j])
  {
    if |s| > 0 {
      AllDeletes(s[..|s| - 1]);
      assert forall j :: 0 <= j < |s| - 1 ==> s[..|s| - 1][j] == s[j];
    }
  }

  /** An all-modify script pairs its `from` and `to` elements index by
    * index. */
  lemma {:induction false} AllModifies(s: seq<Change>)
    requires forall j :: 0 <= j < |s| ==> s[j].Modify?
    ensures |Froms(s)| == |s| && |Tos(s)| == |s|
    ensures forall j :: 0 <= j < |s| ==> s[j] == Modify(Froms(s)[j], Tos(s)[j])
  {
    if |s| > 0 {
      AllModifies(s[..|s| - 1]);
      assert forall j :: 0 <= j < |s| - 1 ==> s[..|s| - 1][j] == s[j];
    }
  }

  /** A script without inserts or deletes only modifies. */
  lemma {:induction false} NoEditsOnlyModifies(s: seq<Change>)
    requires Edits(s) == 0
    ensures forall j :: 0 <= j < |s| ==> s[j].Modify?
  {
    if |s| > 0 {
      NoEditsOnlyModifies(s[..|s| - 1]);
      assert forall j :: 0 <= j < |s| - 1 ==> s[..|s| - 1][j] == s[j];
    }
  }

  /** The script that modifies every element of `a` into its own unwrapped
    * form. */
  function ModifyEach(a: seq<IrNode>): seq<Change>
  {
    if |a| == 0 then [] else ModifyEach(a[..|a| - 1]) + [Modify(a[|a| - 1], UnwrapIr(a[|a| - 1]))]
  }

  lemma {:induction false} ModifyEachAt(a: seq<IrNode>)
    ensures |ModifyEach(a)| == |a|
    ensures forall j :: 0 <= j < |a| ==> ModifyEach(a)[j] == Modify(a[j], UnwrapIr(a[j]))
  {
    if |a| > 0 {
      ModifyEachAt(a[..|a| - 1]);
    }
  }

  /** It aligns `a` with its unwrapped form and has no edits. */
  lemma {:induction false} ModifyEachAligns(a: seq<IrNode>)
    ensures Aligns(ModifyEach(a), a, UnwrapNodes(a)) && Edits(ModifyEach(a)) == 0
  {
    var s := ModifyEach(a);
    ModifyEachAt(a);
    AllModifies(s);
    UnwrapNodesElementwise(a);
    assert Froms(s) == a;
    assert Tos(s) == UnwrapNodes(a);
    EditsOfModifies(s);
  }

  lemma {:induction false} EditsOfModifies(s: seq<Change>)
    requires forall j :: 0 <= j < |s| ==> s[j].Modify?
    ensures Edits(s) == 0
  {
    if |s| > 0 {
      EditsOfModifies(s[..|s| - 1]);
    }
  }

  /** Diffing a list against its own unwrapped form: the shortest script
    * modifies every element into itself, index by index. */
  lemma {:induction false} IdentityScript(a: seq<IrNode>, s: seq<Change>)
    requires Aligns(s, a, UnwrapNodes(a)) && Shortest(s, a, UnwrapNodes(a))
    ensures |s| == |a|
    ensures forall j :: 0 <= j < |a| ==> s[j] == Modify(a[j], UnwrapIr(a[j]))
  {
    ModifyEachAligns(a);
    Cheapest(s, ModifyEach(a), a, UnwrapNodes(a));
    UnchangedScript(a, s);
  }

  /** No script from `a` to `b` has fewer edits than `s`. */
  ghost predicate Shortest(s: seq<Change>, a: seq<IrNode>, b: seq<Bare>)
  {
    forall t :: Aligns(t, a, b) ==> Edits(s) <= Edits(t)
  }

  /** A shortest script has no more edits than any other one. */
  lemma {:induction false} Cheapest(s: seq<Change>, t: seq<Change>, a: seq<IrNode>, b: seq<Bare>)
    requires Shortest(s, a, b)
    requires Aligns(t, a, b)
    ensures Edits(s) <= Edits(t)
  {
  }

  /** A script without edits from `a` to its unwrapped form pairs them index
    * by index. */
  lemma {:induction false} UnchangedScript(a: seq<IrNode>, s: seq<Change>)
    requires Froms(s) == a && Tos(s) == UnwrapNodes(a) && Edits(s) == 0
    ensures |s| == |a|
    ensures forall j :: 0 <= j < |a| ==> s[j] == Modify(a[j], UnwrapIr(a[j]))
  {
    NoEditsOnlyModifies(s);
    AllModifies(s);
    UnwrapNodesElementwise(a);
    forall j | 0 <= j < |a|
      ensures s[j] == Modify(a[j], UnwrapIr(a[j]))
    {
      assert s[j] == Modify(Froms(s)[j], Tos(s)[j]);
    }
  }

  /** Every `to` of an entry is an element of the target list. */
  lemma {:induction false} ToInTos(s: seq<Change>, i: nat)
    requires i < |s| && !s[i].Delete?
    ensures s[i].to in Tos(s)
  {
    if i < |s| - 1 {
      ToInTos(s[..|s| - 1], i);
    }
  }

  /** Every `from` of an entry is an element of the source list. */
  lemma {:induction false} FromInFroms(s: seq<Change>, i: nat)
    requires i < |s| && !s[i].Insert?
    ensures s[i].from in Froms(s)
  {
    if i < |s| - 1 {
      FromInFroms(s[..|s| - 1], i);
    }
  }
}
