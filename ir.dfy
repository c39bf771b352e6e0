/** The spanned intermediate representation of src/ir.ts and its
  * span-free ("bare") counterpart. A node is a type tag plus an ordered list
  * of fields: the order is the order in which the parser assigned them,
  * which is the key order `irKeys` reports. */
module Ir {
  import opened Spans
  import opened Wrappers
  import opened NodeTypes

  /** A teleport or sound target (the `Location` value of the parser). */
  datatype Location = LocationCustom(coordinates: string) | LocationSpawn | LocationInvokers

  /** The leaf values a field can hold. Floating-point numbers keep their raw
    * text. */
  datatype Prim =
    | PUndefined
    | PNull
    | PBool(b: bool)
    | PInt(i: int)
    | PStr(s: string)
    | PFloat(raw: string)
    | PLocation(loc: Location)

  /** What a spanned field holds: a leaf, or a list of nested nodes (the
    * actions of a block, the conditions of a conditional). */
  datatype IrValue = IPrim(p: Prim) | INodes(nodes: seq<IrNode>)

  /** A field `name: { value, span }`. */
  datatype Field = Field(name: string, value: IrValue, span: Span)

  /** An action, condition or holder: `{ type, kwSpan, ...fields, span }`. */
  datatype IrNode = IrNode(tag: NodeType, kwSpan: Span, fields: seq<Field>, span: Span)

  /** The unwrapped forms: spans and keyword spans removed. */
  datatype BareValue = BPrim(p: Prim) | BNodes(nodes: seq<Bare>)
  datatype Bare = Bare(tag: NodeType, fields: seq<(string, BareValue)>)

  /** The field names of a node in order (`irKeys`, src/ir.ts:72-74). */
  function IrKeys(n: IrNode): (keys: seq<string>)
    ensures |keys| == |n.fields|
    ensures forall i :: 0 <= i < |keys| ==> keys[i] == n.fields[i].name
  {
    FieldNames(n.fields)
  }

  function FieldNames(fs: seq<Field>): (keys: seq<string>)
    ensures |keys| == |fs|
    ensures forall i :: 0 <= i < |keys| ==> keys[i] == fs[i].name
  {
    if |fs| == 0 then [] else [fs[0].name] + FieldNames(fs[1..])
  }

  /** The field names of a bare node in order. */
  function BareKeys(b: Bare): (keys: seq<string>)
    ensures |keys| == |b.fields|
    ensures forall i :: 0 <= i < |keys| ==> keys[i] == b.fields[i].0
  {
    BareFieldNames(b.fields)
  }

  function BareFieldNames(fs: seq<(string, BareValue)>): (keys: seq<string>)
    ensures |keys| == |fs|
    ensures forall i :: 0 <= i < |keys| ==> keys[i] == fs[i].0
  {
    if |fs| == 0 then [] else [fs[0].0] + BareFieldNames(fs[1..])
  }

  /** The value of the first field called `name`, if any. */
  function FieldValue(fs: seq<Field>, name: string): (r: Option<IrValue>)
    ensures r.Some? <==> name in FieldNames(fs)
  {
    if |fs| == 0 then None
    else if fs[0].name == name then Some(fs[0].value)
    else FieldValue(fs[1..], name)
  }

  /** The first field called `name`, if any. */
  function FindField(fs: seq<Field>, name: string): (r: Option<Field>)
    ensures r.Some? <==> name in FieldNames(fs)
    ensures r.Some? ==> r.value in fs && r.value.name == name
  {
    if |fs| == 0 then None
    else if fs[0].name == name then Some(fs[0])
    else FindField(fs[1..], name)
  }

  /** `unwrapIr`/`unwrapTransform` (src/ir.ts:42-54): keep the type, drop
    * `kwSpan` and `span`, unwrap every field in order. */
  function UnwrapIr(n: IrNode): (b: Bare)
    ensures b.tag == n.tag
    ensures BareKeys(b) == IrKeys(n)
    decreases n, 2
  {
    Bare(n.tag, UnwrapFields(n.fields))
  }

  function UnwrapFields(fs: seq<Field>): (r: seq<(string, BareValue)>)
    ensures |r| == |fs|
    ensures forall i :: 0 <= i < |fs| ==> r[i].0 == fs[i].name
    decreases fs, 1
  {
    if |fs| == 0 then []
    else [(fs[0].name, UnwrapValue(fs[0].value))] + UnwrapFields(fs[1..])
  }

  /** `unwrapValue` (src/ir.ts:56-70): a spanned value becomes its unwrapped
    * content, a list is unwrapped elementwise, a leaf is kept. */
  function UnwrapValue(v: IrValue): (r: BareValue)
    ensures v.IPrim? <==> r.BPrim?
    ensures v.IPrim? ==> r.p == v.p
    ensures v.INodes? ==> |r.nodes| == |v.nodes|
    decreases v, 0
  {
    match v
    case IPrim(p) => BPrim(p)
    case INodes(ns) => BNodes(UnwrapNodes(ns))
  }

  function UnwrapNodes(ns: seq<IrNode>): (r: seq<Bare>)
    ensures |r| == |ns|
    ensures forall i :: 0 <= i < |ns| ==> r[i].tag == ns[i].tag
    decreases ns, 3
  {
    if |ns| == 0 then [] else [UnwrapIr(ns[0])] + UnwrapNodes(ns[1..])
  }

  /** Two trees that differ at most in their spans. */
  predicate SameShape(a: IrNode, b: IrNode)
    decreases a, 2
  {
    a.tag == b.tag && SameFields(a.fields, b.fields)
  }

  predicate SameFields(fs: seq<Field>, gs: seq<Field>)
    decreases fs, 1
  {
    |fs| == |gs|
    && (|fs| > 0 ==>
          fs[0].name == gs[0].name && SameValue(fs[0].value, gs[0].value)
          && SameFields(fs[1..], gs[1..]))
  }

  predicate SameValue(v: IrValue, w: IrValue)
    decreases v, 0
  {
    match v
    case IPrim(p) => w == IPrim(p)
    case INodes(ns) => w.INodes? && SameNodes(ns, w.nodes)
  }

  predicate SameNodes(ns: seq<IrNode>, ms: seq<IrNode>)
    decreases ns, 3
  {
    |ns| == |ms| && (|ns| > 0 ==> SameShape(ns[0], ms[0]) && SameNodes(ns[1..], ms[1..]))
  }

  /** Unwrapping forgets exactly the spans: two trees unwrap to the same bare
    * tree iff they differ only in spans. */
  lemma {:induction false} UnwrapForgetsOnlySpans(a: IrNode, b: IrNode)
    ensures UnwrapIr(a) == UnwrapIr(b) <==> SameShape(a, b)
    decreases a, 2
  {
    UnwrapFieldsForgetsOnlySpans(a.fields, b.fields);
  }

  lemma {:induction false} UnwrapFieldsForgetsOnlySpans(fs: seq<Field>, gs: seq<Field>)
    ensures UnwrapFields(fs) == UnwrapFields(gs) <==> SameFields(fs, gs)
    decreases fs, 1
  {
    if |fs| > 0 && |gs| > 0 {
      UnwrapValueForgetsOnlySpans(fs[0].value, gs[0].value);
      UnwrapFieldsForgetsOnlySpans(fs[1..], gs[1..]);
      var r := UnwrapFields(fs);
      var q := UnwrapFields(gs);
      assert r == [r[0]] + r[1..];
      assert q == [q[0]] + q[1..];
    }
  }

  lemma {:induction false} UnwrapValueForgetsOnlySpans(v: IrValue, w: IrValue)
    ensures UnwrapValue(v) == UnwrapValue(w) <==> SameValue(v, w)
    decreases v, 0
  {
    match v
    case IPrim(p) =>
    case INodes(ns) =>
      if w.INodes? {
        UnwrapNodesForgetsOnlySpans(ns, w.nodes);
      }
  }

  lemma {:induction false} UnwrapNodesForgetsOnlySpans(ns: seq<IrNode>, ms: seq<IrNode>)
    ensures UnwrapNodes(ns) == UnwrapNodes(ms) <==> SameNodes(ns, ms)
    decreases ns, 3
  {
    if |ns| > 0 && |ms| > 0 {
      UnwrapForgetsOnlySpans(ns[0], ms[0]);
      UnwrapNodesForgetsOnlySpans(ns[1..], ms[1..]);
      var r := UnwrapNodes(ns);
      var q := UnwrapNodes(ms);
      assert r == [r[0]] + r[1..];
      assert q == [q[0]] + q[1..];
    }
  }

  /** Unwrapping a list keeps its length and order: element `i` of the
    * result is element `i` unwrapped (src/ir.ts:59-61). */
  lemma {:induction false} UnwrapNodesElementwise(ns: seq<IrNode>)
    ensures forall i :: 0 <= i < |ns| ==> UnwrapNodes(ns)[i] == UnwrapIr(ns[i])
    decreases |ns|
  {
    if |ns| > 0 {
      UnwrapNodesElementwise(ns[1..]);
      assert forall i :: 1 <= i < |ns| ==> ns[1..][i - 1] == ns[i];
    }
  }

  /** A field keeps its name, and its value is unwrapped in place. */
  lemma {:induction false} UnwrapFieldsElementwise(fs: seq<Field>)
    ensures forall i :: 0 <= i < |fs| ==> UnwrapFields(fs)[i] == (fs[i].name, UnwrapValue(fs[i].value))
    decreases |fs|
  {
    if |fs| > 0 {
      UnwrapFieldsElementwise(fs[1..]);
      assert forall i :: 1 <= i < |fs| ==> fs[1..][i - 1] == fs[i];
    }
  }

  /** Unwrapping keeps `null`, `undefined` and every other leaf unchanged
    * (src/ir.ts:57, 69). */
  lemma UnwrapKeepsLeaves(p: Prim)
    ensures UnwrapValue(IPrim(p)) == BPrim(p)
  {
  }
}
