/** The JavaScript value operations the transform and the code generator
  * apply to bare field values: `String(x)` (template literals and
  * `toString`), truthiness, `===`, and the `undefined`/`null` test. */
module JsValues {
  import opened Strings
  import opened Ir

  /** `x === undefined || x === null`. */
  predicate Nullish(v: BareValue)
  {
    v == BPrim(PUndefined) || v == BPrim(PNull)
  }

  /** `String(p)` of a leaf. A location is an object, so it prints as
    * `[object Object]`; a float keeps its raw text. */
  function PrimText(p: Prim): string
  {
    match p
    case PUndefined => "undefined"
    case PNull => "null"
    case PBool(b) => if b then "true" else "false"
    case PInt(i) => IntText(i)
    case PStr(s) => s
    case PFloat(raw) => raw
    case PLocation(_) => "[object Object]"
  }

  /** `String(xs)` of an array of `n` objects: their texts joined by commas. */
  function ObjectsText(n: nat): (r: string)
    ensures n == 0 <==> r == ""
  {
    if n == 0 then "" else if n == 1 then "[object Object]" else "[object Object]," + ObjectsText(n - 1)
  }

  /** `String(v)` of a bare value. */
  function JsText(v: BareValue): string
  {
    match v
    case BPrim(p) => PrimText(p)
    case BNodes(ns) => ObjectsText(|ns|)
  }

  /** Whether a float's raw text denotes a non-zero number: some digit other
    * than `0` occurs in it. */
  predicate NonZeroRaw(raw: string)
  {
    exists i :: 0 <= i < |raw| && '1' <= raw[i] <= '9'
  }

  /** JavaScript truthiness. */
  predicate Truthy(v: BareValue)
  {
    match v
    case BPrim(p) =>
      (match p
       case PUndefined => false
       case PNull => false
       case PBool(b) => b
       case PInt(i) => i != 0
       case PStr(s) => s != ""
       case PFloat(raw) => NonZeroRaw(raw)
       case PLocation(_) => true)
    case BNodes(_) => true
  }

  /** `a === b` between two leaves. A location is an object built anew by
    * every parse, so it is never identical to a value of another tree. */
  predicate PrimStrictEq(a: Prim, b: Prim)
  {
    !a.PLocation? && !b.PLocation? && a == b
  }

  /** `from.value === to`: a list in the old tree is an array object of its
    * own, so only leaves can be identical. */
  predicate StrictEq(from: IrValue, to: BareValue)
  {
    from.IPrim? && to.BPrim? && PrimStrictEq(from.p, to.p)
  }

  /** A leaf is identical to its own unwrapped form unless it is an object;
    * a list never is. */
  lemma StrictEqUnwrap(v: IrValue)
    ensures StrictEq(v, UnwrapValue(v)) <==> v.IPrim? && !v.p.PLocation?
  {
  }

  /** `undefined` and `null` are the falsy leaves that are also nullish, and
    * every list is truthy. */
  lemma NullishIsFalsy(v: BareValue)
    ensures Nullish(v) ==> !Truthy(v)
    ensures v.BNodes? ==> Truthy(v) && !Nullish(v)
  {
  }
}
