/** src/helpers.ts: structural comparison of plain objects and the action
  * keyword list used by error recovery. */
module Helpers {
  /** The primitive JavaScript values that the token patterns hold. */
  datatype JsVal = Undefined | Null | Bool(b: bool) | Num(n: int) | Text(s: string)

  /** A plain object: its own keys in insertion order, each with its value. */
  type Obj = seq<(string, JsVal)>

  /** `Object.keys(o)` of an object whose entries are listed in insertion
    * order, whatever their values: a plain object here, a descriptor table
    * in `Semantics`. */
  function Keys<V>(o: seq<(string, V)>): (ks: seq<string>)
    ensures |ks| == |o|
    ensures forall i :: 0 <= i < |o| ==> ks[i] == o[i].0
  {
    if |o| == 0 then [] else [o[0].0] + Keys(o[1..])
  }

  /** `o[k]`: the value of the first entry with key `k`, `undefined` when absent. */
  function Get(o: Obj, k: string): JsVal
  {
    if |o| == 0 then Undefined
    else if o[0].0 == k then o[0].1
    else Get(o[1..], k)
  }

  /** `keys.every(key => src[key] === target[key])`. */
  function EveryKeyAgrees(src: Obj, target: Obj, keys: seq<string>): bool
  {
    if |keys| == 0 then true
    else Get(src, keys[0]) == Get(target, keys[0]) && EveryKeyAgrees(src, target, keys[1..])
  }

  /** `partialEq(src, target)` (src/helpers.ts:2-6). */
  function PartialEq(src: Obj, target: Obj): bool
  {
    EveryKeyAgrees(src, target, Keys(target))
  }

  lemma {:induction false} EveryKeyAgreesMeaning(src: Obj, target: Obj, keys: seq<string>)
    ensures EveryKeyAgrees(src, target, keys)
        <==> forall i :: 0 <= i < |keys| ==> Get(src, keys[i]) == Get(target, keys[i])
  {
    if |keys| > 0 {
      EveryKeyAgreesMeaning(src, target, keys[1..]);
      assert forall i :: 1 <= i < |keys| ==> keys[i] == keys[1..][i - 1];
    }
  }

  /** partialEq holds iff every key of the target has a `===`-equal value in
    * the source. */
  lemma PartialEqMeaning(src: Obj, target: Obj)
    ensures PartialEq(src, target)
        <==> forall i :: 0 <= i < |target| ==> Get(src, target[i].0) == Get(target, target[i].0)
  {
    EveryKeyAgreesMeaning(src, target, Keys(target));
  }

  lemma {:induction false} KeysAppend(a: Obj, b: Obj)
    ensures Keys(a + b) == Keys(a) + Keys(b)
  {
  }

  lemma {:induction false} GetAppend(a: Obj, b: Obj, k: string)
    ensures Get(a + b, k) == if k in Keys(a) then Get(a, k) else Get(b, k)
  {
    if |a| > 0 {
      assert (a + b)[1..] == a[1..] + b;
      GetAppend(a[1..], b, k);
    } else {
      assert a + b == b;
    }
  }

  /** partialEq checks each key of the target. */
  lemma PartialEqByKeys(src: Obj, target: Obj)
    ensures PartialEq(src, target)
        <==> forall k :: k in Keys(target) ==> Get(src, k) == Get(target, k)
  {
    var ks := Keys(target);
    EveryKeyAgreesMeaning(src, target, ks);
    assert forall k :: k in ks ==> exists i :: 0 <= i < |ks| && ks[i] == k;
  }

  /** An empty target matches every source. */
  lemma PartialEqEmptyTarget(src: Obj)
    ensures PartialEq(src, [])
  {
  }

  /** Keys that only the source has do not matter: two sources that agree on
    * the target's keys are matched alike. */
  lemma PartialEqIgnoresOtherKeys(src1: Obj, src2: Obj, target: Obj)
    requires forall i :: 0 <= i < |target| ==> Get(src1, target[i].0) == Get(src2, target[i].0)
    ensures PartialEq(src1, target) == PartialEq(src2, target)
  {
    PartialEqMeaning(src1, target);
    PartialEqMeaning(src2, target);
  }

  /** The keywords that `isAction` accepts, in its order (src/helpers.ts:9-15). */
  const ACTION_KEYWORDS: seq<string> := [
    "applyLayout", "applyPotion", "balanceTeam", "cancelEvent", "changeHealth",
    "hungerLevel", "maxHealth", "changePlayerGroup", "clearEffects", "closeMenu",
    "actionBar", "displayMenu", "title", "enchant", "exit", "failParkour",
    "fullHeal", "xpLevel", "giveItem", "houseSpawn", "kill", "parkCheck",
    "pause", "sound", "removeItem", "resetInventory", "chat", "lobby",
    "compassTarget", "gamemode", "setTeam", "tp", "consumeItem", "stat"
  ]

  /** `names.includes(name)`: a scan from the front. */
  predicate Includes(names: seq<string>, name: string)
    decreases |names|
  {
    |names| > 0 && (names[0] == name || Includes(names[1..], name))
  }

  /** The scan finds exactly the members of the list. */
  lemma {:induction false} IncludesIsMembership(names: seq<string>, name: string)
    ensures Includes(names, name) <==> name in names
    decreases |names|
  {
    if |names| > 0 {
      IncludesIsMembership(names[1..], name);
      assert names == [names[0]] + names[1..];
    }
  }

  /** `isAction(name)` (src/helpers.ts:8-16): `name` is one of the
    * keywords; `IsActionScans` shows this is what the scan finds. */
  predicate IsAction(name: string)
  {
    exists i :: 0 <= i < |ACTION_KEYWORDS| && ACTION_KEYWORDS[i] == name
  }

  /** `ACTION_KEYWORDS.includes(name)` accepts exactly the actions. */
  lemma IsActionScans(name: string)
    ensures IsAction(name) <==> Includes(ACTION_KEYWORDS, name)
  {
    IncludesIsMembership(ACTION_KEYWORDS, name);
  }

  /** Every keyword of the list is an action, and the scan finds it. */
  lemma IsActionAt(i: int)
    requires 0 <= i < |ACTION_KEYWORDS|
    ensures IsAction(ACTION_KEYWORDS[i]) && Includes(ACTION_KEYWORDS, ACTION_KEYWORDS[i])
  {
    IncludesIsMembership(ACTION_KEYWORDS, ACTION_KEYWORDS[i]);
  }
}
