/** The statement parsers of src/parse/actions.ts, src/parse/conditions.ts
  * and src/parse/holders.ts, together with the loops of src/parse/parser.ts
  * that call back into them (`parseCompletely`, `parseBlock`,
  * `parseDelimitedCommaSeq`). Each statement is a keyword followed by its
  * fields; the fields a keyword reads are given by a table, and one reader
  * loop (`ParseFields`) reads them in order, each with the span
  * `p.spanned` gives it. */
module ParseTree {
  import opened Wrappers
  import opened Spans
  import opened Tokens
  import opened Helpers
  import opened NodeTypes
  import opened Ir
  import opened ParserCore
  import opened Arguments
  import Semantics

  // ---------------------------------------------------------------------
  // The tables the argument readers consult

  /** The name tables of the readers over names. */
  datatype NameList = PotionNames | LobbyNames | EnchantmentNames | PermissionNames | ItemPropertyNames | ItemLocationNames

  /** The tables that live outside the parser: the names of potion effects,
    * lobbies, enchantments, permissions, item properties and item
    * locations, the sounds as (name, path) pairs, the placeholder
    * shorthands, and the numeric check on coordinate components. */
  datatype Tables = Tables(
    potions: seq<string>, lobbies: seq<string>, enchantments: seq<string>, permissions: seq<string>,
    itemProperties: seq<string>, itemLocations: seq<string>, sounds: seq<(string, string)>,
    shorthands: seq<string>, isNumeric: string -> bool)

  function NamesOf(env: Tables, w: NameList): seq<string>
  {
    match w
    case PotionNames => env.potions
    case LobbyNames => env.lobbies
    case EnchantmentNames => env.enchantments
    case PermissionNames => env.permissions
    case ItemPropertyNames => env.itemProperties
    case ItemLocationNames => env.itemLocations
  }

  /** The noun of the "Expected …" message of each reader over names
    * (src/parse/arguments.ts:236-310). */
  function NamesWhat(w: NameList): string
  {
    match w
    case PotionNames => "potion effect"
    case LobbyNames => "lobby"
    case EnchantmentNames => "enchantment"
    case PermissionNames => "permission"
    case ItemPropertyNames => "item property"
    case ItemLocationNames => "item location"
  }

  // ---------------------------------------------------------------------
  // Field readers

  /** Readers whose result is text. */
  datatype TextArg =
    | StringArg        // p.parseString
    | NameArg          // p.parseName
    | StatNameArg      // parseStatName
    | NamesArg(list: NameList)
    | SoundArg         // parseSound
    | PlaceholderArg   // parseNumericalPlaceholder
    | ItemAmountArg    // the amount of `hasItem`

  /** Readers that choose among fixed answers. */
  datatype ChoiceArg =
    | BooleanArg          // p.parseBoolean
    | OptionalBooleanArg  // an identifier read as a boolean, otherwise null
    | OperationArg        // parseOperation
    | GamemodeArg         // parseGamemode
    | ComparisonArg       // parseComparison

  /** Readers of numbers and places. */
  datatype NumberArg =
    | BoundedArg(lo: int, hi: int)  // p.parseBoundedNumber(lo, hi)
    | FloatArg                      // p.parseFloat
    | AmountArg                     // parseAmount
    | SlotArg                       // parseInventorySlot
    | LocationArg                   // parseLocation

  /** The reader of one field. */
  datatype ArgKind = Textual(text: TextArg) | Choice(choice: ChoiceArg) | Numeric(number: NumberArg) | BlockArg | ActionsArg

  /** One field of a statement: its name, its reader, and whether the
    * statement may end after it at a line end (the `title` and `hasGroup`
    * shorthands). */
  datatype FieldSyntax = FieldSyntax(name: string, arg: ArgKind, stopIfEol: bool)

  function Arg(name: string, arg: ArgKind): FieldSyntax { FieldSyntax(name, arg, false) }

  function ArgThenEol(name: string, arg: ArgKind): FieldSyntax { FieldSyntax(name, arg, true) }

  /** Every action key of the descriptor has a value. */
  predicate ActionComplete(n: IrNode)
  {
    n.tag.Act? && forall k :: k in Helpers.Keys(Semantics.ActionDescriptor(n.tag.a)) ==> k in IrKeys(n)
  }

  /** Every condition key of the descriptor has a value. */
  predicate ConditionComplete(n: IrNode)
  {
    n.tag.Cond? && forall k :: k in Helpers.Keys(Semantics.ConditionDescriptor(n.tag.c)) ==> k in IrKeys(n)
  }

  /** A list of complete actions. */
  predicate ActionList(v: IrValue)
  {
    v.INodes? && forall n :: n in v.nodes ==> ActionComplete(n)
  }

  const ITEM_AMOUNTS: set<string> := {"Any Amount", "Equal or Greater Amount"}
  const OPERATIONS: set<string> := {"increment", "decrement", "multiply", "divide", "set"}
  const GAMEMODES: set<string> := {"survival", "adventure", "creative"}
  const COMPARISONS: set<string> :=
    {"equals", "less_than", "less_than_or_equals", "greater_than", "greater_than_or_equals"}

  predicate TextFits(env: Tables, k: TextArg, v: IrValue)
  {
    v.IPrim? && v.p.PStr?
    && match k
       case StatNameArg => ValidStatName(v.p.s)
       case NamesArg(w) => v.p.s in NamesOf(env, w)
       case ItemAmountArg => v.p.s in ITEM_AMOUNTS
       case _ => true
  }

  predicate ChoiceFits(k: ChoiceArg, v: IrValue)
  {
    v.IPrim?
    && match k
       case BooleanArg => v.p.PBool?
       case OptionalBooleanArg => v.p.PBool? || v.p == PNull
       case OperationArg => v.p.PStr? && v.p.s in OPERATIONS
       case GamemodeArg => v.p.PStr? && v.p.s in GAMEMODES
       case ComparisonArg => v.p.PStr? && v.p.s in COMPARISONS
  }

  predicate NumberFits(k: NumberArg, v: IrValue)
  {
    v.IPrim?
    && match k
       case BoundedArg(lo, hi) => v.p.PInt? && lo <= v.p.i <= hi
       case FloatArg => v.p.PFloat?
       case AmountArg => (v.p.PInt? && I64_MIN <= v.p.i <= I64_MAX) || v.p.PFloat? || v.p.PStr?
       case SlotArg => (v.p.PInt? && -1 <= v.p.i <= 39) || v.p.PStr?
       case LocationArg => v.p.PLocation?
  }

  /** What a reader of kind `k` produces when it succeeds. */
  predicate ValueFits(env: Tables, k: ArgKind, v: IrValue)
  {
    match k
    case Textual(t) => TextFits(env, t, v)
    case Choice(c) => ChoiceFits(c, v)
    case Numeric(n) => NumberFits(n, v)
    case BlockArg => ActionList(v)
    case ActionsArg => ActionList(v)
  }

  /** The fields read so far are the first fields of the syntax, in order,
    * each with a value its reader can produce. */
  predicate Follows(env: Tables, syntax: seq<FieldSyntax>, fs: seq<Field>)
  {
    |fs| <= |syntax|
    && forall i :: 0 <= i < |fs| ==> fs[i].name == syntax[i].name && ValueFits(env, syntax[i].arg, fs[i].value)
  }

  /** Reading ended normally: every field was read, or a shorthand stopped at
    * a line end. */
  predicate Finished(syntax: seq<FieldSyntax>, fs: seq<Field>, t: Token)
  {
    |fs| == |syntax| || (0 < |fs| < |syntax| && syntax[|fs| - 1].stopIfEol && t.kind == Eol)
  }

  /** What the reader callback of a `parse…Recovering` left: the fields it
    * assigned, and the diagnostic it threw, if any. */
  datatype Reading = Reading(fields: seq<Field>, error: Option<Diagnostic>)

  /** The `for (const key in DESCRIPTOR) if (node[key] === undefined)` loop:
    * each descriptor key without a field gets an undefined one at `sp`,
    * after the fields already there. */
  function FillMissing(fs: seq<Field>, keys: seq<string>, sp: Span): (r: seq<Field>)
    ensures |fs| <= |r| && r[..|fs|] == fs
    decreases |keys|
  {
    if |keys| == 0 then fs
    else if keys[0] in FieldNames(fs) then FillMissing(fs, keys[1..], sp)
    else
      var f := Field(keys[0], IPrim(PUndefined), sp);
      var r := FillMissing(fs + [f], keys[1..], sp);
      assert r[..|fs|] == r[..|fs| + 1][..|fs|];
      r
  }

  /** After the fill, a name has a field exactly when it had one before or
    * is a descriptor key. */
  lemma {:induction false} FillMissingNames(fs: seq<Field>, keys: seq<string>, sp: Span)
    ensures forall k :: k in FieldNames(FillMissing(fs, keys, sp)) <==> k in FieldNames(fs) || k in keys
    decreases |keys|
  {
    if |keys| > 0 {
      KeysCons(keys);
      if keys[0] in FieldNames(fs) {
        FillMissingNames(fs, keys[1..], sp);
      } else {
        var f := Field(keys[0], IPrim(PUndefined), sp);
        FillMissingNames(fs + [f], keys[1..], sp);
        FieldNamesAppend(fs, f);
      }
    }
  }

  predicate Added(f: Field, fs: seq<Field>, keys: seq<string>, sp: Span)
  {
    f.value == IPrim(PUndefined) && f.span == sp && f.name in keys && f.name !in FieldNames(fs)
  }

  /** The fields the fill adds are undefined, at the given span, and named
    * by keys that had no field. */
  lemma {:induction false} FillMissingAdds(fs: seq<Field>, keys: seq<string>, sp: Span)
    ensures forall i :: |fs| <= i < |FillMissing(fs, keys, sp)| ==> Added(FillMissing(fs, keys, sp)[i], fs, keys, sp)
    decreases |keys|
  {
    if |keys| > 0 {
      KeysCons(keys);
      if keys[0] in FieldNames(fs) {
        FillMissingAdds(fs, keys[1..], sp);
        assert FillMissing(fs, keys, sp) == FillMissing(fs, keys[1..], sp);
      } else {
        var f := Field(keys[0], IPrim(PUndefined), sp);
        var r := FillMissing(fs + [f], keys[1..], sp);
        FillMissingAdds(fs + [f], keys[1..], sp);
        FieldNamesAppend(fs, f);
        assert FillMissing(fs, keys, sp) == r;
        assert r[|fs|] == r[..|fs| + 1][|fs|] == f;
        forall i | |fs| < i < |r|
          ensures Added(r[i], fs, keys, sp)
        {
          assert Added(r[i], fs + [f], keys[1..], sp);
        }
      }
    }
  }

  lemma FieldNamesAppend(fs: seq<Field>, f: Field)
    ensures FieldNames(fs + [f]) == FieldNames(fs) + [f.name]
  {
  }

  lemma KeysCons(keys: seq<string>)
    requires |keys| > 0
    ensures forall k :: k in keys <==> k == keys[0] || k in keys[1..]
  {
    assert keys == [keys[0]] + keys[1..];
  }

  /** A node whose fields already hold every key is left as it is. */
  lemma {:induction false} FillMissingComplete(fs: seq<Field>, keys: seq<string>, sp: Span)
    requires forall k :: k in keys ==> k in FieldNames(fs)
    ensures FillMissing(fs, keys, sp) == fs
    decreases |keys|
  {
    if |keys| > 0 {
      FillMissingComplete(fs, keys[1..], sp);
    }
  }

  /** The fill loop of `parseActionRecovering` and `parseConditionRecovering`
    * (src/parse/actions.ts:119-125, src/parse/conditions.ts:83-89). */
  method FillDescriptor(fs: seq<Field>, keys: seq<string>, sp: Span) returns (r: seq<Field>)
    ensures r == FillMissing(fs, keys, sp)
  {
    r := fs;
    var i := 0;
    while i < |keys|
      invariant 0 <= i <= |keys|
      invariant FillMissing(r, keys[i..], sp) == FillMissing(fs, keys, sp)
    {
      assert keys[i..][1..] == keys[i + 1..];
      if keys[i] !in FieldNames(r) {
        r := r + [Field(keys[i], IPrim(PUndefined), sp)];
      }
      i := i + 1;
    }
  }

  /** The values of the present elements, in order (`.filter(it => it !==
    * undefined)`). */
  function Somes(xs: seq<Option<IrNode>>): (r: seq<IrNode>)
    ensures |r| <= |xs|
    ensures forall x :: x in r <==> Some(x) in xs
  {
    if |xs| == 0 then []
    else
      var rest := Somes(xs[1..]);
      assert forall o :: o in xs <==> o == xs[0] || o in xs[1..];
      if xs[0].Some? then [xs[0].value] + rest else rest
  }

  // ---------------------------------------------------------------------
  // Keyword tables

  /** The action keywords `parseAction` dispatches on, in the order it tries
    * them (src/parse/actions.ts:23-99). */
  datatype ActionKw =
    | KwIf | KwChangePlayerGroup | KwKill | KwFullHeal | KwTitle | KwActionBar | KwResetInventory
    | KwMaxHealth | KwGiveItem | KwRemoveItem | KwChat | KwApplyPotion | KwClearEffects | KwXpLevel
    | KwLobby | KwStat | KwGlobalstat | KwTp | KwFailParkour | KwSound | KwCompassTarget | KwGamemode
    | KwChangeHealth | KwHungerLevel | KwRandom | KwFunction | KwApplyLayout | KwEnchant | KwPause
    | KwSetTeam | KwTeamstat | KwDisplayMenu | KwDropItem | KwChangeVelocity | KwLaunch | KwExit
    | KwCancelEvent

  const ACTION_KWS: seq<ActionKw> := [
    KwIf, KwChangePlayerGroup, KwKill, KwFullHeal, KwTitle, KwActionBar, KwResetInventory,
    KwMaxHealth, KwGiveItem, KwRemoveItem, KwChat, KwApplyPotion, KwClearEffects, KwXpLevel,
    KwLobby, KwStat, KwGlobalstat, KwTp, KwFailParkour, KwSound, KwCompassTarget, KwGamemode,
    KwChangeHealth, KwHungerLevel, KwRandom, KwFunction, KwApplyLayout, KwEnchant, KwPause,
    KwSetTeam, KwTeamstat, KwDisplayMenu, KwDropItem, KwChangeVelocity, KwLaunch, KwExit,
    KwCancelEvent]

  function ActionKwName(kw: ActionKw): string
  {
    match kw
    case KwIf => "if"
    case KwChangePlayerGroup => "changePlayerGroup"
    case KwKill => "kill"
    case KwFullHeal => "fullHeal"
    case KwTitle => "title"
    case KwActionBar => "actionBar"
    case KwResetInventory => "resetInventory"
    case KwMaxHealth => "maxHealth"
    case KwGiveItem => "giveItem"
    case KwRemoveItem => "removeItem"
    case KwChat => "chat"
    case KwApplyPotion => "applyPotion"
    case KwClearEffects => "clearEffects"
    case KwXpLevel => "xpLevel"
    case KwLobby => "lobby"
    case KwStat => "stat"
    case KwGlobalstat => "globalstat"
    case KwTp => "tp"
    case KwFailParkour => "failParkour"
    case KwSound => "sound"
    case KwCompassTarget => "compassTarget"
    case KwGamemode => "gamemode"
    case KwChangeHealth => "changeHealth"
    case KwHungerLevel => "hungerLevel"
    case KwRandom => "random"
    case KwFunction => "function"
    case KwApplyLayout => "applyLayout"
    case KwEnchant => "enchant"
    case KwPause => "pause"
    case KwSetTeam => "setTeam"
    case KwTeamstat => "teamstat"
    case KwDisplayMenu => "displayMenu"
    case KwDropItem => "dropItem"
    case KwChangeVelocity => "changeVelocity"
    case KwLaunch => "launch"
    case KwExit => "exit"
    case KwCancelEvent => "cancelEvent"
  }

  /** The type of the action a keyword produces. `maxHealth` produces a
    * CHANGE_HEALTH action, as src/parse/actions.ts:191-196 is written. */
  function ActionKwType(kw: ActionKw): ActionType
  {
    match kw
    case KwIf => CONDITIONAL
    case KwChangePlayerGroup => SET_GROUP
    case KwKill => KILL
    case KwFullHeal => HEAL
    case KwTitle => TITLE
    case KwActionBar => ACTION_BAR
    case KwResetInventory => RESET_INVENTORY
    case KwMaxHealth => CHANGE_HEALTH
    case KwGiveItem => GIVE_ITEM
    case KwRemoveItem => REMOVE_ITEM
    case KwChat => MESSAGE
    case KwApplyPotion => APPLY_POTION_EFFECT
    case KwClearEffects => CLEAR_POTION_EFFECTS
    case KwXpLevel => GIVE_EXPERIENCE_LEVELS
    case KwLobby => SEND_TO_LOBBY
    case KwStat => CHANGE_STAT
    case KwGlobalstat => CHANGE_GLOBAL_STAT
    case KwTp => TELEPORT
    case KwFailParkour => FAIL_PARKOUR
    case KwSound => PLAY_SOUND
    case KwCompassTarget => SET_COMPASS_TARGET
    case KwGamemode => SET_GAMEMODE
    case KwChangeHealth => CHANGE_HEALTH
    case KwHungerLevel => CHANGE_HUNGER
    case KwRandom => RANDOM
    case KwFunction => FUNCTION
    case KwApplyLayout => APPLY_INVENTORY_LAYOUT
    case KwEnchant => ENCHANT_HELD_ITEM
    case KwPause => PAUSE
    case KwSetTeam => SET_TEAM
    case KwTeamstat => CHANGE_TEAM_STAT
    case KwDisplayMenu => SET_MENU
    case KwDropItem => DROP_ITEM
    case KwChangeVelocity => SET_VELOCITY
    case KwLaunch => LAUNCH
    case KwExit => EXIT
    case KwCancelEvent => CANCEL_EVENT
  }

  /** How an action is read after its keyword: a bare keyword node, the
    * conditional, or fields through `parseActionRecovering`. */
  datatype ActionForm = KeywordOnly | ConditionalForm | FieldsForm(syntax: seq<FieldSyntax>)

  /** The fields each sub-parser of src/parse/actions.ts:130-390 reads. */
  function ActionKwForm(kw: ActionKw): ActionForm
  {
    match kw
    case KwIf => ConditionalForm
    case KwChangePlayerGroup => FieldsForm([Arg("group", Textual(StringArg)), Arg("demotionProtection", Choice(BooleanArg))])
    case KwKill => KeywordOnly
    case KwFullHeal => KeywordOnly
    case KwTitle =>
      FieldsForm([ArgThenEol("title", Textual(StringArg)), ArgThenEol("subtitle", Textual(StringArg)),
                  Arg("fadein", Numeric(BoundedArg(0, 5))), Arg("stay", Numeric(BoundedArg(0, 10))),
                  Arg("fadeout", Numeric(BoundedArg(0, 5)))])
    case KwActionBar => FieldsForm([Arg("message", Textual(StringArg))])
    case KwResetInventory => KeywordOnly
    case KwMaxHealth => FieldsForm([Arg("op", Choice(OperationArg)), Arg("amount", Numeric(AmountArg))])
    case KwGiveItem =>
      FieldsForm([Arg("item", Textual(NameArg)), Arg("allowMultiple", Choice(BooleanArg)),
                  Arg("slot", Numeric(SlotArg)), Arg("replaceExisting", Choice(BooleanArg))])
    case KwRemoveItem => FieldsForm([Arg("item", Textual(NameArg))])
    case KwChat => FieldsForm([Arg("message", Textual(StringArg))])
    case KwApplyPotion =>
      FieldsForm([Arg("effect", Textual(NamesArg(PotionNames))), Arg("duration", Numeric(BoundedArg(1, 2592000))),
                  Arg("level", Numeric(BoundedArg(1, 10))), Arg("override", Choice(BooleanArg)),
                  Arg("showIcon", Choice(OptionalBooleanArg))])
    case KwClearEffects => KeywordOnly
    case KwXpLevel => FieldsForm([Arg("amount", Numeric(AmountArg))])
    case KwLobby => FieldsForm([Arg("lobby", Textual(NamesArg(LobbyNames)))])
    case KwStat =>
      FieldsForm([Arg("stat", Textual(StatNameArg)), Arg("op", Choice(OperationArg)), Arg("amount", Numeric(AmountArg))])
    case KwGlobalstat =>
      FieldsForm([Arg("stat", Textual(StatNameArg)), Arg("op", Choice(OperationArg)), Arg("amount", Numeric(AmountArg))])
    case KwTp => FieldsForm([Arg("location", Numeric(LocationArg))])
    case KwFailParkour => FieldsForm([Arg("message", Textual(StringArg))])
    case KwSound =>
      FieldsForm([Arg("sound", Textual(SoundArg)), Arg("volume", Numeric(FloatArg)), Arg("pitch", Numeric(FloatArg)),
                  Arg("location", Numeric(LocationArg))])
    case KwCompassTarget => FieldsForm([Arg("location", Numeric(LocationArg))])
    case KwGamemode => FieldsForm([Arg("gamemode", Choice(GamemodeArg))])
    case KwChangeHealth => FieldsForm([Arg("op", Choice(OperationArg)), Arg("amount", Numeric(AmountArg))])
    case KwHungerLevel => FieldsForm([Arg("op", Choice(OperationArg)), Arg("amount", Numeric(AmountArg))])
    case KwRandom => FieldsForm([Arg("actions", BlockArg)])
    case KwFunction => FieldsForm([Arg("function", Textual(NameArg)), Arg("global", Choice(OptionalBooleanArg))])
    case KwApplyLayout => FieldsForm([Arg("layout", Textual(StringArg))])
    case KwEnchant =>
      FieldsForm([Arg("enchant", Textual(NamesArg(EnchantmentNames))), Arg("level", Numeric(BoundedArg(1, 10)))])
    case KwPause => FieldsForm([Arg("ticks", Numeric(BoundedArg(1, 1000)))])
    case KwSetTeam => FieldsForm([Arg("team", Textual(NameArg))])
    case KwTeamstat =>
      FieldsForm([Arg("stat", Textual(StatNameArg)), Arg("team", Textual(StatNameArg)), Arg("op", Choice(OperationArg)),
                  Arg("amount", Numeric(AmountArg))])
    case KwDisplayMenu => FieldsForm([Arg("menu", Textual(NameArg))])
    case KwDropItem =>
      FieldsForm([Arg("item", Textual(NameArg)), Arg("location", Numeric(LocationArg)),
                  Arg("dropNaturally", Choice(BooleanArg)), Arg("disableMerging", Choice(BooleanArg)),
                  Arg("prioritizePlayer", Choice(BooleanArg)), Arg("inventoryFallback", Choice(BooleanArg))])
    case KwChangeVelocity =>
      FieldsForm([Arg("x", Numeric(AmountArg)), Arg("y", Numeric(AmountArg)), Arg("z", Numeric(AmountArg))])
    case KwLaunch => FieldsForm([Arg("location", Numeric(LocationArg)), Arg("strength", Numeric(BoundedArg(1, 10)))])
    case KwExit => KeywordOnly
    case KwCancelEvent => KeywordOnly
  }

  /** The fields of the conditional, in the order its sub-parser assigns
    * them (src/parse/actions.ts:130-163). */
  const CONDITIONAL_FIELDS: seq<string> := ["matchAny", "conditions", "ifActions", "elseActions"]

  /** The condition keywords `parseCondition` dispatches on, in order
    * (src/parse/conditions.ts:25-63). */
  datatype ConditionKw =
    | CkHasGroup | CkStat | CkGlobalstat | CkHasPermission | CkInRegion | CkHasItem | CkDoingParkour
    | CkHasPotion | CkIsSneaking | CkIsFlying | CkHealth | CkMaxHealth | CkHunger | CkGamemode
    | CkPlaceholder | CkHasTeam | CkTeamstat | CkDamageAmount

  const CONDITION_KWS: seq<ConditionKw> := [
    CkHasGroup, CkStat, CkGlobalstat, CkHasPermission, CkInRegion, CkHasItem, CkDoingParkour,
    CkHasPotion, CkIsSneaking, CkIsFlying, CkHealth, CkMaxHealth, CkHunger, CkGamemode,
    CkPlaceholder, CkHasTeam, CkTeamstat, CkDamageAmount]

  function ConditionKwName(kw: ConditionKw): string
  {
    match kw
    case CkHasGroup => "hasGroup"
    case CkStat => "stat"
    case CkGlobalstat => "globalstat"
    case CkHasPermission => "hasPermission"
    case CkInRegion => "inRegion"
    case CkHasItem => "hasItem"
    case CkDoingParkour => "doingParkour"
    case CkHasPotion => "hasPotion"
    case CkIsSneaking => "isSneaking"
    case CkIsFlying => "isFlying"
    case CkHealth => "health"
    case CkMaxHealth => "maxHealth"
    case CkHunger => "hunger"
    case CkGamemode => "gamemode"
    case CkPlaceholder => "placeholder"
    case CkHasTeam => "hasTeam"
    case CkTeamstat => "teamstat"
    case CkDamageAmount => "damageAmount"
  }

  function ConditionKwType(kw: ConditionKw): ConditionType
  {
    match kw
    case CkHasGroup => REQUIRE_GROUP
    case CkStat => COMPARE_STAT
    case CkGlobalstat => COMPARE_GLOBAL_STAT
    case CkHasPermission => REQUIRE_PERMISSION
    case CkInRegion => IS_IN_REGION
    case CkHasItem => REQUIRE_ITEM
    case CkDoingParkour => IS_DOING_PARKOUR
    case CkHasPotion => REQUIRE_POTION_EFFECT
    case CkIsSneaking => IS_SNEAKING
    case CkIsFlying => IS_FLYING
    case CkHealth => COMPARE_HEALTH
    case CkMaxHealth => COMPARE_MAX_HEALTH
    case CkHunger => COMPARE_HUNGER
    case CkGamemode => REQUIRE_GAMEMODE
    case CkPlaceholder => COMPARE_PLACEHOLDER
    case CkHasTeam => REQUIRE_TEAM
    case CkTeamstat => COMPARE_TEAM_STAT
    case CkDamageAmount => COMPARE_DAMAGE
  }

  /** The fields each condition sub-parser reads after `inverted`
    * (src/parse/conditions.ts:94-206); `None` for the bare keyword nodes. */
  function ConditionKwFields(kw: ConditionKw): Option<seq<FieldSyntax>>
  {
    match kw
    case CkHasGroup => Some([ArgThenEol("group", Textual(NameArg)), Arg("includeHigherGroups", Choice(BooleanArg))])
    case CkStat =>
      Some([Arg("stat", Textual(StatNameArg)), Arg("op", Choice(ComparisonArg)), Arg("amount", Numeric(AmountArg))])
    case CkGlobalstat =>
      Some([Arg("stat", Textual(StatNameArg)), Arg("op", Choice(ComparisonArg)), Arg("amount", Numeric(AmountArg))])
    case CkHasPermission => Some([Arg("permission", Textual(NamesArg(PermissionNames)))])
    case CkInRegion => Some([Arg("region", Textual(NameArg))])
    case CkHasItem =>
      Some([Arg("item", Textual(NameArg)), Arg("whatToCheck", Textual(NamesArg(ItemPropertyNames))),
            Arg("whereToCheck", Textual(NamesArg(ItemLocationNames))), Arg("amount", Textual(ItemAmountArg))])
    case CkDoingParkour => None
    case CkHasPotion => Some([Arg("effect", Textual(NamesArg(PotionNames)))])
    case CkIsSneaking => None
    case CkIsFlying => None
    case CkHealth => Some([Arg("op", Choice(ComparisonArg)), Arg("amount", Numeric(AmountArg))])
    case CkMaxHealth => Some([Arg("op", Choice(ComparisonArg)), Arg("amount", Numeric(AmountArg))])
    case CkHunger => Some([Arg("op", Choice(ComparisonArg)), Arg("amount", Numeric(AmountArg))])
    case CkGamemode => Some([Arg("gamemode", Choice(GamemodeArg))])
    case CkPlaceholder =>
      Some([Arg("placeholder", Textual(PlaceholderArg)), Arg("op", Choice(ComparisonArg)), Arg("amount", Numeric(AmountArg))])
    case CkHasTeam => Some([Arg("team", Textual(NameArg))])
    case CkTeamstat =>
      Some([Arg("stat", Textual(StatNameArg)), Arg("team", Textual(StatNameArg)), Arg("op", Choice(ComparisonArg)),
            Arg("amount", Numeric(AmountArg))])
    case CkDamageAmount => Some([Arg("op", Choice(ComparisonArg)), Arg("amount", Numeric(AmountArg))])
  }

  /** The fields of the two holders `parseHolder` reads
    * (src/parse/holders.ts:33-44). */
  const UNKNOWN_HOLDER_FIELDS: seq<FieldSyntax> := [Arg("actions", ActionsArg)]
  const FUNCTION_HOLDER_FIELDS: seq<FieldSyntax> := [Arg("name", Textual(NameArg)), Arg("actions", ActionsArg)]

  function SyntaxNames(syntax: seq<FieldSyntax>): (names: seq<string>)
    ensures |names| == |syntax|
    ensures forall i :: 0 <= i < |syntax| ==> names[i] == syntax[i].name
  {
    if |syntax| == 0 then [] else [syntax[0].name] + SyntaxNames(syntax[1..])
  }

  /** The rows of a keyword chain `if (eatKw(a)) … else if (eatKw(b)) …`. */
  function KeywordRows<K>(kws: seq<K>, name: K -> string): (rows: seq<(K, seq<Alt>)>)
    ensures |rows| == |kws|
    ensures forall i :: 0 <= i < |kws| ==> rows[i] == (kws[i], [Pat(IdentPat(name(kws[i])))])
  {
    if |kws| == 0 then [] else [(kws[0], [Pat(IdentPat(name(kws[0])))])] + KeywordRows(kws[1..], name)
  }

  /** No keyword of the list is spelled `v`. */
  predicate NoKeyword<K>(kws: seq<K>, name: K -> string, v: string)
  {
    forall i :: 0 <= i < |kws| ==> name(kws[i]) != v
  }

  /** A keyword chain selects a keyword the token spells, and selects none
    * exactly when no keyword is spelled like it. */
  lemma {:induction false} KeywordRowsSelect<K>(t: Token, kws: seq<K>, name: K -> string)
    ensures var m := FirstMatch(t, KeywordRows(kws, name));
      (m.Some? ==> m.value in kws && t.kind == Ident(name(m.value)))
      && (m.None? <==> !(t.kind.Ident? && !NoKeyword(kws, name, t.kind.value)))
    decreases |kws|
  {
    if |kws| > 0 {
      var rows := KeywordRows(kws, name);
      var row := [Pat(IdentPat(name(kws[0])))];
      assert rows[0].1 == row;
      assert row[1..] == [];
      assert AnyAlt(t, row) == AltMatches(t, Pat(IdentPat(name(kws[0]))));
      IdentPatMeaning(t, name(kws[0]));
      assert rows[1..] == KeywordRows(kws[1..], name);
      KeywordRowsSelect(t, kws[1..], name);
      assert forall i :: 1 <= i < |kws| ==> kws[i] == kws[1..][i - 1];
    }
  }

  /** The keyword chain: eats the first keyword the current token spells. */
  method EatKeyword<K>(p: Parser, kws: seq<K>, name: K -> string) returns (kw: Option<K>)
    requires p.Valid()
    modifies p
    ensures p.Valid()
    ensures kw.Some? ==>
      kw.value in kws && old(p.token).kind == Ident(name(kw.value))
      && p.prev == old(p.token) && p.index == old(p.index) + 1
    ensures kw.None? <==> !old(p.token).kind.Ident? || NoKeyword(kws, name, old(p.token).kind.value)
    ensures kw.None? ==> unchanged(p)
  {
    KeywordRowsSelect(p.token, kws, name);
    kw := p.EatFirst(KeywordRows(kws, name));
    if kw.Some? {
      NotEofIsFollowed(p.tokens, old(p.index));
    }
  }

  /** An identifier `recover` stops at that `parseAction` does not dispatch:
    * the parse of it leaves the parser where it was. */
  predicate Stuck(t: Token)
  {
    t.kind.Ident? && IsAction(t.kind.value) && NoKeyword(ACTION_KWS, ActionKwName, t.kind.value)
  }

  const CONDITION_SYNC: Sync := SyncSet([KindIs(TComma), DelimPat(TCloseDelim, Parenthesis)])
  const EOL_SYNC: Sync := SyncSet([KindIs(TEol)])

  // ---------------------------------------------------------------------
  // Field readers

  /** The amount of `hasItem` (src/parse/conditions.ts:135-141). */
  function ItemAmountTable(): seq<(string, seq<Alt>)>
  {
    [ ("Any Amount", [Named("Any Amount"), Named("anyAmount")]),
      ("Equal or Greater Amount", [Named("Equal or Greater Amount"), Named("equalOrGreaterAmount")]) ]
  }

  method ParseItemAmount(p: Parser) returns (r: Outcome<string>)
    requires p.Valid()
    modifies p
    ensures p.Valid()
    ensures var m := FirstMatch(old(p.token), ItemAmountTable());
      (m.Some? ==> r == Ok(m.value) && p.index == p.After(old(p.index)))
      && (m.None? ==> r == Err(ErrorAt("Expected item amount", old(p.token).span)) && unchanged(p))
    ensures r.Ok? ==> r.value in ITEM_AMOUNTS
  {
    var table := ItemAmountTable();
    assert table[1..][1..] == [];
    assert FirstMatch(p.token, table[1..]) == if AnyAlt(p.token, table[1].1) then Some(table[1].0) else None;
    var m := p.EatFirst(table);
    if m.Some? {
      return Ok(m.value);
    }
    return Err(ErrorAt("Expected item amount", p.token.span));
  }

  method ParseTextArg(p: Parser, env: Tables, k: TextArg) returns (r: Outcome<IrValue>)
    requires p.Valid()
    modifies p, p.ctx
    ensures p.Valid() && p.index >= old(p.index)
    ensures r.Ok? ==> TextFits(env, k, r.value)
  {
    var s: Outcome<string>;
    match k {
      case StringArg => s := p.ParseStr();
      case NameArg => s := p.ParseName();
      case StatNameArg => s := ParseVarName(p);
      case NamesArg(w) => s := ParseFromNames(p, NamesOf(env, w), NamesWhat(w));
      case SoundArg => s := ParseSound(p, env.sounds);
      case PlaceholderArg => s := ParseNumericalPlaceholder(p);
      case ItemAmountArg => s := ParseItemAmount(p);
    }
    r := if s.Ok? then Ok(IPrim(PStr(s.value))) else Err(s.error);
  }

  method ParseChoiceArg(p: Parser, k: ChoiceArg) returns (r: Outcome<IrValue>)
    requires p.Valid()
    modifies p, p.ctx
    ensures p.Valid() && p.index >= old(p.index)
    ensures r.Ok? ==> ChoiceFits(k, r.value)
  {
    match k {
      case BooleanArg =>
        var b := p.ParseBoolean();
        r := if b.Ok? then Ok(IPrim(PBool(b.value))) else Err(b.error);
      case OptionalBooleanArg =>
        if p.token.kind.Ident? {
          var b := p.ParseBoolean();
          r := if b.Ok? then Ok(IPrim(PBool(b.value))) else Err(b.error);
        } else {
          r := Ok(IPrim(PNull));
        }
      case OperationArg =>
        var o := ParseOperation(p);
        r := if o.Ok? then Ok(IPrim(PStr(OperationName(o.value)))) else Err(o.error);
      case GamemodeArg =>
        var g := ParseGamemode(p);
        r := Ok(IPrim(PStr(GamemodeName(g))));
      case ComparisonArg =>
        var c := ParseComparison(p);
        r := Ok(IPrim(PStr(ComparisonName(c))));
    }
  }

  /** The IR value of an amount. */
  function AmountValue(v: Value): IrValue
  {
    match v
    case NumberValue(n) => IPrim(PInt(n))
    case DecimalText(raw) => IPrim(PFloat(raw))
    case TextValue(s) => IPrim(PStr(s))
  }

  method ParseNumberArg(p: Parser, env: Tables, k: NumberArg) returns (r: Outcome<IrValue>)
    requires p.Valid()
    modifies p, p.ctx
    ensures p.Valid() && p.index >= old(p.index)
    ensures r.Ok? ==> NumberFits(k, r.value)
  {
    match k {
      case BoundedArg(lo, hi) =>
        var n := p.ParseBoundedNumber(lo, hi);
        r := if n.Ok? then Ok(IPrim(PInt(n.value))) else Err(n.error);
      case FloatArg =>
        var f := p.ParseFloat();
        r := if f.Ok? then Ok(IPrim(PFloat(f.value))) else Err(f.error);
      case AmountArg =>
        var v := ParseValue(p, env.shorthands);
        r := if v.Ok? then Ok(AmountValue(v.value)) else Err(v.error);
      case SlotArg =>
        var s := ParseInventorySlot(p);
        r := if s.Err? then Err(s.error)
             else if s.value.SlotNumber? then Ok(IPrim(PInt(s.value.n)))
             else Ok(IPrim(PStr(s.value.name)));
      case LocationArg =>
        var l := ParseLocation(p, env.isNumeric);
        r := if l.Ok? then Ok(IPrim(PLocation(l.value))) else Err(l.error);
    }
  }

  // ---------------------------------------------------------------------
  // The recursive descent. Every method below may call back into the
  // parsing of actions; each is ranked (second component of `decreases`)
  // so that a call at the same token goes to a lower rank, and a call to a
  // higher rank happens only after a token is consumed.

  /** Reads one field with the reader of its kind. */
  method ParseArg(p: Parser, env: Tables, k: ArgKind) returns (r: Outcome<IrValue>)
    requires p.Valid()
    modifies p, p.ctx
    ensures p.Valid() && p.index >= old(p.index)
    ensures r.Ok? ==> ValueFits(env, k, r.value)
    decreases |p.tokens| - p.index, 4
  {
    match k {
      case Textual(t) => r := ParseTextArg(p, env, t);
      case Choice(c) => r := ParseChoiceArg(p, c);
      case Numeric(n) => r := ParseNumberArg(p, env, n);
      case BlockArg =>
        var b := ParseBlock(p, env);
        r := if b.Ok? then Ok(INodes(b.value)) else Err(b.error);
      case ActionsArg =>
        var actions := ParseCompletely(p, env);
        r := Ok(INodes(actions));
    }
  }

  /** The body of a sub-parser: each field read with `p.spanned`, from the
    * start of its first token to the end of the last token it consumed. A
    * thrown diagnostic ends the reading; the fields read before it stay. */
  method ParseFields(p: Parser, env: Tables, syntax: seq<FieldSyntax>) returns (r: Reading)
    requires p.Valid()
    modifies p, p.ctx
    ensures p.Valid() && p.index >= old(p.index)
    ensures Follows(env, syntax, r.fields)
    ensures r.error.None? ==> Finished(syntax, r.fields, p.token)
    decreases |p.tokens| - p.index, 5
  {
    var fs: seq<Field> := [];
    var i := 0;
    while i < |syntax|
      invariant p.Valid() && p.index >= old(p.index)
      invariant i == |fs| <= |syntax|
      invariant Follows(env, syntax, fs)
    {
      var lo := p.token.span.start;
      var v := ParseArg(p, env, syntax[i].arg);
      if v.Err? {
        return Reading(fs, Some(v.error));
      }
      fs := fs + [Field(syntax[i].name, v.value, Span(lo, p.prev.span.end))];
      if syntax[i].stopIfEol && p.token.kind == Eol {
        return Reading(fs, None);
      }
      i := i + 1;
    }
    return Reading(fs, None);
  }

  /** The end of `parseActionRecovering` (src/parse/actions.ts:109-128): a
    * thrown diagnostic is reported and the parser recovers to the line end;
    * every descriptor key still missing gets an undefined field at the
    * current token; the span runs from the keyword to the last token
    * consumed. */
  method FinishAction(p: Parser, t: ActionType, start: nat, kwSpan: Span, part: Reading) returns (n: IrNode)
    requires p.Valid()
    modifies p, p.ctx
    ensures p.Valid() && p.index >= old(p.index)
    ensures n == IrNode(Act(t), kwSpan, FillMissing(part.fields, Helpers.Keys(Semantics.ActionDescriptor(t)), p.token.span),
                        Span(start, p.prev.span.end))
    ensures part.error.None? ==> unchanged(p) && unchanged(p.ctx)
    ensures part.error.Some? ==>
      p.ctx.diagnostics == old(p.ctx.diagnostics) + [part.error.value] && p.index == RecoverFrom(p.tokens, old(p.index), EOL_SYNC)
    ensures ActionComplete(n)
  {
    if part.error.Some? {
      p.AddDiagnostic(part.error.value);
      p.Recover(EOL_SYNC);
    }
    FillMissingNames(part.fields, Helpers.Keys(Semantics.ActionDescriptor(t)), p.token.span);
    var fs := FillDescriptor(part.fields, Helpers.Keys(Semantics.ActionDescriptor(t)), p.token.span);
    n := IrNode(Act(t), kwSpan, fs, Span(start, p.prev.span.end));
  }

  /** The end of `parseConditionRecovering` (src/parse/conditions.ts:72-92):
    * as for actions, with `inverted` as the first field and recovery to a
    * comma or closing parenthesis. */
  method FinishCondition(p: Parser, t: ConditionType, inverted: Field, start: nat, kwSpan: Span, part: Reading) returns (n: IrNode)
    requires p.Valid()
    requires inverted.name == "inverted"
    modifies p, p.ctx
    ensures p.Valid() && p.index >= old(p.index)
    ensures n == IrNode(Cond(t), kwSpan,
                        FillMissing([inverted] + part.fields, Helpers.Keys(Semantics.ConditionDescriptor(t)), p.token.span),
                        Span(start, p.prev.span.end))
    ensures part.error.None? ==> unchanged(p) && unchanged(p.ctx)
    ensures part.error.Some? ==>
      p.ctx.diagnostics == old(p.ctx.diagnostics) + [part.error.value] && p.index == RecoverFrom(p.tokens, old(p.index), CONDITION_SYNC)
    ensures ConditionComplete(n) && |n.fields| > 0 && n.fields[0] == inverted
  {
    if part.error.Some? {
      p.AddDiagnostic(part.error.value);
      p.Recover(CONDITION_SYNC);
    }
    FillMissingNames([inverted] + part.fields, Helpers.Keys(Semantics.ConditionDescriptor(t)), p.token.span);
    var fs := FillDescriptor([inverted] + part.fields, Helpers.Keys(Semantics.ConditionDescriptor(t)), p.token.span);
    assert fs[..|[inverted] + part.fields|][0] == inverted;
    n := IrNode(Cond(t), kwSpan, fs, Span(start, p.prev.span.end));
  }

  /** The eight-way mode of a conditional (src/parse/actions.ts:132-137). */
  function ModeTable(): seq<(bool, seq<Alt>)>
  {
    [(false, [Pat(IdentPat("and")), Pat(IdentPat("false"))]), (true, [Pat(IdentPat("or")), Pat(IdentPat("true"))])]
  }

  lemma TwoAlts(t: Token, x: Alt, y: Alt)
    ensures AnyAlt(t, [x, y]) == (AltMatches(t, x) || AltMatches(t, y))
  {
    var xs := [x, y];
    assert xs[1..] == [y];
    assert [y][1..] == [];
    assert AnyAlt(t, [y]) == AltMatches(t, y);
    assert AnyAlt(t, xs) == (AltMatches(t, x) || AnyAlt(t, [y]));
  }

  /** `and`/`false` match all conditions, `or`/`true` any of them. */
  lemma ModeOfToken(t: Token)
    ensures FirstMatch(t, ModeTable()) ==
      if t.kind == Ident("and") || t.kind == Ident("false") then Some(false)
      else if t.kind == Ident("or") || t.kind == Ident("true") then Some(true)
      else None
  {
    var table := ModeTable();
    assert table[1..][1..] == [];
    IdentPatMeaning(t, "and");
    IdentPatMeaning(t, "false");
    IdentPatMeaning(t, "or");
    IdentPatMeaning(t, "true");
    TwoAlts(t, Pat(IdentPat("and")), Pat(IdentPat("false")));
    TwoAlts(t, Pat(IdentPat("or")), Pat(IdentPat("true")));
    assert FirstMatch(t, table[1..]) == if AnyAlt(t, table[1].1) then Some(true) else None;
  }

  /** The mode: with no mode word the conditional matches all conditions; an
    * identifier that is not one throws "Expected conditional mode". */
  method ParseMode(p: Parser) returns (r: Outcome<bool>)
    requires p.Valid()
    modifies p
    ensures p.Valid()
    ensures var m := FirstMatch(old(p.token), ModeTable());
      (m.Some? ==> r == Ok(m.value) && p.index == p.After(old(p.index)))
      && (m.None? ==>
            unchanged(p)
            && r == if old(p.token).kind.Ident? then Err(ErrorAt("Expected conditional mode", old(p.token).span)) else Ok(false))
  {
    var m := p.EatFirst(ModeTable());
    if m.Some? {
      return Ok(m.value);
    }
    if p.token.kind.Ident? {
      return Err(ErrorAt("Expected conditional mode", p.token.span));
    }
    return Ok(false);
  }

  /** What the fields of a conditional hold, as far as they were read. */
  predicate ConditionalFollows(fs: seq<Field>)
  {
    |fs| <= 4
    && (forall i :: 0 <= i < |fs| ==> fs[i].name == CONDITIONAL_FIELDS[i])
    && (|fs| > 0 ==> fs[0].value.IPrim? && fs[0].value.p.PBool?)
    && (|fs| > 1 ==> fs[1].value.INodes? && forall n :: n in fs[1].value.nodes ==> ConditionComplete(n))
    && (|fs| > 2 ==> ActionList(fs[2].value))
    && (|fs| > 3 ==> fs[3].value == IPrim(PNull) || ActionList(fs[3].value))
  }

  /** The reader of `parseActionConditional` (src/parse/actions.ts:130-163):
    * mode, parenthesised conditions, the block, then an `else` block. */
  method ParseConditionalFields(p: Parser, env: Tables) returns (r: Reading)
    requires p.Valid()
    modifies p, p.ctx
    ensures p.Valid() && p.index >= old(p.index)
    ensures ConditionalFollows(r.fields)
    ensures r.error.None? ==> |r.fields| == 4
    decreases |p.tokens| - p.index, 6
  {
    r := ParseConditionalHead(p, env);
    if r.error.Some? {
      return;
    }
    r := ParseConditionalTail(p, env, r.fields);
  }

  /** The mode and the conditions. */
  method ParseConditionalHead(p: Parser, env: Tables) returns (r: Reading)
    requires p.Valid()
    modifies p, p.ctx
    ensures p.Valid() && p.index >= old(p.index)
    ensures ConditionalFollows(r.fields) && |r.fields| <= 2
    ensures r.error.None? ==> |r.fields| == 2
    decreases |p.tokens| - p.index, 5
  {
    var lo := p.token.span.start;
    var mode := ParseMode(p);
    if mode.Err? {
      return Reading([], Some(mode.error));
    }
    var fs := [Field("matchAny", IPrim(PBool(mode.value)), Span(lo, p.prev.span.end))];
    lo := p.token.span.start;
    var conditions := ParseConditionList(p, env);
    if conditions.Err? {
      return Reading(fs, Some(conditions.error));
    }
    fs := fs + [Field("conditions", INodes(conditions.value), Span(lo, p.prev.span.end))];
    return Reading(fs, None);
  }

  /** The block and the `else` block after the conditions. */
  method ParseConditionalTail(p: Parser, env: Tables, head: seq<Field>) returns (r: Reading)
    requires p.Valid()
    requires ConditionalFollows(head) && |head| == 2
    modifies p, p.ctx
    ensures p.Valid() && p.index >= old(p.index)
    ensures ConditionalFollows(r.fields) && |r.fields| >= 2
    ensures r.error.None? ==> |r.fields| == 4
    decreases |p.tokens| - p.index, 5
  {
    var lo := p.token.span.start;
    var ifActions := ParseBlock(p, env);
    if ifActions.Err? {
      return Reading(head, Some(ifActions.error));
    }
    var fs := head + [Field("ifActions", INodes(ifActions.value), Span(lo, p.prev.span.end))];
    var e := ParseElse(p, env);
    if e.Err? {
      return Reading(fs, Some(e.error));
    }
    return Reading(fs + [e.value], None);
  }

  /** The `else` part: one line end is eaten to look for `else` on the next
    * line; without `else` the line end is put back and the field is null. */
  method ParseElse(p: Parser, env: Tables) returns (r: Outcome<Field>)
    requires p.Valid()
    modifies p, p.ctx
    ensures p.Valid() && p.index >= old(p.index)
    ensures r.Ok? ==> r.value.name == "elseActions" && (r.value.value == IPrim(PNull) || ActionList(r.value.value))
    decreases |p.tokens| - p.index, 4
  {
    var hadNewline := p.token.kind == Eol;
    if hadNewline {
      NotEofIsFollowed(p.tokens, p.index);
      p.Next();
    }
    var lo := p.token.span.start;
    var isElse := p.EatIdent("else");
    var elseActions := IPrim(PNull);
    if isElse {
      var b := ParseBlock(p, env);
      if b.Err? {
        return Err(b.error);
      }
      elseActions := INodes(b.value);
    } else if hadNewline {
      p.PushBack();
    }
    return Ok(Field("elseActions", elseActions, Span(lo, p.prev.span.end)));
  }

  /** `parseDelimitedCommaSeq("parenthesis", …)` over recovered conditions,
    * the undefined ones (those that threw) filtered out
    * (src/parse/parser.ts:317-331, src/parse/actions.ts:139-146). */
  method ParseConditionList(p: Parser, env: Tables) returns (r: Outcome<seq<IrNode>>)
    requires p.Valid()
    modifies p, p.ctx
    ensures p.Valid() && p.index >= old(p.index)
    ensures r.Ok? ==> forall n :: n in r.value ==> ConditionComplete(n)
    ensures !Matches(old(p.token), DelimPat(TOpenDelim, Parenthesis)) ==>
      r == Err(ErrorAt(ExpectMessage(DelimPat(TOpenDelim, Parenthesis)), old(p.token).span)) && unchanged(p) && unchanged(p.ctx)
    decreases |p.tokens| - p.index, 0
  {
    var open := p.Expect(DelimPat(TOpenDelim, Parenthesis));
    if open.Err? {
      return Err(open.error);
    }
    var items := ParseConditionItems(p, env);
    var close := p.Expect(DelimPat(TCloseDelim, Parenthesis));
    if close.Err? {
      return Err(close.error);
    }
    return Ok(Somes(items));
  }

  /** The elements of the condition list, separated by commas, up to the
    * closing parenthesis or the end of the input. */
  method ParseConditionItems(p: Parser, env: Tables) returns (items: seq<Option<IrNode>>)
    requires p.Valid()
    modifies p, p.ctx
    ensures p.Valid() && p.index >= old(p.index)
    ensures forall c :: c in items && c.Some? ==> ConditionComplete(c.value)
    decreases |p.tokens| - p.index, 3
  {
    items := [];
    while !p.Check(DelimPat(TCloseDelim, Parenthesis))
      invariant p.Valid() && p.index >= old(p.index)
      invariant forall c :: c in items && c.Some? ==> ConditionComplete(c.value)
      decreases |p.tokens| - p.index
    {
      if p.token.kind == Eof {
        break;
      }
      var c := ParseConditionRecovered(p, env);
      items := items + [c];
      if p.token.kind != Comma {
        break;
      }
      NotEofIsFollowed(p.tokens, p.index);
      p.Next();
    }
  }

  /** One element of the condition list: `parseRecovering([comma, ")"],
    * parseCondition)`. */
  method ParseConditionRecovered(p: Parser, env: Tables) returns (c: Option<IrNode>)
    requires p.Valid()
    modifies p, p.ctx
    ensures p.Valid() && p.index >= old(p.index)
    ensures c.Some? ==> ConditionComplete(c.value)
    decreases |p.tokens| - p.index, 2
  {
    var r := ParseCondition(p, env);
    c := p.Catch(r, CONDITION_SYNC);
  }

  /** `parseCondition` (src/parse/conditions.ts:19-70): an optional `!`,
    * then a condition keyword and its fields. */
  method ParseCondition(p: Parser, env: Tables) returns (r: Outcome<IrNode>)
    requires p.Valid()
    modifies p, p.ctx
    ensures p.Valid() && p.index >= old(p.index)
    ensures r.Ok? ==> ConditionComplete(r.value) && |r.value.fields| > 0 && r.value.fields[0].name == "inverted"
    ensures old(p.token).kind.Ident? && NoKeyword(CONDITION_KWS, ConditionKwName, old(p.token).kind.value) ==>
      r == Err(ErrorAt("Unknown condition", old(p.token).span)) && unchanged(p) && unchanged(p.ctx)
    ensures old(p.token).kind != Exclamation && !old(p.token).kind.Ident? ==>
      r == Err(ErrorAt("Expected condition", old(p.token).span)) && unchanged(p) && unchanged(p.ctx)
    decreases |p.tokens| - p.index, 1
  {
    var lo := p.token.span.start;
    var bang := p.token.kind == Exclamation;
    if bang {
      p.Next();
    }
    var inverted := Field("inverted", IPrim(PBool(bang)), Span(lo, p.prev.span.end));
    var kw := EatKeyword(p, CONDITION_KWS, ConditionKwName);
    if kw.Some? {
      var n := ParseConditionBody(p, env, kw.value, inverted);
      return Ok(n);
    }
    if p.token.kind.Ident? {
      return Err(ErrorAt("Unknown condition", p.token.span));
    }
    return Err(ErrorAt("Expected condition", p.token.span));
  }

  /** The node of a condition keyword that reads no fields: its descriptor
    * asks for nothing beyond `inverted`. */
  function BareCondition(kw: ConditionKw, kwSpan: Span, inverted: Field): (n: IrNode)
    requires ConditionKwFields(kw).None? && inverted.name == "inverted"
    ensures n.tag == Cond(ConditionKwType(kw)) && n.kwSpan == kwSpan && n.span == kwSpan
    ensures ConditionComplete(n) && n.fields == [inverted]
  {
    BareConditionsHaveInvertedOnly(kw);
    IrNode(Cond(ConditionKwType(kw)), kwSpan, [inverted], kwSpan)
  }

  /** A condition after its keyword: a bare node, or its fields through
    * `parseConditionRecovering`. */
  method ParseConditionBody(p: Parser, env: Tables, kw: ConditionKw, inverted: Field) returns (n: IrNode)
    requires p.Valid()
    requires inverted.name == "inverted"
    modifies p, p.ctx
    ensures p.Valid() && p.index >= old(p.index)
    ensures n.tag == Cond(ConditionKwType(kw)) && n.kwSpan == old(p.prev).span
    ensures ConditionComplete(n) && |n.fields| > 0 && n.fields[0] == inverted
    decreases |p.tokens| - p.index, 6
  {
    var t := ConditionKwType(kw);
    match ConditionKwFields(kw) {
      case None =>
        n := BareCondition(kw, p.prev.span, inverted);
      case Some(syntax) =>
        var start := p.prev.span.start;
        var kwSpan := p.prev.span;
        var part := ParseFields(p, env, syntax);
        n := FinishCondition(p, t, inverted, start, kwSpan, part);
    }
  }

  /** `parseAction` (src/parse/actions.ts:18-107): a keyword and what follows
    * it. An identifier that is no keyword throws "Unknown action" without
    * consuming it; any other token is consumed and throws "Expected
    * action". */
  method ParseAction(p: Parser, env: Tables) returns (r: Outcome<IrNode>)
    requires p.Valid()
    modifies p, p.ctx
    ensures p.Valid() && p.index >= old(p.index)
    ensures r.Ok? ==> ActionComplete(r.value) && r.value.kwSpan == old(p.token).span && p.index > old(p.index)
    ensures r.Ok? ==> exists kw :: kw in ACTION_KWS && old(p.token).kind == Ident(ActionKwName(kw))
                                   && r.value.tag == Act(ActionKwType(kw))
    ensures old(p.token).kind.Ident? ==>
      (r.Err? <==> NoKeyword(ACTION_KWS, ActionKwName, old(p.token).kind.value))
    ensures r.Err? && old(p.token).kind.Ident? ==>
      r.error == ErrorAt("Unknown action", old(p.token).span) && unchanged(p) && unchanged(p.ctx)
    ensures !old(p.token).kind.Ident? ==>
      r == Err(ErrorAt("Expected action", old(p.token).span)) && p.index == p.After(old(p.index)) && unchanged(p.ctx)
    decreases |p.tokens| - p.index, 1
  {
    var kw := EatKeyword(p, ACTION_KWS, ActionKwName);
    if kw.Some? {
      var n := ParseActionBody(p, env, kw.value);
      return Ok(n);
    }
    if p.token.kind.Ident? {
      return Err(ErrorAt("Unknown action", p.token.span));
    }
    p.Next();
    return Err(ErrorAt("Expected action", p.prev.span));
  }

  /** An action after its keyword. */
  method ParseActionBody(p: Parser, env: Tables, kw: ActionKw) returns (n: IrNode)
    requires p.Valid()
    modifies p, p.ctx
    ensures p.Valid() && p.index >= old(p.index)
    ensures n.tag == Act(ActionKwType(kw)) && n.kwSpan == old(p.prev).span && n.span.start == old(p.prev).span.start
    ensures ActionKwForm(kw).KeywordOnly? ==> n.fields == [] && n.span == n.kwSpan && p.index == old(p.index)
    ensures ActionComplete(n)
    decreases |p.tokens| - p.index, 7
  {
    var t := ActionKwType(kw);
    var start := p.prev.span.start;
    var kwSpan := p.prev.span;
    match ActionKwForm(kw) {
      case KeywordOnly =>
        KeywordOnlyHasNoFields(kw);
        n := IrNode(Act(t), kwSpan, [], kwSpan);
      case ConditionalForm =>
        var part := ParseConditionalFields(p, env);
        n := FinishAction(p, t, start, kwSpan, part);
      case FieldsForm(syntax) =>
        var part := ParseFields(p, env, syntax);
        n := FinishAction(p, t, start, kwSpan, part);
    }
  }

  /** One pass of the loops of `parseCompletely` and `parseBlock` as written
    * (src/parse/parser.ts:42-49, 305-312): an action, or its diagnostic
    * reported and recovery to the next action keyword. On an identifier
    * recovery stops at but `parseAction` does not know, nothing moves: the
    * loop sees the same token again. */
  method ParseActionStep(p: Parser, env: Tables) returns (a: Option<IrNode>)
    requires p.Valid()
    modifies p, p.ctx
    ensures p.Valid() && p.index >= old(p.index)
    ensures a.Some? ==> ActionComplete(a.value)
    ensures Stuck(old(p.token)) ==>
      a.None? && p.index == old(p.index) && p.token == old(p.token)
      && p.ctx.diagnostics == old(p.ctx.diagnostics) + [ErrorAt("Unknown action", old(p.token).span)]
    ensures !Stuck(old(p.token)) && old(p.token).kind != Eof ==> p.index > old(p.index)
    decreases |p.tokens| - p.index, 2
  {
    var r := ParseAction(p, env);
    a := p.Catch(r, ActionKeywords);
  }

  /** `parseCompletely` (src/parse/parser.ts:39-52): actions up to the end of
    * the input. The pass is forced to consume the token it is stuck on. */
  method ParseCompletely(p: Parser, env: Tables) returns (actions: seq<IrNode>)
    requires p.Valid()
    modifies p, p.ctx
    ensures p.Valid() && p.index >= old(p.index)
    ensures p.token.kind == Eof
    ensures forall n :: n in actions ==> ActionComplete(n)
    decreases |p.tokens| - p.index, 3
  {
    actions := [];
    while p.token.kind != Eof
      invariant p.Valid() && p.index >= old(p.index)
      invariant forall n :: n in actions ==> ActionComplete(n)
      decreases |p.tokens| - p.index
    {
      var before := p.index;
      var a := ParseActionStep(p, env);
      if a.Some? {
        actions := actions + [a.value];
      }
      if p.index == before {
        NotEofIsFollowed(p.tokens, p.index);
        p.Next();
      }
    }
  }

  /** `parseBlock` (src/parse/parser.ts:299-315): `{`, actions, `}`; the end
    * of the input first throws "expected }" without a span. The pass is
    * forced to consume the token it is stuck on. */
  method ParseBlock(p: Parser, env: Tables) returns (r: Outcome<seq<IrNode>>)
    requires p.Valid()
    modifies p, p.ctx
    ensures p.Valid() && p.index >= old(p.index)
    ensures r.Ok? ==> forall n :: n in r.value ==> ActionComplete(n)
    ensures !Matches(old(p.token), DelimPat(TOpenDelim, Brace)) ==>
      r == Err(ErrorAt(ExpectMessage(DelimPat(TOpenDelim, Brace)), old(p.token).span)) && unchanged(p) && unchanged(p.ctx)
    ensures Matches(old(p.token), DelimPat(TOpenDelim, Brace)) && r.Err? ==>
      p.token.kind == Eof && r.error == Diagnostic("expected }", Error, None)
    ensures r.Ok? ==> Matches(p.prev, DelimPat(TCloseDelim, Brace))
    decreases |p.tokens| - p.index, 0
  {
    var open := p.Expect(DelimPat(TOpenDelim, Brace));
    if open.Err? {
      return Err(open.error);
    }
    var actions := ParseBlockActions(p, env);
    if p.token.kind == Eof {
      return Err(Diagnostic("expected }", Error, None));
    }
    p.Next();
    return Ok(actions);
  }

  /** The actions of a block, up to the closing brace or the end of the
    * input. The pass is forced to consume the token it is stuck on. */
  method ParseBlockActions(p: Parser, env: Tables) returns (actions: seq<IrNode>)
    requires p.Valid()
    modifies p, p.ctx
    ensures p.Valid() && p.index >= old(p.index)
    ensures p.token.kind == Eof || Matches(p.token, DelimPat(TCloseDelim, Brace))
    ensures forall n :: n in actions ==> ActionComplete(n)
    decreases |p.tokens| - p.index, 3
  {
    actions := [];
    while p.token.kind != Eof && !p.Check(DelimPat(TCloseDelim, Brace))
      invariant p.Valid() && p.index >= old(p.index)
      invariant forall n :: n in actions ==> ActionComplete(n)
      decreases |p.tokens| - p.index
    {
      var before := p.index;
      var a := ParseActionStep(p, env);
      if a.Some? {
        actions := actions + [a.value];
      }
      if p.index == before {
        NotEofIsFollowed(p.tokens, p.index);
        p.Next();
      }
    }
  }

  /** `parseHolder` (src/parse/holders.ts:6-17): `goto function` and a
    * name, or no keyword at all; after `goto` anything else throws. */
  method ParseHolder(p: Parser, env: Tables) returns (r: Outcome<IrNode>)
    requires p.Valid()
    modifies p, p.ctx
    ensures p.Valid()
    ensures old(p.token).kind != Ident("goto") ==>
      r.Ok? && r.value.tag == Hold(UNKNOWN) && r.value.kwSpan == old(p.prev).span
      && Follows(env, UNKNOWN_HOLDER_FIELDS, r.value.fields)
    ensures r.Ok? && r.value.tag == Hold(FUNCTION_HOLDER) ==> Follows(env, FUNCTION_HOLDER_FIELDS, r.value.fields)
    ensures r.Err? ==> r.error.message == "Expected action holder type (function, event)"
    ensures old(p.token).kind == Ident("goto") ==>
      old(p.index) < |p.tokens| && (r.Ok? <==> p.tokens[old(p.index)].kind == Ident("function"))
    ensures old(p.token).kind == Ident("goto") && r.Ok? ==> r.value.tag == Hold(FUNCTION_HOLDER)
  {
    var isGoto := p.EatIdent("goto");
    if isGoto {
      NotEofIsFollowed(p.tokens, old(p.index));
      var isFunction := p.EatIdent("function");
      if isFunction {
        var h := ParseHolderRecovering(p, env, FUNCTION_HOLDER, FUNCTION_HOLDER_FIELDS);
        return Ok(h);
      }
      return Err(ErrorAt("Expected action holder type (function, event)", p.token.span));
    }
    var h := ParseHolderRecovering(p, env, UNKNOWN, UNKNOWN_HOLDER_FIELDS);
    return Ok(h);
  }

  /** `parseHolderRecovering` (src/parse/holders.ts:19-31): as for actions,
    * but missing fields are not filled in. */
  method ParseHolderRecovering(p: Parser, env: Tables, t: HolderType, syntax: seq<FieldSyntax>) returns (n: IrNode)
    requires p.Valid()
    modifies p, p.ctx
    ensures p.Valid() && p.index >= old(p.index)
    ensures n.tag == Hold(t) && n.kwSpan == old(p.prev).span && n.span == Span(old(p.prev).span.start, p.prev.span.end)
    ensures Follows(env, syntax, n.fields)
  {
    var start := p.prev.span.start;
    var kwSpan := p.prev.span;
    var part := ParseFields(p, env, syntax);
    if part.error.Some? {
      p.AddDiagnostic(part.error.value);
      p.Recover(EOL_SYNC);
    }
    n := IrNode(Hold(t), kwSpan, part.fields, Span(start, p.prev.span.end));
  }

  // ---------------------------------------------------------------------
  // Properties of the tables

  /** The bare keyword actions are exactly those without descriptor fields. */
  lemma KeywordOnlyHasNoFields(kw: ActionKw)
    ensures ActionKwForm(kw).KeywordOnly? ==> Semantics.ActionDescriptor(ActionKwType(kw)) == []
  {
  }

  /** The conditional reads the fields of its descriptor, in order. */
  lemma ConditionalSyntaxMatchesDescriptor()
    ensures CONDITIONAL_FIELDS == Helpers.Keys(Semantics.ActionDescriptor(CONDITIONAL))
  {
  }

  /** The bare condition keywords have only `inverted`. */
  lemma BareConditionsHaveInvertedOnly(kw: ConditionKw)
    ensures ConditionKwFields(kw).None? ==>
      Helpers.Keys(Semantics.ConditionDescriptor(ConditionKwType(kw))) == ["inverted"]
  {
  }

  /** The holders read exactly the fields of their descriptors. */
  lemma HolderSyntaxMatchesDescriptor()
    ensures SyntaxNames(UNKNOWN_HOLDER_FIELDS) == Helpers.Keys(Semantics.HolderDescriptor(UNKNOWN))
    ensures SyntaxNames(FUNCTION_HOLDER_FIELDS) == Helpers.Keys(Semantics.HolderDescriptor(FUNCTION_HOLDER))
  {
  }

  /** A read that assigned every field of a syntax naming all descriptor keys
    * leaves nothing for the fill loop to add. */
  lemma CompleteReadNeedsNoFill(env: Tables, syntax: seq<FieldSyntax>, keys: seq<string>, fs: seq<Field>, sp: Span)
    requires Follows(env, syntax, fs) && |fs| == |syntax|
    requires forall k :: k in keys ==> k in SyntaxNames(syntax)
    ensures FillMissing(fs, keys, sp) == fs
  {
    assert FieldNames(fs) == SyntaxNames(syntax);
    FillMissingComplete(fs, keys, sp);
  }

  /** The identifiers recovery stops at that `parseAction` does not know:
    * the loops as written make no progress on these. */
  const UNDISPATCHED: set<string> := {"balanceTeam", "closeMenu", "houseSpawn", "parkCheck", "consumeItem"}

  lemma NotDispatched(kw: ActionKw)
    ensures ActionKwName(kw) !in UNDISPATCHED
  {
  }

  lemma UndispatchedActionKeywords(v: string, sp: Span)
    requires v in UNDISPATCHED
    ensures Stuck(Token(Ident(v), sp))
  {
    var i := if v == "balanceTeam" then 2 else if v == "closeMenu" then 9 else if v == "houseSpawn" then 19
      else if v == "parkCheck" then 21 else 32;
    assert ACTION_KEYWORDS[i] == v;
    IsActionAt(i);
    forall i | 0 <= i < |ACTION_KWS|
      ensures ActionKwName(ACTION_KWS[i]) != v
    {
      NotDispatched(ACTION_KWS[i]);
    }
  }
}
