/** The semantic descriptor tables of src/semantics.ts: for every action,
  * condition and holder type, its fields in declaration order, each with the
  * kind of value it holds, and the fixed option lists of a few kinds. */
module Semantics {
  import opened Wrappers
  import opened NodeTypes
  import Helpers

  datatype SemanticKind =
    | StatName | GlobalStatName | TeamStatName | TeamName | Amount | Operation
    | Comparison | StringKind | BooleanKind | NumberKind | ConditionalMode
    | Conditions | Actions | LocationKind | Gamemode | Item | Potion | Lobby
    | Enchantment | Sound | Inversion | PlaceholderKind | RegionName | Permission
    | ItemAmount | ItemProperty | ItemLocation | GroupName | FunctionName | Event

  type Descriptor = seq<(string, SemanticKind)>

  /** The kind of the field `key`, if the descriptor has that field. */
  function KindOf(d: Descriptor, key: string): (r: Option<SemanticKind>)
    ensures r.Some? <==> key in Helpers.Keys(d)
  {
    if |d| == 0 then None
    else if d[0].0 == key then Some(d[0].1)
    else KindOf(d[1..], key)
  }

  /** The kind found for `key` is the one of its first occurrence. */
  lemma {:induction false} KindOfAt(d: Descriptor, key: string, i: nat)
    requires i < |d| && d[i].0 == key
    requires forall j :: 0 <= j < i ==> d[j].0 != key
    ensures KindOf(d, key) == Some(d[i].1)
  {
    if i > 0 {
      KindOfAt(d[1..], key, i - 1);
    }
  }

  /** ACTION_HOLDER_SEMANTIC_DESCRIPTORS (src/semantics.ts:35-51). */
  function HolderDescriptor(t: HolderType): Descriptor
  {
    match t
    case UNKNOWN => [("actions", Actions)]
    case FUNCTION_HOLDER => [("name", FunctionName), ("actions", Actions)]
    case EVENT => [("event", Event), ("actions", Actions)]
  }

  /** CONDITION_SEMANTIC_DESCRIPTORS (src/semantics.ts:53-144). */
  function ConditionDescriptor(t: ConditionType): Descriptor
  {
    match t
    case COMPARE_HEALTH => [("op", Comparison), ("amount", Amount), ("inverted", Inversion)]
    case COMPARE_HUNGER => [("op", Comparison), ("amount", Amount), ("inverted", Inversion)]
    case COMPARE_MAX_HEALTH => [("op", Comparison), ("amount", Amount), ("inverted", Inversion)]
    case COMPARE_PLACEHOLDER =>
      [("placeholder", PlaceholderKind), ("op", Comparison), ("amount", Amount), ("inverted", Inversion)]
    case IS_DOING_PARKOUR => [("inverted", BooleanKind)]
    case IS_FLYING => [("inverted", BooleanKind)]
    case IS_IN_REGION => [("inverted", BooleanKind), ("region", RegionName)]
    case IS_SNEAKING => [("inverted", BooleanKind)]
    case REQUIRE_GROUP =>
      [("inverted", BooleanKind), ("group", GroupName), ("includeHigherGroups", BooleanKind)]
    case REQUIRE_ITEM =>
      [("inverted", BooleanKind), ("item", Item), ("amount", ItemAmount),
            ("whatToCheck", ItemProperty), ("whereToCheck", ItemLocation)]
    case REQUIRE_PERMISSION => [("inverted", BooleanKind), ("permission", Permission)]
    case REQUIRE_POTION_EFFECT => [("inverted", BooleanKind), ("effect", Potion)]
    case REQUIRE_TEAM => [("inverted", BooleanKind), ("team", TeamName)]
    case COMPARE_GLOBAL_STAT =>
      [("amount", Amount), ("stat", GlobalStatName), ("op", Comparison), ("inverted", Inversion)]
    case COMPARE_TEAM_STAT =>
      [("amount", Amount), ("stat", TeamStatName), ("op", Comparison), ("team", TeamName),
            ("inverted", Inversion)]
    case COMPARE_STAT =>
      [("stat", StatName), ("op", Comparison), ("amount", Amount), ("inverted", Inversion)]
    case REQUIRE_GAMEMODE => [("gamemode", Gamemode), ("inverted", Inversion)]
    case COMPARE_DAMAGE => [("op", Comparison), ("amount", Amount), ("inverted", Inversion)]
  }

  /** ACTION_SEMANTIC_DESCRIPTORS as written (src/semantics.ts:146-289). */
  function ActionDescriptorAsWritten(t: ActionType): Descriptor
  {
    match t
    case APPLY_INVENTORY_LAYOUT => [("layout", StringKind)]
    case CHANGE_HUNGER => [("amount", Operation), ("op", Amount)]
    case DROP_ITEM =>
      [("location", LocationKind), ("item", Item), ("dropNaturally", BooleanKind),
            ("disableMerging", BooleanKind), ("prioritizePlayer", BooleanKind),
            ("inventoryFallback", BooleanKind)]
    case ENCHANT_HELD_ITEM => [("enchant", Enchantment), ("level", NumberKind)]
    case FUNCTION => [("function", FunctionName), ("global", BooleanKind)]
    case LAUNCH => [("location", LocationKind), ("strength", Amount)]
    case PAUSE => [("ticks", Amount)]
    case PLAY_SOUND =>
      [("location", LocationKind), ("sound", Sound), ("volume", NumberKind), ("pitch", NumberKind)]
    case SET_COMPASS_TARGET => [("location", LocationKind)]
    case SET_GAMEMODE => [("gamemode", Gamemode)]
    case SET_MENU => [("menu", StringKind)]
    case SET_TEAM => [("team", TeamName)]
    case CONDITIONAL =>
      [("matchAny", ConditionalMode), ("conditions", Conditions), ("ifActions", Actions),
            ("elseActions", Actions)]
    case SET_GROUP => [("group", StringKind), ("demotionProtection", BooleanKind)]
    case KILL => []
    case HEAL => []
    case TITLE =>
      [("title", StringKind), ("subtitle", StringKind), ("fadein", NumberKind),
            ("stay", NumberKind), ("fadeout", NumberKind)]
    case ACTION_BAR => [("message", StringKind)]
    case RESET_INVENTORY => []
    case CHANGE_MAX_HEALTH => [("op", Operation), ("amount", Amount), ("heal", BooleanKind)]
    case CHANGE_STAT => [("stat", StatName), ("op", Operation), ("amount", Amount)]
    case CHANGE_GLOBAL_STAT => [("stat", GlobalStatName), ("op", Operation), ("amount", Amount)]
    case CHANGE_TEAM_STAT =>
      [("stat", TeamStatName), ("team", TeamName), ("op", Operation), ("amount", Amount)]
    case CHANGE_HEALTH => [("op", Operation), ("amount", Amount)]
    case MESSAGE => [("message", StringKind)]
    case RANDOM => [("actions", Actions)]
    case SET_VELOCITY => [("x", NumberKind), ("y", NumberKind), ("z", NumberKind)]
    case TELEPORT => [("location", LocationKind)]
    case EXIT => []
    case CANCEL_EVENT => []
    case GIVE_ITEM =>
      [("replaceExisting", BooleanKind), ("item", Item), ("allowMultiple", BooleanKind),
            ("slot", NumberKind)]
    case REMOVE_ITEM => [("item", Item)]
    case APPLY_POTION_EFFECT =>
      [("effect", Potion), ("duration", NumberKind), ("level", NumberKind),
            ("override", BooleanKind), ("showIcon", BooleanKind)]
    case CLEAR_POTION_EFFECTS => []
    case GIVE_EXPERIENCE_LEVELS => [("amount", Amount)]
    case SEND_TO_LOBBY => [("lobby", Lobby)]
    case FAIL_PARKOUR => [("message", StringKind)]
  }

  /** The action descriptors the rest of this model uses: the table above
    * with CHANGE_HUNGER's two kinds the way its parser reads the fields
    * (src/parse/actions.ts:302-307), `op` an operation and `amount` an
    * amount. */
  function ActionDescriptor(t: ActionType): Descriptor
  {
    if t.CHANGE_HUNGER? then [("amount", Amount), ("op", Operation)] else ActionDescriptorAsWritten(t)
  }

  /** SEMANTIC_KIND_OPTIONS (src/semantics.ts:291-324). */
  function KindOptions(k: SemanticKind): Option<seq<string>>
  {
    match k
    case BooleanKind => Some(["true", "false"])
    case Operation => Some(["+=", "-=", "=", "*=", "/="])
    case Comparison => Some([">", ">=", "=", "<", "<="])
    case ConditionalMode => Some(["and", "or"])
    case Gamemode => Some(["creative", "survival", "adventure"])
    case _ => None
  }

  // ---------------------------------------------------------------------
  // Properties of the tables

  /** The argument-less actions have empty descriptors
    * (src/semantics.ts:209-210, 221, 261-262, 279). */
  lemma EmptyDescriptors()
    ensures ActionDescriptor(KILL) == [] && ActionDescriptor(HEAL) == []
    ensures ActionDescriptor(RESET_INVENTORY) == [] && ActionDescriptor(EXIT) == []
    ensures ActionDescriptor(CANCEL_EVENT) == [] && ActionDescriptor(CLEAR_POTION_EFFECTS) == []
  {
  }

  /** CONDITIONAL and RANDOM carry their nested lists
    * (src/semantics.ts:199-204, 250-252). */
  lemma BlockDescriptors()
    ensures KindOf(ActionDescriptor(CONDITIONAL), "matchAny") == Some(ConditionalMode)
    ensures KindOf(ActionDescriptor(CONDITIONAL), "conditions") == Some(Conditions)
    ensures KindOf(ActionDescriptor(CONDITIONAL), "ifActions") == Some(Actions)
    ensures KindOf(ActionDescriptor(CONDITIONAL), "elseActions") == Some(Actions)
    ensures ActionDescriptor(RANDOM) == [("actions", Actions)]
  {
    ConditionalMatchAny();
    ConditionalConditions();
    ConditionalIfActions();
    ConditionalElseActions();
    RandomActions();
  }

  lemma RandomActions()
    ensures ActionDescriptor(RANDOM) == [("actions", Actions)]
  {
  }

  lemma ConditionalMatchAny()
    ensures KindOf(ActionDescriptor(CONDITIONAL), "matchAny") == Some(ConditionalMode)
  {
  }

  lemma ConditionalConditions()
    ensures KindOf(ActionDescriptor(CONDITIONAL), "conditions") == Some(Conditions)
  {
  }

  lemma ConditionalIfActions()
    ensures KindOf(ActionDescriptor(CONDITIONAL), "ifActions") == Some(Actions)
  {
  }

  lemma ConditionalElseActions()
    ensures KindOf(ActionDescriptor(CONDITIONAL), "elseActions") == Some(Actions)
  {
  }

  /** Every holder descriptor lists its actions last (src/semantics.ts:39-51). */
  lemma HolderDescriptorsEndWithActions(t: HolderType)
    ensures |HolderDescriptor(t)| >= 1
    ensures HolderDescriptor(t)[|HolderDescriptor(t)| - 1] == ("actions", Actions)
    ensures t == UNKNOWN <==> |HolderDescriptor(t)| == 1
  {
  }

  /** Every condition descriptor has an `inverted` field of kind inversion
    * or boolean (src/semantics.ts:57-144). */
  lemma EveryConditionHasInverted(t: ConditionType)
    ensures KindOf(ConditionDescriptor(t), "inverted") == Some(Inversion)
         || KindOf(ConditionDescriptor(t), "inverted") == Some(BooleanKind)
  {
    var d := ConditionDescriptor(t);
    var i: nat :=
      match t
        case COMPARE_HEALTH => 2
        case COMPARE_HUNGER => 2
        case COMPARE_MAX_HEALTH => 2
        case COMPARE_PLACEHOLDER => 3
        case IS_DOING_PARKOUR => 0
        case IS_FLYING => 0
        case IS_IN_REGION => 0
        case IS_SNEAKING => 0
        case REQUIRE_GROUP => 0
        case REQUIRE_ITEM => 0
        case REQUIRE_PERMISSION => 0
        case REQUIRE_POTION_EFFECT => 0
        case REQUIRE_TEAM => 0
        case COMPARE_GLOBAL_STAT => 3
        case COMPARE_TEAM_STAT => 4
        case COMPARE_STAT => 3
        case REQUIRE_GAMEMODE => 1
        case COMPARE_DAMAGE => 2;
    KindOfAt(d, "inverted", i);
  }

  /** CHANGE_HUNGER's two kinds are swapped as written
    * (src/semantics.ts:154-157). */
  lemma ChangeHungerAsWritten()
    ensures KindOf(ActionDescriptorAsWritten(CHANGE_HUNGER), "amount") == Some(Operation)
    ensures KindOf(ActionDescriptorAsWritten(CHANGE_HUNGER), "op") == Some(Amount)
  {
  }

  /** Corrected, CHANGE_HUNGER's `op` is an operation and its `amount` an
    * amount, in the table's order. */
  lemma ChangeHungerCorrected()
    ensures Helpers.Keys(ActionDescriptor(CHANGE_HUNGER)) == Helpers.Keys(ActionDescriptorAsWritten(CHANGE_HUNGER))
    ensures KindOf(ActionDescriptor(CHANGE_HUNGER), "op") == Some(Operation)
    ensures KindOf(ActionDescriptor(CHANGE_HUNGER), "amount") == Some(Amount)
  {
  }

  /** The option lists (src/semantics.ts:291-308). */
  lemma OptionLists()
    ensures KindOptions(BooleanKind) == Some(["true", "false"])
    ensures KindOptions(Operation) == Some(["+=", "-=", "=", "*=", "/="])
    ensures KindOptions(Comparison) == Some([">", ">=", "=", "<", "<="])
    ensures KindOptions(ConditionalMode) == Some(["and", "or"])
    ensures KindOptions(StringKind) == None && KindOptions(Amount) == None
  {
  }

  /** The kind of a field is one its descriptor lists. */
  lemma {:induction false} KindListed(d: Descriptor, key: string)
    ensures KindOf(d, key).Some? ==> exists i :: 0 <= i < |d| && d[i].1 == KindOf(d, key).value
  {
    if |d| > 0 && d[0].0 != key {
      KindListed(d[1..], key);
      if KindOf(d, key).Some? {
        var i :| 0 <= i < |d[1..]| && d[1..][i].1 == KindOf(d, key).value;
        assert d[i + 1].1 == KindOf(d, key).value;
      }
    }
  }

  /** No entry of the descriptor has the kind `k`. */
  predicate Lacks(d: Descriptor, k: SemanticKind)
  {
    forall i :: 0 <= i < |d| ==> d[i].1 != k
  }

  lemma LacksKind(d: Descriptor, k: SemanticKind, key: string)
    requires Lacks(d, k)
    ensures KindOf(d, key) != Some(k)
  {
    KindListed(d, key);
  }

  /** Every entry named `key` has the kind `k`. */
  predicate KeyHasKind(d: Descriptor, key: string, k: SemanticKind)
  {
    forall i :: 0 <= i < |d| && d[i].0 == key ==> d[i].1 == k
  }

  lemma {:induction false} KeyKind(d: Descriptor, key: string, k: SemanticKind)
    requires KeyHasKind(d, key, k)
    ensures KindOf(d, key).Some? ==> KindOf(d, key).value == k
  {
    if |d| > 0 && d[0].0 != key {
      assert KeyHasKind(d[1..], key, k) by {
        forall i | 0 <= i < |d[1..]| && d[1..][i].0 == key
          ensures d[1..][i].1 == k
        {
          assert d[1..][i] == d[i + 1];
        }
      }
      KeyKind(d[1..], key, k);
    }
  }

  /** What every action descriptor but the conditional's satisfies: no
    * field of conditions, `op` an operation and `amount` an amount. */
  predicate ActionShape(d: Descriptor)
  {
    Lacks(d, Conditions) && KeyHasKind(d, "op", Operation) && KeyHasKind(d, "amount", Amount)
  }

  /** Only a conditional has a field of conditions. */
  lemma ActionKindsNoConditions(t: ActionType, key: string)
    requires t != CONDITIONAL
    ensures KindOf(ActionDescriptor(t), key) != Some(Conditions)
  {
    ActionShapes(t);
    LacksKind(ActionDescriptor(t), Conditions, key);
  }

  /** Every `op` field of an action holds an operation and every `amount`
    * field an amount, as the action parsers read them. */
  lemma ActionOpAndAmountKinds(t: ActionType)
    ensures KindOf(ActionDescriptor(t), "op").Some? ==> KindOf(ActionDescriptor(t), "op").value == Operation
    ensures KindOf(ActionDescriptor(t), "amount").Some? ==> KindOf(ActionDescriptor(t), "amount").value == Amount
  {
    if t != CONDITIONAL {
      ActionShapes(t);
      KeyKind(ActionDescriptor(t), "op", Operation);
      KeyKind(ActionDescriptor(t), "amount", Amount);
    }
  }

  lemma ActionShapes(t: ActionType)
    requires t != CONDITIONAL
    ensures ActionShape(ActionDescriptor(t))
  {
    if t.APPLY_INVENTORY_LAYOUT? || t.CHANGE_HUNGER? || t.DROP_ITEM? {
      ActionShapes1(t);
    } else if t.ENCHANT_HELD_ITEM? || t.FUNCTION? || t.LAUNCH? {
      ActionShapes2(t);
    } else if t.PAUSE? || t.PLAY_SOUND? || t.SET_COMPASS_TARGET? {
      ActionShapes3(t);
    } else if t.SET_GAMEMODE? || t.SET_MENU? || t.SET_TEAM? {
      ActionShapes4(t);
    } else if t.SET_GROUP? || t.KILL? || t.HEAL? {
      ActionShapes5(t);
    } else if t.TITLE? || t.ACTION_BAR? || t.RESET_INVENTORY? {
      ActionShapes6(t);
    } else if t.CHANGE_MAX_HEALTH? || t.CHANGE_STAT? || t.CHANGE_GLOBAL_STAT? {
      ActionShapes7(t);
    } else if t.CHANGE_TEAM_STAT? || t.CHANGE_HEALTH? || t.MESSAGE? {
      ActionShapes8(t);
    } else if t.RANDOM? || t.SET_VELOCITY? || t.TELEPORT? {
      ActionShapes9(t);
    } else if t.EXIT? || t.CANCEL_EVENT? || t.GIVE_ITEM? {
      ActionShapes10(t);
    } else if t.REMOVE_ITEM? || t.APPLY_POTION_EFFECT? || t.CLEAR_POTION_EFFECTS? {
      ActionShapes11(t);
    } else {
      ActionShapes12(t);
    }
  }

  lemma ActionShapes1(t: ActionType)
    requires t.APPLY_INVENTORY_LAYOUT? || t.CHANGE_HUNGER? || t.DROP_ITEM?
    ensures ActionShape(ActionDescriptor(t))
  {
  }

  lemma ActionShapes2(t: ActionType)
    requires t.ENCHANT_HELD_ITEM? || t.FUNCTION? || t.LAUNCH?
    ensures ActionShape(ActionDescriptor(t))
  {
  }

  lemma ActionShapes3(t: ActionType)
    requires t.PAUSE? || t.PLAY_SOUND? || t.SET_COMPASS_TARGET?
    ensures ActionShape(ActionDescriptor(t))
  {
  }

  lemma ActionShapes4(t: ActionType)
    requires t.SET_GAMEMODE? || t.SET_MENU? || t.SET_TEAM?
    ensures ActionShape(ActionDescriptor(t))
  {
  }

  lemma ActionShapes5(t: ActionType)
    requires t.SET_GROUP? || t.KILL? || t.HEAL?
    ensures ActionShape(ActionDescriptor(t))
  {
  }

  lemma ActionShapes6(t: ActionType)
    requires t.TITLE? || t.ACTION_BAR? || t.RESET_INVENTORY?
    ensures ActionShape(ActionDescriptor(t))
  {
  }

  lemma ActionShapes7(t: ActionType)
    requires t.CHANGE_MAX_HEALTH? || t.CHANGE_STAT? || t.CHANGE_GLOBAL_STAT?
    ensures ActionShape(ActionDescriptor(t))
  {
  }

  lemma ActionShapes8(t: ActionType)
    requires t.CHANGE_TEAM_STAT? || t.CHANGE_HEALTH? || t.MESSAGE?
    ensures ActionShape(ActionDescriptor(t))
  {
  }

  lemma ActionShapes9(t: ActionType)
    requires t.RANDOM? || t.SET_VELOCITY? || t.TELEPORT?
    ensures ActionShape(ActionDescriptor(t))
  {
  }

  lemma ActionShapes10(t: ActionType)
    requires t.EXIT? || t.CANCEL_EVENT? || t.GIVE_ITEM?
    ensures ActionShape(ActionDescriptor(t))
  {
  }

  lemma ActionShapes11(t: ActionType)
    requires t.REMOVE_ITEM? || t.APPLY_POTION_EFFECT? || t.CLEAR_POTION_EFFECTS?
    ensures ActionShape(ActionDescriptor(t))
  {
  }

  lemma ActionShapes12(t: ActionType)
    requires t.GIVE_EXPERIENCE_LEVELS? || t.SEND_TO_LOBBY? || t.FAIL_PARKOUR?
    ensures ActionShape(ActionDescriptor(t))
  {
  }

  /** No condition has a field of conditions or of actions. */
  lemma ConditionKindsFlat(t: ConditionType, key: string)
    ensures KindOf(ConditionDescriptor(t), key) != Some(Conditions)
    ensures KindOf(ConditionDescriptor(t), key) != Some(Actions)
  {
    if t.COMPARE_HEALTH? || t.COMPARE_HUNGER? || t.COMPARE_MAX_HEALTH? {
      ConditionsFlat1(t);
    } else if t.COMPARE_PLACEHOLDER? || t.IS_DOING_PARKOUR? || t.IS_FLYING? {
      ConditionsFlat2(t);
    } else if t.IS_IN_REGION? || t.IS_SNEAKING? || t.REQUIRE_GROUP? {
      ConditionsFlat3(t);
    } else if t.REQUIRE_ITEM? || t.REQUIRE_PERMISSION? || t.REQUIRE_POTION_EFFECT? {
      ConditionsFlat4(t);
    } else if t.REQUIRE_TEAM? || t.COMPARE_GLOBAL_STAT? || t.COMPARE_TEAM_STAT? {
      ConditionsFlat5(t);
    } else {
      ConditionsFlat6(t);
    }
    LacksKind(ConditionDescriptor(t), Conditions, key);
    LacksKind(ConditionDescriptor(t), Actions, key);
  }

  lemma ConditionsFlat1(t: ConditionType)
    requires t.COMPARE_HEALTH? || t.COMPARE_HUNGER? || t.COMPARE_MAX_HEALTH?
    ensures Lacks(ConditionDescriptor(t), Conditions) && Lacks(ConditionDescriptor(t), Actions)
  {
  }

  lemma ConditionsFlat2(t: ConditionType)
    requires t.COMPARE_PLACEHOLDER? || t.IS_DOING_PARKOUR? || t.IS_FLYING?
    ensures Lacks(ConditionDescriptor(t), Conditions) && Lacks(ConditionDescriptor(t), Actions)
  {
  }

  lemma ConditionsFlat3(t: ConditionType)
    requires t.IS_IN_REGION? || t.IS_SNEAKING? || t.REQUIRE_GROUP?
    ensures Lacks(ConditionDescriptor(t), Conditions) && Lacks(ConditionDescriptor(t), Actions)
  {
  }

  lemma ConditionsFlat4(t: ConditionType)
    requires t.REQUIRE_ITEM? || t.REQUIRE_PERMISSION? || t.REQUIRE_POTION_EFFECT?
    ensures Lacks(ConditionDescriptor(t), Conditions) && Lacks(ConditionDescriptor(t), Actions)
  {
  }

  lemma ConditionsFlat5(t: ConditionType)
    requires t.REQUIRE_TEAM? || t.COMPARE_GLOBAL_STAT? || t.COMPARE_TEAM_STAT?
    ensures Lacks(ConditionDescriptor(t), Conditions) && Lacks(ConditionDescriptor(t), Actions)
  {
  }

  lemma ConditionsFlat6(t: ConditionType)
    requires t.COMPARE_STAT? || t.REQUIRE_GAMEMODE? || t.COMPARE_DAMAGE?
    ensures Lacks(ConditionDescriptor(t), Conditions) && Lacks(ConditionDescriptor(t), Actions)
  {
  }
}
