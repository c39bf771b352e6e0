/** The type tags of actions, conditions and action holders
  * (the `type` discriminants of the IR, src/semantics.ts:35-289). */
module NodeTypes {
  datatype ActionType =
    | APPLY_INVENTORY_LAYOUT | CHANGE_HUNGER | DROP_ITEM | ENCHANT_HELD_ITEM | FUNCTION
    | LAUNCH | PAUSE | PLAY_SOUND | SET_COMPASS_TARGET | SET_GAMEMODE | SET_MENU | SET_TEAM
    | CONDITIONAL | SET_GROUP | KILL | HEAL | TITLE | ACTION_BAR | RESET_INVENTORY
    | CHANGE_MAX_HEALTH | CHANGE_STAT | CHANGE_GLOBAL_STAT | CHANGE_TEAM_STAT | CHANGE_HEALTH
    | MESSAGE | RANDOM | SET_VELOCITY | TELEPORT | EXIT | CANCEL_EVENT | GIVE_ITEM
    | REMOVE_ITEM | APPLY_POTION_EFFECT | CLEAR_POTION_EFFECTS | GIVE_EXPERIENCE_LEVELS
    | SEND_TO_LOBBY | FAIL_PARKOUR

  datatype ConditionType =
    | COMPARE_HEALTH | COMPARE_HUNGER | COMPARE_MAX_HEALTH | COMPARE_PLACEHOLDER
    | IS_DOING_PARKOUR | IS_FLYING | IS_IN_REGION | IS_SNEAKING | REQUIRE_GROUP
    | REQUIRE_ITEM | REQUIRE_PERMISSION | REQUIRE_POTION_EFFECT | REQUIRE_TEAM
    | COMPARE_GLOBAL_STAT | COMPARE_TEAM_STAT | COMPARE_STAT | REQUIRE_GAMEMODE
    | COMPARE_DAMAGE

  datatype HolderType = UNKNOWN | FUNCTION_HOLDER | EVENT

  /** The tag of any node. */
  datatype NodeType = Act(a: ActionType) | Cond(c: ConditionType) | Hold(h: HolderType)

  function ActionTypeName(t: ActionType): string
  {
    match t
    case APPLY_INVENTORY_LAYOUT => "APPLY_INVENTORY_LAYOUT"
    case CHANGE_HUNGER => "CHANGE_HUNGER"
    case DROP_ITEM => "DROP_ITEM"
    case ENCHANT_HELD_ITEM => "ENCHANT_HELD_ITEM"
    case FUNCTION => "FUNCTION"
    case LAUNCH => "LAUNCH"
    case PAUSE => "PAUSE"
    case PLAY_SOUND => "PLAY_SOUND"
    case SET_COMPASS_TARGET => "SET_COMPASS_TARGET"
    case SET_GAMEMODE => "SET_GAMEMODE"
    case SET_MENU => "SET_MENU"
    case SET_TEAM => "SET_TEAM"
    case CONDITIONAL => "CONDITIONAL"
    case SET_GROUP => "SET_GROUP"
    case KILL => "KILL"
    case HEAL => "HEAL"
    case TITLE => "TITLE"
    case ACTION_BAR => "ACTION_BAR"
    case RESET_INVENTORY => "RESET_INVENTORY"
    case CHANGE_MAX_HEALTH => "CHANGE_MAX_HEALTH"
    case CHANGE_STAT => "CHANGE_STAT"
    case CHANGE_GLOBAL_STAT => "CHANGE_GLOBAL_STAT"
    case CHANGE_TEAM_STAT => "CHANGE_TEAM_STAT"
    case CHANGE_HEALTH => "CHANGE_HEALTH"
    case MESSAGE => "MESSAGE"
    case RANDOM => "RANDOM"
    case SET_VELOCITY => "SET_VELOCITY"
    case TELEPORT => "TELEPORT"
    case EXIT => "EXIT"
    case CANCEL_EVENT => "CANCEL_EVENT"
    case GIVE_ITEM => "GIVE_ITEM"
    case REMOVE_ITEM => "REMOVE_ITEM"
    case APPLY_POTION_EFFECT => "APPLY_POTION_EFFECT"
    case CLEAR_POTION_EFFECTS => "CLEAR_POTION_EFFECTS"
    case GIVE_EXPERIENCE_LEVELS => "GIVE_EXPERIENCE_LEVELS"
    case SEND_TO_LOBBY => "SEND_TO_LOBBY"
    case FAIL_PARKOUR => "FAIL_PARKOUR"
  }

  function ConditionTypeName(t: ConditionType): string
  {
    match t
    case COMPARE_HEALTH => "COMPARE_HEALTH"
    case COMPARE_HUNGER => "COMPARE_HUNGER"
    case COMPARE_MAX_HEALTH => "COMPARE_MAX_HEALTH"
    case COMPARE_PLACEHOLDER => "COMPARE_PLACEHOLDER"
    case IS_DOING_PARKOUR => "IS_DOING_PARKOUR"
    case IS_FLYING => "IS_FLYING"
    case IS_IN_REGION => "IS_IN_REGION"
    case IS_SNEAKING => "IS_SNEAKING"
    case REQUIRE_GROUP => "REQUIRE_GROUP"
    case REQUIRE_ITEM => "REQUIRE_ITEM"
    case REQUIRE_PERMISSION => "REQUIRE_PERMISSION"
    case REQUIRE_POTION_EFFECT => "REQUIRE_POTION_EFFECT"
    case REQUIRE_TEAM => "REQUIRE_TEAM"
    case COMPARE_GLOBAL_STAT => "COMPARE_GLOBAL_STAT"
    case COMPARE_TEAM_STAT => "COMPARE_TEAM_STAT"
    case COMPARE_STAT => "COMPARE_STAT"
    case REQUIRE_GAMEMODE => "REQUIRE_GAMEMODE"
    case COMPARE_DAMAGE => "COMPARE_DAMAGE"
  }

  function HolderTypeName(t: HolderType): string
  {
    match t
    case UNKNOWN => "UNKNOWN"
    case FUNCTION_HOLDER => "FUNCTION"
    case EVENT => "EVENT"
  }

  /** The `type` string of a node. */
  function TypeName(t: NodeType): string
  {
    match t
    case Act(a) => ActionTypeName(a)
    case Cond(c) => ConditionTypeName(c)
    case Hold(h) => HolderTypeName(h)
  }
}
