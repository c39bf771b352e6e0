# HTSL toolchain, modelled in Dafny

HTSL is a small line-oriented scripting language. A program is a list of
action holders: a function, an event, or unnamed top-level code. Each
holder holds actions, such as changing a stat, sending a title or running
a conditional over a list of conditions. The toolchain does the following:

- lexes and parses HTSL into a spanned intermediate representation (IR),
  with error recovery;
- checks the IR with four validation passes;
- regenerates formatted source from a modified, span-free action tree by
  diffing it against the old tree and emitting minimal text edits;
- prints such a tree directly (the code generator);
- feeds two consumers: the editors' inlay hints and the in-game importer's
  list of menu steps.

This project models that core one module per source file:

| module | file(s) | form |
|---|---|---|
| `Spans`, `Wrappers` | `src/span.ts`, `src/types/span.ts`, `src/diagnostic.ts` | spans, diagnostics, `Option`/`Result` for absent values and thrown errors |
| `LexSpec`, `LexerClass` | `src/parse/lexer.ts` | the lexer as functions of the source and cursor (`Scan`), and the imperative `Lexer` class proved equal to them |
| `Tokens` | `src/parse/token.ts` | token variants, `token`, `tokenToString` and its tables |
| `Helpers` | `src/helpers.ts` | `partialEq`, `isAction` |
| `Context` | `src/context.ts` | the diagnostics sink, a class whose `Emit` appends |
| `ParserCore` | `src/parse/parser.ts` | the `Parser` class over the lexer's token sequence: cursor, recovery, `parseI64`, stat names, modes and amounts, and the parser members that the statement parsers call |
| `Arguments` | `src/parse/arguments.ts`, `src/parse/placeholders.ts` | the argument readers as parser methods |
| `ParseTree` | `src/parse/actions.ts`, `conditions.ts`, `holders.ts`, and the loops of `src/parse/parser.ts` | the statement parsers, table-driven, with `parseCompletely`, `parseBlock` and `parseDelimitedCommaSeq` |
| `NodeTypes`, `Ir` | `src/ir.ts` | IR nodes with ordered fields, `unwrapIr`, `irKeys` |
| `Semantics` | `src/semantics.ts` | the descriptor tables and option lists |
| `Validation`, `Limits`, `Nesting`, `ContextRules`, `Cooldowns`, `ValidatePasses` | `src/validate/*.ts` | the validation passes as methods appending to a parse-result object, each proved against a function |
| `Diffs` | `src/transform/diff.ts` | Myers' forward pass over an array `v`, with its trace and backtrack, proved to give a shortest type-matching script |
| `TextEdits` | `src/transform/edit.ts` | `applyEdits` with offset accumulation, and its length and locality laws |
| `Scripts`, `JsValues`, `Strings`, `Styles` | shared | reading a diff script; JavaScript value and string operations |
| `Transform`, `HolderTransform` | `src/transform/arguments.ts`, `actions.ts`, `conditions.ts`, `holders.ts` | edit synthesis: insert-side functions, and modify loops as methods |
| `CodegenHelpers`, `CodegenArguments`, `CodegenActions`, `CodegenHolders` | `src/codegen/*.ts` | the string code generator |
| `InlayHints` | `editors/common/src/inlayHints.ts` | the hint traversal as methods proved against functions |
| `CtUtils`, `CtSteps` | `ct_module/src/utils.ts`, `ct_module/src/steps/*.ts` | key normalisation, formatting removal, and the importer's step lists |

Two places in the source are worth knowing before reading the model:

- The descriptor table at src/semantics.ts:154-157 gives CHANGE_HUNGER's `amount` the kind "operation" and its `op` the kind "amount", the reverse of what src/parse/actions.ts:302-307 reads. The model keeps the table as written (`Semantics.ActionDescriptorAsWritten`) and uses the corrected table everywhere else (see Findings).
- IR fields are always `{ value, span }` objects, so the "absent fields are skipped" tests in the inlay-hint traversal never skip a field.

The edit-synthesis contracts (`Transform.ActionsOutcome`, `Transform.ConditionsOutcome`, `HolderTransform.HoldersOutcome`) say the edits follow *some* script that aligns the two lists and is shortest in the sense of `Scripts.Shortest`; they do not pin down which one. The script `Diffs.Diff` returns is such a script, which is what its own contract states, and `Transform.ShortestScript` is the call the modify methods make to obtain it.

## Model

| member | source | states |
|---|---|---|
| CodegenHelpers.ErrorText | src/codegen/helpers.ts:3-5 | the message sits between `/* error: ` and ` */` and can be read back from the text |
| CodegenHelpers.Hint | src/codegen/helpers.ts:7-9 | the message sits between `/* ` and ` */` and can be read back from the text |
| CodegenHelpers.Concat | src/codegen/helpers.ts:11-19 | the loop builds the elements joined by the separator (`""` for no element) |
| CodegenHelpers.MaybeQuote | src/codegen/helpers.ts:21-24 | quoted exactly when the name holds a space, otherwise the name itself |
| CodegenHelpers.CapitalizeWords | src/codegen/helpers.ts:36-38 | splitting at spaces, capitalising each piece and joining gives the text with each word's first letter upper-cased in place |
| CodegenHelpers.CapitalsSplit | src/codegen/helpers.ts:36-38 | capitalising the pieces of a split and joining them again equals capitalising every character after a space |
| CodegenHelpers.Cased | src/codegen/helpers.ts:30-39 | character by character: all lower, all upper, or lower with the first letter of each word upper |
| CodegenHelpers.WithWrittenStyle | src/codegen/helpers.ts:26-44 | the cased name, quoted exactly when the style says so or the name holds a space |
| CodegenHelpers.CapitalizedOneWord | src/codegen/helpers.ts:36-38 | a lower-case single word changes only its first letter |
| CodegenArguments.GenerateOperation | src/codegen/arguments.ts:32-41 | the symbol from the table in symbolic style, the styled name (`inc`, `dec`, `set`, `mul`, `div`) otherwise |
| CodegenArguments.GenerateComparison | src/codegen/arguments.ts:43-52 | the symbol from the table in symbolic style, the styled comparison name otherwise |
| CodegenArguments.GenerateValue | src/codegen/arguments.ts:54-59 | a value is written as nothing |
| CodegenArguments.GenerateBoolean | src/codegen/arguments.ts:61-66 | `true` exactly for true and `false` exactly for false |
| CodegenArguments.GenerateString | src/codegen/arguments.ts:68-73 | the text between double quotes, unescaped |
| CodegenArguments.LowerCased | src/codegen/helpers.ts:26-44 | lower-casing a styled lower-case name gives the name back in any capitalization |
| CodegenArguments.WrittenInjective | src/codegen/helpers.ts:26-44 | two lower-case names written in one style give the same text only if they are equal |
| CodegenArguments.WrittenOperationDetermines | src/codegen/arguments.ts:12-18 | in a written style the text of an operation determines the operation |
| CodegenArguments.WrittenComparisonDetermines | src/codegen/arguments.ts:20-30 | in a written style the text of a comparison determines the comparison |
| CodegenArguments.OperationNameInjective | src/codegen/arguments.ts:12-18 | no two operations share a name |
| CodegenArguments.ComparisonNameInjective | src/codegen/arguments.ts:20-30 | no two comparisons share a name |
| CodegenArguments.WrittenComparisonQuoted | src/codegen/arguments.ts:43-52 | every written comparison other than `equals` holds a space and so comes out quoted |
| Context.CompileCtx.constructor | src/context.ts:7-9 | a new context has no diagnostics |
| Context.CompileCtx.Emit | src/context.ts:11-13 | exactly one diagnostic is appended and the earlier ones are kept in order |
| ContextRules.CheckContext | src/validate/context.ts:4-10 | the diagnostics gain exactly the context errors of every holder, in holder order |
| ContextRules.CheckHolderContext | src/validate/context.ts:12-29 | a holder adds its exit errors, then (unless it is of unknown type) its cancel-event errors and its damage-condition errors |
| ContextRules.UnknownHolderOnlyExits | src/validate/context.ts:18-20 | a holder of unknown type is checked for exits only |
| ContextRules.CheckActionContext | src/validate/context.ts:31-51 | the diagnostics gain the cancel-event errors of the actions, in order, bodies first |
| ContextRules.CheckConditionalContext | src/validate/context.ts:53-68 | the diagnostics gain one error per damage condition outside the Player Damage event |
| ContextRules.CheckTopConditionals | src/validate/context.ts:24-28 | the conditions of each top-level conditional are checked in order |
| ContextRules.CheckExitActions | src/validate/context.ts:70-84 | the diagnostics gain the exit errors of the actions, descending only into random actions |
| ContextRules.ExitsReported | src/validate/context.ts:70-84 | the number of exit errors equals the number of exits reachable through random actions only |
| ContextRules.ExitMessagesOnly | src/validate/context.ts:76 | every exit diagnostic is an error carrying the exit message |
| ContextRules.CancelsReported | src/validate/context.ts:31-51 | in an event nothing is reported; elsewhere one error per cancel-event reachable through conditionals and random actions |
| ContextRules.DamageReported | src/validate/context.ts:58-67 | in the Player Damage event nothing is reported; elsewhere one error per damage condition |
| Cooldowns.CheckCooldowns | src/validate/cooldowns.ts:8-12 | with the inherited-name test corrected (see Findings), the diagnostics gain the warnings of every holder's actions, each holder starting with no cooldowns |
| Cooldowns.CheckCooldownsForActions | src/validate/cooldowns.ts:14-53 | with the inherited-name test corrected, the diagnostics gain exactly the warnings of the left-to-right run over the actions from the given cooldowns |
| Cooldowns.CheckAction | src/validate/cooldowns.ts:19-51 | with the inherited-name test corrected, one loop pass adds the step's warnings and returns the cooldowns the step leaves |
| Cooldowns.CheckEach | src/validate/cooldowns.ts:28-30 | with the inherited-name test corrected, each sub-action of a random action is checked alone from a copy of the cooldowns |
| Cooldowns.FunctionName | src/validate/cooldowns.ts:32-34 | no name exactly when the call has no `function` field |
| Cooldowns.DoesActionPause | src/validate/cooldowns.ts:55-77 | true exactly for a pause, a random action with a pause among its sub-actions, or a conditional with a pause among either branch's actions |
| Cooldowns.FirstCallNeverWarns | src/validate/cooldowns.ts:36-46 | with the inherited-name test corrected, the first call of a stretch never warns |
| Cooldowns.WarnsOnlyRecorded | src/validate/cooldowns.ts:36-40 | a warning needs the name on cooldown; a recorded global call, or a local call after any record, always warns |
| Cooldowns.OnlyNeverRunWarnings | src/validate/cooldowns.ts:41 | every diagnostic of the pass is a warning saying the function will never run |
| Cooldowns.CooldownsOnlyGrow | src/validate/cooldowns.ts:43-45 | without a pause, every name on cooldown stays on cooldown |
| Cooldowns.SingletonIsStep | src/validate/cooldowns.ts:28-30 | checking `[subAction]` gives the same warnings as one step of the loop |
| Cooldowns.BranchesDoNotLeak | src/validate/cooldowns.ts:20-30 | the branches of a conditional and the sub-actions of a random action work on copies: afterwards the cooldowns are unchanged, or empty when the action pauses |
| Cooldowns.PauseForgets | src/validate/cooldowns.ts:49-51 | after a pausing action the rest is checked as if the stretch began there |
| Cooldowns.PlainRepeatedCallNotWarned | src/validate/cooldowns.ts:39-44 | a call without `global` is checked as global but recorded as local, so the same call twice in a row is not warned about |
| Cooldowns.PrototypeNameWarnsAsWritten | src/validate/cooldowns.ts:37 | as written, `name in cooldowns` finds `toString` on an empty object, so a first call to `toString` warns; the corrected test does not |
| Cooldowns.AsWrittenAgreesOffPrototype | src/validate/cooldowns.ts:36-40 | the as-written and corrected tests agree on every name not inherited from `Object.prototype` |
| CtUtils.TrimStart | ct_module/src/utils.ts:5 | a suffix of the input that does not start with white space, all that was cut being white space |
| CtUtils.TrimEnd | ct_module/src/utils.ts:5 | a prefix of the input that does not end with white space, all that was cut being white space |
| CtUtils.Trim | ct_module/src/utils.ts:5 | neither end of the result is white space; text without white space is unchanged |
| CtUtils.CollapseSpaces | ct_module/src/utils.ts:6 | no white space is left, the text does not grow, and text without white space is unchanged |
| CtUtils.KeepWordChars | ct_module/src/utils.ts:7 | only `[a-zA-Z0-9_]` characters are left, and text made of them alone is unchanged |
| CtUtils.Normalized | ct_module/src/utils.ts:3-9 | the result is made of `[a-z0-9_]` only, and a string already made of them comes back unchanged |
| CtUtils.LowerWordChars | ct_module/src/utils.ts:7-8 | lower-casing word characters leaves only key characters |
| CtUtils.KeyCharsStay | ct_module/src/utils.ts:3-9 | key characters pass trimming, collapsing, filtering and lower-casing untouched |
| CtUtils.NormalizedIdempotent | ct_module/src/utils.ts:3-9 | normalizing twice is normalizing once |
| CtUtils.MatchesKeyPattern | ct_module/src/utils.ts:12 | the anchored pattern `^[a-z0-9_]+$` accepts exactly the non-empty strings of key characters |
| CtUtils.AssertIsNormalized | ct_module/src/utils.ts:11-15 | succeeds exactly on a non-empty string of `[a-z0-9_]`; otherwise throws `Key "<str>" is not normalized` |
| CtUtils.NormalizedPasses | ct_module/src/utils.ts:3-15 | the output of `normalized` passes `assertIsNormalized` exactly when it is not empty |
| CtUtils.RemoveFormatting | ct_module/src/utils.ts:17-19 | text with no marker-and-code pair is unchanged; otherwise at least one pair (two characters) is removed |
| CtUtils.RemoveFormattingNotIdempotent | ct_module/src/utils.ts:17-19 | `&&aa` becomes `&a`, and removing again gives the empty string: the replace is not idempotent |
| CtUtils.NoMarkerUnchanged | ct_module/src/utils.ts:17-19 | text without `§` or `&` is never changed |
| CtSteps.Followed | ct_module/src/steps/generateSteps.ts:146-153 | two step lists built in turn: the first exception, or both lists concatenated |
| CtSteps.FollowedAssoc | ct_module/src/steps/generateSteps.ts:146-153 | building in turn is associative |
| CtSteps.FollowedUnit | ct_module/src/steps/generateSteps.ts:146-153 | an empty step list is neutral on either side |
| CtSteps.BooleanAsValue | ct_module/src/steps/helpers.ts:5-7 | `Enabled` exactly for a truthy value, `Disabled` otherwise |
| CtSteps.NumberAsValue | ct_module/src/steps/helpers.ts:9-11 | throws exactly on `undefined` or `null`; an integer gives its decimal text |
| CtSteps.StringAsValue | ct_module/src/steps/helpers.ts:13-15 | a string is passed on unchanged |
| CtSteps.StepsClickButtonThenSelectValue | ct_module/src/steps/helpers.ts:17-43 | succeeds exactly when each key or value flagged as normalized is a normalized key; the key is checked before the value; on success a click then a select step with the given key, value and flags |
| CtSteps.StepsAddAction | ct_module/src/steps/helpers.ts:45-48 | the extra check of the action name decides nothing the add-action pair does not already decide |
| CtSteps.AddActionOk | ct_module/src/steps/helpers.ts:45-48 | with a normalized name, the add-action click and select pair |
| CtSteps.FixedPair | ct_module/src/steps/helpers.ts:17-43 | a pair under a normalized key with an unchecked value always builds |
| CtSteps.StepClickButtonOrNextPage | ct_module/src/steps/helpers.ts:58-90 | throws exactly when the name is flagged as normalized but is not; otherwise one conditional step probing for that slot |
| CtSteps.FixedKeys | ct_module/src/steps/generateSteps.ts:18-75 | the menu keys written into the step builders are all normalized, so their checks never throw |
| CtSteps.StepsFromAction | ct_module/src/steps/generateSteps.ts:15-144 | an action type with no steps of its own gives none; a value that is not an action throws `Unknown action type` |
| CtSteps.ConditionalSteps | ct_module/src/steps/generateSteps.ts:17-19 | a conditional gives only its add-action pair, nothing of its conditions or bodies |
| CtSteps.SetGroupSteps | ct_module/src/steps/generateSteps.ts:20-36 | a group change is seven steps: add-action pair, group pair, demotion-protection pair, back |
| CtSteps.SetGroupOk | ct_module/src/steps/generateSteps.ts:20-36 | the same seven steps, for any group and protection value |
| CtSteps.NumberPairOk | ct_module/src/steps/generateSteps.ts:41-75 | a duration pair builds exactly when the duration is present, and then selects its text |
| CtSteps.DurationsOk | ct_module/src/steps/generateSteps.ts:41-75 | the fade-in, stay and fade-out pairs build exactly when all three are present |
| CtSteps.TitleSteps | ct_module/src/steps/generateSteps.ts:41-75 | a title gives thirteen steps exactly when its three durations are present, and throws otherwise |
| CtSteps.TitleOk | ct_module/src/steps/generateSteps.ts:41-75 | the same, for any title, subtitle and durations |
| CtSteps.ActionList | ct_module/src/steps/generateSteps.ts:206-208 | an array of actions is walked as it is |
| CtSteps.HeaderSteps | ct_module/src/steps/generateSteps.ts:156-205 | an unknown holder has no header; a function holder runs `/function edit <name>` followed by one conditional step; an event holder opens the event menu; any other type throws `Unknown holder type` |
| CtSteps.EventHeader | ct_module/src/steps/generateSteps.ts:190-198 | builds exactly when the event is a string whose normalized form is not empty, and then opens `/eventactions` and probes for that key |
| CtSteps.EmptyEventKey | ct_module/src/steps/generateSteps.ts:190-198 | an event name that normalizes to nothing makes the holder throw the key error |
| CtSteps.UnknownHolderSteps | ct_module/src/steps/generateSteps.ts:156-210 | an unknown holder's steps are those of its actions |
| CtSteps.FoldAppend | ct_module/src/steps/generateSteps.ts:146-153 | the steps of two lists are those of the first followed by those of the second |
| CtSteps.FoldOk | ct_module/src/steps/generateSteps.ts:146-153 | a list builds exactly when every element's steps build |
| CtSteps.FoldErr | ct_module/src/steps/generateSteps.ts:146-153 | once a prefix throws, the whole list throws the same error |
| CtSteps.ActionsStepsAppend | ct_module/src/steps/generateSteps.ts:146-153 | the steps of concatenated action lists are the concatenated steps |
| CtSteps.HoldersStepsAppend | ct_module/src/steps/generateSteps.ts:212-219 | the steps of concatenated holder lists are the concatenated steps |
| CtSteps.StepsFromActions | ct_module/src/steps/generateSteps.ts:146-153 | the push loop computes the fold of the action steps, stopping at the first exception |
| CtSteps.StepsFromHolder | ct_module/src/steps/generateSteps.ts:155-210 | the header followed by the steps of the holder's actions |
| CtSteps.GenerateSteps | ct_module/src/steps/generateSteps.ts:212-219 | the loop computes the steps of the holders in order |
| Diffs.Diff | src/transform/diff.ts:21-63 | the script aligns the old elements with the new ones (deletes, inserts, and modifies between elements of the same type) and no aligning script has fewer inserts and deletes; an empty side gives only inserts or only deletes |
| Diffs.ShortestEdit | src/transform/diff.ts:65-102 | the trace holds one snapshot per round, the last round reaches the end on diagonal `|a| - |b|`, and no earlier round did |
| Diffs.Round | src/transform/diff.ts:79-98 | one round fills every diagonal with its furthest reach, or stops when the end is reached |
| Diffs.Visit | src/transform/diff.ts:80-93 | one diagonal of a round: the cell becomes the furthest reach on that diagonal and no other cell changes |
| Diffs.StartIs | src/transform/diff.ts:82-86 | the choice between stepping down from `k+1` and right from `k-1` picks the start of the furthest path |
| Diffs.StartFromRow | src/transform/diff.ts:82-86 | the same choice made from the cells of the previous round |
| Diffs.Slide | src/transform/diff.ts:89-92 | the diagonal walk stops at the first pair of elements of different types |
| Diffs.Snake | src/transform/diff.ts:89-92 | the end of the diagonal run: every pair passed has equal types, and the pair it stops at does not |
| Diffs.FarReaches | src/transform/diff.ts:76-98 | every edit path of cost `c` ends on a diagonal the round `c` reaches at least as far |
| Diffs.ReachesEnd | src/transform/diff.ts:95-97 | a path of cost `c` to the end makes round `c` stop |
| Diffs.StopRoundIsMinimal | src/transform/diff.ts:95-97 | the round at which the search stops is no larger than the cost of any aligning script |
| Diffs.ExactEnd | src/transform/diff.ts:95-97 | the first diagonal that reaches past both ends reaches exactly `(|a|, |b|)` |
| Diffs.Terminates | src/transform/diff.ts:76-101 | round `|a| + |b|` always reaches the end, so `No diff path found` is never thrown |
| Diffs.ScriptPath | src/transform/diff.ts:21-63 | every aligning script is an edit path to the end whose cost is its number of inserts and deletes |
| Diffs.ScriptCost | src/transform/diff.ts:40-56 | the cost of a script's path is its number of inserts and deletes |
| Diffs.EmptySides | src/transform/diff.ts:21-63 | a script reading no old element only inserts; one writing no new element only deletes |
| Diffs.PrevFromRow | src/transform/diff.ts:32-38 | the backtrack's choice of `prevK` finds the diagonal and reach of the previous round the furthest path came from |
| Diffs.Predecessor | src/transform/diff.ts:32-48 | the point before the last insert or delete of the furthest path, and the diagonal run after it |
| Diffs.Unwind | src/transform/diff.ts:40-48 | the modify loop prepends one modify per diagonal step and keeps the script a valid tail |
| Diffs.Back | src/transform/diff.ts:27-60 | one backtrack step prepends the modifies and the insert or delete of round `d` and moves to the previous round's point |
| Helpers.Keys | src/helpers.ts:2-6 | `Object.keys`: one key per entry, in insertion order; the same function lists a descriptor's field names |
| Helpers.PartialEqMeaning | src/helpers.ts:2-6 | `partialEq` holds exactly when every key of the target has an equal value in the source |
| Helpers.PartialEqByKeys | src/helpers.ts:2-6 | the same, stated over the set of the target's keys |
| Helpers.PartialEqEmptyTarget | src/helpers.ts:2-6 | an empty target matches every source |
| Helpers.PartialEqIgnoresOtherKeys | src/helpers.ts:2-6 | two sources that agree on the target's keys are matched alike, whatever else they hold |
| Helpers.IncludesIsMembership | src/helpers.ts:8-16 | the scan of `includes` finds exactly the members of the list |
| Helpers.IsActionScans | src/helpers.ts:8-16 | `isAction` accepts exactly the listed action keywords |
| Helpers.IsActionAt | src/helpers.ts:9-15 | every listed keyword is an action |
| HolderTransform.ModifyHolders | src/transform/holders.ts:11-34 | the edits are, entry by entry of the holder diff, an inserted holder and a newline at the cursor, an erasure of a deleted holder, or the edits of a modified one; the cursor moves to the end of each old holder met |
| HolderTransform.HolderEntry | src/transform/holders.ts:20-31 | one entry's edits, and the cursor after it: unchanged after an insert, the old holder's end otherwise |
| HolderTransform.HoldersRound | src/transform/holders.ts:20-31 | one loop round extends the edits by that entry's edits |
| HolderTransform.InsertHolder | src/transform/holders.ts:36-58 | the `goto` line of a function or event holder, then its actions, all inserted at the position |
| HolderTransform.InsertHolderAt | src/transform/holders.ts:36-58 | every edit of an inserted holder is an insertion at the given position |
| HolderTransform.InsertHolderPlaced | src/transform/holders.ts:36-58 | applying an inserted holder's edits puts their texts at the position and keeps the rest of the source |
| HolderTransform.InsertHolderHeader | src/transform/holders.ts:43-52 | a function holder starts with `goto function "<name>"`, an event holder with `goto event "<event>"`, an unknown holder with its actions |
| HolderTransform.ModifyHolder | src/transform/holders.ts:60-91 | the edits of each key of the old holder in order: the action diff at the cursor for `actions`, the argument's edits otherwise |
| HolderTransform.ModifyHolderField | src/transform/holders.ts:67-88 | one key of the old holder: its edits and the cursor after it; the old argument is always found, so no argument is inserted |
| HolderTransform.HolderPos | src/transform/holders.ts:66-82 | the cursor before a key: the keyword's end until a key that is not `actions` has been read, the end of the whole old holder afterwards |
| HolderTransform.ActionsAfterName | src/transform/holders.ts:66-82 | in a holder whose first key is not `actions` (a function holder's name), the actions are diffed at the end of the old holder |
| HolderTransform.HoldersFromEmpty | src/transform/holders.ts:20-23 | with no old holders, every new holder is inserted at 0, each followed by a newline |
| HolderTransform.HoldersToEmpty | src/transform/holders.ts:24-26 | with no new holders, every old holder is erased whole |
| HolderTransform.InsertHoldersAt | src/transform/holders.ts:20-23 | inserted holders land at the position, in order |
| HolderTransform.HoldersIntoEmptyFile | src/transform/holders.ts:11-34 | into an empty file, the new holders are written in order, each followed by a newline |
| HolderTransform.UnwrappedActions | src/transform/holders.ts:72 | the actions of an unwrapped holder are its old actions unwrapped |
| HolderTransform.HolderIdentity | src/transform/holders.ts:60-91 | modifying a stable holder into its own unwrapped form edits nothing |
| HolderTransform.HoldersIdentity | src/transform/holders.ts:11-34 | diffing stable holders against their own unwrapped forms edits nothing |
| Ir.IrKeys | src/ir.ts:72-74 | the field names of a node, in order, without `type`, `kwSpan` and `span` |
| Ir.FieldValue | src/ir.ts:72-74 | a value is found exactly when a field of that name exists |
| Ir.FindField | src/ir.ts:72-74 | a field is found exactly when one of that name exists, and it is a field of the node with that name |
| Ir.UnwrapIr | src/ir.ts:42-54 | the unwrapped node keeps the type and the keys in order |
| Ir.UnwrapValue | src/ir.ts:56-70 | leaves stay leaves with the same content, and a list keeps its length |
| Ir.UnwrapNodesElementwise | src/ir.ts:58-60 | a list is unwrapped element by element, in order |
| Ir.UnwrapFieldsElementwise | src/ir.ts:49-52 | each field keeps its name and has its value unwrapped |
| Ir.UnwrapKeepsLeaves | src/ir.ts:56-69 | `null`, `undefined` and the other leaves come back unchanged |
| Ir.UnwrapForgetsOnlySpans | src/ir.ts:42-70 | two nodes unwrap to the same value exactly when they differ only in spans |
| JsValues.StrictEqUnwrap | src/ir.ts:56-70 | a leaf is `===` its own unwrapped form unless it is an object; a list never is |
| JsValues.NullishIsFalsy | src/ir.ts:56-57 | `undefined` and `null` are falsy, and every list is truthy and not nullish |
| InlayHints.ProvideInlayHints | editors/common/src/inlayHints.ts:12-22 | the loop collects the hints of every holder's actions, holder by holder |
| InlayHints.ProvideInlayHintsForActions | editors/common/src/inlayHints.ts:24-57 | the loop collects the hints of the actions in order |
| InlayHints.HintsForAction | editors/common/src/inlayHints.ts:30-54 | one action: nothing for a stat change; otherwise the hints of nested conditions and bodies, then one hint per key |
| InlayHints.HintsNested | editors/common/src/inlayHints.ts:36-43 | a conditional gives its conditions' hints, then its if-branch's, then its else-branch's; a random action gives its actions' hints |
| InlayHints.HintsForKeys | editors/common/src/inlayHints.ts:45-53 | one hint per key of the action, named after the key and placed at its value's span, leaving out `ifActions` and `elseActions` |
| InlayHints.FieldHints | editors/common/src/inlayHints.ts:45-53 | at most one hint per key; with the branch keys skipped none of the hints is a branch key; without branch keys, every key is labelled in order |
| InlayHints.FieldHintsSnoc | editors/common/src/inlayHints.ts:45-53 | one more key adds its own hint at the end, unless it is a skipped branch key |
| InlayHints.ProvideInlayHintsForConditions | editors/common/src/inlayHints.ts:59-75 | every key of every condition, in order, labelled at its value's span |
| InlayHints.OneConditionHints | editors/common/src/inlayHints.ts:64-71 | a single condition gives one hint per key |
| InlayHints.ActionHints | editors/common/src/inlayHints.ts:30-34 | a stat change gives no hints |
| InlayHints.StatActionSilent | editors/common/src/inlayHints.ts:30-34 | removing a stat change from a list of actions does not change the hints |
| InlayHints.PlainActionHints | editors/common/src/inlayHints.ts:45-53 | an action with no nested actions and no branch keys gets exactly one hint per key |
| InlayHints.ActionsHintsAppend | editors/common/src/inlayHints.ts:24-57 | the hints of concatenated action lists are the concatenated hints |
| InlayHints.HoldersHintsAppend | editors/common/src/inlayHints.ts:12-22 | the hints of concatenated holder lists are the concatenated hints |
| LexerClass.Lexer.constructor | src/parse/lexer.ts:9-12 | a new lexer holds the source with its cursor at 0 |
| LexerClass.Lexer.HasNext | src/parse/lexer.ts:183-185 | true exactly while the cursor is before the end |
| LexerClass.Lexer.Peek | src/parse/lexer.ts:191-193 | the character `skip` places ahead, or `""` exactly when that is past the end |
| LexerClass.Lexer.PeekIs | src/parse/lexer.ts:191-193 | true exactly when the next character is the given one |
| LexerClass.Lexer.Next | src/parse/lexer.ts:187-189 | returns the character at the cursor and advances by one |
| LexerClass.Lexer.AdvanceToken | src/parse/lexer.ts:14-181 | the token read, or the error thrown, and the new cursor are those of the scanning function `Scan` |
| LexerClass.Lexer.SkipLineComment | src/parse/lexer.ts:27-29 | the cursor stops at the next newline or the end |
| LexerClass.Lexer.SkipBlockComment | src/parse/lexer.ts:34-49 | the cursor stops just after the comment's matching close, nested comments counted, or at the end |
| LexerClass.Lexer.LexToken | src/parse/lexer.ts:54-180 | the token starting at the cursor and the cursor after it are those of `ScanToken` |
| LexerClass.Lexer.LexWithEq | src/parse/lexer.ts:57-111 | an operator followed by `=` becomes its two-character form |
| LexerClass.Lexer.LexString | src/parse/lexer.ts:123-137 | the string value and cursor are those of `StrLit` |
| LexerClass.Lexer.LexPlaceholder | src/parse/lexer.ts:140-148 | the placeholder value and cursor are those of `PlaceholderLit` |
| LexerClass.Lexer.LexDigits | src/parse/lexer.ts:153-163 | the maximal run of digits is appended to the value |
| LexSpec.SkipBlanks | src/parse/lexer.ts:16-18 | stops at the first character that is not a blank (newlines are not blanks), having passed only blanks |
| LexSpec.LineEnd | src/parse/lexer.ts:27-29 | the first newline at or after the position, or the end, with no newline before it |
| LexSpec.BlockEnd | src/parse/lexer.ts:38-49 | the end of a block comment lies within the input |
| LexSpec.DigitRun | src/parse/lexer.ts:151-163 | the end of the maximal run of digits |
| LexSpec.IdentRun | src/parse/lexer.ts:169-175 | the end of the maximal run of identifier characters |
| LexSpec.Scan | src/parse/lexer.ts:14-181 | every token read lies within the input, after the cursor, and the cursor ends at its span's end |
| LexSpec.EofAtEnd | src/parse/lexer.ts:19 | at the end of input the lexer returns `eof` with an empty span and does not move |
| LexSpec.EofIsSticky | src/parse/lexer.ts:19 | after `eof`, reading again gives `eof` again |
| LexSpec.BlanksThenNewline | src/parse/lexer.ts:16-19 | blanks in front of a newline are skipped and the newline is a one-character `eol` token |
| LexSpec.LineCommentKeepsNewline | src/parse/lexer.ts:25-31 | a line comment stops before its newline, which still comes out as `eol` |
| LexSpec.BlockEndNests | src/parse/lexer.ts:38-49 | block comments nest: closing the inner comments first, then the outer ones, ends at the same place |
| LexSpec.UnclosedBlockRunsToEnd | src/parse/lexer.ts:39-49 | a block comment that never closes swallows the rest of the input |
| LexSpec.ClosedBlockEndsWithCloser | src/parse/lexer.ts:44-47 | a closed block comment ends just after a `*/` |
| LexSpec.TwoCharOperatorsWin | src/parse/lexer.ts:57-111 | `+= -= *= /= ** == <= >=` give one two-character token whose symbol is those two characters |
| LexSpec.OperatorTokenIsItsSymbol | src/parse/lexer.ts:54-120 | every operator, comparison, delimiter or comma token is the text it spans, and `tokenToString` prints that text |
| LexSpec.SymbolLexeme | src/parse/lexer.ts:54-120 | a symbol token spans its own one or two characters |
| LexSpec.StrLitReadsEscaped | src/parse/lexer.ts:124-135 | the string body reads back an escaped text as the original |
| LexSpec.StringLiteralRoundTrip | src/parse/lexer.ts:123-137 | `"` + escaped text + `"` is read as a string token holding the text, spanning both quotes |
| LexSpec.ScanQuote | src/parse/lexer.ts:123-137 | a `"` starts a string token ending where the literal ends |
| LexSpec.UnterminatedStringRunsToEnd | src/parse/lexer.ts:126-135 | a string literal that is never closed runs to the end of input |
| LexSpec.NumberTokens | src/parse/lexer.ts:151-167 | a number token carries its raw text: digits give `i64`, digits, a dot and digits give `f64`, and neither is followed by a digit |
| LexSpec.IdentifierTokens | src/parse/lexer.ts:169-176 | an identifier starts with a letter or `_`, runs over letters, `_` and `/`, and is maximal |
| LexSpec.UnknownCharacter | src/parse/lexer.ts:180 | a character with no branch, such as `!`, `~` or `.`, is the error `unknown token` with a one-character span |
| Validation.ParseResult.constructor | src/ir.ts:37-40 | a parse result holds the given holders and diagnostics |
| Validation.ParseResult.Push | src/validate/context.ts:76 | exactly one diagnostic is appended |
| Validation.FieldIndex | src/ir.ts:72-74 | the position of the first field with that key, or -1 exactly when there is none |
| Validation.ActionsOf | src/validate/limits.ts:67-70 | `n.key?.value ?? []`: no actions when the key is absent, otherwise the field's list |
| Validation.CountOf | src/validate/limits.ts:56-63 | a count of actions of one type is at most the number of actions |
| Limits.CheckLimits | src/validate/limits.ts:5-9 | with the missing-actions crash corrected, the diagnostics gain the limit errors of every holder's actions, holder by holder |
| Limits.CheckActionLimits | src/validate/limits.ts:53-73 | the diagnostics gain the block's own over-limit errors, then those of each conditional's or random action's bodies in order |
| Limits.CountDown | src/validate/limits.ts:56-63 | the counting loop reports each action met when its type's counter has reached zero |
| Limits.CheckBody | src/validate/limits.ts:66-71 | one body of a conditional or random action is checked as a block of its own |
| Limits.OverLimit | src/validate/limits.ts:56-63 | no more errors than actions |
| Limits.ReportedIsExcess | src/validate/limits.ts:54-63 | of `n` actions of a type with limit `l`, exactly `n - l` are reported when `n > l`, none otherwise |
| Limits.SilentIffWithinLimits | src/validate/limits.ts:54-63 | a block reports nothing of its own exactly when no type goes beyond its limit |
| Limits.AsWrittenThrowsIff | src/validate/limits.ts:7 | as written (`holder.actions.value` without `?.`), the pass throws exactly when some holder has no actions field |
| Limits.HolderWithoutActionsThrows | src/validate/limits.ts:7 | a function holder with no actions field makes the pass as written throw |
| Limits.CorrectedAgrees | src/validate/limits.ts:5-9 | wherever the pass as written does not throw, the corrected pass gives the same diagnostics |
| Nesting.CheckNesting | src/validate/nesting.ts:4-20 | the diagnostics gain, for each holder, the errors for every conditional or random action nested inside another one |
| Nesting.CheckActionNesting | src/validate/nesting.ts:29-49 | the diagnostics gain one error per conditional or random action in the list, at any depth, before its own nested ones |
| Nesting.CheckInner | src/validate/nesting.ts:43-48 | the bodies of one action are checked in the context of that action |
| Nesting.NestingCountsControls | src/validate/nesting.ts:29-49 | inside a context, every conditional and random action is reported once, however deep |
| Nesting.TopLevelCountsNested | src/validate/nesting.ts:4-20 | at the top, only the nested ones are reported: top-level reports plus top-level controls equal all controls |
| ValidatePasses.Validate | src/validate/index.ts:6-9 | with the corrected limits pass, the diagnostics gain the limit errors, then the context errors, then the nesting errors; whenever the limits pass as written does not throw, they are exactly what it adds |
| ParserCore.NotEofIsFollowed | src/parse/parser.ts:378-381 | in a token stream ending in `eof`, every other token has a successor |
| ParserCore.IdentPatMeaning | src/helpers.ts:2-6 | the pattern `{kind: "ident", value: v}` matches exactly the identifier `v` |
| ParserCore.StrPatMeaning | src/helpers.ts:2-6 | the pattern `{kind: "str", value: v}` matches exactly the string literal `v` |
| ParserCore.OpPatMeaning | src/helpers.ts:2-6 | an operator pattern matches exactly the tokens of its kind with that operator name |
| ParserCore.DelimPatMeaning | src/helpers.ts:2-6 | a delimiter pattern matches exactly the tokens of its kind with that delimiter |
| ParserCore.MinusPatMeaning | src/parse/parser.ts:255 | `{kind: "bin_op", op: "minus"}` matches exactly the `-` token |
| ParserCore.NameTable | src/parse/arguments.ts:236-310 | one row per name, tried in order with `eatOption` |
| ParserCore.NameTableSelects | src/parse/arguments.ts:236-310 | a table of names selects the name the token spells, if the table has it, and nothing otherwise |
| ParserCore.NameRowMatches | src/parse/parser.ts:341-344 | `eatOption(n)` matches exactly the identifier or string literal `n` |
| ParserCore.RecoverFrom | src/parse/parser.ts:350-358 | recovery never moves backwards and never past `eof` |
| ParserCore.RecoverReachesStop | src/parse/parser.ts:350-358 | recovery ends on a token where it stops |
| ParserCore.RecoverSkips | src/parse/parser.ts:350-358 | recovery passes over a token where it does not stop |
| ParserCore.RecoverStops | src/parse/parser.ts:350-358 | recovery from a stopping token stays where it is |
| ParserCore.RecoverIdempotent | src/parse/parser.ts:350-358 | recovering twice is recovering once |
| ParserCore.ReadI64 | src/parse/parser.ts:254-268 | the cursor never moves back, and a number read lies in the signed 64-bit range |
| ParserCore.ReadI64Digits | src/parse/parser.ts:255-266 | after an optional `-`, an `i64` token gives its value with the sign applied, or the 64-bit limit error at that token, and is consumed |
| ParserCore.ReadI64Decimal | src/parse/parser.ts:258-266 | a decimal up to 2^63 - 1 reads as itself, and after `-` every number up to 2^63 reads as its negation; larger ones are reported |
| ParserCore.ReadI64NeedsNumber | src/parse/parser.ts:257 | a token that is neither a number nor `-` is reported as `Expected number` and nothing is consumed |
| ParserCore.ExpectMessages | src/parse/parser.ts:360-364 | `expect` reports `Expected number` and `Expected string` for the kinds the readers need |
| ParserCore.StatNameCheck | src/parse/parser.ts:175-193 | accepts exactly a word token of 1 to 16 characters without spaces, with the error messages in the order of the checks |
| ParserCore.WordThenPattern | src/parse/parser.ts:208 | for a token that is not a word, the `set` row matches exactly when its pattern does |
| ParserCore.StatModeOfSymbol | src/parse/parser.ts:195-215 | for a token that is not a word, the mode selected is that of the first of the five rows whose pattern matches |
| ParserCore.StatModeCompoundAssignments | src/parse/parser.ts:196-207 | `+=`, `-=`, `*=` and `/=` select increment, decrement, multiply and divide; `**=` selects none |
| ParserCore.StatModeEqualsAsWritten | src/parse/parser.ts:208 | as written (operator name `equal`), the `=` token selects no mode |
| ParserCore.StatModeEqualsCorrected | src/parse/parser.ts:208 | with the operator name the lexer produces (`equals`), `=` selects `set` |
| ParserCore.Parser.constructor | src/parse/parser.ts:31-37 | a new parser stands on the first token with an empty `eof` as `prev` |
| ParserCore.Parser.Next | src/parse/parser.ts:378-381 | the current token becomes `prev` and the cursor advances (staying on `eof`) |
| ParserCore.Parser.Eat | src/parse/parser.ts:366-370 | advances exactly when the current token matches the pattern; otherwise nothing changes |
| ParserCore.Parser.EatIdent | src/parse/parser.ts:346-348 | advances exactly over the identifier with that text |
| ParserCore.Parser.EatOption | src/parse/parser.ts:341-344 | advances exactly over the identifier or string literal with that text |
| ParserCore.Parser.Expect | src/parse/parser.ts:360-364 | advances exactly over a matching token; otherwise throws `Expected <token>` at the current token without moving |
| ParserCore.Parser.EatAny | src/parse/parser.ts:196 | an `a \|\| b \|\| c` chain of eats: the first alternative that matches is eaten |
| ParserCore.Parser.EatFirst | src/parse/parser.ts:195-210 | a chain of `if (eat…) return v`: the value of the first row with a matching alternative, whose token is eaten; nothing changes when none matches |
| ParserCore.Parser.Recover | src/parse/parser.ts:350-358 | the cursor moves to where recovery stops |
| ParserCore.Parser.Catch | src/parse/parser.ts:279-297 | a value is passed on with nothing changed; a thrown diagnostic is emitted once and the parser recovers |
| ParserCore.Parser.ParseI64 | src/parse/parser.ts:254-268 | the result and the cursor are those of `ReadI64` |
| ParserCore.Parser.ParseStatName | src/parse/parser.ts:175-193 | the result is the stat-name check of the current token, which is eaten exactly when valid |
| ParserCore.Parser.ParseStatModeWith | src/parse/parser.ts:195-215 | the mode of the first matching row, or `Expected operation` (with the list of names for a word) without moving |
| ParserCore.Parser.ParseStatMode | src/parse/parser.ts:195-215 | as written: the same with the `equal` pattern, which no token matches |
| ParserCore.Parser.ParseStatModeCorrected | src/parse/parser.ts:195-215 | corrected: the same with the `equals` pattern, so `=` selects `set` |
| ParserCore.Parser.ParseStr | src/parse/parser.ts:249-252 | the value of a string literal, which is eaten; otherwise `Expected string` without moving |
| ParserCore.Parser.ParseStatAmount | src/parse/parser.ts:217-247 | a number as `parseI64` reads it, a placeholder or string taken as is, or a stat shorthand turned into its placeholder text |
| ParserCore.Parser.ParseStatShorthand | src/parse/parser.ts:229-246 | `stat N`, `globalstat N` and `teamstat N T` give `%stat.player/N%`, `%stat.global/N%` and `%stat.team/N T%`; anything else is `expected amount` |
| ParserCore.Parser.ParseTeamStatAmount | src/parse/parser.ts:237-245 | both names are checked in order, and a team that is not a word is `Expected team name` |
| ParserCore.Parser.ParseName | src/parse/actions.ts:200 | the text of a string literal or identifier, which is eaten; otherwise `Expected name` without moving |
| ParserCore.Parser.ParseBoolean | src/parse/actions.ts:168 | the identifiers `true` and `false` give their value; anything else is `Expected boolean` without moving |
| ParserCore.Parser.ParseBoundedNumber | src/parse/actions.ts:179-181 | a number read by `parseI64`, or a range error at it when it lies outside the bounds; a result always lies within them |
| ParserCore.Parser.ParseFloat | src/parse/arguments.ts:195-196 | the raw text of a number token, which is eaten; otherwise `Expected number` without moving |
| ParserCore.Parser.PushBack | src/parse/actions.ts:151-159 | the token before the current one becomes current again, `prev` unchanged |
| Arguments.WordsMissSymbol | src/parse/parser.ts:341-344 | rows made of names alone never match a symbol token |
| Arguments.SlotNeedsName | src/parse/arguments.ts:207-224 | only a word token names an inventory slot |
| Arguments.OperationRowsOfSymbol | src/parse/arguments.ts:129-161 | for a symbol token, the operation of the first row whose operator pattern matches |
| Arguments.OperationOfSymbol | src/parse/arguments.ts:129-161 | `+=`, `-=`, `*=`, `/=` and `=` select increment, decrement, multiply, divide and set; every other symbol selects nothing |
| Arguments.OpPatKinds | src/parse/arguments.ts:68-161 | each operator pattern of the operation and comparison tables matches exactly one token kind |
| Arguments.BinOpEqPat | src/parse/arguments.ts:133-155 | the pattern of a compound assignment matches just its token |
| Arguments.CmpOpPat | src/parse/arguments.ts:72-93 | the patterns of a comparison, bare or with `=`, match just their tokens |
| Arguments.ComparisonRowsOfSymbol | src/parse/arguments.ts:68-96 | for a symbol token, the comparison of the first row whose operator patterns match |
| Arguments.ComparisonOfSymbol | src/parse/arguments.ts:68-96 | `=` and `==` select equals, `<`, `<=`, `>`, `>=` the other four comparisons; every other symbol selects nothing |
| Arguments.ParseOperation | src/parse/arguments.ts:129-171 | the operation of the first matching row, whose token is eaten; otherwise `Expected operation` (with the names for a word) without moving |
| Arguments.ParseVarName | src/parse/arguments.ts:111-127 | the stat-name check of the current token, eaten exactly when valid |
| Arguments.ParseGamemode | src/parse/arguments.ts:47-66 | the gamemode of the first matching name; otherwise a diagnostic is added, one token is skipped and `survival` is returned |
| Arguments.ParseComparison | src/parse/arguments.ts:68-109 | the comparison of the first matching row; otherwise a diagnostic is added, one token is skipped and `equals` is returned |
| Arguments.EatFirstOrReport | src/parse/arguments.ts:57-65 | no match: exactly one diagnostic is added, one token is consumed and the fallback is returned |
| Arguments.ParseFromNames | src/parse/arguments.ts:236-310 | the first listed name the token spells, which is eaten; otherwise `Expected <what>` without moving |
| Arguments.SoundPath | src/parse/arguments.ts:274-279 | a sound's name or path gives a path of the table; any other text is kept |
| Arguments.ParseSound | src/parse/arguments.ts:266-280 | a string literal is eaten and mapped to its sound path; otherwise `Expected sound` without moving |
| Arguments.ParseInventorySlot | src/parse/arguments.ts:202-234 | a number token gives a slot number in `[-1, 39]` or the range error; otherwise a named slot; a slot number always lies in range |
| Arguments.ParseSlotName | src/parse/arguments.ts:207-233 | the named slot of the first matching row; otherwise the error with the list of names for a word, without moving |
| Arguments.Components | src/parse/arguments.ts:332-344 | piece `i` spans from the literal's start plus one plus the running offset, for its own length |
| Arguments.ComponentSpansSelectText | src/parse/arguments.ts:332-344 | each component's span, taken back into the literal, selects exactly that component's text |
| Arguments.ReportComponents | src/parse/arguments.ts:332-344 | the `map` builds the components with their spans and adds `Invalid component` for each one neither relative nor numeric, in order |
| Arguments.InvalidComponents | src/parse/arguments.ts:339-342 | no more findings than components |
| Arguments.ReportShape | src/parse/arguments.ts:351-371 | the checks of three or more components are added in order |
| Arguments.ReportDirections | src/parse/arguments.ts:351-355 | `All components must be directional` is added exactly when some but not all components start with `^` |
| Arguments.ReportPitchYaw | src/parse/arguments.ts:362-371 | the pitch and yaw checks of five components are added in order |
| Arguments.CoordinatesNeedThree | src/parse/arguments.ts:346-349 | fewer than three components end with `Expected 3 components` over the literal and an empty result; otherwise the literal is returned |
| Arguments.FourComponentsExpectYaw | src/parse/arguments.ts:357-360 | exactly four components give `Expected yaw` at the fourth |
| Arguments.PitchCheckedTwiceAsWritten | src/parse/arguments.ts:362-370 | as written, with five components the fourth is never checked and a non-numeric fifth is reported twice |
| Arguments.PitchAndYawCorrected | src/parse/arguments.ts:362-370 | corrected, the fourth component is checked once as the yaw and the fifth once as the pitch |
| Arguments.ParseCoordinatesWith | src/parse/arguments.ts:312-373 | a string literal is eaten and its checks are added as diagnostics; otherwise `Expected coordinates` without moving |
| Arguments.ParseCoordinates | src/parse/arguments.ts:312-373 | the same, with the checks as written |
| Arguments.ParseCoordinatesCorrected | src/parse/arguments.ts:312-373 | the same, with the yaw check corrected |
| Arguments.ParseLocation | src/parse/arguments.ts:32-45 | with the yaw check corrected (see Findings), custom coordinates, the house spawn or the invoker's location by keyword; otherwise `Invalid location` without moving |
| Arguments.ParseCustomLocation | src/parse/arguments.ts:33-36 | with the yaw check corrected, after the keyword the coordinates literal, or `Expected coordinates` |
| Arguments.PlaceholderSplits | src/parse/placeholders.ts:4-89 | the name and arguments give back the placeholder text: without `/` the name is the whole text, otherwise name, `/` and the arguments joined by spaces |
| Arguments.PlaceholderArity | src/parse/placeholders.ts:4-89 | text placeholders and unknown names are invalid; number placeholders take no argument; a player or global stat needs a key; a team stat needs a key and a team |
| Arguments.ParseNumericalPlaceholder | src/parse/placeholders.ts:4-89 | a placeholder token, or a string literal wrapped in `%`, is checked for its name and arity and returned wrapped in `%`; other tokens are `Expected placeholder` without moving |
| Arguments.ReportPlaceholder | src/parse/placeholders.ts:4-89 | the arity findings of a placeholder are added in order |
| Arguments.ParseNumericValue | src/parse/arguments.ts:173-190 | a number as `parseI64` reads it (in the 64-bit range), a placeholder, or `Expected amount`; a shorthand word reaches the placeholder reader, which rejects it |
| Arguments.IsShorthand | src/parse/arguments.ts:178-183 | true exactly when the current token is one of the shorthand identifiers |
| Arguments.ParseValue | src/parse/arguments.ts:192-200 | a string literal's text or a decimal's raw text; a number as `parseI64` reads it; a placeholder wrapped in `%`; a shorthand word gives `Expected placeholder`, any other token `Expected amount` |
| Semantics.KindOf | src/semantics.ts:35-51 | a field has a kind exactly when its name is among the descriptor's keys |
| Semantics.KindOfAt | src/semantics.ts:146-289 | the kind looked up for a key is the one declared at its first occurrence |
| Semantics.EmptyDescriptors | src/semantics.ts:209-210 | KILL, HEAL, RESET_INVENTORY, EXIT, CANCEL_EVENT and CLEAR_POTION_EFFECTS take no arguments |
| Semantics.BlockDescriptors | src/semantics.ts:199-204 | CONDITIONAL has a mode, its conditions and its if and else actions; RANDOM has only its actions |
| Semantics.HolderDescriptorsEndWithActions | src/semantics.ts:35-51 | every holder descriptor ends with its actions, and only the unknown holder has nothing else |
| Semantics.EveryConditionHasInverted | src/semantics.ts:57-144 | every condition has an `inverted` field, of kind inversion or boolean |
| Semantics.ChangeHungerAsWritten | src/semantics.ts:154-157 | CHANGE_HUNGER's `amount` has kind operation and its `op` kind amount, as the table is written |
| Semantics.OptionLists | src/semantics.ts:291-324 | the option lists of booleans, operations, comparisons and modes; strings and amounts have none |
| Semantics.KindListed | src/semantics.ts:146-289 | a kind looked up is one the descriptor lists |
| Semantics.LacksKind | src/semantics.ts:146-289 | a descriptor that lists no field of a kind gives that kind for no key |
| Semantics.ActionKindsNoConditions | src/semantics.ts:146-289 | no action but CONDITIONAL has a field of conditions |
| Semantics.ConditionKindsFlat | src/semantics.ts:57-144 | no condition has a field of conditions or of actions: conditions do not nest |
| ParseTree.FillMissing | src/parse/actions.ts:119-125 | the fields already read come first and are kept |
| ParseTree.FillMissingNames | src/parse/actions.ts:119-125 | after the fill a name has a field exactly when it had one before or is a descriptor key |
| ParseTree.FillMissingAdds | src/parse/actions.ts:119-125 | every field the fill adds is undefined, sits at the given span and is named by a key that had no field |
| ParseTree.FillMissingComplete | src/parse/actions.ts:119-125 | a node that already has every key is left unchanged |
| ParseTree.FillDescriptor | src/parse/conditions.ts:83-89 | the loop over the descriptor keys computes the fill |
| ParseTree.Somes | src/parse/actions.ts:139-146 | the `filter` keeps exactly the present conditions, in order |
| ParseTree.KeywordRowsSelect | src/parse/actions.ts:19-99 | the keyword chain selects a keyword the token spells, and selects none exactly when no keyword is spelled like the token |
| ParseTree.EatKeyword | src/parse/actions.ts:19-22 | the first keyword the identifier spells is eaten; with none the parser is unchanged |
| ParseTree.ParseItemAmount | src/parse/conditions.ts:134-141 | `Any Amount` or `Equal or Greater Amount` under either spelling, eaten; otherwise `Expected item amount` without moving |
| ParseTree.ParseArg | src/parse/arguments.ts:32-373 | a field read with the reader of its kind; the value it returns fits that kind |
| ParseTree.ParseFields | src/parse/parser.ts:279-297 | the fields are read in order, each value fitting its syntax; a reader error stops the reading, and without one every field is read |
| ParseTree.FinishAction | src/parse/actions.ts:109-128 | a thrown diagnostic is reported and the parser recovers to the line end; the node gets the fields read plus the missing descriptor keys, and spans from its keyword to the last token consumed |
| ParseTree.FinishCondition | src/parse/conditions.ts:72-92 | the same for a condition, with `inverted` first and recovery to a comma or `)` |
| ParseTree.ModeOfToken | src/parse/actions.ts:132-137 | `and` and `false` mean all conditions, `or` and `true` any condition, nothing else is a mode word |
| ParseTree.ParseMode | src/parse/actions.ts:132-137 | a mode word is eaten; another identifier throws `Expected conditional mode`; anything else means all conditions without moving |
| ParseTree.ParseConditionalFields | src/parse/actions.ts:130-163 | a conditional reads its mode, conditions, block and `else` part, and all four when nothing throws |
| ParseTree.ParseConditionalHead | src/parse/actions.ts:132-146 | the mode and the conditions, both when nothing throws |
| ParseTree.ParseConditionalTail | src/parse/actions.ts:148-161 | the block and the `else` part, both when nothing throws |
| ParseTree.ParseElse | src/parse/actions.ts:150-161 | the `else` field holds a block of actions or null |
| ParseTree.ParseConditionList | src/parse/parser.ts:317-331 | a parenthesised list of complete conditions; without `(` the error of `expect` and no move |
| ParseTree.ParseConditionItems | src/parse/parser.ts:321-328 | every condition kept is complete |
| ParseTree.ParseConditionRecovered | src/parse/actions.ts:140-144 | a condition that did not throw is complete |
| ParseTree.ParseCondition | src/parse/conditions.ts:19-70 | an optional `!`, then a keyword and its fields; a complete node whose first field is `inverted`; an identifier that is no keyword throws `Unknown condition` without moving |
| ParseTree.BareCondition | src/parse/conditions.ts:19-58 | a condition keyword without fields gives a complete node holding only `inverted` |
| ParseTree.ParseConditionBody | src/parse/conditions.ts:19-58 | a complete node of the keyword's type, with the keyword's span and `inverted` first |
| ParseTree.ParseAction | src/parse/actions.ts:18-107 | a keyword and its fields give a complete node of that keyword's action type and progress; an identifier throws `Unknown action` exactly when it is no keyword, without moving; any other token is consumed and throws `Expected action` |
| ParseTree.ParseActionBody | src/parse/actions.ts:23-99 | a complete node of the keyword's type, from the keyword on; a keyword without fields consumes nothing more and spans just the keyword |
| ParseTree.ParseActionStep | src/parse/parser.ts:39-52 | one pass of the loop as written: on an identifier that is an action name but no keyword it reports `Unknown action` and does not move |
| ParseTree.UndispatchedActionKeywords | src/helpers.ts:8-16 | each action name with no branch in `parseAction` leaves the loop stuck |
| ParseTree.NotDispatched | src/parse/actions.ts:18-107 | no keyword of `parseAction` is among the names it never dispatches |
| ParseTree.ParseCompletely | src/parse/parser.ts:39-52 | every action read is complete and the input is read to its end; a stuck pass is forced to consume its token |
| ParseTree.ParseBlock | src/parse/parser.ts:299-315 | `{`, complete actions, `}`; without `{` the error of `expect` and no move |
| ParseTree.ParseBlockActions | src/parse/parser.ts:302-313 | the actions of a block are complete and reading stops at `}` or the end of the input |
| ParseTree.ParseHolder | src/parse/holders.ts:6-17 | no `goto` gives an unknown holder; after `goto` the parse succeeds exactly when the next token is `function`, giving a function holder; anything else throws |
| ParseTree.ParseHolderRecovering | src/parse/holders.ts:19-31 | a holder of the type, spanning from its keyword to the last token consumed, whose fields follow its syntax |
| ParseTree.KeywordOnlyHasNoFields | src/parse/actions.ts:27-30 | the actions written as a keyword alone are the ones whose descriptor has no fields |
| ParseTree.ConditionalSyntaxMatchesDescriptor | src/parse/actions.ts:130-163 | the conditional reads the fields of its descriptor, in order |
| ParseTree.BareConditionsHaveInvertedOnly | src/parse/conditions.ts:19-58 | the condition keywords read without fields have only `inverted` in their descriptor |
| ParseTree.HolderSyntaxMatchesDescriptor | src/parse/holders.ts:33-43 | the holders read exactly the fields of their descriptors |
| ParseTree.CompleteReadNeedsNoFill | src/parse/actions.ts:119-125 | a read that assigned every field of a syntax naming all descriptor keys leaves nothing to fill |
| Transform.Lookup | src/transform/arguments.ts:17-23 | `obj[key]`: the value of a field called `key`, or `undefined` exactly when there is none |
| Transform.LookupUnwrap | src/ir.ts:42-54 | looking a key up in an unwrapped node finds the unwrapped value of the first field of that name |
| Transform.ReplaceFirstIs | src/transform/arguments.ts:92 | without `c` the text is kept; otherwise its first `c`, and only that one, becomes `d` |
| Transform.ReplaceKeepsLater | src/transform/arguments.ts:92 | a later `_` of a written comparison stays |
| Transform.ModeWord | src/transform/arguments.ts:94-101 | empty exactly when `and` is implicit and the conditional matches all; otherwise `or` or `and` |
| Transform.ModifyPos | src/transform/actions.ts:87-103 | the position starts at the end of the keyword and becomes the end of the old node once a field was found in it |
| Transform.CursorStep | src/transform/actions.ts:29-43 | the cursor moves to the end of each deleted or modified old element; an insert leaves it |
| Transform.ShortestScript | src/transform/diff.ts:21-63 | the script aligns the old and new elements and is a shortest one |
| Transform.InsertArgument | src/transform/arguments.ts:46-123 | the edits of an inserted argument: none when it is `undefined` or `null`, a braced block for actions or conditions, otherwise one edit with the kind's text |
| Transform.ModifyArgument | src/transform/arguments.ts:17-44 | no edits for an unchanged value; lists are diffed; any other value is erased and the new text inserted at the old end |
| Transform.ArgumentReplaces | src/transform/arguments.ts:38-42 | applying the edits of a changed argument replaces its span by the argument's new text and keeps the rest of the source |
| Transform.ArgumentOmitted | src/transform/arguments.ts:38-42 | a changed argument whose new value is `undefined` or `null` is erased |
| Transform.InsertArgumentAt | src/transform/arguments.ts:52-121 | every edit of an inserted argument of any kind but a condition list is an insertion at `pos` |
| Transform.InsertActions | src/transform/actions.ts:12-18 | each action inserted at `pos` after a newline and an optional tab |
| Transform.ModifyActions | src/transform/actions.ts:20-47 | for some shortest script, the edits of its entries in order, the cursor moving past each removed or modified old action |
| Transform.ActionsAdvance | src/transform/actions.ts:29-44 | one more round of the loop keeps its invariant: every entry so far gave its part |
| Transform.ActionEntry | src/transform/actions.ts:30-44 | a delete erases the old span; an insert writes a newline, an optional tab and the action at the cursor; a modify diffs the action |
| Transform.ActionsFromEmpty | src/transform/actions.ts:12-18 | with no old actions the edits are exactly those of inserting the new ones |
| Transform.ActionsToEmpty | src/transform/actions.ts:20-47 | with no new actions every old action is erased |
| Transform.ActionsIdentity | src/transform/actions.ts:20-47 | diffing actions against their own unwrapped forms edits nothing |
| Transform.ActionIdentity | src/transform/actions.ts:81-106 | modifying an action into its own unwrapped form edits nothing |
| Transform.InsertActionsPlaced | src/transform/edit.ts:12-25 | applying inserted actions puts their text at `pos` and keeps the rest of the source |
| Transform.ActionKind | src/transform/actions.ts:90 | the kind the descriptor gives a field of an action: the table as written for every action but CHANGE_HUNGER, whose `op` is an operation and `amount` an amount; nothing for a non-action |
| Transform.InsertAction | src/transform/actions.ts:49-79 | with the corrected kinds of CHANGE_HUNGER, the keyword, then a space and the argument of every field, for a conditional or a random action their own layout |
| Transform.InsertActionAt | src/transform/actions.ts:54-76 | every edit of an inserted action is an insertion at `pos` |
| Transform.ModifyAction | src/transform/actions.ts:81-106 | with the corrected kinds of CHANGE_HUNGER, for each new field: the old one modified, or a space and the inserted argument at the position reached |
| Transform.ModifyActionField | src/transform/actions.ts:88-104 | with the corrected kinds of CHANGE_HUNGER, one round of the field loop, with the position it moves to |
| Transform.InsertActionConditional | src/transform/actions.ts:108-167 | `if`, the mode, the conditions, the body and, when there are any, the `else` actions |
| Transform.InsertConditionalAt | src/transform/actions.ts:108-167 | every edit of an inserted conditional is an insertion at `pos` |
| Transform.ConditionalHead | src/transform/actions.ts:116-146 | the keyword and mode, the condition groups (after a newline when their total length exceeds the line length) and the opening of the body |
| Transform.ConditionGroups | src/transform/actions.ts:124-128 | one edit group per condition |
| Transform.TotalLength | src/transform/actions.ts:130-135 | the total text length of the groups |
| Transform.AppendLines | src/transform/actions.ts:140-143 | each group followed by `", \n"` |
| Transform.Body | src/transform/actions.ts:147-151 | each action after a tab and before a newline |
| Transform.InsertActionRandom | src/transform/actions.ts:169-180 | `random`, then the body of its actions |
| Transform.InsertConditions | src/transform/conditions.ts:12-18 | each condition inserted just past `pos`, followed by `", "` |
| Transform.ModifyConditions | src/transform/conditions.ts:20-45 | for some shortest script, the edits of its entries in order, starting just past the opening parenthesis |
| Transform.ConditionEntry | src/transform/conditions.ts:30-42 | a delete erases the old span and moves past it; an insert writes the condition and `", "`; a modify diffs the condition |
| Transform.ConditionsFromEmpty | src/transform/conditions.ts:12-18 | with no old conditions the edits are exactly those of inserting the new ones |
| Transform.ConditionsToEmpty | src/transform/conditions.ts:20-45 | with no new conditions every old condition is erased |
| Transform.ConditionsIdentity | src/transform/conditions.ts:20-45 | diffing conditions against their own unwrapped forms edits nothing |
| Transform.InsertCondition | src/transform/conditions.ts:47-72 | `!` only for an inverted condition, the keyword, then a space and the argument of every field but `inverted` |
| Transform.InsertConditionAt | src/transform/conditions.ts:56-69 | every edit of an inserted condition is an insertion at `pos` |
| Transform.ModifyCondition | src/transform/conditions.ts:74-98 | for each key of the old node, its argument is modified into the new node's value of that key, with the kind the new type's descriptor gives it |
| Transform.ModifyConditionField | src/transform/conditions.ts:84-97 | one round of the field loop |
| Transform.ConditionIdentity | src/transform/conditions.ts:74-98 | modifying a condition into its own unwrapped form edits nothing |
| Transform.ArgumentIdentity | src/transform/arguments.ts:17-44 | modifying an argument into its own unwrapped value edits nothing |
| TextEdits.SliceIndex | src/transform/edit.ts:19 | a negative index of `slice` counts from the end and the result is clamped to the text; an index in range is kept |
| TextEdits.Slice | src/transform/edit.ts:19 | for indices in range, `slice` is the subsequence between them |
| TextEdits.ApplyEdits | src/transform/edit.ts:12-25 | no edits keep the text; for ordered edits every span refers to the original text, the result is the original patched at those spans, and its length changes by each edit's difference |
| TextEdits.RunOrdered | src/transform/edit.ts:15-22 | after the rounds of ordered edits the loop holds the patched text followed by the rest of the original, and its offset is how far the patched text has moved |
| TextEdits.StepOrdered | src/transform/edit.ts:16-21 | one round replaces the edit's span of the original text |
| TextEdits.ApplyIsPatch | src/transform/edit.ts:12-25 | applying ordered edits is patching the original, and the length changes by the sum of the edits' differences |
| TextEdits.PatchLength | src/transform/edit.ts:19-21 | the patched text is as long as the original plus each edit's length change |
| TextEdits.PatchedInsertions | src/transform/edit.ts:16-21 | zero-width edits at one position are ordered and put their texts there in list order |
| TextEdits.ApplyInsertions | src/transform/edit.ts:12-25 | applying zero-width edits at one position inserts their texts there, in list order, and keeps the text on both sides |
| TextEdits.EraseThenInsert | src/transform/edit.ts:19 | erasing `[s, e)` and then inserting at `e` gives the same text as replacing `[s, e)` |
| TextEdits.PatchOne | src/transform/edit.ts:19 | a single edit patches its span |
| TextEdits.PatchSnoc | src/transform/edit.ts:16-21 | an edit after the last one extends the patched text |
| TextEdits.OutsideKept | src/transform/edit.ts:12-25 | the text before the first edit and after the last one is kept |
| TextEdits.PatchedStart | src/transform/edit.ts:12-25 | patching keeps the text before the first edit |
| Scripts.Cursor | src/transform/actions.ts:29-43 | after a delete or a modify the cursor is at the end of that old element; with only inserts it stays at the start |
| Scripts.AllInserts | src/transform/diff.ts:21-63 | an all-insert script holds the inserts of its new elements, in order |
| Scripts.AllDeletes | src/transform/diff.ts:21-63 | an all-delete script holds the deletes of its old elements, in order |
| Scripts.AllModifies | src/transform/diff.ts:21-63 | an all-modify script pairs its old and new elements index by index |
| Scripts.NoEditsOnlyModifies | src/transform/diff.ts:21-63 | a script without inserts or deletes only modifies |
| Scripts.ModifyEachAligns | src/transform/diff.ts:21-63 | modifying every element into its unwrapped form aligns a list with its unwrapped form at no cost |
| Scripts.IdentityScript | src/transform/diff.ts:21-63 | the shortest script from a list to its own unwrapped form modifies every element into itself, index by index |
| Scripts.Cheapest | src/transform/diff.ts:65-102 | a shortest script has no more inserts and deletes than any other aligning script |
| Scripts.UnchangedScript | src/transform/diff.ts:21-63 | a script without edits from a list to its unwrapped form pairs them index by index |
| Scripts.ToInTos | src/transform/diff.ts:21-63 | the new element of an entry belongs to the target list |
| Scripts.FromInFroms | src/transform/diff.ts:21-63 | the old element of an entry belongs to the source list |
| Strings.Split | src/parse/arguments.ts:321 | `split` with one character: at least one piece, none holding the separator |
| Strings.JoinSplit | src/parse/arguments.ts:321 | joining the pieces of a split with the separator gives back the text |
| Strings.SplitJoin | src/codegen/helpers.ts:11-19 | splitting a join of texts without the separator gives the texts back |
| Strings.SplitConcat | src/parse/arguments.ts:321 | splitting at a separator between two texts splits each of them |
| Strings.IndexOf | src/parse/placeholders.ts:24 | `indexOf`: the first position of the character, or -1 exactly when it is absent |
| Strings.Substring | src/parse/placeholders.ts:25-26 | `substring` never returns more than the text |
| Strings.NatText | src/parse/parser.ts:254-268 | the decimal text of a natural number is made of digits |
| Strings.DecimalValueOfNatText | src/parse/parser.ts:254-268 | reading back the decimal text of a number gives the number |
| Strings.JoinSnoc | src/codegen/helpers.ts:11-19 | joining one more piece appends the separator and the piece |
| Strings.JoinPrefixed | src/codegen/actions.ts:8-19 | a prefix before the join and after every separator is a prefix on every piece |
| Styles.Lower | src/codegen/helpers.ts:31-32 | `toLowerCase` maps every character by the lower-case mapping |
| Styles.Upper | src/codegen/helpers.ts:33-34 | `toUpperCase` maps every character by the upper-case mapping |
| Styles.CaseRoundTrip | src/codegen/helpers.ts:31-39 | case mapping changes letters only; lowering an upper-cased letter gives its lower-case form, and the other way round |
| Styles.LowerIdempotent | src/codegen/helpers.ts:31-32 | lowering twice is lowering once |
| Tokens.MakeToken | src/parse/token.ts:52-58 | the object of a token holds `kind` and exactly the properties its variant declares, and those determine the kind |
| Tokens.GetFields | src/parse/token.ts:23-45 | the `kind`, `op`, `delim` and `value` entries of a token's object |
| Tokens.FieldsDetermineKind | src/parse/token.ts:23-45 | a token's object determines its kind |
| Tokens.TagStringInjective | src/parse/token.ts:5-21 | different kinds have different kind strings |
| Tokens.DelimiterStringInjective | src/parse/token.ts:47 | different delimiters have different names |
| Tokens.PatternKeys | src/helpers.ts:2-6 | a partial pattern holds one key per present field |
| Tokens.PatternValues | src/helpers.ts:2-6 | what a partial pattern holds under each present key |
| Tokens.PartialMatchMeaning | src/parse/parser.ts:372-376 | a partial pattern matches exactly the tokens that agree with each of its present fields |
| Tokens.EqualPatternMatchesNothing | src/parse/parser.ts:208 | the pattern `{kind: "cmp_op", op: "equal"}` matches no token: comparison tokens carry the name `equals` |
| Tokens.DelimiterSymbols | src/parse/token.ts:81-87 | each delimiter's symbol pair has two characters |
| Tokens.TokenToStringPrintsLexeme | src/parse/token.ts:107-138 | every operator, comparison, delimiter and comma pattern prints back as the symbol the token is read from |
| Tokens.TokenToStringFallsBackToKindName | src/parse/token.ts:107-138 | a bare kind, or a pattern without its operator or delimiter, prints as the kind's name |
| Tokens.TokenToStringUndefinedKindThrows | src/parse/token.ts:133-134 | a pattern without a kind throws |
| CodegenActions.GenerateActions | src/codegen/actions.ts:8-19 | the text starts with the tab; no actions give the tab alone, one action the tab and its text |
| CodegenActions.ActionLines | src/codegen/actions.ts:8-19 | when no action text and no tab holds a newline, every action is a line of its own, starting with the tab |
| CodegenActions.GenerateAction | src/codegen/actions.ts:21-38 | an experience-level gift writes nothing; an unknown type writes the `Action not implemented` error comment |
| CodegenActions.KeywordAndText | src/codegen/actions.ts:62-84 | the keyword, a space, then the quoted text, or a hint when the text is missing or empty |
| CodegenActions.GenerateActionConditional | src/codegen/actions.ts:46-60 | `if`, the mode word (`or`, or a hint) unless shorthands are on and `matchAny` is `false`, then the conditions or a hint |
| CodegenActions.ChangeVarHead | src/codegen/actions.ts:101-104 | the keyword or a hint, the name or a hint, and for a team its name: three words for a team, two otherwise |
| CodegenActions.ChangeVarWords | src/codegen/actions.ts:94-120 | after the head: `unset` alone for an unset; otherwise the operation and value words (or hints), then the `unset` flag word unless the shorthand applies |
| CodegenActions.GenerateActionChangeVar | src/codegen/actions.ts:94-120 | the words joined by spaces; an unset ends with ` unset` |
| CodegenActions.ChangeVarTokens | src/codegen/actions.ts:94-120 | splitting the text at spaces gives back its words when none holds a space |
| CodegenActions.ShorthandDropsUnset | src/codegen/actions.ts:112-114 | with shorthands the text is the text without shorthands minus its last word, the hint for `unset` |
| CodegenHolders.GenerateHolder | src/codegen/holders.ts:16-76 | an unknown holder is its actions; a function or event holder its `goto` line, an empty line, then its actions; another type the error comment |
| CodegenHolders.GenerateHolders | src/codegen/holders.ts:6-14 | no holders give an empty text and one holder its own text |
| CodegenHolders.HolderLines | src/codegen/holders.ts:6-14 | the lines of the file are the lines of the holders, one holder after the other |
| CodegenHolders.HeaderLines | src/codegen/holders.ts:41-76 | a function or event holder is its `goto` line, an empty line, then the lines of its actions |
| CodegenHolders.EmptyHolder | src/codegen/holders.ts:31-58 | without actions an unknown holder writes nothing and a function or event holder its `goto` line and an empty line |
| Semantics.ChangeHungerCorrected | src/parse/actions.ts:302-307 | with the kinds the parser actually reads, CHANGE_HUNGER keeps the table's keys and order, `op` is an operation and `amount` an amount |
| Semantics.ActionOpAndAmountKinds | src/parse/actions.ts:302-307 | in every action's descriptor, an `op` field is an operation and an `amount` field an amount |
| HolderTransform.ScriptEdits | src/transform/holders.ts:17-33 | the loop over the diff script emits one group of edits per entry, each the edits that entry calls for, concatenated in script order |
| HolderTransform.HolderFieldIdentity | src/transform/holders.ts:66-88 | a key of a stable holder, modified into its own unwrapped form, contributes no edits |
| Ir.UnwrapValueForgetsOnlySpans | src/ir.ts:56-70 | two values unwrap to the same value exactly when they differ only in spans |

## Left out

- Floating point: `parseF64` / `Number.parseFloat` (src/parse/parser.ts:270-277) and the `parseFloat` member that the statement parsers call are modelled as reading the raw number text, which is kept uninterpreted (`PFloat(raw)`). `String(x)` of a float is that raw text.
- Arguments.ParseCoordinates: the `isNumeric` test (src/parse/arguments.ts:330) relies on `parseFloat`, so it is a parameter.
- The `housing-common` tables are parameters, as are the operator and comparison symbol tables: potion effects, lobbies, sounds, enchantments, permissions, item properties, item locations and value shorthands. Only their membership tests matter.
- The newer parser API that src/parse/actions.ts and its siblings call is not in src/parse/parser.ts: `spanned`, `addDiagnostic`, `parseBoundedNumber`, `parseRecovering` with a synchronisation set, `eatOption`, `parseName`, `parseBoolean`. Each is given the behaviour its call sites rely on, in one place at the end of `ParserCore.Parser`.
- ParseTree: the per-keyword field tables are not proved to list exactly the descriptor's keys. The parsers instead fill every missing descriptor key (`FillMissing`), and completeness of the result is proved from that fill.
- Case mapping (`toLowerCase`, `toUpperCase`) is ASCII only. The lexer's whitespace test is ASCII only. `CtUtils.IsSpace` follows JavaScript's `\s`.
- The importer's two inventory and chat-history probes are closures in the source (ct_module/src/steps/helpers.ts:58-90, ct_module/src/steps/generateSteps.ts:166-187). They are recorded by what they probe, not run.
- JavaScript `TypeError`s raised in the importer's step builder are reported by the operation that raised them, not by the engine's exact message text.
- Diffs.ShortestEdit: the array `v` has `2·max+2` slots rather than the source's `2·max+1`. The first write (src/transform/diff.ts:74) is at index `max+1`, which a JavaScript array silently grows to hold when `max` is 0.
- Cooldowns.Warns: the cooldown object's own keys are a map, so the special key `__proto__` is treated as an ordinary name.
- End-to-end `transform` and `generate` (src/transform/index.ts:8-23) and `parseFromString` (src/parse/index.ts) are not modelled. They only wire the modelled pieces together. The demo code that parses and prints at import time is also not modelled.
- `createString` (src/transform/arguments.ts:125-140) is called from nowhere, so it is not modelled.
- `generateConditions` (src/codegen/conditions.ts) is not part of this model. The code generator takes it as a parameter (`CodegenActions.Writers`). `src/codegen/index.ts` is not modelled either.
- The chat-history buffer of ct_module/src/utils.ts:21-79, the importer, the GUI and slot reflection, the editor adapters, build tooling, and the superseded prototypes under `src/roundtrip`, `src/edit`, `src/passes`, `src/analysis` and `src/compiler` are not part of this model.
- Cooldowns.CheckCooldowns: uses the corrected own-name test, so it does not capture that the source as written (src/validate/cooldowns.ts:37) warns on a first call to a function named after an `Object.prototype` member such as `toString`; `Cooldowns.PrototypeNameWarnsAsWritten` states that behaviour and `Cooldowns.AsWrittenAgreesOffPrototype` bounds it.
- Cooldowns.CheckCooldownsForActions: the same corrected own-name test; an inherited name such as `toString` is not warned on a first call, where src/validate/cooldowns.ts:37 warns.
- Cooldowns.CheckAction: the same corrected own-name test for the one step it takes.
- Cooldowns.CheckEach: the same corrected own-name test for each sub-action of a random action.
- ValidatePasses.Validate: runs the corrected limits pass, so it does not capture that the source as written (src/validate/limits.ts:7) throws on a holder without an `actions` field instead of returning; wherever the as-written pass returns, the diagnostics are the same (stated in its contract).
- Arguments.ParseLocation: custom coordinates are read with the corrected yaw check, so it does not capture that the source as written (src/parse/arguments.ts:362-370) reports the fifth of five components twice and never checks the fourth, e.g. on `custom_coordinates "1 2 3 0 x"`; `Arguments.ParseCoordinates` keeps the as-written checks.
- Arguments.ParseCustomLocation: the same corrected yaw check, where src/parse/arguments.ts:34 calls `parseCoordinates` as written.
- Transform.ActionKind: reads field kinds from the corrected descriptor, so for CHANGE_HUNGER `op` is an operation and `amount` an amount, where the table as written (src/semantics.ts:154-157) swaps the two; every other action gets the kinds of the table as written (stated in its contract).
- Transform.InsertAction: through `Transform.ActionKind`, a CHANGE_HUNGER action is written with `op` through the operation table and `amount` as an amount, the reverse of the source as written.
- Transform.ModifyAction: the same corrected CHANGE_HUNGER kinds for the fields it inserts or modifies.
- Transform.ModifyActionField: the same corrected CHANGE_HUNGER kinds for the one field it handles.
- ParseTree.ParseCompletely: the loop of src/parse/parser.ts:39-52 calls the parser's own `parseAction` (src/parse/parser.ts:54-80), which knows only `stat`, `globalstat`, `teamstat`, `changeHealth`, `title`, `chat` and `if` and throws `Unknown action` for every other keyword; on a line such as `kill`, `recover` then stops on that same keyword and the loop makes no progress. The model dispatches to the keyword table of src/parse/actions.ts instead and reads a KILL action. The diagnostics it emits along the way are not characterised either: its contract states the completeness of the actions and progress to the end of input.
- ParseTree.ParseBlockActions: the same dispatch to the keyword table of src/parse/actions.ts, where the block loop of src/parse/parser.ts:302-313 calls the seven-keyword `parseAction`.
- ParseTree.ParseArg: states only that the value read is one the reader of its kind can produce (`ValueFits`); the exact value is stated per reader (`Arguments.ParseOperation`, `Arguments.ParseValue`, `Arguments.ParseInventorySlot` and the rest). Locations are read through `Arguments.ParseLocation`, with the corrected yaw check.
- ParseTree.ParseFields: states only that the fields are read in order and each value follows its syntax (`Follows`); the exact values are stated per reader.
- ParserCore.Parser.Catch: catches every diagnostic. As written, `parseRecovering` (src/parse/parser.ts:279-297) and the loops at src/parse/parser.ts:47 and 310 catch only instances of the class of src/types/diagnostic.ts, while the statement and argument parsers throw the class of src/diagnostic.ts (via `error`), so as written their errors escape the recovery and end the parse.
- ParseTree.ParseCondition: the parser runs over a token sequence lexed in advance (`WellFormedStream`). A lexer error raised in the middle of a parse is not modelled, such as `unknown token` (src/parse/lexer.ts:180) for the `!` of `if (!isSneaking)`, which src/parse/conditions.ts:23 expects as a token but the lexer has no rule for; the lexer's own errors are modelled by `LexerClass`.
- src/validate/context.ts:1 and src/validate/nesting.ts:1 import `error` from `../parse`, which src/parse/index.ts does not export, and src/validate/cooldowns.ts:2 imports `warn`, which src/diagnostic.ts does not export. The model gives these passes working `error` and `warn` helpers that build an error and a warning diagnostic.
- Arguments.ParseNumericValue: the `parseNumber` it calls (src/parse/arguments.ts:175) is not in src/parse/parser.ts either; it is modelled as the 64-bit integer reader `parseI64` (`ParserCore.ReadI64`), a leading minus included.
- src/parse/actions.ts:6-14 and src/parse/conditions.ts:5-12 import `parseAmount` and `parseStatName` from `./arguments`, which exports neither. The model reads amounts with `Arguments.ParseValue` and stat names with `Arguments.ParseVarName`, the exported readers that do those jobs.
- src/validate/limits.ts:2 imports `ACTIONS` from `../helpers`, which src/helpers.ts does not export. The display names it supplies are the `names` parameter of `Limits.LimitMessage`, left unconstrained.
- JavaScript strings are indexed by UTF-16 code units, and a Dafny `string` by Unicode scalar values. On text holding a character outside the Basic Multilingual Plane the two differ, so spans, `TextEdits.SliceIndex` and `TextEdits.Slice`, and the `text.length` total that decides whether a conditional's conditions wrap (src/transform/actions.ts:130-137, `Transform.EditsLength`) count such a character once where the source counts it twice.

## Findings

| source | as written | input that shows it | evidently intended | confidence | as-written member | corrected member |
|---|---|---|---|---|---|---|
| src/parse/parser.ts:39-52 | on an identifier that `isAction` lists but `parseAction` has no branch for, `parseAction` throws "Unknown action" without consuming it, and `recover` stops at that same identifier; the loop reports it again forever (`ParseTree.UndispatchedActionKeywords` names the five such identifiers) | the program `balanceTeam` | the loop makes progress past a token it cannot parse and ends at the end of input | high, not executed | ParseTree.ParseActionStep | ParseTree.ParseCompletely |
| src/parse/parser.ts:208 | `parseStatMode` tests for a comparison token with operator `equal`, but the lexer names it `equals` (src/parse/lexer.ts:97), so `=` never selects `set` | `stat x = 5` | `=` selects `set`, as `+=`, `-=`, `*=` and `/=` select their modes | high, not executed | ParserCore.StatModeEqualsAsWritten | ParserCore.StatModeEqualsCorrected |
| src/parse/arguments.ts:362-370 | with five coordinate components the yaw is read from `components[4]` and reported as "Invalid pitch"; the fourth component is never checked | `"1 2 3 0 x"`: `x` is reported twice as an invalid pitch | the fourth component is checked as the yaw and the fifth as the pitch | high, not executed | Arguments.PitchCheckedTwiceAsWritten | Arguments.PitchAndYawCorrected |
| src/validate/limits.ts:7 | `holder.actions.value ?? []` reads `.value` of an absent `actions` field, which throws | `goto function 5`, a function holder without actions | `holder.actions?.value ?? []`, as the other passes read it | high, not executed | Limits.HolderWithoutActionsThrows | Limits.CorrectedAgrees |
| src/validate/cooldowns.ts:37 | `name in cooldowns` also finds the names an object inherits, so a first call of such a function is warned | a first call of a function named `toString` | only names recorded in this holder count | medium, not executed | Cooldowns.PrototypeNameWarnsAsWritten | Cooldowns.FirstCallNeverWarns |
| src/semantics.ts:154-157 | CHANGE_HUNGER maps `amount` to "operation" and `op` to "amount", while its parser reads `op` as an operation and `amount` as an amount (src/parse/actions.ts:302-307) | inserting a CHANGE_HUNGER action with op `increment` and amount 5: the amount is written through the operation table, and the op as plain text | `op` is an operation and `amount` an amount, as in every other descriptor | high, not executed | Semantics.ChangeHungerAsWritten | Semantics.ActionOpAndAmountKinds |
