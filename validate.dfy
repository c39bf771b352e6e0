/** `validate` (src/validate/index.ts:6-10): the limits, context and nesting
  * passes, in that order, on one parse result. The cooldown pass is not
  * part of it. The limits pass is the corrected one; wherever the pass as
  * written does not throw, the diagnostics are the same. */
module ValidatePasses {
  import opened Spans
  import opened NodeTypes
  import opened Validation
  import Limits
  import ContextRules
  import Nesting

  method Validate(result: ParseResult, names: ActionType -> string)
    modifies result
    ensures result.diagnostics == old(result.diagnostics) + Limits.HolderLimits(result.holders, names)
      + ContextRules.ContextErrors(result.holders) + Nesting.HolderNesting(result.holders)
    ensures Limits.LimitsAsWritten(result.holders, names).Some? ==>
      result.diagnostics == old(result.diagnostics) + Limits.LimitsAsWritten(result.holders, names).value
        + ContextRules.ContextErrors(result.holders) + Nesting.HolderNesting(result.holders)
  {
    Limits.CorrectedAgrees(result.holders, names);
    Limits.CheckLimits(result, names);
    ContextRules.CheckContext(result);
    Nesting.CheckNesting(result);
  }
}
