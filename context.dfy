/** The diagnostics sink of src/context.ts. */
module Context {
  import opened Spans

  class CompileCtx {
    var diagnostics: seq<Diagnostic>

    /** A new context has no diagnostics (src/context.ts:7-9). */
    constructor()
      ensures diagnostics == []
    {
      diagnostics := [];
    }

    /** Appends exactly one diagnostic at the end, keeping the earlier ones
      * in order (src/context.ts:11-13). */
    method Emit(d: Diagnostic)
      modifies this
      ensures diagnostics == old(diagnostics) + [d]
      ensures |diagnostics| == |old(diagnostics)| + 1
      ensures diagnostics[..|old(diagnostics)|] == old(diagnostics)
    {
      diagnostics := diagnostics + [d];
    }
  }
}
