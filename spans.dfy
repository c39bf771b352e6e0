/** Source spans and diagnostics (src/span.ts, src/types/span.ts,
  * src/diagnostic.ts). The two span shapes of the sources, `start/end` and
  * `lo/hi`, are one datatype here. */
module Spans {
  import opened Wrappers

  /** The half-open character range `[start, end)` of the source text. */
  datatype Span = Span(start: nat, end: nat)

  datatype Level = Bug | Error | Warning | Info

  /** A diagnostic; the span is optional as in src/types/diagnostic.ts. */
  datatype Diagnostic = Diagnostic(message: string, level: Level, span: Option<Span>)

  /** `error(message, span)` of src/diagnostic.ts. */
  function ErrorAt(message: string, span: Span): Diagnostic
  {
    Diagnostic(message, Error, Some(span))
  }

  /** `warn(message, span)` of src/parse/diagnostic.ts. */
  function WarnAt(message: string, span: Span): Diagnostic
  {
    Diagnostic(message, Warning, Some(span))
  }

  /** A span lies inside a text of length `len`. */
  predicate WithinLength(s: Span, len: nat)
  {
    s.start <= s.end <= len
  }
}
