/** Option and Result: the absent value of the TypeScript sources and the
  * channel through which a thrown diagnostic or error travels. */
module Wrappers {
  datatype Option<T> = None | Some(value: T)

  datatype Result<T, E> = Ok(value: T) | Err(error: E)

  /** Concatenation regrouped; stated once so that large proof contexts
    * need not rediscover it. */
  lemma AppendAssoc<T>(a: seq<T>, b: seq<T>, c: seq<T>)
    ensures a + b + c == a + (b + c)
  {
  }
}
