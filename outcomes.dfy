/** Optional values and failing calls, as the TypeScript code expresses them with
    `null`/`undefined` and with thrown exceptions. */
module Outcomes {

  datatype Option<+T> = None | Some(value: T)

  /** The outcome of a call into code outside the model (the generative-AI service,
      `JSON.parse`): either its value, or the message of the error it threw. */
  datatype Result<+T> = Ok(value: T) | Failure(message: string)

  /** `[x]` for `Some(x)`, `[]` for `None`. */
  function AsSeq<T>(o: Option<T>): (r: seq<T>)
    ensures |r| <= 1
    ensures o.Some? <==> |r| == 1
    ensures o.Some? ==> r[0] == o.value
  {
    if o.Some? then [o.value] else []
  }
}
