/** Values shared by every handler of the backend: optional request fields,
    JavaScript truthiness of those fields and the reply a handler produces. */
module Base {

  datatype Option<+T> = None | Some(value: T)

  /** An instant, kept opaque: the model never does arithmetic on dates, and
      the handler's `new Date()` is an input called `now`. */
  type Timestamp = int

  /** A string request field is truthy when it is present and not "". */
  predicate Given(s: Option<string>)
  {
    s.Some? && s.value != ""
  }

  /** A numeric request field is truthy when it is present and not 0. */
  predicate GivenNumber(n: Option<int>)
  {
    n.Some? && n.value != 0
  }

  /** `a || b` on a string field: the new value when truthy, else the old one. */
  function Or(s: Option<string>, current: string): string
  {
    if Given(s) then s.value else current
  }

  /** `a || b` on a numeric field. */
  function OrNumber(n: Option<int>, current: int): int
  {
    if GivenNumber(n) then n.value else current
  }

  /** What a handler sends back instead of writing to `resp`:
      - Ok: `resp.status(status).json(body)`;
      - Err: a `{ message }` reply, sent directly or through `next({ status, message })`;
      - Thrown: the store raised and the handler passed the raw exception to `next(error)`. */
  datatype Reply<+T> =
    | Ok(status: int, body: T)
    | Err(status: int, message: string)
    | Thrown
}
