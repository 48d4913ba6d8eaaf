/** Types and helpers shared by the store slices and the pages that feed them. */
module StoreTypes {
  import opened Wrappers

  /** The `"asc" | "desc"` sort direction of both listings. */
  datatype SortOrder = Asc | Desc

  /** The page-count form of the server's pagination payload. */
  datatype PaginationData = PaginationData(page: int, limit: int, total: int, totalPages: int)

  /** One key of the shallow merge `{ ...current, ...patch }`. The patch's key is
      `Some(v)` when the key is present in the payload (and `v` may be `None`,
      an explicit `undefined`), `None` when the payload does not mention it. */
  function Assign<T>(current: Option<T>, key: Option<Option<T>>): Option<T>
  {
    if key.Some? then key.value else current
  }

  /** The key of the payload `{ ...first, ...second }`. */
  function Then<T>(first: Option<Option<T>>, second: Option<Option<T>>): Option<Option<T>>
  {
    if second.Some? then second else first
  }

  /** Merging two payloads one after the other is merging their combination. */
  lemma AssignThen<T>(current: Option<T>, first: Option<Option<T>>, second: Option<Option<T>>)
    ensures Assign(Assign(current, first), second) == Assign(current, Then(first, second))
  {
  }

  /** What a failed request throws, as seen by a `catch` block: an HTTP-client
      error whose response body, if any, may carry a `message`; an HTTP-client
      error whose response body is JSON `null`; or anything else. */
  datatype RequestFailure = HttpError(message: Option<string>) | HttpErrorNullBody | OtherError

  /** `message || fallback`: a missing or empty message gives the fallback. */
  function MessageOr(message: Option<string>, fallback: string): (r: string)
    ensures message.Some? && message.value != "" ==> r == message.value
    ensures message.None? || message.value == "" ==> r == fallback
  {
    if message.Some? && message.value != "" then message.value else fallback
  }

  /** The value a thunk passes to `rejectWithValue` when it reads the message as
      `error.response?.data?.message`: the server's message or `httpFallback`
      for an HTTP-client error (a null body has no message), `otherFallback`
      for anything else. */
  function RejectValue(f: RequestFailure, httpFallback: string, otherFallback: string): (r: string)
    ensures httpFallback != "" && otherFallback != "" ==> r != ""
    ensures f.HttpError? && f.message.Some? && f.message.value != "" ==> r == f.message.value
    ensures f.HttpError? && (f.message.None? || f.message.value == "") ==> r == httpFallback
    ensures f.HttpErrorNullBody? ==> r == httpFallback
    ensures f.OtherError? ==> r == otherFallback
  {
    match f
    case HttpError(message) => MessageOr(message, httpFallback)
    case HttpErrorNullBody => httpFallback
    case OtherError => otherFallback
  }

  /** The same when the thunk reads `error.response?.data.message`, with no
      `?.` after `data`: on a null body the `catch` block itself throws, so
      `rejectWithValue` is never reached and the rejected action carries no
      payload (`None`); every other failure gives the value above. */
  function RejectValueUnguarded(f: RequestFailure, httpFallback: string, otherFallback: string): (r: Option<string>)
    ensures r.None? <==> f.HttpErrorNullBody?
    ensures r.Some? ==> r.value == RejectValue(f, httpFallback, otherFallback)
  {
    if f.HttpErrorNullBody? then None else Some(RejectValue(f, httpFallback, otherFallback))
  }
}
