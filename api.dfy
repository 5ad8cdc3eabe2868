/** The shapes of the backend's replies, seen from the client. */
module Api {
  import opened Wrappers

  /** Whatever a failed call throws; the client code treats every thrown value as one of these. */
  datatype ApiError = ApiError(message: string)

  /** A reply from the HTTP client: either the call threw, or it returned the JSON envelope
      `{ success, data }` whose `data` may be missing. */
  datatype Reply<+T> = Threw(error: ApiError) | Replied(success: bool, data: Option<T>)

  /** How an awaited operation settled. */
  datatype Outcome<+T> = Resolved(value: T) | Rejected(error: ApiError)

  /** The error a property read on `undefined` throws in V8-based browsers (Chrome, Edge); other
      engines word the message differently. */
  function TypeErrorReading(property: string): ApiError {
    ApiError("Cannot read properties of undefined (reading '" + property + "')")
  }

  /** The settlement of `await apiService.<verb>(...)` followed by `return response.data`. */
  function DataOf<T>(reply: Reply<T>): (o: Outcome<Option<T>>)
    ensures reply.Threw? <==> o.Rejected?
    ensures reply.Threw? ==> o.error == reply.error
    ensures reply.Replied? ==> o.value == reply.data
  {
    match reply
    case Threw(e) => Rejected(e)
    case Replied(_, data) => Resolved(data)
  }
}
