/** The parts of an HTTP exchange the API routes look at: the verb and the
    response they send, with its status and its JSON or text body. */
module Http {
  import opened Wrappers

  /** The request verb; `Other` holds any verb a route does not dispatch on
      (the routes compare the verb case-sensitively). */
  datatype Method = GET | POST | PUT | DELETE | Other(verb: string)

  /** A text body, or the routes' JSON envelope `{ success, data, error }`
      where `data` is `{ message }` or null and `error` is `{ message }` or null. */
  datatype Body =
    | Text(text: string)
    | Json(success: bool, data: Option<string>, error: Option<string>)

  datatype Response = Response(status: int, body: Body)

  /** What a route hands back: a response, or nothing at all when the
      handler returns without writing one. */
  datatype Reply = Sent(response: Response) | NoResponse

  const TOO_MANY_REQUESTS: string := "Too many requests"
  const INVALID_ROUTE: string := "Invalid Api Route"

  /** The 429 text reply sent when the rate limiter rejects a request. */
  function TooManyRequests(): Response {
    Response(429, Text(TOO_MANY_REQUESTS))
  }

  /** A 200 `{ success: true, data: { message }, error: null }` reply. */
  function Success(message: string): Response {
    Response(200, Json(true, Some(message), None))
  }

  /** A `{ success: false, data: null, error: { message } }` reply. */
  function Failure(status: int, message: string): Response {
    Response(status, Json(false, None, Some(message)))
  }
}
