/** The user API route: after the rate limiter, a GET reports the uid bound
    in the client's session. */
module UserApi {
  import opened Wrappers
  import opened Http
  import RateLimit
  import Chatbot

  const UID_NOT_FOUND: string := "User uid not found!"

  /** The route's reply for a client whose session holds `session`. It always
      replies; its status is 200 exactly for a GET that passes the limiter,
      bound session or not, and only a bound session makes it a success. */
  function UserRoute(session: Option<string>, verb: Method, limiter: seq<RateLimit.CallbackResult>): (r: Reply)
    ensures r.Sent?
    ensures RateLimit.Limited(limiter) ==> r == Sent(TooManyRequests())
    ensures r.response.status == 200 <==> !RateLimit.Limited(limiter) && verb == GET
    ensures r.response.body.Json? && r.response.body.success <==>
      !RateLimit.Limited(limiter) && verb == GET && session.Some?
    ensures r.response.body.Json? && r.response.body.success ==> r.response.body.data == session
    ensures r.response.status == 200 && session.None? ==> r == Sent(Response(200, Json(false, None, Some(UID_NOT_FOUND))))
    ensures !RateLimit.Limited(limiter) && verb == GET && session.Some? ==> r == Sent(Success(session.value))
    ensures !RateLimit.Limited(limiter) && verb != GET ==> r == Sent(Failure(500, INVALID_ROUTE))
  {
    if RateLimit.Limited(limiter) then Sent(TooManyRequests())
    else if verb == GET then
      match session
      case Some(u) => Sent(Success(u))
      case None => Sent(Response(200, Json(false, None, Some(UID_NOT_FOUND))))
    else Sent(Failure(500, INVALID_ROUTE))
  }

  /** A uid bound through the chat route's PUT is the one the user route
      reports afterwards. */
  lemma PutThenGet(s: Chatbot.State, put: Chatbot.Request, limiter: seq<RateLimit.CallbackResult>)
    requires put.verb == PUT && !Chatbot.RateLimited(put) && Chatbot.ValidUid(put.uid)
    requires !RateLimit.Limited(limiter)
    ensures UserRoute(Chatbot.Step(s, put).state.session, GET, limiter) == Sent(Success(put.uid.value))
  {
  }
}
