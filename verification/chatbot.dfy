/** The chat API route as a pure step: one request against the process-wide
    conversation store and the client's bound session, giving the reply, the
    new state, and the message list handed to the completion gateway if the
    request got that far. */
module Chatbot {
  import opened Wrappers
  import opened Http
  import opened Memory
  import RateLimit

  /** Histories keyed by session uid. */
  type Store = map<string, History>

  /** The shared store and the session uid bound in this client's cookie. */
  datatype State = State(histories: Store, session: Option<string>)

  /** How the completion call ended: with the first choice's content, or by
      throwing an API error, another `Error`, or a value that is no `Error`. */
  datatype GatewayOutcome =
    | Completed(content: string)
    | ApiError(message: string)
    | Failed(message: string)
    | NonError

  /** One request: its verb, what each rate-limit middleware passed to its
      callback (one entry per element of `RateLimit.MIDDLEWARES`, though any
      length is accepted), whether the API key is configured, the body's `prompt`, the
      `uid` query value, and how the gateway call would end. */
  datatype Request = Request(
    verb: Method,
    limiter: seq<RateLimit.CallbackResult>,
    apiKeyPresent: bool,
    prompt: Option<string>,
    uid: Option<string>,
    gateway: GatewayOutcome)

  /** The reply, the state after the request, and the gateway call made. */
  datatype Outcome = Outcome(reply: Reply, state: State, call: Option<seq<Message>>)

  const KEY_MISSING: string := "OpenAi Api Key is missing!"
  const SESSION_MISSING: string := "Session is missing!"
  const INVALID_UID: string := "Invalid uid provided!"
  const HISTORY_CLEARED: string := "History cleared!"
  const NOTHING_TO_CLEAR: string := "Nothing to clear!"

  /** The history stored for `u`, an absent one read as empty. */
  function Stored(m: Store, u: string): History {
    if u in m then m[u] else []
  }

  /** The two stores agree on every key other than `u`, presence included. */
  predicate SameExcept(m: Store, m': Store, u: string) {
    && m.Keys - {u} == m'.Keys - {u}
    && forall k :: k in m && k in m' && k != u ==> m[k] == m'[k]
  }

  /** A `uid` query value the route accepts: present and non-empty. */
  predicate ValidUid(uid: Option<string>) {
    uid.Some? && uid.value != ""
  }

  predicate RateLimited(req: Request) {
    RateLimit.Limited(req.limiter)
  }

  /** The user message a POST stores. */
  function UserMessage(req: Request): Message {
    Message(User, UserContent(req.prompt))
  }

  /** POST: check the API key, then the session; store the user message under
      the session (creating an empty history first), send the system message
      and the whole history to the gateway, and on success store the reply and
      slide the window. A failed call keeps the user message. */
  function Post(s: State, req: Request): (o: Outcome)
    ensures o.state.session == s.session
    ensures !req.apiKeyPresent ==> o == Outcome(Sent(Failure(500, KEY_MISSING)), s, None)
    ensures req.apiKeyPresent && s.session.None? ==> o == Outcome(Sent(Failure(500, SESSION_MISSING)), s, None)
    ensures o.call.Some? <==> req.apiKeyPresent && s.session.Some?
    ensures o.call.Some? ==>
      var u := s.session.value;
      var asked := Stored(s.histories, u) + [UserMessage(req)];
      && o.call.value == [SystemMessage()] + asked
      && SameExcept(s.histories, o.state.histories, u)
      && u in o.state.histories
      && match req.gateway
         case Completed(c) =>
           o.state.histories[u] == Trim(asked + [Message(Assistant, c)]) && o.reply == Sent(Success(c))
         case ApiError(m) => o.state.histories[u] == asked && o.reply == Sent(Failure(500, m))
         case Failed(m) => o.state.histories[u] == asked && o.reply == Sent(Failure(500, m))
         case NonError => o.state.histories[u] == asked && o.reply == NoResponse
  {
    if !req.apiKeyPresent then Outcome(Sent(Failure(500, KEY_MISSING)), s, None)
    else match s.session
      case None => Outcome(Sent(Failure(500, SESSION_MISSING)), s, None)
      case Some(u) =>
        var initialised := if u in s.histories then s.histories else s.histories[u := []];
        var asked := initialised[u := initialised[u] + [UserMessage(req)]];
        var sent := [SystemMessage()] + asked[u];
        match req.gateway
        case Completed(c) =>
          var answered := asked[u] + [Message(Assistant, c)];
          var kept := if |answered| > MEMORY_SIZE then answered[2..] else answered;
          Outcome(Sent(Success(c)), State(asked[u := kept], s.session), Some(sent))
        case ApiError(m) => Outcome(Sent(Failure(500, m)), State(asked, s.session), Some(sent))
        case Failed(m) => Outcome(Sent(Failure(500, m)), State(asked, s.session), Some(sent))
        case NonError => Outcome(NoResponse, State(asked, s.session), Some(sent))
  }

  /** PUT: bind the session to a truthy `uid` and echo it; no history changes. */
  function Put(s: State, uid: Option<string>): (o: Outcome)
    ensures o.state.histories == s.histories && o.call == None
    ensures ValidUid(uid) ==> o.state.session == uid && o.reply == Sent(Success(uid.value))
    ensures !ValidUid(uid) ==> o.state == s && o.reply == Sent(Failure(500, INVALID_UID))
  {
    match uid
    case Some(u) =>
      if u == "" then Outcome(Sent(Failure(500, INVALID_UID)), s, None)
      else Outcome(Sent(Success(u)), State(s.histories, Some(u)), None)
    case None => Outcome(Sent(Failure(500, INVALID_UID)), s, None)
  }

  /** DELETE: empty the bound session's history, or report that there is
      nothing to clear; always a 200 success reply. */
  function Delete(s: State): (o: Outcome)
    ensures o.state.session == s.session && o.call == None
    ensures o.reply.Sent? && o.reply.response.status == 200
      && o.reply.response.body.Json? && o.reply.response.body.success
    ensures s.session.Some? ==>
      && SameExcept(s.histories, o.state.histories, s.session.value)
      && s.session.value in o.state.histories
      && o.state.histories[s.session.value] == []
      && o.reply == Sent(Success(HISTORY_CLEARED))
    ensures s.session.None? ==> o.state == s && o.reply == Sent(Success(NOTHING_TO_CLEAR))
  {
    match s.session
    case Some(u) => Outcome(Sent(Success(HISTORY_CLEARED)), State(s.histories[u := []], s.session), None)
    case None => Outcome(Sent(Success(NOTHING_TO_CLEAR)), s, None)
  }

  /** The route: the rate limiter first, then dispatch on the verb. Only the
      bound session's history can change, only a PUT can change the session,
      and only a POST past every check reaches the gateway. */
  function Step(s: State, req: Request): (o: Outcome)
    ensures RateLimited(req) ==> o == Outcome(Sent(TooManyRequests()), s, None)
    ensures !RateLimited(req) && (req.verb.GET? || req.verb.Other?) ==>
      o == Outcome(Sent(Failure(500, INVALID_ROUTE)), s, None)
    ensures o.call.Some? <==> !RateLimited(req) && req.verb == POST && req.apiKeyPresent && s.session.Some?
    ensures o.reply.NoResponse? <==> o.call.Some? && req.gateway.NonError?
    ensures o.state.session != s.session ==>
      !RateLimited(req) && req.verb == PUT && ValidUid(req.uid) && o.state.session == req.uid
    ensures s.session.None? ==> o.state.histories == s.histories
    ensures s.session.Some? ==> SameExcept(s.histories, o.state.histories, s.session.value)
  {
    if RateLimited(req) then Outcome(Sent(TooManyRequests()), s, None)
    else match req.verb
      case POST => Post(s, req)
      case PUT => Put(s, req.uid)
      case DELETE => Delete(s)
      case _ => Outcome(Sent(Failure(500, INVALID_ROUTE)), s, None)
  }

  /** A POST is checked against the limiter, then the API key, then the
      session; each refusal leaves the state as it was and calls nothing. */
  lemma PostErrorPrecedence(s: State, req: Request)
    requires req.verb == POST
    ensures RateLimited(req) ==> Step(s, req) == Outcome(Sent(TooManyRequests()), s, None)
    ensures !RateLimited(req) && !req.apiKeyPresent ==>
      Step(s, req) == Outcome(Sent(Failure(500, KEY_MISSING)), s, None)
    ensures !RateLimited(req) && req.apiKeyPresent && s.session.None? ==>
      Step(s, req) == Outcome(Sent(Failure(500, SESSION_MISSING)), s, None)
  {
  }

  /** Clearing twice is clearing once: the second DELETE repeats the first's
      reply and leaves the state as the first left it. */
  lemma DeleteIdempotent(s: State, req: Request)
    requires req.verb == DELETE
    ensures Step(Step(s, req).state, req) == Step(s, req)
  {
  }
}
