# Chatbot conversation memory and rate limiting, in Dafny

This project models the server side of a small chat web application. The
application keeps one conversation per browser session and forwards it to a
hosted completion service. The model covers:

- **the chat route** (`completionRoute`). POST runs a chat turn. PUT binds the
  session uid, DELETE clears the session's history, and any other verb is
  refused. The route keeps a process-wide map from session uid to message
  history. After each reply, that history is cut by exactly its two oldest
  entries once it holds more than `MEMORY_SIZE` (6) messages;
- **the user route** (`userRoute`). A GET reports the uid bound in the
  session;
- **the rate-limit front** that both routes apply first:
  - the client-address chain the limiters key on (`getIP`);
  - the limiter configuration and its defaults (`getRateLimitMiddlewares`);
  - how the middleware results combine into pass or reject (`applyMiddleware`,
    `applyRateLimit`).

Each request is one pure step, `Chatbot.Step`, over explicit state. The state is
the history store plus the uid bound in the client's session cookie. A request
carries these inputs:

- the verb;
- what each rate-limit middleware handed to its callback;
- whether the API key is configured;
- the body's `prompt` and the `uid` query value;
- how the completion call would end: `Completed(content)`, an API error, another
  `Error`, or a thrown non-`Error` value.

The step returns three things:

- the reply: a response, or none at all;
- the new state;
- the exact message list sent to the completion service, when a call was made.

`Traces.Run` folds the step over a sequence of requests.

Modules, one file each:

| file | module | covers |
|---|---|---|
| wrappers.dfy | `Wrappers` | `Option` |
| http.dfy | `Http` | verbs, the `{ success, data, error }` envelope, replies |
| rate_limit.dfy | `RateLimit` | `src/lib/rateLimit.ts` |
| memory.dfy | `Memory` | messages, the fallback prompt, the trim window, a reference description of what successful turns store |
| chatbot.dfy | `Chatbot` | `src/pages/api/chatbot.ts` |
| user_route.dfy | `UserApi` | `src/pages/api/user.ts` |
| traces.dfy | `Traces` | request sequences: sliding window, growth bound, session isolation |

Two behaviours of the route are worth stating on their own:

- A DELETE without a bound session is a 200 success, "Nothing to clear!"
  (src/pages/api/chatbot.ts:157-161).
- A POST checks the API key before the session (src/pages/api/chatbot.ts:38-54).
  This ordering is stated in `Chatbot.PostErrorPrecedence`.

JavaScript truthiness is modelled explicitly. An optional string is falsy when it
is absent or empty. This covers `body.prompt || 'Hello'`, `!uid` and the
`getIP` chain.

## Model

| member | source | states |
|---|---|---|
| RateLimit.GetIP | src/lib/rateLimit.ts:15-19 | The key is the first truthy source in the order ip, `x-forwarded-for`, `x-real-ip`. When none of those is truthy, the key is the remote address as it is, even if absent or empty. The key is truthy iff some source is. |
| RateLimit.RoundQuotient | src/lib/rateLimit.ts:24 | `Math.round(a / b)` is the integer nearest to the quotient, with a tie rounded up. |
| RateLimit.GetRateLimitMiddlewares | src/lib/rateLimit.ts:21-31 | Exactly two middlewares: a slow-down, then a hard limiter. Both are keyed by the client address and share one window. Each option is the one given or its default. |
| RateLimit.DefaultMiddlewares | src/lib/rateLimit.ts:21-33 | The defaults are a 60000 ms window, 10 undelayed requests, 1000 ms delay and a maximum of 15. The delay starts strictly before the rejection. |
| RateLimit.ApplyMiddleware | src/lib/rateLimit.ts:5-13 | A wrapped middleware rejects iff its callback receives an `Error`, and rejects with that error. |
| RateLimit.ApplyRateLimit | src/lib/rateLimit.ts:35-44 | Awaiting all middlewares rejects iff at least one middleware rejects. The reason is one of the errors handed over. |
| Memory.UserContent | src/pages/api/chatbot.ts:60 | The stored user text is never empty. It is the prompt when truthy, and "Hello" when the prompt is absent or empty. |
| Memory.Trim | src/pages/api/chatbot.ts:93-96 | The result is a suffix of the history. Exactly two entries are removed when the length exceeds 6, and nothing otherwise. |
| Memory.Transcript | src/pages/api/chatbot.ts:65-92 | Reference description of turns stored without trimming: two messages per exchange, the user prompt at even positions and the reply after it. |
| Memory.TranscriptAlternates | src/pages/api/chatbot.ts:65-92 | Stored exchanges alternate user and assistant, user first. |
| Memory.WindowStep | src/pages/api/chatbot.ts:86-96 | Storing an exchange after the window of the earlier exchanges and trimming gives the window of the last three exchanges. |
| Memory.TrimOneOver | src/pages/api/chatbot.ts:94-95 | A history of 7 entries is cut to 5, not to 6. |
| Chatbot.Post | src/pages/api/chatbot.ts:37-119 | Checks run in this order: API key, then session. Each refusal is a 500 that changes nothing and makes no call. Otherwise the call is exactly the system message, the stored history and the new user message. The outcome then decides the rest. A completed call stores the trimmed history with the reply and answers 200 with it. An API error or other `Error` keeps the user message and answers 500 with the error message. A non-`Error` value keeps the user message and sends no reply. No other uid's history changes, and the session is unchanged. |
| Chatbot.Put | src/pages/api/chatbot.ts:120-141 | A truthy uid is bound and echoed. A missing or empty uid gives 500 "Invalid uid provided!" with the state unchanged. The histories never change. |
| Chatbot.Delete | src/pages/api/chatbot.ts:142-161 | With a bound session, only that uid's history becomes empty and the reply is "History cleared!". Without one, nothing changes and the reply is "Nothing to clear!". Both replies are 200 successes. |
| Chatbot.Step | src/pages/api/chatbot.ts:30-168 | A rate-limit rejection is a 429 that changes nothing. A verb other than POST, PUT or DELETE gives 500 "Invalid Api Route". Only a POST that passes every check calls the gateway. No reply is sent iff that call throws a non-`Error` value. Only a binding PUT changes the session. Only the bound session's history can change. |
| Chatbot.PostErrorPrecedence | src/pages/api/chatbot.ts:31-54 | For a POST, checks run in this order: rate limit, then API key, then session. Each refusal leaves the state unchanged and makes no gateway call. |
| Chatbot.DeleteIdempotent | src/pages/api/chatbot.ts:142-161 | A second DELETE gives the same reply and state as the first. |
| UserApi.UserRoute | src/pages/api/user.ts:7-35 | The route always replies. A rate-limit rejection gives 429. The status is 200 iff the request is a GET past the limiter. It is a success iff, in addition, a session is bound; the reply is then exactly a 200 success with that uid as `data.message` and a null `error`. Otherwise the GET reply is "User uid not found!". Every other verb gives 500 "Invalid Api Route". |
| UserApi.PutThenGet | src/pages/api/user.ts:14-20 | After a binding PUT on the chat route, a GET on the user route reports the bound uid. |
| Traces.Run | src/pages/api/chatbot.ts:120-141 | After any sequence of requests, the session is either the initial one or the uid of some binding PUT in the sequence. |
| Traces.AnsweredStep | src/pages/api/chatbot.ts:72-101 | An answered turn stores the exchange, slides the window, and replies with the answer. |
| Traces.FailedStep | src/pages/api/chatbot.ts:72-118 | A turn whose call fails leaves the history as before plus exactly the user message. |
| Traces.BindStep | src/pages/api/chatbot.ts:131-133 | A binding PUT changes the session and nothing else. |
| Traces.SlidingWindow | src/pages/api/chatbot.ts:72-96 | Start from an empty history and run only answered turns. The history is then exactly the last three exchanges, oldest first. |
| Traces.WindowShape | src/pages/api/chatbot.ts:17 | Start from an empty history. After N answered turns the session holds min(2N, 6) messages, alternating user and assistant, user first. |
| Traces.StepGrowth | src/pages/api/chatbot.ts:72-118 | One request lengthens a history past max(its length, 6) by at most one message, and only when it is a POST past the limiter and the key check whose gateway call does not complete. |
| Traces.GrowthBound | src/pages/api/chatbot.ts:72-118 | After any sequence, a history is at most max(initial length, 6) plus the number of POSTs past the limiter and the key check whose gateway outcome is not `Completed`. |
| Traces.FailedTurnOverflows | src/pages/api/chatbot.ts:74-118 | Start from a full window. A failed turn followed by an answered one leaves 7 messages, so the bound of 6 does not survive failures. |
| Traces.StepIsolation | src/pages/api/chatbot.ts:72-146 | One request never touches the history of a uid that is not bound. |
| Traces.Isolation | src/pages/api/chatbot.ts:22-24 | Take a uid that is not bound at the start and that no PUT binds. Its history, and whether it has one, is the same after any sequence. |
| Traces.BindThenChat | src/pages/api/chatbot.ts:56-141 | Binding a session, then POSTing "Hello" with the gateway answering "Hi there", replies "Hi there". The session then stores exactly the user "Hello" and the assistant "Hi there". |

## Left out

- The completion service call (model name, temperature, token limits) is not modelled. Its result is the gateway outcome carried by the request. An empty `choices` list throws a `TypeError`, which is covered by the `Failed` outcome. A `null` reply content is not modelled: contents are strings.
- The counting, windows and delays of `express-rate-limit` and `express-slow-down` are not modelled. Their source is not part of this model, so each middleware is represented only by the value it hands to its callback. A middleware that answers by itself and never calls its callback, which leaves the route's promise pending, is not modelled either.
- Promise machinery is not modelled. In particular, which rejection `Promise.all` reports first is not modelled, because the routes ignore the reason.
- Cookie sealing and `req.session.save()` of `iron-session` (`src/lib/session.ts`) are not modelled. They are cryptography and I/O, so the session is a plain optional uid.
- Traces.Isolation: a trace is the requests of one client, carrying that client's session cookie. The history store is shared by the whole process, and other clients may bind the same uid and then POST or DELETE on its history; their requests are not modelled, so the isolation holds only within one client's trace.
- Traces.Run: the session contract names some binding PUT of the trace, not specifically the last one, although the step keeps the uid of the last.
- Concurrent requests racing on the shared history map are not modelled. Requests are handled one after another.
- Environment variables are not modelled. The API key is reduced to a boolean; the cookie password and production flag are dropped.
- Non-string query and body values are not modelled: an array-valued `uid` (which is truthy even when empty), or a non-string prompt.
- Session uids that name inherited members of a plain JavaScript object (such as `constructor`) are not modelled. Such a uid makes the `||=`/`push` lookup misbehave; the store is modelled as a plain map.
- Verb strings are not modelled: a verb is a datatype value, and `Other` stands only for a verb that is not exactly `GET`, `POST`, `PUT` or `DELETE`. Nothing in the model stops `Other("POST")` from being built, and the route would refuse it where the source dispatches it as a POST.
- Logging (`console.log`) is not modelled.
- The pages, components and hooks of the user interface are not modelled. They are presentation, timers and client-side fetches.
