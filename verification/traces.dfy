/** Sequences of chat requests handled one after another, and what the
    conversation store looks like after them. */
module Traces {
  import opened Wrappers
  import opened Http
  import opened Memory
  import opened Chatbot

  /** A request that binds the session to `session`: a PUT past the limiter
      with that uid. */
  predicate Binds(req: Request, session: Option<string>) {
    req.verb == PUT && !RateLimited(req) && ValidUid(req.uid) && session == req.uid
  }

  /** The state after handling `reqs` in order from `s`. The session is then
      the initial one or the uid of some binding PUT among them. */
  function Run(s: State, reqs: seq<Request>): (r: State)
    ensures r.session == s.session || exists i :: 0 <= i < |reqs| && Binds(reqs[i], r.session)
    decreases |reqs|
  {
    if reqs == [] then s
    else
      var init := reqs[..|reqs| - 1];
      var mid := Run(s, init);
      assert forall i :: 0 <= i < |init| ==> init[i] == reqs[i];
      Step(mid, reqs[|reqs| - 1]).state
  }

  /** Handling one more request is one more step. */
  lemma RunSnoc(s: State, reqs: seq<Request>, req: Request)
    ensures Run(s, reqs + [req]) == Step(Run(s, reqs), req).state
  {
    assert (reqs + [req])[..|reqs|] == reqs;
  }

  /** A binding PUT changes the session and nothing else. */
  lemma BindStep(s: State, req: Request)
    requires Binds(req, req.uid)
    ensures Step(s, req).state == State(s.histories, req.uid)
  {
  }

  /** A POST that passes every check and gets an answer from the gateway. */
  predicate Answered(req: Request) {
    req.verb == POST && !RateLimited(req) && req.apiKeyPresent && req.gateway.Completed?
  }

  /** The exchange an answered request adds. */
  function Turn(req: Request): Exchange
    requires Answered(req)
  {
    Exchange(UserContent(req.prompt), req.gateway.content)
  }

  /** The exchanges of a sequence of answered requests. */
  function Turns(reqs: seq<Request>): seq<Exchange>
    requires forall i :: 0 <= i < |reqs| ==> Answered(reqs[i])
  {
    seq(|reqs|, i requires 0 <= i < |reqs| => Turn(reqs[i]))
  }

  /** The exchanges of a longer sequence end with the last request's. */
  lemma TurnsSnoc(reqs: seq<Request>)
    requires |reqs| > 0
    requires forall i :: 0 <= i < |reqs| ==> Answered(reqs[i])
    ensures Turns(reqs) == Turns(reqs[..|reqs| - 1]) + [Turn(reqs[|reqs| - 1])]
  {
  }

  /** An answered turn stores the exchange after the history and slides the
      window; the session stays bound. */
  lemma AnsweredStep(s: State, req: Request, u: string)
    requires s.session == Some(u) && Answered(req)
    ensures Step(s, req).state.session == Some(u)
    ensures Stored(Step(s, req).state.histories, u) == Trim(Stored(s.histories, u) + Pair(Turn(req)))
    ensures Step(s, req).reply == Sent(Success(req.gateway.content))
  {
    assert Stored(s.histories, u) + [UserMessage(req)] + [Message(Assistant, req.gateway.content)]
        == Stored(s.histories, u) + Pair(Turn(req));
  }

  /** A turn whose gateway call fails keeps the user message and adds no reply. */
  lemma FailedStep(s: State, req: Request, u: string)
    requires s.session == Some(u)
    requires FailingCall(req)
    ensures Step(s, req).state.session == Some(u)
    ensures Stored(Step(s, req).state.histories, u) == Stored(s.histories, u) + [UserMessage(req)]
  {
  }

  /** The sliding window: from an empty history, after any number of answered
      turns the session stores exactly its last three exchanges, user prompt
      before reply, oldest first. */
  lemma {:induction false} SlidingWindow(s: State, reqs: seq<Request>, u: string)
    requires s.session == Some(u) && Stored(s.histories, u) == []
    requires forall i :: 0 <= i < |reqs| ==> Answered(reqs[i])
    ensures Run(s, reqs).session == Some(u)
    ensures Stored(Run(s, reqs).histories, u) == Transcript(Window(Turns(reqs)))
    decreases |reqs|
  {
    if reqs != [] {
      var init, last := reqs[..|reqs| - 1], reqs[|reqs| - 1];
      assert forall i :: 0 <= i < |init| ==> init[i] == reqs[i];
      SlidingWindow(s, init, u);
      var mid := Run(s, init);
      assert Run(s, reqs) == Step(mid, last).state;
      AnsweredStep(mid, last, u);
      TurnsSnoc(reqs);
      WindowStep(Turns(init), Turn(last));
    }
  }

  /** So after N answered turns from an empty history the session holds
      min(2N, MEMORY_SIZE) messages, alternating user and assistant, user first. */
  lemma WindowShape(s: State, reqs: seq<Request>, u: string)
    requires s.session == Some(u) && Stored(s.histories, u) == []
    requires forall i :: 0 <= i < |reqs| ==> Answered(reqs[i])
    ensures |Stored(Run(s, reqs).histories, u)| == Min(2 * |reqs|, MEMORY_SIZE)
    ensures Alternates(Stored(Run(s, reqs).histories, u))
  {
    SlidingWindow(s, reqs, u);
    TranscriptAlternates(Window(Turns(reqs)));
  }

  /** A POST that passes the limiter and the key check and whose gateway
      outcome is not `Completed` (with no bound session it makes no call). */
  predicate FailingCall(req: Request) {
    req.verb == POST && !RateLimited(req) && req.apiKeyPresent && !req.gateway.Completed?
  }

  /** The number of failing calls among the requests. */
  function FailedCalls(reqs: seq<Request>): nat
    decreases |reqs|
  {
    if reqs == [] then 0
    else FailedCalls(reqs[..|reqs| - 1]) + (if FailingCall(reqs[|reqs| - 1]) then 1 else 0)
  }

  /** One request lengthens a history beyond MEMORY_SIZE (or beyond its old
      length, if longer) by at most one message, and only through a failed
      gateway call. */
  lemma StepGrowth(s: State, req: Request, u: string)
    ensures |Stored(Step(s, req).state.histories, u)|
         <= Max(|Stored(s.histories, u)|, MEMORY_SIZE) + (if FailingCall(req) then 1 else 0)
  {
  }

  /** The bound that does hold for any sequence of requests: a history is at
      most MEMORY_SIZE long, or its initial length, plus one per failed call. */
  lemma {:induction false} GrowthBound(s: State, reqs: seq<Request>, u: string)
    ensures |Stored(Run(s, reqs).histories, u)| <= Max(|Stored(s.histories, u)|, MEMORY_SIZE) + FailedCalls(reqs)
    decreases |reqs|
  {
    if reqs != [] {
      var init := reqs[..|reqs| - 1];
      GrowthBound(s, init, u);
      StepGrowth(Run(s, init), reqs[|reqs| - 1], u);
    }
  }

  /** The window does not survive a failed turn: from a full history, a POST
      whose gateway call fails and then one that is answered leave the session
      with MEMORY_SIZE + 1 messages. */
  lemma FailedTurnOverflows(s: State, failed: Request, answered: Request, u: string)
    requires s.session == Some(u) && |Stored(s.histories, u)| == MEMORY_SIZE
    requires FailingCall(failed)
    requires Answered(answered)
    ensures |Stored(Run(s, [failed, answered]).histories, u)| == MEMORY_SIZE + 1
  {
    RunSnoc(s, [], failed);
    assert [] + [failed] == [failed];
    RunSnoc(s, [failed], answered);
    assert [failed] + [answered] == [failed, answered];
    var mid := Step(s, failed).state;
    FailedStep(s, failed, u);
    AnsweredStep(mid, answered, u);
  }

  /** One request leaves the history of every unbound uid as it was. */
  lemma StepIsolation(s: State, req: Request, k: string)
    requires s.session != Some(k)
    ensures k in Step(s, req).state.histories <==> k in s.histories
    ensures k in s.histories ==> Step(s, req).state.histories[k] == s.histories[k]
  {
  }

  /** Sessions are isolated: a history whose uid is not bound at the start and
      is never bound by a PUT along the way is left exactly as it was. */
  lemma {:induction false} Isolation(s: State, reqs: seq<Request>, k: string)
    requires s.session != Some(k)
    requires forall i :: 0 <= i < |reqs| ==> !Binds(reqs[i], Some(k))
    ensures k in Run(s, reqs).histories <==> k in s.histories
    ensures k in s.histories ==> Run(s, reqs).histories[k] == s.histories[k]
    decreases |reqs|
  {
    if reqs != [] {
      var init := reqs[..|reqs| - 1];
      assert forall i :: 0 <= i < |init| ==> init[i] == reqs[i];
      Isolation(s, init, k);
      var mid := Run(s, init);
      assert mid.session != Some(k);
      RunSnoc(s, init, reqs[|reqs| - 1]);
      assert init + [reqs[|reqs| - 1]] == reqs;
      StepIsolation(mid, reqs[|reqs| - 1], k);
    }
  }

  /** Binding a session and chatting: with the key configured and the gateway
      answering "Hi there", the POST of "Hello" replies with that answer and the
      session stores the one exchange. */
  lemma BindThenChat(s: State, put: Request, post: Request)
    requires Stored(s.histories, "2024-01-01T00:00:00Z") == []
    requires put.verb == PUT && !RateLimited(put) && put.uid == Some("2024-01-01T00:00:00Z")
    requires post.verb == POST && !RateLimited(post) && post.apiKeyPresent
    requires post.prompt == Some("Hello") && post.gateway == Completed("Hi there")
    ensures Step(Step(s, put).state, post).reply == Sent(Success("Hi there"))
    ensures Stored(Run(s, [put, post]).histories, "2024-01-01T00:00:00Z")
         == [Message(User, "Hello"), Message(Assistant, "Hi there")]
  {
    RunSnoc(s, [], put);
    assert [] + [put] == [put];
    RunSnoc(s, [put], post);
    assert [put] + [post] == [put, post];
    BindStep(s, put);
    var mid := Step(s, put).state;
    AnsweredStep(mid, post, "2024-01-01T00:00:00Z");
    assert Turn(post) == Exchange("Hello", "Hi there");
  }
}
