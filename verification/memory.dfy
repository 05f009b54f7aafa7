/** The conversation memory of the chat route: role-tagged messages, a
    session's stored history, and the sliding window applied after each
    assistant reply. Also a reference description of what a window of
    successful turns holds: the last exchanges, each a user prompt followed
    by its reply. */
module Memory {
  import opened Wrappers

  /** The window bound: once a history is longer than this after a reply,
      its two oldest entries go. */
  const MEMORY_SIZE: nat := 6
  const SYSTEM_PROMPT: string := "You are a helpful assistant."
  const FALLBACK_PROMPT: string := "Hello"

  datatype Role = System | User | Assistant
  datatype Message = Message(role: Role, content: string)
  type History = seq<Message>

  /** The message put in front of every gateway call; it is never stored. */
  function SystemMessage(): Message {
    Message(System, SYSTEM_PROMPT)
  }

  /** The user's text: the prompt when it is truthy, the fallback greeting
      when it is absent or empty. It is never empty. */
  function UserContent(prompt: Option<string>): (c: string)
    ensures c != ""
    ensures prompt == Some(c) || c == FALLBACK_PROMPT
    ensures prompt.Some? && prompt.value != "" ==> c == prompt.value
  {
    match prompt
    case Some(p) => if p != "" then p else FALLBACK_PROMPT
    case None => FALLBACK_PROMPT
  }

  /** `r` is what remains of `h` after dropping some of its oldest entries. */
  predicate IsSuffix(r: History, h: History) {
    |r| <= |h| && r == h[|h| - |r|..]
  }

  /** The window step taken after a reply is stored: exactly two of the oldest
      entries are removed when the history is longer than MEMORY_SIZE, and
      nothing otherwise. */
  function Trim(h: History): (r: History)
    ensures IsSuffix(r, h)
    ensures |h| > MEMORY_SIZE ==> |r| == |h| - 2
    ensures |h| <= MEMORY_SIZE ==> r == h
  {
    if |h| > MEMORY_SIZE then h[2..] else h
  }

  /** One successful turn: the user's text and the reply to it. */
  datatype Exchange = Exchange(prompt: string, reply: string)

  /** The stored form of one exchange. */
  function Pair(e: Exchange): History {
    [Message(User, e.prompt), Message(Assistant, e.reply)]
  }

  /** Roles alternate user, assistant, user, ... starting with the user. */
  predicate Alternates(h: History) {
    forall i :: 0 <= i < |h| ==> h[i].role == (if i % 2 == 0 then User else Assistant)
  }

  /** The history a sequence of exchanges stores when nothing is dropped:
      prompt and reply of each exchange, in order. */
  function Transcript(es: seq<Exchange>): (h: History)
    ensures |h| == 2 * |es|
    ensures forall i :: 0 <= i < |es| ==>
      h[2 * i] == Message(User, es[i].prompt) && h[2 * i + 1] == Message(Assistant, es[i].reply)
    decreases |es|
  {
    if es == [] then []
    else
      var init := Transcript(es[..|es| - 1]);
      assert forall i :: 0 <= i < |es| - 1 ==> es[..|es| - 1][i] == es[i];
      init + Pair(es[|es| - 1])
  }

  /** A transcript alternates roles, user first. */
  lemma TranscriptAlternates(es: seq<Exchange>)
    ensures Alternates(Transcript(es))
  {
    var h := Transcript(es);
    forall i | 0 <= i < |h|
      ensures h[i].role == (if i % 2 == 0 then User else Assistant)
    {
      var j := i / 2;
      assert 0 <= j < |es|;
      assert h[2 * j] == Message(User, es[j].prompt);
      if i % 2 == 0 {
        assert i == 2 * j && h[2 * j].role == User;
      } else {
        assert i == 2 * j + 1 && h[2 * j + 1].role == Assistant;
      }
    }
  }

  /** Dropping the two oldest entries of a transcript drops its oldest exchange. */
  lemma {:induction false} TranscriptDropFirst(es: seq<Exchange>)
    requires |es| >= 1
    ensures Transcript(es)[2..] == Transcript(es[1..])
  {
    var h, t := Transcript(es), Transcript(es[1..]);
    assert |h[2..]| == |t|;
    forall i | 0 <= i < |t|
      ensures h[2..][i] == t[i]
    {
      var j := i / 2;
      assert i == 2 * j || i == 2 * j + 1;
      assert es[1..][j] == es[j + 1];
      assert h[2..][i] == h[2 * (j + 1) + (i - 2 * j)];
    }
  }

  function Min(a: int, b: int): int {
    if a <= b then a else b
  }

  function Max(a: int, b: int): int {
    if a >= b then a else b
  }

  /** The exchanges a full window keeps. */
  const WINDOW_EXCHANGES: nat := MEMORY_SIZE / 2

  /** The most recent WINDOW_EXCHANGES exchanges (all of them if fewer). */
  function Window(es: seq<Exchange>): (w: seq<Exchange>)
    ensures |w| == Min(|es|, WINDOW_EXCHANGES)
  {
    es[|es| - Min(|es|, WINDOW_EXCHANGES)..]
  }

  /** Storing one more exchange after a transcript gives the transcript of both. */
  lemma TranscriptSnoc(es: seq<Exchange>, e: Exchange)
    ensures Transcript(es) + Pair(e) == Transcript(es + [e])
  {
    assert (es + [e])[..|es|] == es;
  }

  /** The sliding window is kept by a successful turn: storing a new exchange
      after the window of earlier ones and then trimming yields the window of
      all of them. */
  lemma {:induction false} WindowStep(es: seq<Exchange>, e: Exchange)
    ensures Trim(Transcript(Window(es)) + Pair(e)) == Transcript(Window(es + [e]))
  {
    var w := Window(es);
    TranscriptSnoc(w, e);
    if |es| < WINDOW_EXCHANGES {
      assert w == es;
    } else {
      WindowFull(es, e);
    }
  }

  /** With a full window, the new exchange pushes out the oldest one. */
  lemma WindowFull(es: seq<Exchange>, e: Exchange)
    requires |es| >= WINDOW_EXCHANGES
    ensures Trim(Transcript(Window(es) + [e])) == Transcript(Window(es + [e]))
  {
    var n := |es|;
    var w := es[n - WINDOW_EXCHANGES..];
    assert Window(es) == w;
    var w' := w + [e];
    assert |Transcript(w')| == MEMORY_SIZE + 2;
    assert Trim(Transcript(w')) == Transcript(w')[2..];
    TranscriptDropFirst(w');
    assert w'[1..] == es[n - WINDOW_EXCHANGES + 1..] + [e];
    assert Window(es + [e]) == (es + [e])[n + 1 - WINDOW_EXCHANGES..];
    assert (es + [e])[n + 1 - WINDOW_EXCHANGES..] == es[n + 1 - WINDOW_EXCHANGES..] + [e];
  }

  /** A history reaching MEMORY_SIZE + 1 entries, which only a stored failed
      turn makes possible, is cut to MEMORY_SIZE - 1 entries, not to MEMORY_SIZE. */
  lemma TrimOneOver(h: History)
    requires |h| == MEMORY_SIZE + 1
    ensures Trim(h) == h[2..] && |Trim(h)| == MEMORY_SIZE - 1
  {
  }
}
