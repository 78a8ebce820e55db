/**
 * The conversation history the chat widget sends with each question
 * (front/chatbot.js): `handleBotReply` appends the user's turn, and after a
 * reply the assistant's turn, then keeps only the last ten entries. When
 * the reply fails, the user's turn stays and nothing is cut.
 */
module ChatHistory {
  import opened Wrappers

  datatype Role = User | Assistant

  /** `{ role, content }`. */
  datatype Turn = Turn(role: Role, content: string)

  /** The history is cut back to this many entries after a reply. */
  const MaxHistory: nat := 10

  /** `a` is what is left of `b` after dropping some of its first entries. */
  predicate IsSuffix<T(==)>(a: seq<T>, b: seq<T>) {
    |a| <= |b| && a == b[|b| - |a|..]
  }

  /** `h.length > n ? h.slice(-n) : h`. */
  function KeepLast<T(==)>(h: seq<T>, n: nat): (r: seq<T>)
    ensures |r| == if |h| > n then n else |h|
    ensures IsSuffix(r, h)
  {
    if |h| > n then h[|h| - n..] else h
  }

  /** The history after one call; `reply` is None when getting the reply throws. */
  function AfterReply(h: seq<Turn>, userMessage: string, reply: Option<string>): seq<Turn> {
    match reply
    case None => h + [Turn(User, userMessage)]
    case Some(r) => KeepLast(h + [Turn(User, userMessage), Turn(Assistant, r)], MaxHistory)
  }

  /** The module-level `chatHistory` array. */
  class ChatSession {
    var chatHistory: seq<Turn>

    constructor ()
      ensures chatHistory == []
    {
      chatHistory := [];
    }

    /**
     * `handleBotReply(userMessage)`, with the outcome of `getBotReply`
     * passed in: the reply text, or None when it throws.
     */
    method HandleBotReply(userMessage: string, botReply: Option<string>)
      modifies this
      ensures chatHistory == AfterReply(old(chatHistory), userMessage, botReply)
    {
      chatHistory := chatHistory + [Turn(User, userMessage)];
      if botReply.None? {
        return;
      }
      chatHistory := chatHistory + [Turn(Assistant, botReply.value)];
      if |chatHistory| > MaxHistory {
        chatHistory := chatHistory[|chatHistory| - MaxHistory..];
      }
    }
  }

  // ---------------------------------------------------------------------------
  // Properties

  /**
   * After a reply the history holds the most recent entries in order, at most
   * ten, ending with the user's turn and then the assistant's.
   */
  lemma ReplyKeepsRecent(h: seq<Turn>, userMessage: string, reply: string)
    ensures var next := AfterReply(h, userMessage, Some(reply));
      && |next| == (if |h| + 2 > MaxHistory then MaxHistory else |h| + 2)
      && IsSuffix(next, h + [Turn(User, userMessage), Turn(Assistant, reply)])
      && next[|next| - 2] == Turn(User, userMessage)
      && next[|next| - 1] == Turn(Assistant, reply)
  {
    var full := h + [Turn(User, userMessage), Turn(Assistant, reply)];
    var next := AfterReply(h, userMessage, Some(reply));
    assert next == full[|full| - |next|..];
    assert next[|next| - 2] == full[|full| - 2];
    assert next[|next| - 1] == full[|full| - 1];
  }

  /**
   * When the reply fails the user's turn is kept and nothing is cut, so a
   * full history grows past ten entries.
   */
  lemma FailureKeepsEverything(h: seq<Turn>, userMessage: string)
    ensures var next := AfterReply(h, userMessage, None);
      && |next| == |h| + 1
      && next[..|h|] == h
      && next[|h|] == Turn(User, userMessage)
      && (|h| >= MaxHistory ==> |next| > MaxHistory)
  {
    assert (h + [Turn(User, userMessage)])[..|h|] == h;
  }

  /** One call to `handleBotReply`: the user's message and the outcome of the request. */
  datatype Exchange = Exchange(userMessage: string, reply: Option<string>)

  /** The history after a series of calls, one after another. */
  function Replay(h: seq<Turn>, xs: seq<Exchange>): seq<Turn>
    decreases |xs|
  {
    if |xs| == 0 then h else Replay(AfterReply(h, xs[0].userMessage, xs[0].reply), xs[1..])
  }

  /** The turns one call pushes: the user's, and the assistant's when there is a reply. */
  function TurnsOf(x: Exchange): seq<Turn> {
    if x.reply.Some? then [Turn(User, x.userMessage), Turn(Assistant, x.reply.value)] else [Turn(User, x.userMessage)]
  }

  /** The turns a series of calls pushes. */
  function Pushed(xs: seq<Exchange>): seq<Turn> {
    if |xs| == 0 then [] else TurnsOf(xs[0]) + Pushed(xs[1..])
  }

  lemma SuffixAppend<T>(a: seq<T>, b: seq<T>, c: seq<T>)
    requires IsSuffix(a, b)
    ensures IsSuffix(a + c, b + c)
  {
    assert (b + c)[|b + c| - |a + c|..] == b[|b| - |a|..] + c;
  }

  lemma SuffixTransitive<T>(a: seq<T>, b: seq<T>, c: seq<T>)
    requires IsSuffix(a, b) && IsSuffix(b, c)
    ensures IsSuffix(a, c)
  {
    assert c[|c| - |b|..][|b| - |a|..] == c[|c| - |a|..];
  }

  lemma AppendAssoc<T>(a: seq<T>, b: seq<T>, c: seq<T>)
    ensures a + b + c == a + (b + c)
  {
  }

  /** One call leaves the history a suffix of the old history followed by what it pushed. */
  lemma AfterReplySuffix(h: seq<Turn>, x: Exchange)
    ensures IsSuffix(AfterReply(h, x.userMessage, x.reply), h + TurnsOf(x))
  {
    if x.reply.None? {
      assert (h + TurnsOf(x))[|h + TurnsOf(x)| - |h + TurnsOf(x)|..] == h + TurnsOf(x);
    }
  }

  /**
   * Whatever the calls and their outcomes, the history is always the most
   * recent part of everything pushed: entries are dropped only from the
   * front and never reordered.
   */
  lemma {:induction false} ReplaySuffix(h: seq<Turn>, xs: seq<Exchange>)
    ensures IsSuffix(Replay(h, xs), h + Pushed(xs))
    decreases |xs|
  {
    if |xs| == 0 {
      assert h + [] == h;
      assert h[|h| - |h|..] == h;
    } else {
      var x := xs[0];
      var h1 := AfterReply(h, x.userMessage, x.reply);
      var rest := Pushed(xs[1..]);
      assert Replay(h, xs) == Replay(h1, xs[1..]);
      ReplaySuffix(h1, xs[1..]);
      AfterReplySuffix(h, x);
      SuffixAppend(h1, h + TurnsOf(x), rest);
      AppendAssoc(h, TurnsOf(x), rest);
      SuffixTransitive(Replay(h, xs), h1 + rest, h + Pushed(xs));
    }
  }

  /**
   * After a series of calls whose last one got a reply, the history holds at
   * most ten entries, whatever happened before.
   */
  lemma {:induction false} ReplayBounded(h: seq<Turn>, xs: seq<Exchange>)
    requires |xs| > 0 && xs[|xs| - 1].reply.Some?
    ensures |Replay(h, xs)| <= MaxHistory
    decreases |xs|
  {
    if |xs| == 1 {
      assert xs[1..] == [];
    } else {
      ReplayBounded(AfterReply(h, xs[0].userMessage, xs[0].reply), xs[1..]);
    }
  }
}
