/** The message history: the messages `sendMessage` and the welcome effect
    create, the filter that drops recent assistant messages before a reply
    is appended, and the facts that make the history well formed. */
module History {
  import opened Wrappers
  import opened ChatData

  const ErrorText := "Sorry, I encountered an error. Please try again later."

  /** Assistant messages newer than this many milliseconds are treated as
      duplicates of an incoming reply. */
  const DedupWindow := 1000

  /** The outcome of the request to the reply service: the `response` and
      optional `timestamp` of the body, or a failure (transport error, a
      status that is not ok, or a body that is not JSON). */
  datatype Reply = Success(text: string, timestamp: Option<int>) | Failure

  function UserMessage(id: nat, text: string, now: int): Message {
    Message(id, text, User, now, false)
  }

  function WelcomeMessage(id: nat, text: string, now: int): Message {
    Message(id, text, Assistant, now, false)
  }

  /** `data.timestamp || now`: the reply's own timestamp unless it is
      missing or falsy (the number 0). */
  function ReplyTime(timestamp: Option<int>, now: int): int {
    match timestamp
    case Some(ts) => if ts != 0 then ts else now
    case None => now
  }

  /** The assistant message built from a reply. */
  function ResponseMessage(id: nat, text: string, timestamp: Option<int>, now: int): Message {
    Message(id, text, Assistant, ReplyTime(timestamp, now), false)
  }

  function ErrorMessage(id: nat, now: int): Message {
    Message(id, ErrorText, Assistant, now, true)
  }

  /** `msg.sender === 'assistant' && msg.timestamp > new Date(Date.now() - 1000)`. */
  predicate RecentAssistant(m: Message, now: int) {
    m.sender == Assistant && m.timestamp > now - DedupWindow
  }

  /** The dedup filter: keeps, in order, every message that is not a recent
      assistant message. */
  function DropRecentAssistant(ms: seq<Message>, now: int): (r: seq<Message>)
    ensures |r| <= |ms|
    ensures forall m :: m in r <==> m in ms && !RecentAssistant(m, now)
    ensures forall m :: multiset(r)[m] == if RecentAssistant(m, now) then 0 else multiset(ms)[m]
  {
    if ms == [] then []
    else
      assert ms == [ms[0]] + ms[1..];
      (if RecentAssistant(ms[0], now) then [] else [ms[0]]) + DropRecentAssistant(ms[1..], now)
  }

  /** `idx` maps each position of `r` to a position of `ms` holding the same
      message, and strictly increases: `r` is `ms` with some messages left
      out and the rest in their original order. */
  ghost predicate OrderedEmbedding(idx: seq<int>, r: seq<Message>, ms: seq<Message>) {
    && |idx| == |r|
    && (forall i :: 0 <= i < |idx| ==> 0 <= idx[i] < |ms| && r[i] == ms[idx[i]])
    && (forall i, j :: 0 <= i < j < |idx| ==> idx[i] < idx[j])
  }

  /** An embedding of `r` into the tail of `ms` shifts to one into `ms`,
      with or without the head of `ms` kept in front. */
  lemma EmbedInTail(idx: seq<int>, r: seq<Message>, ms: seq<Message>, keepHead: bool)
    requires ms != [] && OrderedEmbedding(idx, r, ms[1..])
    ensures var head := if keepHead then [ms[0]] else [];
            var start := if keepHead then [0] else [];
            OrderedEmbedding(start + seq(|idx|, k requires 0 <= k < |idx| => idx[k] + 1), head + r, ms)
  {
    var shifted := seq(|idx|, k requires 0 <= k < |idx| => idx[k] + 1);
    assert OrderedEmbedding(shifted, r, ms);
    if keepHead {
      var e := [0] + shifted;
      var rr := [ms[0]] + r;
      forall i | 0 < i < |e| ensures 0 <= e[i] < |ms| && rr[i] == ms[e[i]] {
        assert e[i] == shifted[i - 1] && rr[i] == r[i - 1];
      }
    }
  }

  /** The filter keeps the surviving messages in their original order. */
  lemma {:induction false} DropKeepsOrder(ms: seq<Message>, now: int)
    ensures exists idx :: OrderedEmbedding(idx, DropRecentAssistant(ms, now), ms)
  {
    if ms == [] {
      assert DropRecentAssistant(ms, now) == [];
      assert OrderedEmbedding([], [], ms);
    } else {
      DropKeepsOrder(ms[1..], now);
      var rest := DropRecentAssistant(ms[1..], now);
      var idx :| OrderedEmbedding(idx, rest, ms[1..]);
      var keep := !RecentAssistant(ms[0], now);
      EmbedInTail(idx, rest, ms, keep);
      assert DropRecentAssistant(ms, now) == (if keep then [ms[0]] else []) + rest;
    }
  }

  /** The user's messages, in order. */
  function UserMessages(ms: seq<Message>): seq<Message> {
    if ms == [] then []
    else (if ms[0].sender == User then [ms[0]] else []) + UserMessages(ms[1..])
  }

  lemma {:induction false} UserMessagesAppend(a: seq<Message>, b: seq<Message>)
    ensures UserMessages(a + b) == UserMessages(a) + UserMessages(b)
  {
    if a != [] {
      assert (a + b)[1..] == a[1..] + b;
      UserMessagesAppend(a[1..], b);
    } else {
      assert a + b == b;
    }
  }

  /** The filter never drops a user message, nor changes their order. */
  lemma {:induction false} DropKeepsUserMessages(ms: seq<Message>, now: int)
    ensures UserMessages(DropRecentAssistant(ms, now)) == UserMessages(ms)
  {
    if ms != [] {
      var head := if RecentAssistant(ms[0], now) then [] else [ms[0]];
      UserMessagesAppend(head, DropRecentAssistant(ms[1..], now));
      DropKeepsUserMessages(ms[1..], now);
      assert UserMessages(head) == (if ms[0].sender == User then [ms[0]] else []);
    }
  }

  /** The history after a reply has arrived: on success the filtered history
      followed by the response, on failure the history followed by the
      error message. */
  function WithReply(ms: seq<Message>, reply: Reply, id: nat, now: int): seq<Message> {
    match reply
    case Success(text, ts) => DropRecentAssistant(ms, now) + [ResponseMessage(id, text, ts, now)]
    case Failure => ms + [ErrorMessage(id, now)]
  }

  /** Whatever the outcome, the history ends with the new assistant message,
      keeps every user message in order, and grows by at most one. */
  lemma WithReplyShape(ms: seq<Message>, reply: Reply, id: nat, now: int)
    ensures var r := WithReply(ms, reply, id, now);
            && |r| <= |ms| + 1
            && r[|r| - 1].sender == Assistant
            && r[|r| - 1].id == id
            && UserMessages(r) == UserMessages(ms)
            && (reply.Success? ==> r[|r| - 1] == ResponseMessage(id, reply.text, reply.timestamp, now))
            && (reply.Failure? ==> r == ms + [ErrorMessage(id, now)] && r[|r| - 1].isError)
  {
    var r := WithReply(ms, reply, id, now);
    var last := r[|r| - 1];
    var kept := if reply.Success? then DropRecentAssistant(ms, now) else ms;
    assert r == kept + [last];
    UserMessagesAppend(kept, [last]);
    assert UserMessages([last]) == [];
    if reply.Success? {
      DropKeepsUserMessages(ms, now);
    }
  }

  // ---------------------------------------------------------------------
  // Well-formed histories

  /** Ids grow along the history, so no two messages share one. */
  predicate IdsAscending(ms: seq<Message>) {
    forall i, j :: 0 <= i < j < |ms| ==> ms[i].id < ms[j].id
  }

  /** Every id in the history is below the next id to be handed out. */
  predicate IdsBelow(ms: seq<Message>, next: nat) {
    forall i :: 0 <= i < |ms| ==> ms[i].id < next
  }

  /** Leaving messages out of an ascending history keeps it ascending. */
  lemma EmbeddingKeepsIdsAscending(idx: seq<int>, r: seq<Message>, ms: seq<Message>)
    requires OrderedEmbedding(idx, r, ms) && IdsAscending(ms)
    ensures IdsAscending(r)
  {
    forall i, j | 0 <= i < j < |r| ensures r[i].id < r[j].id {
      assert r[i] == ms[idx[i]] && r[j] == ms[idx[j]] && idx[i] < idx[j];
    }
  }

  lemma DropKeepsIdsAscending(ms: seq<Message>, now: int)
    requires IdsAscending(ms)
    ensures IdsAscending(DropRecentAssistant(ms, now))
  {
    DropKeepsOrder(ms, now);
    var idx :| OrderedEmbedding(idx, DropRecentAssistant(ms, now), ms);
    EmbeddingKeepsIdsAscending(idx, DropRecentAssistant(ms, now), ms);
  }

  lemma DropKeepsIdsBelow(ms: seq<Message>, now: int, next: nat)
    requires IdsBelow(ms, next)
    ensures IdsBelow(DropRecentAssistant(ms, now), next)
  {
    var r := DropRecentAssistant(ms, now);
    forall i | 0 <= i < |r| ensures r[i].id < next {
      assert r[i] in ms;
    }
  }

  /** Appending a message with the next id keeps the history well formed. */
  lemma AppendFresh(ms: seq<Message>, m: Message, next: nat)
    requires IdsAscending(ms) && IdsBelow(ms, next) && m.id == next
    ensures IdsAscending(ms + [m]) && IdsBelow(ms + [m], next + 1)
  {
  }

  /** After a reply arrives, the history is still well formed, given that
      the reply took the next id. */
  lemma WithReplyWellFormed(ms: seq<Message>, reply: Reply, next: nat, now: int)
    requires IdsAscending(ms) && IdsBelow(ms, next)
    ensures IdsAscending(WithReply(ms, reply, next, now)) && IdsBelow(WithReply(ms, reply, next, now), next + 1)
  {
    var kept := if reply.Success? then DropRecentAssistant(ms, now) else ms;
    if reply.Success? {
      DropKeepsIdsAscending(ms, now);
      DropKeepsIdsBelow(ms, now, next);
      AppendFresh(kept, ResponseMessage(next, reply.text, reply.timestamp, now), next);
    } else {
      AppendFresh(kept, ErrorMessage(next, now), next);
    }
  }
}
