/** The message-list reducers of the chat hook
    (`src/components/hooks/useWebSocket.ts`): reaction normalisation,
    append-if-absent, single and bulk reaction updates, history sorting, and
    the reconnect schedule applied when the socket closes. The socket itself,
    JSON parsing and timers are not modelled; a message's `created_at` is
    the timestamp it parses to. */
module ChatReducers {
  import opened Js

  /** The reaction keys every normalised message carries. */
  const Like: string := "like"
  const Dislike: string := "dislike"
  const Heart: string := "heart"
  const Smile: string := "smile"

  const MaxReconnectAttempts: nat := 5
  const ChatUnreachable: string := "Не удалось подключиться к чату. Проверьте соединение."

  /** Reaction counts by reaction type. */
  type Reactions = map<string, int>

  /** A message as it arrives, with whatever `reactions` object it has. */
  datatype RawMessage = RawMessage(id: string, createdAt: int, content: string, reactions: Option<Reactions>)

  /** A message in the list. */
  datatype ChatMessage = ChatMessage(id: string, createdAt: int, content: string, reactions: Reactions)

  /** `counts[key] || 0`: an absent key (or a zero) reads as 0. */
  function Count(counts: Reactions, key: string): int {
    if key in counts then counts[key] else 0
  }

  /** `normalizeReactions`: exactly the four reaction keys, each taken from
      the raw object when present and 0 otherwise; any other key is
      dropped. */
  function NormalizeReactions(raw: Option<Reactions>): (r: Reactions)
    ensures r.Keys == {Like, Dislike, Heart, Smile}
    ensures forall k :: k in r ==> r[k] == (if raw.Some? then Count(raw.value, k) else 0)
  {
    var src := raw.GetOr(map[]);
    map[Like := Count(src, Like), Dislike := Count(src, Dislike), Heart := Count(src, Heart), Smile := Count(src, Smile)]
  }

  /** `normalizeMessage`: the message with normalised reactions. */
  function NormalizeMessage(raw: RawMessage): (m: ChatMessage)
    ensures m.id == raw.id && m.createdAt == raw.createdAt && m.content == raw.content
    ensures m.reactions == NormalizeReactions(raw.reactions)
  {
    ChatMessage(raw.id, raw.createdAt, raw.content, NormalizeReactions(raw.reactions))
  }

  /** Normalising normalised reactions changes nothing, so a message that
      goes through `normalizeMessage` twice keeps its counts. */
  lemma NormalizeReactionsIdempotent(raw: Option<Reactions>)
    ensures NormalizeReactions(Some(NormalizeReactions(raw))) == NormalizeReactions(raw)
  {
  }

  /** Some message in the list has this id. */
  predicate HasId(list: seq<ChatMessage>, id: string) {
    exists i :: 0 <= i < |list| && list[i].id == id
  }

  /** No two messages in the list share an id. */
  predicate UniqueIds(list: seq<ChatMessage>) {
    forall i, j :: 0 <= i < j < |list| ==> list[i].id != list[j].id
  }

  /** `addMessageIfNotExists`: a message whose id is already listed is
      dropped; any other is appended at the end. */
  function AddIfAbsent(list: seq<ChatMessage>, m: ChatMessage): (r: seq<ChatMessage>)
    ensures HasId(list, m.id) ==> r == list
    ensures !HasId(list, m.id) ==> r == list + [m]
    ensures HasId(r, m.id)
  {
    if HasId(list, m.id) then list
    else
      var r := list + [m];
      assert r[|list|].id == m.id;
      r
  }

  /** Appending only absent ids keeps ids unique. */
  lemma AddIfAbsentKeepsIdsUnique(list: seq<ChatMessage>, m: ChatMessage)
    requires UniqueIds(list)
    ensures UniqueIds(AddIfAbsent(list, m))
  {
    if !HasId(list, m.id) {
      var r := list + [m];
      forall i, j | 0 <= i < j < |r|
        ensures r[i].id != r[j].id
      {
        if j == |list| {
          assert list[i].id != m.id;
        }
      }
    }
  }

  /** `handleNewMessage`: normalise, then append if absent. */
  function HandleNewMessage(list: seq<ChatMessage>, raw: RawMessage): (r: seq<ChatMessage>)
    ensures r == AddIfAbsent(list, NormalizeMessage(raw))
    ensures |list| <= |r| <= |list| + 1
  {
    AddIfAbsent(list, NormalizeMessage(raw))
  }

  /** The counts after one reaction event on a message: `added` adds one,
      `removed` takes one away but never below 0, any other status changes
      nothing. */
  function Bump(counts: Reactions, reactionType: string, status: string): (r: Reactions)
    ensures status == "added" ==> r == counts[reactionType := Count(counts, reactionType) + 1]
    ensures status == "removed" ==> r.Keys == counts.Keys + {reactionType}
    ensures status == "removed" && Count(counts, reactionType) >= 1 ==> r[reactionType] == Count(counts, reactionType) - 1
    ensures status == "removed" && Count(counts, reactionType) < 1 ==> r[reactionType] == 0
    ensures status == "removed" ==> forall k :: k in counts && k != reactionType ==> r[k] == counts[k]
    ensures status != "added" && status != "removed" ==> r == counts
  {
    if status == "added" then counts[reactionType := Count(counts, reactionType) + 1]
    else if status == "removed" then
      var c := Count(counts, reactionType) - 1;
      counts[reactionType := if c < 0 then 0 else c]
    else counts
  }

  /** `handleSingleReaction`: every message with the reaction's id gets its
      counts bumped; all other messages are left as they are. */
  function HandleSingleReaction(list: seq<ChatMessage>, messageId: string, reactionType: string, status: string)
    : (r: seq<ChatMessage>)
    ensures |r| == |list|
    ensures forall i :: 0 <= i < |list| && list[i].id != messageId ==> r[i] == list[i]
    ensures forall i :: 0 <= i < |list| && list[i].id == messageId ==>
              r[i] == list[i].(reactions := Bump(list[i].reactions, reactionType, status))
  {
    seq(|list|, i requires 0 <= i < |list| =>
      if list[i].id == messageId then list[i].(reactions := Bump(list[i].reactions, reactionType, status))
      else list[i])
  }

  /** Reaction counts that start non-negative stay non-negative under any
      single reaction event. */
  lemma CountsStayNonNegative(list: seq<ChatMessage>, messageId: string, reactionType: string, status: string)
    requires forall i, k :: 0 <= i < |list| && k in list[i].reactions ==> list[i].reactions[k] >= 0
    ensures var r := HandleSingleReaction(list, messageId, reactionType, status);
            forall i, k :: 0 <= i < |r| && k in r[i].reactions ==> r[i].reactions[k] >= 0
  {
  }

  /** An `added` event followed by a `removed` event for the same message
      and type brings the count back to where it was. */
  lemma AddedThenRemovedRestoresCount(counts: Reactions, reactionType: string)
    requires Count(counts, reactionType) >= 0
    ensures Count(Bump(Bump(counts, reactionType, "added"), reactionType, "removed"), reactionType)
            == Count(counts, reactionType)
  {
  }

  /** `updateMessageReactions`: every message with the id gets the given
      reactions object as is, without normalisation. */
  function UpdateMessageReactions(list: seq<ChatMessage>, messageId: string, reactions: Reactions): (r: seq<ChatMessage>)
    ensures |r| == |list|
    ensures forall i :: 0 <= i < |list| ==>
              r[i] == if list[i].id == messageId then list[i].(reactions := reactions) else list[i]
  {
    seq(|list|, i requires 0 <= i < |list| =>
      if list[i].id == messageId then list[i].(reactions := reactions) else list[i])
  }

  /** A reaction event's fields. */
  datatype ReactionData = ReactionData(
    messageId: Option<string>,
    reactionType: Option<string>,
    status: Option<string>,
    reactions: Option<Reactions>)

  /** `handleReaction`: with a message id, type and status (all truthy) it
      takes the single-reaction path; else with a message id and a
      reactions object it replaces that message's reactions; else it does
      nothing. */
  function HandleReaction(list: seq<ChatMessage>, data: ReactionData): (r: seq<ChatMessage>)
    ensures TruthyOptStr(data.messageId) && TruthyOptStr(data.reactionType) && TruthyOptStr(data.status) ==>
              r == HandleSingleReaction(list, data.messageId.value, data.reactionType.value, data.status.value)
    ensures !(TruthyOptStr(data.messageId) && TruthyOptStr(data.reactionType) && TruthyOptStr(data.status))
              && TruthyOptStr(data.messageId) && data.reactions.Some? ==>
              r == UpdateMessageReactions(list, data.messageId.value, data.reactions.value)
    ensures !TruthyOptStr(data.messageId) ==> r == list
    ensures (TruthyOptStr(data.messageId) && !(TruthyOptStr(data.reactionType) && TruthyOptStr(data.status))
             && data.reactions.None?) ==> r == list
    ensures |r| == |list|
  {
    if TruthyOptStr(data.messageId) && TruthyOptStr(data.reactionType) && TruthyOptStr(data.status) then
      HandleSingleReaction(list, data.messageId.value, data.reactionType.value, data.status.value)
    else if TruthyOptStr(data.messageId) && data.reactions.Some? then
      UpdateMessageReactions(list, data.messageId.value, data.reactions.value)
    else list
  }

  /** No reaction event adds, removes or reorders messages. */
  lemma ReactionKeepsIds(list: seq<ChatMessage>, data: ReactionData)
    ensures var r := HandleReaction(list, data);
            |r| == |list| && forall i :: 0 <= i < |r| ==> r[i].id == list[i].id && r[i].createdAt == list[i].createdAt
  {
  }

  /** Ascending by creation time. */
  predicate SortedByCreation(list: seq<ChatMessage>) {
    forall i, j :: 0 <= i < j < |list| ==> list[i].createdAt <= list[j].createdAt
  }

  /** Inserts a message into a sorted list, before the first message that
      is not older. */
  function Insert(m: ChatMessage, list: seq<ChatMessage>): (r: seq<ChatMessage>)
    requires SortedByCreation(list)
    ensures SortedByCreation(r)
    ensures multiset(r) == multiset(list) + multiset{m}
  {
    if list == [] || m.createdAt <= list[0].createdAt then
      SortedCons(m, list);
      [m] + list
    else
      var rest := Insert(m, list[1..]);
      HeadBoundsInsertion(list, m, rest);
      SortedCons(list[0], rest);
      assert list == [list[0]] + list[1..];
      [list[0]] + rest
  }

  /** The head of a sorted list is no later than anything the rest of the
      list holds after a later message is added to it. */
  lemma HeadBoundsInsertion(list: seq<ChatMessage>, m: ChatMessage, rest: seq<ChatMessage>)
    requires SortedByCreation(list) && list != [] && list[0].createdAt < m.createdAt
    requires multiset(rest) == multiset(list[1..]) + multiset{m}
    ensures forall i :: 0 <= i < |rest| ==> list[0].createdAt <= rest[i].createdAt
  {
    forall i | 0 <= i < |rest|
      ensures list[0].createdAt <= rest[i].createdAt
    {
      assert rest[i] in multiset(rest);
      if rest[i] != m {
        assert rest[i] in multiset(list[1..]);
        var k :| 0 <= k < |list[1..]| && list[1..][k] == rest[i];
        assert list[k + 1] == rest[i];
      }
    }
  }

  /** A message no later than every message of a sorted list can head it. */
  lemma SortedCons(x: ChatMessage, list: seq<ChatMessage>)
    requires SortedByCreation(list)
    requires forall i :: 0 <= i < |list| ==> x.createdAt <= list[i].createdAt
    ensures SortedByCreation([x] + list)
  {
    forall i, j | 0 <= i < j < |list| + 1
      ensures ([x] + list)[i].createdAt <= ([x] + list)[j].createdAt
    {
      assert ([x] + list)[j] == list[j - 1];
      if i > 0 {
        assert ([x] + list)[i] == list[i - 1];
      }
    }
  }

  /** Sorts by creation time; messages with equal times keep their order,
      as with the stable `Array.prototype.sort`. */
  function SortByCreation(list: seq<ChatMessage>): (r: seq<ChatMessage>)
    ensures SortedByCreation(r)
    ensures multiset(r) == multiset(list)
  {
    if list == [] then []
    else
      assert list == [list[0]] + list[1..];
      Insert(list[0], SortByCreation(list[1..]))
  }

  /** `handleMessageHistory`: the list becomes the history, normalised and
      sorted ascending by creation time. */
  function HandleMessageHistory(history: seq<RawMessage>): (r: seq<ChatMessage>)
    ensures SortedByCreation(r)
    ensures multiset(r) == multiset(seq(|history|, i requires 0 <= i < |history| => NormalizeMessage(history[i])))
  {
    SortByCreation(seq(|history|, i requires 0 <= i < |history| => NormalizeMessage(history[i])))
  }

  /** Every message of the history is in the new list, normalised, and the
      list holds nothing else. */
  lemma HistoryKeepsEveryMessage(history: seq<RawMessage>)
    ensures var r := HandleMessageHistory(history);
            |r| == |history|
            && (forall i :: 0 <= i < |history| ==> NormalizeMessage(history[i]) in r)
            && (forall j :: 0 <= j < |r| ==> exists i :: 0 <= i < |history| && r[j] == NormalizeMessage(history[i]))
  {
    var normalized := seq(|history|, i requires 0 <= i < |history| => NormalizeMessage(history[i]));
    var r := HandleMessageHistory(history);
    assert |r| == |multiset(r)| == |multiset(normalized)| == |history|;
    forall i | 0 <= i < |history|
      ensures NormalizeMessage(history[i]) in r
    {
      assert normalized[i] in multiset(normalized);
    }
    forall j | 0 <= j < |r|
      ensures exists i :: 0 <= i < |history| && r[j] == NormalizeMessage(history[i])
    {
      assert r[j] in multiset(r);
      assert r[j] in normalized;
    }
  }

  /** The socket's connection status. */
  datatype ConnectionStatus = Disconnected | Connecting | Connected | Failed

  /** The reconnect bookkeeping: attempts so far, status, error. */
  datatype SocketState = SocketState(attempts: nat, status: ConnectionStatus, error: Option<string>)

  /** `2^n`. */
  function Pow2(n: nat): (r: nat)
    ensures r >= 1
  {
    if n == 0 then 1 else 2 * Pow2(n - 1)
  }

  /** `ws.onopen`: connected, the attempt counter reset, no error. */
  function OnOpen(s: SocketState): (r: SocketState)
    ensures r.attempts == 0 && r.status == Connected && r.error.None?
  {
    SocketState(0, Connected, None)
  }

  /** `ws.onclose`: the status becomes disconnected. An unclean close with
      attempts left counts one more attempt and schedules a reconnect after
      `2^attempts * 1000` ms (the second component); once the limit is
      reached the error is set and nothing is scheduled. */
  function OnClose(s: SocketState, wasClean: bool): (r: (SocketState, Option<nat>))
    ensures r.0.status == Disconnected
    ensures r.1.Some? <==> s.attempts < MaxReconnectAttempts && !wasClean
    ensures r.1.Some? ==> r.0.attempts == s.attempts + 1 && r.1.value == Pow2(r.0.attempts) * 1000 && r.0.error == s.error
    ensures r.1.None? ==> r.0.attempts == s.attempts
    ensures s.attempts >= MaxReconnectAttempts ==> r.0.error == Some(ChatUnreachable)
    ensures s.attempts < MaxReconnectAttempts && wasClean ==> r.0.error == s.error
  {
    if s.attempts < MaxReconnectAttempts && !wasClean then
      var n := s.attempts + 1;
      (s.(status := Disconnected, attempts := n), Some(Pow2(n) * 1000))
    else if s.attempts >= MaxReconnectAttempts then
      (s.(status := Disconnected, error := Some(ChatUnreachable)), None)
    else (s.(status := Disconnected), None)
  }

  /** A successful open resets the counter, so the next unclean close
      retries after 2 seconds, whatever came before. */
  lemma FirstRetryAfterOpen(s: SocketState)
    ensures OnClose(OnOpen(s), false).1 == Some(2000)
    ensures OnClose(OnOpen(s), false).0.attempts == 1
  {
  }

  /** `n` unclean closes in a row, with no successful open in between: the
      delays scheduled and the final state. */
  function UncleanCloses(s: SocketState, n: nat): (r: (SocketState, seq<nat>))
    decreases n
  {
    if n == 0 then (s, [])
    else
      var step := OnClose(s, false);
      var later := UncleanCloses(step.0, n - 1);
      (later.0, (if step.1.Some? then [step.1.value] else []) + later.1)
  }

  /** How many of `n` unclean closes still schedule a reconnect after
      `attempts` attempts. */
  function Reconnects(attempts: nat, n: nat): nat
    requires attempts <= MaxReconnectAttempts
  {
    if n <= MaxReconnectAttempts - attempts then n else MaxReconnectAttempts - attempts
  }

  /** From a fresh connection, unclean closes reconnect after 2, 4, 8, 16
      and 32 seconds: at most five reconnects, each delay twice the one
      before. */
  lemma {:induction false} ReconnectSchedule(s: SocketState, n: nat)
    requires s.attempts <= MaxReconnectAttempts
    ensures forall i :: 0 <= i < |UncleanCloses(s, n).1| ==>
              UncleanCloses(s, n).1[i] == Pow2(s.attempts + i + 1) * 1000
    decreases n
  {
    if n > 0 && s.attempts < MaxReconnectAttempts {
      var step := OnClose(s, false);
      var later := UncleanCloses(step.0, n - 1);
      ReconnectSchedule(step.0, n - 1);
      var delays := [step.1.value] + later.1;
      assert UncleanCloses(s, n).1 == delays;
      forall i | 0 <= i < |delays|
        ensures delays[i] == Pow2(s.attempts + i + 1) * 1000
      {
        if i > 0 {
          assert delays[i] == later.1[i - 1];
        }
      }
    } else if n > 0 {
      ErrorStaysAtLimit(OnClose(s, false).0, n - 1);
    }
  }

  /** After the unclean closes, at most five reconnects were scheduled and
      counted as attempts, and the error is set exactly when more closes
      arrived than reconnects were allowed. */
  lemma {:induction false} ReconnectFinalState(s: SocketState, n: nat)
    requires s.attempts <= MaxReconnectAttempts && s.error.None?
    ensures |UncleanCloses(s, n).1| == Reconnects(s.attempts, n)
    ensures UncleanCloses(s, n).0.attempts == s.attempts + Reconnects(s.attempts, n)
    ensures UncleanCloses(s, n).0.error.Some? <==> n > MaxReconnectAttempts - s.attempts
    decreases n
  {
    if n > 0 {
      var step := OnClose(s, false);
      if s.attempts < MaxReconnectAttempts {
        ReconnectFinalState(step.0, n - 1);
      } else {
        ErrorStaysAtLimit(step.0, n - 1);
      }
    }
  }

  /** At the limit every further unclean close schedules nothing and keeps
      the error. */
  lemma {:induction false} ErrorStaysAtLimit(s: SocketState, n: nat)
    requires s.attempts == MaxReconnectAttempts && s.error == Some(ChatUnreachable)
    ensures UncleanCloses(s, n).1 == [] && UncleanCloses(s, n).0.attempts == MaxReconnectAttempts
    ensures UncleanCloses(s, n).0.error == Some(ChatUnreachable)
    decreases n
  {
    if n > 0 {
      ErrorStaysAtLimit(OnClose(s, false).0, n - 1);
    }
  }
}
