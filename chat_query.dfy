/**
 * How chat-history rows are read back: the query filters `chat_history` by
 * session and orders it by timestamp, and each row is turned back into a
 * message according to its `message_type`.
 */
module ChatQuery {
  import opened Common
  import opened Models
  import opened Messages

  /** The `message_type` written for a message (`human`, `ai`, otherwise `system`). */
  function MessageType(m: Message): string
  {
    match m
    case HumanMessage(_) => "human"
    case AIMessage(_) => "ai"
    case SystemMessage(_) => "system"
  }

  /** The row `add_message` writes for a message at a given clock reading. */
  function RowFor(sessionId: string, m: Message, now: int): (r: ChatRow)
    ensures r.sessionId == sessionId && r.content == m.content && r.timestamp == now
  {
    ChatRow(sessionId, MessageType(m), m.content, now)
  }

  /** What a row loads as: one message for `human` and `ai`, nothing for any other type. */
  function RowMessages(r: ChatRow): (ms: seq<Message>)
    ensures |ms| <= 1
    ensures ms != [] <==> r.messageType == "human" || r.messageType == "ai"
    ensures ms != [] ==> ms[0].content == r.content && MessageType(ms[0]) == r.messageType
  {
    if r.messageType == "human" then [HumanMessage(r.content)]
    else if r.messageType == "ai" then [AIMessage(r.content)]
    else []
  }

  /** The messages a list of rows loads as, in row order. */
  function ToMessages(rows: seq<ChatRow>): (ms: seq<Message>)
    ensures |ms| <= |rows|
    ensures forall i :: 0 <= i < |ms| ==> !ms[i].SystemMessage?
  {
    if rows == [] then [] else ToMessages(rows[..|rows| - 1]) + RowMessages(rows[|rows| - 1])
  }

  /** Loading one more row appends that row's message, if it has one. */
  lemma ToMessagesStep(rows: seq<ChatRow>, i: nat)
    requires i < |rows|
    ensures ToMessages(rows[..i + 1]) == ToMessages(rows[..i]) + RowMessages(rows[i])
  {
    var prefix := rows[..i + 1];
    assert prefix[..|prefix| - 1] == rows[..i];
  }

  /** Writing a message and loading it back: human and AI messages come back unchanged, system messages not at all. */
  lemma RowRoundTrip(sessionId: string, m: Message, now: int)
    ensures RowMessages(RowFor(sessionId, m, now)) == if m.SystemMessage? then [] else [m]
  {
  }

  /** Loading two runs of rows one after the other loads each run in turn. */
  lemma {:induction false} ToMessagesConcat(a: seq<ChatRow>, b: seq<ChatRow>)
    ensures ToMessages(a + b) == ToMessages(a) + ToMessages(b)
  {
    if b != [] {
      var b', last := b[..|b| - 1], b[|b| - 1];
      ToMessagesConcat(a, b');
      SplitLast(a, b);
      ToMessagesSnoc(a + b', last);
      ToMessagesSnoc(b', last);
      var x, y, z := ToMessages(a), ToMessages(b'), RowMessages(last);
      assert x + y + z == x + (y + z);
    } else {
      assert a + b == a;
    }
  }

  ghost predicate SortedByTimestamp(rows: seq<ChatRow>) {
    forall i, j :: 0 <= i < j < |rows| ==> rows[i].timestamp <= rows[j].timestamp
  }

  /** Places `r` after every row whose timestamp is not later than its own. */
  function InsertByTimestamp(sorted: seq<ChatRow>, r: ChatRow): (res: seq<ChatRow>)
    ensures |res| == |sorted| + 1
    ensures multiset(res) == multiset(sorted) + multiset{r}
  {
    if sorted == [] || sorted[|sorted| - 1].timestamp <= r.timestamp then sorted + [r]
    else
      var init := sorted[..|sorted| - 1];
      assert sorted == init + [sorted[|sorted| - 1]];
      InsertByTimestamp(init, r) + [sorted[|sorted| - 1]]
  }

  /** `ORDER BY timestamp`; rows with equal timestamps keep their table order. */
  function SortByTimestamp(rows: seq<ChatRow>): (res: seq<ChatRow>)
    ensures |res| == |rows|
    ensures multiset(res) == multiset(rows)
  {
    if rows == [] then []
    else
      var init := rows[..|rows| - 1];
      assert rows == init + [rows[|rows| - 1]];
      InsertByTimestamp(SortByTimestamp(init), rows[|rows| - 1])
  }

  /** Inserting adds `r` and nothing else. */
  lemma InsertMembers(sorted: seq<ChatRow>, r: ChatRow)
    ensures forall x :: x in InsertByTimestamp(sorted, r) ==> x in sorted || x == r
  {
    var res := InsertByTimestamp(sorted, r);
    forall x | x in res ensures x in sorted || x == r {
      assert x in multiset(res);
    }
  }

  lemma {:induction false} InsertKeepsSorted(sorted: seq<ChatRow>, r: ChatRow)
    requires SortedByTimestamp(sorted)
    ensures SortedByTimestamp(InsertByTimestamp(sorted, r))
  {
    if sorted != [] && sorted[|sorted| - 1].timestamp > r.timestamp {
      var init, last := sorted[..|sorted| - 1], sorted[|sorted| - 1];
      InsertKeepsSorted(init, r);
      InsertMembers(init, r);
      var ins := InsertByTimestamp(init, r);
      forall k | 0 <= k < |ins| ensures ins[k].timestamp <= last.timestamp {
        var x := ins[k];
        assert x in ins;
        if x != r {
          var j :| 0 <= j < |init| && init[j] == x;
          assert sorted[j] == x;
        }
      }
      var res := ins + [last];
      assert InsertByTimestamp(sorted, r) == res;
      forall i, j | 0 <= i < j < |res| ensures res[i].timestamp <= res[j].timestamp {
        assert res[i] == ins[i];
        if j < |ins| {
          assert res[j] == ins[j];
        }
      }
    }
  }

  lemma {:induction false} SortIsSorted(rows: seq<ChatRow>)
    ensures SortedByTimestamp(SortByTimestamp(rows))
  {
    if rows != [] {
      SortIsSorted(rows[..|rows| - 1]);
      InsertKeepsSorted(SortByTimestamp(rows[..|rows| - 1]), rows[|rows| - 1]);
    }
  }

  /** The rows `_load_messages` iterates over. */
  function QueryChatHistory(table: seq<ChatRow>, sessionId: string): (r: seq<ChatRow>)
    ensures multiset(r) == multiset(Where(table, ChatSession, sessionId))
  {
    SortByTimestamp(Where(table, ChatSession, sessionId))
  }

  /**
   * The query returns exactly the session's rows (each as often as it is
   * stored), in ascending timestamp order.
   */
  lemma QueryChatHistorySpec(table: seq<ChatRow>, sessionId: string)
    ensures SortedByTimestamp(QueryChatHistory(table, sessionId))
    ensures forall r :: r in QueryChatHistory(table, sessionId) ==> r.sessionId == sessionId
    ensures forall r :: r in QueryChatHistory(table, sessionId) <==> r in table && r.sessionId == sessionId
    ensures multiset(QueryChatHistory(table, sessionId)) == multiset(Where(table, ChatSession, sessionId))
  {
    SortIsSorted(Where(table, ChatSession, sessionId));
    var q := QueryChatHistory(table, sessionId);
    forall r ensures r in q <==> r in table && r.sessionId == sessionId {
      assert r in q <==> r in multiset(q);
      WhereMembers(table, ChatSession, sessionId, r);
    }
  }

  /** Rows of other sessions never show up in a session's history. */
  lemma OtherSessionRowInvisible(table: seq<ChatRow>, sessionId: string, r: ChatRow)
    requires r.sessionId != sessionId
    ensures QueryChatHistory(table + [r], sessionId) == QueryChatHistory(table, sessionId)
  {
    WhereSnoc(table, r, ChatSession, sessionId);
    var w := Where(table, ChatSession, sessionId);
    assert w + [] == w;
  }

  /**
   * A row stamped no earlier than every row of its session is read back last:
   * the history grows by exactly that row at its end.
   */
  lemma LatestRowReadLast(table: seq<ChatRow>, r: ChatRow)
    requires forall x :: x in table && x.sessionId == r.sessionId ==> x.timestamp <= r.timestamp
    ensures QueryChatHistory(table + [r], r.sessionId) == QueryChatHistory(table, r.sessionId) + [r]
  {
    var sid := r.sessionId;
    var w := Where(table, ChatSession, sid);
    WhereSnoc(table, r, ChatSession, sid);
    assert Where(table + [r], ChatSession, sid) == w + [r];
    assert (w + [r])[..|w|] == w;
    var sorted := SortByTimestamp(w);
    if sorted != [] {
      var last := sorted[|sorted| - 1];
      assert last in multiset(sorted);
      WhereMembers(table, ChatSession, sid, last);
    }
  }

  /** Inserting a row that loads as nothing does not change what a sorted list loads as. */
  lemma {:induction false} InsertInvisibleRow(sorted: seq<ChatRow>, r: ChatRow)
    requires RowMessages(r) == []
    ensures ToMessages(InsertByTimestamp(sorted, r)) == ToMessages(sorted)
  {
    if sorted == [] || sorted[|sorted| - 1].timestamp <= r.timestamp {
      assert (sorted + [r])[..|sorted|] == sorted;
    } else {
      var init, last := sorted[..|sorted| - 1], sorted[|sorted| - 1];
      InsertInvisibleRow(init, r);
      var ins := InsertByTimestamp(init, r);
      assert (ins + [last])[..|ins|] == ins;
      assert ToMessages(ins + [last]) == ToMessages(ins) + RowMessages(last);
    }
  }

  /**
   * After a message is written, a fresh load of the session yields the old load
   * plus that message (human and AI messages written at the latest clock reading),
   * or the old load unchanged (system messages, at any clock reading).
   */
  lemma ReloadAfterWrite(table: seq<ChatRow>, sessionId: string, m: Message, now: int)
    requires !m.SystemMessage? ==>
      forall x :: x in table && x.sessionId == sessionId ==> x.timestamp <= now
    ensures ToMessages(QueryChatHistory(table + [RowFor(sessionId, m, now)], sessionId))
      == ToMessages(QueryChatHistory(table, sessionId)) + (if m.SystemMessage? then [] else [m])
  {
    var r := RowFor(sessionId, m, now);
    var before := QueryChatHistory(table, sessionId);
    RowRoundTrip(sessionId, m, now);
    if m.SystemMessage? {
      QueryAfterAppend(table, r);
      InsertInvisibleRow(before, r);
      assert ToMessages(before) + [] == ToMessages(before);
    } else {
      LatestRowReadLast(table, r);
      ToMessagesSnoc(before, r);
    }
  }

  /** Appending a row to the table inserts it into its session's history by timestamp. */
  lemma QueryAfterAppend(table: seq<ChatRow>, r: ChatRow)
    ensures QueryChatHistory(table + [r], r.sessionId) == InsertByTimestamp(QueryChatHistory(table, r.sessionId), r)
  {
    var w := Where(table, ChatSession, r.sessionId);
    WhereSnoc(table, r, ChatSession, r.sessionId);
    assert (w + [r])[..|w|] == w;
  }

  /** Loading one more row at the end appends that row's message, if it has one. */
  lemma ToMessagesSnoc(rows: seq<ChatRow>, r: ChatRow)
    ensures ToMessages(rows + [r]) == ToMessages(rows) + RowMessages(r)
  {
  }
}
