/**
 * The persisted schema (tables `chat_history`, `document_contexts`,
 * `user_sessions`) as record datatypes, the table queries the managers issue
 * (filter by session id, first match), and the database URL rewrite.
 */
module Models {
  import opened Common
  import opened Strings

  /** A row of `chat_history`. `messageType` is free text in the schema. */
  datatype ChatRow = ChatRow(sessionId: string, messageType: string, content: string, timestamp: int)

  /** A row of `document_contexts`. */
  datatype DocumentRow = DocumentRow(
    sessionId: string,
    filename: string,
    content: string,
    summary: string,
    fileType: string,
    fileSize: int,
    uploadedAt: int)

  /** A row of `user_sessions`; `userName` is nullable. */
  datatype SessionRow = SessionRow(
    sessionId: string,
    userName: Option<string>,
    firstInteraction: int,
    lastInteraction: int,
    totalMessages: int)

  function ChatSession(r: ChatRow): string { r.sessionId }
  function DocumentSession(r: DocumentRow): string { r.sessionId }
  function UserSession(r: SessionRow): string { r.sessionId }

  /** `query(T).filter(T.session_id == id)`, in table order. */
  function Where<T(!new)>(rows: seq<T>, key: T -> string, id: string): (r: seq<T>)
    ensures |r| <= |rows|
    ensures forall i :: 0 <= i < |r| ==> key(r[i]) == id
  {
    if rows == [] then []
    else
      var last := rows[|rows| - 1];
      Where(rows[..|rows| - 1], key, id) + (if key(last) == id then [last] else [])
  }

  /** The table after `query(T).filter(T.session_id == id).delete()`. */
  function WhereNot<T(!new)>(rows: seq<T>, key: T -> string, id: string): (r: seq<T>)
    ensures |r| <= |rows|
    ensures forall i :: 0 <= i < |r| ==> key(r[i]) != id
  {
    if rows == [] then []
    else
      var last := rows[|rows| - 1];
      WhereNot(rows[..|rows| - 1], key, id) + (if key(last) != id then [last] else [])
  }

  /** Position of `query(T).filter(T.session_id == id).first()`, if any. */
  function FirstIndexWhere<T>(rows: seq<T>, key: T -> string, id: string): (r: Option<nat>)
    ensures r.None? <==> forall i :: 0 <= i < |rows| ==> key(rows[i]) != id
    ensures r.Some? ==> r.value < |rows| && key(rows[r.value]) == id
    ensures r.Some? ==> forall i :: 0 <= i < r.value ==> key(rows[i]) != id
  {
    if rows == [] then None
    else if key(rows[0]) == id then Some(0)
    else match FirstIndexWhere(rows[1..], key, id)
      case None => None
      case Some(j) => Some(j + 1)
  }

  /** The row `.first()` returns. */
  function FirstWhere<T(!new)>(rows: seq<T>, key: T -> string, id: string): (r: Option<T>)
    ensures r.Some? <==> exists x :: x in rows && key(x) == id
    ensures r.Some? ==> r.value in rows && key(r.value) == id
  {
    match FirstIndexWhere(rows, key, id)
    case None => None
    case Some(i) => Some(rows[i])
  }

  /** The rows `Where` keeps are exactly the table's rows of that session. */
  lemma {:induction false} WhereMembers<T(!new)>(rows: seq<T>, key: T -> string, id: string, x: T)
    ensures x in Where(rows, key, id) <==> x in rows && key(x) == id
  {
    if rows != [] {
      var init := rows[..|rows| - 1];
      var last := rows[|rows| - 1];
      WhereMembers(init, key, id, x);
      assert Where(rows, key, id) == Where(init, key, id) + (if key(last) == id then [last] else []);
      assert rows == init + [last];
      assert x in rows <==> x in init || x == rows[|rows| - 1];
    }
  }

  /** Appending a row extends the session's rows exactly when the row is the session's. */
  lemma WhereSnoc<T(!new)>(rows: seq<T>, x: T, key: T -> string, id: string)
    ensures Where(rows + [x], key, id) == Where(rows, key, id) + (if key(x) == id then [x] else [])
    ensures WhereNot(rows + [x], key, id) == WhereNot(rows, key, id) + (if key(x) != id then [x] else [])
  {
  }

  /**
   * Deleting one session's rows leaves nothing for it and leaves every other
   * session's rows as they were, in order.
   */
  lemma {:induction false} WhereAfterDelete<T(!new)>(rows: seq<T>, key: T -> string, id: string, other: string)
    ensures Where(WhereNot(rows, key, id), key, other) == if other == id then [] else Where(rows, key, other)
  {
    if rows != [] {
      var init, last := rows[..|rows| - 1], rows[|rows| - 1];
      assert rows == init + [last];
      WhereAfterDelete(init, key, id, other);
      WhereSnoc(init, last, key, id);
      WhereSnoc(init, last, key, other);
      if key(last) == id {
        assert WhereNot(rows, key, id) == WhereNot(init, key, id);
      } else {
        assert WhereNot(rows, key, id) == WhereNot(init, key, id) + [last];
        WhereSnoc(WhereNot(init, key, id), last, key, other);
      }
    }
  }

  /** The `unique=True` constraint on `user_sessions.session_id`. */
  ghost predicate UniqueSessionIds(rows: seq<SessionRow>) {
    forall i, j :: 0 <= i < j < |rows| ==> rows[i].sessionId != rows[j].sessionId
  }

  /** With unique ids, `.first()` finds the one and only row of a session. */
  lemma UniqueRowIsFirst(rows: seq<SessionRow>, i: nat)
    requires UniqueSessionIds(rows) && i < |rows|
    ensures FirstIndexWhere(rows, UserSession, rows[i].sessionId) == Some(i)
  {
  }

  /** A fresh `user_sessions` row: `total_messages` takes its column default 0. */
  function NewSessionRow(sessionId: string, userName: Option<string>, first: int, last: int): (r: SessionRow)
    ensures r.sessionId == sessionId && r.userName == userName
    ensures r.firstInteraction == first && r.lastInteraction == last && r.totalMessages == 0
  {
    SessionRow(sessionId, userName, first, last, 0)
  }

  /** Used when `DATABASE_URL` is not set. */
  const DefaultDatabaseUrl: string := "sqlite:///wizzy_bot.db"

  /** The scheme some hosts put in `DATABASE_URL`, which SQLAlchemy refuses. */
  const HerokuScheme: string := "postgres://"
  const PostgresScheme: string := "postgresql://"

  /** Python's `s.replace(pattern, replacement, 1)`: the first occurrence only. */
  function ReplaceFirst(s: string, pattern: string, replacement: string): string
    requires pattern != []
    decreases |s|
  {
    if |s| < |pattern| then s
    else if s[..|pattern|] == pattern then replacement + s[|pattern|..]
    else [s[0]] + ReplaceFirst(s[1..], pattern, replacement)
  }

  /** ReplaceFirst rewrites exactly the first occurrence and keeps the rest. */
  lemma {:induction false} ReplaceFirstAtFirstOccurrence(s: string, pattern: string, replacement: string, i: nat)
    requires pattern != []
    requires OccursAt(s, pattern, i)
    requires forall j :: 0 <= j < i ==> !OccursAt(s, pattern, j)
    ensures ReplaceFirst(s, pattern, replacement) == s[..i] + replacement + s[i + |pattern|..]
  {
    if i > 0 {
      var t := s[1..];
      FirstOccurrenceShift(s, pattern, replacement, i);
      ReplaceFirstAtFirstOccurrence(t, pattern, replacement, i - 1);
      var before, after := t[..i - 1], t[i - 1 + |pattern|..];
      assert s[..i] == [s[0]] + before;
      assert s[i + |pattern|..] == after;
      assert [s[0]] + (before + replacement + after) == ([s[0]] + before) + replacement + after;
    }
  }

  /** Before the first occurrence, ReplaceFirst keeps the head and continues on the tail. */
  lemma FirstOccurrenceShift(s: string, pattern: string, replacement: string, i: nat)
    requires pattern != [] && 0 < i
    requires OccursAt(s, pattern, i)
    requires forall j :: 0 <= j < i ==> !OccursAt(s, pattern, j)
    ensures ReplaceFirst(s, pattern, replacement) == [s[0]] + ReplaceFirst(s[1..], pattern, replacement)
    ensures OccursAt(s[1..], pattern, i - 1)
    ensures forall j :: 0 <= j < i - 1 ==> !OccursAt(s[1..], pattern, j)
  {
    var t := s[1..];
    assert !OccursAt(s, pattern, 0);
    assert s[0..|pattern|] == s[..|pattern|];
    assert t[i - 1..i - 1 + |pattern|] == s[i..i + |pattern|];
    forall j | 0 <= j < i - 1 ensures !OccursAt(t, pattern, j) {
      assert !OccursAt(s, pattern, j + 1);
      assert t[j..j + |pattern|] == s[j + 1..j + 1 + |pattern|];
    }
  }

  /** Without an occurrence, ReplaceFirst changes nothing. */
  lemma {:induction false} ReplaceFirstWithoutOccurrence(s: string, pattern: string, replacement: string)
    requires pattern != []
    requires forall j :: !OccursAt(s, pattern, j)
    ensures ReplaceFirst(s, pattern, replacement) == s
  {
    if |s| >= |pattern| {
      assert !OccursAt(s, pattern, 0);
      var t := s[1..];
      forall j | true ensures !OccursAt(t, pattern, j) {
        if 0 <= j && j + |pattern| <= |t| {
          assert !OccursAt(s, pattern, j + 1);
          assert t[j..j + |pattern|] == s[j + 1..j + 1 + |pattern|];
        }
      }
      ReplaceFirstWithoutOccurrence(t, pattern, replacement);
      assert s == [s[0]] + t;
    }
  }

  /** The `postgres://` to `postgresql://` rewrite applied to `DATABASE_URL`. */
  function NormalizeDatabaseUrl(url: string): (r: string)
    ensures StartsWith(url, HerokuScheme) ==> r == PostgresScheme + url[|HerokuScheme|..]
    ensures !StartsWith(url, HerokuScheme) ==> r == url
  {
    if StartsWith(url, HerokuScheme) then
      ReplaceFirstAtFirstOccurrence(url, HerokuScheme, PostgresScheme, 0);
      ReplaceFirst(url, HerokuScheme, PostgresScheme)
    else url
  }

  /** Rewriting twice is rewriting once: `postgresql://` is not a `postgres://` prefix. */
  lemma NormalizeDatabaseUrlIdempotent(url: string)
    ensures NormalizeDatabaseUrl(NormalizeDatabaseUrl(url)) == NormalizeDatabaseUrl(url)
  {
    var r := NormalizeDatabaseUrl(url);
    if StartsWith(url, HerokuScheme) {
      assert r[8] == 'q' && HerokuScheme[8] == ':';
    }
  }

  /** The URL `get_database_manager` connects to, given the environment's `DATABASE_URL`. */
  function DatabaseUrl(env: Option<string>): (r: string)
    ensures env.None? ==> r == DefaultDatabaseUrl
    ensures env.Some? && !StartsWith(env.value, HerokuScheme) ==> r == env.value
    ensures env.Some? && StartsWith(env.value, HerokuScheme) ==> r == PostgresScheme + env.value[|HerokuScheme|..]
    ensures env.Some? ==> r == NormalizeDatabaseUrl(env.value)
  {
    assert DefaultDatabaseUrl[0] != HerokuScheme[0];
    NormalizeDatabaseUrl(env.GetOr(DefaultDatabaseUrl))
  }
}
