/**
 * Database-backed conversation memory: a per-session chat history with a
 * lazily loaded cache, one stored document per session, and a registry of
 * user sessions. The database is a `Database` object holding the three tables;
 * a failing database call is a `fails` flag, and a rolled-back call leaves
 * every table as it was.
 */
module PersistentMemory {
  import opened Common
  import opened Models
  import opened Messages
  import opened ChatQuery

  /** The connected database: one sequence of rows per table. */
  class Database {
    var chatHistory: seq<ChatRow>
    var documentContexts: seq<DocumentRow>
    var userSessions: seq<SessionRow>

    /** The schema's uniqueness constraint on `user_sessions.session_id`. */
    ghost predicate Valid()
      reads this
    {
      UniqueSessionIds(userSessions)
    }

    constructor ()
      ensures Valid()
      ensures chatHistory == [] && documentContexts == [] && userSessions == []
    {
      chatHistory, documentContexts, userSessions := [], [], [];
    }
  }

  // ---------------------------------------------------------------------------
  // The user-session table updates

  /** Python truthiness of a nullable name: present and not empty. */
  predicate HasName(name: Option<string>) {
    name.Some? && name.value != ""
  }

  /** The session's row, if the table has one (what `.first()` returns). */
  function SessionOf(rows: seq<SessionRow>, sessionId: string): (r: Option<SessionRow>)
    ensures r.Some? ==> r.value in rows && r.value.sessionId == sessionId
    ensures r.None? ==> forall i :: 0 <= i < |rows| ==> rows[i].sessionId != sessionId
  {
    match FirstIndexWhere(rows, UserSession, sessionId)
    case None => None
    case Some(i) => Some(rows[i])
  }

  /** `_update_user_session`: touch and count the session's row; a missing row stays missing. */
  function BumpSession(rows: seq<SessionRow>, sessionId: string, now: int): (r: seq<SessionRow>)
    ensures |r| == |rows|
  {
    match FirstIndexWhere(rows, UserSession, sessionId)
    case None => rows
    case Some(i) => rows[i := rows[i].(lastInteraction := now, totalMessages := rows[i].totalMessages + 1)]
  }

  /**
   * `create_or_update_session`: an existing row is touched and takes the given
   * name only if it has none; otherwise a new row is added, stamped with the
   * two clock readings the source takes.
   */
  function CreateOrUpdateRows(rows: seq<SessionRow>, sessionId: string, userName: Option<string>, now: int, later: int)
    : (r: seq<SessionRow>)
    ensures |rows| <= |r| <= |rows| + 1
  {
    match FirstIndexWhere(rows, UserSession, sessionId)
    case None => rows + [NewSessionRow(sessionId, userName, now, later)]
    case Some(i) =>
      var name := if HasName(userName) && !HasName(rows[i].userName) then userName else rows[i].userName;
      rows[i := rows[i].(lastInteraction := now, userName := name)]
  }

  lemma {:induction false} SameKeysSameFirstIndex<T>(a: seq<T>, b: seq<T>, key: T -> string, id: string)
    requires |a| == |b|
    requires forall j :: 0 <= j < |a| ==> key(a[j]) == key(b[j])
    ensures FirstIndexWhere(a, key, id) == FirstIndexWhere(b, key, id)
  {
    if a != [] && key(a[0]) != id {
      SameKeysSameFirstIndex(a[1..], b[1..], key, id);
    }
  }

  lemma FirstIndexSnoc<T>(rows: seq<T>, x: T, key: T -> string, id: string)
    requires key(x) != id
    ensures FirstIndexWhere(rows + [x], key, id) == FirstIndexWhere(rows, key, id)
  {
    var b := FirstIndexWhere(rows, key, id);
    if b.Some? {
      assert (rows + [x])[b.value] == rows[b.value];
    }
  }

  lemma FirstIndexAppendMatch<T>(rows: seq<T>, x: T, key: T -> string, id: string)
    requires forall j :: 0 <= j < |rows| ==> key(rows[j]) != id
    requires key(x) == id
    ensures FirstIndexWhere(rows + [x], key, id) == Some(|rows|)
  {
    var stored := rows + [x];
    assert stored[|rows|] == x;
    forall j | 0 <= j < |rows| ensures key(stored[j]) != id {
      assert stored[j] == rows[j];
    }
  }

  /** Replacing one row by a row of the same session keeps every session's position. */
  lemma UpdateInPlace(rows: seq<SessionRow>, i: nat, row: SessionRow, id: string)
    requires i < |rows| && row.sessionId == rows[i].sessionId
    ensures FirstIndexWhere(rows[i := row], UserSession, id) == FirstIndexWhere(rows, UserSession, id)
    ensures UniqueSessionIds(rows) ==> UniqueSessionIds(rows[i := row])
  {
    var rows' := rows[i := row];
    forall j | 0 <= j < |rows| ensures UserSession(rows[j]) == UserSession(rows'[j]) {
    }
    SameKeysSameFirstIndex(rows, rows', UserSession, id);
  }

  /**
   * After a message is added, the session's existing row has been touched and
   * counts exactly one more message, and a session without a row still has none.
   */
  lemma BumpSessionCounts(rows: seq<SessionRow>, sessionId: string, now: int)
    ensures SessionOf(rows, sessionId).None? ==> SessionOf(BumpSession(rows, sessionId, now), sessionId).None?
    ensures SessionOf(rows, sessionId).Some? ==>
      var s := SessionOf(rows, sessionId).value;
      SessionOf(BumpSession(rows, sessionId, now), sessionId)
        == Some(s.(lastInteraction := now, totalMessages := s.totalMessages + 1))
  {
    match FirstIndexWhere(rows, UserSession, sessionId)
    case None =>
    case Some(i) =>
      var row := rows[i].(lastInteraction := now, totalMessages := rows[i].totalMessages + 1);
      var bumped := rows[i := row];
      assert BumpSession(rows, sessionId, now) == bumped;
      UpdateInPlace(rows, i, row, sessionId);
      assert SessionOf(bumped, sessionId) == Some(bumped[i]);
  }

  /** Counting a message touches no other session's row. */
  lemma BumpSessionFrame(rows: seq<SessionRow>, sessionId: string, now: int, other: string)
    requires other != sessionId
    ensures SessionOf(BumpSession(rows, sessionId, now), other) == SessionOf(rows, other)
  {
    match FirstIndexWhere(rows, UserSession, sessionId)
    case None =>
    case Some(i) =>
      UpdateInPlace(rows, i, BumpSession(rows, sessionId, now)[i], other);
  }

  /** Counting a message keeps the session ids unique. */
  lemma BumpSessionKeepsUnique(rows: seq<SessionRow>, sessionId: string, now: int)
    requires UniqueSessionIds(rows)
    ensures UniqueSessionIds(BumpSession(rows, sessionId, now))
  {
  }

  /**
   * `create_or_update_session` leaves a row for the session: a new row starts
   * at zero messages with both interaction times from the clock; an existing
   * row keeps its count and first interaction, and its name changes only when
   * it had none and a name is given (the first name wins).
   */
  lemma CreateOrUpdateRowsSpec(rows: seq<SessionRow>, sessionId: string, userName: Option<string>, now: int, later: int)
    ensures SessionOf(rows, sessionId).None? ==>
      SessionOf(CreateOrUpdateRows(rows, sessionId, userName, now, later), sessionId)
        == Some(SessionRow(sessionId, userName, now, later, 0))
    ensures SessionOf(rows, sessionId).Some? ==>
      var s := SessionOf(rows, sessionId).value;
      SessionOf(CreateOrUpdateRows(rows, sessionId, userName, now, later), sessionId)
        == Some(s.(lastInteraction := now, userName := if HasName(s.userName) then s.userName
                                                      else if HasName(userName) then userName
                                                      else s.userName))
  {
    var rows' := CreateOrUpdateRows(rows, sessionId, userName, now, later);
    match FirstIndexWhere(rows, UserSession, sessionId)
    case None =>
      assert rows'[|rows|] == NewSessionRow(sessionId, userName, now, later);
      assert UserSession(rows'[|rows|]) == sessionId;
      assert FirstIndexWhere(rows', UserSession, sessionId) == Some(|rows|);
    case Some(i) =>
      UpdateInPlace(rows, i, rows'[i], sessionId);
  }

  /** `create_or_update_session` touches no other session's row. */
  lemma CreateOrUpdateRowsFrame(rows: seq<SessionRow>, sessionId: string, userName: Option<string>, now: int, later: int,
                                other: string)
    requires other != sessionId
    ensures SessionOf(CreateOrUpdateRows(rows, sessionId, userName, now, later), other) == SessionOf(rows, other)
  {
    var rows' := CreateOrUpdateRows(rows, sessionId, userName, now, later);
    match FirstIndexWhere(rows, UserSession, sessionId)
    case None =>
      var added := NewSessionRow(sessionId, userName, now, later);
      FirstIndexSnoc(rows, added, UserSession, other);
    case Some(i) =>
      UpdateInPlace(rows, i, rows'[i], other);
  }

  /** `create_or_update_session` keeps the session ids unique: a row is added only for a new id. */
  lemma CreateOrUpdateRowsKeepsUnique(rows: seq<SessionRow>, sessionId: string, userName: Option<string>, now: int, later: int)
    requires UniqueSessionIds(rows)
    ensures UniqueSessionIds(CreateOrUpdateRows(rows, sessionId, userName, now, later))
  {
  }

  // ---------------------------------------------------------------------------
  // The document table updates

  /** `store_document`: delete the session's documents, then insert the new one. */
  function ReplaceDocument(rows: seq<DocumentRow>, doc: DocumentRow): (r: seq<DocumentRow>)
    ensures |r| >= 1 && r[|r| - 1] == doc
    ensures forall i :: 0 <= i < |r| - 1 ==> r[i].sessionId != doc.sessionId
  {
    WhereNot(rows, DocumentSession, doc.sessionId) + [doc]
  }

  /**
   * After a store, the session has exactly one document, the new one, and it is
   * what `get_document` returns; storing twice therefore leaves only the second.
   */
  lemma ReplaceDocumentLeavesOne(rows: seq<DocumentRow>, doc: DocumentRow)
    ensures Where(ReplaceDocument(rows, doc), DocumentSession, doc.sessionId) == [doc]
    ensures FirstWhere(ReplaceDocument(rows, doc), DocumentSession, doc.sessionId) == Some(doc)
  {
    var kept := WhereNot(rows, DocumentSession, doc.sessionId);
    WhereSnoc(kept, doc, DocumentSession, doc.sessionId);
    WhereAfterDelete(rows, DocumentSession, doc.sessionId, doc.sessionId);
    assert [] + [doc] == [doc];
    FirstIndexAppendMatch(kept, doc, DocumentSession, doc.sessionId);
    assert (kept + [doc])[|kept|] == doc;
  }

  /** A store leaves every other session's documents as they were, in order. */
  lemma ReplaceDocumentKeepsOthers(rows: seq<DocumentRow>, doc: DocumentRow, other: string)
    requires other != doc.sessionId
    ensures Where(ReplaceDocument(rows, doc), DocumentSession, other) == Where(rows, DocumentSession, other)
  {
    var kept := WhereNot(rows, DocumentSession, doc.sessionId);
    WhereSnoc(kept, doc, DocumentSession, other);
    WhereAfterDelete(rows, DocumentSession, doc.sessionId, other);
    var w := Where(rows, DocumentSession, other);
    assert w + [] == w;
  }

  /** After `delete_document` the session has no document left and `get_document` finds none. */
  lemma DeleteDocumentLeavesNone(rows: seq<DocumentRow>, sessionId: string)
    ensures Where(WhereNot(rows, DocumentSession, sessionId), DocumentSession, sessionId) == []
    ensures FirstWhere(WhereNot(rows, DocumentSession, sessionId), DocumentSession, sessionId).None?
  {
    WhereAfterDelete(rows, DocumentSession, sessionId, sessionId);
  }

  /** After `clear`, the session's history loads as empty and every other session's is unchanged. */
  lemma ClearedHistory(table: seq<ChatRow>, sessionId: string, other: string)
    ensures QueryChatHistory(WhereNot(table, ChatSession, sessionId), sessionId) == []
    ensures other != sessionId ==>
      QueryChatHistory(WhereNot(table, ChatSession, sessionId), other) == QueryChatHistory(table, other)
  {
    WhereAfterDelete(table, ChatSession, sessionId, sessionId);
    WhereAfterDelete(table, ChatSession, sessionId, other);
  }

  // ---------------------------------------------------------------------------
  // The managers

  /** One pass of `_load_messages`' loop: a human or AI row adds its message, any other row is skipped. */
  method AppendRecord(loaded: seq<Message>, record: ChatRow) returns (extended: seq<Message>)
    ensures extended == loaded + RowMessages(record)
  {
    if record.messageType == "human" {
      extended := loaded + [HumanMessage(record.content)];
    } else if record.messageType == "ai" {
      extended := loaded + [AIMessage(record.content)];
    } else {
      extended := loaded;
      assert loaded + RowMessages(record) == loaded;
    }
  }

  /** `DatabaseChatMessageHistory`: one session's history, cached after the first read. */
  class DatabaseChatMessageHistory {
    const sessionId: string
    const db: Database
    /** `_messages`: `None` until the first read loads it. */
    var cache: Option<seq<Message>>

    constructor (sessionId: string, db: Database)
      ensures this.sessionId == sessionId && this.db == db && cache == None
    {
      this.sessionId := sessionId;
      this.db := db;
      cache := None;
    }

    /** The cache, when loaded, says what a fresh load from the store would. */
    ghost predicate CacheMatchesStore()
      reads this, db
    {
      cache.Some? ==> cache.value == ToMessages(QueryChatHistory(db.chatHistory, sessionId))
    }

    /** The `messages` property: loads once, then always answers from the cache. */
    method Messages(loadFails: bool) returns (messages: seq<Message>)
      modifies this
      ensures old(cache).Some? ==> messages == old(cache).value
      ensures old(cache).None? ==>
        messages == if loadFails then [] else ToMessages(QueryChatHistory(db.chatHistory, sessionId))
      ensures cache == Some(messages)
    {
      if cache.None? {
        LoadMessages(loadFails);
      }
      messages := cache.value;
    }

    /** `_load_messages`: a failed query leaves an empty (but loaded) cache. */
    method LoadMessages(loadFails: bool)
      modifies this`cache
      ensures cache == Some(if loadFails then [] else ToMessages(QueryChatHistory(db.chatHistory, sessionId)))
      ensures CacheMatchesStore() || loadFails
    {
      if loadFails {
        cache := Some([]);
        return;
      }
      var records := QueryChatHistory(db.chatHistory, sessionId);
      cache := Some([]);
      var i := 0;
      while i < |records|
        invariant 0 <= i <= |records|
        invariant cache == Some(ToMessages(records[..i]))
      {
        ToMessagesStep(records, i);
        var extended := AppendRecord(cache.value, records[i]);
        cache := Some(extended);
        i := i + 1;
      }
      assert records[..|records|] == records;
    }

    /**
     * `add_message`: writes one row for this session, appends to the cache only
     * if it was loaded, then counts the message in the session's row. A failed
     * write changes nothing; a failed count is swallowed and leaves the row and
     * the cache as written.
     */
    method AddMessage(message: Message, now: int, statsNow: int, insertFails: bool, statsFails: bool)
      requires db.Valid()
      modifies this, db
      ensures db.Valid()
      ensures db.documentContexts == old(db.documentContexts)
      ensures insertFails ==>
        db.chatHistory == old(db.chatHistory) && db.userSessions == old(db.userSessions) && cache == old(cache)
      ensures !insertFails ==> db.chatHistory == old(db.chatHistory) + [RowFor(sessionId, message, now)]
      ensures !insertFails ==> cache == if old(cache).Some? then Some(old(cache).value + [message]) else None
      ensures !insertFails ==>
        db.userSessions == if statsFails then old(db.userSessions) else BumpSession(old(db.userSessions), sessionId, statsNow)
      ensures old(CacheMatchesStore()) && !message.SystemMessage?
        && (forall x :: x in old(db.chatHistory) && x.sessionId == sessionId ==> x.timestamp <= now)
        ==> CacheMatchesStore()
      ensures old(CacheMatchesStore()) && old(cache).Some? && message.SystemMessage? && !insertFails
        ==> !CacheMatchesStore()
    {
      if insertFails {
        return;
      }
      ghost var before := db.chatHistory;
      db.chatHistory := db.chatHistory + [RowFor(sessionId, message, now)];
      if cache.Some? {
        cache := Some(cache.value + [message]);
      }
      UpdateUserSession(statsNow, statsFails);
      if message.SystemMessage? || forall x :: x in before && x.sessionId == sessionId ==> x.timestamp <= now {
        ReloadAfterWrite(before, sessionId, message, now);
      }
    }

    /** `_update_user_session`. */
    method UpdateUserSession(now: int, fails: bool)
      requires db.Valid()
      modifies db
      ensures db.Valid()
      ensures db.userSessions == if fails then old(db.userSessions) else BumpSession(old(db.userSessions), sessionId, now)
      ensures db.chatHistory == old(db.chatHistory) && db.documentContexts == old(db.documentContexts)
    {
      if fails {
        return;
      }
      var rows := db.userSessions;
      BumpSessionKeepsUnique(rows, sessionId, now);
      match FirstIndexWhere(rows, UserSession, sessionId) {
        case None =>
        case Some(i) =>
          var row := rows[i];
          db.userSessions := rows[i := row.(lastInteraction := now, totalMessages := row.totalMessages + 1)];
      }
    }

    /** `clear`: deletes every row of this session and empties the cache. */
    method Clear(fails: bool)
      modifies this, db
      ensures db.documentContexts == old(db.documentContexts) && db.userSessions == old(db.userSessions)
      ensures fails ==> db.chatHistory == old(db.chatHistory) && cache == old(cache)
      ensures !fails ==> db.chatHistory == WhereNot(old(db.chatHistory), ChatSession, sessionId) && cache == Some([])
      ensures !fails ==> CacheMatchesStore()
    {
      if fails {
        return;
      }
      db.chatHistory := WhereNot(db.chatHistory, ChatSession, sessionId);
      cache := Some([]);
      ClearedHistory(old(db.chatHistory), sessionId, sessionId);
    }
  }

  /** `DatabaseDocumentManager`: one document per session. */
  class DatabaseDocumentManager {
    const db: Database

    constructor (db: Database)
      ensures this.db == db
    {
      this.db := db;
    }

    /** `store_document`: replaces the session's document; reports whether it committed. */
    method StoreDocument(sessionId: string, filename: string, content: string, summary: string, fileType: string,
                         fileSize: int, now: int, fails: bool) returns (stored: bool)
      modifies db
      ensures stored == !fails
      ensures stored ==>
        db.documentContexts == ReplaceDocument(old(db.documentContexts),
                                               DocumentRow(sessionId, filename, content, summary, fileType, fileSize, now))
      ensures !stored ==> db.documentContexts == old(db.documentContexts)
      ensures db.chatHistory == old(db.chatHistory) && db.userSessions == old(db.userSessions)
    {
      if fails {
        return false;
      }
      db.documentContexts := WhereNot(db.documentContexts, DocumentSession, sessionId);
      db.documentContexts := db.documentContexts + [DocumentRow(sessionId, filename, content, summary, fileType, fileSize, now)];
      return true;
    }

    /** `get_document`: the session's document, or none (also when the query fails). */
    method GetDocument(sessionId: string, fails: bool) returns (doc: Option<DocumentRow>)
      ensures fails ==> doc.None?
      ensures !fails ==> doc == FirstWhere(db.documentContexts, DocumentSession, sessionId)
      ensures doc.Some? ==> doc.value in db.documentContexts && doc.value.sessionId == sessionId
    {
      if fails {
        return None;
      }
      doc := FirstWhere(db.documentContexts, DocumentSession, sessionId);
    }

    /** `delete_document`: removes the session's documents; reports whether it committed. */
    method DeleteDocument(sessionId: string, fails: bool) returns (deleted: bool)
      modifies db
      ensures deleted == !fails
      ensures deleted ==> db.documentContexts == WhereNot(old(db.documentContexts), DocumentSession, sessionId)
      ensures !deleted ==> db.documentContexts == old(db.documentContexts)
      ensures db.chatHistory == old(db.chatHistory) && db.userSessions == old(db.userSessions)
    {
      if fails {
        return false;
      }
      db.documentContexts := WhereNot(db.documentContexts, DocumentSession, sessionId);
      return true;
    }
  }

  /** `UserSessionManager`. */
  class UserSessionManager {
    const db: Database

    constructor (db: Database)
      ensures this.db == db
    {
      this.db := db;
    }

    /**
     * `create_or_update_session`; `now` and `later` are the two clock readings
     * a new row takes for its first and last interaction.
     */
    method CreateOrUpdateSession(sessionId: string, userName: Option<string>, now: int, later: int, fails: bool)
      requires db.Valid()
      modifies db
      ensures db.Valid()
      ensures db.userSessions ==
        if fails then old(db.userSessions) else CreateOrUpdateRows(old(db.userSessions), sessionId, userName, now, later)
      ensures db.chatHistory == old(db.chatHistory) && db.documentContexts == old(db.documentContexts)
    {
      if fails {
        return;
      }
      var rows := db.userSessions;
      CreateOrUpdateRowsKeepsUnique(rows, sessionId, userName, now, later);
      match FirstIndexWhere(rows, UserSession, sessionId) {
        case Some(i) =>
          var row := rows[i];
          var name := if HasName(userName) && !HasName(row.userName) then userName else row.userName;
          db.userSessions := rows[i := row.(lastInteraction := now, userName := name)];
        case None =>
          db.userSessions := rows + [NewSessionRow(sessionId, userName, now, later)];
      }
    }
  }
}
