# Wizzy bot: message handling, persistent memory and web search

This project models the core of the Wizzy Telegram bot in Dafny and proves properties of the model. The core has four parts.

- **Webhook handling** (`app.py`): a Telegram update is routed to exactly one handler: voice, photo, document or text.
  - Text turns run through a per-chat conversation history. Each turn builds a system message that names the user and, when the chat has uploaded a document, describes that document.
  - Documents are admitted by size, then dispatched on their extension. Their text is extracted and summarised, and the document is stored as the chat's context.
  - Voice notes are transcribed and answered in speech. Photos are described and answered as text.
- **Persistent memory** (`persistent_memory.py`, `models.py`): SQL-backed managers over three tables.
  - The chat message history keeps a lazily loaded cache.
  - There is one document per session, and storing a new one replaces the old.
  - The per-user session record is created or updated on each message.
  - `models.py` also holds the database URL rewrite.
- **Search client** (`serper_tools.py`): builds the request for a search type and turns the JSON response into result records and a knowledge graph. It also maps HTTP failures to error messages.
- **Search formatters** (`serper_tools.py`): render the processed search as numbered web or news listings, or as a context block of the top five results.

Module layout:
- `common.dfy`: Option and byte helpers.
- `strings.dfy`: Python string behaviour the source relies on: `str(int)`, `str.split()` word counts, `lower()`.
- `models.dfy`: the table rows, the table queries (filter by session, `.first()`) and the URL rewrite.
- `messages.dfy`: the chat messages.
- `chat_query.dfy`: how chat rows are queried and read back as messages.
- `persistent_memory.dfy`:
  - an imperative `Database` object holding the three tables;
  - the three manager classes whose methods update it;
  - the pure row-level specifications of those updates.
- `app.dfy`: the pure parts of the bot: routing, prompt building, photo choice, document admission and outcomes.
- `handlers.dfy`: each handler as a function from (services, documents, histories, message) to (reply, new state).
- `bot.dfy`: the `WizzyBot` class. Its `chat_histories` and `document_contexts` dictionaries are fields its methods update, and each method is proved equal to the handler function.
- `serper.dfy`: the search client.
- `search_format.dfy`: the formatters.

External services are not called. Instead they are fields of a `Services` value passed in: Telegram file download, transcription, image analysis, text-to-speech, the chat model, the text extractors, and the HTTP response of a search. Clock readings are parameters. Database failures are boolean parameters: a failed write leaves every table as it was, as the source's rollback does.

What the code does not do:
- The code keeps no history window, no age-based eviction and no purge. `_load_messages` returns the session's whole history, and `add_message` only appends.
- `app.py` keeps histories and documents in process-local dictionaries. It does not use `persistent_memory.py`, so the two are modelled side by side and are not connected.

The model shows two consequences of the code as written:
- `add_message` appends every message to a loaded cache, including system messages. `_load_messages` drops system messages on reload. So after a system message is written, the cache no longer matches what a reload would return (`AddMessage`, last ensures).
- On the text route, `process_webhook` asks `should_respond_with_audio`. That check can only be true for voice messages, which took an earlier branch, so text is always answered as text (`OnlyVoiceAnswersWithAudio`).

## Model

| member | source | states |
|---|---|---|
| Strings.LowerChar | app.py:280 | ASCII upper-case letters map to lower case; every other character is unchanged |
| Strings.AsciiLower | app.py:280 | lower-casing keeps the length and lowers each character in place |
| Strings.NatToString | app.py:335 | `str(n)` of a natural number is a non-empty string of decimal digits |
| Strings.IntToString | app.py:345 | `str(i)` of a chat id is never empty |
| Strings.NatToStringRoundTrip | app.py:301 | parsing the decimal rendering of a number gives the number back |
| Strings.WordCount | app.py:301 | `len(s.split())` never exceeds the text's length; WordCountJoin adds counts across a whitespace join |
| Strings.WordCountJoin | app.py:301 | `len(s.split())` of two texts joined by a whitespace character is the sum of their word counts |
| Models.Where | persistent_memory.py:32-34 | filtering a table by session keeps only rows of that session and never adds rows |
| Models.WhereNot | persistent_memory.py:186-188 | deleting a session's rows leaves only rows of other sessions |
| Models.FirstIndexWhere | persistent_memory.py:91-93 | `.first()` is absent exactly when no row has the session id; otherwise it finds the earliest such row |
| Models.FirstWhere | persistent_memory.py:161-163 | `.first()` returns a row of the table with that session id exactly when one exists |
| Models.WhereMembers | persistent_memory.py:32-34 | a row is in the filtered rows if and only if it is in the table and belongs to the session |
| Models.WhereSnoc | persistent_memory.py:72-73 | adding a row grows the session's rows by that row exactly when it belongs to the session, and grows the other rows otherwise |
| Models.WhereAfterDelete | persistent_memory.py:107-109 | after deleting one session's rows, that session has none and every other session keeps its rows in order |
| Models.UniqueRowIsFirst | models.py:42 | under the unique session-id constraint, `.first()` finds the one row of each session |
| Models.NewSessionRow | persistent_memory.py:218-225 | a new session row carries the id, name and both clock readings, with the message count at its column default 0 |
| Models.ReplaceFirstAtFirstOccurrence | models.py:73-74 | `replace(p, q, 1)` rewrites the first occurrence of `p` and keeps the text before and after it |
| Models.ReplaceFirstWithoutOccurrence | models.py:73-74 | `replace(p, q, 1)` without an occurrence leaves the text unchanged |
| Models.NormalizeDatabaseUrl | models.py:72-74 | a `postgres://` URL gets the `postgresql://` scheme with the rest kept; any other URL is unchanged |
| Models.NormalizeDatabaseUrlIdempotent | models.py:72-74 | rewriting an already rewritten URL changes nothing |
| Models.DatabaseUrl | models.py:68-74 | without `DATABASE_URL` the SQLite default is used; a given URL is used as is, or with `postgres://` replaced by `postgresql://` and the rest of the URL kept |
| ChatQuery.RowFor | persistent_memory.py:64-70 | the row written for a message carries the session id, the message text and the clock reading |
| ChatQuery.RowMessages | persistent_memory.py:38-43 | a row loads as one message exactly when its type is `human` or `ai`, with its content and type; any other type loads as nothing |
| ChatQuery.ToMessages | persistent_memory.py:36-44 | loading never yields more messages than rows and never yields a system message |
| ChatQuery.RowRoundTrip | persistent_memory.py:55-70 | a human or AI message written and read back is the same message; a system message reads back as nothing |
| ChatQuery.ToMessagesConcat | persistent_memory.py:36-44 | loading two runs of rows one after the other gives each run's messages in turn |
| ChatQuery.InsertByTimestamp | persistent_memory.py:34 | inserting a row into the ordered rows adds exactly that row |
| ChatQuery.SortByTimestamp | persistent_memory.py:34 | ordering by timestamp is a permutation of the rows |
| ChatQuery.InsertKeepsSorted | persistent_memory.py:34 | inserting into rows in timestamp order keeps them in timestamp order |
| ChatQuery.SortIsSorted | persistent_memory.py:34 | `order_by(timestamp)` yields rows in non-decreasing timestamp order |
| ChatQuery.QueryChatHistory | persistent_memory.py:32-34 | the query result is a permutation of the session's rows; QueryChatHistorySpec adds the timestamp order and the exact membership |
| ChatQuery.QueryChatHistorySpec | persistent_memory.py:32-34 | the history query returns exactly the session's rows, each as often as stored, in non-decreasing timestamp order |
| ChatQuery.OtherSessionRowInvisible | persistent_memory.py:32-34 | a row of another session does not change a session's query result |
| ChatQuery.LatestRowReadLast | persistent_memory.py:32-34 | a row stamped no earlier than the session's other rows is returned last, after the old rows |
| ChatQuery.InsertInvisibleRow | persistent_memory.py:38-43 | a row of another type, wherever it lands in the order, does not change what the history loads as |
| ChatQuery.QueryAfterAppend | persistent_memory.py:32-34 | adding a row to the table inserts it into its session's query result by timestamp |
| ChatQuery.ReloadAfterWrite | persistent_memory.py:28-77 | after a message is written at the latest clock reading, a fresh load returns the old load plus that message; a system message leaves the load unchanged |
| PersistentMemory.Database.constructor | models.py:55-57 | the created tables start empty |
| PersistentMemory.SessionOf | persistent_memory.py:91-93 | the session lookup returns a row of the table with that id, or nothing when no row has it |
| PersistentMemory.BumpSession | persistent_memory.py:91-97 | updating the session stats keeps the number of rows; BumpSessionCounts, BumpSessionFrame and BumpSessionKeepsUnique state the new row, the other rows and id uniqueness |
| PersistentMemory.BumpSessionCounts | persistent_memory.py:91-97 | updating the session stats sets its last interaction to the clock and adds one to its message count; an unknown session stays unknown |
| PersistentMemory.BumpSessionFrame | persistent_memory.py:91-97 | updating one session's stats leaves every other session's row unchanged |
| PersistentMemory.BumpSessionKeepsUnique | persistent_memory.py:95-97 | updating the stats keeps session ids unique |
| PersistentMemory.CreateOrUpdateRows | persistent_memory.py:204-226 | creating or updating adds at most one row; CreateOrUpdateRowsSpec, CreateOrUpdateRowsFrame and CreateOrUpdateRowsKeepsUnique state the created or updated row, the other rows and id uniqueness |
| PersistentMemory.CreateOrUpdateRowsSpec | persistent_memory.py:204-226 | a known session gets the new last interaction and keeps a non-empty name, otherwise taking a non-empty given name; an unknown session gets a new row with count 0 |
| PersistentMemory.CreateOrUpdateRowsFrame | persistent_memory.py:204-226 | creating or updating one session leaves every other session's row unchanged |
| PersistentMemory.CreateOrUpdateRowsKeepsUnique | persistent_memory.py:204-226 | creating or updating a session keeps session ids unique |
| PersistentMemory.ReplaceDocument | persistent_memory.py:124-146 | after a store the new document is the last row and no earlier row belongs to its session; ReplaceDocumentLeavesOne and ReplaceDocumentKeepsOthers state what the queries then find |
| PersistentMemory.ReplaceDocumentLeavesOne | persistent_memory.py:124-146 | after a store, the session has exactly one document, the new one, and it is what `get_document` finds |
| PersistentMemory.ReplaceDocumentKeepsOthers | persistent_memory.py:124-146 | storing a document leaves other sessions' documents as they were |
| PersistentMemory.DeleteDocumentLeavesNone | persistent_memory.py:182-189 | after a delete, the session has no document and `get_document` finds none |
| PersistentMemory.ClearedHistory | persistent_memory.py:103-111 | after clearing, the session's history query is empty and other sessions' queries are unchanged |
| PersistentMemory.AppendRecord | persistent_memory.py:37-44 | one loop step appends the record's message, if the record has one |
| PersistentMemory.DatabaseChatMessageHistory.constructor | persistent_memory.py:16-19 | a new history is bound to its session and database and has not loaded its cache |
| PersistentMemory.DatabaseChatMessageHistory.Messages | persistent_memory.py:21-26 | `messages` serves the cache when loaded; otherwise it loads the session's history (empty on failure) and caches it |
| PersistentMemory.DatabaseChatMessageHistory.LoadMessages | persistent_memory.py:28-50 | the cache becomes the session's rows in timestamp order read as messages, or empty when the query fails; a successful load matches the store |
| PersistentMemory.DatabaseChatMessageHistory.AddMessage | persistent_memory.py:52-86 | a failed insert changes nothing; otherwise the row is appended, a loaded cache grows by the message, and the session stats are bumped unless that update fails; the cache keeps matching the store for human and AI messages at the latest clock reading, and stops matching after a system message |
| PersistentMemory.DatabaseChatMessageHistory.UpdateUserSession | persistent_memory.py:88-101 | the session's stats are bumped, or left unchanged when the update fails; other tables are untouched |
| PersistentMemory.DatabaseChatMessageHistory.Clear | persistent_memory.py:103-116 | on success the session's rows are deleted and the cache is empty and matches the store; on failure nothing changes |
| PersistentMemory.DatabaseDocumentManager.constructor | persistent_memory.py:121-122 | the manager is bound to its database |
| PersistentMemory.DatabaseDocumentManager.StoreDocument | persistent_memory.py:124-155 | success is reported exactly when the write does not fail; the session's old document is replaced by the new one, and other tables are untouched |
| PersistentMemory.DatabaseDocumentManager.GetDocument | persistent_memory.py:157-180 | returns the session's first stored document, or none when there is none or the query fails |
| PersistentMemory.DatabaseDocumentManager.DeleteDocument | persistent_memory.py:182-196 | success is reported exactly when the delete does not fail; the session's documents are removed and nothing else changes |
| PersistentMemory.UserSessionManager.constructor | persistent_memory.py:201-202 | the manager is bound to its database |
| PersistentMemory.UserSessionManager.CreateOrUpdateSession | persistent_memory.py:204-233 | the session table becomes the created or updated rows, or stays unchanged on failure; ids stay unique and other tables are untouched |
| App.RouteOf | app.py:457-490 | an update without a chat id is ignored; otherwise exactly one handler runs, with voice before photo before document before text |
| App.ShouldRespondWithAudio | app.py:420-422 | `'voice' in message_data`; OnlyVoiceAnswersWithAudio states that it never holds outside the voice route |
| App.OnlyVoiceAnswersWithAudio | app.py:420-422 | only the voice route can call for a spoken answer; a text message is never answered in speech |
| App.MaxSizeIndex | app.py:391 | `max` by file size picks a largest element, the first one among equals |
| App.SelectPhoto | app.py:389-391 | the chosen photo is one of the photos and no photo is larger; there is none when the list is empty or a size is missing |
| App.FirstWord | app.py:346 | `split(' ')[0]` is the prefix up to the first space |
| App.ImagePromptCarriesBoth | app.py:398-408 | the image prompt carries the description and then the caption, each verbatim |
| App.SystemPrompt | app.py:88-110 | the base message, followed by the chat's document block when the chat id is non-empty and has a document; SystemPromptShape, SystemPromptBlock and DocumentBlockContents state what it contains |
| App.SystemPromptShape | app.py:88-110 | the system message names the user, starts with the identity and clock text, and goes on past it exactly when the chat has a document |
| App.SystemPromptBlock | app.py:99-108 | for a chat with a document, the rest of the system message is that document's block |
| App.DocumentBlockContents | app.py:100-108 | the document block names the file and ends with its summary, or the default summary when it has none |
| App.AdmitDocument | app.py:322-329 | a document without a file id fails; one over 20 MB is refused; otherwise it is admitted under its name or `unknown_document` |
| App.ExtensionOf | app.py:280 | the suffix is empty or starts with a dot |
| App.BaseNameIsLastComponent | app.py:280 | the base name is the tail of the file name after its last `/`, and contains no `/` |
| App.ExtensionIsLastDotSuffix | app.py:280 | when the base name's last dot neither starts nor ends it, the suffix is the lower-cased text from that dot on |
| App.ExtensionHasDot | app.py:280 | a non-empty suffix is the lower-cased text from such a last dot on |
| App.ExtensionIgnoresCase | app.py:280 | the lower-cased suffix does not depend on the case of the file name |
| App.Take | app.py:295 | `text[:2000]` is the whole text when it is at most 2000 characters, and its first 2000 characters otherwise |
| App.SummaryPromptShape | app.py:295 | the summary prompt opens with the request, is bounded whatever the document's length, and carries a short document whole and a long one's first 2000 characters |
| App.FallbackSummaryCount | app.py:301 | the fallback summary states the document's word count in decimal |
| App.SummaryOf | app.py:294-301 | the summary is the chat model's answer, or the word-count fallback when the call fails |
| App.DocumentOutcomeOf | app.py:277-309 | an unknown extension is refused with that extension; empty extracted text is refused; otherwise the document is stored with its name, the text extracted for its kind, its summary and the upload time |
| App.DocumentReply | app.py:277-317 | the reply for each outcome: the unsupported-format text with the extension, the no-text apology with the file name, or the stored confirmation with the summary; DocumentReplyCases states the three cases |
| App.DocumentReplyCases | app.py:281-317 | an unsupported outcome gets the unsupported-format reply, an empty one the no-text reply, and a stored one the confirmation carrying its summary |
| App.AudioResponse | app.py:438-455 | the reply goes to the chat; the synthesised audio is delivered, and the text is sent instead exactly when synthesis fails, yields no audio, or the audio upload fails |
| Handlers.TextTurn | app.py:342-365 | a message without chat id, sender name or text gets the error reply and changes no history; otherwise the model is asked with the system message for the first name and the chat's document, the session's history and the text; its answer is the reply and the text and answer join the history, and a failed call gives the error reply with the history only created; other histories are unchanged |
| Handlers.TextTurnReply | app.py:353-361 | a text turn's reply is the model's answer, or the error reply when the call fails |
| Handlers.VoiceAsText | app.py:370-378 | a voice message becomes a text message exactly when its note can be fetched, and its text is the transcription |
| Handlers.VoiceTurn | app.py:367-384 | a voice note that cannot be fetched gets the voice error reply and changes no history; otherwise its transcription is answered as a text message |
| Handlers.VoiceAnsweredAsTranscript | app.py:367-380 | the model's answer to the transcription is the reply, and the transcription and the answer join the chat's history; a failed call gives the error reply |
| Handlers.StoreOutcome | app.py:303-309 | a stored outcome sets the chat's document; other outcomes change nothing; other chats are untouched |
| Handlers.DocumentTurn | app.py:319-340 | a document message changes at most the document of its own chat; a missing document or file id, or a failed download, gets the document error reply and stores nothing |
| Handlers.Webhook | app.py:457-495 | a reply is sent only for an update with a chat id, and only to that chat; WebhookWithoutChat, WebhookReplies, WebhookDocumentFrame and WebhookHistoryFrame state the routing and what each route changes |
| Handlers.WebhookWithoutChat | app.py:460-464 | an update without a chat id sends nothing and changes nothing |
| Handlers.WebhookReplies | app.py:457-490 | with a chat id, a reply is sent to that chat unless no handler applies, and only the voice route may answer in speech |
| Handlers.WebhookDocumentFrame | app.py:477-480 | only the document route changes documents, and it changes no history and no other chat's document |
| Handlers.WebhookHistoryFrame | app.py:467-490 | a voice, photo or text update changes only its own chat's history, leaving it as it was or followed by one human message and one AI answer, and no document |
| Handlers.OversizedDocumentRefused | app.py:327-329 | a document over 20 MB is refused and nothing is stored |
| Handlers.DocumentStoredOrRefused | app.py:319-336 | an admitted and downloaded document gets the reply of its outcome, and is stored, with a summary, as its chat's document exactly when processing succeeds; otherwise nothing changes |
| Handlers.StoredDocumentInPrompt | app.py:99-108 | after a document is stored for a chat, that chat's system message describes it |
| Handlers.StoredDocumentReachesModel | app.py:99-108 | after a document message is stored for a chat, the next text turn there asks the model with a system message ending in that document's block, and the answer is the reply |
| Handlers.ImageAsText | app.py:386-408 | a photo message becomes a text message exactly when the photo list is present and non-empty, every photo has a size, the largest has a file id and its download succeeds; the text is the prompt built from its description and the caption |
| Handlers.ImageTurn | app.py:386-418 | a photo that cannot be chosen or fetched gets the image error reply and changes no history; otherwise the prompt is answered as a text message |
| Handlers.ImageAnsweredWithBoth | app.py:386-408 | a photo is answered from the largest photo's description followed by the caption |
| Bot.ChatMessageHistory.constructor | app.py:84 | a new conversation history is empty |
| Bot.WizzyBot.constructor | app.py:57-61 | the bot starts with no histories and no documents |
| Bot.WizzyBot.GetSessionHistory | app.py:81-86 | returns the session's history, creating an empty one when the session is new; no other history or document changes |
| Bot.WizzyBot.CreateSystemMessage | app.py:88-110 | the system message is built from the user name, the chat's stored document and the clock |
| Bot.WizzyBot.ProcessTextMessage | app.py:342-365 | the reply and the new histories are those of the text turn; documents and existing history objects are kept |
| Bot.WizzyBot.InvokeWithHistory | app.py:74-79 | on a model answer, the session's history grows by the text and the answer; on failure the error reply is given and nothing changes |
| Bot.WizzyBot.ProcessAudioMessage | app.py:367-384 | the reply and the new histories are those of the voice turn: the voice error reply when the note cannot be fetched, the text turn on its transcription otherwise; documents are unchanged |
| Bot.WizzyBot.ProcessImageMessage | app.py:386-418 | the reply and the new histories are those of the photo turn; documents are unchanged |
| Bot.WizzyBot.ProcessDocument | app.py:277-317 | the reply is the document outcome's reply, and the documents are updated by that outcome |
| Bot.WizzyBot.ProcessDocumentMessage | app.py:319-340 | the reply and the new documents are those of the document turn |
| Bot.WizzyBot.SendAudioResponse | app.py:438-455 | what reaches the chat is the synthesised audio, or the text when synthesis fails, yields no audio or the upload fails |
| Bot.WizzyBot.ProcessWebhook | app.py:457-495 | what is sent and the new documents and histories are those of the webhook routing |
| Serper.Get | serper_tools.py:138 | `item.get(key, default)` is the field when present and the default otherwise |
| Serper.OrganicResult | serper_tools.py:136-143 | a web result takes title, link, snippet, position (default 0) and date from the item, and has no image |
| Serper.NewsResult | serper_tools.py:149-156 | a news result takes title, link, snippet, date and image from the item, at position 0 |
| Serper.MediaResult | serper_tools.py:162-168 | an image or video result takes title, link, snippet and image from the item, with no date |
| Serper.ShoppingResult | serper_tools.py:186-192 | a shopping result's snippet carries the price (default `N/A`) and the item's snippet |
| Serper.ProcessOrganicResults | serper_tools.py:133-144 | one web result per item, in order |
| Serper.ProcessNewsResults | serper_tools.py:146-157 | one news result per item, in order |
| Serper.ProcessImageResults | serper_tools.py:159-169 | one image result per item, in order |
| Serper.ProcessVideoResults | serper_tools.py:171-181 | one video result per item, in order |
| Serper.ProcessShoppingResults | serper_tools.py:183-193 | one shopping result per item, in order |
| Serper.KnowledgeGraphOf | serper_tools.py:195-206 | there is no knowledge graph exactly when the field is missing or empty; otherwise its fields come from the item |
| Serper.ResultsFor | serper_tools.py:110-121 | each search type reads its own response list with its own result shape; an unknown type yields no results |
| Serper.ProcessSearchResponse | serper_tools.py:105-131 | the processed search carries the query, type, time, its results and their count, and a knowledge graph only for web searches |
| Serper.ErrorMessage | serper_tools.py:208-217 | the message is the generic one exactly when the status is not 401, 403, 429, 500 or 503 |
| Serper.ErrorMessagesDistinct | serper_tools.py:208-217 | the five known status codes each get a different message |
| Serper.SearchRequest | serper_tools.py:71-80 | the request goes to the type's endpoint with query and count, and carries the country only for web and news searches |
| Serper.Search | serper_tools.py:68-103 | the search fails exactly when the request does, with `HTTP <status>: <message>` or the exception text; otherwise it carries the query, the type's results and their count, the knowledge graph for web searches, and the time |
| SearchFormat.ListingAppend | serper_tools.py:237-240 | the listing of joined result lists is the two listings in turn, with the numbering carried on |
| SearchFormat.ListingNumbered | serper_tools.py:237-240 | the result at position k of the list is rendered as entry number first + k, between the entries before and after it |
| SearchFormat.WebSearchText | serper_tools.py:223-242 | the web listing text: the failure text, or the header, knowledge-graph lines and numbered entries; WebSearchFailsExactly, WebEntriesNumbered, ListingNumbered and ListingAppend state its properties |
| SearchFormat.FormatWebSearch | serper_tools.py:223-242 | the loop builds the web listing text |
| SearchFormat.AppendWebEntry | serper_tools.py:238-240 | one loop step appends the numbered entry of one result |
| SearchFormat.WebEntriesNumbered | serper_tools.py:237-240 | the k-th result, counting from 0, appears as entry k + 1 |
| SearchFormat.WebSearchFailsExactly | serper_tools.py:225-229 | the text is a failure message exactly when the search failed or found nothing; otherwise it opens with the query header |
| SearchFormat.NewsSearchText | serper_tools.py:245-259 | the news listing text: the failure text, or the header and numbered entries with dates; NewsSearchFailsExactly and UndatedNewsReadsLikeWeb state its properties |
| SearchFormat.FormatNewsSearch | serper_tools.py:245-259 | the loop builds the news listing text |
| SearchFormat.AppendNewsEntry | serper_tools.py:253-257 | one loop step appends the numbered entry of one news result |
| SearchFormat.UndatedNewsReadsLikeWeb | serper_tools.py:252-257 | news results without a date are listed exactly as web results are |
| SearchFormat.NewsSearchFailsExactly | serper_tools.py:247-248 | the text is a failure message exactly when the search failed or found nothing |
| SearchFormat.TopResults | serper_tools.py:276 | `results[:5]` is the first five results, or all of them when there are fewer |
| SearchFormat.AiContextText | serper_tools.py:262-283 | the context block of the top five results; AiContextFailsExactly and AiContextUsesTopFive state its properties |
| SearchFormat.FormatForAiContext | serper_tools.py:262-283 | the loop builds the context text |
| SearchFormat.AppendContextEntry | serper_tools.py:277-281 | one loop step appends one result's context entry |
| SearchFormat.AiContextUsesTopFive | serper_tools.py:276 | results after the fifth do not change the context |
| SearchFormat.AiContextFailsExactly | serper_tools.py:264-265 | the context is the no-results text exactly when the search failed or found nothing |

## Left out

- Network and process I/O are not modelled:
  - the Telegram, Gemini, Groq and Serper HTTP calls;
  - the PDF, DOCX and text extractors;
  - the temporary files.

  They are parameters: fields of `Services`, or the search's `HttpOutcome`.
- Clock readings (`datetime.utcnow()`, `datetime.now()`) are parameters. `create_or_update_session` reads the clock twice, so it takes two readings.
- The Flask endpoints (`webhook`, `health`), `main`, `send_text_response`, logging and the redis client (created, never used) are not modelled.
- Concurrency is not modelled: requests are taken one at a time.
- The SQL engine, sessions and connection handling are reduced to three in-memory tables. A commit is the update, and a rollback is no update.
- `ORDER BY timestamp` is modelled as a stable sort, so equal timestamps keep table order. SQL leaves that order unspecified.
- `.first()` without an order is modelled as the first row in table order.
- The outer `except` handlers are not modelled:
  - in `process_webhook`, the error reply after an exception;
  - in `process_document`, the generic error reply.

  Exceptions from malformed payloads become the Option fields of the message records instead.
- Missing dictionary keys in a Telegram message become `None` fields. `file_size` missing counts as 0 as in the source. Type confusion in the JSON, such as a non-dict or a non-int size, is not modelled.
- The search response's knowledge-graph `attributes` field is not modelled, because no formatter reads it.
- JSON values are limited to null, booleans, integers and strings.
- The public `web_search`, `news_search`, `image_search`, `video_search`, `shopping_search` and `quick_*` functions are not modelled separately. Each only fixes the search type of `Search`, whose request and result are modelled.
- `Strings.AsciiLower`: lower-cases ASCII letters only, not the full Unicode mapping of `str.lower()`.
- `App.ExtensionOf`: follows `Path.suffix` on a plain file name. Path normalisation and platform separators are not modelled, and only `/` is a separator.
- `Strings.IntToString`: states only that the rendering is non-empty. The round trip is stated for natural numbers by `NatToStringRoundTrip`.
- `Handlers.DocumentTurn`: its own contract gives the frame on other chats and the error replies. The oversized refusal is stated by `OversizedDocumentRefused`, and the reply and store of an admitted, fetched document by `DocumentStoredOrRefused`.
- `SearchFormat.FormatWebSearch`, `SearchFormat.FormatNewsSearch` and `SearchFormat.FormatForAiContext` are each proved equal to a text function. The properties of that text are the lemmas beside them.
- `PersistentMemory.DatabaseChatMessageHistory.Messages`: returns the cached messages as a value. In the source, `messages` hands out the cached list object itself, and later `add_message` calls append to that same list, so a list a caller got earlier keeps growing. That aliasing is not modelled.
- `PersistentMemory.DatabaseChatMessageHistory.AddMessage`: extends the cache as a new value. The in-place append to a list that callers may hold is not modelled (see the line above).
- `App.AudioResponse`: gives the message that reaches the chat. A failed audio upload followed by the text fallback is modelled as the text alone. A failure of `send_text_response` is swallowed by the source and is not modelled.
- The LangChain prompt template and `RunnableWithMessageHistory` are reduced to a chat-model call `chat(system, history, text)` followed by appending the human and AI messages on success.
