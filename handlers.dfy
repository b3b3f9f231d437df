/**
 * The bot's message handlers as functions of its in-process state: the chat
 * histories per session and the document attached to each chat. Each handler
 * returns its reply and the new state; `Webhook` chooses a handler and says
 * what is sent back. The class in the Bot module is proved against these.
 */
module Handlers {
  import opened Common
  import opened Strings
  import opened Messages
  import opened App

  /** `chat_histories`, by session id, seen as the messages each history holds. */
  type Histories = map<string, seq<Message>>
  /** `document_contexts`, by chat id. */
  type Documents = map<string, DocInfo>

  /** A session's messages; a session not yet created has none. */
  function HistoryOf(hs: Histories, sessionId: string): seq<Message> {
    if sessionId in hs then hs[sessionId] else []
  }

  /** The session a text message is answered in, or none when its chat id, sender name or text is missing. */
  function TextSession(m: TgMessage): Option<string> {
    if m.chatId.None? || m.firstName.None? || m.text.None? then None
    else Some(IntToString(m.chatId.value))
  }

  /**
   * `process_text_message`, with the chain that wraps the chat model in the
   * session's history: the history is fetched (created if new), the model
   * sees the system message, the history and the text, and on success the
   * text and the answer are appended to the history.
   */
  function TextTurn(s: Services, docs: Documents, hs: Histories, m: TgMessage, now: string): (r: (string, Histories))
    ensures TextSession(m).None? ==> r == (TextErrorReply, hs)
    ensures TextSession(m).Some? ==>
      var sid := TextSession(m).value;
      r.1.Keys == hs.Keys + {sid}
      && (forall k :: k in hs && k != sid ==> r.1[k] == hs[k])
      && (r.1[sid] == HistoryOf(hs, sid)
          || r.1[sid] == HistoryOf(hs, sid) + [HumanMessage(m.text.value), AIMessage(r.0)])
    ensures TextSession(m).Some? && r.0 != TextErrorReply ==>
      r.1[TextSession(m).value] == HistoryOf(hs, TextSession(m).value) + [HumanMessage(m.text.value), AIMessage(r.0)]
    ensures TextSession(m).Some? ==>
      var sid := TextSession(m).value;
      var history := HistoryOf(hs, sid);
      var answer := s.chat(SystemPrompt(FirstWord(m.firstName.value), Some(sid), docs, now), history, m.text.value);
      (answer.Some? ==> r == (answer.value, hs[sid := history + [HumanMessage(m.text.value), AIMessage(answer.value)]]))
      && (answer.None? ==> r == (TextErrorReply, hs[sid := history]))
  {
    match TextSession(m)
    case None => (TextErrorReply, hs)
    case Some(sid) =>
      var history := HistoryOf(hs, sid);
      var system := SystemPrompt(FirstWord(m.firstName.value), Some(sid), docs, now);
      match s.chat(system, history, m.text.value)
      case None => (TextErrorReply, hs[sid := history])
      case Some(answer) => (answer, hs[sid := history + [HumanMessage(m.text.value), AIMessage(answer)]])
  }

  /** The voice note can be fetched. */
  predicate VoiceFetched(s: Services, m: TgMessage) {
    m.voice.Some? && m.voice.value.fileId.Some? && s.download(m.voice.value.fileId.value).Some?
  }

  /** What the fetched voice note says. */
  function Transcript(s: Services, m: TgMessage): string
    requires VoiceFetched(s, m)
  {
    s.transcribe(s.download(m.voice.value.fileId.value).value)
  }

  /** The text a voice message is answered as: its transcription, if the voice note can be fetched. */
  function VoiceAsText(s: Services, m: TgMessage): (r: Option<TgMessage>)
    ensures r.Some? <==> VoiceFetched(s, m)
    ensures r.Some? ==> r.value == m.(text := Some(Transcript(s, m)))
  {
    if m.voice.None? || m.voice.value.fileId.None? then None
    else match s.download(m.voice.value.fileId.value)
      case None => None
      case Some(audio) => Some(m.(text := Some(s.transcribe(audio))))
  }

  /**
   * `process_audio_message`: a voice note that cannot be fetched gets the
   * voice error reply and changes nothing; otherwise its transcription is
   * answered as the message's text.
   */
  function VoiceTurn(s: Services, docs: Documents, hs: Histories, m: TgMessage, now: string): (r: (string, Histories))
    ensures !VoiceFetched(s, m) ==> r == (VoiceErrorReply, hs)
    ensures VoiceFetched(s, m) ==> r == TextTurn(s, docs, hs, m.(text := Some(Transcript(s, m))), now)
  {
    match VoiceAsText(s, m)
    case None => (VoiceErrorReply, hs)
    case Some(asText) => TextTurn(s, docs, hs, asText, now)
  }

  /** The largest photo of the message can be chosen and fetched. */
  predicate PhotoFetched(s: Services, m: TgMessage) {
    m.photo.Some? && SelectPhoto(m.photo.value).Some?
    && SelectPhoto(m.photo.value).value.fileId.Some?
    && s.download(SelectPhoto(m.photo.value).value.fileId.value).Some?
  }

  /** The prompt a fetched photo is answered with: its description and the caption. */
  function PhotoText(s: Services, m: TgMessage): string
    requires PhotoFetched(s, m)
  {
    var image := s.download(SelectPhoto(m.photo.value).value.fileId.value).value;
    ImagePrompt(s.analyzeImage(image, CaptionOf(m)), CaptionOf(m))
  }

  /**
   * The text a photo message is answered as: the largest photo is fetched and
   * described, and the description and caption make up the text. A missing or
   * empty photo list, a photo without size or file id, or a failed download
   * gives none.
   */
  function ImageAsText(s: Services, m: TgMessage): (r: Option<TgMessage>)
    ensures r.Some? <==> PhotoFetched(s, m)
    ensures r.Some? ==> r.value == m.(text := Some(PhotoText(s, m)))
  {
    if m.photo.None? then None
    else match SelectPhoto(m.photo.value)
      case None => None
      case Some(photo) =>
        if photo.fileId.None? then None
        else match s.download(photo.fileId.value)
          case None => None
          case Some(image) =>
            var caption := CaptionOf(m);
            Some(m.(text := Some(ImagePrompt(s.analyzeImage(image, caption), caption))))
  }

  /**
   * `process_image_message`: a photo that cannot be chosen or fetched gets the
   * image error reply and changes nothing; otherwise the prompt built from it
   * is answered as the message's text.
   */
  function ImageTurn(s: Services, docs: Documents, hs: Histories, m: TgMessage, now: string): (r: (string, Histories))
    ensures !PhotoFetched(s, m) ==> r == (ImageErrorReply, hs)
    ensures PhotoFetched(s, m) ==> r == TextTurn(s, docs, hs, m.(text := Some(PhotoText(s, m))), now)
  {
    match ImageAsText(s, m)
    case None => (ImageErrorReply, hs)
    case Some(asText) => TextTurn(s, docs, hs, asText, now)
  }

  /** The `document_contexts` entry `process_document` writes for an outcome. */
  function StoreOutcome(docs: Documents, chatId: string, outcome: DocumentOutcome): (r: Documents)
    ensures forall k :: k in docs && k != chatId ==> k in r && r[k] == docs[k]
    ensures !outcome.Stored? ==> r == docs
    ensures outcome.Stored? ==> chatId in r && r[chatId] == outcome.info && r.Keys == docs.Keys + {chatId}
  {
    if outcome.Stored? then docs[chatId := outcome.info] else docs
  }

  /**
   * `process_document_message`: admission checks, the download, then
   * `process_document` under the chat id.
   */
  function DocumentTurn(s: Services, docs: Documents, m: TgMessage, now: string): (r: (string, Documents))
    ensures m.chatId.None? ==> r.1 == docs
    ensures m.chatId.Some? ==>
      forall k :: k in docs && k != IntToString(m.chatId.value) ==> k in r.1 && r.1[k] == docs[k]
    ensures m.document.None? || AdmitDocument(m.document.value).MissingFileId? ==> r == (DocumentErrorReply, docs)
    ensures (m.document.Some? && AdmitDocument(m.document.value).Admitted?
             && s.download(AdmitDocument(m.document.value).fileId).None?) ==> r == (DocumentErrorReply, docs)
  {
    if m.document.None? then (DocumentErrorReply, docs)
    else match AdmitDocument(m.document.value)
      case MissingFileId => (DocumentErrorReply, docs)
      case TooLarge => (TooLargeReply, docs)
      case Admitted(fileId, filename) =>
        match s.download(fileId)
        case None => (DocumentErrorReply, docs)
        case Some(data) =>
          if m.chatId.None? then (DocumentErrorReply, docs)
          else
            var outcome := DocumentOutcomeOf(s, data, filename, now);
            (DocumentReply(outcome, filename), StoreOutcome(docs, IntToString(m.chatId.value), outcome))
  }

  /** What one webhook call sends and the state it leaves. */
  datatype Effect = Effect(sent: Option<Outbound>, docs: Documents, hs: Histories)

  /** `process_webhook`. */
  function Webhook(s: Services, docs: Documents, hs: Histories, u: Update, now: string): (r: Effect)
    ensures r.sent.Some? ==> HasChat(MessageOf(u)) && r.sent.value.chatId == MessageOf(u).chatId.value
  {
    var m := MessageOf(u);
    match RouteOf(u)
    case Ignored => Effect(None, docs, hs)
    case Unhandled => Effect(None, docs, hs)
    case VoiceRoute =>
      var (reply, hs') := VoiceTurn(s, docs, hs, m, now);
      Effect(Some(AudioResponse(s, m.chatId.value, reply)), docs, hs')
    case PhotoRoute =>
      var (reply, hs') := ImageTurn(s, docs, hs, m, now);
      Effect(Some(SendText(m.chatId.value, reply)), docs, hs')
    case DocumentRoute =>
      var (reply, docs') := DocumentTurn(s, docs, m, now);
      Effect(Some(SendText(m.chatId.value, reply)), docs', hs)
    case TextRoute =>
      var (reply, hs') := TextTurn(s, docs, hs, m, now);
      var out := if ShouldRespondWithAudio(m) then AudioResponse(s, m.chatId.value, reply)
                 else SendText(m.chatId.value, reply);
      Effect(Some(out), docs, hs')
  }

  // ---------------------------------------------------------------------------
  // Properties of the handlers

  /** An update without a chat id is ignored: nothing is sent and nothing changes. */
  lemma WebhookWithoutChat(s: Services, docs: Documents, hs: Histories, u: Update, now: string)
    requires !HasChat(MessageOf(u))
    ensures Webhook(s, docs, hs, u, now) == Effect(None, docs, hs)
  {
  }

  /**
   * An update with a chat id gets exactly one reply, to that chat, unless it
   * carries none of voice, photo, document or text; audio is sent only in the
   * voice branch.
   */
  lemma WebhookReplies(s: Services, docs: Documents, hs: Histories, u: Update, now: string)
    requires HasChat(MessageOf(u))
    ensures var e := Webhook(s, docs, hs, u, now);
            (e.sent.None? <==> RouteOf(u) == Unhandled)
            && (e.sent.Some? ==> e.sent.value.chatId == MessageOf(u).chatId.value)
            && (e.sent.Some? && e.sent.value.SendAudio? ==> RouteOf(u) == VoiceRoute)
  {
  }

  /** Only the document branch touches the documents, and only the chat's own entry. */
  lemma WebhookDocumentFrame(s: Services, docs: Documents, hs: Histories, u: Update, now: string)
    ensures var e := Webhook(s, docs, hs, u, now);
            (RouteOf(u) != DocumentRoute ==> e.docs == docs)
            && (RouteOf(u) == DocumentRoute ==>
                  e.hs == hs
                  && forall k :: k in docs && k != IntToString(MessageOf(u).chatId.value) ==> k in e.docs && e.docs[k] == docs[k])
  {
  }

  /** `after` is `before` followed by one exchange: a human message, then the AI's answer. */
  predicate Exchanged(before: seq<Message>, after: seq<Message>) {
    |after| == |before| + 2 && after[..|before|] == before
    && after[|before|].HumanMessage? && after[|before| + 1].AIMessage?
  }

  /**
   * The voice, photo and text branches change no history but that of the
   * message's own chat, and to that one they add nothing or one exchange.
   */
  lemma WebhookHistoryFrame(s: Services, docs: Documents, hs: Histories, u: Update, now: string)
    requires RouteOf(u) in {VoiceRoute, PhotoRoute, TextRoute}
    ensures var e := Webhook(s, docs, hs, u, now);
            var sid := IntToString(MessageOf(u).chatId.value);
            (forall k :: k in hs && k != sid ==> k in e.hs && e.hs[k] == hs[k])
            && (sid in e.hs ==> e.hs[sid] == HistoryOf(hs, sid) || Exchanged(HistoryOf(hs, sid), e.hs[sid]))
            && e.docs == docs
  {
    var m := MessageOf(u);
    var sid := IntToString(m.chatId.value);
    var e := Webhook(s, docs, hs, u, now);
    match RouteOf(u) {
      case VoiceRoute =>
        var r := VoiceTurn(s, docs, hs, m, now);
        assert e.hs == r.1 && e.docs == docs;
        match VoiceAsText(s, m) {
          case None =>
          case Some(t) => TextTurnFrame(s, docs, hs, t, now, sid);
        }
      case PhotoRoute =>
        var r := ImageTurn(s, docs, hs, m, now);
        assert e.hs == r.1 && e.docs == docs;
        match ImageAsText(s, m) {
          case None =>
          case Some(t) => TextTurnFrame(s, docs, hs, t, now, sid);
        }
      case TextRoute =>
        assert e.hs == TextTurn(s, docs, hs, m, now).1 && e.docs == docs;
        TextTurnFrame(s, docs, hs, m, now, sid);
    }
  }

  /** A text turn in chat `sid` (or in none) changes no other chat's history and adds at most one exchange. */
  lemma TextTurnFrame(s: Services, docs: Documents, hs: Histories, t: TgMessage, now: string, sid: string)
    requires TextSession(t).None? || TextSession(t) == Some(sid)
    ensures var hs' := TextTurn(s, docs, hs, t, now).1;
            (forall k :: k in hs && k != sid ==> k in hs' && hs'[k] == hs[k])
            && (sid in hs' ==> hs'[sid] == HistoryOf(hs, sid) || Exchanged(HistoryOf(hs, sid), hs'[sid]))
  {
    var r := TextTurn(s, docs, hs, t, now);
    if TextSession(t).Some? && r.0 != TextErrorReply {
      var before := HistoryOf(hs, sid);
      assert r.1[sid][..|before|] == before;
    }
  }

  /** A document over 20 MB is refused before it is fetched, and nothing is stored. */
  lemma OversizedDocumentRefused(s: Services, docs: Documents, m: TgMessage, now: string)
    requires m.document.Some? && m.document.value.fileId.Some?
    requires m.document.value.fileSize.Some? && m.document.value.fileSize.value > MaxDocumentSize
    ensures DocumentTurn(s, docs, m, now) == (TooLargeReply, docs)
  {
  }

  /**
   * An admitted, fetched document is handed to `process_document` under the
   * chat id: when its extension is not one of the three supported or its text
   * comes out empty, nothing is stored; otherwise it replaces the chat's entry
   * and carries a summary.
   */
  lemma DocumentStoredOrRefused(s: Services, docs: Documents, m: TgMessage, now: string)
    requires m.document.Some? && m.chatId.Some?
    requires AdmitDocument(m.document.value).Admitted?
    requires s.download(AdmitDocument(m.document.value).fileId).Some?
    ensures var a := AdmitDocument(m.document.value);
            var outcome := DocumentOutcomeOf(s, s.download(a.fileId).value, a.filename, now);
            var chat := IntToString(m.chatId.value);
            var docs' := DocumentTurn(s, docs, m, now).1;
            DocumentTurn(s, docs, m, now).0 == DocumentReply(outcome, a.filename)
            && (!outcome.Stored? ==> docs' == docs)
            && (outcome.Stored? ==> docs' == docs[chat := outcome.info] && docs'[chat].summary.Some?)
  {
    var a := AdmitDocument(m.document.value);
    var outcome := DocumentOutcomeOf(s, s.download(a.fileId).value, a.filename, now);
    var chat := IntToString(m.chatId.value);
    assert DocumentTurn(s, docs, m, now) == (DocumentReply(outcome, a.filename), StoreOutcome(docs, chat, outcome));
  }

  /** Once a document is stored for a chat, the chat's system message ends with that document's block. */
  lemma StoredDocumentInPrompt(docs: Documents, chat: string, info: DocInfo, userName: string, now: string)
    requires chat != ""
    ensures SystemPrompt(userName, Some(chat), docs[chat := info], now)[|BasePrompt(userName, now)|..]
            == DocumentBlock(info)
  {
  }

  /**
   * A photo message is answered as a text whose prompt holds the largest
   * photo's description and the caption (or the stock caption).
   */
  lemma ImageAnsweredWithBoth(s: Services, m: TgMessage)
    requires ImageAsText(s, m).Some?
    ensures var photo := SelectPhoto(m.photo.value).value;
            var image := s.download(photo.fileId.value).value;
            var caption := if m.caption.Some? then m.caption.value else DefaultCaption;
            var text := ImageAsText(s, m).value.text.value;
            (forall p :: p in m.photo.value ==> p.fileSize.value <= photo.fileSize.value)
            && OccursAt(text, s.analyzeImage(image, caption), |ImageHeader|)
            && OccursAt(text, caption, |text| - |caption|)
  {
    var photo := SelectPhoto(m.photo.value).value;
    var image := s.download(photo.fileId.value).value;
    var caption := CaptionOf(m);
    var description := s.analyzeImage(image, caption);
    ImagePromptCarriesBoth(description, caption);
  }

  /**
   * A fetched voice note from a named sender is answered in the chat's
   * session as its transcription: the model's answer to it is the reply,
   * and the transcription and the answer join the history.
   */
  lemma VoiceAnsweredAsTranscript(s: Services, docs: Documents, hs: Histories, m: TgMessage, now: string)
    requires VoiceFetched(s, m) && m.chatId.Some? && m.firstName.Some?
    ensures var sid := IntToString(m.chatId.value);
            var said := Transcript(s, m);
            var history := HistoryOf(hs, sid);
            var answer := s.chat(SystemPrompt(FirstWord(m.firstName.value), Some(sid), docs, now), history, said);
            var r := VoiceTurn(s, docs, hs, m, now);
            (answer.Some? ==> r == (answer.value, hs[sid := history + [HumanMessage(said), AIMessage(answer.value)]]))
            && (answer.None? ==> r == (TextErrorReply, hs[sid := history]))
  {
    var t := m.(text := Some(Transcript(s, m)));
    assert TextSession(t) == Some(IntToString(m.chatId.value));
  }

  /**
   * Once a document message has been stored for a chat, the next text turn in
   * that chat asks the model with a system message that ends with the
   * document's block, and the model's answer is the reply.
   */
  lemma StoredDocumentReachesModel(s: Services, docs: Documents, hs: Histories, m: TgMessage, t: TgMessage,
                                   now: string, later: string)
    requires m.document.Some? && m.chatId.Some?
    requires AdmitDocument(m.document.value).Admitted?
    requires s.download(AdmitDocument(m.document.value).fileId).Some?
    requires var a := AdmitDocument(m.document.value);
             DocumentOutcomeOf(s, s.download(a.fileId).value, a.filename, now).Stored?
    requires TextSession(t) == Some(IntToString(m.chatId.value))
    ensures var a := AdmitDocument(m.document.value);
            var info := DocumentOutcomeOf(s, s.download(a.fileId).value, a.filename, now).info;
            var chat := IntToString(m.chatId.value);
            var docs' := DocumentTurn(s, docs, m, now).1;
            var userName := FirstWord(t.firstName.value);
            var system := SystemPrompt(userName, Some(chat), docs', later);
            var answer := s.chat(system, HistoryOf(hs, chat), t.text.value);
            system[|BasePrompt(userName, later)|..] == DocumentBlock(info)
            && TextTurn(s, docs', hs, t, later).0 == (if answer.Some? then answer.value else TextErrorReply)
  {
    var a := AdmitDocument(m.document.value);
    var info := DocumentOutcomeOf(s, s.download(a.fileId).value, a.filename, now).info;
    var chat := IntToString(m.chatId.value);
    DocumentStoredOrRefused(s, docs, m, now);
    var docs' := DocumentTurn(s, docs, m, now).1;
    assert docs' == docs[chat := info];
    StoredDocumentInPrompt(docs, chat, info, FirstWord(t.firstName.value), later);
    TextTurnReply(s, docs', hs, t, later);
  }

  /** A text turn's reply is the model's answer, or the error reply when the model fails. */
  lemma TextTurnReply(s: Services, docs: Documents, hs: Histories, t: TgMessage, now: string)
    requires TextSession(t).Some?
    ensures var sid := TextSession(t).value;
            var answer := s.chat(SystemPrompt(FirstWord(t.firstName.value), Some(sid), docs, now), HistoryOf(hs, sid), t.text.value);
            TextTurn(s, docs, hs, t, now).0 == (if answer.Some? then answer.value else TextErrorReply)
  {
  }
}
