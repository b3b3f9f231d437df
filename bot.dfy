/**
 * `WizzyBot`'s in-process state and the handlers that change it: a chat
 * history object per session, created on first use, and the document
 * attached to each chat. Every method is proved against its function in the
 * Handlers module.
 */
module Bot {
  import opened Common
  import opened Strings
  import opened Messages
  import opened App
  import opened Handlers

  /** LangChain's in-memory `ChatMessageHistory`. */
  class ChatMessageHistory {
    var messages: seq<Message>

    constructor ()
      ensures messages == []
    {
      messages := [];
    }
  }

  class WizzyBot {
    const services: Services
    /** `chat_histories`. */
    var chatHistories: map<string, ChatMessageHistory>
    /** `document_contexts`. */
    var documentContexts: map<string, DocInfo>

    /** Each session has its own history object. */
    ghost predicate Valid()
      reads this
    {
      forall k, k' :: k in chatHistories && k' in chatHistories && k != k' ==> chatHistories[k] != chatHistories[k']
    }

    /** The messages each session's history holds. */
    ghost function Histories(): Histories
      reads this, chatHistories.Values
    {
      map k | k in chatHistories :: chatHistories[k].messages
    }

    constructor (services: Services)
      ensures this.services == services
      ensures Valid() && chatHistories == map[] && documentContexts == map[]
    {
      this.services := services;
      chatHistories := map[];
      documentContexts := map[];
    }

    /**
     * `get_session_history`: the session's history object, created empty on
     * first use; asking again returns the same object.
     */
    method GetSessionHistory(sessionId: string) returns (history: ChatMessageHistory)
      requires Valid()
      modifies this
      ensures Valid()
      ensures sessionId in chatHistories && chatHistories[sessionId] == history
      ensures sessionId in old(chatHistories) ==> history == old(chatHistories)[sessionId]
      ensures sessionId !in old(chatHistories) ==> fresh(history)
      ensures chatHistories == old(chatHistories)[sessionId := history]
      ensures Histories() == old(Histories())[sessionId := HistoryOf(old(Histories()), sessionId)]
      ensures documentContexts == old(documentContexts)
    {
      if sessionId !in chatHistories {
        var created := new ChatMessageHistory();
        chatHistories := chatHistories[sessionId := created];
      }
      history := chatHistories[sessionId];
    }

    /** `create_system_message`, reading the attached documents. */
    function CreateSystemMessage(userName: string, chatId: Option<string>, now: string): (r: string)
      reads this
      ensures r == SystemPrompt(userName, chatId, documentContexts, now)
    {
      SystemPrompt(userName, chatId, documentContexts, now)
    }

    /** `process_text_message`, including the history the chain keeps for the session. */
    method ProcessTextMessage(m: TgMessage, now: string) returns (reply: string)
      requires Valid()
      modifies this, chatHistories.Values
      ensures Valid()
      ensures (reply, Histories()) == TextTurn(services, old(documentContexts), old(Histories()), m, now)
      ensures documentContexts == old(documentContexts)
      ensures forall k :: k in old(chatHistories) ==> k in chatHistories && chatHistories[k] == old(chatHistories)[k]
    {
      if m.chatId.None? || m.firstName.None? || m.text.None? {
        return TextErrorReply;
      }
      var chatId := IntToString(m.chatId.value);
      var userName := FirstWord(m.firstName.value);
      var text := m.text.value;
      var system := CreateSystemMessage(userName, Some(chatId), now);
      ghost var before := Histories();
      var history := GetSessionHistory(chatId);
      ghost var fetched := Histories();
      assert history.messages == HistoryOf(before, chatId) by {
        assert fetched[chatId] == history.messages;
      }
      assert system == SystemPrompt(userName, Some(chatId), old(documentContexts), now);
      reply := InvokeWithHistory(chatId, history, system, text);
      match services.chat(system, HistoryOf(before, chatId), text) {
        case None =>
        case Some(answer) =>
          UpdateTwice(before, chatId, HistoryOf(before, chatId), HistoryOf(before, chatId) + [HumanMessage(text), AIMessage(answer)]);
      }
    }

    /**
     * The chain wrapped in the session's history: the model sees the system
     * message, the history and the text, and on success the text and the
     * answer are appended to that history; on failure it is left as it was.
     */
    method InvokeWithHistory(sessionId: string, history: ChatMessageHistory, system: string, text: string) returns (reply: string)
      requires Valid() && sessionId in chatHistories && chatHistories[sessionId] == history
      modifies history
      ensures Valid()
      ensures services.chat(system, old(history.messages), text).None? ==>
        reply == TextErrorReply && Histories() == old(Histories())
      ensures services.chat(system, old(history.messages), text).Some? ==>
        reply == services.chat(system, old(history.messages), text).value
        && Histories() == old(Histories())[sessionId := old(history.messages) + [HumanMessage(text), AIMessage(reply)]]
    {
      match services.chat(system, history.messages, text) {
        case None =>
          reply := TextErrorReply;
        case Some(answer) =>
          ghost var before := Histories();
          history.messages := history.messages + [HumanMessage(text), AIMessage(answer)];
          reply := answer;
          forall k | k in chatHistories && k != sessionId ensures chatHistories[k] != history {
          }
          assert Histories() == before[sessionId := history.messages];
      }
    }

    /** `process_audio_message`: the transcription is answered as a text message. */
    method ProcessAudioMessage(m: TgMessage, now: string) returns (reply: string)
      requires Valid()
      modifies this, chatHistories.Values
      ensures Valid()
      ensures (reply, Histories()) == VoiceTurn(services, old(documentContexts), old(Histories()), m, now)
      ensures documentContexts == old(documentContexts)
    {
      if m.voice.None? || m.voice.value.fileId.None? {
        return VoiceErrorReply;
      }
      var audio := services.download(m.voice.value.fileId.value);
      if audio.None? {
        return VoiceErrorReply;
      }
      var transcribed := services.transcribe(audio.value);
      reply := ProcessTextMessage(m.(text := Some(transcribed)), now);
    }

    /**
     * `process_image_message`: the largest photo is described and the
     * description and caption are answered as a text message.
     */
    method ProcessImageMessage(m: TgMessage, now: string) returns (reply: string)
      requires Valid()
      modifies this, chatHistories.Values
      ensures Valid()
      ensures (reply, Histories()) == ImageTurn(services, old(documentContexts), old(Histories()), m, now)
      ensures documentContexts == old(documentContexts)
    {
      if m.photo.None? {
        return ImageErrorReply;
      }
      var largest := SelectPhoto(m.photo.value);
      if largest.None? || largest.value.fileId.None? {
        return ImageErrorReply;
      }
      var image := services.download(largest.value.fileId.value);
      if image.None? {
        return ImageErrorReply;
      }
      var caption := CaptionOf(m);
      var description := services.analyzeImage(image.value, caption);
      reply := ProcessTextMessage(m.(text := Some(ImagePrompt(description, caption))), now);
    }

    /**
     * `process_document`: dispatches on the extension, refuses empty text,
     * and otherwise replaces the chat's document with the text and its summary.
     */
    method ProcessDocument(data: Bytes, filename: string, chatId: string, now: string) returns (reply: string)
      modifies this`documentContexts
      ensures reply == DocumentReply(DocumentOutcomeOf(services, data, filename, now), filename)
      ensures documentContexts == StoreOutcome(old(documentContexts), chatId, DocumentOutcomeOf(services, data, filename, now))
    {
      ghost var outcome := DocumentOutcomeOf(services, data, filename, now);
      ghost var docs := documentContexts;
      var extension := ExtensionOf(filename);
      var text;
      if extension == ".pdf" {
        text := services.extractPdf(data);
      } else if extension == ".docx" {
        text := services.extractDocx(data);
      } else if extension == ".txt" {
        text := services.extractTxt(data);
      } else {
        assert outcome == Unsupported(extension);
        reply := UnsupportedReply(extension);
        DocumentReplyCases(outcome, filename);
        assert StoreOutcome(docs, chatId, outcome) == docs;
        return;
      }
      assert text == ExtractText(services, DocKindOf(extension).value, data);
      if text == "" {
        assert outcome == NoText;
        reply := NoTextReply(filename);
        DocumentReplyCases(outcome, filename);
        assert StoreOutcome(docs, chatId, outcome) == docs;
        return;
      }
      var summary := SummaryOf(services, text);
      var info := DocInfo(filename, text, Some(summary), now);
      assert outcome == Stored(info) && info.summary.GetOr("") == summary;
      documentContexts := documentContexts[chatId := info];
      assert documentContexts == StoreOutcome(docs, chatId, outcome);
      reply := StoredReply(filename, summary);
      DocumentReplyCases(outcome, filename);
    }

    /** `process_document_message`: admission checks and the download, then `process_document`. */
    method ProcessDocumentMessage(m: TgMessage, now: string) returns (reply: string)
      modifies this`documentContexts
      ensures (reply, documentContexts) == DocumentTurn(services, old(documentContexts), m, now)
    {
      if m.document.None? {
        return DocumentErrorReply;
      }
      var document := m.document.value;
      if document.fileId.None? {
        return DocumentErrorReply;
      }
      var filename := document.fileName.GetOr(UnknownDocument);
      if document.fileSize.GetOr(0) > MaxDocumentSize {
        return TooLargeReply;
      }
      var data := services.download(document.fileId.value);
      if data.None? || m.chatId.None? {
        return DocumentErrorReply;
      }
      reply := ProcessDocument(data.value, filename, IntToString(m.chatId.value), now);
    }

    /** `send_audio_response`: what reaches the chat is the message `AudioResponse` describes. */
    method SendAudioResponse(chatId: int, text: string) returns (sent: Outbound)
      ensures sent == AudioResponse(services, chatId, text)
    {
      sent := AudioResponse(services, chatId, text);
    }

    /** `process_webhook`: one handler per update, and what it sends back. */
    method ProcessWebhook(u: Update, now: string) returns (sent: Option<Outbound>)
      requires Valid()
      modifies this, chatHistories.Values
      ensures Valid()
      ensures Effect(sent, documentContexts, Histories())
           == Webhook(services, old(documentContexts), old(Histories()), u, now)
    {
      var message := MessageOf(u);
      var chatId := message.chatId;
      if chatId.None? || chatId.value == 0 {
        return None;
      }
      if message.voice.Some? {
        assert RouteOf(u) == VoiceRoute;
        var responseText := ProcessAudioMessage(message, now);
        var out := SendAudioResponse(chatId.value, responseText);
        sent := Some(out);
      } else if message.photo.Some? {
        assert RouteOf(u) == PhotoRoute;
        var responseText := ProcessImageMessage(message, now);
        sent := Some(SendText(chatId.value, responseText));
      } else if message.document.Some? {
        ghost var before := Histories();
        assert RouteOf(u) == DocumentRoute;
        var responseText := ProcessDocumentMessage(message, now);
        sent := Some(SendText(chatId.value, responseText));
        assert Histories() == before;
      } else if message.text.Some? {
        assert RouteOf(u) == TextRoute;
        var responseText := ProcessTextMessage(message, now);
        if ShouldRespondWithAudio(message) {
          // A voice message never reaches this branch: the first branch took it.
          assert false;
        }
        sent := Some(SendText(chatId.value, responseText));
      } else {
        sent := None;
      }
    }
  }
}
