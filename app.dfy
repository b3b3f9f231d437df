/**
 * The decisions and text the bot's request handling is built from: the shape
 * of a Telegram update, which handler an update goes to, the photo chosen
 * from a photo message, the document admission checks, the file-extension
 * dispatch, and the prompts and replies the bot composes. Everything remote
 * (Telegram, the speech, vision and chat models, text extraction) is a field
 * of `Services`.
 */
module App {
  import opened Common
  import opened Strings
  import opened Messages

  // ---------------------------------------------------------------------------
  // Telegram payloads. A field the update may omit is an `Option`.

  datatype Voice = Voice(fileId: Option<string>)
  datatype PhotoSize = PhotoSize(fileId: Option<string>, fileSize: Option<int>)
  datatype TgDocument = TgDocument(fileId: Option<string>, fileName: Option<string>, fileSize: Option<int>)

  /** A message: `chat.id`, `from.first_name`, and the content fields the bot reads. */
  datatype TgMessage = TgMessage(
    chatId: Option<int>,
    firstName: Option<string>,
    text: Option<string>,
    caption: Option<string>,
    voice: Option<Voice>,
    photo: Option<seq<PhotoSize>>,
    document: Option<TgDocument>)

  /** A webhook update; `message` may be missing. */
  datatype Update = Update(message: Option<TgMessage>)

  /** What `update.get('message', {})` yields when there is no message. */
  const EmptyMessage := TgMessage(None, None, None, None, None, None, None)

  function MessageOf(u: Update): TgMessage {
    u.message.GetOr(EmptyMessage)
  }

  /** The chat id as Python's truthiness sees it: present and not zero. */
  predicate HasChat(m: TgMessage) {
    m.chatId.Some? && m.chatId.value != 0
  }

  // ---------------------------------------------------------------------------
  // Routing

  datatype Route = Ignored | VoiceRoute | PhotoRoute | DocumentRoute | TextRoute | Unhandled

  /** `should_respond_with_audio`: the message carries a voice note. */
  predicate ShouldRespondWithAudio(m: TgMessage) {
    m.voice.Some?
  }

  /**
   * `process_webhook`'s branch: nothing without a chat id; otherwise exactly
   * one handler, voice before photo before document before text.
   */
  function RouteOf(u: Update): (r: Route)
    ensures r == Ignored <==> !HasChat(MessageOf(u))
    ensures r == VoiceRoute <==> HasChat(MessageOf(u)) && MessageOf(u).voice.Some?
    ensures r == PhotoRoute <==> HasChat(MessageOf(u)) && MessageOf(u).voice.None? && MessageOf(u).photo.Some?
    ensures r == DocumentRoute <==>
      HasChat(MessageOf(u)) && MessageOf(u).voice.None? && MessageOf(u).photo.None? && MessageOf(u).document.Some?
    ensures r == TextRoute <==>
      HasChat(MessageOf(u)) && MessageOf(u).voice.None? && MessageOf(u).photo.None? && MessageOf(u).document.None?
      && MessageOf(u).text.Some?
  {
    var m := MessageOf(u);
    if !HasChat(m) then Ignored
    else if m.voice.Some? then VoiceRoute
    else if m.photo.Some? then PhotoRoute
    else if m.document.Some? then DocumentRoute
    else if m.text.Some? then TextRoute
    else Unhandled
  }

  /** The voice branch is the only one that answers with audio: a text-routed message never asks for it. */
  lemma OnlyVoiceAnswersWithAudio(u: Update)
    ensures RouteOf(u) != VoiceRoute ==> HasChat(MessageOf(u)) ==> !ShouldRespondWithAudio(MessageOf(u))
    ensures RouteOf(u) == TextRoute ==> !ShouldRespondWithAudio(MessageOf(u))
  {
  }

  // ---------------------------------------------------------------------------
  // Photo choice

  /** The position Python's `max` picks: a largest size, the first one on ties. */
  function MaxSizeIndex(sizes: seq<int>): (r: nat)
    requires |sizes| > 0
    ensures r < |sizes|
    ensures forall k :: 0 <= k < |sizes| ==> sizes[k] <= sizes[r]
    ensures forall k :: 0 <= k < r ==> sizes[k] < sizes[r]
  {
    if |sizes| == 1 then 0
    else
      var j := MaxSizeIndex(sizes[..|sizes| - 1]);
      if sizes[|sizes| - 1] > sizes[j] then |sizes| - 1 else j
  }

  /** Every photo has a size. */
  predicate AllSized(photos: seq<PhotoSize>) {
    forall k :: 0 <= k < |photos| ==> photos[k].fileSize.Some?
  }

  function Sizes(photos: seq<PhotoSize>): (s: seq<int>)
    requires AllSized(photos)
    ensures |s| == |photos|
    ensures forall k :: 0 <= k < |photos| ==> s[k] == photos[k].fileSize.value
  {
    seq(|photos|, k requires 0 <= k < |photos| && AllSized(photos) => photos[k].fileSize.value)
  }

  /**
   * `max(photos, key=lambda x: x['file_size'])`: none for an empty list or a
   * photo without a size (Python raises); otherwise the first largest photo.
   */
  function SelectPhoto(photos: seq<PhotoSize>): (r: Option<PhotoSize>)
    ensures r.None? <==> photos == [] || !AllSized(photos)
    ensures r.Some? ==> r.value in photos
    ensures r.Some? ==> forall p :: p in photos ==> p.fileSize.value <= r.value.fileSize.value
  {
    if photos == [] || !AllSized(photos) then None
    else
      var i := MaxSizeIndex(Sizes(photos));
      Some(photos[i])
  }

  // ---------------------------------------------------------------------------
  // Prompts

  /** `s.split(' ')[0]`: everything before the first space. */
  function FirstWord(s: string): (r: string)
    ensures |r| <= |s| && r == s[..|r|]
    ensures forall k :: 0 <= k < |r| ==> r[k] != ' '
    ensures |r| < |s| ==> s[|r|] == ' '
  {
    if s == [] || s[0] == ' ' then [] else [s[0]] + FirstWord(s[1..])
  }

  const DefaultCaption: string := "Describe this image in detail."
  const ImageHeader: string := "# The user provided the following image and text.\n\n## Image Description:\n"
  const UserMessageHeader: string := "\n\n## User Message:\n"

  /** The caption a photo message is analysed and answered with. */
  function CaptionOf(m: TgMessage): string {
    m.caption.GetOr(DefaultCaption)
  }

  /** The prompt `process_image_message` passes on as the message text. */
  function ImagePrompt(description: string, caption: string): string {
    ImageHeader + description + UserMessageHeader + caption
  }

  /** The image prompt carries the description and then the caption, each verbatim. */
  lemma ImagePromptCarriesBoth(description: string, caption: string)
    ensures OccursAt(ImagePrompt(description, caption), description, |ImageHeader|)
    ensures OccursAt(ImagePrompt(description, caption), caption, |ImageHeader| + |description| + |UserMessageHeader|)
  {
  }

  const IdentityPrompt: string :=
    "You are a helpful assistant called Wizzy.\nRespond in a natural funny tone.\nBe sarcastic when required.\nDon't give very long messages.\n\nYou are currently talking to "

  /** The part of the system message every conversation gets. */
  function BasePrompt(userName: string, now: string): string {
    IdentityPrompt + userName + ".\n\nThe current date and time is " + now
  }

  /** A stored document: `filename`, `content`, `summary` (possibly missing), `uploaded_at`. */
  datatype DocInfo = DocInfo(filename: string, content: string, summary: Option<string>, uploadedAt: string)

  const DefaultSummary: string := "Content available for discussion"
  const DocumentIntro: string := "\n\n## Document Context Available:\nThe user has uploaded a document: "
  const SummaryIntro: string := "\nYou can reference and answer questions about this document.\nDocument summary: "

  function DocumentBlock(doc: DocInfo): string {
    DocumentIntro + doc.filename + SummaryIntro + doc.summary.GetOr(DefaultSummary)
  }

  /** `chat_id and chat_id in self.document_contexts`. */
  predicate HasDocument(chatId: Option<string>, docs: map<string, DocInfo>) {
    chatId.Some? && chatId.value != "" && chatId.value in docs
  }

  /** `create_system_message`; `now` is the clock reading. */
  function SystemPrompt(userName: string, chatId: Option<string>, docs: map<string, DocInfo>, now: string): string {
    BasePrompt(userName, now) + if HasDocument(chatId, docs) then DocumentBlock(docs[chatId.value]) else ""
  }

  /**
   * The system message always names the user, and it goes on past the clock
   * reading exactly when a document is attached to the chat.
   */
  lemma SystemPromptShape(userName: string, chatId: Option<string>, docs: map<string, DocInfo>, now: string)
    ensures OccursAt(SystemPrompt(userName, chatId, docs, now), userName, |IdentityPrompt|)
    ensures StartsWith(SystemPrompt(userName, chatId, docs, now), BasePrompt(userName, now))
    ensures |SystemPrompt(userName, chatId, docs, now)| > |BasePrompt(userName, now)| <==> HasDocument(chatId, docs)
  {
    var p := SystemPrompt(userName, chatId, docs, now);
    var b := BasePrompt(userName, now);
    assert p[..|b|] == b;
    assert b[|IdentityPrompt|..|IdentityPrompt| + |userName|] == userName;
    assert p[|IdentityPrompt|..|IdentityPrompt| + |userName|] == b[|IdentityPrompt|..|IdentityPrompt| + |userName|];
  }

  /** With a document attached, what follows the base prompt is that document's block. */
  lemma SystemPromptBlock(userName: string, chatId: string, docs: map<string, DocInfo>, now: string)
    requires chatId != "" && chatId in docs
    ensures SystemPrompt(userName, Some(chatId), docs, now)[|BasePrompt(userName, now)|..] == DocumentBlock(docs[chatId])
  {
  }

  /**
   * A document block holds the file name verbatim and ends with the summary,
   * or with the stock text when the document has none.
   */
  lemma DocumentBlockContents(doc: DocInfo)
    ensures OccursAt(DocumentBlock(doc), doc.filename, |DocumentIntro|)
    ensures var s := doc.summary.GetOr(DefaultSummary);
            OccursAt(DocumentBlock(doc), s, |DocumentBlock(doc)| - |s|)
  {
    var p := DocumentBlock(doc);
    var s := doc.summary.GetOr(DefaultSummary);
    assert p[|DocumentIntro|..|DocumentIntro| + |doc.filename|] == doc.filename;
    assert p[|p| - |s|..] == s;
  }

  // ---------------------------------------------------------------------------
  // Documents

  const MaxDocumentSize: int := 20 * 1024 * 1024
  const UnknownDocument: string := "unknown_document"

  datatype Admission = MissingFileId | TooLarge | Admitted(fileId: string, filename: string)

  /**
   * The checks `process_document_message` makes before downloading: the file
   * id is read first, a missing name becomes "unknown_document", a missing size
   * counts as 0, and anything over 20 MB is turned away.
   */
  function AdmitDocument(d: TgDocument): (r: Admission)
    ensures r == MissingFileId <==> d.fileId.None?
    ensures r == TooLarge <==> d.fileId.Some? && d.fileSize.Some? && d.fileSize.value > 20971520
    ensures r.Admitted? ==> r.fileId == d.fileId.value
    ensures r.Admitted? ==> r.filename == if d.fileName.Some? then d.fileName.value else "unknown_document"
  {
    if d.fileId.None? then MissingFileId
    else if d.fileSize.GetOr(0) > MaxDocumentSize then TooLarge
    else Admitted(d.fileId.value, d.fileName.GetOr(UnknownDocument))
  }

  /** Position of the last `c` in `s`. */
  function LastIndexOf(s: string, c: char): (r: Option<nat>)
    ensures r.Some? ==> r.value < |s| && s[r.value] == c && forall k :: r.value < k < |s| ==> s[k] != c
    ensures r.None? ==> forall k :: 0 <= k < |s| ==> s[k] != c
  {
    if s == [] then None
    else if s[|s| - 1] == c then Some(|s| - 1)
    else LastIndexOf(s[..|s| - 1], c)
  }

  /** `Path(filename).name`: what follows the last `/`. */
  function BaseName(filename: string): string {
    match LastIndexOf(filename, '/')
    case None => filename
    case Some(i) => filename[i + 1..]
  }

  /** `Path(filename).suffix.lower()`: from the last dot on, unless the dot starts or ends the name. */
  function ExtensionOf(filename: string): (r: string)
    ensures r == [] || r[0] == '.'
  {
    var name := BaseName(filename);
    match LastIndexOf(name, '.')
    case Some(i) =>
      if 0 < i < |name| - 1 then AsciiLower(name[i..]) else ""
    case None => ""
  }

  /** The base name is the tail of the file name after its last `/`, or all of it. */
  lemma BaseNameIsLastComponent(filename: string)
    ensures var b := BaseName(filename);
            |b| <= |filename| && b == filename[|filename| - |b|..]
            && (forall k :: 0 <= k < |b| ==> b[k] != '/')
            && (|b| < |filename| ==> filename[|filename| - |b| - 1] == '/')
  {
  }

  /**
   * The suffix is the lower-cased base name from its last dot on, when that dot
   * neither starts nor ends the base name, and empty otherwise.
   */
  lemma ExtensionIsLastDotSuffix(filename: string, i: nat)
    requires var b := BaseName(filename); 0 < i < |b| - 1 && b[i] == '.'
    requires var b := BaseName(filename); forall k :: i < k < |b| ==> b[k] != '.'
    ensures ExtensionOf(filename) == AsciiLower(BaseName(filename)[i..])
  {
  }

  /** A non-empty suffix comes from such a dot. */
  lemma ExtensionHasDot(filename: string)
    requires ExtensionOf(filename) != []
    ensures var b := BaseName(filename);
            exists i :: (0 < i < |b| - 1 && b[i] == '.' && (forall k :: i < k < |b| ==> b[k] != '.')
                         && ExtensionOf(filename) == AsciiLower(b[i..]))
  {
    var b := BaseName(filename);
    var i := LastIndexOf(b, '.').value;
    assert 0 < i < |b| - 1 && b[i] == '.';
  }

  datatype DocKind = Pdf | Docx | Txt

  function DocKindOf(extension: string): Option<DocKind> {
    if extension == ".pdf" then Some(Pdf)
    else if extension == ".docx" then Some(Docx)
    else if extension == ".txt" then Some(Txt)
    else None
  }

  lemma LastIndexOfLower(s: string, c: char)
    requires c == '.' || c == '/'
    ensures LastIndexOf(AsciiLower(s), c) == LastIndexOf(s, c)
  {
  }

  lemma AsciiLowerSlice(s: string, i: nat)
    requires i <= |s|
    ensures AsciiLower(s)[i..] == AsciiLower(s[i..])
    ensures AsciiLower(AsciiLower(s)) == AsciiLower(s)
  {
  }

  lemma BaseNameLower(filename: string)
    ensures BaseName(AsciiLower(filename)) == AsciiLower(BaseName(filename))
  {
  }

  /** The extension is found the same way whatever the case of the file name. */
  lemma ExtensionIgnoresCase(filename: string)
    ensures ExtensionOf(AsciiLower(filename)) == ExtensionOf(filename)
  {
    var name := BaseName(filename);
    var lname := BaseName(AsciiLower(filename));
    BaseNameLower(filename);
    assert lname == AsciiLower(name);
    LastIndexOfLower(name, '.');
    match LastIndexOf(name, '.') {
      case None =>
      case Some(j) =>
        if 0 < j < |name| - 1 {
          AsciiLowerSlice(name, j);
          AsciiLowerSlice(name[j..], 0);
          assert ExtensionOf(AsciiLower(filename)) == AsciiLower(lname[j..]);
        }
    }
  }

  const SummaryRequest: string := "Please provide a brief summary (2-3 sentences) of this document:\n\n"
  const SummaryCap: nat := 2000

  /** Python's `s[:n]`. */
  function Take(s: string, n: nat): (r: string)
    ensures |r| <= n && |r| <= |s| && r == s[..|r|]
    ensures |s| <= n ==> r == s
    ensures |s| > n ==> r == s[..n]
  {
    if |s| <= n then s else s[..n]
  }

  /** The summary request: at most the first 2000 characters of the text, then an ellipsis. */
  function SummaryPrompt(text: string): string {
    SummaryRequest + Take(text, SummaryCap) + "..."
  }

  /**
   * The summary request opens with the instruction, is bounded whatever the
   * length of the document, and carries a short document whole and a long
   * one's first 2000 characters.
   */
  lemma SummaryPromptShape(text: string)
    ensures StartsWith(SummaryPrompt(text), SummaryRequest)
    ensures |SummaryPrompt(text)| <= |SummaryRequest| + SummaryCap + 3
    ensures |text| <= SummaryCap ==> OccursAt(SummaryPrompt(text), text, |SummaryRequest|)
    ensures |text| > SummaryCap ==> OccursAt(SummaryPrompt(text), text[..SummaryCap], |SummaryRequest|)
  {
  }

  /** The summary used when the chat model fails: `Document with {len(text.split())} words uploaded.` */
  function FallbackSummary(text: string): string {
    "Document with " + NatToString(WordCount(text)) + " words uploaded."
  }

  /** The fallback summary reports the word count: reading its number back gives the count. */
  lemma FallbackSummaryCount(text: string)
    ensures var s := FallbackSummary(text);
            var digits := s[14..|s| - 16];
            (forall k :: 0 <= k < |digits| ==> '0' <= digits[k] <= '9') && ParseDigits(digits) == WordCount(text)
  {
    var s := FallbackSummary(text);
    var n := NatToString(WordCount(text));
    assert s[14..|s| - 16] == n;
    NatToStringRoundTrip(WordCount(text));
  }

  // ---------------------------------------------------------------------------
  // The outside world

  /**
   * The remote services and libraries the handlers call. `None` stands for a
   * call that raises; transcription and image analysis catch their own errors
   * and always return text. `deliverAudio` says whether Telegram's `sendAudio`
   * upload of the speech succeeds.
   */
  datatype Services = Services(
    download: string -> Option<Bytes>,
    transcribe: Bytes -> string,
    analyzeImage: (Bytes, string) -> string,
    extractPdf: Bytes -> string,
    extractDocx: Bytes -> string,
    extractTxt: Bytes -> string,
    summarize: string -> Option<string>,
    chat: (string, seq<Message>, string) -> Option<string>,
    speech: string -> Option<Bytes>,
    deliverAudio: (int, Bytes) -> bool)

  function ExtractText(s: Services, kind: DocKind, data: Bytes): string {
    match kind
    case Pdf => s.extractPdf(data)
    case Docx => s.extractDocx(data)
    case Txt => s.extractTxt(data)
  }

  /** The chat model's summary of the text, or the word-count fallback when the call fails. */
  function SummaryOf(s: Services, text: string): (r: string)
    ensures s.summarize(SummaryPrompt(text)).None? ==> r == FallbackSummary(text)
    ensures s.summarize(SummaryPrompt(text)).Some? ==> r == s.summarize(SummaryPrompt(text)).value
  {
    match s.summarize(SummaryPrompt(text))
    case Some(summary) => summary
    case None => FallbackSummary(text)
  }

  datatype DocumentOutcome = Unsupported(extension: string) | NoText | Stored(info: DocInfo)

  /**
   * What `process_document` decides: an unknown extension and empty text are
   * refused; otherwise the text and its summary are kept under the file name.
   */
  function DocumentOutcomeOf(s: Services, data: Bytes, filename: string, now: string): (r: DocumentOutcome)
    ensures r.Unsupported? <==> DocKindOf(ExtensionOf(filename)).None?
    ensures r.Unsupported? ==> r.extension == ExtensionOf(filename)
    ensures r.NoText? <==>
      (DocKindOf(ExtensionOf(filename)).Some? && ExtractText(s, DocKindOf(ExtensionOf(filename)).value, data) == "")
    ensures r.Stored? ==> r.info.filename == filename && r.info.content != "" && r.info.uploadedAt == now
    ensures r.Stored? ==> r.info.content == ExtractText(s, DocKindOf(ExtensionOf(filename)).value, data)
    ensures r.Stored? ==> r.info.summary == Some(SummaryOf(s, r.info.content))
  {
    var extension := ExtensionOf(filename);
    match DocKindOf(extension)
    case None => Unsupported(extension)
    case Some(kind) =>
      var text := ExtractText(s, kind, data);
      if text == "" then NoText
      else Stored(DocInfo(filename, text, Some(SummaryOf(s, text)), now))
  }

  /** The replies of `process_document`: an unsupported format, no text, and a stored document. */
  function UnsupportedReply(extension: string): string {
    "Unsupported document format: " + extension + ". I support PDF, DOCX, and TXT files."
  }

  function NoTextReply(filename: string): string {
    "Sorry, I couldn't extract any text from " + filename + ". The document might be empty or corrupted."
  }

  function StoredReply(filename: string, summary: string): string {
    "\U{1F4C4} Great! I've processed your document '" + filename
    + "' and I'm ready to answer questions about it!\n\n\U{1F4DD} **Summary:** " + summary
    + "\n\nJust ask me anything about the document!"
  }

  /** The reply `process_document` returns for an outcome. */
  function DocumentReply(outcome: DocumentOutcome, filename: string): string {
    match outcome
    case Unsupported(extension) => UnsupportedReply(extension)
    case NoText => NoTextReply(filename)
    case Stored(info) => StoredReply(filename, info.summary.GetOr(""))
  }

  /** Which reply each outcome gets; a stored document is answered with its summary. */
  lemma DocumentReplyCases(outcome: DocumentOutcome, filename: string)
    ensures outcome.Unsupported? ==> DocumentReply(outcome, filename) == UnsupportedReply(outcome.extension)
    ensures outcome.NoText? ==> DocumentReply(outcome, filename) == NoTextReply(filename)
    ensures outcome.Stored? && outcome.info.summary.Some? ==>
      DocumentReply(outcome, filename) == StoredReply(filename, outcome.info.summary.value)
  {
  }

  const TooLargeReply: string := "Sorry, the document is too large. Please upload files smaller than 20MB."
  const DocumentErrorReply: string := "Sorry, I couldn't process your document. Please try again."
  const TextErrorReply: string := "Sorry, I encountered an error processing your message."
  const VoiceErrorReply: string := "Sorry, I couldn't process your voice message."
  const ImageErrorReply: string := "Sorry, I couldn't process your image."

  /** A message sent back to Telegram. */
  datatype Outbound = SendText(chatId: int, text: string) | SendAudio(chatId: int, audio: Bytes)

  /**
   * What `send_audio_response` delivers: the synthesised speech, or the text
   * when speech yields nothing or its upload fails.
   */
  function AudioResponse(s: Services, chatId: int, text: string): (r: Outbound)
    ensures r.chatId == chatId
    ensures r.SendText? <==>
      s.speech(text).None? || s.speech(text).value == [] || !s.deliverAudio(chatId, s.speech(text).value)
    ensures r.SendText? ==> r.text == text
    ensures r.SendAudio? ==> r.audio == s.speech(text).value
  {
    match s.speech(text)
    case Some(audio) =>
      if audio != [] && s.deliverAudio(chatId, audio) then SendAudio(chatId, audio) else SendText(chatId, text)
    case None => SendText(chatId, text)
  }
}
