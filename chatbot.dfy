/** The chat page (pages/ChatbotPage.tsx): a knowledge base of uploaded
    documents and reference links, the context text built from it, and the
    transcript with the assistant. */
module Chatbot {
  import opened Wrappers
  import opened Strings
  import opened Types
  import opened Browser
  import opened GeminiService

  /** The model's first message, which seeds every transcript. */
  const Greeting: ChatMessage := ChatMessage(Model,
    "Halo! Saya Asisten AI One Health. Unggah dokumen di sebelah kiri untuk " +
    "memberi saya basis pengetahuan, lalu ajukan pertanyaan tentang isinya.")

  /** The model message shown when the chat call fails. */
  const Apology: string := "Maaf, terjadi kesalahan. Coba lagi nanti."

  const FileNameLabel: string := "Nama File: "
  const DocumentsHeading: string := "Konten Dokumen:\n"
  const LinksHeading: string := "Tautan Referensi:\n"
  const PartSeparator: string := "\n\n---\n\n"

  /** A document of the knowledge base: the file name and its extracted text. */
  datatype Document = Document(name: string, content: string)

  // ----- reading uploaded files -----

  /** `file.name.split('.').pop()?.toLowerCase()`: the lower-cased text after
      the last dot, or the whole name when it has no dot. */
  function Extension(fileName: string): (r: string)
    ensures |r| <= |fileName|
    ensures r == ToLower(fileName[|fileName| - |r|..])
    ensures '.' !in r
    ensures |r| < |fileName| ==> fileName[|fileName| - |r| - 1] == '.'
    ensures '.' !in fileName ==> r == ToLower(fileName)
  {
    var pieces := Split(fileName, '.');
    SplitLastPiece(fileName, '.');
    var last := pieces[|pieces| - 1];
    var r := ToLower(last);
    assert forall i :: 0 <= i < |r| ==> r[i] == LowerChar(last[i]) && last[i] != '.';
    r
  }

  /** The three ways `onDrop` reads a file. */
  datatype FileKind = Pdf | Word | PlainText

  function KindOf(fileName: string): (k: FileKind)
    ensures k == Pdf <==> Extension(fileName) == "pdf"
    ensures k == Word <==> Extension(fileName) in {"docx", "doc"}
  {
    var extension := Extension(fileName);
    if extension == "pdf" then Pdf
    else if extension == "docx" || extension == "doc" then Word
    else PlainText
  }

  /** The extension of `prefix.ext`, for an `ext` without dots, is `ext`
      lower-cased, whatever the prefix holds. */
  lemma ExtensionAfterLastDot(prefix: string, ext: string)
    requires '.' !in ext
    ensures Extension(prefix + "." + ext) == ToLower(ext)
  {
    var s := prefix + "." + ext;
    var r := Extension(s);
    assert s[|prefix|] == '.';
    assert s[|s| - |r|..] == ext;
  }

  /** One PDF page: the strings of its text items joined by spaces. */
  function PageText(items: seq<string>): string {
    Join(items, " ")
  }

  function PageTexts(pages: seq<seq<string>>): (r: seq<string>)
    ensures |r| == |pages|
    ensures forall i :: 0 <= i < |r| ==> r[i] == PageText(pages[i])
  {
    if |pages| == 0 then [] else [PageText(pages[0])] + PageTexts(pages[1..])
  }

  /** The text of a PDF: its pages in order, separated by line breaks. */
  function PdfText(pages: seq<seq<string>>): string {
    Join(PageTexts(pages), "\n")
  }

  /** When no text item holds a line break, splitting the PDF text at line
      breaks gives back the pages, one piece each. */
  lemma PdfTextPages(pages: seq<seq<string>>)
    requires |pages| > 0
    requires forall i :: 0 <= i < |pages| ==> NoneContain(pages[i], '\n')
    ensures Split(PdfText(pages), '\n') == PageTexts(pages)
    ensures CountChar(PdfText(pages), '\n') == |pages| - 1
  {
    var texts := PageTexts(pages);
    forall i | 0 <= i < |texts|
      ensures '\n' !in texts[i]
    {
      JoinAvoids(pages[i], " ", '\n');
    }
    assert NoneContain(texts, '\n');
    SplitJoin(texts, '\n');
    JoinSeparatorCount(texts, '\n');
  }

  /** The foreign readers `onDrop` awaits, each yielding `None` when it
      throws: pdf.js (the text items of every page), mammoth (raw text) and
      `file.text()`. */
  datatype Readers = Readers(
    pdfPages: UploadedFile -> Option<seq<seq<string>>>,
    wordText: UploadedFile -> Option<string>,
    plainText: UploadedFile -> Option<string>)

  /** The untrimmed text `onDrop` extracts from a file, chosen by extension. */
  function FileContent(file: UploadedFile, readers: Readers): Option<string> {
    match KindOf(file.name)
    case Pdf =>
      (match readers.pdfPages(file)
       case Some(pages) => Some(PdfText(pages))
       case None => None)
    case Word => readers.wordText(file)
    case PlainText => readers.plainText(file)
  }

  /** The `try` block of `onDrop` for one file, up to the trim: dispatch on
      the extension and await the matching reader. */
  method ReadFile(file: UploadedFile, readers: Readers) returns (fileContent: Option<string>)
    ensures fileContent == FileContent(file, readers)
    ensures fileContent == ReadWith(readers)(file)
  {
    var extension := Extension(file.name);
    if extension == "pdf" {
      var pages := readers.pdfPages(file);
      fileContent := if pages.Some? then Some(PdfText(pages.value)) else None;
    } else if extension == "docx" || extension == "doc" {
      fileContent := readers.wordText(file);
    } else {
      fileContent := readers.plainText(file);
    }
  }

  /** `FileContent` with the readers fixed. */
  function ReadWith(readers: Readers): UploadedFile -> Option<string> {
    file => FileContent(file, readers)
  }

  /** The documents a drop of `files` adds, in order: one per file that could
      be read, with its name and trimmed text; a file that throws is skipped. */
  function Ingest(files: seq<UploadedFile>, read: UploadedFile -> Option<string>): (r: seq<Document>)
    ensures |r| <= |files|
  {
    if |files| == 0 then []
    else
      var first := match read(files[0])
        case Some(text) => [Document(files[0].name, Trim(text))]
        case None => [];
      first + Ingest(files[1..], read)
  }

  /** Dropping one file adds its document, or nothing when it cannot be read. */
  lemma IngestOne(file: UploadedFile, read: UploadedFile -> Option<string>)
    ensures read(file).Some? ==> Ingest([file], read) == [Document(file.name, Trim(read(file).value))]
    ensures read(file).None? ==> Ingest([file], read) == []
  {
    assert [file][1..] == [];
  }

  /** Dropping files in two batches adds what dropping them at once adds. */
  lemma {:induction false} IngestAppend(a: seq<UploadedFile>, b: seq<UploadedFile>, read: UploadedFile -> Option<string>)
    ensures Ingest(a + b, read) == Ingest(a, read) + Ingest(b, read)
  {
    if |a| == 0 {
      assert a + b == b;
    } else {
      assert (a + b)[1..] == a[1..] + b;
      IngestAppend(a[1..], b, read);
    }
  }

  /** When every file can be read, each yields its document, in file order. */
  lemma {:induction false} IngestAllRead(files: seq<UploadedFile>, read: UploadedFile -> Option<string>)
    requires forall i :: 0 <= i < |files| ==> read(files[i]).Some?
    ensures |Ingest(files, read)| == |files|
    ensures forall i :: 0 <= i < |files| ==>
      Ingest(files, read)[i] == Document(files[i].name, Trim(read(files[i]).value))
  {
    if |files| > 0 {
      IngestAllRead(files[1..], read);
      var rest := Ingest(files[1..], read);
      assert Ingest(files, read) == [Document(files[0].name, Trim(read(files[0]).value))] + rest;
      forall i | 0 < i < |files|
        ensures Ingest(files, read)[i] == Document(files[i].name, Trim(read(files[i]).value))
      {
        assert files[1..][i - 1] == files[i];
      }
    }
  }

  /** A file that cannot be read adds nothing and does not stop the others. */
  lemma IngestSkipsUnreadable(files: seq<UploadedFile>, k: nat, read: UploadedFile -> Option<string>)
    requires k < |files| && read(files[k]).None?
    ensures Ingest(files, read) == Ingest(files[..k], read) + Ingest(files[k + 1..], read)
  {
    var before, after := files[..k], files[k + 1..];
    assert files == before + ([files[k]] + after);
    IngestAppend(before, [files[k]] + after, read);
    IngestAppend([files[k]], after, read);
    IngestOne(files[k], read);
    assert Ingest([files[k]] + after, read) == Ingest(after, read);
  }

  /** `prev.filter((_, index) => index !== indexToRemove)`. */
  function RemoveAt<T>(s: seq<T>, indexToRemove: int): (r: seq<T>)
    ensures 0 <= indexToRemove < |s| ==> r == s[..indexToRemove] + s[indexToRemove + 1..]
    ensures !(0 <= indexToRemove < |s|) ==> r == s
  {
    if |s| == 0 then []
    else
      var rest := RemoveAt(s[1..], indexToRemove - 1);
      if indexToRemove == 0 then rest else [s[0]] + rest
  }

  // ----- the context sent with a question -----

  /** `Nama File: ${doc.name}\n\n${doc.content}`. */
  function DocumentBlock(d: Document): (r: string)
    ensures |r| > 0
  {
    FileNameLabel + d.name + "\n\n" + d.content
  }

  function DocumentBlocks(documents: seq<Document>): (r: seq<string>)
    ensures |r| == |documents|
    ensures forall i :: 0 <= i < |r| ==> r[i] == DocumentBlock(documents[i])
  {
    if |documents| == 0 then [] else [DocumentBlock(documents[0])] + DocumentBlocks(documents[1..])
  }

  /** `docContext`: the document blocks separated by a rule. It is empty
      exactly when there are no documents. */
  function DocumentContext(documents: seq<Document>): (r: string)
    ensures r == "" <==> |documents| == 0
  {
    Join(DocumentBlocks(documents), PartSeparator)
  }

  function LinkLines(links: seq<string>): (r: seq<string>)
    ensures |r| == |links|
    ensures forall i :: 0 <= i < |r| ==> r[i] == "- " + links[i]
  {
    if |links| == 0 then [] else ["- " + links[0]] + LinkLines(links[1..])
  }

  /** `linkContext`: the heading and one `- link` line per link, or nothing
      when there are no links. */
  function LinkContext(links: seq<string>): (r: string)
    ensures r == "" <==> |links| == 0
  {
    if |links| > 0 then LinksHeading + Join(LinkLines(links), "\n") else ""
  }

  /** The context the page sends, case by case: the document part under its
      heading, the link part, both separated by a rule, or nothing. */
  function KnowledgeContext(documents: seq<Document>, links: seq<string>): (r: string)
    ensures r == "" <==> |documents| == 0 && |links| == 0
    ensures |documents| > 0 ==> |DocumentsHeading| <= |r| && r[..|DocumentsHeading|] == DocumentsHeading
    ensures |links| > 0 ==> EndsWith(r, LinkContext(links))
    ensures |links| == 0 ==> r == if |documents| == 0 then "" else DocumentsHeading + DocumentContext(documents)
    ensures |documents| == 0 ==> r == LinkContext(links)
    ensures |documents| > 0 && |links| > 0 ==>
      r == DocumentsHeading + DocumentContext(documents) + PartSeparator + LinkContext(links)
  {
    var docs := DocumentContext(documents);
    var refs := LinkContext(links);
    if docs == "" then refs
    else if refs == "" then DocumentsHeading + docs
    else
      var r := DocumentsHeading + docs + PartSeparator + refs;
      assert r[|r| - |refs|..] == refs;
      r
  }

  /** Every document's name and text reach the document part. */
  lemma DocumentContextMentions(documents: seq<Document>, k: nat)
    requires k < |documents|
    ensures Contains(DocumentContext(documents), documents[k].name)
    ensures Contains(DocumentContext(documents), documents[k].content)
  {
    var blocks := DocumentBlocks(documents);
    var d := documents[k];
    JoinContains(blocks, PartSeparator, k);
    ContainsWithin(FileNameLabel, d.name, "\n\n" + d.content, d.name) by {
      assert OccursAt(d.name, d.name, 0);
    }
    assert FileNameLabel + d.name + ("\n\n" + d.content) == blocks[k];
    ContainsWithin(FileNameLabel + d.name + "\n\n", d.content, "", d.content) by {
      assert OccursAt(d.content, d.content, 0);
    }
    assert FileNameLabel + d.name + "\n\n" + d.content + "" == blocks[k];
    TransitiveContains(DocumentContext(documents), blocks[k], d.name);
    TransitiveContains(DocumentContext(documents), blocks[k], d.content);
  }

  /** Every link reaches the link part. */
  lemma LinkContextMentions(links: seq<string>, k: nat)
    requires k < |links|
    ensures Contains(LinkContext(links), links[k])
  {
    var lines := LinkLines(links);
    JoinContains(lines, "\n", k);
    ContainsWithin("- ", links[k], "", links[k]) by {
      assert OccursAt(links[k], links[k], 0);
    }
    assert "- " + links[k] + "" == lines[k];
    var joined := Join(lines, "\n");
    TransitiveContains(joined, lines[k], links[k]);
    ContainsWithin(LinksHeading, joined, "", links[k]);
    assert LinksHeading + joined + "" == LinkContext(links);
  }

  /** Every document's name and text and every link reach the context. */
  lemma KnowledgeContextMentions(documents: seq<Document>, links: seq<string>, k: nat)
    ensures k < |documents| ==>
      Contains(KnowledgeContext(documents, links), documents[k].name) &&
      Contains(KnowledgeContext(documents, links), documents[k].content)
    ensures k < |links| ==> Contains(KnowledgeContext(documents, links), links[k])
  {
    var docs := DocumentContext(documents);
    var refs := LinkContext(links);
    var r := KnowledgeContext(documents, links);
    if k < |documents| {
      var d := documents[k];
      DocumentContextMentions(documents, k);
      if refs == "" {
        ContainsWithin(DocumentsHeading, docs, "", d.name);
        ContainsWithin(DocumentsHeading, docs, "", d.content);
        assert DocumentsHeading + docs + "" == r;
      } else {
        ContainsWithin(DocumentsHeading, docs, PartSeparator + refs, d.name);
        ContainsWithin(DocumentsHeading, docs, PartSeparator + refs, d.content);
        assert DocumentsHeading + docs + (PartSeparator + refs) == r;
      }
    }
    if k < |links| {
      LinkContextMentions(links, k);
      if docs == "" {
        assert r == refs;
      } else {
        ContainsWithin(DocumentsHeading + docs + PartSeparator, refs, "", links[k]);
        assert DocumentsHeading + docs + PartSeparator + refs + "" == r;
      }
    }
  }

  /** `handleSend`'s `let fullContext` built up step by step. */
  method AssembleContext(documents: seq<Document>, links: seq<string>) returns (fullContext: string)
    ensures fullContext == KnowledgeContext(documents, links)
  {
    var docContext := DocumentContext(documents);
    var linkContext := LinkContext(links);
    fullContext := "";
    if docContext != "" {
      fullContext := fullContext + DocumentsHeading + docContext;
      assert fullContext == DocumentsHeading + docContext;
    }
    if linkContext != "" {
      if fullContext != "" {
        fullContext := fullContext + PartSeparator;
      }
      fullContext := fullContext + linkContext;
    }
    assert fullContext == if docContext == "" then linkContext
      else if linkContext == "" then DocumentsHeading + docContext
      else DocumentsHeading + docContext + PartSeparator + linkContext;
  }

  // ----- the transcript -----

  /** The greeting first, then user and model messages in turn, ending with
      a model message. */
  predicate Alternating(messages: seq<ChatMessage>) {
    && |messages| % 2 == 1
    && messages[0] == Greeting
    && forall i :: 0 <= i < |messages| ==> messages[i].role == if i % 2 == 0 then Model else User
  }

  /** The text of the model message that answers a question. */
  function ReplyText(answer: Result<string, string>): (r: string)
    ensures answer.Failure? ==> r == Apology
    ensures answer.Success? ==> r == answer.value
  {
    match answer
    case Success(text) => text
    case Failure(_) => Apology
  }

  /** A question and its answer keep the transcript alternating. */
  lemma ExchangeKeepsAlternating(messages: seq<ChatMessage>, question: string, answer: string)
    requires Alternating(messages)
    ensures Alternating(messages + [ChatMessage(User, question), ChatMessage(Model, answer)])
  {
  }

  /** The page hands the chat service the transcript as it stood before the
      question, greeting first; the service drops exactly that greeting, so
      the request's history is every later message in order, and it opens
      with the user's first question whenever there is one. */
  lemma SentHistoryDropsGreeting(messages: seq<ChatMessage>)
    requires Alternating(messages)
    ensures ChatHistory(messages) == ToContents(messages[1..])
    ensures |ChatHistory(messages)| == |messages| - 1
    ensures forall i :: 0 <= i < |ChatHistory(messages)| ==>
      ChatHistory(messages)[i].role == (if i % 2 == 0 then User else Model)
  {
    var sent := ChatHistory(messages);
    forall i | 0 <= i < |sent|
      ensures sent[i].role == (if i % 2 == 0 then User else Model)
    {
      assert sent[i].role == messages[i + 1].role;
    }
  }

  /** The page's send over the Gemini chat service: the request carries the
    transcript without its greeting, starting with the user and alternating,
    the question at the end of the message, and every document name and
    content and every link of the knowledge base inside the message. */
  lemma GeminiChatAsked(send: ChatRequest -> Result<string, string>, messages: seq<ChatMessage>,
                        question: string, documents: seq<Document>, links: seq<string>, k: nat)
    requires Alternating(messages)
    ensures var request := BuildChatRequest(messages, question, KnowledgeContext(documents, links));
      && GeminiChatService(send)(messages, question, KnowledgeContext(documents, links)) == send(request)
      && request.history == ToContents(messages[1..])
      && (forall i :: 0 <= i < |request.history| ==>
            request.history[i].role == (if i % 2 == 0 then User else Model))
      && EndsWith(request.message, question)
      && (k < |documents| ==>
            Contains(request.message, documents[k].name) && Contains(request.message, documents[k].content))
      && (k < |links| ==> Contains(request.message, links[k]))
  {
    var context := KnowledgeContext(documents, links);
    SentHistoryDropsGreeting(messages);
    KnowledgeContextMentions(documents, links, k);
    if k < |documents| {
      MessageCarriesContext(question, context, documents[k].name);
      MessageCarriesContext(question, context, documents[k].content);
    }
    if k < |links| {
      MessageCarriesContext(question, context, links[k]);
    }
  }

  /** The loop of `onDrop`: each dropped file is read in turn; a file
    whose reader succeeds contributes a document with its trimmed text,
    a file whose reader throws is skipped. */
  method ReadAll(files: seq<UploadedFile>, readers: Readers) returns (added: seq<Document>)
    ensures added == Ingest(files, ReadWith(readers))
  {
    ghost var read := ReadWith(readers);
    added := [];
    for i := 0 to |files|
      invariant added == Ingest(files[..i], read)
    {
      var fileContent := ReadFile(files[i], readers);
      IngestOne(files[i], read);
      assert files[..i + 1] == files[..i] + [files[i]];
      IngestAppend(files[..i], [files[i]], read);
      if fileContent.Some? {
        added := added + [Document(files[i].name, Trim(fileContent.value))];
      }
    }
    assert files[..|files|] == files;
  }

  /** The arguments `handleSend` passes to the chat service, as its closure
      saw the page when the question was sent. */
  datatype ChatInput = ChatInput(history: seq<ChatMessage>, question: string, context: string)

  /** The state of the chat page. */
  class ChatbotPage {
    var messages: seq<ChatMessage>
    var input: string
    var isLoading: bool
    var documents: seq<Document>
    var links: seq<string>
    var linkInput: string

    /** The transcript alternates from the greeting on; while a reply is
      pending, it has one more message, the user's question. */
    ghost predicate Valid()
      reads this
    {
      if isLoading then
        && |messages| > 0
        && messages[|messages| - 1].role == User
        && Alternating(messages[..|messages| - 1])
      else
        Alternating(messages)
    }

    constructor ()
      ensures Valid()
      ensures messages == [Greeting] && input == "" && !isLoading
      ensures documents == [] && links == [] && linkInput == ""
    {
      messages := [Greeting];
      input := "";
      isLoading := false;
      documents := [];
      links := [];
      linkInput := "";
    }

    /** The question box's `onChange`. */
    method SetInput(text: string)
      requires Valid()
      modifies this
      ensures Valid()
      ensures input == text
      ensures messages == old(messages) && isLoading == old(isLoading)
      ensures documents == old(documents) && links == old(links) && linkInput == old(linkInput)
    {
      input := text;
    }

    /** The link box's `onChange`. */
    method SetLinkInput(text: string)
      requires Valid()
      modifies this
      ensures Valid()
      ensures linkInput == text
      ensures messages == old(messages) && input == old(input) && isLoading == old(isLoading)
      ensures documents == old(documents) && links == old(links)
    {
      linkInput := text;
    }

    /** `onDrop`: read each file in turn and append its document; a file
      whose reader throws is skipped. */
    method OnDrop(acceptedFiles: seq<UploadedFile>, readers: Readers)
      requires Valid()
      modifies this
      ensures Valid()
      ensures documents == old(documents) + Ingest(acceptedFiles, ReadWith(readers))
      ensures messages == old(messages) && input == old(input) && isLoading == old(isLoading)
      ensures links == old(links) && linkInput == old(linkInput)
    {
      var added := ReadAll(acceptedFiles, readers);
      documents := documents + added;
    }

    /** The document list's remove button. */
    method RemoveDocument(indexToRemove: int)
      requires Valid()
      modifies this
      ensures Valid()
      ensures documents == RemoveAt(old(documents), indexToRemove)
      ensures messages == old(messages) && input == old(input) && isLoading == old(isLoading)
      ensures links == old(links) && linkInput == old(linkInput)
    {
      documents := RemoveAt(documents, indexToRemove);
    }

    /** `handleAddLink`: a non-blank entry that parses as a URL (tested on the
      untrimmed text) is appended trimmed and the box is cleared; otherwise
      nothing changes. */
    method HandleAddLink(isValidUrl: string -> bool)
      requires Valid()
      modifies this
      ensures Valid()
      ensures Trim(old(linkInput)) != "" && isValidUrl(old(linkInput)) ==>
        links == old(links) + [Trim(old(linkInput))] && linkInput == ""
      ensures Trim(old(linkInput)) == "" || !isValidUrl(old(linkInput)) ==>
        links == old(links) && linkInput == old(linkInput)
      ensures messages == old(messages) && input == old(input) && isLoading == old(isLoading)
      ensures documents == old(documents)
    {
      if Trim(linkInput) != "" {
        if isValidUrl(linkInput) {
          links := links + [Trim(linkInput)];
          linkInput := "";
        }
      }
    }

    /** The link list's remove button. */
    method HandleRemoveLink(indexToRemove: int)
      requires Valid()
      modifies this
      ensures Valid()
      ensures links == RemoveAt(old(links), indexToRemove)
      ensures messages == old(messages) && input == old(input) && isLoading == old(isLoading)
      ensures documents == old(documents) && linkInput == old(linkInput)
    {
      links := RemoveAt(links, indexToRemove);
    }

    /** `handleSend` up to its `await`: ignored for a blank question or
      while a reply is due; otherwise the question joins the transcript,
      the box is cleared, loading is set, and the arguments of the chat call
      are handed back: the transcript as it stood, the question and the
      current context. The other handlers stay live until `CompleteSend`. */
    method BeginSend() returns (request: Option<ChatInput>)
      requires Valid()
      modifies this
      ensures Valid()
      ensures request.None? <==> Trim(old(input)) == "" || old(isLoading)
      ensures request.None? ==>
        messages == old(messages) && input == old(input) && isLoading == old(isLoading)
      ensures request.Some? ==>
        && request.value == ChatInput(old(messages), old(input), KnowledgeContext(documents, links))
        && Alternating(request.value.history)
        && messages == old(messages) + [ChatMessage(User, old(input))]
        && input == ""
        && isLoading
      ensures documents == old(documents) && links == old(links) && linkInput == old(linkInput)
    {
      if Trim(input) == "" || isLoading {
        return None;
      }
      var history := messages;
      var question := input;
      var userMessage := ChatMessage(User, question);
      messages := messages + [userMessage];
      assert messages[..|messages| - 1] == history;
      input := "";
      isLoading := true;
      var fullContext := AssembleContext(documents, links);
      request := Some(ChatInput(history, question, fullContext));
    }

    /** `handleSend` after its `await`: exactly one model message, the reply
      or the apology, joins the transcript behind the pending question, and
      loading ends. The boxes and the knowledge base, which may have changed
      during the wait, are left alone. */
    method CompleteSend(answer: Result<string, string>)
      requires Valid() && isLoading
      modifies this
      ensures Valid()
      ensures !isLoading
      ensures messages == old(messages) + [ChatMessage(Model, ReplyText(answer))]
      ensures input == old(input) && documents == old(documents)
      ensures links == old(links) && linkInput == old(linkInput)
    {
      var n := |messages|;
      var question := messages[n - 1];
      ExchangeKeepsAlternating(messages[..n - 1], question.text, ReplyText(answer));
      assert messages == messages[..n - 1] + [ChatMessage(User, question.text)];
      messages := messages + [ChatMessage(Model, ReplyText(answer))];
      isLoading := false;
    }

    /** `handleSend` when no other handler runs during the wait: the guard,
      then the question and exactly one reply or apology appended, with the
      chat asked on the transcript as it stood and the current context. */
    method HandleSend(chat: ChatService)
      requires Valid()
      modifies this
      ensures Valid()
      ensures Trim(old(input)) == "" || old(isLoading) ==>
        messages == old(messages) && input == old(input) && isLoading == old(isLoading)
      ensures Trim(old(input)) != "" && !old(isLoading) ==>
        && messages == old(messages) + [ChatMessage(User, old(input)),
             ChatMessage(Model, ReplyText(chat(old(messages), old(input), KnowledgeContext(documents, links))))]
        && input == ""
        && !isLoading
      ensures documents == old(documents) && links == old(links) && linkInput == old(linkInput)
    {
      var request := BeginSend();
      if request.None? {
        return;
      }
      var r := request.value;
      var botResponse := chat(r.history, r.question, r.context);
      CompleteSend(botResponse);
    }
  }
}
