# One Health Hub — a Dafny model of its local logic

One Health Hub is a browser dashboard with two tools. The first is a chat
assistant grounded in documents and reference links that the user uploads.
The second is a disease-outbreak "prediction" page. It sends an uploaded case
spreadsheet, a set of public-health interventions and a forecast horizon to a
hosted Gemini model, then shows the JSON the model returns. All of the
forecasting and answering happens remotely. What the repository itself does
is bookkeeping around those calls, and that is what this project models and
proves:

- `wrappers.dfy`: `Option` and `Result`. `Result` also stands for a thrown
  error.
- `types.dfy` (types.ts): chat messages, roles, diseases, risk levels and
  prediction results. `cases` and `predicted` are `Option<int>`, because the
  service stores `null` in them.
- `catalog.dfy` (constants.ts): the six-entry disease catalog and lookup by
  route id.
- `strings.dfy`: the JavaScript string operations the code relies on, with
  their laws. These are `join`, `split(c)`, `trim`, `endsWith`, ASCII
  `toLowerCase`, template literals and decimal rendering of integers.
- `interventions.dfy`: the intervention table of the prediction page. It is a
  sequence of (name, percentage) entries in insertion order, with toggle,
  clamped assignment and their invariants.
- `gemini.dfy` (services/geminiService.ts): the chat request (history slice,
  context wrapping), the prediction prompt (intervention block, verbatim
  embedding of every input) and the decoding of the reply (trim, parse,
  chartData normalisation, one fixed error).
- `prediction_detail.dfy` (pages/PredictionDetailPage.tsx): the page state as
  a class whose handlers update its fields. The pure parts are functions: the
  period rule, upload classification, disease lookup and risk colours.
- `chatbot.dfy` (pages/ChatbotPage.tsx): extension dispatch, PDF text
  assembly, the per-file ingestion loop, removal by index, the context string
  and the append-only transcript, with the page as a class.
- `browser.dfy`: the uploaded `File` value.

Foreign code is passed in as function parameters: the Gemini calls,
`JSON.parse`, `FileReader`, SheetJS, pdf.js, mammoth and `new URL`. Each
parameter yields the value that code produces, or `None`/`Failure` where it
throws or never delivers its result.

## Model

| member | source | states |
|---|---|---|
| Catalog.FindById | pages/PredictionDetailPage.tsx:41 | `DISEASES.find` returns nothing exactly when no entry has the id; otherwise it returns the first entry that carries the id |
| Catalog.FindByIdDistinct | constants.ts:5-53 | when ids are pairwise distinct, looking up an entry's id returns that entry |
| Catalog.CatalogIds | constants.ts:7-47 | the catalog's ids are rabies, avian-flu, leptospirosis, anthrax, covid-19, malaria, in that order |
| Catalog.CatalogShape | constants.ts:5-53 | exactly six entries, pairwise distinct ids, every name and description non-empty |
| Catalog.CatalogLookups | constants.ts:15-32 | `avian-flu` is found with name "Flu Burung" and `anthrax` with name "Antraks" |
| Catalog.FindInCatalog | pages/PredictionDetailPage.tsx:41 | lookup fails exactly when the id is not a catalog id; a found entry is in the catalog and carries the id |
| PredictionDetail.DiseasePage | pages/PredictionDetailPage.tsx:118-120 | an unknown route id gives "Disease not found."; a known one gives its catalog entry |
| Interventions.Keys | services/geminiService.ts:51 | `Object.keys` lists the table's names in entry order (insertion order, which holds for keys that are not integer-like, as every offered name is) |
| Interventions.IndexOf | pages/PredictionDetailPage.tsx:77 | the position of a present key is the first entry carrying it |
| Interventions.Lookup | pages/PredictionDetailPage.tsx:77 | a key's value is absent exactly when the key is absent; otherwise it is the value at the key's position |
| Interventions.Remove | pages/PredictionDetailPage.tsx:78 | after `delete`, the key is gone, and an absent key leaves the table unchanged |
| Interventions.RemoveSplices | pages/PredictionDetailPage.tsx:76-78 | deleting a present key from a table with unique keys cuts out exactly that entry and keeps the order of the rest |
| Interventions.Assign | pages/PredictionDetailPage.tsx:88-91 | assignment keeps an existing key in place with the new value and leaves every other entry alone; a new key is appended |
| Interventions.Toggle | pages/PredictionDetailPage.tsx:74-84 | an absent name is appended at 50; a present name's entry is removed and the others keep their order; membership flips |
| Interventions.ToggleTwiceRestores | pages/PredictionDetailPage.tsx:74-84 | toggling an absent name twice gives back the same entries, values and order |
| Interventions.Clamp | pages/PredictionDetailPage.tsx:87 | `Math.max(lo, Math.min(hi, v))` lies in [lo, hi], equals v inside the range and the nearer bound outside it |
| Interventions.SetValue | pages/PredictionDetailPage.tsx:86-92 | the key then holds the clamped value; keys and positions are unchanged when the key existed; every other key keeps its value |
| Interventions.AssignIndexOf | pages/PredictionDetailPage.tsx:88-91 | assigning a key does not move where that key is found |
| Interventions.LookupAssignOther | pages/PredictionDetailPage.tsx:88-91 | assigning one key leaves every other key's value unchanged |
| Interventions.RemoveLast | pages/PredictionDetailPage.tsx:78-80 | deleting a key that was just appended gives back the previous table |
| Interventions.RemoveKeys | pages/PredictionDetailPage.tsx:78 | after deleting k, the keys are the old keys other than k |
| Interventions.AssignKeys | pages/PredictionDetailPage.tsx:80 | after assigning k, the keys are the old keys and k |
| Interventions.RemoveKeepsUnique | pages/PredictionDetailPage.tsx:78 | deleting keeps keys unique |
| Interventions.AssignKeepsUnique | pages/PredictionDetailPage.tsx:80 | assigning keeps keys unique |
| Interventions.RemoveInRange | pages/PredictionDetailPage.tsx:78 | deleting keeps every value in [0, 100] |
| Interventions.AssignInRange | pages/PredictionDetailPage.tsx:88-91 | assigning a value in [0, 100] keeps every value in [0, 100] |
| Interventions.TogglePreserves | pages/PredictionDetailPage.tsx:74-84 | toggling keeps keys unique and values in [0, 100] |
| Interventions.SetValuePreserves | pages/PredictionDetailPage.tsx:86-92 | changing a value keeps keys unique and values in [0, 100] |
| PredictionDetail.NextPeriod | pages/PredictionDetailPage.tsx:94-101 | a parsed number is kept inside [1, 60], becomes 1 below it and 60 above it; empty input gives 1; other unparsable input keeps the period; a period in [1, 60] stays there |
| PredictionDetail.ClassifyUpload | pages/PredictionDetailPage.tsx:50-68 | a case-sensitive `.csv` suffix is read as text; otherwise `.xls` or `.xlsx` is converted; anything else is refused |
| PredictionDetail.UploadExamples | pages/PredictionDetailPage.tsx:50-56 | `.csv`, `.xls` and `.xlsx` names are accepted; `KASUS.CSV` and `.txt` are refused |
| PredictionDetail.UploadError | pages/PredictionDetailPage.tsx:47-67 | the error is cleared exactly when the file is accepted, and is the fixed unsupported-format message when it is refused |
| PredictionDetail.RiskLevelColors | pages/PredictionDetailPage.tsx:122-130 | Low is green (`text-green-400`), Medium yellow (`text-yellow-400`), High orange (`text-orange-400`) and Very High red (`text-red-500`); these four are distinct and none is the fallback; any other text gets the grey fallback |
| PredictionDetail.ShownError | pages/PredictionDetailPage.tsx:112 | the shown error is never empty: it is the thrown message whenever that is non-empty, and the fixed fallback text otherwise |
| Interventions.OfferedInterventionNames | pages/PredictionDetailPage.tsx:14-21 | every offered intervention name is non-empty, holds no line break and does not start with a digit, so none is an integer-like key |
| Interventions.ToggleKeepsOffered | pages/PredictionDetailPage.tsx:74-84 | toggling an offered name keeps every key an offered name |
| Interventions.SetValueKeepsOffered | pages/PredictionDetailPage.tsx:86-92 | setting the value of an offered name keeps every key an offered name |
| Interventions.OfferedKeysOneLine | services/geminiService.ts:54 | no key of a table of offered names contains a line break, which is what the one-line-per-entry result for the prompt block requires |
| PredictionDetail.PredictionDetailPage.constructor | pages/PredictionDetailPage.tsx:31-41 | initial state: period 12, model "Random Forest", empty interventions, no prediction, empty error and CSV, not loading |
| PredictionDetail.PredictionDetailPage.OnDrop | pages/PredictionDetailPage.tsx:43-70 | the first file is kept and the error cleared; a `.csv` or `.xls`/`.xlsx` replaces the CSV text only when its read (or SheetJS conversion) succeeds, and otherwise the text is kept; a refused file sets the error and keeps the CSV text; no file changes nothing |
| PredictionDetail.PredictionDetailPage.SelectModel | pages/PredictionDetailPage.tsx:38 | only the selected methodology changes |
| PredictionDetail.PredictionDetailPage.HandleInterventionToggle | pages/PredictionDetailPage.tsx:74-84 | for an offered name, the table becomes `Toggle` of the old one; nothing else changes; the page invariant (unique offered keys, values in [0, 100]) is kept |
| PredictionDetail.PredictionDetailPage.HandleInterventionValueChange | pages/PredictionDetailPage.tsx:86-92 | for an offered name, the table becomes `SetValue` of the old one; nothing else changes; the page invariant is kept |
| PredictionDetail.PredictionDetailPage.HandlePeriodChange | pages/PredictionDetailPage.tsx:94-101 | the period becomes `NextPeriod` of the old one; nothing else changes; it stays in [1, 60] |
| PredictionDetail.PredictionDetailPage.BeginPredict | pages/PredictionDetailPage.tsx:103-109 | with no CSV text or no disease, nothing changes and no call is made; otherwise loading is set, error and prediction are cleared, and the call gets the page's disease, CSV text, interventions (offered, in range, one line each), methodology and horizon |
| PredictionDetail.PredictionDetailPage.CompletePredict | pages/PredictionDetailPage.tsx:109-115 | success stores the result and leaves the error as the wait left it; failure stores the shown error and leaves the prediction as it was; loading ends false; nothing else changes |
| PredictionDetail.PredictionDetailPage.HandlePredict | pages/PredictionDetailPage.tsx:103-116 | with no other handler during the wait: no CSV text or no disease changes nothing; otherwise success stores the result with an empty error, failure leaves no prediction and stores the shown error, and loading ends false |
| GeminiService.ToContents | services/geminiService.ts:17-20 | each message maps to one turn with the same role and a single part holding its text, in order |
| GeminiService.ChatHistory | services/geminiService.ts:17-20 | the history sent is every message but the first, in order, with roles and texts unchanged; its length is max(0, n - 1) |
| GeminiService.MessageWithContext | services/geminiService.ts:22-24 | the message is the question alone exactly when the context is empty; otherwise it is the instruction header, the context, the question label and the question, in that order |
| GeminiService.MessageCarriesContext | services/geminiService.ts:22-24 | anything the context contains, the message sent contains too |
| GeminiService.BuildChatRequest | services/geminiService.ts:14-37 | the request names `gemini-2.5-flash` and the fixed system instruction, carries every turn but the first with role and text kept, and a message that ends with the question, contains the context and is the question alone exactly when the context is empty; the history is `ChatHistory` of the transcript and the message is `MessageWithContext`, so their layouts carry over |
| GeminiService.GetChatbotResponse | services/geminiService.ts:14-37 | the reply, or the error thrown, is what the remote chat gives for that request |
| GeminiService.GeminiChatService | services/geminiService.ts:14-37 | as a page's chat service, every call sends the request built from its transcript, question and context |
| GeminiService.InterventionLines | services/geminiService.ts:54 | one line `- name (Efektivitas diperkirakan n%)` per entry, in entry order |
| GeminiService.InterventionPrompt | services/geminiService.ts:51-57 | the intervention part is empty exactly when the table has no keys; otherwise it is the header, then the block of entry lines, then the footer |
| GeminiService.InterventionBlockLines | services/geminiService.ts:54 | when names have no line break, splitting the block at line breaks gives exactly the entry lines in order, with n - 1 line breaks |
| GeminiService.LineHasNoNewline | services/geminiService.ts:54 | an intervention line has no line break when its name has none |
| GeminiService.OneInterventionScenario | services/geminiService.ts:51-57 | one intervention enabled at the default gives exactly one line carrying "50"; disabling it again empties the intervention part |
| GeminiService.BuildPromptMentions | services/geminiService.ts:67-88 | the disease name, CSV text, methodology label, methodology instruction, intervention part and horizon all occur verbatim in the prompt |
| GeminiService.NormalizeChartData | services/geminiService.ts:128-132 | mapping fails exactly on a `null` entry; otherwise it keeps the length, positions and names, keeps present numbers (0 included), turns missing or null values into null and drops other fields |
| GeminiService.DecodeReply | services/geminiService.ts:124-138 | the reply decodes exactly when the trimmed text parses with a chart list and no null entry; every failure is the one fixed error; a success carries the parsed insights, risk level, recommendations and normalised chart of the same length |
| GeminiService.ReadPredictionReply | services/geminiService.ts:124-138 | the step-by-step parse, normalise and catch yields exactly `DecodeReply` |
| GeminiService.GetPrediction | services/geminiService.ts:48-138 | a failure of the remote call propagates unchanged; otherwise the reply is decoded |
| Strings.TemplateContains | services/geminiService.ts:67-88 | every value substituted into a template literal occurs in the result |
| Strings.Join | services/geminiService.ts:54 | a non-empty join starts with its first part |
| Strings.JoinContains | pages/ChatbotPage.tsx:108-109 | every joined part occurs in the joined text |
| Strings.JoinAvoids | pages/ChatbotPage.tsx:49 | a character missing from every part and from the separator is missing from the join |
| Strings.CountChar | pages/ChatbotPage.tsx:49 | a count is at most the length, and zero exactly when the character is absent |
| Strings.CountCharConcat | pages/ChatbotPage.tsx:49 | counts add over concatenation |
| Strings.JoinSeparatorCount | pages/ChatbotPage.tsx:49 | joining n parts that lack c with separator c gives n - 1 occurrences of c |
| Strings.Split | pages/ChatbotPage.tsx:39 | `split(c)` gives one more piece than there are c's, and no piece contains c |
| Strings.SplitNoSeparator | pages/ChatbotPage.tsx:39 | a string without the separator splits into itself |
| Strings.SplitAfterPiece | pages/ChatbotPage.tsx:39 | splitting a piece, separator, rest gives the piece followed by the pieces of the rest |
| Strings.SplitJoin | pages/ChatbotPage.tsx:49 | splitting a join with c gives back the parts when no part contains c |
| Strings.SplitLastPiece | pages/ChatbotPage.tsx:39 | the piece `pop()` returns is the c-free tail after the last c |
| Strings.ToLower | pages/ChatbotPage.tsx:39 | lower-casing keeps the length and maps each character |
| Strings.TrimStartSlice | pages/ChatbotPage.tsx:84 | trimming the start cuts a blank prefix and stops at a non-blank character |
| Strings.TrimEndSlice | pages/ChatbotPage.tsx:84 | trimming the end cuts a blank suffix and stops at a non-blank character |
| Strings.TrimSlice | pages/ChatbotPage.tsx:84 | `trim` gives a contiguous slice with only white space cut at each end; it is empty exactly when the input is blank |
| Strings.NatToString | services/geminiService.ts:54 | a rendered number is a non-empty string of digits with no leading zero |
| Strings.IntToString | services/geminiService.ts:54 | a rendered integer starts with '-' exactly when it is negative |
| Strings.IntToStringNoNewline | services/geminiService.ts:54 | a rendered integer has no line break |
| Strings.NatToStringParses | services/geminiService.ts:54 | reading the digits back gives the number |
| Chatbot.Extension | pages/ChatbotPage.tsx:39 | the extension is the lower-cased text after the last dot (the whole name when there is none); it holds no dot |
| Chatbot.KindOf | pages/ChatbotPage.tsx:41-57 | `pdf` takes the PDF path; `docx` or `doc` takes the Word path; anything else is read as plain text |
| Chatbot.ExtensionAfterLastDot | pages/ChatbotPage.tsx:39 | `prefix.ext` has the lower-cased `ext` as its extension, whatever the prefix |
| Chatbot.PageTexts | pages/ChatbotPage.tsx:49 | one text per page, in page order, with the items joined by spaces |
| Chatbot.PdfTextPages | pages/ChatbotPage.tsx:44-49 | with no line break inside items, the PDF text splits back into the page texts in order and holds exactly n - 1 line breaks |
| Chatbot.ReadFile | pages/ChatbotPage.tsx:38-57 | the dispatch reads the file with the reader its extension selects |
| Chatbot.Ingest | pages/ChatbotPage.tsx:36-64 | a drop adds at most one document per file |
| Chatbot.IngestOne | pages/ChatbotPage.tsx:59-62 | a readable file adds exactly its name and trimmed text; a file that throws adds nothing |
| Chatbot.IngestAppend | pages/ChatbotPage.tsx:36 | processing two batches in turn adds what processing them together adds |
| Chatbot.IngestAllRead | pages/ChatbotPage.tsx:36-64 | when every file can be read, the i-th document is the i-th file's name and trimmed text |
| Chatbot.IngestSkipsUnreadable | pages/ChatbotPage.tsx:60-63 | a failing file adds nothing, and the files before and after it are processed as usual |
| Chatbot.ReadAll | pages/ChatbotPage.tsx:35-65 | the loop over the dropped files yields exactly `Ingest` of them |
| Chatbot.RemoveAt | pages/ChatbotPage.tsx:79-81 | filtering by index removes exactly position i and keeps the rest in order; an out-of-range i changes nothing |
| Chatbot.DocumentBlocks | pages/ChatbotPage.tsx:108 | one `Nama File: name\n\ncontent` block per document, in order |
| Chatbot.DocumentContext | pages/ChatbotPage.tsx:108 | the document part is empty exactly when there are no documents |
| Chatbot.LinkLines | pages/ChatbotPage.tsx:109 | one `- link` line per link, in order |
| Chatbot.LinkContext | pages/ChatbotPage.tsx:109 | the link part is empty exactly when there are no links |
| Chatbot.KnowledgeContext | pages/ChatbotPage.tsx:108-118 | no documents and no links give ""; documents only give the documents heading and the document part; links only give the link part; both give the documents heading, the document part, the separator and the link part |
| Chatbot.DocumentContextMentions | pages/ChatbotPage.tsx:108 | every document's name and text occur in the document part |
| Chatbot.LinkContextMentions | pages/ChatbotPage.tsx:109 | every link occurs in the link part |
| Chatbot.KnowledgeContextMentions | pages/ChatbotPage.tsx:108-118 | every document name and text and every link occur in the context |
| Chatbot.AssembleContext | pages/ChatbotPage.tsx:111-118 | the `+=` steps build exactly `KnowledgeContext` |
| Chatbot.ReplyText | pages/ChatbotPage.tsx:120-123 | the model message is the reply, or the fixed apology when the call fails |
| Chatbot.ExchangeKeepsAlternating | pages/ChatbotPage.tsx:102-123 | appending a question and then an answer keeps the transcript greeting-first and alternating |
| Chatbot.GeminiChatAsked | pages/ChatbotPage.tsx:108-120 | when the page's chat is the Gemini service, the request sent holds the transcript without the greeting, alternating from a user turn, and a message that ends with the question and contains every document's name and content and every link |
| Chatbot.SentHistoryDropsGreeting | pages/ChatbotPage.tsx:120 | the service drops exactly the greeting from the transcript it is given, so the request's history has one turn fewer and opens with a user turn |
| Chatbot.ChatbotPage.constructor | pages/ChatbotPage.tsx:19-26 | the transcript starts with the greeting alone; all other state is empty |
| Chatbot.ChatbotPage.SetInput | pages/ChatbotPage.tsx:22 | only the question box changes |
| Chatbot.ChatbotPage.SetLinkInput | pages/ChatbotPage.tsx:26 | only the link box changes |
| Chatbot.ChatbotPage.OnDrop | pages/ChatbotPage.tsx:35-65 | the documents become the old list followed by `Ingest` of the dropped files; nothing else changes |
| Chatbot.ChatbotPage.RemoveDocument | pages/ChatbotPage.tsx:79-81 | the documents become `RemoveAt` of the old list; nothing else changes |
| Chatbot.ChatbotPage.HandleAddLink | pages/ChatbotPage.tsx:83-93 | a non-blank valid URL is appended trimmed and the box is cleared; blank or invalid input changes nothing |
| Chatbot.ChatbotPage.HandleRemoveLink | pages/ChatbotPage.tsx:95-97 | the links become `RemoveAt` of the old list; nothing else changes |
| Chatbot.ChatbotPage.BeginSend | pages/ChatbotPage.tsx:99-120 | a blank question or a send while loading changes nothing and makes no call; otherwise the question is appended, the box is cleared, loading is set, and the call gets the alternating transcript as it stood, the question and the current context |
| Chatbot.ChatbotPage.CompleteSend | pages/ChatbotPage.tsx:120-126 | exactly one model message (the reply, or the apology on failure) is appended behind the pending question, earlier messages are untouched, the transcript alternates again and loading ends false |
| Chatbot.ChatbotPage.HandleSend | pages/ChatbotPage.tsx:99-127 | with no other handler during the wait: a blank question or a send while loading changes nothing; otherwise exactly the question and one model message (reply or apology) are appended, earlier messages are untouched, the chat gets the transcript as it stood before, the box is cleared and loading ends false |

## Left out

- Rendering, styling, routing and the chart are presentation only. This
  covers the JSX, recharts, the header, the home and prediction menu pages,
  and the SVG icons. The `Icon` field of a disease is not modelled.
- The remote Gemini calls (`ai.chats.create`/`sendMessage`,
  `ai.models.generateContent`) are network I/O. They are parameters that
  return the reply text or the thrown message. The response schema is
  enforced remotely, so it is not checked locally.
- `JSON.parse` is a parameter returning `Option<ParsedResponse>`.
  `ParsedResponse` already holds the schema's top-level fields with their
  declared types. The service code casts any parsed object to a result without
  checking those fields, so a reply that parses but lacks `insights` or has
  an unknown risk level is not modelled.
- DecodeReply: a chart entry is either `null` (reading `d.name` throws) or a
  point with a string name. A non-null entry with no `name` (the service
  code copies `undefined`) is not modelled, and neither is a non-object entry.
  Numbers are integers; JSON fractions are not modelled.
- An undefined `response.text` (where `trim` throws outside the `try`) is not
  modelled.
- FileReader, SheetJS, pdf.js, mammoth and `new URL` are foreign libraries,
  represented by their results (function parameters). Promise ordering is
  left out: the PDF pages arrive as a sequence already in page order, and
  the asynchronous `reader.onload` of the prediction page runs at once,
  before any other handler.
- Chatbot.ChatbotPage.OnDrop: the whole batch runs as one step. In the
  program each file's read is awaited, and the remove buttons stay live
  between files. Every append uses the list as it is at that moment
  (`prev`), so a document removed during a drop is not modelled, and
  neither is the order of such interleavings.
- PredictionDetail.PredictionDetailPage.HandlePredict and
  Chatbot.ChatbotPage.HandleSend: each is the run-to-completion composition
  of its begin and complete steps (`BeginPredict`/`CompletePredict`,
  `BeginSend`/`CompleteSend`). Those steps are where other handlers can run
  during the wait, with `isLoading` as the state in between.
- The page only ever passes the six offered names to the intervention
  handlers, so their contracts require one. JavaScript would list an
  integer-like key before the others; such keys never occur.
- JavaScript `parseInt` prefix parsing and `NaN`: the handler receives the
  parsed period as `Option<int>`. The slider value is an `int`, so the `NaN`
  that `Math.max`/`Math.min` would store is not modelled.
- Strings.ToLower: only ASCII letters are lower-cased. No other character
  lower-cases to one of the letters the extension tests compare with, so the
  dispatch is exact.
- Chatbot.ChatbotPage.HandleSend: takes the chat as a value of type
  `ChatService`. The page normally uses `GeminiChatService(send)`, and
  `GeminiChatAsked` proves what that service then sends for the page's
  transcript, question and context. This keeps the page method's proof
  independent of the fixed request texts.
- PredictionDetail.PredictionDetailPage.HandlePredict: takes the prediction
  service as a value of type `PredictionService`. The pages normally use
  `GeminiPredictionService(generate, parse)`, whose outcome `GetPrediction`
  is proved to compute. This keeps the page method's proof independent of
  the long prompt texts.
- `console.error`, `alert`, the scroll-to-bottom effect and the build
  configuration are side effects with no state the model observes.
- The fixed prompt and message texts are kept verbatim as constants. No
  property depends on their wording.
