/** The local part of the Gemini exchange (services/geminiService.ts):
    building the chat request and the prediction prompt, and turning the
    model's JSON reply into a prediction result. The remote calls and
    `JSON.parse` are parameters of the operations that need them. */
module GeminiService {
  import opened Wrappers
  import opened Strings
  import opened Types
  import opened Interventions

  const ChatModelName: string := "gemini-2.5-flash"
  const PredictionModelName: string := "gemini-2.5-pro"
  const JsonMimeType: string := "application/json"

  /** The one error every parse or normalisation failure becomes. */
  const InvalidResponseMessage: string := "The AI returned an invalid response. Please try again."

  // The fixed texts of the requests, in the order the templates use them.

  const ChatContextHeader: string :=
    "Gunakan informasi dalam konteks di bawah ini untuk " +
    "menjawab pertanyaan saya. Konteks ini dapat mencakup " +
    "konten dari dokumen yang diunggah dan/atau daftar " +
    "tautan referensi. Prioritaskan konten dokumen, tetapi " +
    "gunakan juga tautan untuk informasi tambahan jika " +
    "relevan. Jika jawabannya tidak ada di dalam sumber " +
    "yang diberikan, katakan bahwa Anda tidak dapat menemukan " +
    "informasinya.\n\n---\nKonteks:\n"

  const ChatQuestionLabel: string :=
    "\n---\n\nPertanyaan saya: "

  const ChatSystemInstruction: string :=
    "You are a helpful AI assistant for the One Health " +
    "Platform. Your name is One AI. You specialize in " +
    "topics related to human, animal, and environmental " +
    "health, particularly zoonotic diseases. You must " +
    "answer in Bahasa Indonesia. Be friendly and informative."

  const InterventionHeader: string :=
    "\n      Selanjutnya, pertimbangkan potensi dampak " +
    "dari intervensi kesehatan masyarakat berikut yang " +
    "sedang diterapkan pada tingkat efektivitas/implementasi " +
    "yang ditentukan:\n      "

  const InterventionFooter: string :=
    "\n      Analisis, penilaian risiko, rekomendasi, " +
    "dan prediksi grafik Anda harus mencerminkan bagaimana " +
    "intervensi ini, pada tingkat yang ditentukan, dapat " +
    "mengubah lintasan penyakit dibandingkan dengan data " +
    "historis saja. Efektivitas yang lebih tinggi harus " +
    "mengarah pada pengurangan kasus yang lebih signifikan " +
    "dalam prediksi Anda.\n      "

  const ModelInstructionHead: string :=
    "\n      Untuk analisis Anda, terapkan metodologi model **"

  const ModelInstructionTail: string :=
    "**. Wawasan dan prediksi Anda harus konsisten dengan " +
    "prinsip-prinsip model ini. Sebagai contoh:\n" +
    "      - Jika **Random Forest**, fokus pada identifikasi " +
    "faktor-faktor prediktif utama dari data dan bagaimana " +
    "kumpulan pohon keputusan akan menginterpretasikan " +
    "tren. Prediksi harus mencerminkan agregasi dari " +
    "beberapa jalur prediktif.\n" +
    "      - Jika **Regresi Linier**, fokus pada identifikasi " +
    "tren linier yang jelas, musiman, dan kemiringan " +
    "pertumbuhan kasus. Prediksi harus merupakan proyeksi " +
    "berdasarkan hubungan linier ini.\n" +
    "      - Jika **LSTM (Long Short-Term Memory)**, " +
    "fokus pada penangkapan dependensi jangka panjang " +
    "dan pola sekuensial kompleks dalam data deret waktu " +
    "yang mungkin terlewatkan oleh model yang lebih sederhana.\n" +
    "      - Jika **Temporal Fusion Transformer (TFT)**, " +
    "lakukan peramalan multi-cakrawala yang menginterpretasikan " +
    "berbagai fitur dari data historis, mengidentifikasi " +
    "tren jangka panjang dan perubahan mendadak, mirip " +
    "dengan bagaimana model transformer akan menimbang " +
    "berbagai bagian dari urutan input.\n" +
    "    "

  const PromptDisease: string :=
    "\n      Analisis data CSV berikut untuk "

  const PromptCsv: string :=
    ". Data ini mewakili kasus yang dilaporkan dari waktu " +
    "ke waktu.\n      PENTING: Semua teks dalam respons " +
    "JSON Anda (wawasan, rekomendasi) HARUS dalam Bahasa " +
    "Indonesia.\n      \n      Data CSV:\n" +
    "      ```csv\n      "

  const PromptModel: string :=
    "\n      ```\n      \n      **Model Analisis:** Anda " +
    "harus melakukan analisis menggunakan prinsip-prinsip " +
    "model **"

  const PromptModelEnd: string :=
    "**.\n      "

  const PromptInterventions: string :=
    "\n\n      "

  const PromptInsights: string :=
    "\n      \n      Berdasarkan data, model analisis yang " +
    "Anda pilih, dan setiap intervensi yang ditentukan, " +
    "berikan analisis dan prediksi terperinci dalam format " +
    "JSON. Ikuti instruksi ini dengan cermat:\n" +
    "      1.  **insights**: Tulis paragraf singkat (2-3 " +
    "kalimat) dalam Bahasa Indonesia yang merangkum tren " +
    "dan pola utama menurut metodologi "

  const PromptPeriod: string :=
    ". Jika intervensi diberikan, sebutkan kemungkinan " +
    "dampaknya.\n      2.  **riskLevel**: Nilai tingkat " +
    "risiko saat ini untuk wabah. Kategorikan sebagai " +
    "'Low', 'Medium', 'High', atau 'Very High'.\n" +
    "      3.  **recommendations**: Berikan daftar berpoin " +
    "berisi 3-5 rekomendasi yang dapat ditindaklanjuti " +
    "dalam Bahasa Indonesia.\n" +
    "      4.  **chartData**: Proyeksikan jumlah kasus " +
    "untuk "

  const PromptEnd: string :=
    " bulan ke depan. Nilai 'predicted' harus menjadi " +
    "proyeksi Anda. Untuk periode mendatang ini, nilai " +
    "'cases' harus dihilangkan. Sertakan 5 titik data " +
    "aktual terakhir sebelum prediksi Anda.\n" +
    "      \n      Anda harus mengembalikan respons dalam " +
    "format JSON yang valid sesuai dengan skema yang " +
    "disediakan.\n    "

  // ----- chat -----

  datatype Part = Part(text: string)

  /** One turn of the history in the request format: `{role, parts: [{text}]}`. */
  datatype Content = Content(role: Role, parts: seq<Part>)

  /** What `ai.chats.create` and `chat.sendMessage` are given. */
  datatype ChatRequest = ChatRequest(model: string, history: seq<Content>, systemInstruction: string, message: string)

  /** `messages.map(msg => ({role: msg.role, parts: [{text: msg.text}]}))`. */
  function ToContents(messages: seq<ChatMessage>): (r: seq<Content>)
    ensures |r| == |messages|
    ensures forall i :: 0 <= i < |r| ==> r[i] == Content(messages[i].role, [Part(messages[i].text)])
  {
    if |messages| == 0 then []
    else [Content(messages[0].role, [Part(messages[0].text)])] + ToContents(messages[1..])
  }

  /** `history.slice(1).map(...)`: every message but the first, in order, with
      role and text unchanged. */
  function ChatHistory(history: seq<ChatMessage>): (r: seq<Content>)
    ensures |r| == if |history| == 0 then 0 else |history| - 1
    ensures forall i :: 0 <= i < |r| ==>
      r[i].role == history[i + 1].role && r[i].parts == [Part(history[i + 1].text)]
  {
    if |history| == 0 then [] else ToContents(history[1..])
  }

  /** The message sent: the question alone when there is no context, else the
      instruction header, the context, the question label and the question. */
  function MessageWithContext(newMessage: string, context: string): (r: string)
    ensures context == "" ==> r == newMessage
    ensures context != "" ==>
      && |r| == |ChatContextHeader| + |context| + |ChatQuestionLabel| + |newMessage|
      && OccursAt(r, ChatContextHeader, 0)
      && OccursAt(r, context, |ChatContextHeader|)
      && OccursAt(r, ChatQuestionLabel, |ChatContextHeader| + |context|)
      && EndsWith(r, newMessage)
    ensures r == newMessage <==> context == ""
  {
    if context != "" then
      var r := ChatContextHeader + context + ChatQuestionLabel + newMessage;
      assert r[..|ChatContextHeader|] == ChatContextHeader;
      assert r[|ChatContextHeader|..|ChatContextHeader| + |context|] == context;
      assert r[|ChatContextHeader| + |context|..|ChatContextHeader| + |context| + |ChatQuestionLabel|] == ChatQuestionLabel;
      assert r[|r| - |newMessage|..] == newMessage;
      r
    else
      newMessage
  }

  /** Whatever the context contains, the message sent contains too. */
  lemma MessageCarriesContext(newMessage: string, context: string, t: string)
    requires Contains(context, t)
    ensures Contains(MessageWithContext(newMessage, context), t)
  {
    var message := MessageWithContext(newMessage, context);
    assert OccursAt(message, context, if context == "" then 0 else |ChatContextHeader|);
    TransitiveContains(message, context, t);
  }

  /** The request `getChatbotResponse` makes: the flash model, the fixed
      system instruction, every turn but the first, and the question, wrapped
      with its context when there is one. */
  function BuildChatRequest(history: seq<ChatMessage>, newMessage: string, context: string): (r: ChatRequest)
    ensures r.model == ChatModelName && r.systemInstruction == ChatSystemInstruction
    ensures |r.history| == if |history| == 0 then 0 else |history| - 1
    ensures forall i :: 0 <= i < |r.history| ==>
      r.history[i].role == history[i + 1].role && r.history[i].parts == [Part(history[i + 1].text)]
    ensures r.message == newMessage <==> context == ""
    ensures EndsWith(r.message, newMessage)
    ensures Contains(r.message, context)
    ensures r.history == ChatHistory(history) && r.message == MessageWithContext(newMessage, context)
  {
    var message := MessageWithContext(newMessage, context);
    assert OccursAt(message, context, if context == "" then 0 else |ChatContextHeader|);
    ChatRequest(ChatModelName, ChatHistory(history), ChatSystemInstruction, message)
  }

  /** `getChatbotResponse`: the reply text of the remote chat, or the error it
      threw, for the request built from its arguments. */
  function GetChatbotResponse(history: seq<ChatMessage>, newMessage: string, context: string,
                              send: ChatRequest -> Result<string, string>): (r: Result<string, string>)
    ensures r == send(BuildChatRequest(history, newMessage, context))
  {
    send(BuildChatRequest(history, newMessage, context))
  }

  /** What a page awaits when it asks the chat: transcript, question and
      context in, reply text or error out. */
  type ChatService = (seq<ChatMessage>, string, string) -> Result<string, string>

  /** The service `getChatbotResponse` provides over a given remote chat:
      every call sends the request built from its arguments. */
  function GeminiChatService(send: ChatRequest -> Result<string, string>): (chat: ChatService)
    ensures forall history, newMessage, context ::
      chat(history, newMessage, context) == send(BuildChatRequest(history, newMessage, context))
  {
    (history, newMessage, context) => GetChatbotResponse(history, newMessage, context, send)
  }

  // ----- prediction prompt -----

  /** `- ${name} (Efektivitas diperkirakan ${effectiveness}%)`. */
  function InterventionLine(name: string, effectiveness: int): string {
    "- " + name + " (Efektivitas diperkirakan " + IntToString(effectiveness) + "%)"
  }

  /** `Object.entries(t).map(...)`: one line per entry, in entry order. */
  function InterventionLines(t: Table): (r: seq<string>)
    ensures |r| == |t|
    ensures forall i :: 0 <= i < |t| ==> r[i] == InterventionLine(t[i].0, t[i].1)
  {
    if |t| == 0 then [] else [InterventionLine(t[0].0, t[0].1)] + InterventionLines(t[1..])
  }

  /** The lines joined by line breaks. */
  function InterventionBlock(t: Table): string {
    Join(InterventionLines(t), "\n")
  }

  /** The intervention part of the prompt: empty exactly when the table has
      no keys, otherwise the block of entry lines between its header and
      footer. */
  function InterventionPrompt(t: Table): (r: string)
    ensures r == "" <==> |t| == 0
    ensures |t| > 0 ==>
      && |r| == |InterventionHeader| + |InterventionBlock(t)| + |InterventionFooter|
      && OccursAt(r, InterventionHeader, 0)
      && OccursAt(r, InterventionBlock(t), |InterventionHeader|)
      && EndsWith(r, InterventionFooter)
  {
    if |Keys(t)| > 0 then InterventionHeader + InterventionBlock(t) + InterventionFooter else ""
  }

  /** When no intervention name contains a line break, the block has exactly
      one line per entry, in entry order, and |t| - 1 line breaks. */
  lemma InterventionBlockLines(t: Table)
    requires |t| > 0
    requires forall i :: 0 <= i < |t| ==> '\n' !in t[i].0
    ensures Split(InterventionBlock(t), '\n') == InterventionLines(t)
    ensures CountChar(InterventionBlock(t), '\n') == |t| - 1
  {
    var lines := InterventionLines(t);
    forall i | 0 <= i < |lines| ensures '\n' !in lines[i] {
      LineHasNoNewline(t[i].0, t[i].1);
    }
    SplitJoin(lines, '\n');
    JoinSeparatorCount(lines, '\n');
  }

  lemma LineHasNoNewline(name: string, effectiveness: int)
    requires '\n' !in name
    ensures '\n' !in InterventionLine(name, effectiveness)
  {
    IntToStringNoNewline(effectiveness);
    var digits := IntToString(effectiveness);
    assert InterventionLine(name, effectiveness) == "- " + name + " (Efektivitas diperkirakan " + digits + "%)";
  }

  /** Enabling one intervention puts exactly one line carrying 50% into the
      prompt; disabling it again removes the intervention part entirely. */
  lemma OneInterventionScenario(name: string)
    ensures InterventionPrompt(Toggle([], name)) ==
      InterventionHeader + InterventionLine(name, 50) + InterventionFooter
    ensures IntToString(50) == "50"
    ensures InterventionPrompt(Toggle(Toggle([], name), name)) == ""
  {
    assert IntToString(50) == "50" by {
      assert NatToString(5) == "5";
      assert NatToString(50) == NatToString(5) + [DigitChar(0)];
    }
    var t: Table := [];
    assert Keys(t) == [];
    var one := Toggle(t, name);
    assert one == [(name, 50)];
    assert InterventionLines(one) == [InterventionLine(name, 50)];
    assert InterventionBlock(one) == InterventionLine(name, 50);
    ToggleTwiceRestores(t, name);
  }

  /** `modelInstructionPrompt`. */
  function ModelInstructionPrompt(modelName: string): string {
    ModelInstructionHead + modelName + ModelInstructionTail
  }

  /** The literal strings of the prediction prompt template, in order. */
  const PromptStrings: seq<string> :=
    [PromptDisease, PromptCsv, PromptModel, PromptModelEnd, PromptInterventions,
     PromptInsights, PromptPeriod, PromptEnd]

  /** The values substituted into the prediction prompt, in order. */
  function PromptValues(disease: Disease, csvData: string, interventions: Table,
                        modelName: string, predictionPeriod: int): seq<string>
  {
    [disease.name, csvData, modelName, ModelInstructionPrompt(modelName),
     InterventionPrompt(interventions), modelName, IntToString(predictionPeriod)]
  }

  /** The prediction prompt. */
  function BuildPrompt(disease: Disease, csvData: string, interventions: Table,
                       modelName: string, predictionPeriod: int): string
  {
    Template(PromptStrings, PromptValues(disease, csvData, interventions, modelName, predictionPeriod))
  }

  /** Every substituted value reaches the prediction prompt verbatim: the
      disease name (0), the CSV text (1), the methodology label (2, 5), its
      instruction (3), the intervention part (4) and the horizon (6). */
  lemma BuildPromptMentions(disease: Disease, csvData: string, interventions: Table,
                            modelName: string, predictionPeriod: int, k: nat)
    requires k < |PromptValues(disease, csvData, interventions, modelName, predictionPeriod)|
    ensures Contains(BuildPrompt(disease, csvData, interventions, modelName, predictionPeriod),
                     PromptValues(disease, csvData, interventions, modelName, predictionPeriod)[k])
  {
    TemplateContains(PromptStrings, PromptValues(disease, csvData, interventions, modelName, predictionPeriod), k);
  }

  /** What `ai.models.generateContent` is given (the response schema, which
      the remote side enforces, is not part of this model). */
  datatype PredictionRequest = PredictionRequest(model: string, contents: string, responseMimeType: string)

  function BuildPredictionRequest(disease: Disease, csvData: string, interventions: Table,
                                  modelName: string, predictionPeriod: int): PredictionRequest
  {
    PredictionRequest(PredictionModelName, BuildPrompt(disease, csvData, interventions, modelName, predictionPeriod), JsonMimeType)
  }

  // ----- prediction reply -----

  /** A numeric field of a parsed chart entry: missing, JSON `null`, or a number. */
  datatype RawField = Absent | Null | Number(n: int)

  /** A parsed chart entry. `NullEntry` is a JSON `null`, on which reading
      `d.name` throws. `otherKeys` are any further fields of the entry. */
  datatype RawEntry = NullEntry | RawPoint(name: string, cases: RawField, predicted: RawField, otherKeys: seq<string>)

  /** What `JSON.parse` yields for a reply: the schema's fields, with
      `chartData` as `None` when it is missing or not a list. */
  datatype ParsedResponse = ParsedResponse(
    insights: string,
    riskLevel: RiskLevel,
    recommendations: seq<string>,
    chartData: Option<seq<RawEntry>>)

  /** `d.f !== undefined ? d.f : null`, with `None` for `null`. */
  function NormalizeField(f: RawField): Option<int> {
    match f
    case Number(n) => Some(n)
    case Null => None
    case Absent => None
  }

  /** `chartData.map(d => ({name, cases, predicted}))`: fails exactly when an
      entry is `null`; otherwise it keeps the length, each entry's position and
      name, keeps a present number (0 included) and turns a missing value into
      `null`. Other fields are dropped. */
  function NormalizeChartData(raw: seq<RawEntry>): (r: Option<seq<ChartPoint>>)
    ensures r.Some? <==> forall i :: 0 <= i < |raw| ==> raw[i].RawPoint?
    ensures r.Some? ==> |r.value| == |raw|
    ensures r.Some? ==> forall i :: 0 <= i < |raw| ==>
      && r.value[i].name == raw[i].name
      && (raw[i].cases.Number? ==> r.value[i].cases == Some(raw[i].cases.n))
      && (!raw[i].cases.Number? ==> r.value[i].cases == None)
      && (raw[i].predicted.Number? ==> r.value[i].predicted == Some(raw[i].predicted.n))
      && (!raw[i].predicted.Number? ==> r.value[i].predicted == None)
  {
    if |raw| == 0 then Some([])
    else
      var rest := NormalizeChartData(raw[1..]);
      match raw[0]
      case NullEntry => None
      case RawPoint(name, cases, predicted, _) =>
        if rest.None? then None
        else Some([ChartPoint(name, NormalizeField(cases), NormalizeField(predicted))] + rest.value)
  }

  /** The reply is well formed: it parses after trimming, has a chart list
      and no `null` entry in it. */
  predicate WellFormedReply(text: string, parse: string -> Option<ParsedResponse>) {
    var parsed := parse(Trim(text));
    && parsed.Some?
    && parsed.value.chartData.Some?
    && forall i :: 0 <= i < |parsed.value.chartData.value| ==> parsed.value.chartData.value[i].RawPoint?
  }

  /** The `try` block at the end of `getPrediction`: trim, parse, normalise
      the chart data. Every failure is the one fixed error; on success the
      result carries the parsed insights, risk level and recommendations and
      the normalised chart of the same length. */
  function DecodeReply(text: string, parse: string -> Option<ParsedResponse>): (r: Result<PredictionResult, string>)
    ensures r.Success? <==> WellFormedReply(text, parse)
    ensures r.Failure? ==> r.error == InvalidResponseMessage
    ensures r.Success? ==>
      var p := parse(Trim(text)).value;
      && r.value.insights == p.insights
      && r.value.riskLevel == p.riskLevel
      && r.value.recommendations == p.recommendations
      && |r.value.chartData| == |p.chartData.value|
      && NormalizeChartData(p.chartData.value) == Some(r.value.chartData)
  {
    var parsed := parse(Trim(text));
    if parsed.None? || parsed.value.chartData.None? then Failure(InvalidResponseMessage)
    else
      var p := parsed.value;
      match NormalizeChartData(p.chartData.value)
      case None => Failure(InvalidResponseMessage)
      case Some(chart) => Success(PredictionResult(p.insights, p.riskLevel, p.recommendations, chart))
  }

  /** What `getPrediction` settles to: the error of the remote call, or the
      decoded reply. */
  function PredictionOutcome(disease: Disease, csvData: string, interventions: Table,
                             modelName: string, predictionPeriod: int,
                             generate: PredictionRequest -> Result<string, string>,
                             parse: string -> Option<ParsedResponse>): Result<PredictionResult, string>
  {
    match generate(BuildPredictionRequest(disease, csvData, interventions, modelName, predictionPeriod))
    case Failure(e) => Failure(e)
    case Success(text) => DecodeReply(text, parse)
  }

  /** What a page awaits when it asks for a prediction: disease, CSV text,
      interventions, methodology label and horizon in, result or error out. */
  type PredictionService = (Disease, string, Table, string, int) -> Result<PredictionResult, string>

  /** The service `getPrediction` provides over a given remote call and parser. */
  function GeminiPredictionService(generate: PredictionRequest -> Result<string, string>,
                                   parse: string -> Option<ParsedResponse>): PredictionService
  {
    (disease, csvData, interventions, modelName, predictionPeriod) =>
      PredictionOutcome(disease, csvData, interventions, modelName, predictionPeriod, generate, parse)
  }

  /** The `try` block of `getPrediction`, step by step: parse the trimmed
      text, replace `chartData` by its normalised form, and map any failure
      to the fixed error. */
  method ReadPredictionReply(text: string, parse: string -> Option<ParsedResponse>)
    returns (outcome: Result<PredictionResult, string>)
    ensures outcome == DecodeReply(text, parse)
  {
    var jsonString := Trim(text);
    var parsed := parse(jsonString);
    if parsed.None? {
      return Failure(InvalidResponseMessage);
    }
    var result := parsed.value;
    if result.chartData.None? {
      return Failure(InvalidResponseMessage);
    }
    var chartData := NormalizeChartData(result.chartData.value);
    if chartData.None? {
      return Failure(InvalidResponseMessage);
    }
    outcome := Success(PredictionResult(result.insights, result.riskLevel, result.recommendations, chartData.value));
  }

  /** `getPrediction`: build the request, await the remote call (whose error
      propagates), then decode the reply. */
  method GetPrediction(disease: Disease, csvData: string, interventions: Table,
                       modelName: string, predictionPeriod: int,
                       generate: PredictionRequest -> Result<string, string>,
                       parse: string -> Option<ParsedResponse>)
    returns (outcome: Result<PredictionResult, string>)
    ensures outcome == PredictionOutcome(disease, csvData, interventions, modelName, predictionPeriod, generate, parse)
  {
    var request := BuildPredictionRequest(disease, csvData, interventions, modelName, predictionPeriod);
    var response := generate(request);
    if response.Failure? {
      return Failure(response.error);
    }
    outcome := ReadPredictionReply(response.value, parse);
  }
}
