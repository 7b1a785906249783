/** The prediction page's state and handlers (pages/PredictionDetailPage.tsx):
    upload of the case data, the modelling parameters, and the predict action
    around the Gemini service. */
module PredictionDetail {
  import opened Wrappers
  import opened Strings
  import opened Types
  import opened Browser
  import opened Catalog
  import opened Interventions
  import opened GeminiService

  /** The methodology labels offered; the first is selected initially. */
  const MlModels: seq<string> := [
    "Random Forest",
    "Regresi Linier",
    "LSTM (Long Short-Term Memory)",
    "Temporal Fusion Transformer (TFT)"
  ]

  const InitialPeriod: int := 12
  const MinPeriod: int := 1
  const MaxPeriod: int := 60

  const UploadErrorMessage: string := "Please upload a valid CSV or Excel file."
  const PredictionFallbackMessage: string := "An error occurred while generating the prediction."
  const DiseaseNotFoundText: string := "Disease not found."

  /** The page for a route id: the catalog entry, or the not-found text when
      no entry carries the id. */
  function DiseasePage(diseaseId: string): (r: Result<Disease, string>)
    ensures r.Failure? <==> diseaseId !in Ids(DISEASES)
    ensures r.Failure? ==> r.error == DiseaseNotFoundText
    ensures r.Success? ==> r.value in DISEASES && r.value.id == diseaseId
  {
    FindInCatalog(DISEASES, diseaseId);
    match FindById(DISEASES, diseaseId)
    case Some(d) => Success(d)
    case None => Failure(DiseaseNotFoundText)
  }

  /** `handlePeriodChange`, given the raw input and what `parseInt` made of
      it: a number is clamped into [1, 60], the empty input gives 1, and any
      other unparsable input leaves the period as it was. So a period in
      [1, 60] stays there. */
  function NextPeriod(current: int, value: string, parsed: Option<int>): (r: int)
    ensures parsed.Some? ==> MinPeriod <= r <= MaxPeriod
    ensures parsed.Some? && MinPeriod <= parsed.value <= MaxPeriod ==> r == parsed.value
    ensures parsed.Some? && parsed.value < MinPeriod ==> r == MinPeriod
    ensures parsed.Some? && parsed.value > MaxPeriod ==> r == MaxPeriod
    ensures parsed.None? && value == "" ==> r == MinPeriod
    ensures parsed.None? && value != "" ==> r == current
    ensures MinPeriod <= current <= MaxPeriod ==> MinPeriod <= r <= MaxPeriod
  {
    match parsed
    case Some(period) => Clamp(period, MinPeriod, MaxPeriod)
    case None => if value == "" then MinPeriod else current
  }

  /** How `onDrop` treats a file, by the (case-sensitive) end of its name. */
  datatype UploadKind = CsvText | Spreadsheet | Unsupported

  function ClassifyUpload(fileName: string): (r: UploadKind)
    ensures r == CsvText <==> EndsWith(fileName, ".csv")
    ensures r == Spreadsheet <==> !EndsWith(fileName, ".csv") && (EndsWith(fileName, ".xls") || EndsWith(fileName, ".xlsx"))
  {
    if EndsWith(fileName, ".csv") then CsvText
    else if EndsWith(fileName, ".xls") || EndsWith(fileName, ".xlsx") then Spreadsheet
    else Unsupported
  }

  /** Examples: the suffix test is case sensitive, and `.xlsx` is a
      spreadsheet. */
  lemma UploadExamples()
    ensures ClassifyUpload("kasus.csv") == CsvText
    ensures ClassifyUpload("kasus.xlsx") == Spreadsheet
    ensures ClassifyUpload("kasus.xls") == Spreadsheet
    ensures ClassifyUpload("KASUS.CSV") == Unsupported
    ensures ClassifyUpload("kasus.txt") == Unsupported
  {
    assert "kasus.csv"[5..] == ".csv";
    assert "kasus.xlsx"[5..] == ".xlsx";
    assert "kasus.xlsx"[6..] != ".xls";
    assert "kasus.xls"[5..] == ".xls";
    assert "KASUS.CSV"[5..] != ".csv";
    assert "KASUS.CSV"[5..] != ".xlsx"[1..];
    assert "kasus.txt"[5..] != ".csv";
  }

  /** The error text after dropping a file with this name. */
  function UploadError(fileName: string): (r: string)
    ensures r == "" <==> ClassifyUpload(fileName) != Unsupported
    ensures ClassifyUpload(fileName) == Unsupported ==> r == UploadErrorMessage
  {
    if ClassifyUpload(fileName) == Unsupported then UploadErrorMessage else ""
  }

  const ColorLow: string := "text-green-400"
  const ColorMedium: string := "text-yellow-400"
  const ColorHigh: string := "text-orange-400"
  const ColorVeryHigh: string := "text-red-500"
  const ColorOther: string := "text-gray-400"

  /** `getRiskLevelColor`, a switch over the wire spelling of the level. */
  function RiskLevelColor(level: string): string {
    if level == "Low" then ColorLow
    else if level == "Medium" then ColorMedium
    else if level == "High" then ColorHigh
    else if level == "Very High" then ColorVeryHigh
    else ColorOther
  }

  /** Each declared level gets its own colour (green, yellow, orange, red),
      none of them the fallback; any other text gets the fallback. */
  lemma RiskLevelColors(a: RiskLevel, b: RiskLevel, other: string)
    requires other !in ["Low", "Medium", "High", "Very High"]
    ensures RiskLevelColor(RiskLevelName(Low)) == "text-green-400"
    ensures RiskLevelColor(RiskLevelName(Medium)) == "text-yellow-400"
    ensures RiskLevelColor(RiskLevelName(High)) == "text-orange-400"
    ensures RiskLevelColor(RiskLevelName(VeryHigh)) == "text-red-500"
    ensures RiskLevelColor(RiskLevelName(a)) != ColorOther
    ensures a != b ==> RiskLevelColor(RiskLevelName(a)) != RiskLevelColor(RiskLevelName(b))
    ensures RiskLevelColor(other) == ColorOther
  {
  }

  /** The error text shown for a failed prediction: `err.message || fallback`. */
  function ShownError(message: string): (r: string)
    ensures r != ""
    ensures message != "" ==> r == message
    ensures message == "" ==> r == PredictionFallbackMessage
  {
    if message != "" then message else PredictionFallbackMessage
  }

  /** The arguments `handlePredict` passes to the prediction service, as its
      closure saw the page when the button was pressed. */
  datatype PredictionInput = PredictionInput(
    disease: Disease,
    csvData: string,
    interventions: Table,
    modelName: string,
    predictionPeriod: int)

  /** The state of the prediction page. */
  class PredictionDetailPage {
    /** The route parameter. */
    const diseaseId: string
    /** The catalog entry of the route parameter, looked up once per page. */
    const disease: Option<Disease>
    var file: Option<UploadedFile>
    var csvData: string
    var prediction: Option<PredictionResult>
    var isLoading: bool
    var error: string
    var interventions: Table
    var selectedModel: string
    var predictionPeriod: int

    /** The table holds only offered interventions, with unique keys and
      values in [0, 100]; the horizon stays in [1, 60]; and while a
      prediction is pending there is no prediction to show. */
    ghost predicate Valid()
      reads this
    {
      && UniqueKeys(interventions)
      && InRange(interventions)
      && OfferedOnly(interventions)
      && MinPeriod <= predictionPeriod <= MaxPeriod
      && (isLoading ==> prediction.None?)
    }

    /** The initial state of the page. */
    constructor (diseaseId: string)
      ensures Valid()
      ensures this.diseaseId == diseaseId && disease == FindById(DISEASES, diseaseId)
      ensures file == None && csvData == "" && prediction == None && !isLoading && error == ""
      ensures interventions == [] && selectedModel == "Random Forest" && predictionPeriod == InitialPeriod
    {
      this.diseaseId := diseaseId;
      disease := FindById(DISEASES, diseaseId);
      file := None;
      csvData := "";
      prediction := None;
      isLoading := false;
      error := "";
      interventions := [];
      selectedModel := MlModels[0];
      predictionPeriod := InitialPeriod;
    }

    /** `onDrop`: the first accepted file is kept and the error cleared; a
      `.csv` is read as text, a `.xls`/`.xlsx` is converted to CSV, and the
      text replaces the CSV data only when that read succeeds (a reader or
      SheetJS failure never reaches `setCsvData`); any other name sets the
      upload error and leaves the CSV data as it was. */
    method OnDrop(acceptedFiles: seq<UploadedFile>,
                  readAsText: UploadedFile -> Option<string>,
                  sheetToCsv: UploadedFile -> Option<string>)
      requires Valid()
      modifies this
      ensures Valid()
      ensures |acceptedFiles| == 0 ==> file == old(file) && csvData == old(csvData) && error == old(error)
      ensures |acceptedFiles| > 0 ==> file == Some(acceptedFiles[0]) && error == UploadError(acceptedFiles[0].name)
      ensures |acceptedFiles| > 0 && ClassifyUpload(acceptedFiles[0].name) == CsvText ==>
        csvData == (if readAsText(acceptedFiles[0]).Some? then readAsText(acceptedFiles[0]).value else old(csvData))
      ensures |acceptedFiles| > 0 && ClassifyUpload(acceptedFiles[0].name) == Spreadsheet ==>
        csvData == (if sheetToCsv(acceptedFiles[0]).Some? then sheetToCsv(acceptedFiles[0]).value else old(csvData))
      ensures |acceptedFiles| > 0 && ClassifyUpload(acceptedFiles[0].name) == Unsupported ==>
        csvData == old(csvData)
      ensures prediction == old(prediction) && isLoading == old(isLoading)
      ensures interventions == old(interventions) && selectedModel == old(selectedModel)
      ensures predictionPeriod == old(predictionPeriod)
    {
      if |acceptedFiles| > 0 {
        var selectedFile := acceptedFiles[0];
        file := Some(selectedFile);
        error := "";
        var kind := ClassifyUpload(selectedFile.name);
        if kind == CsvText {
          var text := readAsText(selectedFile);
          if text.Some? {
            csvData := text.value;
          }
        } else if kind == Spreadsheet {
          var csv := sheetToCsv(selectedFile);
          if csv.Some? {
            csvData := csv.value;
          }
        } else {
          error := UploadErrorMessage;
        }
      }
    }

    /** The methodology drop-down. */
    method SelectModel(model: string)
      requires Valid()
      modifies this
      ensures Valid()
      ensures selectedModel == model
      ensures file == old(file) && csvData == old(csvData) && prediction == old(prediction)
      ensures isLoading == old(isLoading) && error == old(error)
      ensures interventions == old(interventions) && predictionPeriod == old(predictionPeriod)
    {
      selectedModel := model;
    }

    /** `handleInterventionToggle`, called from the check box of an offered
      intervention: on a copy of the table, delete the key if present, else
      set it to 50. */
    method HandleInterventionToggle(intervention: string)
      requires Valid() && intervention in AllInterventions
      modifies this
      ensures Valid()
      ensures interventions == Toggle(old(interventions), intervention)
      ensures file == old(file) && csvData == old(csvData) && prediction == old(prediction)
      ensures isLoading == old(isLoading) && error == old(error)
      ensures selectedModel == old(selectedModel) && predictionPeriod == old(predictionPeriod)
    {
      TogglePreserves(interventions, intervention);
      ToggleKeepsOffered(interventions, intervention);
      var newInterventions := interventions;
      if intervention in Keys(newInterventions) {
        newInterventions := Remove(newInterventions, intervention);
      } else {
        newInterventions := Assign(newInterventions, intervention, DefaultEffectiveness);
      }
      interventions := newInterventions;
    }

    /** `handleInterventionValueChange`, called from the slider or number box
      of an offered intervention: store the value clamped to [0, 100]. */
    method HandleInterventionValueChange(intervention: string, value: int)
      requires Valid() && intervention in AllInterventions
      modifies this
      ensures Valid()
      ensures interventions == SetValue(old(interventions), intervention, value)
      ensures file == old(file) && csvData == old(csvData) && prediction == old(prediction)
      ensures isLoading == old(isLoading) && error == old(error)
      ensures selectedModel == old(selectedModel) && predictionPeriod == old(predictionPeriod)
    {
      SetValuePreserves(interventions, intervention, value);
      SetValueKeepsOffered(interventions, intervention, value);
      var clampedValue := Clamp(value, 0, 100);
      interventions := Assign(interventions, intervention, clampedValue);
    }

    /** `handlePeriodChange`. */
    method HandlePeriodChange(value: string, parsed: Option<int>)
      requires Valid()
      modifies this
      ensures Valid()
      ensures predictionPeriod == NextPeriod(old(predictionPeriod), value, parsed)
      ensures file == old(file) && csvData == old(csvData) && prediction == old(prediction)
      ensures isLoading == old(isLoading) && error == old(error)
      ensures interventions == old(interventions) && selectedModel == old(selectedModel)
    {
      if parsed.Some? {
        predictionPeriod := Clamp(parsed.value, MinPeriod, MaxPeriod);
      } else if value == "" {
        predictionPeriod := MinPeriod;
      }
    }

    /** `handlePredict` up to its `await`: nothing without CSV data or a
      disease; otherwise set loading, clear the error and the old
      prediction, and hand back the arguments of the service call. The
      other handlers stay live until `CompletePredict`. */
    method BeginPredict() returns (request: Option<PredictionInput>)
      requires Valid()
      modifies this
      ensures Valid()
      ensures request.None? <==> old(csvData) == "" || disease.None?
      ensures request.None? ==>
        prediction == old(prediction) && error == old(error) && isLoading == old(isLoading)
      ensures request.Some? ==>
        && request.value == PredictionInput(disease.value, csvData, interventions, selectedModel, predictionPeriod)
        && isLoading && error == "" && prediction == None
      ensures request.Some? ==> OfferedOnly(request.value.interventions) && InRange(request.value.interventions)
      ensures request.Some? ==> forall i :: 0 <= i < |request.value.interventions| ==>
        '\n' !in request.value.interventions[i].0
      ensures request.Some? ==> MinPeriod <= request.value.predictionPeriod <= MaxPeriod
      ensures file == old(file) && csvData == old(csvData) && interventions == old(interventions)
      ensures selectedModel == old(selectedModel) && predictionPeriod == old(predictionPeriod)
    {
      if csvData == "" || disease.None? {
        return None;
      }
      OfferedKeysOneLine(interventions);
      isLoading := true;
      error := "";
      prediction := None;
      request := Some(PredictionInput(disease.value, csvData, interventions, selectedModel, predictionPeriod));
    }

    /** `handlePredict` after its `await`: the result is stored, or the
      shown error is; either way loading ends. Nothing else is touched, so
      an error set by a drop during the wait stays beside the result. */
    method CompletePredict(outcome: Result<PredictionResult, string>)
      requires Valid()
      modifies this
      ensures Valid()
      ensures !isLoading
      ensures outcome.Success? ==> prediction == Some(outcome.value) && error == old(error)
      ensures outcome.Failure? ==> prediction == old(prediction) && error == ShownError(outcome.error)
      ensures file == old(file) && csvData == old(csvData) && interventions == old(interventions)
      ensures selectedModel == old(selectedModel) && predictionPeriod == old(predictionPeriod)
    {
      if outcome.Success? {
        prediction := Some(outcome.value);
      } else {
        error := ShownError(outcome.error);
      }
      isLoading := false;
    }

    /** `handlePredict` when no other handler runs during the wait: the
      guard, then the service call on the page's values, then its result
      or the shown error, with loading cleared at the end. */
    method HandlePredict(predict: PredictionService)
      requires Valid()
      modifies this
      ensures Valid()
      ensures old(csvData) == "" || disease.None? ==>
        prediction == old(prediction) && error == old(error) && isLoading == old(isLoading)
      ensures old(csvData) != "" && disease.Some? ==>
        var outcome := predict(disease.value, csvData, interventions, selectedModel, predictionPeriod);
        && !isLoading
        && (outcome.Success? ==> prediction == Some(outcome.value) && error == "")
        && (outcome.Failure? ==> prediction == None && error == ShownError(outcome.error))
      ensures file == old(file) && csvData == old(csvData) && interventions == old(interventions)
      ensures selectedModel == old(selectedModel) && predictionPeriod == old(predictionPeriod)
    {
      var request := BeginPredict();
      if request.None? {
        return;
      }
      var r := request.value;
      var result := predict(r.disease, r.csvData, r.interventions, r.modelName, r.predictionPeriod);
      CompletePredict(result);
    }
  }
}
