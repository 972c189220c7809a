/** POST /api/analyze-csv: check that `csvData` is a string, parse it into
    records, ask the model to segment the customers (showing it at most the
    first 100 records), and return its parsed analysis with the full record
    count.

    app/api/analyze-csv/route.ts */
module AnalyzeCsv {
  import opened JsValues
  import opened JsArrays
  import opened Fences
  import opened Http

  const MaxPromptRecords: nat := 100

  const CsvDataRequired: string := "CSV data is required as a string"
  const CsvParseFailedPrefix: string := "Failed to parse CSV: "
  const NoDataFound: string := "No data found in CSV"
  const AnalysisFailed: string := "Analysis failed"
  const AnalysisParseFailed: string := "Failed to parse analysis result"
  const InternalServerError: string := "Internal server error"

  /** What `Papa.parse(csvData, { header: true, skipEmptyLines: true,
      dynamicTyping: true })` returns: one object per data row, and the
      problems it met on the way. */
  datatype CsvResult = CsvResult(data: seq<Json>, errors: seq<string>)

  /** The analysis prompt: the fixed segmentation instructions around the
      total record count, the records shown, and whether the note that only
      the first 100 are shown is added. */
  datatype AnalysisPrompt = AnalysisPrompt(recordCount: nat, records: seq<Json>, showsFirst100Note: bool)

  /** The prompt embeds at most the first 100 records and reports the full
      count, with the note exactly when records were left out. */
  function PromptFor(records: seq<Json>): (p: AnalysisPrompt)
    ensures p.recordCount == |records|
    ensures |p.records| == Min(|records|, MaxPromptRecords) && p.records <= records
    ensures p.showsFirst100Note <==> |p.records| < |records|
  {
    AnalysisPrompt(|records|, Take(records, MaxPromptRecords), |records| > MaxPromptRecords)
  }

  /** The response and the prompts the handler sent to the model. */
  datatype Exchange = Exchange(response: Response, prompts: seq<AnalysisPrompt>)

  function Error(status: nat, error: string): Response {
    JsonResponse(status, map["error" := JStr(error)])
  }

  function ErrorWithMessage(status: nat, error: string, message: string): Response {
    JsonResponse(status, map["error" := JStr(error), "message" := JStr(message)])
  }

  function Success(totalRecords: nat, analysis: Json): (r: Response)
    ensures r.status == 200 && r.body.JObj?
    ensures "totalRecords" in r.body.fields && r.body.fields["totalRecords"] == JNum(totalRecords)
  {
    JsonResponse(200, map["success" := JBool(true), "totalRecords" := JNum(totalRecords), "analysis" := analysis])
  }

  /** The `csvData` field is a non-empty string. */
  predicate HasCsvText(request: Json) {
    var csvData := Prop(request, "csvData");
    Truthy(csvData) && csvData.value.JStr?
  }

  /** `body` is what `req.json()` produced; `csvParse`, `model` and `parse`
      stand for Papa Parse, the model provider and `JSON.parse`. */
  function Post(
    body: Completion<Json>, csvParse: string -> CsvResult, model: AnalysisPrompt -> ModelReply,
    parse: string -> Option<Json>): (x: Exchange)
    ensures x.response.contentType == ApplicationJson && x.response.status in {200, 400, 500}
    ensures |x.prompts| <= 1
    // an unreadable body is an internal error
    ensures body.Throw? ==> x == Exchange(ErrorWithMessage(500, InternalServerError, body.message), [])
    ensures body == Normal(JNull) ==> x == Exchange(ErrorWithMessage(500, InternalServerError, TypeErrorText), [])
    // the input checks, and no model call when they fail
    ensures body.Normal? && body.value != JNull && !HasCsvText(body.value) ==>
      x == Exchange(Error(400, CsvDataRequired), [])
    ensures (body.Normal? && body.value != JNull && HasCsvText(body.value)
             && csvParse(Prop(body.value, "csvData").value.s).data == []) ==>
      x == Exchange(Error(400, CsvParseFailedPrefix + NoDataFound), [])
    ensures x.response.status == 400 <==>
      (body.Normal? && body.value != JNull
       && (!HasCsvText(body.value) || csvParse(Prop(body.value, "csvData").value.s).data == []))
    // otherwise the model is asked once about the parsed records
    ensures x.prompts != [] ==>
      x.prompts == [PromptFor(csvParse(Prop(body.value, "csvData").value.s).data)]
      && x.prompts[0].recordCount > 0
    ensures x.prompts != [] && model(x.prompts[0]).ModelFailed? ==>
      x.response == ErrorWithMessage(500, AnalysisFailed, model(x.prompts[0]).message)
    ensures x.prompts != [] && !model(x.prompts[0]).ModelFailed? ==>
      var parsed := parse(StripFences(ResponseText(model(x.prompts[0]))));
      x.response == if parsed.Some? then Success(x.prompts[0].recordCount, parsed.value)
                    else ErrorWithMessage(500, AnalysisFailed, AnalysisParseFailed)
    ensures x.response.status == 200 ==> x.prompts != []
  {
    match body
    case Throw(message) => Exchange(ErrorWithMessage(500, InternalServerError, message), [])
    case Normal(request) =>
      if request == JNull then Exchange(ErrorWithMessage(500, InternalServerError, TypeErrorText), [])
      else if !HasCsvText(request) then Exchange(Error(400, CsvDataRequired), [])
      else
        // parse errors are only logged
        var parsedData := csvParse(Prop(request, "csvData").value.s).data;
        if |parsedData| == 0 then Exchange(Error(400, CsvParseFailedPrefix + NoDataFound), [])
        else
          var analysisPrompt := PromptFor(parsedData);
          match model(analysisPrompt)
          case ModelFailed(message) =>
            Exchange(ErrorWithMessage(500, AnalysisFailed, message), [analysisPrompt])
          case reply =>
            match parse(StripFences(ResponseText(reply)))
            case None => Exchange(ErrorWithMessage(500, AnalysisFailed, AnalysisParseFailed), [analysisPrompt])
            case Some(analysisResult) =>
              Exchange(Success(|parsedData|, analysisResult), [analysisPrompt])
  }

  /** `totalRecords` is the full number of parsed rows, even when the model
      was shown only the first 100. */
  lemma TotalRecordsCountsEveryRow(
    body: Completion<Json>, csvParse: string -> CsvResult, model: AnalysisPrompt -> ModelReply,
    parse: string -> Option<Json>)
    requires Post(body, csvParse, model, parse).response.status == 200
    ensures var x := Post(body, csvParse, model, parse);
      var rows := csvParse(Prop(body.value, "csvData").value.s).data;
      && x.response.body.JObj? && "totalRecords" in x.response.body.fields
      && x.response.body.fields["totalRecords"] == JNum(|rows|)
      && x.prompts[0].records == Take(rows, MaxPromptRecords)
  {
    var x := Post(body, csvParse, model, parse);
    var rows := csvParse(Prop(body.value, "csvData").value.s).data;
    var prompt := PromptFor(rows);
    assert x.prompts == [prompt];
    var reply := model(prompt);
    assert !reply.ModelFailed?;
    var parsed := parse(StripFences(ResponseText(reply)));
    assert parsed.Some?;
    assert x.response == Success(|rows|, parsed.value);
  }

  /** Parser errors never decide the outcome: two parses that found the
      same rows give the same exchange, whatever errors they reported. */
  lemma ParseErrorsAreNotFatal(
    body: Completion<Json>, p1: string -> CsvResult, p2: string -> CsvResult,
    model: AnalysisPrompt -> ModelReply, parse: string -> Option<Json>)
    requires forall text :: p1(text).data == p2(text).data
    ensures Post(body, p1, model, parse) == Post(body, p2, model, parse)
  {
    if body.Normal? && body.value != JNull && HasCsvText(body.value) {
      var text := Prop(body.value, "csvData").value.s;
      assert p1(text).data == p2(text).data;
    }
  }
}
