/** POST /api/research: validate the request, scrape up to five competitors
    through POST /api/scrape-competitor, build the prompt for the startup's
    stage, ask the model once, parse its reply (or fall back to a record
    built from the competitor data), and attach the metadata.

    app/api/research/route.ts */
module Research {
  import opened JsValues
  import opened JsArrays
  import opened Fences
  import opened Http

  const MaxCompetitors: nat := 5
  const DataPointsPerCompetitor: nat := 10

  const ProductAndStageRequired: string := "Product and stage are required"
  const ResearchFailed: string := "Research failed"
  const CompetitorWebsiteAnalysis: string := "Competitor website analysis"
  const ModelMarketResearch: string := "Claude AI market research"
  const CustomerDataAnalysis: string := "Customer data analysis"

  datatype Stage = PreLaunch | EarlyStage | PostRevenue | ScaleUp

  /** The cases of `switch (stage)`: strict equality with one of four
      strings. Any other value matches no case. */
  function StageOf(v: Json): Option<Stage> {
    match v
    case JStr(s) =>
      if s == "pre-launch" then Some(PreLaunch)
      else if s == "early-stage" then Some(EarlyStage)
      else if s == "post-revenue" then Some(PostRevenue)
      else if s == "scale-up" then Some(ScaleUp)
      else None
    case _ => None
  }

  // ---------------------------------------------------------------------
  // Request

  /** The body decoded to an object the route goes on with: `req.json()` did
      not throw and the body is not `null` (destructuring `null` throws). */
  predicate Decoded(body: Completion<Json>) {
    body.Normal? && body.value != JNull
  }

  predicate MissingProductOrStage(body: Completion<Json>) {
    Decoded(body)
    && (!Truthy(Prop(body.value, "product")) || !Truthy(Prop(body.value, "stage")))
  }

  predicate Accepted(body: Completion<Json>) {
    Decoded(body) && !MissingProductOrStage(body)
  }

  /** The request gets past `console.log(`Starting research for: ${product}
      (${stage})`)`, the first place its values are converted to text. */
  predicate Announced(body: Completion<Json>) {
    Accepted(body)
    && !StringThrows(Prop(body.value, "product").value) && !StringThrows(Prop(body.value, "stage").value)
  }

  // ---------------------------------------------------------------------
  // Competitor fan-out

  /** What one competitor unit gets back from POST /api/scrape-competitor. */
  datatype ScrapeReply =
    | NotOk                    // `response.ok` is false
    | Unreadable               // `fetch` or `response.json()` threw
    | Answered(data: Json)     // a 2xx response with this JSON body

  /** What `if (competitors && competitors.length > 0)` and
      `competitors.slice(0, 5).map(...)` do with the `competitors` field. */
  datatype FanOut = NoFanOut | Attempt(urls: seq<Json>) | FanOutThrows

  /** `x > 0` for the `length` property of an object: only numbers and
      booleans are compared here. */
  predicate LengthIsPositive(v: Option<Json>) {
    match v
    case Some(JNum(n)) => n > 0
    case Some(JBool(b)) => b
    case _ => false
  }

  /** Only the first five URLs are attempted, none when the list is absent
      or empty; a non-empty string (which has `slice` but no `map`) or an
      object with a positive `length` (which has neither) makes the call
      throw before any unit starts. Comparing a `length` that is an object
      or an array with 0 converts it first, which throws exactly when
      converting it to text does. */
  function PlanFanOut(competitors: Option<Json>): (plan: FanOut)
    ensures plan.Attempt? ==> 1 <= |plan.urls| <= MaxCompetitors
    ensures !Truthy(competitors) ==> plan == NoFanOut
    ensures competitors.Some? && competitors.value.JArr? ==>
      plan == (if competitors.value.items == [] then NoFanOut
               else Attempt(Take(competitors.value.items, MaxCompetitors)))
    ensures plan.Attempt? ==> competitors.Some? && competitors.value.JArr?
    ensures competitors.Some? && competitors.value.JStr? && competitors.value.s != [] ==> plan == FanOutThrows
    ensures competitors.Some? && competitors.value.JObj? ==>
      var length := Prop(competitors.value, "length");
      length.Some? && StringThrows(length.value) ==> plan == FanOutThrows
  {
    if !Truthy(competitors) then NoFanOut
    else match competitors.value
      case JArr(items) => if |items| > 0 then Attempt(Take(items, MaxCompetitors)) else NoFanOut
      case JStr(_) => FanOutThrows
      case JObj(_) =>
        var length := Prop(competitors.value, "length");
        if length.Some? && StringThrows(length.value) then FanOutThrows
        else if LengthIsPositive(length) then FanOutThrows
        else NoFanOut
      case _ => NoFanOut
  }

  /** A unit's result: `null` (written `Some(JNull)`) for a failed unit,
      otherwise `data.data`, which is `undefined` (`None`) when the reply
      has no `data`. A `null` body makes `data.success` throw inside the
      unit, whose catch also yields `null`. */
  function UnitResult(reply: ScrapeReply): (r: Option<Json>)
    ensures r != Some(JNull) <==>
      reply.Answered? && reply.data != JNull
      && Truthy(Prop(reply.data, "success")) && Prop(reply.data, "data") != Some(JNull)
    ensures r != Some(JNull) ==> r == Prop(reply.data, "data")
  {
    match reply
    case NotOk => Some(JNull)
    case Unreadable => Some(JNull)
    case Answered(data) =>
      if data == JNull then Some(JNull)
      else if Truthy(Prop(data, "success")) then Prop(data, "data")
      else Some(JNull)
  }

  predicate NotNull(r: Option<Json>) {
    r != Some(JNull)
  }

  /** A unit rejects instead of yielding `null` when it fails and its URL
      cannot be converted to text. Every failure path logs `${url}`:
      a failed status inside the `try` and then in the `catch`, while a
      throwing `fetch` or `response.json()`, or a `null` body whose
      `data.success` throws, only reach the `catch`. The `catch` has no
      handler of its own, so its throw leaves the unit. */
  predicate UnitRejects(url: Json, reply: ScrapeReply) {
    StringThrows(url) && (reply.NotOk? || reply.Unreadable? || reply == Answered(JNull))
  }

  /** `Promise.all` rejects when any unit does. */
  predicate BatchRejects(urls: seq<Json>, scrape: (nat, Json) -> ScrapeReply) {
    exists i :: 0 <= i < |urls| && UnitRejects(urls[i], scrape(i, urls[i]))
  }

  /** Only a failing unit can reject, and never one whose URL is a string:
      a batch of string URLs always settles. */
  lemma OnlyFailedUnitsReject(urls: seq<Json>, scrape: (nat, Json) -> ScrapeReply, i: nat)
    requires i < |urls| && UnitRejects(urls[i], scrape(i, urls[i]))
    ensures !NotNull(UnitResult(scrape(i, urls[i])))
    ensures !urls[i].JStr?
  {
  }

  /** `Promise.all(urls.map(unit))`, in submission order. Unit `i` makes its
      own request, so `scrape(i, url)` is the reply to the `i`-th request of
      the batch: two units given the same URL may be answered differently. */
  function Units(urls: seq<Json>, scrape: (nat, Json) -> ScrapeReply): (rs: seq<Option<Json>>)
    ensures |rs| == |urls|
    ensures forall i :: 0 <= i < |urls| ==> rs[i] == UnitResult(scrape(i, urls[i]))
  {
    seq(|urls|, i requires 0 <= i < |urls| => UnitResult(scrape(i, urls[i])))
  }

  /** `results.filter(r => r !== null)` */
  function CompetitorData(urls: seq<Json>, scrape: (nat, Json) -> ScrapeReply): seq<Option<Json>> {
    Filter(Units(urls, scrape), NotNull)
  }

  /** The competitor data are exactly the results of the units that
      succeeded, in the order their URLs were submitted. */
  lemma CompetitorDataInOrder(urls: seq<Json>, scrape: (nat, Json) -> ScrapeReply) returns (idx: seq<nat>)
    ensures var data := CompetitorData(urls, scrape);
      && |idx| == |data|
      && (forall k :: 0 <= k < |idx| ==> idx[k] < |urls| && data[k] == UnitResult(scrape(idx[k], urls[idx[k]])))
      && (forall k, l :: 0 <= k < l < |idx| ==> idx[k] < idx[l])
      && (forall i :: 0 <= i < |urls| ==> (NotNull(UnitResult(scrape(i, urls[i]))) <==> i in idx))
  {
    idx := FilterIsStable(Units(urls, scrape), NotNull);
  }

  /** The replies of a batch with unit `i` taken out, each remaining unit
      answered as it was in the whole batch. */
  function Without(scrape: (nat, Json) -> ScrapeReply, i: nat): (nat, Json) -> ScrapeReply {
    (j: nat, url: Json) => scrape(if j < i then j else j + 1, url)
  }

  /** Unit `j` of the shortened batch is unit `j` or `j + 1` of the whole. */
  lemma UnitWithout(urls: seq<Json>, scrape: (nat, Json) -> ScrapeReply, i: nat, j: nat)
    requires i < |urls| && j < |urls| - 1
    ensures var k := if j < i then j else j + 1;
      Units(urls[..i] + urls[i + 1..], Without(scrape, i))[j] == Units(urls, scrape)[k]
  {
    var k := if j < i then j else j + 1;
    assert (urls[..i] + urls[i + 1..])[j] == urls[k];
  }

  /** Taking unit `i` out of the batch takes out its result and no other. */
  lemma UnitsWithout(urls: seq<Json>, scrape: (nat, Json) -> ScrapeReply, i: nat)
    requires i < |urls|
    ensures Units(urls[..i] + urls[i + 1..], Without(scrape, i))
      == Units(urls, scrape)[..i] + Units(urls, scrape)[i + 1..]
  {
    var rs := Units(urls, scrape);
    var us := Units(urls[..i] + urls[i + 1..], Without(scrape, i));
    var kept := rs[..i] + rs[i + 1..];
    forall j | 0 <= j < |us| ensures us[j] == kept[j] {
      UnitWithout(urls, scrape, i, j);
    }
  }

  /** Fail-soft: a unit that fails can be taken out of the batch without
      changing what the others contribute. */
  lemma FailedUnitIsIsolated(urls: seq<Json>, scrape: (nat, Json) -> ScrapeReply, i: nat)
    requires i < |urls| && !NotNull(UnitResult(scrape(i, urls[i])))
    ensures CompetitorData(urls[..i] + urls[i + 1..], Without(scrape, i)) == CompetitorData(urls, scrape)
  {
    UnitsWithout(urls, scrape, i);
    FilterSkipsDropped(Units(urls, scrape), NotNull, i);
  }

  /** When every unit fails the list is empty; when every unit succeeds
      nothing is dropped. */
  lemma CompetitorDataExtremes(urls: seq<Json>, scrape: (nat, Json) -> ScrapeReply)
    ensures (forall i :: 0 <= i < |urls| ==> !NotNull(UnitResult(scrape(i, urls[i]))))
      ==> CompetitorData(urls, scrape) == []
    ensures (forall i :: 0 <= i < |urls| ==> NotNull(UnitResult(scrape(i, urls[i]))))
      ==> |CompetitorData(urls, scrape)| == |urls|
  {
    var rs := Units(urls, scrape);
    assert forall i :: 0 <= i < |rs| ==> rs[i] == UnitResult(scrape(i, urls[i]));
  }

  // ---------------------------------------------------------------------
  // Stage prompt

  /** The parts of the research prompt, in order. The fixed instruction
      prose of each stage is represented by `Instructions`; `usesCsv` is the
      post-revenue bullet that mentions the CSV analysis. */
  datatype Section =
    | Title(stage: Stage)
    | ProductLine(product: string)
    | TargetMarketLine(targetMarket: string)
    | CustomerPatternsLine(patterns: string)
    | CustomerDataSection(heading: string, analysis: Json)
    | CompetitorDataSection(competitors: seq<Option<Json>>)
    | Instructions(stage: Stage, usesCsv: bool)

  type Prompt = seq<Section>

  /** `${v || fallback}` in a template literal. */
  function TextOr(v: Option<Json>, fallback: string): (r: Completion<string>)
    ensures !Truthy(v) ==> r == Normal(fallback)
    ensures r.Throw? <==> Truthy(v) && StringThrows(v.value)
    ensures r.Throw? ==> r.message == TypeErrorText
  {
    if Truthy(v) then ToJsString(v.value) else Normal(fallback)
  }

  /** `additionalContext?.customerPatterns` */
  function CustomerPatterns(additionalContext: Option<Json>): Option<Json> {
    if additionalContext.Some? then Prop(additionalContext.value, "customerPatterns") else None
  }

  /** The heading of the CSV section: post-revenue and scale-up prompts
      word it differently. */
  function CustomerDataHeading(stage: Stage): string {
    if stage == ScaleUp then "Customer Segmentation Data" else "Customer Data Analysis"
  }

  /** The prompt of a known stage, once its values are text: `patterns` is
      the customer patterns line, which only the early-stage prompt has. */
  function PromptLayout(
    st: Stage, product: string, targetMarket: string, patterns: string,
    csvAnalysis: Option<Json>, competitorData: seq<Option<Json>>): (p: Prompt)
    ensures |p| >= 4 && p[0] == Title(st)
    ensures p[1] == ProductLine(product) && p[2] == TargetMarketLine(targetMarket)
    ensures p[|p| - 1] == Instructions(st, st == PostRevenue && Truthy(csvAnalysis))
    // the competitor data appear, whole, exactly when there are some
    ensures forall s :: s in p && s.CompetitorDataSection? ==> s.competitors == competitorData && competitorData != []
    ensures competitorData != [] ==> CompetitorDataSection(competitorData) in p
    // the CSV analysis appears only for the two later stages, and whenever one was sent
    ensures forall s :: s in p && s.CustomerDataSection? ==>
      && st in {PostRevenue, ScaleUp} && Truthy(csvAnalysis)
      && s == CustomerDataSection(CustomerDataHeading(st), csvAnalysis.value)
    ensures st in {PostRevenue, ScaleUp} && Truthy(csvAnalysis) ==>
      CustomerDataSection(CustomerDataHeading(st), csvAnalysis.value) in p
    // customer patterns are asked about only at the early stage, and there always
    ensures forall s :: s in p && s.CustomerPatternsLine? ==> st == EarlyStage && s.patterns == patterns
    ensures st == EarlyStage ==> CustomerPatternsLine(patterns) in p
  {
    var head := [ProductLine(product), TargetMarketLine(targetMarket)];
    var lines := if st == EarlyStage then [CustomerPatternsLine(patterns)] else [];
    // only the two later stages embed the CSV analysis
    var customers :=
      if st in {PostRevenue, ScaleUp} && Truthy(csvAnalysis) then
        [CustomerDataSection(CustomerDataHeading(st), csvAnalysis.value)]
      else [];
    var competitors := if |competitorData| > 0 then [CompetitorDataSection(competitorData)] else [];
    var last := Instructions(st, st == PostRevenue && Truthy(csvAnalysis));
    var p := [Title(st)] + head + lines + customers + competitors + [last];
    assert forall s :: s in p <==>
      s == Title(st) || s in head || s in lines || s in customers || s in competitors || s == last;
    p
  }

  /** The `switch (stage)` that fills `researchPrompt`. There is no default
      case, so any other stage leaves the prompt empty. A known stage's
      template converts the product, the target market and, at the early
      stage, the customer patterns to text, and throws when one of them
      cannot be converted. */
  function StagePrompt(
    stage: Json, product: Json, targetMarket: Option<Json>, additionalContext: Option<Json>,
    csvAnalysis: Option<Json>, competitorData: seq<Option<Json>>): (r: Completion<Prompt>)
    ensures StageOf(stage).None? ==> r == Normal([])
    ensures r.Throw? <==>
      && StageOf(stage).Some?
      && (|| StringThrows(product)
          || (Truthy(targetMarket) && StringThrows(targetMarket.value))
          || (StageOf(stage) == Some(EarlyStage) && Truthy(CustomerPatterns(additionalContext))
              && StringThrows(CustomerPatterns(additionalContext).value)))
    ensures r.Throw? ==> r.message == TypeErrorText
    ensures r.Normal? && StageOf(stage).Some? ==>
      r.value == PromptLayout(StageOf(stage).value, ToJsString(product).value,
        TextOr(targetMarket, "Not specified").value,
        if StageOf(stage) == Some(EarlyStage) then TextOr(CustomerPatterns(additionalContext), "Not provided").value
        else "",
        csvAnalysis, competitorData)
  {
    match StageOf(stage)
    case None => Normal([])
    case Some(st) =>
      var productText := ToJsString(product);
      var marketText := TextOr(targetMarket, "Not specified");
      var patternsText :=
        if st == EarlyStage then TextOr(CustomerPatterns(additionalContext), "Not provided") else Normal("");
      if productText.Throw? || marketText.Throw? || patternsText.Throw? then Throw(TypeErrorText)
      else Normal(PromptLayout(st, productText.value, marketText.value, patternsText.value,
                               csvAnalysis, competitorData))
  }

  // ---------------------------------------------------------------------
  // Parsing the reply, and the fallback record

  /** One fallback competitor: `{ name: c.url, description: c.description,
      pricing: c.pricing, strengths: [], weaknesses: [] }`; reading a
      property of an `undefined` entry throws. */
  function FallbackEntry(c: Option<Json>): (r: Completion<Json>)
    ensures r.Throw? <==> c.None? || c == Some(JNull)
    ensures r.Throw? ==> r.message == TypeErrorText
    ensures r.Normal? ==>
      && r.value.JObj?
      && r.value.fields.Keys <= {"name", "description", "pricing", "strengths", "weaknesses"}
      && "strengths" in r.value.fields && r.value.fields["strengths"] == JArr([])
      && "weaknesses" in r.value.fields && r.value.fields["weaknesses"] == JArr([])
      && ("name" in r.value.fields <==> Prop(c.value, "url").Some?)
      && ("name" in r.value.fields ==> r.value.fields["name"] == Prop(c.value, "url").value)
      && ("description" in r.value.fields <==> Prop(c.value, "description").Some?)
      && ("description" in r.value.fields ==>
            r.value.fields["description"] == Prop(c.value, "description").value)
      && ("pricing" in r.value.fields <==> Prop(c.value, "pricing").Some?)
      && ("pricing" in r.value.fields ==> r.value.fields["pricing"] == Prop(c.value, "pricing").value)
  {
    match c
    case None => Throw(TypeErrorText)
    case Some(JNull) => Throw(TypeErrorText)
    case Some(v) =>
      var m := PutDefined(PutDefined(PutDefined(map[], "name", Prop(v, "url")),
        "description", Prop(v, "description")), "pricing", Prop(v, "pricing"));
      Normal(JObj(m["strengths" := JArr([])]["weaknesses" := JArr([])]))
  }

  /** `competitorData.map(...)`: one entry per item, in order, unless an
      item is `undefined`. */
  function FallbackCompetitors(cs: seq<Option<Json>>): (r: Completion<seq<Json>>)
    ensures r.Normal? <==> forall i :: 0 <= i < |cs| ==> FallbackEntry(cs[i]).Normal?
    ensures r.Normal? ==>
      |r.value| == |cs| && forall i :: 0 <= i < |cs| ==> r.value[i] == FallbackEntry(cs[i]).value
    ensures r.Throw? ==> r.message == TypeErrorText
  {
    if cs == [] then Normal([])
    else match FallbackEntry(cs[0])
      case Throw(m) => Throw(m)
      case Normal(entry) =>
        match FallbackCompetitors(cs[1..])
        case Throw(m) => Throw(m)
        case Normal(rest) => Normal([entry] + rest)
  }

  /** `researchResults`: the parsed reply, or the fallback record that keeps
      the competitor data and the raw reply text. */
  function ParseOrFallback(text: string, parse: string -> Option<Json>, competitorData: seq<Option<Json>>)
    : (r: Completion<Json>)
    ensures parse(StripFences(text)).Some? ==> r == Normal(parse(StripFences(text)).value)
    ensures parse(StripFences(text)).None? ==>
      (r.Normal? <==> FallbackCompetitors(competitorData).Normal?)
    ensures parse(StripFences(text)).None? && r.Normal? ==>
      r.value == JObj(map[
        "competitors" := JArr(FallbackCompetitors(competitorData).value),
        "icpProfiles" := JArr([]),
        "analysis" := JStr(text)])
    ensures r.Throw? ==> r.message == TypeErrorText
  {
    match parse(StripFences(text))
    case Some(parsed) => Normal(parsed)
    case None =>
      match FallbackCompetitors(competitorData)
      case Throw(m) => Throw(m)
      case Normal(entries) =>
        Normal(JObj(map["competitors" := JArr(entries), "icpProfiles" := JArr([]), "analysis" := JStr(text)]))
  }

  // ---------------------------------------------------------------------
  // Metadata and the final record

  function DataSourcesCited(csvGiven: bool): (r: seq<Json>)
    ensures |r| == if csvGiven then 3 else 2
    ensures r[0] == JStr(CompetitorWebsiteAnalysis) && r[1] == JStr(ModelMarketResearch)
    ensures csvGiven ==> r[2] == JStr(CustomerDataAnalysis)
  {
    [JStr(CompetitorWebsiteAnalysis), JStr(ModelMarketResearch)]
    + (if csvGiven then [JStr(CustomerDataAnalysis)] else [])
  }

  /** `researchDepth`: the competitors analysed, no reviews, and ten data
      points per competitor. */
  function ResearchDepth(analysed: nat): (r: Json)
    ensures r.JObj? && r.fields.Keys == {"competitorsAnalyzed", "reviewsAnalyzed", "dataPointsCollected"}
    ensures r.fields["competitorsAnalyzed"] == JNum(analysed) && r.fields["reviewsAnalyzed"] == JNum(0)
    ensures r.fields["dataPointsCollected"] == JNum(DataPointsPerCompetitor * analysed)
  {
    JObj(map[
      "competitorsAnalyzed" := JNum(analysed),
      "reviewsAnalyzed" := JNum(0),
      "dataPointsCollected" := JNum(analysed * DataPointsPerCompetitor)])
  }

  const GeneratedKeys: set<string> := {"requestId", "timestamp", "stage"}
  const MetadataKeys: set<string> := {"dataSourcesCited", "researchDepth"}

  /** `{ requestId, timestamp, stage, ...researchResults, dataSourcesCited,
      researchDepth }`: later properties win, so the model's own keys replace
      the generated id, timestamp and stage, and the two metadata fields
      replace whatever the model said under those names. */
  function FinalResults(
    requestId: string, timestamp: string, stage: Json, researchResults: Json,
    csvGiven: bool, analysed: nat): (r: map<string, Json>)
    ensures r.Keys == GeneratedKeys + Spread(researchResults).Keys + MetadataKeys
    ensures r["dataSourcesCited"] == JArr(DataSourcesCited(csvGiven))
    ensures r["researchDepth"] == ResearchDepth(analysed)
    ensures forall k :: k in Spread(researchResults) && k !in MetadataKeys ==> r[k] == Spread(researchResults)[k]
    ensures "requestId" !in Spread(researchResults) ==> r["requestId"] == JStr(requestId)
    ensures "timestamp" !in Spread(researchResults) ==> r["timestamp"] == JStr(timestamp)
    ensures "stage" !in Spread(researchResults) ==> r["stage"] == stage
  {
    map["requestId" := JStr(requestId), "timestamp" := JStr(timestamp), "stage" := stage]
    + Spread(researchResults)
    + map["dataSourcesCited" := JArr(DataSourcesCited(csvGiven)), "researchDepth" := ResearchDepth(analysed)]
  }

  /** `{ success: false, error: 'Research failed', message: error.message }`
      with status 500. */
  function Failure(message: string): Response {
    JsonResponse(500, map["success" := JBool(false), "error" := JStr(ResearchFailed), "message" := JStr(message)])
  }

  // ---------------------------------------------------------------------
  // The handler

  /** The external calls the handler made: the competitor URLs it posted to
      the scrape route, and the prompts it sent to the model. */
  datatype Trace = Trace(scraped: seq<Json>, prompts: seq<Prompt>)

  /** The reply text of the single model call, when it did not throw. */
  function ReplyTextOf(trace: Trace, model: Prompt -> ModelReply): string
    requires |trace.prompts| == 1 && !model(trace.prompts[0]).ModelFailed?
  {
    ResponseText(model(trace.prompts[0]))
  }

  /** The record sent back for a reply: the parsed (or fallback) results
      with the generated fields and the metadata. */
  function SuccessResponse(
    requestId: string, timestamp: string, stage: Json, researchResults: Json,
    csvGiven: bool, analysed: nat): Response
  {
    JsonResponse(200, map["success" := JBool(true),
      "results" := JObj(FinalResults(requestId, timestamp, stage, researchResults, csvGiven, analysed))])
  }

  /** Steps 2 to 4 of the handler: build the stage's prompt, ask the model,
      parse the reply or fall back, and assemble the final record. `asked`
      holds the prompts sent to the model: none when building the prompt
      throws. */
  method Answer(
    stage: Json, product: Json, targetMarket: Option<Json>, additionalContext: Option<Json>,
    csvAnalysis: Option<Json>, competitorData: seq<Option<Json>>,
    model: Prompt -> ModelReply, parse: string -> Option<Json>, requestId: string, timestamp: string)
    returns (resp: Response, asked: seq<Prompt>)
    ensures resp.contentType == ApplicationJson && resp.status in {200, 500}
    ensures var built := StagePrompt(stage, product, targetMarket, additionalContext, csvAnalysis, competitorData);
      && (built.Throw? ==> resp == Failure(built.message) && asked == [])
      && (built.Normal? ==> asked == [built.value])
    ensures |asked| == 1 && model(asked[0]).ModelFailed? ==> resp == Failure(model(asked[0]).message)
    ensures |asked| == 1 && !model(asked[0]).ModelFailed? ==>
      var results := ParseOrFallback(ResponseText(model(asked[0])), parse, competitorData);
      resp == (if results.Throw? then Failure(results.message)
               else SuccessResponse(requestId, timestamp, stage, results.value, Truthy(csvAnalysis), |competitorData|))
  {
    var built := StagePrompt(stage, product, targetMarket, additionalContext, csvAnalysis, competitorData);
    if built.Throw? {
      return Failure(built.message), [];
    }
    var researchPrompt := built.value;
    asked := [researchPrompt];
    var reply := model(researchPrompt);
    if reply.ModelFailed? {
      return Failure(reply.message), asked;
    }
    var responseText := ResponseText(reply);
    var researchResults := ParseOrFallback(responseText, parse, competitorData);
    if researchResults.Throw? {
      return Failure(researchResults.message), asked;
    }
    resp := SuccessResponse(requestId, timestamp, stage, researchResults.value,
                            Truthy(csvAnalysis), |competitorData|);
  }

  /** `body` is what `req.json()` produced; `scrape`, `model` and `parse`
      stand for the scrape route as reached over HTTP, the model provider and
      `JSON.parse`; `requestId` and `timestamp` for `crypto.randomUUID()` and
      `new Date().toISOString()`. */
  method Post(
    body: Completion<Json>, scrape: (nat, Json) -> ScrapeReply, model: Prompt -> ModelReply,
    parse: string -> Option<Json>, requestId: string, timestamp: string)
    returns (resp: Response, trace: Trace)
    // every outcome is JSON, with one of three statuses
    ensures resp.contentType == ApplicationJson && resp.status in {200, 400, 500}
    ensures |trace.scraped| <= MaxCompetitors && |trace.prompts| <= 1
    // unreadable body
    ensures body.Throw? ==> resp == Failure(body.message) && trace == Trace([], [])
    ensures body == Normal(JNull) ==> resp == Failure(TypeErrorText) && trace == Trace([], [])
    // validation: 400 exactly when product or stage is missing, before any call
    ensures resp.status == 400 <==> MissingProductOrStage(body)
    ensures MissingProductOrStage(body) ==>
      resp == JsonResponse(400, map["error" := JStr(ProductAndStageRequired)]) && trace == Trace([], [])
    // a product or stage that cannot be converted to text fails at the log line, before any call
    ensures Accepted(body) && !Announced(body) ==> resp == Failure(TypeErrorText) && trace == Trace([], [])
    // the fan-out: the first five URLs of a non-empty list, none otherwise
    ensures Announced(body) ==>
      trace.scraped == (match PlanFanOut(Prop(body.value, "competitors"))
                        case Attempt(urls) => urls
                        case _ => [])
    ensures Announced(body) && PlanFanOut(Prop(body.value, "competitors")) == FanOutThrows ==>
      resp == Failure(TypeErrorText) && trace.prompts == []
    // a unit that rejects fails the whole request
    ensures Announced(body) && BatchRejects(trace.scraped, scrape) ==>
      resp == Failure(TypeErrorText) && trace.prompts == []
    // otherwise the stage's prompt is built from the competitor data and, unless that throws,
    // sent to the model once
    ensures (Announced(body) && PlanFanOut(Prop(body.value, "competitors")) != FanOutThrows
             && !BatchRejects(trace.scraped, scrape)) ==>
      var built := StagePrompt(
        Prop(body.value, "stage").value, Prop(body.value, "product").value,
        Prop(body.value, "targetMarket"), Prop(body.value, "additionalContext"),
        Prop(body.value, "csvAnalysis"), CompetitorData(trace.scraped, scrape));
      && (built.Throw? ==> resp == Failure(TypeErrorText) && trace.prompts == [])
      && (built.Normal? ==> trace.prompts == [built.value])
    ensures |trace.prompts| == 1 ==>
      Announced(body) && PlanFanOut(Prop(body.value, "competitors")) != FanOutThrows
      && !BatchRejects(trace.scraped, scrape)
    // what the reply turns into
    ensures |trace.prompts| == 1 && model(trace.prompts[0]).ModelFailed? ==>
      resp == Failure(model(trace.prompts[0]).message)
    ensures |trace.prompts| == 1 && !model(trace.prompts[0]).ModelFailed? ==>
      var data := CompetitorData(trace.scraped, scrape);
      var results := ParseOrFallback(ReplyTextOf(trace, model), parse, data);
      resp == (if results.Throw? then Failure(results.message)
               else SuccessResponse(requestId, timestamp, Prop(body.value, "stage").value, results.value,
                                    Truthy(Prop(body.value, "csvAnalysis")), |data|))
  {
    trace := Trace([], []);
    if body.Throw? {
      return Failure(body.message), trace;
    }
    var request := body.value;
    if request == JNull {
      return Failure(TypeErrorText), trace;
    }
    var product := Prop(request, "product");
    var stage := Prop(request, "stage");
    var targetMarket := Prop(request, "targetMarket");
    var competitors := Prop(request, "competitors");
    var additionalContext := Prop(request, "additionalContext");
    var csvAnalysis := Prop(request, "csvAnalysis");

    if !Truthy(product) || !Truthy(stage) {
      return JsonResponse(400, map["error" := JStr(ProductAndStageRequired)]), trace;
    }

    // the log line converts both values to text
    var announced := ToJsString(product.value);
    if announced.Normal? {
      announced := ToJsString(stage.value);
    }
    if announced.Throw? {
      return Failure(announced.message), trace;
    }

    // Step 1: scrape competitors
    var competitorData: seq<Option<Json>> := [];
    match PlanFanOut(competitors) {
      case FanOutThrows =>
        return Failure(TypeErrorText), trace;
      case Attempt(urls) =>
        trace := trace.(scraped := urls);
        if BatchRejects(urls, scrape) {
          return Failure(TypeErrorText), trace;
        }
        competitorData := CompetitorData(urls, scrape);
      case NoFanOut =>
    }

    var asked;
    resp, asked := Answer(stage.value, product.value, targetMarket, additionalContext,
                          csvAnalysis, competitorData, model, parse, requestId, timestamp);
    trace := trace.(prompts := asked);
  }
}
