/** POST /api/scrape-competitor: check the configuration, read and validate
    the URL, fetch the page, keep at most its first 50,000 characters, ask
    the model to extract structured data and parse the reply. Failures of
    the fetch and of the extraction are reported as `success: false` data
    with status 200; only configuration and request problems are HTTP
    errors.

    app/api/scrape-competitor/route.ts */
module ScrapeCompetitor {
  import opened JsValues
  import opened JsArrays
  import opened Fences
  import opened Http

  const MaxHtmlChars: nat := 50000

  const ApiConfigurationError: string := "API configuration error"
  const ApiKeyMissingMessage: string :=
    "ANTHROPIC_API_KEY environment variable is not set. Please add it to your .env.local file."
  const UrlRequired: string := "URL is required"
  const UrlRequiredMessage: string := "Please provide a URL to scrape"
  const InvalidUrlFormat: string := "Invalid URL format"
  const InvalidUrlMessage: string := "Please provide a valid URL (e.g., https://example.com)"
  const FetchFailedPrefix: string := "Failed to fetch website: "
  const ExtractFailedPrefix: string := "Failed to extract data: "
  const ParseFailedMessage: string := "Failed to parse extracted data"
  const InternalServerError: string := "Internal server error"
  const UnexpectedErrorMessage: string := "An unexpected error occurred while processing your request"

  /** What `fetch(href)` followed by `response.text()` yields: a response
      with its status line and body, or a thrown error (network failure,
      the 30-second abort, an unreadable body). */
  datatype FetchOutcome =
    | Fetched(status: nat, statusText: string, text: string)
    | FetchFailed(message: string)

  /** The extraction prompt: the fixed instructions around the page's
      address and its (truncated) HTML. */
  datatype ExtractionPrompt = ExtractionPrompt(href: string, html: string)

  /** The external steps the handler took: whether it read the request
      body, the addresses it fetched and the prompts it sent. */
  datatype Trace = Trace(bodyRead: bool, fetched: seq<string>, prompts: seq<ExtractionPrompt>)

  function ConfigurationError(): Response {
    JsonResponse(500, map["success" := JBool(false), "error" := JStr(ApiConfigurationError),
                          "message" := JStr(ApiKeyMissingMessage)])
  }

  function BadRequest(error: string, message: string): Response {
    JsonResponse(400, map["success" := JBool(false), "error" := JStr(error), "message" := JStr(message)])
  }

  /** The outer catch: status 500 with an explicit JSON content type; the
      message falls back to a fixed text when the error has none. */
  function InternalError(message: string): Response {
    JsonResponse(500, map["success" := JBool(false), "error" := JStr(InternalServerError),
                          "message" := JStr(if message != [] then message else UnexpectedErrorMessage)])
  }

  /** Every response sent once the address is known: status 200, echoing
      the address. */
  predicate EchoesHref(resp: Response, href: string) {
    && resp.status == 200 && resp.contentType == ApplicationJson
    && resp.body.JObj? && "url" in resp.body.fields && resp.body.fields["url"] == JStr(href)
  }

  /** A `ScrapeResult` with `success: false`, sent with status 200. */
  function FailedScrape(href: string, error: string): (r: Response)
    ensures EchoesHref(r, href) && "success" in r.body.fields && r.body.fields["success"] == JBool(false)
  {
    JsonResponse(200, map["url" := JStr(href), "success" := JBool(false), "error" := JStr(error)])
  }

  function ScrapedData(href: string, data: Json): (r: Response)
    ensures EchoesHref(r, href) && "success" in r.body.fields && r.body.fields["success"] == JBool(true)
  {
    JsonResponse(200, map["url" := JStr(href), "success" := JBool(true), "data" := data])
  }

  /** The message of the error thrown for a non-2xx response. */
  function HttpStatusMessage(status: nat, statusText: string): string {
    "HTTP " + NatToDecimal(status) + ": " + statusText
  }

  /** What the extraction step answers for the (truncated) page: a
      failure of the model call or of the parse is data, the parsed reply
      is the scraped data. */
  ghost function ExtractionOutcome(
    href: string, prompt: ExtractionPrompt, model: ExtractionPrompt -> ModelReply,
    parse: string -> Option<Json>): Response
  {
    match model(prompt)
    case ModelFailed(message) => FailedScrape(href, ExtractFailedPrefix + message)
    case reply =>
      match parse(StripFences(ResponseText(reply)))
      case Some(data) => ScrapedData(href, data)
      case None => FailedScrape(href, ExtractFailedPrefix + ParseFailedMessage)
  }

  /** What the handler does with a validated address: the outcome of the
      fetch decides between the two failure shapes and the extraction, and
      the model sees the page cut to its first 50,000 characters. */
  ghost predicate ScrapedFrom(
    href: string, resp: Response, prompts: seq<ExtractionPrompt>,
    fetch: string -> FetchOutcome, model: ExtractionPrompt -> ModelReply, parse: string -> Option<Json>)
  {
    match fetch(href)
    case FetchFailed(message) =>
      resp == FailedScrape(href, FetchFailedPrefix + message) && prompts == []
    case Fetched(status, statusText, text) =>
      if !IsOk(status) then
        resp == FailedScrape(href, FetchFailedPrefix + HttpStatusMessage(status, statusText)) && prompts == []
      else
        var prompt := ExtractionPrompt(href, Take(text, MaxHtmlChars));
        prompts == [prompt] && resp == ExtractionOutcome(href, prompt, model, parse)
  }

  /** The second `try` block: ask the model about the page and parse its
      reply. */
  method Extract(
    href: string, htmlContent: string, model: ExtractionPrompt -> ModelReply, parse: string -> Option<Json>)
    returns (resp: Response)
    ensures resp == ExtractionOutcome(href, ExtractionPrompt(href, htmlContent), model, parse)
    ensures EchoesHref(resp, href)
  {
    var extractionPrompt := ExtractionPrompt(href, htmlContent);
    var message := model(extractionPrompt);
    if message.ModelFailed? {
      return FailedScrape(href, ExtractFailedPrefix + message.message);
    }
    var responseText := ResponseText(message);
    var extractedData := parse(StripFences(responseText));
    if extractedData.None? {
      return FailedScrape(href, ExtractFailedPrefix + ParseFailedMessage);
    }
    resp := ScrapedData(href, extractedData.value);
  }

  /** The page step: fetch, truncate in place, extract. */
  method Scrape(
    href: string, fetch: string -> FetchOutcome, model: ExtractionPrompt -> ModelReply,
    parse: string -> Option<Json>)
    returns (resp: Response, prompts: seq<ExtractionPrompt>)
    ensures ScrapedFrom(href, resp, prompts, fetch, model, parse)
    ensures EchoesHref(resp, href)
  {
    // Fetch the website content
    var htmlContent := "";
    var response := fetch(href);
    if response.FetchFailed? {
      return FailedScrape(href, FetchFailedPrefix + response.message), [];
    }
    if !IsOk(response.status) {
      return FailedScrape(href, FetchFailedPrefix + HttpStatusMessage(response.status, response.statusText)), [];
    }
    htmlContent := response.text;
    if |htmlContent| > MaxHtmlChars {
      htmlContent := htmlContent[..MaxHtmlChars];
    }
    assert htmlContent == Take(response.text, MaxHtmlChars);

    prompts := [ExtractionPrompt(href, htmlContent)];
    resp := Extract(href, htmlContent, model, parse);
  }

  /** The request is one the handler gets past validation with. */
  predicate ValidUrl(body: Completion<Json>, parseUrl: Json -> Option<string>) {
    && body.Normal? && body.value != JNull
    && Truthy(Prop(body.value, "url")) && parseUrl(Prop(body.value, "url").value).Some?
  }

  /** `body` is what `req.json()` produced; `hasApiKey` stands for the
      environment variable; `parseUrl` for `new URL(url).href` (None when
      the constructor throws, which includes a `url` that cannot be
      converted to text); `fetch`, `model` and `parse` for the page fetch,
      the model provider and `JSON.parse`. */
  method Post(
    hasApiKey: bool, body: Completion<Json>, parseUrl: Json -> Option<string>,
    fetch: string -> FetchOutcome, model: ExtractionPrompt -> ModelReply, parse: string -> Option<Json>)
    returns (resp: Response, trace: Trace)
    ensures resp.contentType == ApplicationJson && resp.status in {200, 400, 500}
    ensures |trace.fetched| <= 1 && |trace.prompts| <= 1
    // the key is checked before the body is read
    ensures !hasApiKey <==> !trace.bodyRead
    ensures !hasApiKey ==> resp == ConfigurationError() && trace == Trace(false, [], [])
    // an unreadable body
    ensures hasApiKey && body.Throw? ==> resp == InternalError(body.message) && trace.fetched == []
    ensures hasApiKey && body == Normal(JNull) ==> resp == InternalError(TypeErrorText) && trace.fetched == []
    // the URL checks: missing, then unparsable; the URL is taken as given
    ensures hasApiKey && body.Normal? && body.value != JNull && !Truthy(Prop(body.value, "url")) ==>
      resp == BadRequest(UrlRequired, UrlRequiredMessage) && trace.fetched == []
    ensures (hasApiKey && body.Normal? && body.value != JNull && Truthy(Prop(body.value, "url"))
             && parseUrl(Prop(body.value, "url").value).None?) ==>
      resp == BadRequest(InvalidUrlFormat, InvalidUrlMessage) && trace.fetched == []
    ensures resp.status == 400 <==>
      (hasApiKey && body.Normal? && body.value != JNull
       && (!Truthy(Prop(body.value, "url")) || parseUrl(Prop(body.value, "url").value).None?))
    // past validation exactly the parsed address is fetched, and every
    // outcome from then on is a 200 that echoes it
    ensures trace.fetched != [] <==> hasApiKey && ValidUrl(body, parseUrl)
    ensures trace.fetched != [] ==>
      && trace.fetched == [parseUrl(Prop(body.value, "url").value).value]
      && EchoesHref(resp, trace.fetched[0])
      && ScrapedFrom(trace.fetched[0], resp, trace.prompts, fetch, model, parse)
    ensures trace.fetched == [] ==> trace.prompts == []
  {
    trace := Trace(false, [], []);
    if !hasApiKey {
      return ConfigurationError(), trace;
    }
    trace := trace.(bodyRead := true);
    if body.Throw? {
      return InternalError(body.message), trace;
    }
    if body.value == JNull {
      return InternalError(TypeErrorText), trace;
    }
    var url := Prop(body.value, "url");
    if !Truthy(url) {
      return BadRequest(UrlRequired, UrlRequiredMessage), trace;
    }
    var competitorUrl := parseUrl(url.value);
    if competitorUrl.None? {
      return BadRequest(InvalidUrlFormat, InvalidUrlMessage), trace;
    }
    var href := competitorUrl.value;
    var prompts;
    resp, prompts := Scrape(href, fetch, model, parse);
    trace := trace.(fetched := [href], prompts := prompts);
  }

  /** A non-2xx answer carries its status code in decimal, so distinct
      codes give distinct error texts. */
  lemma {:induction false} StatusMessagesDiffer(s1: nat, s2: nat, text: string)
    requires s1 != s2
    ensures HttpStatusMessage(s1, text) != HttpStatusMessage(s2, text)
  {
    var d1, d2 := NatToDecimal(s1), NatToDecimal(s2);
    if HttpStatusMessage(s1, text) == HttpStatusMessage(s2, text) {
      var m1, m2 := HttpStatusMessage(s1, text), HttpStatusMessage(s2, text);
      assert forall k :: 0 <= k < |d1| ==> m1[5 + k] == d1[k];
      assert forall k :: 0 <= k < |d2| ==> m2[5 + k] == d2[k];
      assert forall k :: 0 <= k < |d1| ==> d1[k] != ':';
      assert forall k :: 0 <= k < |d2| ==> d2[k] != ':';
      assert m1[5 + |d1|] == ':';
      assert m2[5 + |d2|] == ':';
      if |d1| == |d2| {
        assert d1 == d2;
        DecimalInjective(s1, s2);
      }
    }
  }
}
