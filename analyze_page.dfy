/** The competitor-analysis page: its form state and `handleAnalyze`, which
    checks the inputs, normalises the website address, posts it to the
    scrape route and classifies the answer into either a result or an error
    message for the page.

    app/analyze/page.tsx */
module AnalyzePage {
  import opened JsValues
  import opened JsArrays
  import opened JsStrings
  import opened Http

  const HttpScheme: string := "http://"
  const HttpsScheme: string := "https://"
  const MaxEchoedChars: nat := 200

  const EnterCompetitorName: string := "Please enter a competitor name"
  const EnterWebsite: string := "Please enter a website URL"
  const EnterValidUrl: string := "Please enter a valid website URL"
  const HtmlErrorPage: string :=
    "\U{26A0}\U{FE0F} Server Error: The API returned an HTML error page instead of JSON. "
    + "This usually means:\n\n"
    + "1. ANTHROPIC_API_KEY is not set in your environment variables\n"
    + "2. There's a server configuration issue\n"
    + "3. The route failed to load\n\n"
    + "Please check your .env.local file and restart the server."
  const InvalidResponsePrefix: string := "Server returned an invalid response: "
  const UnparsableResponse: string :=
    "\U{26A0}\U{FE0F} Failed to parse server response. "
    + "The server might be returning an error page. "
    + "Please check if ANTHROPIC_API_KEY is set and restart the server."
  const FailedToAnalyze: string := "Failed to analyze competitor"
  const AnalysisFailed: string := "Analysis failed"
  const UnexpectedError: string := "An unexpected error occurred"

  // ---------------------------------------------------------------------
  // URL normalisation

  predicate HasScheme(u: string) {
    StartsWith(u, HttpScheme) || StartsWith(u, HttpsScheme)
  }

  /** The website field trimmed, with `https://` put in front unless it
      already starts with `http://` or `https://`. */
  function NormalizeUrl(website: string): (u: string)
    ensures HasScheme(u)
    ensures HasScheme(Trim(website)) ==> u == Trim(website)
    ensures !HasScheme(Trim(website)) ==> u == HttpsScheme + Trim(website)
  {
    var formattedUrl := Trim(website);
    if HasScheme(formattedUrl) then formattedUrl
    else
      assert StartsWith(HttpsScheme + formattedUrl, HttpsScheme) by {
        assert (HttpsScheme + formattedUrl)[..|HttpsScheme|] == HttpsScheme;
      }
      HttpsScheme + formattedUrl
  }

  /** A normalised address is normalised already. */
  lemma NormalizeUrlIdempotent(website: string)
    ensures NormalizeUrl(NormalizeUrl(website)) == NormalizeUrl(website)
  {
    var t := Trim(website);
    var u := NormalizeUrl(website);
    var a, b := TrimIsSlice(website);
    if !HasScheme(t) {
      assert u[0] == 'h';
      assert u[|u| - 1] == if t == [] then '/' else t[|t| - 1];
    }
    TrimFixed(u);
  }

  // ---------------------------------------------------------------------
  // Classifying the answer

  /** What `fetch('/api/scrape-competitor', ...)` gives the page: a response
      (its `ok` flag, its content-type header and its body text), or a
      thrown error. */
  datatype ServerReply =
    | Answered(ok: bool, contentType: Option<string>, text: string)
    | Unreachable(message: string)

  /** The message of the error thrown for
      `new Error(data.error || data.message || 'Failed to analyze competitor')`:
      the chosen value's text, or the `TypeError` raised when it cannot be
      converted; reading a property of `null` throws one too. */
  function FailedStatusMessage(data: Json): (m: string)
    ensures data == JNull ==> m == TypeErrorText
    ensures data != JNull && Truthy(Prop(data, "error")) ==> m == ErrorMessageOf(Prop(data, "error").value)
    ensures data != JNull && !Truthy(Prop(data, "error")) && Truthy(Prop(data, "message")) ==>
      m == ErrorMessageOf(Prop(data, "message").value)
    ensures data != JNull && !Truthy(Prop(data, "error")) && !Truthy(Prop(data, "message")) ==>
      m == FailedToAnalyze
  {
    if data == JNull then TypeErrorText
    else
      var v := Or(Or(Prop(data, "error"), Prop(data, "message")), Some(JStr(FailedToAnalyze)));
      ErrorMessageOf(v.value)
  }

  /** `data.message || data.error || 'Analysis failed'`: the same two
      fields in the opposite order. */
  function UnsuccessfulMessage(data: Json): (m: string)
    ensures data == JNull ==> m == TypeErrorText
    ensures data != JNull && Truthy(Prop(data, "message")) ==> m == ErrorMessageOf(Prop(data, "message").value)
    ensures data != JNull && !Truthy(Prop(data, "message")) && Truthy(Prop(data, "error")) ==>
      m == ErrorMessageOf(Prop(data, "error").value)
    ensures data != JNull && !Truthy(Prop(data, "message")) && !Truthy(Prop(data, "error")) ==>
      m == AnalysisFailed
  {
    if data == JNull then TypeErrorText
    else
      var v := Or(Or(Prop(data, "message"), Prop(data, "error")), Some(JStr(AnalysisFailed)));
      ErrorMessageOf(v.value)
  }

  /** When the server names both an error and a message, a failed status
      shows the error and an unsuccessful answer shows the message. */
  lemma OppositePrecedence(data: Json)
    requires data != JNull && Truthy(Prop(data, "error")) && Truthy(Prop(data, "message"))
    ensures FailedStatusMessage(data) == ErrorMessageOf(Prop(data, "error").value)
    ensures UnsuccessfulMessage(data) == ErrorMessageOf(Prop(data, "message").value)
  {
  }

  predicate IsJsonContentType(contentType: Option<string>) {
    contentType.Some? && contentType.value != [] && Contains(contentType.value, ApplicationJson)
  }

  predicate LooksLikeHtml(text: string) {
    Contains(text, "<!DOCTYPE") || Contains(text, "<html")
  }

  /** The checks after the request, in order: the content type, the JSON
      body, the status, then the `success` flag. Only an answer that passes
      all four becomes the result. */
  function Classify(reply: ServerReply, parse: string -> Option<Json>): (outcome: Completion<Json>)
    ensures reply.Unreachable? ==> outcome == Throw(reply.message)
    ensures reply.Answered? && !IsJsonContentType(reply.contentType) ==>
      outcome == Throw(if LooksLikeHtml(reply.text) then HtmlErrorPage
                       else InvalidResponsePrefix + Take(reply.text, MaxEchoedChars))
    ensures reply.Answered? && IsJsonContentType(reply.contentType) && parse(reply.text).None? ==>
      outcome == Throw(UnparsableResponse)
    ensures reply.Answered? && IsJsonContentType(reply.contentType) && parse(reply.text).Some? ==>
      var data := parse(reply.text).value;
      outcome == if !reply.ok then Throw(FailedStatusMessage(data))
                 else if data == JNull then Throw(TypeErrorText)
                 else if !Truthy(Prop(data, "success")) then Throw(UnsuccessfulMessage(data))
                 else Normal(data)
    ensures outcome.Normal? <==>
      && reply.Answered? && reply.ok && IsJsonContentType(reply.contentType)
      && parse(reply.text).Some? && Truthy(Prop(parse(reply.text).value, "success"))
  {
    match reply
    case Unreachable(message) => Throw(message)
    case Answered(ok, contentType, text) =>
      if !IsJsonContentType(contentType) then
        if LooksLikeHtml(text) then Throw(HtmlErrorPage)
        else Throw(InvalidResponsePrefix + Take(text, MaxEchoedChars))
      else match parse(text)
        case None => Throw(UnparsableResponse)
        case Some(data) =>
          if !ok then Throw(FailedStatusMessage(data))
          else if data == JNull then Throw(TypeErrorText)
          else if !Truthy(Prop(data, "success")) then Throw(UnsuccessfulMessage(data))
          else Normal(data)
  }

  /** What `handleAnalyze` ends with, as a value: the data to show, or the
      message of the error thrown at the first check that failed. */
  function Outcome(
    competitorName: string, website: string, validUrl: string -> bool,
    server: string -> ServerReply, parse: string -> Option<Json>): Completion<Json>
  {
    if Trim(competitorName) == [] then Throw(EnterCompetitorName)
    else if Trim(website) == [] then Throw(EnterWebsite)
    else if !validUrl(NormalizeUrl(website)) then Throw(EnterValidUrl)
    else Classify(server(NormalizeUrl(website)), parse)
  }

  /** `err.message || 'An unexpected error occurred'` */
  function ShownError(message: string): (shown: string)
    ensures shown != []
    ensures message != [] ==> shown == message
    ensures message == [] ==> shown == UnexpectedError
  {
    if message != [] then message else UnexpectedError
  }

  /** The input checks come first and in order: a blank name is reported
      whatever the website says, and nothing is requested while an input is
      blank or the address does not parse. */
  lemma InputChecksComeFirst(
    competitorName: string, website: string, validUrl: string -> bool,
    server: string -> ServerReply, parse: string -> Option<Json>)
    ensures (forall i :: 0 <= i < |competitorName| ==> IsSpace(competitorName[i])) ==>
      Outcome(competitorName, website, validUrl, server, parse) == Throw(EnterCompetitorName)
    ensures Trim(competitorName) != [] && (forall i :: 0 <= i < |website| ==> IsSpace(website[i])) ==>
      Outcome(competitorName, website, validUrl, server, parse) == Throw(EnterWebsite)
  {
    TrimEmpty(competitorName);
    TrimEmpty(website);
  }

  /** The page only ever shows data from an ok JSON answer that reports
      success. */
  lemma ResultsOnlyOnSuccess(
    competitorName: string, website: string, validUrl: string -> bool,
    server: string -> ServerReply, parse: string -> Option<Json>)
    requires Outcome(competitorName, website, validUrl, server, parse).Normal?
    ensures Trim(competitorName) != [] && Trim(website) != [] && validUrl(NormalizeUrl(website))
    ensures var reply := server(NormalizeUrl(website));
      && reply.Answered? && reply.ok && IsJsonContentType(reply.contentType)
      && Outcome(competitorName, website, validUrl, server, parse) == Normal(parse(reply.text).value)
      && Truthy(Prop(parse(reply.text).value, "success"))
  {
  }

  // ---------------------------------------------------------------------
  // The page

  class AnalyzePage {
    var competitorName: string
    var website: string
    var isAnalyzing: bool
    var error: Option<string>
    var results: Option<Json>

    /** The `useState` initial values. */
    constructor ()
      ensures competitorName == [] && website == []
      ensures !isAnalyzing && error == None && results == None
    {
      competitorName := [];
      website := [];
      isAnalyzing := false;
      error := None;
      results := None;
    }

    /** The name field's `onChange`. */
    method SetCompetitorName(value: string)
      modifies this
      ensures competitorName == value
      ensures website == old(website) && isAnalyzing == old(isAnalyzing)
      ensures error == old(error) && results == old(results)
    {
      competitorName := value;
    }

    /** The website field's `onChange`. */
    method SetWebsite(value: string)
      modifies this
      ensures website == value
      ensures competitorName == old(competitorName) && isAnalyzing == old(isAnalyzing)
      ensures error == old(error) && results == old(results)
    {
      website := value;
    }

    /** The form's submit handler. `validUrl` stands for `new URL(...)` not
        throwing, `server` for the POST to the scrape route and `parse` for
        `response.json()`; `request` is the address posted, if any. Error
        and results are cleared first; exactly one of them is set at the
        end, and `isAnalyzing` is reset whatever happened. */
    method HandleAnalyze(validUrl: string -> bool, server: string -> ServerReply, parse: string -> Option<Json>)
      returns (request: Option<string>)
      modifies this
      ensures competitorName == old(competitorName) && website == old(website)
      ensures !isAnalyzing
      ensures request.Some? <==>
        Trim(competitorName) != [] && Trim(website) != [] && validUrl(NormalizeUrl(website))
      ensures request.Some? ==> request.value == NormalizeUrl(website)
      ensures var outcome := Outcome(competitorName, website, validUrl, server, parse);
        && (outcome.Normal? ==> results == Some(outcome.value) && error == None)
        && (outcome.Throw? ==> results == None && error == Some(ShownError(outcome.message)))
    {
      error := None;
      results := None;
      isAnalyzing := true;
      request := None;

      var outcome: Completion<Json>;
      if Trim(competitorName) == [] {
        outcome := Throw(EnterCompetitorName);
      } else if Trim(website) == [] {
        outcome := Throw(EnterWebsite);
      } else {
        // Ensure the URL has a protocol
        var formattedUrl := Trim(website);
        if !StartsWith(formattedUrl, HttpScheme) && !StartsWith(formattedUrl, HttpsScheme) {
          formattedUrl := HttpsScheme + formattedUrl;
        }
        if !validUrl(formattedUrl) {
          outcome := Throw(EnterValidUrl);
        } else {
          request := Some(formattedUrl);
          outcome := Classify(server(formattedUrl), parse);
        }
      }

      match outcome {
        case Normal(data) => results := Some(data);
        case Throw(message) => error := Some(ShownError(message));
      }
      isAnalyzing := false;
    }
  }
}
