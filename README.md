# Marketmind.ai research pipeline, modelled in Dafny

This project models the decision logic of the Marketmind.ai web application, a Next.js
market-research assistant. It covers four API routes and two client pages:

- **POST /api/research** (`Research`). It checks `product` and `stage`. It sends at most
  the first five competitor URLs to the scrape route and keeps the data of the units that
  succeeded, in order. It builds the prompt for the startup's stage; an unknown stage gives
  an empty prompt. A product, stage, target market or customer-patterns value that cannot
  be converted to text, and a failed unit whose URL cannot be, make the request fail
  before the model is asked. Otherwise it asks the model once, then strips code fences
  from the reply and parses it. When parsing fails it builds a fallback record from the
  competitor data.
  Finally it assembles the result with the generated id, timestamp and metadata, in
  spread order.
- **POST /api/scrape-competitor** (`ScrapeCompetitor`). Checks run in a fixed chain: API
  key, body, URL, fetch. The page is cut to its first 50,000 characters, then the model
  extracts data and the reply is parsed. Fetch and extraction failures come back as
  `success: false` data with status 200, and every such answer echoes the parsed address.
- **POST /api/analyze-csv** (`AnalyzeCsv`). It checks `csvData`, parses it and rejects an
  empty parse. The prompt shows at most the first 100 records, while `totalRecords`
  reports every row. Errors get their own statuses.
- **POST /api/chat** (`ChatRoute`). The messages are checked before the key. Only text
  deltas are forwarded, in arrival order. An error during generation becomes one final
  `Error: …` chunk, chosen through the status table. The HTTP status never changes
  because of it.
- **The analyze page** (`AnalyzePage`). `handleAnalyze` checks the inputs, normalises the
  address with `https://` (idempotently) and classifies the scrape route's answer: first
  the content type, then JSON, then the status, then `success`. The two error-message
  fallbacks use opposite precedence.
- **The discovery chat page** (`ChatPage`). A state machine that opens with the first of
  five fixed questions, asks each of the other four in reply to one message, and then
  repeats a closing summary.

Shared JavaScript semantics live in their own modules:

- `JsValues`: the JSON data model, truthiness, `||`, property reads, `String(v)` (with the
  `TypeError` it raises for an object with its own `toString` key), object spread, and
  thrown errors as `Completion`.
- `JsArrays`: `slice(0, n)` and `filter`, with stability proofs.
- `JsStrings`: `trim` with ECMAScript white space, `startsWith` and `includes`.
- `Fences`: the code-fence stripper that the three routes parsing a model reply share,
  defined once.
- `Http`: JSON responses and the model's reply.

Every call to something outside the core is a parameter of the handler:

- the model provider;
- `fetch` (the page fetch, and the scrape route as the research route and the analyze page
  reach it);
- `JSON.parse`, `new URL`, `Papa.parse`;
- `crypto.randomUUID()` and `new Date().toISOString()`;
- the `ANTHROPIC_API_KEY` environment variable, as a boolean.

Each handler also returns a trace of the calls it made, so the contracts can say when no
scrape, fetch or model call happens. The route handlers are methods whose postconditions
tie the response to specification functions. The CSV route is a pure function, as its
source is. The two pages are classes whose methods update their fields.

## Model

| member | source | states |
|---|---|---|
| JsValues.ToJsString | app/api/research/route.ts:33 | converting a value to text throws a `TypeError` exactly when it is an object with its own `toString` key, or an array holding such a value at any depth |
| JsValues.NatToDecimal | app/api/scrape-competitor/route.ts:98 | `String(n)` is a non-empty run of decimal digits without a leading zero |
| JsValues.DecimalRoundTrip | app/api/scrape-competitor/route.ts:98 | reading the decimal text of n back gives n |
| JsValues.IntDecimalRoundTrip | app/api/research/route.ts:73 | reading the text of any integer back, sign included, gives that integer |
| JsValues.DecimalInjective | app/api/research/route.ts:281 | distinct numbers have distinct decimal texts, so array indices spread into distinct keys |
| JsValues.IndexMapAt | app/api/research/route.ts:281 | spreading an array puts element i under the key `String(i)` |
| JsArrays.Take | app/api/scrape-competitor/route.ts:104-106 | `slice(0, n)` / `substring(0, n)` is a prefix of length min(n, length), and a short input is returned whole |
| JsArrays.Filter | app/api/research/route.ts:62 | `filter` keeps only wanted elements, returns the input when all are wanted and nothing when none is |
| JsArrays.FilterIsStable | app/api/research/route.ts:62 | the filtered list is the wanted elements, each position of the input kept exactly when wanted, in increasing order |
| JsArrays.FilterSkipsDropped | app/api/research/route.ts:62 | removing one element the filter discards leaves the filtered list unchanged |
| JsStrings.TrimStart | app/analyze/page.tsx:45 | the left trim is a suffix that drops only white space and does not start with white space |
| JsStrings.TrimEnd | app/analyze/page.tsx:45 | the right trim is a prefix that drops only white space and does not end with white space |
| JsStrings.TrimIsSlice | app/analyze/page.tsx:53 | `trim()` is a slice of the input with only white space cut from either end, and it neither starts nor ends with white space |
| JsStrings.TrimFixed | app/analyze/page.tsx:53 | a string that neither starts nor ends with white space is its own trim |
| JsStrings.TrimIdempotent | app/analyze/page.tsx:53 | trimming twice is trimming once |
| JsStrings.TrimEmpty | app/chat/page.tsx:38 | the trim is empty exactly when every character is white space |
| JsStrings.TrimDropsTrailingSpace | app/api/research/route.ts:256 | a trailing white-space character never reaches the trim |
| JsStrings.TrimKeepsAbsence | app/api/research/route.ts:256 | trimming cannot create an occurrence of a pattern |
| Fences.RemoveMarker | app/api/research/route.ts:254-255 | deleting every marker (and one newline after it) never lengthens the text |
| Fences.PlainPrefixKept | app/api/research/route.ts:254-255 | text without backticks ahead of the rest is copied through untouched |
| Fences.PlainTextUnchanged | app/api/research/route.ts:253-256 | a reply with no backticks and no surrounding white space passes the stripper unchanged |
| Fences.NoFenceSurvives | app/api/research/route.ts:255 | after the "```" pass no "```" is left anywhere in the text |
| Fences.StripFencesLeavesNoFence | app/api/research/route.ts:253-256 | whatever the model replies, the text handed to `JSON.parse` contains no "```" |
| Fences.StripJsonFencedReply | app/api/research/route.ts:253-256 | a reply wrapped in a "```json" fence is unwrapped to its trimmed body |
| Fences.BareFenceSurvivesJsonPass | app/api/research/route.ts:254 | the "```json" pass leaves a bare "```" alone when what follows it neither starts with `json` nor with a backtick |
| Fences.StripBareFencedReply | app/api/research/route.ts:253-256 | a reply wrapped in a bare "```" fence is unwrapped to its trimmed body |
| Research.PlanFanOut | app/api/research/route.ts:37-40 | at most the first five URLs of a non-empty array are attempted and none of an absent, falsy or empty list; a non-empty string throws, and so does an object whose `length` cannot be converted |
| Research.UnitResult | app/api/research/route.ts:41-58 | a unit yields `null` unless the reply is ok, readable and reports `success`, and otherwise yields its `data` |
| Research.Units | app/api/research/route.ts:40-61 | `Promise.all` gives one result per URL, in submission order, the i-th from the reply to the i-th request |
| Research.OnlyFailedUnitsReject | app/api/research/route.ts:47-58 | a unit rejects only on a failure path, which logs its URL, and never when the URL is a string |
| Research.CompetitorDataInOrder | app/api/research/route.ts:48-62 | `competitorData` is the results of exactly the successful units, in submission order |
| Research.FailedUnitIsIsolated | app/api/research/route.ts:48-62 | a failing unit can be removed from the batch, every other unit keeping its own reply, without changing the competitor data |
| Research.CompetitorDataExtremes | app/api/research/route.ts:62 | all units failing gives no data, and all succeeding drops nothing |
| Research.TextOr | app/api/research/route.ts:74 | `${v \|\| fallback}` is the fallback for a falsy value, and throws exactly when a truthy value cannot be converted |
| Research.PromptLayout | app/api/research/route.ts:67-230 | a known stage's prompt opens with its title, the product and target-market lines, and ends with its instructions; the competitor section appears exactly when there is competitor data; the CSV section appears exactly for post-revenue and scale-up with a truthy `csvAnalysis`; the customer-patterns line appears exactly at the early stage |
| Research.StagePrompt | app/api/research/route.ts:67-230 | an unknown stage leaves the prompt empty; a known stage throws a `TypeError` exactly when the product, a truthy target market or, at the early stage, truthy customer patterns cannot be converted; otherwise the prompt is the stage's layout of their texts |
| Research.FallbackEntry | app/api/research/route.ts:264-270 | a fallback entry has `name` exactly when the competitor has `url`, `description` and `pricing` exactly when it has them, each with the competitor's value, empty `strengths` and `weaknesses`, and no other key; an `undefined` or `null` item throws |
| Research.FallbackCompetitors | app/api/research/route.ts:264-270 | the fallback list has one entry per competitor, in order, unless some item throws |
| Research.ParseOrFallback | app/api/research/route.ts:251-274 | a parsed reply is used as it is; otherwise the record is the fallback competitors, `icpProfiles: []` and the raw reply text as `analysis` |
| Research.DataSourcesCited | app/api/research/route.ts:282-286 | the two fixed sources, plus "Customer data analysis" exactly when `csvAnalysis` is truthy |
| Research.ResearchDepth | app/api/research/route.ts:287-291 | n competitors analysed, 0 reviews and 10·n data points |
| Research.FinalResults | app/api/research/route.ts:277-292 | the keys are the generated ones, the reply's and the metadata's; the model's keys replace `requestId`, `timestamp` and `stage`; the metadata replaces the model's fields of the same name |
| Research.Answer | app/api/research/route.ts:232-312 | when building the stage prompt throws, the answer is a 500 "Research failed" and the model is not asked; otherwise the model is asked once with that prompt, a model failure is a 500, and the response is the parsed or fallback record with its metadata |
| Research.Post | app/api/research/route.ts:21-313 | 400 exactly when product or stage is missing, and a 500 when either cannot be converted for the log line, both with no scrape or model call; the scraped URLs are the planned fan-out; a unit that rejects fails the request; the model is asked once with the stage prompt built from the competitor data unless building it throws; every failure is a 500 JSON record |
| ScrapeCompetitor.FailedScrape | app/api/scrape-competitor/route.ts:111-115 | a failed scrape is a 200 response that echoes the address with `success: false` |
| ScrapeCompetitor.ScrapedData | app/api/scrape-competitor/route.ts:185-189 | a successful scrape is a 200 response that echoes the address with `success: true` |
| ScrapeCompetitor.Extract | app/api/scrape-competitor/route.ts:118-199 | a model failure or an unparsable reply becomes `success: false` data with "Failed to extract data: …"; a parsed reply becomes the scraped data |
| ScrapeCompetitor.Scrape | app/api/scrape-competitor/route.ts:80-116 | a fetch error or non-2xx status becomes "Failed to fetch website: …" data with no model call; otherwise the model sees the first min(length, 50,000) characters of the page |
| ScrapeCompetitor.Post | app/api/scrape-competitor/route.ts:35-220 | a missing key is a 500 before the body is read; a missing URL, then an unparsable one, is a 400; exactly the parsed address is fetched; every answer after validation is a 200 that echoes it |
| ScrapeCompetitor.StatusMessagesDiffer | app/api/scrape-competitor/route.ts:97-99 | distinct HTTP statuses give distinct "HTTP <status>: <text>" messages |
| AnalyzeCsv.PromptFor | app/api/analyze-csv/route.ts:72-76 | the prompt reports the full record count, shows at most the first 100 records and adds the note exactly when some were left out |
| AnalyzeCsv.Success | app/api/analyze-csv/route.ts:161-165 | a success is a 200 whose `totalRecords` is the given count |
| AnalyzeCsv.Post | app/api/analyze-csv/route.ts:31-189 | a missing or non-string `csvData`, or an empty parse, is a 400 with no model call; otherwise the model is asked once about the parsed records, and a model failure or unparsable reply is a 500 "Analysis failed" |
| AnalyzeCsv.TotalRecordsCountsEveryRow | app/api/analyze-csv/route.ts:74-75 | on success `totalRecords` is the full row count, while the prompt holds only the first 100 rows |
| AnalyzeCsv.ParseErrorsAreNotFatal | app/api/analyze-csv/route.ts:51-55 | two parses with the same rows give the same exchange, whatever errors they report |
| AnalyzePage.NormalizeUrl | app/analyze/page.tsx:53-56 | the trimmed address gets `https://` in front exactly when it starts with neither `http://` nor `https://`, so the result always has a scheme |
| AnalyzePage.NormalizeUrlIdempotent | app/analyze/page.tsx:53-56 | normalising a normalised address changes nothing |
| AnalyzePage.FailedStatusMessage | app/analyze/page.tsx:112-114 | a failed status shows `error`, else `message`, else "Failed to analyze competitor"; a chosen value that cannot be converted, or a `null` body, shows the `TypeError` instead |
| AnalyzePage.UnsuccessfulMessage | app/analyze/page.tsx:116-118 | an unsuccessful answer shows `message`, else `error`, else "Analysis failed"; a chosen value that cannot be converted shows the `TypeError` instead |
| AnalyzePage.OppositePrecedence | app/analyze/page.tsx:112-118 | when both fields are set, a failed status shows the error and an unsuccessful answer the message |
| AnalyzePage.Classify | app/analyze/page.tsx:76-118 | a non-JSON content type gives the HTML-page message or "Server returned an invalid response: " plus the first 200 characters; then come the parse, status and `success` checks; only an ok JSON answer reporting success is a result |
| AnalyzePage.ShownError | app/analyze/page.tsx:123 | the shown error is the thrown message when it is non-empty and "An unexpected error occurred" when it is empty, so it is never blank |
| AnalyzePage.InputChecksComeFirst | app/analyze/page.tsx:44-50 | a blank name is reported whatever the website says, and a blank website next |
| AnalyzePage.ResultsOnlyOnSuccess | app/analyze/page.tsx:111-120 | a result requires non-blank inputs, a valid address, and an ok JSON answer reporting success |
| AnalyzePage.AnalyzePage.constructor | app/analyze/page.tsx:29-35 | empty fields, not analysing, no error, no results |
| AnalyzePage.AnalyzePage.SetCompetitorName | app/analyze/page.tsx:181 | the name field takes the typed value and nothing else changes |
| AnalyzePage.AnalyzePage.SetWebsite | app/analyze/page.tsx:196 | the website field takes the typed value and nothing else changes |
| AnalyzePage.AnalyzePage.HandleAnalyze | app/analyze/page.tsx:37-127 | the request goes out exactly when both inputs are non-blank and the normalised address parses; exactly one of results and error is set, from the classified outcome; `isAnalyzing` is reset |
| ChatRoute.TextDeltas | app/api/chat/route.ts:79-85 | never more chunks than events |
| ChatRoute.TextDeltasAppend | app/api/chat/route.ts:79-85 | forwarding a longer run forwards its first part first |
| ChatRoute.TextDeltasAreFilteredTexts | app/api/chat/route.ts:79-85 | the forwarded chunks are the texts of exactly the text-delta events, in arrival order |
| ChatRoute.ErrorMessage | app/api/chat/route.ts:92-102 | statuses 401, 429 and 500 map to fixed texts ahead of the error's own message, which comes next, then a default |
| ChatRoute.Forward | app/api/chat/route.ts:78-108 | the loop enqueues the text deltas, then one "Error: …" chunk when the stream fails |
| ChatRoute.Post | app/api/chat/route.ts:41-129 | invalid messages give a 400 before the key is checked; a missing key is a 500; a valid request is always an event stream whose chunks are the forwarded ones, whatever the model does |
| ChatPage.AssistantContentsAppend | app/chat/page.tsx:41 | appending a message adds its content to the assistant's side exactly when the assistant sent it |
| ChatPage.UserMessageKeepsScript | app/chat/page.tsx:40-41 | a user message leaves the assistant's messages and the first message unchanged |
| ChatPage.ChatPage.constructor | app/chat/page.tsx:21-26 | one assistant message with the first question, empty input, not loading, index 0 |
| ChatPage.ChatPage.SetInput | app/chat/page.tsx:141 | the input takes the typed value and nothing else changes |
| ChatPage.ChatPage.HandleSend | app/chat/page.tsx:37-44 | nothing changes when the trimmed input is empty or a reply is pending; otherwise the untrimmed input is appended as a user message, the input cleared and loading set; the question script is kept |
| ChatPage.ChatPage.DeliverReply | app/chat/page.tsx:46-64 | the next question is appended and the index advanced while one remains, otherwise the closing summary is appended and the index stays; loading ends; the index stays below 5 |
| ChatPage.QuestionsAskedInOrder | app/chat/page.tsx:47-54 | in any reachable state, the assistant's k-th message is the k-th question for every question asked so far |

## Left out

- Outbound HTTP, the model SDK, `AbortController` and the 30-second timer. Their results
  are parameters: the fetch outcome, the model reply and the scrape route's answer.
- Concurrency. The `Promise.all` fan-out is a map in submission order. The random
  `setTimeout` delay before the chat page's reply is the separate `DeliverReply` step.
- The streaming plumbing of the chat route (`ReadableStream`, `TextEncoder`). The model
  is a list of chunks, and the response is the list of strings enqueued.
- `JSON.parse`, `new URL`, `Papa.parse`, `crypto.randomUUID()` and
  `new Date().toISOString()`. These are parameters; their internals are not modelled.
- The wording of errors raised by the JavaScript engine itself, such as destructuring
  `null` or calling `map` on a string. They all carry one placeholder text.
- The instruction prose of the research, extraction and analysis prompts. Prompts are
  modelled by their structure (which sections appear, in which order, with which data);
  the CSV prompt by its record count, the records shown and the note.
- Fractional numbers. JSON numbers are integers here, including where a template literal or
  `new Error(v)` prints one, so the printing of a fraction or an exponent is not modelled.
- The key order of JSON objects.
- The `details` field with the stack trace, which the scrape route sends only in
  development.
- Console logging everywhere.
- The analyze page's `industry` and `additionalContext` fields. `handleAnalyze` never
  reads them.
- The rendering of both pages.
- Outside the core: `app/api/generate-pdf/route.ts`, `app/api/health/route.ts`,
  `app/api/test/route.ts`, `lib/utils/web-search.ts`, `lib/types/research.ts` and the
  static pages and configuration.
- Research.PlanFanOut: for an object competitor list, only a numeric or boolean `length`
  counts as positive. A `length` that converts without throwing but is a string, an array,
  an object or `null` is taken as not positive, so nothing is scraped. JavaScript converts
  it to a number first: `"5"` or `[1]` counts as positive, and `competitors.slice` then
  throws. A `length` whose conversion throws is modelled.
- ScrapeCompetitor.Scrape: the page is cut to its first 50,000 characters, counted as
  code points. JavaScript's `substring` counts UTF-16 code units. For a page with
  characters outside the Basic Multilingual Plane, the Dafny cut therefore keeps a longer
  prefix than the route does. It also never splits a surrogate pair, which the route can.
- AnalyzePage.Classify: the echoed reply is cut to its first 200 characters, counted as
  code points rather than UTF-16 code units, for the same reason.
- JsValues.Spread: spreading a string gives one entry per code point, where JavaScript
  gives one per UTF-16 code unit.
- ChatPage.ChatPage.DeliverReply: reads the current `questionIndex`, where the page's
  timer callback reads the value captured when the message was sent. The two agree,
  because no message can be sent while a reply is pending.
