/** POST /api/chat: validate the conversation, check the configuration, and
    stream the model's text back; an error during generation is written into
    the stream as its last chunk and never changes the status.

    app/api/chat/route.ts */
module ChatRoute {
  import opened JsValues
  import opened JsArrays

  const InvalidMessagesFormat: string := "Invalid messages format"
  const ApiKeyNotConfigured: string :=
    "API key not configured. Please add ANTHROPIC_API_KEY to your .env.local file."
  const InvalidApiKey: string := "Invalid API key. Please check your ANTHROPIC_API_KEY in .env.local"
  const RateLimitExceeded: string := "Rate limit exceeded. Please wait a moment and try again."
  const ProviderIssues: string := "Claude API is experiencing issues. Please try again later."
  const GenerationFailed: string := "An error occurred while processing your request."
  const FailedToProcess: string := "Failed to process request"
  const ErrorChunkPrefix: string := "Error: "

  // ---------------------------------------------------------------------
  // The model's event stream

  datatype Delta = TextDelta(text: string) | OtherDelta(kind: string)

  /** A server-sent event of the model's streaming API: only the delta
      events carry a delta. */
  datatype StreamEvent = ContentBlockDelta(delta: Delta) | OtherEvent(kind: string)

  /** What the thrown error offers: `error?.status` when it is a number and
      `error?.message` when it is a string. */
  datatype ApiError = ApiError(status: Option<int>, message: Option<string>)

  /** The streaming call as the handler sees it: the events delivered in
      order, then either the end of the stream or an error (which may come
      before any event, when the call itself fails). */
  datatype ModelStream = ModelStream(events: seq<StreamEvent>, failure: Option<ApiError>)

  predicate IsTextDelta(e: StreamEvent) {
    e.ContentBlockDelta? && e.delta.TextDelta?
  }

  /** The texts the handler forwards for a run of events. */
  function TextDeltas(events: seq<StreamEvent>): (chunks: seq<string>)
    ensures |chunks| <= |events|
  {
    if events == [] then []
    else if IsTextDelta(events[0]) then [TextOf(events[0])] + TextDeltas(events[1..])
    else TextDeltas(events[1..])
  }

  /** Forwarding a longer run forwards the shorter run first. */
  lemma {:induction false} TextDeltasAppend(a: seq<StreamEvent>, b: seq<StreamEvent>)
    ensures TextDeltas(a + b) == TextDeltas(a) + TextDeltas(b)
  {
    if a != [] {
      assert (a + b)[1..] == a[1..] + b;
      TextDeltasAppend(a[1..], b);
    } else {
      assert a + b == b;
    }
  }

  /** The text a text delta carries. */
  function TextOf(e: StreamEvent): string {
    if IsTextDelta(e) then e.delta.text else []
  }

  function Texts(events: seq<StreamEvent>): seq<string> {
    seq(|events|, i requires 0 <= i < |events| => TextOf(events[i]))
  }

  /** Exactly the text deltas are forwarded, with their texts, in arrival
      order: the chunks are the texts of `filter(IsTextDelta)`. */
  lemma {:induction false} TextDeltasAreFilteredTexts(events: seq<StreamEvent>)
    ensures TextDeltas(events) == Texts(Filter(events, IsTextDelta))
  {
    if events != [] {
      TextDeltasAreFilteredTexts(events[1..]);
    }
  }

  /** The status table comes first; the error's own message is used only
      for other statuses, and a fixed text when it has none. */
  function ErrorMessage(e: ApiError): (m: string)
    ensures e.status == Some(401) ==> m == InvalidApiKey
    ensures e.status == Some(429) ==> m == RateLimitExceeded
    ensures e.status == Some(500) ==> m == ProviderIssues
    ensures e.status !in {Some(401), Some(429), Some(500)} && e.message.Some? && e.message.value != [] ==>
      m == e.message.value
    ensures e.status !in {Some(401), Some(429), Some(500)} && (e.message.None? || e.message.value == []) ==>
      m == GenerationFailed
    ensures m != []
  {
    if e.status == Some(401) then InvalidApiKey
    else if e.status == Some(429) then RateLimitExceeded
    else if e.status == Some(500) then ProviderIssues
    else if e.message.Some? && e.message.value != [] then e.message.value
    else GenerationFailed
  }

  /** The chunks the stream carries for a whole model stream. */
  function StreamChunks(stream: ModelStream): seq<string> {
    TextDeltas(stream.events)
    + (if stream.failure.Some? then [ErrorChunkPrefix + ErrorMessage(stream.failure.value)] else [])
  }

  /** The `for await` loop and its catch: each text delta is enqueued as it
      arrives; a failure enqueues one error chunk, then the stream closes. */
  method Forward(stream: ModelStream) returns (chunks: seq<string>)
    ensures chunks == StreamChunks(stream)
  {
    chunks := [];
    var i := 0;
    while i < |stream.events|
      invariant 0 <= i <= |stream.events|
      invariant chunks == TextDeltas(stream.events[..i])
    {
      var event := stream.events[i];
      TextDeltasAppend(stream.events[..i], [event]);
      assert stream.events[..i + 1] == stream.events[..i] + [event];
      if event.ContentBlockDelta? && event.delta.TextDelta? {
        chunks := chunks + [event.delta.text];
      }
      i := i + 1;
    }
    assert stream.events[..i] == stream.events;
    if stream.failure.Some? {
      var errorMessage := ErrorMessage(stream.failure.value);
      chunks := chunks + [ErrorChunkPrefix + errorMessage];
    }
  }

  // ---------------------------------------------------------------------
  // The handler

  const StreamHeaders: map<string, string> :=
    map["Content-Type" := "text/event-stream", "Cache-Control" := "no-cache", "Connection" := "keep-alive"]

  /** A JSON error body `{ error }` with its status, or the event stream
      (always status 200) with its chunks. */
  datatype ChatResponse =
    | JsonError(status: nat, error: string)
    | EventStream(headers: map<string, string>, chunks: seq<string>)

  function StatusOf(r: ChatResponse): nat {
    if r.JsonError? then r.status else 200
  }

  predicate ValidMessages(request: Json) {
    var messages := Prop(request, "messages");
    Truthy(messages) && messages.value.JArr?
  }

  /** `body` is what `req.json()` produced, `hasApiKey` stands for the
      environment variable and `model` for the streaming call made with the
      conversation; `sent` is the conversation passed to it, if any. */
  method Post(body: Completion<Json>, hasApiKey: bool, model: seq<Json> -> ModelStream)
    returns (resp: ChatResponse, sent: Option<seq<Json>>)
    ensures body.Throw? ==>
      resp == JsonError(500, if body.message != [] then body.message else FailedToProcess) && sent == None
    ensures body == Normal(JNull) ==> resp == JsonError(500, TypeErrorText) && sent == None
    // the messages are checked before the key
    ensures body.Normal? && body.value != JNull && !ValidMessages(body.value) ==>
      resp == JsonError(400, InvalidMessagesFormat) && sent == None
    ensures body.Normal? && body.value != JNull && ValidMessages(body.value) && !hasApiKey ==>
      resp == JsonError(500, ApiKeyNotConfigured) && sent == None
    ensures StatusOf(resp) == 400 <==> body.Normal? && body.value != JNull && !ValidMessages(body.value)
    // a valid request is always answered with a stream, whatever the model does
    ensures resp.EventStream? <==> body.Normal? && body.value != JNull && ValidMessages(body.value) && hasApiKey
    ensures resp.EventStream? ==>
      && sent == Some(Prop(body.value, "messages").value.items)
      && resp.headers == StreamHeaders
      && resp.chunks == StreamChunks(model(sent.value))
  {
    sent := None;
    if body.Throw? {
      return JsonError(500, if body.message != [] then body.message else FailedToProcess), sent;
    }
    if body.value == JNull {
      return JsonError(500, TypeErrorText), sent;
    }
    var messages := Prop(body.value, "messages");
    if !Truthy(messages) || !messages.value.JArr? {
      return JsonError(400, InvalidMessagesFormat), sent;
    }
    if !hasApiKey {
      return JsonError(500, ApiKeyNotConfigured), sent;
    }
    sent := Some(messages.value.items);
    var chunks := Forward(model(messages.value.items));
    resp := EventStream(StreamHeaders, chunks);
  }
}
