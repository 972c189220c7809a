/** What the route handlers send back and what they receive from the model
    provider. */
module Http {
  import opened JsValues

  const ApplicationJson: string := "application/json"

  /** A response built with `NextResponse.json(body, { status })`, or with
      `new Response(JSON.stringify(body), ...)` and a JSON content type. */
  datatype Response = Response(status: nat, contentType: string, body: Json)

  function JsonResponse(status: nat, fields: map<string, Json>): Response {
    Response(status, ApplicationJson, JObj(fields))
  }

  /** `response.ok`: a status in the 2xx range. */
  predicate IsOk(status: nat) {
    200 <= status <= 299
  }

  /** The outcome of one `anthropic.messages.create` call: the first content
      block is text, or some other kind of block, or the call threw. */
  datatype ModelReply =
    | TextReply(text: string)
    | NonTextReply
    | ModelFailed(message: string)

  /** `message.content[0].type === 'text' ? message.content[0].text : ''` */
  function ResponseText(reply: ModelReply): string
    requires !reply.ModelFailed?
  {
    if reply.TextReply? then reply.text else ""
  }
}
