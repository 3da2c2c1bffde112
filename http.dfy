/**
 * What a handler sees of HTTP: the request method, the response it sends,
 * and the result of calling an upstream service with java.net.http.
 */
module Http {
  import opened Wrappers
  import opened Jackson
  import JavaText

  datatype Body = NoBody | JsonBody(json: Json) | TextBody(text: string)

  datatype Response = Response(status: int, body: Body)

  /**
   * What a handler invocation ends in: a response it sent, or an exception
   * that escaped the handler (the JDK server then closes the connection,
   * Spark sends its own error page; neither is modelled).
   */
  datatype Outcome = Sent(response: Response) | Uncaught(exception: string)

  /**
   * The result of `client.send(...)`: a reply with its status and parsed
   * body, or the IOException / InterruptedException it throws.
   */
  datatype Fetch =
    | Reply(status: int, body: ReadTree)
    | IoFailure(message: Option<string>)
    | Interrupted(message: Option<string>)

  /** `name.equalsIgnoreCase(exchange.getRequestMethod())`. */
  predicate IsMethod(requestMethod: string, name: string) {
    JavaText.EqualsIgnoreCase(name, requestMethod)
  }

  /** A possibly-null message as string concatenation renders it. */
  function MessageText(message: Option<string>): (t: string)
    ensures message.None? ==> t == "null"
    ensures message.Some? ==> t == message.value
  {
    message.GetOr("null")
  }

  /** A JSON response carrying `{"error": message}`. */
  function ErrorResponse(status: int, message: string): Response {
    Response(status, JsonBody(ErrorJson(message)))
  }
}
