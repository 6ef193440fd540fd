/**
 * The HTTP transport, which the hook only hands a request to. A client is an
 * opaque reference; what one round trip yields is given to the model as a value.
 */
module Http {
  /** *http.Client */
  class Client { }

  /** Reading the response body either yields its text or fails. */
  datatype Body = BodyText(text: string) | BodyReadError(reason: string)

  /** What Client.Do returned: a transport error, or a response with its status code and body. */
  datatype Outcome =
    | TransportError(reason: string)
    | Response(statusCode: int, body: Body)
}
