/** The parts of an Express request and response that the authorization middleware touches. */
module Http {
  import opened Wrappers

  /**
   * JavaScript truthiness of a header or cookie value: absent values and
   * the empty string are falsy, every other string is truthy.
   */
  predicate Truthy(v: Option<string>) {
    v.Some? && v.value != ""
  }

  /**
   * An inbound request: its verb (`req.method`), its original URL, the raw `authorization`
   * header (if sent) and the cookies already parsed from the `cookie` header.
   */
  datatype Request = Request(
    verb: string,
    originalUrl: string,
    authorization: Option<string>,
    cookies: map<string, string>)

  /**
   * A rejection value as the middleware's catch handler reads it.
   * `internalStatus` is None when the property is undefined.
   */
  datatype Error = Error(message: string, responseStatus: int, internalStatus: Option<int>)

  /** A typed error is one whose `internalStatus` is truthy (present and non-zero). */
  predicate IsTyped(e: Error) {
    e.internalStatus.Some? && e.internalStatus.value != 0
  }

  /** The JSON body of an error response: `{message}` or `{message, internalStatus}`. */
  datatype Body = Body(message: string, internalStatus: Option<int>)

  datatype Response = Response(status: int, body: Body)
}
