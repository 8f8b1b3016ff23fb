/** Responses as the Fetch standard's `Response` object describes them. */
module Http {

  type Headers = map<string, string>

  /** The body handed to `new Response(...)`: `null`, `JSON.stringify` of an
      `{error}` or `{message}` object, or plain text. */
  datatype Body = NullBody | JsonError(error: string) | JsonMessage(message: string) | Text(text: string)

  datatype Response = Response(status: int, body: Body, headers: Headers)

  /** `response.ok`: the status is in the range 200 to 299. */
  predicate Ok(status: int) {
    200 <= status <= 299
  }

  /** The statuses whose responses must have a null body: 101, 103, 204,
      205 and 304. */
  predicate NullBodyStatus(status: int) {
    status == 101 || status == 103 || status == 204 || status == 205 || status == 304
  }

  /** `new Response(body, {status})` with a non-null body throws a RangeError
      unless the status is in the range 200 to 599, and a TypeError when the
      status is a null-body status. */
  predicate ConstructibleWithBody(status: int) {
    200 <= status <= 599 && !NullBodyStatus(status)
  }
}
