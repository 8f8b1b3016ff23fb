/** What the Worker receives (request, secrets, replies of the two outbound
    APIs) and what it sends out (the effect log). */
module Messages {
  import opened Wrappers

  /** The fields of the parsed JSON body that the Worker reads. The intake
      route reads `website` and `email`; the callback route reads `status`,
      `userEmail`, `previewUrl`, `errorMessage` and `websiteUrl`. A body that
      is not JSON, or is the JSON literal `null`, makes the handler throw and
      is `Unparsable`. Any other JSON value that is not an object has none of
      these fields. */
  datatype RequestBody =
    | Unparsable
    | Json(website: Option<string>, email: Option<string>,
           status: Option<string>, userEmail: Option<string>,
           previewUrl: Option<string>, websiteUrl: Option<string>,
           errorMessage: ErrorField)

  /** `errorMessage` is the one field the Worker calls a string method on:
      a truthy value that is not a string (number, `true`, array, object)
      has no `substring` and makes the handler throw. */
  datatype ErrorField = NoDetail | Detail(text: string) | NonStringDetail

  /** `verb` is the HTTP method and `path` the URL's pathname. */
  datatype Request = Request(verb: string, path: string, body: RequestBody)

  /** The Worker's secrets. */
  datatype Env = Env(
    githubToken: Option<string>,
    resendApiKey: Option<string>,
    resendFromEmail: Option<string>,
    replyToEmail: Option<string>)

  /** The outcome of the workflow-dispatch call: the `fetch` rejects, or a
      reply with its status and its text body. */
  datatype DispatchReply = DispatchUnreachable | DispatchAnswer(status: int, text: string)

  /** The body of the email provider's reply: not JSON, the JSON literal
      `null`, or any other JSON value. */
  datatype ReplyBody = NotJson | JsonNull | JsonValue

  /** The outcome of the email call: the `fetch` rejects, or a reply with its
      status and its body. */
  datatype EmailReply = EmailUnreachable | EmailAnswer(status: int, body: ReplyBody)

  /** The replies the two outbound APIs give during one invocation. */
  datatype Upstream = Upstream(dispatch: DispatchReply, email: EmailReply)

  /** One outbound call, in the order the Worker makes it. */
  datatype Effect =
    | Dispatch(endpoint: string, ref: string, websiteUrl: string, email: string)
    | Email(from: string, to: string, subject: string, html: string, replyTo: string)

  const DispatchEndpoint := "https://api.github.com/repos/BurntPineapple52/httrackservice/actions/workflows/httrack.yml/dispatches"
  const DispatchRef := "main"
}
