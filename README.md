# Migration relay Worker, modelled in Dafny

This project models the Cloudflare Worker of the website-migration relay
(`cloudflareWorker/my-first-worker/src/index.js`). The Worker answers CORS
preflight requests, accepts a migration request (`POST /` with a website and
an email), triggers a GitHub Actions workflow through the workflow-dispatch
API, and sends a best-effort confirmation email through Resend. It also
accepts the workflow's callback (`POST /migration-callback`), chooses the
success or failure email, and sends it. Everything else gets 404.

The two outbound HTTP calls are not performed. Their replies are inputs
(`Messages.Upstream`). Each handler returns the response it builds and the
ordered log of the outbound calls it makes (`Messages.Effect`: `Dispatch`
with endpoint, `ref` and the two inputs; `Email` with from, to, subject, HTML
body and reply-to). The log starts empty for every request because the
Worker keeps no state between invocations.

Modules, one per concern of the source file:

- `Wrappers`: the `Option` type.
- `Js`: JavaScript truthiness, `||` with a string fallback, and `String.prototype.substring` (positions clamped into the string, swapped when reversed).
- `Http`: `Response`, `response.ok` (status 200 to 299), and the statuses `new Response` accepts with a body: 200 to 599, except the null-body statuses 204, 205 and 304.
- `Messages`: the request, its parsed JSON body, the secrets, the upstream replies and the effects.
- `Resend`: `sendEmailViaResend`.
- `Templates`: the three email bodies and the callback's template choice.
- `Worker`: routing, the two routes, and `fetch`.

Behaviour worth noting:

- `OPTIONS` gets the preflight answer on every path, not only on the two routes.
- A missing Resend secret does not fail a request. The email is skipped and the answer is unchanged.
- Resend counts as delivered when the reply is ok and its body is a JSON value other than `null`. The message id is only logged, not checked. An ok reply whose body does not parse, or is `null`, is reported as not sent.
- Every path other than the two routes answers 404, never 405.

## Model

| member | source | states |
|---|---|---|
| `Worker.RouteOf` | cloudflareWorker/my-first-worker/src/index.js:62-211 | `OPTIONS` is the preflight route whatever the path. `POST /` is intake and `POST /migration-callback` is the callback, each exactly for that method and path. Everything else is not found. |
| `Worker.Fetch` | cloudflareWorker/my-first-worker/src/index.js:58-212 | `OPTIONS` gives 204, a null body, the three Access-Control-Allow-* headers and no outbound call. An unrouted request gives 404 and no outbound call. The two routes behave as `IntakeSpec` and `CallbackSpec` say. |
| `Worker.HandleIntake` | cloudflareWorker/my-first-worker/src/index.js:77-143 | An unparsable body gives 500 and no call. A missing `website`, `email` or GitHub token gives 400 and no call. Otherwise the workflow is dispatched first with `ref` `main` and inputs `websiteUrl` and `email`. If the dispatch is unreachable, the answer is 500. If it is not ok, its status and text are relayed, or 500 when `new Response` rejects that status with a body (outside 200 to 599, or the null-body 304), and no email is sent. After an ok dispatch the answer is 200 and the one confirmation email, if the email secrets are set, goes to the submitted address. |
| `Worker.HandleCallback` | cloudflareWorker/my-first-worker/src/index.js:148-202 | An unparsable body gives 500. A missing `status` or `userEmail` gives 400. `success` without `previewUrl`, or any status other than `success` and `failure`, gives 400. A truthy non-string `errorMessage` on failure gives 500. None of these send anything. Otherwise the answer is 200 and the chosen email goes to `userEmail`, if the email secrets are set. |
| `Worker.IntakeIgnoresEmailReply` | cloudflareWorker/my-first-worker/src/index.js:120-135 | For the same request, secrets and dispatch reply, the intake answer and calls are the same whatever the email provider replies. |
| `Worker.CallbackIgnoresEmailReply` | cloudflareWorker/my-first-worker/src/index.js:185-195 | The callback answer and calls are the same whatever the email provider replies. |
| `Worker.IntakeEmailFollowsDispatch` | cloudflareWorker/my-first-worker/src/index.js:97-129 | On intake, a dispatch can only be the first call. An email can only be the second call, after an ok dispatch, with the answer 200. It goes to the submitted email with the confirmation subject. |
| `Worker.CallbackSendsOneStatusEmail` | cloudflareWorker/my-first-worker/src/index.js:163-190 | The callback makes at most one call, never a dispatch. That call is an email to `userEmail` with the success or the failure subject, and the answer is 200. |
| `Worker.RejectionsSendNoEmail` | cloudflareWorker/my-first-worker/src/index.js:83-201 | A 400 or 500 answer on either route comes with no email. On the callback route it comes with no outbound call at all. |
| `Resend.SendEmailViaResend` | cloudflareWorker/my-first-worker/src/index.js:11-53 | If the API key, the sender or the reply-to address is missing, nothing is sent and the result is false. Otherwise exactly one email is sent, from the configured sender with the configured reply-to, as `EmailEffects` says. The result is true exactly when the secrets are set, the reply is ok and its body is JSON other than `null`. Every failure yields false. |
| `Resend.EmailEffects` | cloudflareWorker/my-first-worker/src/index.js:16-38 | At most one call. There is a call exactly when all three email secrets are set, and it is the email from the configured sender to the given address with the given subject and body and the configured reply-to. |
| `Templates.ComposeStatusEmail` | cloudflareWorker/my-first-worker/src/index.js:163-183 | `success` with a truthy `previewUrl` gives the success subject and body. `failure` gives the failure subject and body, with the Details paragraph only when `errorMessage` is truthy, or the TypeError case when `errorMessage` is not a string. Any other case is the unknown status. A missing `websiteUrl` reads as "your submitted URL". |
| `Templates.SuccessBodyLinksPreview` | cloudflareWorker/my-first-worker/src/index.js:167-169 | The success body contains `<a href="previewUrl">previewUrl</a>` for the given preview URL. |
| `Templates.FailureBodyShowsTruncatedDetail` | cloudflareWorker/my-first-worker/src/index.js:170-177 | For a non-empty error message, the failure body contains `<p>Details: ` followed by the first min(length, 200) characters and `</p>`. It is longer than the body without a detail by exactly that paragraph. |
| `Templates.StatusEmailsNameSite` | cloudflareWorker/my-first-worker/src/index.js:169-172 | Both the success and the failure body contain the callback's `websiteUrl` when it is a non-empty string, and "your submitted URL" otherwise. |
| `Templates.DetailsParagraph` | cloudflareWorker/my-first-worker/src/index.js:173-176 | An empty message gives no paragraph. A non-empty one gives the Details paragraph around the first min(length, 200) characters of the message. |
| `Templates.TruncateDetail` | cloudflareWorker/my-first-worker/src/index.js:175 | `errorMessage.substring(0, 200)` has length min(length, 200) and is a prefix of the message. |
| `Js.Substring` | cloudflareWorker/my-first-worker/src/index.js:175 | The result is never longer than the string. For positions within the string, in order, it is exactly that slice. |
| `Js.SubstringNormalises` | cloudflareWorker/my-first-worker/src/index.js:175 | `substring` treats a position outside the string as the nearest end, and gives the same result when its two positions are swapped. |

## Left out

- The `fetch` calls to the GitHub and Resend APIs, with their headers and bearer tokens. Their replies are inputs and the calls appear only as effects.
- JSON parsing and `new URL(...)`. The body is a record of the fields the Worker reads. Invalid JSON and the JSON literal `null` are one `Unparsable` case.
- Truthy values that are not strings in `website`, `email`, `status`, `userEmail`, `previewUrl` or `websiteUrl`. The model types these fields as strings. Falsy non-strings behave exactly like a missing field and are covered.
- `githubResponse.text()` rejecting. The dispatch reply's text is an input.
- `console.log`, `console.warn` and `console.error`: logging only.
- `async`/`await` and the Workers runtime. Each invocation runs to completion on its own.
- Character counting for the 200-character cut. JavaScript counts UTF-16 code units and the model counts characters, so text outside the Basic Multilingual Plane is not modelled.
- `js/script.js`: browser DOM wiring with no logic of its own.
