/** The Worker's `fetch` handler: CORS preflight, the intake route that
    triggers the migration workflow, the callback route that emails the
    outcome, and the 404 fallback. */
module Worker {
  import opened Js
  import opened Http
  import opened Messages
  import opened Resend
  import opened Templates

  datatype Route = Preflight | Intake | Callback | NotFound

  /** Route selection: `OPTIONS` is answered before the path is looked at. */
  function RouteOf(verb: string, path: string): (r: Route)
    ensures r == Preflight <==> verb == "OPTIONS"
    ensures r == Intake <==> verb == "POST" && path == "/"
    ensures r == Callback <==> verb == "POST" && path == "/migration-callback"
  {
    if verb == "OPTIONS" then Preflight
    else if verb == "POST" && path == "/" then Intake
    else if verb == "POST" && path == "/migration-callback" then Callback
    else NotFound
  }

  // Headers of the four kinds of response.
  const PreflightHeaders: Headers := map[
    "Access-Control-Allow-Origin" := "*",
    "Access-Control-Allow-Methods" := "POST, OPTIONS",
    "Access-Control-Allow-Headers" := "Content-Type, Authorization"]
  const IntakeHeaders: Headers := map["Content-Type" := "application/json", "Access-Control-Allow-Origin" := "*"]
  const CallbackHeaders: Headers := map["Content-Type" := "application/json"]
  const NotFoundHeaders: Headers := map["Access-Control-Allow-Origin" := "*"]

  const PreflightResponse := Response(204, NullBody, PreflightHeaders)
  const NotFoundResponse := Response(404, Text("Not Found or Method Not Allowed"), NotFoundHeaders)

  const IntakeMissing := Response(400, JsonError("Missing website URL, email, or required configuration."), IntakeHeaders)
  const IntakeStarted := Response(200, JsonMessage("Migration process started successfully! Check your email for confirmation."), IntakeHeaders)
  const IntakeInternalError := Response(500, JsonError("An internal error occurred."), IntakeHeaders)

  /** The response that relays a dispatch failure: the upstream status and text. */
  function DispatchFailed(status: int, text: string): Response {
    Response(status, JsonError("GitHub API error: " + text), IntakeHeaders)
  }

  const CallbackInvalid := Response(400, JsonError("Invalid callback data."), CallbackHeaders)
  const CallbackUnknownStatus := Response(400, JsonError("Unknown status in callback."), CallbackHeaders)
  const CallbackProcessed := Response(200, JsonMessage("Callback received and processed."), CallbackHeaders)
  const CallbackInternalError := Response(500, JsonError("Internal error processing callback."), CallbackHeaders)

  /** The intake request carries a website and an email, and the Worker has
      its GitHub token. */
  predicate IntakeComplete(body: RequestBody, env: Env) {
    body.Json? && Truthy(body.website) && Truthy(body.email) && Truthy(env.githubToken)
  }

  /** What the intake route answers and calls, case by case. */
  predicate IntakeSpec(body: RequestBody, env: Env, up: Upstream, resp: Response, effects: seq<Effect>) {
    (body.Unparsable? ==> resp == IntakeInternalError && effects == []) &&
    (body.Json? && !IntakeComplete(body, env) ==> resp == IntakeMissing && effects == []) &&
    (IntakeComplete(body, env) ==>
      var dispatch := Dispatch(DispatchEndpoint, DispatchRef, body.website.value, body.email.value);
      match up.dispatch
      case DispatchUnreachable =>
        resp == IntakeInternalError && effects == [dispatch]
      case DispatchAnswer(status, text) =>
        if !Ok(status) then
          effects == [dispatch] &&
          resp == (if ConstructibleWithBody(status) then DispatchFailed(status, text) else IntakeInternalError)
        else
          resp == IntakeStarted &&
          effects == [dispatch] + EmailEffects(body.email.value, ConfirmationSubject, ConfirmationBody(body.website.value), env))
  }

  /** What the callback route answers and calls, case by case. */
  predicate CallbackSpec(body: RequestBody, env: Env, up: Upstream, resp: Response, effects: seq<Effect>) {
    (body.Unparsable? ==> resp == CallbackInternalError && effects == []) &&
    (body.Json? && !(Truthy(body.status) && Truthy(body.userEmail)) ==> resp == CallbackInvalid && effects == []) &&
    (body.Json? && Truthy(body.status) && Truthy(body.userEmail) ==>
      var site := OrElse(body.websiteUrl, SiteFallback);
      var to := body.userEmail.value;
      if body.status.value == "success" && Truthy(body.previewUrl) then
        resp == CallbackProcessed &&
        effects == EmailEffects(to, SuccessSubject, SuccessBody(site, body.previewUrl.value), env)
      else if body.status.value == "failure" then
        match body.errorMessage
        case NonStringDetail => resp == CallbackInternalError && effects == []
        case NoDetail =>
          resp == CallbackProcessed && effects == EmailEffects(to, FailureSubject, FailureBody(site, ""), env)
        case Detail(e) =>
          resp == CallbackProcessed && effects == EmailEffects(to, FailureSubject, FailureBody(site, DetailsParagraph(e)), env)
      else
        resp == CallbackUnknownStatus && effects == [])
  }

  /** Route 1: the form submission. Validates, dispatches the workflow, and
      only after an ok dispatch sends the best-effort confirmation email. */
  method HandleIntake(body: RequestBody, env: Env, up: Upstream) returns (resp: Response, effects: seq<Effect>)
    ensures IntakeSpec(body, env, up, resp, effects)
  {
    effects := [];
    if body.Unparsable? {
      return IntakeInternalError, effects;
    }
    var websiteUrl, userEmail, githubToken := body.website, body.email, env.githubToken;
    if !Truthy(websiteUrl) || !Truthy(userEmail) || !Truthy(githubToken) {
      return IntakeMissing, effects;
    }
    effects := effects + [Dispatch(DispatchEndpoint, DispatchRef, websiteUrl.value, userEmail.value)];
    match up.dispatch {
      case DispatchUnreachable =>
        return IntakeInternalError, effects;
      case DispatchAnswer(status, text) =>
        if !Ok(status) {
          // building the relayed response throws for a status outside 200..599 or a null-body status
          resp := if ConstructibleWithBody(status) then DispatchFailed(status, text) else IntakeInternalError;
          return resp, effects;
        }
    }
    var emailSent, mail := SendEmailViaResend(userEmail.value, ConfirmationSubject, ConfirmationBody(websiteUrl.value), env, up.email);
    effects := effects + mail;
    resp := IntakeStarted;
  }

  /** Route 2: the workflow's callback. Validates, picks the template and
      sends the status email; the email's own outcome does not change the
      answer. */
  method HandleCallback(body: RequestBody, env: Env, up: Upstream) returns (resp: Response, effects: seq<Effect>)
    ensures CallbackSpec(body, env, up, resp, effects)
  {
    effects := [];
    if body.Unparsable? {
      return CallbackInternalError, effects;
    }
    var status, userEmail := body.status, body.userEmail;
    if !Truthy(status) || !Truthy(userEmail) {
      return CallbackInvalid, effects;
    }
    var composed := ComposeStatusEmail(status.value, body.previewUrl, body.websiteUrl, body.errorMessage);
    match composed {
      case DetailNotString =>
        return CallbackInternalError, effects;
      case UnknownStatus =>
        return CallbackUnknownStatus, effects;
      case Composed(email) =>
        var finalEmailSent, mail := SendEmailViaResend(userEmail.value, email.subject, email.html, env, up.email);
        effects := effects + mail;
        resp := CallbackProcessed;
    }
  }

  /** The Worker's entry point: one request, the secrets, and the replies of
      the outbound APIs give the response and the ordered outbound calls. */
  method Fetch(req: Request, env: Env, up: Upstream) returns (resp: Response, effects: seq<Effect>)
    ensures req.verb == "OPTIONS" ==> resp == PreflightResponse && effects == []
    ensures RouteOf(req.verb, req.path) == NotFound ==> resp == NotFoundResponse && effects == []
    ensures RouteOf(req.verb, req.path) == Intake ==> IntakeSpec(req.body, env, up, resp, effects)
    ensures RouteOf(req.verb, req.path) == Callback ==> CallbackSpec(req.body, env, up, resp, effects)
  {
    match RouteOf(req.verb, req.path) {
      case Preflight =>
        resp, effects := PreflightResponse, [];
      case Intake =>
        resp, effects := HandleIntake(req.body, env, up);
      case Callback =>
        resp, effects := HandleCallback(req.body, env, up);
      case NotFound =>
        resp, effects := NotFoundResponse, [];
    }
  }

  /** On intake, the answer and the outbound calls do not depend on the email
      provider's reply: the confirmation email is best effort. */
  lemma IntakeIgnoresEmailReply(body: RequestBody, env: Env, up1: Upstream, up2: Upstream,
                                resp1: Response, effects1: seq<Effect>, resp2: Response, effects2: seq<Effect>)
    requires up1.dispatch == up2.dispatch
    requires IntakeSpec(body, env, up1, resp1, effects1) && IntakeSpec(body, env, up2, resp2, effects2)
    ensures resp1 == resp2 && effects1 == effects2
  {
  }

  /** On callback, the answer and the outbound calls do not depend on the
      email provider's reply either. */
  lemma CallbackIgnoresEmailReply(body: RequestBody, env: Env, up1: Upstream, up2: Upstream,
                                  resp1: Response, effects1: seq<Effect>, resp2: Response, effects2: seq<Effect>)
    requires CallbackSpec(body, env, up1, resp1, effects1) && CallbackSpec(body, env, up2, resp2, effects2)
    ensures resp1 == resp2 && effects1 == effects2
  {
  }

  /** On intake, the workflow is dispatched first and at most once, and an
      email is only ever the confirmation, sent second, to the submitted
      address, after an ok dispatch. */
  lemma IntakeEmailFollowsDispatch(body: RequestBody, env: Env, up: Upstream, resp: Response, effects: seq<Effect>, i: int)
    requires IntakeSpec(body, env, up, resp, effects)
    requires 0 <= i < |effects|
    ensures effects[i].Dispatch? <==> i == 0
    ensures effects[i].Email? ==>
      i == 1 && resp == IntakeStarted && up.dispatch.DispatchAnswer? && Ok(up.dispatch.status) &&
      effects[i].to == body.email.value && effects[i].subject == ConfirmationSubject
  {
  }

  /** On callback, nothing is dispatched and at most one email goes out, to
      `userEmail`, with one of the two status subjects. */
  lemma CallbackSendsOneStatusEmail(body: RequestBody, env: Env, up: Upstream, resp: Response, effects: seq<Effect>, i: int)
    requires CallbackSpec(body, env, up, resp, effects)
    requires 0 <= i < |effects|
    ensures i == 0 && effects[i].Email? && resp == CallbackProcessed
    ensures effects[i].to == body.userEmail.value
    ensures effects[i].subject == SuccessSubject || effects[i].subject == FailureSubject
  {
  }

  /** A 400 or 500 answer, on either route, comes with no email; a 400 or 500
      on the callback route comes with no outbound call at all. */
  lemma RejectionsSendNoEmail(req: Request, env: Env, up: Upstream, resp: Response, effects: seq<Effect>)
    requires RouteOf(req.verb, req.path) == Intake ==> IntakeSpec(req.body, env, up, resp, effects)
    requires RouteOf(req.verb, req.path) == Callback ==> CallbackSpec(req.body, env, up, resp, effects)
    requires RouteOf(req.verb, req.path) in {Intake, Callback}
    requires resp.status == 400 || resp.status == 500
    ensures forall e | e in effects :: e.Dispatch?
    ensures RouteOf(req.verb, req.path) == Callback ==> effects == []
  {
  }
}
