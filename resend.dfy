/** `sendEmailViaResend`: the email helper both routes share. */
module Resend {
  import opened Js
  import opened Http
  import opened Messages

  /** All three email secrets are present (truthy). */
  predicate Configured(env: Env) {
    Truthy(env.resendApiKey) && Truthy(env.resendFromEmail) && Truthy(env.replyToEmail)
  }

  /** The reply counts as delivered: the status is ok and the reply body is
      a JSON value other than `null`. Every other outcome is caught and
      reported as not sent: a rejected `fetch`, a body that does not parse,
      and a `null` body, whose `id` the success log line cannot read. */
  predicate Delivered(reply: EmailReply) {
    reply.EmailAnswer? && Ok(reply.status) && reply.body.JsonValue?
  }

  /** The outbound calls `sendEmailViaResend` makes: one email from the
      configured sender with the configured reply-to, or none when an email
      secret is missing. */
  function EmailEffects(to: string, subject: string, html: string, env: Env): (effects: seq<Effect>)
    ensures |effects| <= 1
    ensures effects != [] <==> Configured(env)
    ensures forall e | e in effects ::
      e == Email(env.resendFromEmail.value, to, subject, html, env.replyToEmail.value)
  {
    if Configured(env) then [Email(env.resendFromEmail.value, to, subject, html, env.replyToEmail.value)] else []
  }

  /** Sends one email through the provider unless the configuration is
      missing; never throws. Returns whether it was sent and the outbound
      calls it made. */
  method SendEmailViaResend(toEmail: string, subject: string, htmlContent: string, env: Env, reply: EmailReply)
    returns (sent: bool, effects: seq<Effect>)
    ensures effects == EmailEffects(toEmail, subject, htmlContent, env)
    ensures sent <==> Configured(env) && Delivered(reply)
  {
    var apiKey, fromEmail, replyToEmail := env.resendApiKey, env.resendFromEmail, env.replyToEmail;
    if !Truthy(apiKey) || !Truthy(fromEmail) || !Truthy(replyToEmail) {
      return false, [];
    }
    effects := [Email(fromEmail.value, toEmail, subject, htmlContent, replyToEmail.value)];
    match reply {
      case EmailUnreachable =>
        sent := false;
      case EmailAnswer(status, body) =>
        if Ok(status) {
          // `await response.json()` throws when the body is not JSON, and
          // reading `data.id` throws when it is `null`; both land in the catch
          sent := body.JsonValue?;
        } else {
          sent := false;
        }
    }
  }
}
