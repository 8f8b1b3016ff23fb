/** The three emails the Worker composes, and the callback branch that
    chooses between the two status emails. */
module Templates {
  import opened Wrappers
  import opened Js
  import opened Messages

  const ConfirmationSubject := "Website Migration Request Received"
  const SuccessSubject := "Your Website Preview is Ready!"
  const FailureSubject := "Problem Migrating Your Website"

  /** The error detail shown to the user is cut to this many characters. */
  const MaxDetailLength := 200

  /** The text that stands for the site when the callback has no `websiteUrl`. */
  const SiteFallback := "your submitted URL"

  // The fixed prose of the three emails, between the interpolated pieces.
  const ConfirmationOpening := "<p>Hi there,</p><p>We've received your request to start migrating "
  const ConfirmationClosing := ".</p><p>We'll process it shortly and send another email with a preview link once it's ready, or if we encounter any issues.</p><p>Thanks,<br/>Your Migration Service</p>"
  const SuccessOpening := "<p>Hi there,</p><p>Good news! We've generated a preview of your migrated site from "
  const SuccessLinkLead := ".</p><p>You can view it here: "
  const SuccessClosing := "</p><p>This preview is temporary. Please review it. If you're happy and want to finalize the migration (including pointing your custom domain), let us know by replying to this email!</p><p>Thanks,<br/>Your Migration Service</p>"
  const FailureOpening := "<p>Hi there,</p><p>Unfortunately, we encountered an issue trying to migrate "
  const FailureSiteEnd := ".</p>"
  const FailureOutro := "<p>This can happen with complex sites or temporary issues. You can try submitting again, or if the problem persists, feel free to reply to this email.</p><p>Sorry we couldn't automate it this time.</p><p>Thanks,<br/>Your Migration Service</p>"

  function ConfirmationBody(websiteUrl: string): string {
    ConfirmationOpening + websiteUrl + ConfirmationClosing
  }

  /** The link to the preview, with the URL as both target and text. */
  function PreviewLink(previewUrl: string): string {
    "<a href=\"" + previewUrl + "\">" + previewUrl + "</a>"
  }

  function SuccessBody(site: string, previewUrl: string): string {
    SuccessOpening + site + SuccessLinkLead + PreviewLink(previewUrl) + SuccessClosing
  }

  function FailureIntro(site: string): string {
    FailureOpening + site + FailureSiteEnd
  }

  const DetailsOpen := "<p>Details: "
  const DetailsClose := "</p>"

  /** `errorMessage.substring(0, 200)`: the first 200 characters, or all of
      a shorter message. */
  function TruncateDetail(e: string): (r: string)
    ensures |r| == Min(|e|, MaxDetailLength)
    ensures r == e[..|r|]
  {
    Substring(e, 0, MaxDetailLength)
  }

  /** The Details paragraph of the failure email: empty when the message is
      falsy, otherwise the truncated message between its tags. */
  function DetailsParagraph(e: string): (p: string)
    ensures e == "" ==> p == ""
    ensures e != "" ==> p == DetailsOpen + e[..Min(|e|, MaxDetailLength)] + DetailsClose
  {
    if e == "" then "" else DetailsOpen + TruncateDetail(e) + DetailsClose
  }

  /** The failure email with the given Details paragraph (possibly empty). */
  function FailureBody(site: string, details: string): string {
    FailureIntro(site) + details + FailureOutro
  }

  datatype StatusEmail = StatusEmail(subject: string, html: string)

  /** What the callback branch's template choice produces: an email, the
      unknown-status rejection, or the TypeError of a non-string detail. */
  datatype Composition = Composed(email: StatusEmail) | UnknownStatus | DetailNotString

  /** The template choice of the callback: a success email needs a truthy
      `previewUrl`; a failure email carries the truncated error detail when
      there is one; any other status is unknown. The body is built step by
      step, as the Worker does. */
  method ComposeStatusEmail(status: string, previewUrl: Option<string>, websiteUrl: Option<string>, errorMessage: ErrorField)
    returns (r: Composition)
    ensures status == "success" && Truthy(previewUrl) ==>
      r == Composed(StatusEmail(SuccessSubject, SuccessBody(OrElse(websiteUrl, SiteFallback), previewUrl.value)))
    ensures status == "failure" && errorMessage.NonStringDetail? <==> r.DetailNotString?
    ensures status == "failure" && errorMessage.NoDetail? ==>
      r == Composed(StatusEmail(FailureSubject, FailureBody(OrElse(websiteUrl, SiteFallback), "")))
    ensures status == "failure" && errorMessage.Detail? ==>
      r == Composed(StatusEmail(FailureSubject, FailureBody(OrElse(websiteUrl, SiteFallback), DetailsParagraph(errorMessage.text))))
    ensures r.UnknownStatus? <==> status != "failure" && !(status == "success" && Truthy(previewUrl))
  {
    var emailSubject := "";
    var emailBody := "";
    var site := OrElse(websiteUrl, SiteFallback);
    if status == "success" && Truthy(previewUrl) {
      emailSubject := SuccessSubject;
      emailBody := SuccessBody(site, previewUrl.value);
    } else if status == "failure" {
      emailSubject := FailureSubject;
      emailBody := FailureIntro(site);
      match errorMessage {
        case NoDetail =>
        case Detail(e) =>
          if e != "" {
            emailBody := emailBody + (DetailsOpen + Substring(e, 0, MaxDetailLength) + DetailsClose);
          }
        case NonStringDetail =>
          return DetailNotString;
      }
      emailBody := emailBody + FailureOutro;
    } else {
      return UnknownStatus;
    }
    r := Composed(StatusEmail(emailSubject, emailBody));
  }

  /** The success email links to the preview: its body holds
      `<a href="previewUrl">previewUrl</a>`. */
  lemma SuccessBodyLinksPreview(site: string, previewUrl: string)
    ensures Contains(SuccessBody(site, previewUrl), "<a href=\"" + previewUrl + "\">" + previewUrl + "</a>")
  {
    var before := SuccessOpening + site + SuccessLinkLead;
    assert SuccessBody(site, previewUrl) == before + PreviewLink(previewUrl) + SuccessClosing;
    ContainsMiddle(before, PreviewLink(previewUrl), SuccessClosing);
  }

  /** Both status emails name the site: the callback's `websiteUrl` when it
      is a non-empty string, and "your submitted URL" otherwise. */
  lemma StatusEmailsNameSite(websiteUrl: Option<string>, previewUrl: string, details: string)
    ensures var shown := if Truthy(websiteUrl) then websiteUrl.value else SiteFallback;
      Contains(SuccessBody(OrElse(websiteUrl, SiteFallback), previewUrl), shown) &&
      Contains(FailureBody(OrElse(websiteUrl, SiteFallback), details), shown)
  {
    var site := OrElse(websiteUrl, SiteFallback);
    ContainsSuffix(SuccessOpening, site);
    ContainsExtended(SuccessOpening + site, site, SuccessLinkLead);
    ContainsExtended(SuccessOpening + site + SuccessLinkLead, site, PreviewLink(previewUrl));
    ContainsExtended(SuccessOpening + site + SuccessLinkLead + PreviewLink(previewUrl), site, SuccessClosing);
    ContainsSuffix(FailureOpening, site);
    ContainsExtended(FailureOpening + site, site, FailureSiteEnd);
    ContainsExtended(FailureIntro(site), site, details);
    ContainsExtended(FailureIntro(site) + details, site, FailureOutro);
  }

  /** A failure email for a present detail holds a Details paragraph with
      exactly the first min(length, 200) characters of it, and is longer than
      the email without a detail by exactly that paragraph. */
  lemma FailureBodyShowsTruncatedDetail(site: string, e: string)
    requires e != ""
    ensures Contains(FailureBody(site, DetailsParagraph(e)), DetailsOpen + e[..Min(|e|, MaxDetailLength)] + DetailsClose)
    ensures |FailureBody(site, DetailsParagraph(e))| == |FailureBody(site, "")| + |DetailsOpen + DetailsClose| + Min(|e|, MaxDetailLength)
  {
    ContainsMiddle(FailureIntro(site), DetailsParagraph(e), FailureOutro);
  }
}
