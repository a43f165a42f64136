/**
 * The abandoned-users job of worker/cron-jobs/abandoned-users/abandoned-users.js:
 * every lead created since yesterday gets the abandoned-signup e-mail; the
 * run counts sent and failed e-mails, lists the addresses mailed and
 * reports them in a summary e-mail. The clock, the cursor's leads and each
 * send's transport answer are inputs.
 */
module AbandonedUsers {
  import opened Wrappers
  import opened Js
  import opened SummaryMail
  import opened Mandrill

  const JobName: string := "ww-abandoned-users"
  const TemplateSlug: string := "abandoned-users"
  const TemplateName: string := "Abandoned Users"
  const Tag: string := "abandoned-users"
  const MsPerDay: int := 86400000

  /** A lead: the e-mail entered in an unfinished sign-up, and its creation time in milliseconds. */
  datatype Lead = Lead(email: Option<string>, creation: int)

  /** The cursor's query: leads created on or after one day before `now`. */
  predicate Selected(now: int, l: Lead) {
    l.creation >= now - MsPerDay
  }

  /** What the send does: the promise's settlement, and whether a template request reached the transport. */
  datatype Send = Send(outcome: SendOutcome, request_issued: bool)

  /**
   * `sendMandrillAbandonedUsersEmail`: a missing address rejects with
   * `'No email'`, but without a `return` the template is still handed to the
   * transport; its later answer cannot settle the promise again.
   */
  function SendAbandonedEmail(to_email: Option<string>, transport: Transport): (s: Send)
    ensures s.request_issued
    ensures !Truthy(to_email) ==> s.outcome == Rejected("No email")
    ensures Truthy(to_email) ==> (s.outcome.EmailError? <==> transport.TransportError?)
    ensures !s.outcome.Rejected? <==> Truthy(to_email)
  {
    if !Truthy(to_email) then Send(Rejected("No email"), true)
    else if transport.Accepted? then Send(Delivered, true)
    else Send(EmailError, true)
  }

  /**
   * The template the private sender builds: fixed slug, name, tag and
   * campaign, no merge variables, the subject and `send_at` only when truthy.
   */
  function AbandonedTemplate(to_email: string, subject: Option<string>, send_at: Option<string>): (t: Template)
    ensures t.template_slug == TemplateSlug && t.template_name == Some(TemplateName)
    ensures t.message.to_email == to_email && t.message.tags == [Tag] && t.message.ga_campaign == Tag
    ensures t.message.global_merge_vars == []
  {
    var message := Message(
      SenderEmail, SenderName, to_email, SenderEmail, TrackingDomain, SigningDomain, [], AnalyticsDomains,
      if Truthy(subject) then subject else None, [Tag], Tag);
    Template(TemplateSlug, Some(TemplateName), message, if Truthy(send_at) then send_at else None)
  }

  /**
   * The private sender is a copy of the shared one: for an address it builds
   * the template `sendMandrillEmail` builds from the same fields.
   */
  lemma SameAsSharedSender(to_email: string, subject: Option<string>, send_at: Option<string>)
    requires to_email != ""
    ensures BuildTemplate(EmailData(Some(to_email), Some(TemplateSlug), Some(TemplateName), subject, Some([Tag]),
                                    Some(Tag), None, send_at))
         == Success(AbandonedTemplate(to_email, subject, send_at))
  {
  }

  datatype Visit = Visit(lead: Lead, transport: Transport)

  /** `count_so_far`, `count_sent`, `count_error` and `sent_emails_list`. */
  datatype Tally = Tally(count_so_far: nat, count_sent: nat, count_error: nat, sent: seq<Option<string>>)

  function Step(t: Tally, v: Visit): (r: Tally)
    ensures r.count_so_far == t.count_so_far + 1
    ensures r.count_sent + r.count_error == t.count_sent + t.count_error + 1
  {
    var s := SendAbandonedEmail(v.lead.email, v.transport);
    if s.outcome.Rejected? then t.(count_so_far := t.count_so_far + 1, count_error := t.count_error + 1)
    else t.(count_so_far := t.count_so_far + 1, count_sent := t.count_sent + 1, sent := t.sent + [v.lead.email])
  }

  function Run(visits: seq<Visit>): Tally {
    if visits == [] then Tally(0, 0, 0, [])
    else Step(Run(visits[..|visits| - 1]), visits[|visits| - 1])
  }

  /** The addresses of the leads that have one, in cursor order. */
  function Mailable(visits: seq<Visit>): (r: seq<Option<string>>)
    ensures forall e :: e in r ==> Truthy(e)
  {
    if visits == [] then []
    else Mailable(visits[..|visits| - 1]) + (if Truthy(visits[|visits| - 1].lead.email) then [visits[|visits| - 1].lead.email] else [])
  }

  /**
   * Every lead increments exactly one counter; the sent list is exactly the
   * leads' addresses in cursor order, whatever the transport answered, and
   * its length is `count_sent`.
   */
  lemma {:induction false} RunShape(visits: seq<Visit>)
    ensures var t := Run(visits);
      && t.count_so_far == |visits|
      && t.count_sent + t.count_error == t.count_so_far
      && t.sent == Mailable(visits)
      && t.count_sent == |t.sent|
  {
    if visits != [] {
      RunShape(visits[..|visits| - 1]);
    }
  }

  // ---------------------------------------------------------------- the summary e-mail

  function HeaderHtml(total_leads: nat, total_sent: nat, error_count: nat): string {
    "\n        <h3>Wheelwell job Update: " + JobName + "</h3>\n"
    + "        <p>Yo stud!</p>\n"
    + "        <p><strong>" + NatToString(total_leads) + "</strong> people didn't complete desktop signup yesterday. Finished sending <strong>"
    + NatToString(total_sent) + "</strong> abandoned users follow-up emails with <strong>"
    + NatToString(error_count) + "</strong> errors. Emails sent to:</p>\n"
    + "        <ol>\n    "
  }

  function ItemsHtml(sent: seq<Option<string>>): string {
    if sent == [] then "" else ItemsHtml(sent[..|sent| - 1]) + "<li>" + Show(sent[|sent| - 1]) + "</li>"
  }

  /** The summary e-mail: the counts, one item per address mailed in order, the error paragraph exactly when there is an error. */
  function SummaryHtml(sent: seq<Option<string>>, total_leads: nat, total_sent: nat, error_count: nat, error: Option<string>): string {
    HeaderHtml(total_leads, total_sent, error_count) + ItemsHtml(sent) + "</ol>" + ErrorParagraph(error) + "<3 <p>Your Amazing Wheelwell Task Service</p>"
  }

  /** Each address adds exactly its own item to the list. */
  lemma ItemsHtmlAppend(sent: seq<Option<string>>, e: Option<string>)
    ensures ItemsHtml(sent + [e]) == ItemsHtml(sent) + "<li>" + Show(e) + "</li>"
  {
    assert (sent + [e])[..|sent|] == sent;
  }

  /** `populateEmail` */
  method PopulateEmail(sent: seq<Option<string>>, total_leads: nat, total_sent: nat, error_count: nat, error: Option<string>)
    returns (html: string)
    ensures html == SummaryHtml(sent, total_leads, total_sent, error_count, error)
  {
    var items := "";
    var i := 0;
    while i < |sent|
      invariant 0 <= i <= |sent|
      invariant items == ItemsHtml(sent[..i])
    {
      assert sent[..i + 1][..i] == sent[..i];
      items := items + "<li>" + Show(sent[i]) + "</li>";
      i := i + 1;
    }
    assert sent[..i] == sent;
    html := HeaderHtml(total_leads, total_sent, error_count) + items + "</ol>" + ErrorParagraph(error) + "<3 <p>Your Amazing Wheelwell Task Service</p>";
  }

  /** The cursor loop: `count_so_far`, `count_sent`, `count_error` and `sent_emails_list`, lead by lead. */
  method MailLeads(visits: seq<Visit>) returns (tally: Tally)
    ensures tally == Run(visits)
  {
    var count_so_far := 0;
    var count_sent := 0;
    var count_error := 0;
    var sent_emails_list: seq<Option<string>> := [];
    var i := 0;
    while i < |visits|
      invariant 0 <= i <= |visits|
      invariant Tally(count_so_far, count_sent, count_error, sent_emails_list) == Run(visits[..i])
    {
      var v := visits[i];
      assert visits[..i + 1][..i] == visits[..i];
      count_so_far := count_so_far + 1;
      var s := SendAbandonedEmail(v.lead.email, v.transport);
      if s.outcome.Rejected? {
        count_error := count_error + 1;
      } else {
        count_sent := count_sent + 1;
        sent_emails_list := sent_emails_list + [v.lead.email];
      }
      i := i + 1;
    }
    assert visits[..i] == visits;
    tally := Tally(count_so_far, count_sent, count_error, sent_emails_list);
  }

  /**
   * `on_tick`: the lead count query, then the cursor's leads, newest first,
   * and the error the cursor failed with, if it did. The cursor starts only
   * once the count resolves; a rejected count is caught by nothing, so no
   * lead is mailed and no summary is sent. Otherwise both cursor paths send
   * the summary, the failure path with the error.
   */
  method OnTick(count: Result<nat, string>, visits: seq<Visit>, cursor_error: Option<string>)
    returns (tally: Tally, html: Option<string>)
    ensures count.Failure? ==> tally == Tally(0, 0, 0, []) && html.None?
    ensures count.Success? ==> tally == Run(visits)
    ensures count.Success? ==>
      html == Some(SummaryHtml(tally.sent, count.value, tally.count_sent, tally.count_error, cursor_error))
  {
    if count.Failure? {
      return Tally(0, 0, 0, []), None;
    }
    tally := MailLeads(visits);
    var body := PopulateEmail(tally.sent, count.value, tally.count_sent, tally.count_error, cursor_error);
    html := Some(body);
  }

}
