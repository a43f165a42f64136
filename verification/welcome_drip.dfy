/**
 * The welcome-drip job of worker/cron-jobs/welcome-drip/welcome-drip.js:
 * each user created in the last 18 days is mailed the campaign of the
 * drip table for the number of whole days since sign-up, if there is one;
 * the run counts successes and errors and groups the mailed profile names
 * by template for the summary e-mail. The clock, the cursor's documents and
 * each send's transport answer are inputs.
 */
module WelcomeDrip {
  import opened Wrappers
  import opened Js
  import opened SummaryMail
  import opened UserData
  import opened Mandrill
  import opened WelcomeDripData

  const JobName: string := "ww-welcome-drip"
  const MsPerDay: int := 86400000

  /** `Math.floor((today - creation) / (1000 * 60 * 60 * 24))`; Euclidean division by a positive divisor is the floor. */
  function DaysSince(now: int, creation: int): (days: int)
    ensures days * MsPerDay <= now - creation < (days + 1) * MsPerDay
  {
    (now - creation) / MsPerDay
  }

  /** `doc.local.username || (doc.facebook ? doc.facebook.email : null)` */
  function Recipient(u: User): (to: Option<string>)
    ensures Truthy(to) <==> (u.local.Some? && Truthy(u.local.value.username)) || (u.facebook.Some? && Truthy(u.facebook.value.email))
    ensures u.local.Some? && Truthy(u.local.value.username) ==> to == u.local.value.username
  {
    Or(if u.local.Some? then u.local.value.username else None,
       if u.facebook.Some? then u.facebook.value.email else None)
  }

  /** The `email_data` of one drip e-mail. */
  function DripEmail(env: Env, u: User, c: Campaign): EmailData {
    EmailData(Recipient(u), Some(c.template_slug), Some(c.template_name), None, Some(c.tags),
              Some(c.ga_campaign), Some([MergeVar("user_info", PopulateUserInfo(env, Some(u)))]), None)
  }

  /** The template of a drip e-mail carries the campaign's slug, name, tags and campaign; only a missing recipient stops it. */
  lemma DripEmailTemplate(env: Env, u: User, c: Campaign)
    requires c.template_slug != ""
    ensures var r := BuildTemplate(DripEmail(env, u, c));
      && (r.Success? <==> Truthy(Recipient(u)))
      && (r.Failure? ==> r.error == "No email")
      && (r.Success? ==> r.value.template_slug == c.template_slug && r.value.message.tags == c.tags
                         && r.value.message.ga_campaign == (if c.ga_campaign != "" then c.ga_campaign else DefaultCampaign)
                         && r.value.message.to_email == Recipient(u).value)
  {
  }

  /** One entry of `email_summary`: a template slug and the profile names it was sent to, in order. */
  datatype Group = Group(slug: string, names: seq<Option<string>>)

  function Slugs(summary: seq<Group>): seq<string> {
    if summary == [] then [] else [summary[0].slug] + Slugs(summary[1..])
  }

  function TotalNames(summary: seq<Group>): nat {
    if summary == [] then 0 else |summary[0].names| + TotalNames(summary[1..])
  }

  /** The profile names recorded under a slug, none when it has no entry. */
  function NamesFor(summary: seq<Group>, slug: string): seq<Option<string>> {
    if summary == [] then []
    else if summary[0].slug == slug then summary[0].names
    else NamesFor(summary[1..], slug)
  }

  predicate DistinctSlugs(summary: seq<Group>) {
    forall i, j :: 0 <= i < j < |summary| ==> summary[i].slug != summary[j].slug
  }

  /** `email_summary[slug].push(name)`, creating the list at the end of the key order when the slug is new. */
  function Push(summary: seq<Group>, slug: string, name: Option<string>): (r: seq<Group>)
    ensures TotalNames(r) == TotalNames(summary) + 1
    ensures slug in Slugs(summary) ==> Slugs(r) == Slugs(summary)
    ensures slug !in Slugs(summary) ==> Slugs(r) == Slugs(summary) + [slug]
    ensures NamesFor(r, slug) == NamesFor(summary, slug) + [name]
    ensures forall s :: s != slug ==> NamesFor(r, s) == NamesFor(summary, s)
  {
    if summary == [] then [Group(slug, [name])]
    else if summary[0].slug == slug then [Group(slug, summary[0].names + [name])] + summary[1..]
    else [summary[0]] + Push(summary[1..], slug, name)
  }

  lemma PushKeepsDistinct(summary: seq<Group>, slug: string, name: Option<string>)
    requires DistinctSlugs(summary)
    ensures DistinctSlugs(Push(summary, slug, name))
  {
    var r := Push(summary, slug, name);
    SlugsIndex(summary);
    SlugsIndex(r);
    forall i, j | 0 <= i < j < |r|
      ensures r[i].slug != r[j].slug
    {
      if slug in Slugs(summary) || j < |summary| {
        assert Slugs(r)[i] == Slugs(summary)[i] && Slugs(r)[j] == Slugs(summary)[j];
      } else {
        assert Slugs(r)[j] == slug && Slugs(r)[i] == Slugs(summary)[i];
        assert Slugs(summary)[i] in Slugs(summary);
      }
    }
  }

  lemma {:induction false} SlugsIndex(summary: seq<Group>)
    ensures |Slugs(summary)| == |summary|
    ensures forall i :: 0 <= i < |summary| ==> Slugs(summary)[i] == summary[i].slug
  {
    if summary != [] {
      SlugsIndex(summary[1..]);
    }
  }

  /**
   * What one cursor user contributes: its document, the clock reading the
   * callback takes when the cursor reaches it (in milliseconds), and what the
   * transport answers when it is mailed.
   */
  datatype Visit = Visit(doc: User, read_at: int, transport: Transport)

  /** The run's counters and `email_summary`. */
  datatype Tally = Tally(count: nat, success_count: nat, error_count: nat, summary: seq<Group>)

  /** The campaign a user is due, by whole days since sign-up. */
  function Due(now: int, u: User): Option<Campaign> {
    CampaignFor(DaysSince(now, u.creation))
  }

  /** One step of the cursor. */
  function Step(env: Env, t: Tally, v: Visit): (r: Tally)
    ensures r.count == t.count + 1
    ensures Due(v.read_at, v.doc).None? ==> r == t.(count := t.count + 1)
  {
    var c := Due(v.read_at, v.doc);
    if c.None? then t.(count := t.count + 1)
    else match SendMandrillEmail(DripEmail(env, v.doc, c.value), v.transport)
      case Rejected(_) => t.(count := t.count + 1, error_count := t.error_count + 1)
      case _ => t.(count := t.count + 1, success_count := t.success_count + 1,
                   summary := Push(t.summary, c.value.template_slug, v.doc.profile_name))
  }

  /** The tally after the first visits, left to right. */
  function Run(env: Env, visits: seq<Visit>): Tally {
    if visits == [] then Tally(0, 0, 0, [])
    else Step(env, Run(env, visits[..|visits| - 1]), visits[|visits| - 1])
  }

  /** The users that were due a campaign. */
  function Attempted(visits: seq<Visit>): (n: nat)
    ensures n <= |visits|
  {
    if visits == [] then 0
    else Attempted(visits[..|visits| - 1]) + (if Due(visits[|visits| - 1].read_at, visits[|visits| - 1].doc).Some? then 1 else 0)
  }

  /**
   * Every user is counted; exactly the users due a campaign end in a success
   * or an error; the summary holds one name per success, under distinct
   * slugs of the drip table.
   */
  lemma {:induction false} RunShape(env: Env, visits: seq<Visit>)
    ensures var t := Run(env, visits);
      && t.count == |visits|
      && t.success_count + t.error_count == Attempted(visits)
      && t.success_count == TotalNames(t.summary)
      && DistinctSlugs(t.summary)
      && forall s :: s in Slugs(t.summary) ==> exists d :: d in DripDays && CampaignFor(d).value.template_slug == s
  {
    if visits != [] {
      var init := visits[..|visits| - 1];
      var v := visits[|visits| - 1];
      RunShape(env, init);
      var t := Run(env, init);
      var c := Due(v.read_at, v.doc);
      if c.Some? {
        var slug := c.value.template_slug;
        PushKeepsDistinct(t.summary, slug, v.doc.profile_name);
        var d := DaysSince(v.read_at, v.doc.creation);
        assert d in DripDays && CampaignFor(d).value.template_slug == slug;
        var pushed := Push(t.summary, slug, v.doc.profile_name);
        forall s | s in Slugs(pushed)
          ensures exists d :: d in DripDays && CampaignFor(d).value.template_slug == s
        {
          if s != slug {
            assert s in Slugs(t.summary);
          }
        }
      }
    }
  }

  /** A user whose drip e-mail has no recipient ends in `error_count` and leaves the summary alone. */
  lemma NoRecipientIsError(env: Env, t: Tally, v: Visit)
    requires Due(v.read_at, v.doc).Some? && !Truthy(Recipient(v.doc))
    ensures Step(env, t, v) == t.(count := t.count + 1, error_count := t.error_count + 1)
  {
    DripEmailTemplate(env, v.doc, Due(v.read_at, v.doc).value);
  }

  // ---------------------------------------------------------------- the summary e-mail

  const Header: string := "<h3>Wheelwell Task Update: " + JobName + "</h3><h4>Top of the morning Wheelwell team! Here's your daily update on welcome drip emails sent:</h4>"
  const Footer: string := "<p><3 Your Ridiculously Good Looking Wheelwell Task Service</p>"

  function ItemHtml(name: Option<string>): string {
    "<li>" + Show(name) + "</li>"
  }

  function ItemsHtml(names: seq<Option<string>>): string {
    if names == [] then "" else ItemsHtml(names[..|names| - 1]) + ItemHtml(names[|names| - 1])
  }

  /** The opening of a template's section: its slug and how many e-mails it sent. */
  function SectionHead(g: Group): string {
    "<strong><p>" + g.slug + " - " + NatToString(|g.names|) + " Emails Sent</p></strong><ul>"
  }

  /** One template's section: the head, then the names in order. */
  function SectionHtml(g: Group): string {
    SectionHead(g) + ItemsHtml(g.names) + "</ul>"
  }

  function SectionsHtml(summary: seq<Group>): string {
    if summary == [] then "" else SectionsHtml(summary[..|summary| - 1]) + SectionHtml(summary[|summary| - 1])
  }

  /** The `forEach` over one template's names. */
  method RenderSection(g: Group) returns (section: string)
    ensures section == SectionHtml(g)
  {
    var items := "";
    var j := 0;
    while j < |g.names|
      invariant 0 <= j <= |g.names|
      invariant items == ItemsHtml(g.names[..j])
    {
      assert g.names[..j + 1][..j] == g.names[..j];
      items := items + ItemHtml(g.names[j]);
      j := j + 1;
    }
    assert g.names[..j] == g.names;
    section := SectionHead(g) + items + "</ul>";
  }

  /** The summary e-mail: a section per template in key order, the error paragraph exactly when there is an error, then the sign-off. */
  function SummaryHtml(summary: seq<Group>, error: Option<string>): string {
    Header + SectionsHtml(summary) + ErrorParagraph(error) + Footer
  }

  /** The error paragraph is what makes the failure e-mail longer than the plain summary, and only an error adds it. */
  lemma ErrorParagraphOnlyOnError(summary: seq<Group>, error: Option<string>)
    ensures Truthy(error) <==> |SummaryHtml(summary, error)| > |SummaryHtml(summary, None)|
  {
    assert ErrorParagraph(None) == "";
  }

  /** `populateEmail`, appending section by section. */
  method PopulateEmail(summary: seq<Group>, error: Option<string>) returns (html: string)
    ensures html == SummaryHtml(summary, error)
  {
    var sections := "";
    var i := 0;
    while i < |summary|
      invariant 0 <= i <= |summary|
      invariant sections == SectionsHtml(summary[..i])
    {
      var section := RenderSection(summary[i]);
      assert summary[..i + 1][..i] == summary[..i];
      sections := sections + section;
      i := i + 1;
    }
    assert summary[..i] == summary;
    html := Header + sections + ErrorParagraph(error) + Footer;
  }

  /** How the run ends: the summary e-mail goes out, or the failure handler throws before sending anything. */
  datatype RunEnd = SummarySent(html: string) | HandlerThrew(error: string)

  /** The `eachAsync` callback for one cursor document: it updates the closure's counters and `email_summary`. */
  method OnDocument(env: Env, t: Tally, v: Visit) returns (r: Tally)
    ensures r == Step(env, t, v)
  {
    r := t.(count := t.count + 1);
    var campaign := Due(v.read_at, v.doc);
    if campaign.Some? {
      var outcome := SendMandrillEmail(DripEmail(env, v.doc, campaign.value), v.transport);
      if outcome.Rejected? {
        r := r.(error_count := r.error_count + 1);
      } else {
        r := r.(success_count := r.success_count + 1,
                summary := Push(r.summary, campaign.value.template_slug, v.doc.profile_name));
      }
    }
  }

  /** The cursor loop: `count`, the success and error counts and `email_summary`, user by user. */
  method MailDueUsers(env: Env, visits: seq<Visit>) returns (tally: Tally)
    ensures tally == Run(env, visits)
  {
    tally := Tally(0, 0, 0, []);
    var i := 0;
    while i < |visits|
      invariant 0 <= i <= |visits|
      invariant tally == Run(env, visits[..i])
    {
      assert visits[..i + 1][..i] == visits[..i];
      tally := OnDocument(env, tally, visits[i]);
      i := i + 1;
    }
    assert visits[..i] == visits;
  }

  /**
   * `on_tick`: the cursor's users in creation order, each with its own clock reading,
   * and the error the cursor failed with, if it did. A failed cursor ends in
   * the `.catch` handler, which reads the undeclared `email_name` and throws.
   */
  method OnTick(env: Env, visits: seq<Visit>, cursor_error: Option<string>)
    returns (tally: Tally, end: RunEnd)
    ensures tally == Run(env, visits)
    ensures cursor_error.None? <==> end.SummarySent?
    ensures end.SummarySent? ==> end.html == SummaryHtml(tally.summary, None)
  {
    tally := MailDueUsers(env, visits);
    if cursor_error.None? {
      var html := PopulateEmail(tally.summary, None);
      end := SummarySent(html);
    } else {
      end := HandlerThrew("ReferenceError: email_name is not defined");
    }
  }
}
