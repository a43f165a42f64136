/**
 * The light-user drip of worker/cron-jobs/light-user-drip/light-user-drip.js:
 * users with a low mod score who signed up exactly 14 whole days ago get a
 * follow-up e-mail; the run counts successes and errors and lists the
 * mailed users for the summary e-mail. The clock, the cursor's documents
 * and each send's transport answer are inputs.
 */
module LightUserDrip {
  import opened Wrappers
  import opened Js
  import opened SummaryMail
  import opened UserData
  import opened Mandrill
  import WelcomeDrip

  const JobName: string := "ww-light-user-drip"
  const DripDay: int := 14
  /** The query window: created at most this many days ago. */
  const WindowDays: int := 15
  const ModScoreBound: int := 10
  const Tags: seq<string> := ["light-user"]
  const TemplateSlug: string := "low-mod-score-users-email"
  const TemplateName: string := "low mod score users email subj: how many mods"
  const Campaign: string := "light-user-drip"

  /** The cursor's query: ordinary users created in the last 15 days whose mod score is below 10. */
  predicate Candidate(now: int, u: User) {
    u.user_type == "USER"
    && u.creation >= now - WindowDays * WelcomeDrip.MsPerDay
    && u.mod_score.Some? && u.mod_score.value < ModScoreBound
  }

  /** Every candidate not created in the future is between 0 and 15 whole days old, so day 14 is inside the window. */
  lemma CandidateAge(now: int, u: User)
    requires Candidate(now, u) && u.creation <= now
    ensures 0 <= WelcomeDrip.DaysSince(now, u.creation) <= WindowDays
  {
  }

  /** The `email_data` of the follow-up e-mail; the recipient rule is the welcome drip's. */
  function FollowUpEmail(env: Env, u: User): EmailData {
    EmailData(WelcomeDrip.Recipient(u), Some(TemplateSlug), Some(TemplateName), None, Some(Tags),
              Some(Campaign), Some([MergeVar("user_info", PopulateUserInfo(env, Some(u)))]), None)
  }

  /** The follow-up's template uses the fixed slug, tags and campaign; only a missing recipient stops it. */
  lemma FollowUpTemplate(env: Env, u: User)
    ensures var r := BuildTemplate(FollowUpEmail(env, u));
      && (r.Success? <==> Truthy(WelcomeDrip.Recipient(u)))
      && (r.Failure? ==> r.error == "No email")
      && (r.Success? ==> r.value.template_slug == TemplateSlug && r.value.message.tags == Tags
                         && r.value.message.ga_campaign == Campaign)
  {
  }

  /** One `email_summary` entry. */
  datatype Entry = Entry(profile_name: Option<string>, mod_score: Option<int>)

  /**
   * One cursor user: its document, the clock reading the callback takes when
   * the cursor reaches it (in milliseconds), and what the transport answers.
   */
  datatype Visit = Visit(doc: User, read_at: int, transport: Transport)

  datatype Tally = Tally(count: nat, success_count: nat, error_count: nat, summary: seq<Entry>)

  /** Whether the user is mailed today: exactly 14 whole days since sign-up. */
  predicate Due(now: int, u: User) {
    WelcomeDrip.DaysSince(now, u.creation) == DripDay
  }

  function Step(env: Env, t: Tally, v: Visit): (r: Tally)
    ensures r.count == t.count + 1
    ensures !Due(v.read_at, v.doc) ==> r == t.(count := t.count + 1)
  {
    if !Due(v.read_at, v.doc) then t.(count := t.count + 1)
    else match SendMandrillEmail(FollowUpEmail(env, v.doc), v.transport)
      case Rejected(_) => t.(count := t.count + 1, error_count := t.error_count + 1)
      case _ => t.(count := t.count + 1, success_count := t.success_count + 1,
                   summary := t.summary + [Entry(v.doc.profile_name, v.doc.mod_score)])
  }

  function Run(env: Env, visits: seq<Visit>): Tally {
    if visits == [] then Tally(0, 0, 0, [])
    else Step(env, Run(env, visits[..|visits| - 1]), visits[|visits| - 1])
  }

  /** The users of the cursor due the e-mail. */
  function DueCount(visits: seq<Visit>): (n: nat)
    ensures n <= |visits|
  {
    if visits == [] then 0
    else DueCount(visits[..|visits| - 1]) + (if Due(visits[|visits| - 1].read_at, visits[|visits| - 1].doc) then 1 else 0)
  }

  /**
   * Every user is counted; exactly the due users end in a success or an
   * error; the summary has one entry per success, each for a due user of
   * the cursor.
   */
  lemma {:induction false} RunShape(env: Env, visits: seq<Visit>)
    ensures var t := Run(env, visits);
      && t.count == |visits|
      && t.success_count + t.error_count == DueCount(visits)
      && t.success_count == |t.summary|
      && forall e :: e in t.summary ==> exists v :: v in visits && Due(v.read_at, v.doc) && e == Entry(v.doc.profile_name, v.doc.mod_score)
  {
    if visits != [] {
      var init := visits[..|visits| - 1];
      var v := visits[|visits| - 1];
      RunShape(env, init);
      var t := Run(env, init);
      forall e | e in Run(env, visits).summary
        ensures exists w :: w in visits && Due(w.read_at, w.doc) && e == Entry(w.doc.profile_name, w.doc.mod_score)
      {
        if e in t.summary {
          var w :| w in init && Due(w.read_at, w.doc) && e == Entry(w.doc.profile_name, w.doc.mod_score);
          assert w in visits;
        } else {
          assert v in visits;
        }
      }
    }
  }

  // ---------------------------------------------------------------- the summary e-mail

  const Footer: string := "<p><3 Your Exceptional Wheelwell Task Service</p>"

  /** A possibly-missing number inside a template literal. */
  function ShowNumber(n: Option<int>): (s: string)
    ensures n.None? ==> s == "undefined"
  {
    if n.Some? then IntToString(n.value) else "undefined"
  }

  function HeaderHtml(success_count: nat, error_count: nat): string {
    "<h3>Wheelwell Task Update: " + JobName + "</h3><h4>Good afternoon Wheelwell! There were "
    + NatToString(success_count) + " low mod score user follow-up emails sent today with "
    + NatToString(error_count) + " errors:</h4><ul>"
  }

  function EntryHtml(e: Entry): string {
    "<li><strong>" + Show(e.profile_name) + "</strong> (Mod Score: " + ShowNumber(e.mod_score) + ")</li>"
  }

  function EntriesHtml(summary: seq<Entry>): string {
    if summary == [] then "" else EntriesHtml(summary[..|summary| - 1]) + EntryHtml(summary[|summary| - 1])
  }

  /** The summary e-mail: the counts, one item per mailed user in order, the error paragraph exactly when there is an error. */
  function SummaryHtml(summary: seq<Entry>, success_count: nat, error_count: nat, error: Option<string>): string {
    HeaderHtml(success_count, error_count) + EntriesHtml(summary) + "</ul>" + ErrorParagraph(error) + Footer
  }

  /** Items are emitted in summary order: the list of a longer summary extends that of its prefix. */
  lemma {:induction false} EntriesInOrder(summary: seq<Entry>, k: nat)
    requires k <= |summary|
    ensures EntriesHtml(summary[..k]) <= EntriesHtml(summary)
    decreases |summary|
  {
    if k < |summary| {
      var init := summary[..|summary| - 1];
      assert summary[..k] == init[..k];
      EntriesInOrder(init, k);
    } else {
      assert summary[..k] == summary;
    }
  }

  /** `populateEmail` */
  method PopulateEmail(summary: seq<Entry>, success_count: nat, error_count: nat, error: Option<string>)
    returns (html: string)
    ensures html == SummaryHtml(summary, success_count, error_count, error)
  {
    var items := "";
    var i := 0;
    while i < |summary|
      invariant 0 <= i <= |summary|
      invariant items == EntriesHtml(summary[..i])
    {
      assert summary[..i + 1][..i] == summary[..i];
      items := items + EntryHtml(summary[i]);
      i := i + 1;
    }
    assert summary[..i] == summary;
    html := HeaderHtml(success_count, error_count) + items + "</ul>" + ErrorParagraph(error) + Footer;
  }

  /** The `eachAsync` callback for one cursor document: it updates the closure's counters and `email_summary`. */
  method OnDocument(env: Env, t: Tally, v: Visit) returns (r: Tally)
    ensures r == Step(env, t, v)
  {
    r := t.(count := t.count + 1);
    if Due(v.read_at, v.doc) {
      var outcome := SendMandrillEmail(FollowUpEmail(env, v.doc), v.transport);
      if outcome.Rejected? {
        r := r.(error_count := r.error_count + 1);
      } else {
        r := r.(success_count := r.success_count + 1,
                summary := r.summary + [Entry(v.doc.profile_name, v.doc.mod_score)]);
      }
    }
  }

  /** The cursor loop: `count`, the success and error counts and `email_summary`, user by user. */
  method MailDueUsers(env: Env, visits: seq<Visit>) returns (tally: Tally)
    ensures tally == Run(env, visits)
  {
    tally := Tally(0, 0, 0, []);
    var i := 0;
    while i < |visits|
      invariant 0 <= i <= |visits|
      invariant tally == Run(env, visits[..i])
    {
      assert visits[..i + 1][..i] == visits[..i];
      tally := OnDocument(env, tally, visits[i]);
      i := i + 1;
    }
    assert visits[..i] == visits;
  }

  /**
   * `on_tick`: the total-count query, then the cursor's users in creation
   * order, each with its own clock reading, and the error the cursor failed
   * with, if it did. The cursor starts only once the count resolves; a
   * rejected count is caught by nothing, so no user is mailed and no summary
   * is sent. Otherwise both cursor paths send the summary, the failure path
   * with the error paragraph. The count itself only reaches log lines.
   */
  method OnTick(env: Env, count: Result<nat, string>, visits: seq<Visit>, cursor_error: Option<string>)
    returns (tally: Tally, html: Option<string>)
    ensures count.Failure? ==> tally == Tally(0, 0, 0, []) && html.None?
    ensures count.Success? ==> tally == Run(env, visits)
    ensures count.Success? ==>
      html == Some(SummaryHtml(tally.summary, tally.success_count, tally.error_count, cursor_error))
  {
    if count.Failure? {
      return Tally(0, 0, 0, []), None;
    }
    tally := MailDueUsers(env, visits);
    var body := PopulateEmail(tally.summary, tally.success_count, tally.error_count, cursor_error);
    html := Some(body);
  }

}
