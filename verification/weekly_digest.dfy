/**
 * The weekly-digest batch job of worker/cron-jobs/weekly-digest/weekly-digest.js:
 * the day-of-week partition of the user cursor, the digest payload built
 * from the fan-out of queries, the Mandrill merge variables with their
 * per-bucket caps, the per-user outcome and the counters of `on_tick`, and
 * the summary e-mail. Query results, the Mandrill transport's answer, the
 * day of the week and the formatted clock are inputs.
 */
module WeeklyDigest {
  import opened Wrappers
  import opened Js
  import opened SummaryMail
  import opened NotificationRender
  import opened DigestNormalize
  import opened DigestAggregate
  import opened DigestCache

  const JobName: string := "ww-weekly-digest"
  const SenderEmail: string := "info@wheelwell.com"
  const DigestTag: string := "Weekly-Digest"
  const TemplateSlug: string := "weekly-digest-email-1"
  const TemplateName: string := "Weekly Digest Email"
  const PostActivityCap: nat := 8
  const PartAddCap: nat := 29
  const PhotoAddCap: nat := 19
  const NewFollowerCap: nat := 19
  /** The day on which the run cache is cleared, Wednesday. */
  const LastDay: int := 3

  /** `s.slice(0, n)`: the first `n` elements, or all of them when there are fewer. */
  function Take<T>(s: seq<T>, n: nat): (r: seq<T>)
    ensures |r| == if |s| <= n then |s| else n
    ensures r == s[..|r|]
  {
    if |s| <= n then s else s[..n]
  }

  // ---------------------------------------------------------------- the day partition

  /** A slice of the user cursor; a `limit` of 0 means no cap. */
  datatype Window = Window(skip: nat, limit: nat)

  /** `SKIP_MAP` and `LIMIT_MAP`: Monday, Tuesday and Wednesday each take a slice, other days none. */
  function DayWindow(day: int): (w: Option<Window>)
    ensures w.Some? <==> 1 <= day <= 3
    ensures w.Some? ==> w.value.skip == 25000 * (day - 1)
    ensures w.Some? ==> (w.value.limit == 0 <==> day == LastDay)
  {
    if day == 1 then Some(Window(0, 25000))
    else if day == 2 then Some(Window(25000, 25000))
    else if day == 3 then Some(Window(50000, 0))
    else None
  }

  /** Whether the user at position `x` of the cursor falls in the window. */
  predicate Covers(w: Window, x: nat) {
    w.skip <= x && (w.limit == 0 || x < w.skip + w.limit)
  }

  /** The three windows are contiguous and disjoint: every user position falls in exactly one day. */
  lemma WindowsPartition(x: nat)
    ensures exists day :: 1 <= day <= 3 && Covers(DayWindow(day).value, x)
    ensures forall d1, d2 :: 1 <= d1 <= 3 && 1 <= d2 <= 3 && Covers(DayWindow(d1).value, x) && Covers(DayWindow(d2).value, x) ==> d1 == d2
  {
    if x < 25000 {
      assert Covers(DayWindow(1).value, x);
    } else if x < 50000 {
      assert Covers(DayWindow(2).value, x);
    } else {
      assert Covers(DayWindow(3).value, x);
    }
  }

  // ---------------------------------------------------------------- the payload

  /**
   * What the fan-out of queries for one user resolves with. A count is
   * `None` when the query gave nothing; `user` is the normalized user or
   * `null`; `start_date` and `end_date` are already formatted.
   */
  datatype FanOut = FanOut(
    follow_count_last_week: Option<nat>,
    vehicle_like_count_last_week: Option<nat>,
    vehicle_like_count_total: Option<nat>,
    post_like_count_last_week: Option<nat>,
    post_like_count_total: Option<nat>,
    site_posts: seq<PostData>,
    follower_activity: Summary,
    my_last_post: seq<PostData>,
    my_parts_added: seq<PartData>,
    my_photos_added: seq<PhotoData>,
    my_new_followers: seq<NormalizedUser>,
    user: Option<NormalizedUser>,
    recent_photos: seq<PhotoData>,
    editorial_content: seq<PostData>,
    start_date: string,
    end_date: string)

  /** The digest data of one user; `user_info` is `None` where the source puts 0. */
  datatype Payload = Payload(
    user_info: Option<NormalizedUser>,
    user_follow_count_last_week: nat,
    user_follow_count_total: Option<int>,
    like_count_last_week: nat,
    like_count_total: nat,
    follower_activity: Summary,
    my_last_post: seq<PostData>,
    my_parts_added: seq<PartData>,
    my_photos_added: seq<PhotoData>,
    my_new_followers: seq<NormalizedUser>,
    recent_posts: seq<PostData>,
    recent_photos: seq<PhotoData>,
    recent_editorial_content: seq<PostData>,
    start_date: string,
    end_date: string)

  /** `count || 0` */
  function OrZero(c: Option<nat>): (n: nat)
    ensures c.None? ==> n == 0
    ensures c.Some? ==> n == c.value
  {
    if c.Some? then c.value else 0
  }

  /** The bucket of an action, when the summary is a dictionary holding it. */
  function BucketFor(s: Summary, k: string): Option<Bucket> {
    if s.Buckets? && k in s.buckets then Some(s.buckets[k]) else None
  }

  /** The posts among the activities, in order. */
  function PostsIn(acts: seq<Activity>): (posts: seq<PostData>)
    ensures |posts| <= |acts|
    ensures forall p :: p in posts <==> PostActivity(p) in acts
  {
    if acts == [] then []
    else if acts[0].PostActivity? then [acts[0].post] + PostsIn(acts[1..])
    else PostsIn(acts[1..])
  }

  /**
   * `recent_posts`: with a POST bucket, its first eight follower posts
   * consolidated with the site's recent posts; otherwise the site's list.
   */
  function RecentPosts(activity: Summary, site: seq<PostData>): (r: seq<PostData>)
    ensures BucketFor(activity, "POST").None? ==> r == site
    ensures BucketFor(activity, "POST").Some? ==> |r| <= ConsolidateCap
    ensures forall p :: p in r ==> p in site || PostActivity(p) in Take(BucketFor(activity, "POST").value.activities, PostActivityCap)
    ensures BucketFor(activity, "POST").Some? ==>
      r == ConsolidatePosts(PostsIn(Take(BucketFor(activity, "POST").value.activities, PostActivityCap)), site)
  {
    var b := BucketFor(activity, "POST");
    if b.Some? then ConsolidatePosts(PostsIn(Take(b.value.activities, PostActivityCap)), site) else site
  }

  /**
   * With a POST bucket, the recent posts have distinct titles, each the first
   * of its title among the follower posts followed by the site's; below the
   * cap every title is represented, and the follower posts come first.
   */
  lemma RecentPostsShape(activity: Summary, site: seq<PostData>)
    requires BucketFor(activity, "POST").Some?
    ensures var r := RecentPosts(activity, site);
      var follower := PostsIn(Take(BucketFor(activity, "POST").value.activities, PostActivityCap));
      && (forall i, j :: 0 <= i < j < |r| ==> r[i].title != r[j].title)
      && FirstOccurrences(follower + site, r, PostTitle)
      && (|r| < ConsolidateCap ==> CoversKeys(follower + site, r, PostTitle, {}))
      && (forall i :: 0 <= i < |r| && i < |FirstOfEach(follower, PostTitle)| ==> r[i] == FirstOfEach(follower, PostTitle)[i])
  {
    var follower := PostsIn(Take(BucketFor(activity, "POST").value.activities, PostActivityCap));
    ConsolidateShape(follower, site);
    ConsolidateFollowerFirst(follower, site);
  }

  /** When the batch has no plain POST notification, the POST bucket holds only posts, so none is lost to `PostsIn`. */
  lemma PostBucketHoldsPosts(ns: seq<Rendered>)
    requires AllHaveActors(ns) && ns != []
    requires forall i :: 0 <= i < |ns| ==> ns[i].action != "POST"
    ensures BucketFor(Summarize(ns), "POST").Some? ==>
              forall a :: a in BucketFor(Summarize(ns), "POST").value.activities ==> a.PostActivity?
  {
    SummarizeShape(ns);
    NoPlainPostItems(ns);
  }

  lemma {:induction false} NoPlainPostItems(ns: seq<Rendered>)
    requires AllHaveActors(ns)
    requires forall i :: 0 <= i < |ns| ==> ns[i].action != "POST"
    ensures ItemsOf(ns, "POST") == []
    decreases |ns|
  {
    if ns != [] {
      assert ns[0].action != "POST";
      NoPlainPostItems(ns[1..]);
    }
  }

  /** `weeklyDigestEmailData`'s final step: the payload built from the fan-out results. */
  function DigestPayload(f: FanOut): (p: Payload)
    ensures p.user_info == f.user
    ensures p.user_follow_count_total == (if f.user.Some? then f.user.value.follower_count else Some(0))
    ensures p.like_count_last_week == OrZero(f.vehicle_like_count_last_week) + OrZero(f.post_like_count_last_week)
    ensures p.like_count_total == OrZero(f.vehicle_like_count_total) + OrZero(f.post_like_count_total)
    ensures p.user_follow_count_last_week == OrZero(f.follow_count_last_week)
    ensures |p.my_new_followers| == if |f.my_new_followers| <= NewFollowerCap then |f.my_new_followers| else NewFollowerCap
    ensures p.my_new_followers == f.my_new_followers[..|p.my_new_followers|]
    ensures p.recent_posts == RecentPosts(f.follower_activity, f.site_posts)
  {
    Payload(
      f.user,
      OrZero(f.follow_count_last_week),
      if f.user.Some? then f.user.value.follower_count else Some(0),
      OrZero(f.vehicle_like_count_last_week) + OrZero(f.post_like_count_last_week),
      OrZero(f.vehicle_like_count_total) + OrZero(f.post_like_count_total),
      f.follower_activity, f.my_last_post, f.my_parts_added, f.my_photos_added,
      Take(f.my_new_followers, NewFollowerCap),
      RecentPosts(f.follower_activity, f.site_posts),
      f.recent_photos, f.editorial_content, f.start_date, f.end_date)
  }

  // ---------------------------------------------------------------- the Mandrill message

  /** The global merge variables of the digest template. */
  datatype MergeVars = MergeVars(
    user_info: Option<NormalizedUser>,
    display_summary: nat,
    user_follow_count_last_week: nat,
    user_follow_count_total: Option<int>,
    like_count_last_week: nat,
    like_count_total: nat,
    recent_posts: seq<PostData>,
    recent_editorial_content: seq<PostData>,
    follower_part_add_count: nat,
    follower_part_adds: seq<Activity>,
    follower_photo_add_count: nat,
    follower_photo_adds: seq<Activity>,
    recent_photos: seq<PhotoData>,
    follower_vehicle_add_count: nat,
    follower_vehicle_adds: seq<Activity>,
    my_last_post: seq<PostData>,
    my_parts_added: seq<PartData>,
    my_photos_added: seq<PhotoData>,
    my_new_followers: seq<NormalizedUser>,
    start_date: string,
    end_date: string)

  /** A bucket's count, 0 when the bucket is absent. */
  function BucketCount(s: Summary, k: string): (n: nat)
    ensures BucketFor(s, k).None? ==> n == 0
    ensures BucketFor(s, k).Some? ==> n == BucketFor(s, k).value.count
  {
    if BucketFor(s, k).Some? then BucketFor(s, k).value.count else 0
  }

  /** A bucket's first `cap` activities (all of them without a cap), none when the bucket is absent. */
  function BucketActivities(s: Summary, k: string, cap: Option<nat>): (acts: seq<Activity>)
    ensures BucketFor(s, k).None? ==> acts == []
    ensures cap.Some? ==> |acts| <= cap.value
    ensures BucketFor(s, k).Some? ==> acts <= BucketFor(s, k).value.activities
    ensures BucketFor(s, k).Some? && cap.Some? ==>
      |acts| == if |BucketFor(s, k).value.activities| <= cap.value then |BucketFor(s, k).value.activities| else cap.value
    ensures BucketFor(s, k).Some? && cap.None? ==> acts == BucketFor(s, k).value.activities
  {
    var b := BucketFor(s, k);
    if b.None? then [] else if cap.Some? then Take(b.value.activities, cap.value) else b.value.activities
  }

  /** `follow && like` on two numbers: 0 when there was no new follower, the like count otherwise. */
  function DisplaySummary(follow: nat, like: nat): (d: nat)
    ensures d == 0 <==> follow == 0 || like == 0
    ensures d != 0 ==> d == like
  {
    if follow == 0 then follow else like
  }

  /** The merge variables of `sendMandrillWeeklyDigestEmail`. */
  function MergeVarsOf(p: Payload): (v: MergeVars)
    ensures v.follower_part_add_count == BucketCount(p.follower_activity, "PART_ADD")
    ensures v.follower_photo_add_count == BucketCount(p.follower_activity, "PHOTO_POST")
    ensures v.follower_vehicle_add_count == BucketCount(p.follower_activity, "VEHICLE_ADD")
    ensures v.follower_part_adds == BucketActivities(p.follower_activity, "PART_ADD", Some(PartAddCap))
    ensures v.follower_photo_adds == BucketActivities(p.follower_activity, "PHOTO_POST", Some(PhotoAddCap))
    ensures v.follower_vehicle_adds == BucketActivities(p.follower_activity, "VEHICLE_ADD", None)
    ensures v.display_summary == 0 <==> p.user_follow_count_last_week == 0 || p.like_count_last_week == 0
  {
    var a := p.follower_activity;
    MergeVars(
      p.user_info,
      DisplaySummary(p.user_follow_count_last_week, p.like_count_last_week),
      p.user_follow_count_last_week, p.user_follow_count_total,
      p.like_count_last_week, p.like_count_total,
      p.recent_posts, p.recent_editorial_content,
      BucketCount(a, "PART_ADD"), BucketActivities(a, "PART_ADD", Some(PartAddCap)),
      BucketCount(a, "PHOTO_POST"), BucketActivities(a, "PHOTO_POST", Some(PhotoAddCap)),
      p.recent_photos,
      BucketCount(a, "VEHICLE_ADD"), BucketActivities(a, "VEHICLE_ADD", None),
      p.my_last_post, p.my_parts_added, p.my_photos_added, p.my_new_followers,
      p.start_date, p.end_date)
  }

  /** When the week had no follower activity at all, every activity variable is empty. */
  lemma EmptyWeekMergeVars(p: Payload)
    requires p.follower_activity == EmptyList
    ensures var v := MergeVarsOf(p);
      v.follower_part_add_count == 0 && v.follower_photo_add_count == 0 && v.follower_vehicle_add_count == 0
      && v.follower_part_adds == [] && v.follower_photo_adds == [] && v.follower_vehicle_adds == []
  {
  }

  /** The template call: sender, recipient, optional subject and send time, fixed tags and template. */
  datatype DigestMessage = DigestMessage(
    from_email: string,
    to_email: string,
    to_name: string,
    subject: Option<string>,
    tags: seq<string>,
    ga_campaign: string,
    template_slug: string,
    template_name: string,
    send_at: Option<string>,
    merge_vars: MergeVars)

  function DigestMessageOf(p: Payload, to_email: string, to_name: string, subject: Option<string>, send_at: Option<string>): (m: DigestMessage)
    ensures m.subject.Some? <==> Truthy(subject)
    ensures m.subject.Some? ==> m.subject == subject
    ensures m.send_at.Some? <==> Truthy(send_at)
    ensures m.send_at.Some? ==> m.send_at == send_at
    ensures m.tags == [DigestTag] && m.ga_campaign == DigestTag
    ensures m.template_slug == TemplateSlug && m.template_name == TemplateName
    ensures m.to_email == to_email && m.merge_vars == MergeVarsOf(p)
  {
    DigestMessage(SenderEmail, to_email, to_name, if Truthy(subject) then subject else None,
                  [DigestTag], DigestTag, TemplateSlug, TemplateName,
                  if Truthy(send_at) then send_at else None, MergeVarsOf(p))
  }

  // ---------------------------------------------------------------- one user

  /**
   * What `sendWeeklyDigestEmail` resolves or rejects with: the merge
   * variables after a delivery, the EMAIL_ERROR object after a transport
   * error, the NO_EMAIL object, or a rejection of the data fetch.
   */
  datatype UserResult = Delivered(vars: MergeVars) | EmailError | NoEmail | Rejected(error: string)

  /** The user can be mailed: there is a user and it has an e-mail address. */
  predicate HasEmail(p: Payload) {
    p.user_info.Some? && Truthy(p.user_info.value.email)
  }

  /** `sendWeeklyDigestEmail`: no subject and no send time; the transport's answer is an input. */
  function SendWeeklyDigestEmail(data: Result<FanOut, string>, delivered: bool): (r: UserResult)
    ensures data.Failure? <==> r.Rejected?
    ensures r.NoEmail? <==> data.Success? && !HasEmail(DigestPayload(data.value))
    ensures r.Delivered? ==> r.vars == MergeVarsOf(DigestPayload(data.value))
    ensures data.Success? && HasEmail(DigestPayload(data.value)) ==> (r.Delivered? <==> delivered)
  {
    if data.Failure? then Rejected(data.error)
    else
      var p := DigestPayload(data.value);
      if !HasEmail(p) then NoEmail
      else
        var msg := DigestMessageOf(p, p.user_info.value.email.value, p.user_info.value.name, None, None);
        if delivered then Delivered(msg.merge_vars) else EmailError
  }

  /**
   * The `.then` handler of `on_tick`: NO_EMAIL increments the undeclared
   * `error_count`, which throws a ReferenceError in strict mode; any other
   * resolved value counts as sent. A rejection skips the handler.
   */
  function OnResult(r: UserResult): (handled: Result<bool, string>)
    ensures handled.Success? <==> r.Delivered? || r.EmailError?
  {
    if r.Rejected? then Failure(r.error)
    else if r.NoEmail? then Failure("ReferenceError: error_count is not defined")
    else Success(true)
  }

  /** Whether the user ends in `count_sent` (otherwise `.catch` puts it in `count_error`). */
  predicate CountedAsSent(r: UserResult) {
    OnResult(r).Success?
  }

  /** A transport error still counts as sent; a user without e-mail counts as an error. */
  lemma OutcomeClasses(f: FanOut)
    ensures HasEmail(DigestPayload(f)) ==> CountedAsSent(SendWeeklyDigestEmail(Success(f), false))
    ensures !HasEmail(DigestPayload(f)) ==> !CountedAsSent(SendWeeklyDigestEmail(Success(f), true))
  {
  }

  function SentCount(rs: seq<UserResult>): (n: nat)
    ensures n <= |rs|
  {
    if rs == [] then 0 else SentCount(rs[..|rs| - 1]) + (if CountedAsSent(rs[|rs| - 1]) then 1 else 0)
  }

  // ---------------------------------------------------------------- the run

  /** The counters and summary e-mail of one run. */
  datatype Report = Report(current_count: nat, count_sent: nat, count_error: nat, total_count_so_far: nat, html: string)

  /** The stats block of the summary e-mail. */
  function StatsHtml(job: string, total: nat, current: nat, sent: nat, errors: nat, time: string): string {
    "\n        <h3>Wheelwell Task Update: " + job + "</h3>\n"
    + "        <p>Hey there! Finished sending weekly digest emails for today at " + time + ". Here's the summary stats so far:</p>\n"
    + "        <ul>\n"
    + "            <li>Current Count: " + NatToString(current) + "</li>\n"
    + "            <li>Sent Count: " + NatToString(sent) + "</li>\n"
    + "            <li>Total Sent WTD So Far: " + NatToString(total) + "</li>\n"
    + "            <li>Error Count: " + NatToString(errors) + "</li>\n"
    + "        </ul>\n    "
  }

  /**
   * `populateEmail`: the stats block, followed by the error paragraph
   * exactly when there is an error, which then ends the e-mail.
   */
  function PopulateEmail(stats: string, error: Option<string>): (html: string)
    ensures stats <= html
    ensures |html| > |stats| <==> Truthy(error)
    ensures Truthy(error) ==> |error.value + "</p>"| <= |html| && error.value + "</p>" == html[|html| - |error.value + "</p>"|..]
  {
    stats + ErrorParagraph(error)
  }

  /** The cursor loop: every user increments the current count and exactly one of the sent and error counts. */
  method CountResults(results: seq<UserResult>) returns (current_count: nat, count_sent: nat, count_error: nat)
    ensures current_count == |results|
    ensures count_sent == SentCount(results)
    ensures count_sent + count_error == current_count
  {
    current_count, count_sent, count_error := 0, 0, 0;
    while current_count < |results|
      invariant 0 <= current_count <= |results|
      invariant count_sent == SentCount(results[..current_count])
      invariant count_sent + count_error == current_count
    {
      var r := results[current_count];
      assert results[..current_count + 1][..current_count] == results[..current_count];
      current_count := current_count + 1;
      var handled := OnResult(r);
      if handled.Success? {
        count_sent := count_sent + 1;
      } else {
        count_error := count_error + 1;
      }
    }
    assert results[..current_count] == results;
  }

  /**
   * `on_tick` for the day of the week `day`: `results` are the outcomes of
   * the users the cursor yielded, in order, and `cursor_error` the error the
   * cursor failed with, if it did. On a day outside the partition nothing
   * happens. Otherwise each user increments exactly one counter, and on
   * Wednesday the run cache is emptied whichever way the cursor ends.
   */
  method OnTick(day: int, results: seq<UserResult>, cursor_error: Option<string>, time: string, cache: DataCache)
    returns (report: Option<Report>)
    modifies cache
    ensures DayWindow(day).None? ==> report.None?
    ensures DayWindow(day).Some? ==> report.Some?
    ensures report.Some? ==> var r := report.value;
      && r.current_count == |results|
      && r.count_sent == SentCount(results)
      && r.count_sent + r.count_error == r.current_count
      && r.total_count_so_far == DayWindow(day).value.skip + r.count_sent
      && r.html == PopulateEmail(StatsHtml(JobName, r.total_count_so_far, r.current_count, r.count_sent, r.count_error, time), cursor_error)
    ensures day == LastDay ==> cache.Empty()
    ensures day != LastDay ==> unchanged(cache)
  {
    var window := DayWindow(day);
    if window.None? {
      return None;
    }
    var current_count, count_sent, count_error := CountResults(results);
    var total_count_so_far := window.value.skip + count_sent;
    var html := PopulateEmail(StatsHtml(JobName, total_count_so_far, current_count, count_sent, count_error, time), cursor_error);
    if day == LastDay {
      cache.Clear();
    }
    report := Some(Report(current_count, count_sent, count_error, total_count_so_far, html));
  }
}
