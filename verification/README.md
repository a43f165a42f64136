# wheelwell worker, modelled in Dafny

The wheelwell worker is a set of cron jobs for a car-enthusiast social site.
This project models the logic that decides what those jobs render, who they
mail and how they count the outcomes:

- the weekly digest: the day-of-week partition of the user cursor, the
  per-user outcome and counters, the payload and the Mandrill merge
  variables built from the fan-out of queries, the summary e-mail;
- the digest's notification pipeline: actor de-duplication, the
  `generateNotificationDetails` decision table (texts, URLs, photo
  fallbacks, mail flags, tags, copy-test subjects, the comment excerpt), the
  aggregation of rendered notifications into `{count, activities}` buckets,
  the normalizers of posts, parts, photos, users and followers,
  `consolidatePosts`, and the run cache;
- the welcome drip with its day-to-campaign table, the light-user drip and
  the abandoned-users job: the cursor loop, its counters and summary
  structures, and the summary e-mail;
- the shared Mandrill message builder and its validation;
- the job registry of `worker/index.js`, a class over a name-keyed map;
- the auto-engagement helpers: `createConnection`, `getRandomVehicles` and
  the dead-user filter with its cache;
- the URL getters of the Image and StockVehicle models.

The database, the mail and HTTP transports, randomness and the clock are
inputs. A query result is a sequence or a `Result`. A transport answer is an
outcome value. A random draw is a `nat`. The day of the week, day offsets
and formatted dates are plain values. A cursor is the sequence of documents
it yields, paired with each document's outcome. The drip jobs read the clock again for every document, inside the cursor callback, so each cursor document also carries its own clock reading (`Visit.read_at`); a long run can see a user's age change mid-cursor. JavaScript's `undefined` is
an `Option` that prints as `"undefined"` (`Js.Show`), and falsiness is
`Js.Truthy`.

Code that updates state step by step is modelled as methods with loops or
as classes. This covers the cursor loops, the actor de-duplication, the
aggregation reduce, the excerpt loop, the run cache, the job registry and
the dead-user cache. Each such method is proved equal to a reference
function, and the properties are proved about that function. Pure code is
modelled as functions and lemmas.

One module per source file: `WeeklyDigest`, `ActorDedup`,
`NotificationResolve`, `NotificationRender`, `CommentExcerpt`,
`DigestNormalize`, `DigestAggregate`, `DigestCache`, `Mandrill`,
`WelcomeDripData`, `WelcomeDrip`, `LightUserDrip`, `AbandonedUsers`,
`WorkerRegistry`, `AutoEngagement`, `ImageModel` and `StockVehicleModel`.
The weekly-digest utility file is split over the six digest modules.
Shared modules: `Wrappers` (Option and Result), `Js` (the JavaScript value
semantics used), `UserData` and `NotificationData` (document shapes), and
`SummaryMail` (the error paragraph that every summary e-mail ends with).

## Model

| member | source | states |
|---|---|---|
| Js.Show | worker/cron-jobs/weekly-digest/weekly-digest-utility.js:810-811 | a present string prints as itself, a missing one as "undefined" |
| Js.Or | worker/cron-jobs/weekly-digest/weekly-digest-utility.js:840 | the first operand when it is truthy, else the second |
| Js.NatToString | worker/cron-jobs/weekly-digest/weekly-digest.js:449-452 | a count prints as its decimal numeral: a non-empty digit string without a leading zero whose value is the count, one digit exactly below ten |
| Js.TrimStart | worker/cron-jobs/weekly-digest/weekly-digest-utility.js:782 | leading white space is removed: the result is a suffix that does not start with white space |
| Js.TrimEnd | worker/cron-jobs/weekly-digest/weekly-digest-utility.js:782 | trailing white space is removed: the result is a prefix that does not end with white space |
| Js.TrimStartEmpty | worker/cron-jobs/weekly-digest/weekly-digest-utility.js:782 | trimming the front leaves nothing exactly when every character is white space |
| Js.TrimEndEmpty | worker/cron-jobs/weekly-digest/weekly-digest-utility.js:782 | trimming the back leaves nothing exactly when every character is white space |
| Js.TrimEmpty | worker/cron-jobs/weekly-digest/weekly-digest-utility.js:782 | a string is blank after trimming exactly when every character is white space |
| Js.Unescape | worker/cron-jobs/weekly-digest/weekly-digest-utility.js:786 | unescaping never lengthens a string |
| Js.UnescapePlain | worker/cron-jobs/weekly-digest/weekly-digest-utility.js:791 | a string without an ampersand is left unchanged by unescaping |
| Js.WordEnd | worker/cron-jobs/weekly-digest/weekly-digest-utility.js:786 | the first white space at or after a position, or the end |
| Js.LineEnd | worker/cron-jobs/weekly-digest/weekly-digest-utility.js:786 | the first line terminator at or after a position, or the end |
| Js.TruncateAtWord | worker/cron-jobs/weekly-digest/weekly-digest-utility.js:786 | when the first n characters hold no line terminator, the result keeps the text up to the first white space at or after n, drops the rest of that line and keeps the following lines; otherwise the text is unchanged; never longer |
| Js.TruncateSingleLine | worker/cron-jobs/weekly-digest/weekly-digest-utility.js:791 | on a single-line text the truncation keeps exactly the text up to the end of the word at position n |
| SummaryMail.ErrorParagraph | worker/cron-jobs/weekly-digest/weekly-digest.js:456-458 | the error paragraph that closes every summary e-mail (also at abandoned-users.js:107-109 and in the two drips) is non-empty exactly when the error is truthy |
| ImageModel.KeyUrl | server/db/image/model.js:194-207 | a virtual's URL is exactly the CloudFront prefix followed by the stored key |
| ImageModel.UrlKey | server/db/image/model.js:194-207 | partner of `KeyUrl`: a URL yields a key exactly when it carries the CloudFront prefix |
| ImageModel.Large | server/db/image/model.js:194-197 | `large` recovers `large_key` through `UrlKey` |
| ImageModel.Medium | server/db/image/model.js:199-202 | `medium` recovers `medium_key` through `UrlKey` |
| ImageModel.Thumb | server/db/image/model.js:204-207 | `thumb` recovers `thumb_key` through `UrlKey` |
| ImageModel.ThumbInjective | server/db/image/model.js:204-207 | two images share a thumbnail URL if and only if they share a thumbnail key |
| ImageModel.ToObject | server/db/image/model.js:209-215 | `toObject` keeps the keys and adds the three virtuals, each decoding back to its key |
| StockVehicleModel.StockUrl | server/db/stock-vehicle/model.js:105-127 | a getter yields null exactly when the key is falsy, else the S3 prefix followed by the key |
| StockVehicleModel.DefaultLarge | server/db/stock-vehicle/model.js:105-111 | `default_image.large` is null if and only if `large_key` is falsy, and otherwise ends in the key |
| StockVehicleModel.DefaultMedium | server/db/stock-vehicle/model.js:113-119 | the same for `medium` |
| StockVehicleModel.DefaultThumb | server/db/stock-vehicle/model.js:121-127 | the same for `thumb` |
| StockVehicleModel.DefaultImageToObject | server/db/stock-vehicle/model.js:105-135 | `toObject` keeps the keys; each virtual is present if and only if its key is truthy, and is then the S3 prefix followed by that key |
| Mandrill.SiteUrl | worker/common/mandrill-utility/mandrill-utility.js:20 | the base URL is the www site in production and the staging site otherwise |
| Mandrill.InfoEmail | worker/common/mandrill-utility/mandrill-utility.js:39 | the e-mail is the local username when truthy, else the Facebook e-mail when there is a Facebook sub-document, else `''` |
| Mandrill.PopulateUserInfo | worker/common/mandrill-utility/mandrill-utility.js:32-48 | a missing user gives `{}`; otherwise the account and profile URLs are built on the site URL, `alias_name` is the alias when it is truthy and `''` otherwise, the e-mail follows the username-then-Facebook fallback, and the first, last, full and profile names and the mod score are copied |
| Mandrill.BuildTemplate | worker/common/mandrill-utility/mandrill-utility.js:55-107 | a falsy `to` rejects with "No email" before a falsy slug rejects with "Missing Template Slug"; otherwise the template carries the recipient and slug, the subject and `send_at` only when truthy, tags and merge variables defaulting to `[]`, and the campaign defaulting to `transactional-email` |
| Mandrill.SendMandrillEmail | worker/common/mandrill-utility/mandrill-utility.js:55-117 | the promise rejects exactly when validation fails, with that reason; it resolves with the `EMAIL_ERROR` object exactly when a valid send meets a transport error |
| Mandrill.TransportNeverRejects | worker/common/mandrill-utility/mandrill-utility.js:109-116 | with a recipient and a slug, no transport answer makes the send reject |
| WelcomeDripData.CampaignFor | worker/cron-jobs/welcome-drip/data/welcome-drip-data.js:5-38 | an entry exists exactly for days 3, 8, 12 and 17; its `day` is the key, its analytics campaign is its slug, and its tags are its slug and `welcome-drip-campaign` |
| WelcomeDripData.NamesFollowDays | worker/cron-jobs/welcome-drip/data/welcome-drip-data.js:8-32 | the i-th sending day is named `welcome_drip_{i+2}` |
| WelcomeDripData.SlugsDistinct | worker/cron-jobs/welcome-drip/data/welcome-drip-data.js:10-34 | different days send different templates |
| WelcomeDrip.DaysSince | worker/cron-jobs/welcome-drip/welcome-drip.js:87-89 | the day count is the floor of the elapsed milliseconds over a day: `days` whole days fit and `days + 1` do not |
| WelcomeDrip.Recipient | worker/cron-jobs/welcome-drip/welcome-drip.js:103 | the recipient is truthy exactly when the username or the Facebook e-mail is, and is the username when that is truthy |
| WelcomeDrip.DripEmailTemplate | worker/cron-jobs/welcome-drip/welcome-drip.js:101-116 | the drip e-mail is rejected, with "No email", exactly when there is no recipient; otherwise it carries the campaign's slug, tags and analytics campaign |
| WelcomeDrip.Push | worker/cron-jobs/welcome-drip/welcome-drip.js:124-129 | one more name in total; a new slug is appended to the key order, a known one keeps it; the slug's list gains the name at its end and the other lists are unchanged |
| WelcomeDrip.PushKeepsDistinct | worker/cron-jobs/welcome-drip/welcome-drip.js:125-129 | pushing keeps the summary's keys distinct |
| WelcomeDrip.SlugsIndex | worker/cron-jobs/welcome-drip/welcome-drip.js:36 | the key list has one slug per group, in order |
| WelcomeDrip.Step | worker/cron-jobs/welcome-drip/welcome-drip.js:82-135 | every user increments `count`; a user due no campaign at the clock reading taken when the cursor reaches it changes nothing else |
| WelcomeDrip.Attempted | worker/cron-jobs/welcome-drip/welcome-drip.js:93 | at most one attempt per user of the cursor |
| WelcomeDrip.RunShape | worker/cron-jobs/welcome-drip/welcome-drip.js:82-135 | after the cursor, `count` is the number of users, successes plus errors is the number due a campaign, every success is one name in the summary, and the summary's keys are distinct slugs of the drip table |
| WelcomeDrip.NoRecipientIsError | worker/cron-jobs/welcome-drip/welcome-drip.js:103-134 | a due user without a recipient increments `error_count` and leaves the summary alone |
| WelcomeDrip.RenderSection | worker/cron-jobs/welcome-drip/welcome-drip.js:37-43 | the inner loop yields the template's section: its head, one item per name in order, and the closing tag |
| WelcomeDrip.ErrorParagraphOnlyOnError | worker/cron-jobs/welcome-drip/welcome-drip.js:33-53 | the e-mail with an error is longer than the plain summary exactly when the error is truthy |
| WelcomeDrip.PopulateEmail | worker/cron-jobs/welcome-drip/welcome-drip.js:33-53 | the loop builds the summary e-mail: header, one section per slug in key order, the error paragraph, the sign-off |
| WelcomeDrip.OnDocument | worker/cron-jobs/welcome-drip/welcome-drip.js:82-134 | the `eachAsync` callback's update of the counters and of `email_summary` for one user is the reference step `Step`: counted always; mailed only when a drip campaign is due; a rejection counts an error and a success pushes the profile name under the campaign's slug |
| WelcomeDrip.MailDueUsers | worker/cron-jobs/welcome-drip/welcome-drip.js:66-136 | the cursor loop's counters and summary are those of the reference fold `Run` |
| WelcomeDrip.OnTick | worker/cron-jobs/welcome-drip/welcome-drip.js:65-171 | the tally is `Run`; the summary e-mail goes out, without an error paragraph, exactly when the cursor completes; a failed cursor ends in the handler's ReferenceError |
| LightUserDrip.CandidateAge | worker/cron-jobs/light-user-drip/light-user-drip.js:62-76 | a user the query selects, and not created in the future, is between 0 and 15 whole days old, so day 14 lies inside the window |
| LightUserDrip.FollowUpTemplate | worker/cron-jobs/light-user-drip/light-user-drip.js:99-113 | the follow-up is rejected, with "No email", exactly when there is no recipient; otherwise it uses the fixed slug, the `light-user` tag and the `light-user-drip` campaign |
| LightUserDrip.Step | worker/cron-jobs/light-user-drip/light-user-drip.js:84-128 | every user increments `count`; a user not exactly 14 days old at the clock reading taken when the cursor reaches it changes nothing else |
| LightUserDrip.DueCount | worker/cron-jobs/light-user-drip/light-user-drip.js:95 | at most one attempt per user of the cursor |
| LightUserDrip.RunShape | worker/cron-jobs/light-user-drip/light-user-drip.js:84-128 | after the cursor, `count` is the number of users, successes plus errors is the number of 14-day-old users, and the summary holds one entry per success, each the profile name and mod score of a due user |
| LightUserDrip.ShowNumber | worker/cron-jobs/light-user-drip/light-user-drip.js:34 | a missing mod score prints as `undefined` |
| LightUserDrip.EntriesInOrder | worker/cron-jobs/light-user-drip/light-user-drip.js:33-35 | the list items follow summary order: the items of a prefix are a prefix of the items |
| LightUserDrip.PopulateEmail | worker/cron-jobs/light-user-drip/light-user-drip.js:30-46 | the loop builds the summary e-mail: header with both counts, one item per entry in order, the error paragraph, the sign-off |
| LightUserDrip.OnDocument | worker/cron-jobs/light-user-drip/light-user-drip.js:84-127 | the `eachAsync` callback's update of the counters and of `email_summary` for one user is the reference step `Step`: counted always; mailed only at exactly 14 days; a rejection counts an error and a success appends the profile name and mod score |
| LightUserDrip.MailDueUsers | worker/cron-jobs/light-user-drip/light-user-drip.js:61-128 | the cursor loop's counters and summary are those of the reference fold `Run` |
| LightUserDrip.OnTick | worker/cron-jobs/light-user-drip/light-user-drip.js:58-165 | a rejected total count starts no cursor, mails nobody and sends no summary; once it resolves the tally is `Run`, and the summary e-mail carries the run's counts and entries, with the error paragraph when the cursor failed |
| AbandonedUsers.SendAbandonedEmail | worker/cron-jobs/abandoned-users/abandoned-users.js:30-91 | a falsy address rejects with "No email", yet the request is still issued; with an address, the send resolves with the `EMAIL_ERROR` object exactly when the transport fails; it never rejects when there is an address |
| AbandonedUsers.AbandonedTemplate | worker/cron-jobs/abandoned-users/abandoned-users.js:33-81 | the template has the fixed slug and name, the `abandoned-users` tag and campaign, the given recipient, and no merge variables |
| AbandonedUsers.SameAsSharedSender | worker/cron-jobs/abandoned-users/abandoned-users.js:30-91 | for an address, the private sender builds exactly the template the shared `sendMandrillEmail` builds from the same fields |
| AbandonedUsers.Step | worker/cron-jobs/abandoned-users/abandoned-users.js:147-164 | every lead increments `count_so_far` and exactly one of the sent and error counts |
| AbandonedUsers.Mailable | worker/cron-jobs/abandoned-users/abandoned-users.js:153-156 | the addresses that can be mailed are all truthy |
| AbandonedUsers.RunShape | worker/cron-jobs/abandoned-users/abandoned-users.js:147-164 | after the cursor, `count_so_far` is the number of leads, sent plus errors equals it, and the sent list is exactly the leads' truthy addresses in cursor order, of length `count_sent` |
| AbandonedUsers.ItemsHtmlAppend | worker/cron-jobs/abandoned-users/abandoned-users.js:101-103 | each address adds exactly its own list item at the end |
| AbandonedUsers.PopulateEmail | worker/cron-jobs/abandoned-users/abandoned-users.js:94-114 | the loop builds the summary e-mail: the header with the three counts, one item per address in order, the error paragraph, the sign-off |
| AbandonedUsers.MailLeads | worker/cron-jobs/abandoned-users/abandoned-users.js:143-164 | the cursor loop's counters and list are those of the reference fold `Run` |
| AbandonedUsers.OnTick | worker/cron-jobs/abandoned-users/abandoned-users.js:125-200 | a rejected lead count starts no cursor, mails nobody and sends no summary; once it resolves with a count the tally is `Run`, and the summary e-mail reports that count, the run's counts and list, and the error when the cursor failed |
| WorkerRegistry.AddCheck | worker/index.js:33-43 | validation passes exactly when name, schedule and every optional field are present and the name is new; a missing optional field throws, since its fallback assigns to an undeclared name in strict mode; validation never reports success |
| WorkerRegistry.Without | worker/index.js:62 | the names left after a delete are exactly the others |
| WorkerRegistry.Worker.constructor | worker/index.js:18-20 | a new worker has no jobs, none running, and satisfies the registry invariant |
| WorkerRegistry.Worker.AddJob | worker/index.js:33-53 | adds exactly the new name, at the end of the iteration order, with a job built from the given fields, and starts it when `start` is true; on any validation outcome nothing changes; the registry invariant is kept |
| WorkerRegistry.Worker.RemoveJob | worker/index.js:60-69 | answers true exactly when the name was registered, deletes just that name, keeps the invariant, and leaves running jobs running |
| WorkerRegistry.Worker.RunJob | worker/index.js:75-84 | nothing on an empty registry; an error for a missing or unknown name; otherwise it starts exactly that job; the registry and its invariant are kept |
| WorkerRegistry.Worker.RunAllJobs | worker/index.js:90-99 | nothing on an empty registry; otherwise every registered job is started |
| WorkerRegistry.WithoutKeepsDistinct | worker/index.js:60-69 | removing a name keeps the iteration order free of duplicates |
| WorkerRegistry.WithoutAbsent | worker/index.js:65-68 | removing an unknown name leaves the order unchanged |
| AutoEngagement.ApiBase | worker/common/autoengagement-utility/autoengagement-utility.js:292 | production calls the public API host, every other environment the dev host |
| AutoEngagement.LowerChar | worker/common/autoengagement-utility/autoengagement-utility.js:276 | `toLowerCase` on one character: ASCII capitals move down by 32, the Kelvin sign becomes `k` |
| AutoEngagement.Lower | worker/common/autoengagement-utility/autoengagement-utility.js:276 | lower-casing keeps the length and maps every character on its own |
| AutoEngagement.CreateConnection | worker/common/autoengagement-utility/autoengagement-utility.js:269-317 | equal ids fail first (two missing ids included), then an unknown type, then a missing id; success exactly when none applies; a follow posts to `/v1/connections` with receiver and requestor, a like to `/v1/likes` with object and user, and `no_email` exactly for `like_silent` |
| AutoEngagement.TypeCaseInsensitive | worker/common/autoengagement-utility/autoengagement-utility.js:276-287 | the connection type is matched without regard to case: any spelling builds the same request as its lower-case form |
| AutoEngagement.LowerIdempotent | worker/common/autoengagement-utility/autoengagement-utility.js:287 | lower-casing twice is lower-casing once |
| AutoEngagement.ViewIncrement | worker/common/autoengagement-utility/autoengagement-utility.js:329 | the drawn view-count increment is between 1 and 3 |
| AutoEngagement.Keep | worker/common/autoengagement-utility/autoengagement-utility.js:234-236 | a match field is present exactly when its argument is truthy, and then holds that argument |
| AutoEngagement.RandomVehiclesQuery | worker/common/autoengagement-utility/autoengagement-utility.js:226-241 | a size that is not a non-zero number throws; otherwise the sample size is the size given and the match holds make, model and excluded poster exactly when they are truthy |
| AutoEngagement.MatchQueryMeaning | worker/common/autoengagement-utility/autoengagement-utility.js:233-236 | a requestor never samples a vehicle it posted; with no make, model or requestor every vehicle matches |
| AutoEngagement.Project | worker/common/autoengagement-utility/autoengagement-utility.js:243-254 | the projected vehicle keeps id, timestamp and poster, and its owner is the first listed owner when there is one |
| AutoEngagement.RandomVehicles | worker/common/autoengagement-utility/autoengagement-utility.js:226-259 | fails exactly when the arguments are rejected; otherwise returns one projected vehicle per sampled one, in order |
| AutoEngagement.WithImages | worker/common/autoengagement-utility/autoengagement-utility.js:122-137 | the kept users are exactly the queried users with some vehicle image, never more of them |
| AutoEngagement.DeadUserCache.constructor | worker/common/autoengagement-utility/autoengagement-utility.js:32-37 | in production the cache starts with the bundled list and its length, elsewhere empty with count 0 |
| AutoEngagement.DeadUserCache.UserHasImage | worker/common/autoengagement-utility/autoengagement-utility.js:124-136 | the per-user scan answers true exactly when some vehicle has a non-empty image list |
| AutoEngagement.DeadUserCache.GetDeadUsers | worker/common/autoengagement-utility/autoengagement-utility.js:95-163 | a non-zero count answers from the cache unchanged; a failed query rejects and changes nothing; otherwise the cache holds the users with images, the count their number, `lastUpdate` is set and `lastUpdated` is left as it was |
| AutoEngagement.FilterStep | worker/common/autoengagement-utility/autoengagement-utility.js:122-137 | the filter over one more user appends that user exactly when it has an image |
| AutoEngagement.EmptyRefreshRequeries | worker/common/autoengagement-utility/autoengagement-utility.js:139 | when no queried user has an image the count is left at 0, so the next call queries again |
| WeeklyDigest.DayWindow | worker/cron-jobs/weekly-digest/weekly-digest.js:476-495 | only Monday, Tuesday and Wednesday get a slice of the cursor; the skip is 25000 per earlier day and only Wednesday's slice has no limit |
| WeeklyDigest.WindowsPartition | worker/cron-jobs/weekly-digest/weekly-digest.js:476-486 | the three daily slices are contiguous and disjoint: every cursor position is mailed on exactly one day |
| WeeklyDigest.PostsIn | worker/cron-jobs/weekly-digest/weekly-digest.js:373 | the posts taken from a POST bucket are exactly its post activities, never more than the activities |
| WeeklyDigest.RecentPosts | worker/cron-jobs/weekly-digest/weekly-digest.js:373 | without a POST bucket the site's recent posts are used as they are; with one, exactly the consolidation of the posts among the bucket's first eight activities followed by the site's posts, so at most the consolidation cap, each from the site list or from those activities |
| WeeklyDigest.RecentPostsShape | worker/cron-jobs/weekly-digest/weekly-digest.js:373 | with a POST bucket the recent posts have pairwise distinct titles, each the first post of its title among the follower posts then the site's posts; below the cap every title is represented; the follower posts, one per title, come first in their own order |
| WeeklyDigest.PostBucketHoldsPosts | worker/cron-jobs/weekly-digest/weekly-digest.js:368-373 | when no notification of the batch is a plain POST, every activity of the POST bucket is a post, so none is dropped when the recent posts are built |
| WeeklyDigest.NoPlainPostItems | worker/cron-jobs/weekly-digest/weekly-digest.js:368-373 | a batch without plain POST notifications contributes no ordinary items to the POST bucket |
| WeeklyDigest.DigestPayload | worker/cron-jobs/weekly-digest/weekly-digest.js:359-393 | the payload keeps the user (absent when there is none), takes the follower total from the user or 0, adds vehicle and post likes with missing counts as 0, keeps exactly the first 19 new followers (all of them when there are fewer) and builds the recent posts from the follower activity |
| WeeklyDigest.BucketCount | worker/cron-jobs/weekly-digest/weekly-digest.js:99-100 | a present bucket gives its `count`, an absent one 0 |
| WeeklyDigest.BucketActivities | worker/cron-jobs/weekly-digest/weekly-digest.js:102-105 | an absent bucket gives no activities; a capped bucket gives exactly its first `cap` activities (all of them when there are fewer), an uncapped one all of them |
| WeeklyDigest.DisplaySummary | worker/cron-jobs/weekly-digest/weekly-digest.js:72 | the summary flag is 0 exactly when there were no new followers or no new likes, and otherwise the like count |
| WeeklyDigest.MergeVarsOf | worker/cron-jobs/weekly-digest/weekly-digest.js:65-150 | the merge variables carry each bucket's count, the first 29 activities of the PART_ADD bucket, the first 19 of the PHOTO_POST bucket, all of the VEHICLE_ADD bucket, and the summary flag |
| WeeklyDigest.EmptyWeekMergeVars | worker/cron-jobs/weekly-digest/weekly-digest.js:98-125 | a week with no follower activity gives zero counts and empty activity lists |
| WeeklyDigest.DigestMessageOf | worker/cron-jobs/weekly-digest/weekly-digest.js:39-173 | subject and send time are set exactly when truthy, and then to the given values; the tags and the campaign are Weekly-Digest; the template is weekly-digest-email-1; the merge variables are the payload's |
| WeeklyDigest.SendWeeklyDigestEmail | worker/cron-jobs/weekly-digest/weekly-digest.js:407-441 | a failed data fetch rejects; a user without an address resolves NO_EMAIL; otherwise the transport's answer decides between delivery, with the payload's merge variables, and EMAIL_ERROR |
| WeeklyDigest.OnResult | worker/cron-jobs/weekly-digest/weekly-digest.js:522-536 | the per-user handler succeeds exactly for a delivery or a transport error; NO_EMAIL throws on the undeclared counter and a rejection skips the handler |
| WeeklyDigest.OutcomeClasses | worker/cron-jobs/weekly-digest/weekly-digest.js:522-536 | a transport error still counts as sent, and a user without an address counts as an error even when the transport would deliver |
| WeeklyDigest.SentCount | worker/cron-jobs/weekly-digest/weekly-digest.js:529 | the number of users counted as sent never exceeds the number of users |
| WeeklyDigest.PopulateEmail | worker/cron-jobs/weekly-digest/weekly-digest.js:444-461 | the stats block always comes first; the e-mail is longer exactly when there is an error, and the error then ends it |
| WeeklyDigest.CountResults | worker/cron-jobs/weekly-digest/weekly-digest.js:514-537 | every user increments the current count, and exactly one of the sent and error counts; the sent count is the number of users counted as sent |
| WeeklyDigest.OnTick | worker/cron-jobs/weekly-digest/weekly-digest.js:473-579 | outside Monday to Wednesday nothing is sent; otherwise the counters are those of the per-user outcomes, the week-to-date total is the day's skip plus the sent count, the summary e-mail names the cursor error when there is one, and on Wednesday the run cache is emptied whichever way the cursor ends |
| NotificationData.BareProfile | worker/cron-jobs/weekly-digest/weekly-digest-utility.js:243-252 | an actor beyond the first two is a bare id on which every field reads as undefined |
| NotificationData.StubTarget | worker/cron-jobs/weekly-digest/weekly-digest-utility.js:266 | an Activity or V2_Thread target is a stub carrying only its id |
| ActorDedup.KeepLastShape | worker/cron-jobs/weekly-digest/weekly-digest-utility.js:207-219 | de-duplication keeps every actor, each exactly once, as a subsequence of the original entries |
| ActorDedup.KeepLastOfDistinct | worker/cron-jobs/weekly-digest/weekly-digest-utility.js:207-219 | a list whose actors are already distinct is left as it is |
| ActorDedup.KeepLastIdempotent | worker/cron-jobs/weekly-digest/weekly-digest-utility.js:207-219 | de-duplicating twice gives the same list as de-duplicating once |
| ActorDedup.KeepLastMembers | worker/cron-jobs/weekly-digest/weekly-digest-utility.js:207-219 | exactly the entries that are the last of their actor survive |
| ActorDedup.KeepLastEndsWithLast | worker/cron-jobs/weekly-digest/weekly-digest-utility.js:207-219 | the newest entry always survives de-duplication and stays last |
| ActorDedup.RemoveEarlierDuplicate | worker/cron-jobs/weekly-digest/weekly-digest-utility.js:211-214 | splicing out an entry whose actor reappears later does not change the de-duplicated list |
| ActorDedup.NearestEarlier | worker/cron-jobs/weekly-digest/weekly-digest-utility.js:210-216 | the inner scan finds the nearest earlier entry with the same actor, or reports that there is none |
| ActorDedup.SpliceNearest | worker/cron-jobs/weekly-digest/weekly-digest-utility.js:209-217 | one pass of the outer loop keeps the de-duplicated list and leaves every entry from the current index on without an earlier duplicate |
| ActorDedup.DedupActions | worker/cron-jobs/weekly-digest/weekly-digest-utility.js:209-217 | the nested loops compute the keep-the-last-entry-per-actor list: distinct actors, the same set of actors, never longer |
| ActorDedup.DedupNotificationActions | worker/cron-jobs/weekly-digest/weekly-digest-utility.js:207-219 | a notification without an actions list is passed through; otherwise its list is de-duplicated |
| ActorDedup.ExampleKeepsLastA | worker/cron-jobs/weekly-digest/weekly-digest-utility.js:207-219 | two entries of one actor around another actor keep only the later one, after the other actor |
| NotificationResolve.EffectiveLimit | worker/cron-jobs/weekly-digest/weekly-digest-utility.js:195 | a missing or zero limit becomes 99; any positive limit is kept |
| NotificationResolve.NotBuildGuide | worker/cron-jobs/weekly-digest/weekly-digest-utility.js:194 | the query keeps exactly the notifications whose target is not a BuildGuide |
| NotificationResolve.NotBuildGuideAppend | worker/cron-jobs/weekly-digest/weekly-digest-utility.js:194-197 | the BuildGuide filter keeps the store's order: filtering a concatenation concatenates the filtered parts |
| NotificationResolve.Query | worker/cron-jobs/weekly-digest/weekly-digest-utility.js:193-203 | the first `limit` (99 when it is 0) of the non-BuildGuide notifications in the store's order, or all of them when there are fewer |
| NotificationResolve.PopulateActors | worker/cron-jobs/weekly-digest/weekly-digest-utility.js:243-252 | every entry keeps its action id; the first two actors are looked up, and missing users become absent; the rest stay bare ids |
| NotificationResolve.SelectStockAsWritten | worker/cron-jobs/weekly-digest/weekly-digest-utility.js:273 | the stock vehicle is populated with its default thumb key only, never its medium or large key |
| NotificationResolve.SelectStock | worker/cron-jobs/weekly-digest/weekly-digest-utility.js:273 | corrected selection: the default medium key is loaded too, so the default medium URL is the stored one |
| NotificationResolve.WithStock | worker/cron-jobs/weekly-digest/weekly-digest-utility.js:268-278 | a looked-up target keeps its id and primary image and carries its stock vehicle exactly when it has one, reduced by the selection |
| NotificationResolve.ResolveTarget | worker/cron-jobs/weekly-digest/weekly-digest-utility.js:260-279 | no target without a target type, a stub for Activity and V2_Thread, otherwise the stored document |
| NotificationResolve.ResolveWith | worker/cron-jobs/weekly-digest/weekly-digest-utility.js:205-307 | a resolved notification has the looked-up owner, one action per de-duplicated entry with its action id (the first two actors looked up), the target resolved with the given stock selection, and the action object of the newest action, none without actions |
| NotificationResolve.Resolve | worker/cron-jobs/weekly-digest/weekly-digest-utility.js:268-273 | as written, the target is resolved with line 273's selection, so a populated stock vehicle never has a default medium image |
| NotificationResolve.ResolveCorrected | worker/cron-jobs/weekly-digest/weekly-digest-utility.js:268-273 | corrected resolution: the target is resolved with the selection that loads the medium key |
| NotificationResolve.ResolveAll | worker/cron-jobs/weekly-digest/weekly-digest-utility.js:207-307 | every queried notification is resolved as written, in query order |
| NotificationResolve.ResolvedNeverUntouched | worker/cron-jobs/weekly-digest/weekly-digest-utility.js:318-320 | a resolved notification is never passed through unrendered: one without a target type has no target and is dropped |
| NotificationResolve.OnlyTwoActorsPopulated | worker/cron-jobs/weekly-digest/weekly-digest-utility.js:243-252 | only the first two actors can carry a name or a photo |
| NotificationResolve.StockFallbackUnusedAsWritten | worker/cron-jobs/weekly-digest/weekly-digest-utility.js:489 | as written, a vehicle target without a primary image always shows the placeholder, whatever its stock vehicle holds |
| NotificationResolve.StockFallbackCounterexample | worker/cron-jobs/weekly-digest/weekly-digest-utility.js:271-273 | a concrete stock vehicle with a medium key shows the placeholder as written and its own medium photo once the key is selected |
| NotificationResolve.StockFallbackUsed | worker/cron-jobs/weekly-digest/weekly-digest-utility.js:489 | with the medium key selected (`ResolveCorrected`), a vehicle target without a primary image shows its stock vehicle's default medium photo whenever that key is set |
| NotificationResolve.FindNotifications | worker/cron-jobs/weekly-digest/weekly-digest-utility.js:193-311 | the lookup fails exactly when one of the queried, resolved notifications throws while rendering; otherwise it yields the surviving items of the first `limit` (99 when it is 0) in query order, at most that many, each a rendered notification with at least one found actor |
| NotificationRender.WithActor | worker/cron-jobs/weekly-digest/weekly-digest-utility.js:322 | the kept actions are exactly those whose actor was found, never more |
| NotificationRender.PhotoOf | worker/cron-jobs/weekly-digest/weekly-digest-utility.js:339-344 | a user's photo is the thumb of the primary image, else the Facebook picture; none exactly when the user has neither |
| NotificationRender.ActorPhoto | worker/cron-jobs/weekly-digest/weekly-digest-utility.js:339-353 | the actor photo is the first actor's photo, else the second's, else the no-photo image |
| NotificationRender.OwnerPhoto | worker/cron-jobs/weekly-digest/weekly-digest-utility.js:651-659 | the owner photo is the owner's photo, else the no-photo image |
| NotificationRender.ActorTextForms | worker/cron-jobs/weekly-digest/weekly-digest-utility.js:355-372 | one actor gives the name alone, two give "A and B", more give "A, B, and n other person/people" with n the others |
| NotificationRender.ActionText | worker/cron-jobs/weekly-digest/weekly-digest-utility.js:394-437 | V2_Comment and Connection action types throw on the undefined striptags; the six content types get a phrase; anything else none |
| NotificationRender.VehiclePhoto | worker/cron-jobs/weekly-digest/weekly-digest-utility.js:489-491 | the vehicle photo is the primary image's medium URL, else the stock default's medium URL, else the placeholder; never empty |
| NotificationRender.VehicleInfo | worker/cron-jobs/weekly-digest/weekly-digest-utility.js:483-519 | the Vehicle branch throws only for a non-add action on a notification without owner; it carries the vehicle's make and model and asks for mail exactly for non-add actions |
| NotificationRender.TargetSection | worker/cron-jobs/weekly-digest/weekly-digest-utility.js:473-623 | the target section throws exactly for Post targets (striptags), and for a missing owner where the Vehicle or V2_Comment branch reads it; mail is asked for exactly by the Vehicle non-add branch; only a Vehicle target sets make and model |
| NotificationRender.Candidates | worker/cron-jobs/weekly-digest/weekly-digest-utility.js:629-679 | copy-test variants exist exactly for FOLLOW on a user or vehicle and LIKE on a vehicle, at most two |
| NotificationRender.Subject | worker/cron-jobs/weekly-digest/weekly-digest-utility.js:629-750 | without variants the subject is the full text and no tag is added; otherwise one variant is chosen and exactly its tag is added |
| NotificationRender.Render | worker/cron-jobs/weekly-digest/weekly-digest-utility.js:314-776 | a notification is dropped exactly without target, without action object, or with a target type and no found actor; passed through exactly without a target type; a rendered one keeps only the actions with a found actor |
| NotificationRender.RenderThrows | worker/cron-jobs/weekly-digest/weekly-digest-utility.js:394-669 | rendering throws exactly for V2_Comment and Connection action types, Post targets, and a missing owner under FOLLOW or non-add actions on a vehicle, or a vehicle-rooted comment |
| NotificationRender.RenderSendFlags | worker/cron-jobs/weekly-digest/weekly-digest-utility.js:394-514 | the e-mail and push flags agree and are set exactly for a vehicle target under an action other than the three add actions |
| NotificationRender.RenderTagsAndSubject | worker/cron-jobs/weekly-digest/weekly-digest-utility.js:326-750 | the first tag is action-target_type; pairs under test get one variant's subject and exactly its tag, others keep one tag and the full text as subject |
| NotificationRender.RenderedFromTarget | worker/cron-jobs/weekly-digest/weekly-digest-utility.js:473-772 | a rendered notification carries its target section's text, URL, make, model and, except for FOLLOW on a user, its photo |
| NotificationRender.RenderVehicleTarget | worker/cron-jobs/weekly-digest/weekly-digest-utility.js:483-519 | a rendered Vehicle notification carries the Vehicle branch's text, URL and photo and the vehicle's make and model |
| NotificationRender.VehicleInfoByAction | worker/cron-jobs/weekly-digest/weekly-digest-utility.js:485-514 | add actions link under the actor's profile; VEHICLE_ADD reads year make model with the vehicle photo; PART_ADD has no photo; other actions link under the owner with the vehicle photo and read "your year model" |
| NotificationRender.GenerateDetails | worker/cron-jobs/weekly-digest/weekly-digest-utility.js:314-776 | the batch fails exactly when one notification throws; otherwise it is the filter of the rendered batch: the items of the notifications not dropped, in batch order |
| CommentExcerpt.StopAt | worker/cron-jobs/weekly-digest/weekly-digest-utility.js:688 | the scan stops at the first stop character at or after the start, or at the end |
| CommentExcerpt.ExcerptOf | worker/cron-jobs/weekly-digest/weekly-digest-utility.js:683-690 | the excerpt loop computes the specified excerpt |
| CommentExcerpt.ExcerptShape | worker/cron-jobs/weekly-digest/weekly-digest-utility.js:683-690 | a comment of at most 50 characters is kept whole; a longer one becomes a prefix of at least 50 and at most 70 characters, ending before a stop character or at the window, with no stop character past index 50, followed by "..." |
| CommentExcerpt.ExcerptStopAtFifty | worker/cron-jobs/weekly-digest/weekly-digest-utility.js:685-689 | a comment with a stop character at index 50 is cut right there |
| DigestNormalize.ListedIffSomeText | worker/cron-jobs/weekly-digest/weekly-digest-utility.js:782 | a post is listed exactly when its title or its preview is present and not all white space |
| DigestNormalize.ShortTitle | worker/cron-jobs/weekly-digest/weekly-digest-utility.js:791-793 | a title under 70 characters is not lengthened; a longer one ends with "..." |
| DigestNormalize.ShortTitlePlain | worker/cron-jobs/weekly-digest/weekly-digest-utility.js:791 | a short title without entities is shown as it is |
| DigestNormalize.ShortTitleLong | worker/cron-jobs/weekly-digest/weekly-digest-utility.js:791 | a long single-line title without entities is cut at the end of the word reaching index 70, then "..." |
| DigestNormalize.PostUrl | worker/cron-jobs/weekly-digest/weekly-digest-utility.js:787 | a post without owner links to the site; otherwise to the owner's profile name (empty when missing) with the post id |
| DigestNormalize.NormalizePost | worker/cron-jobs/weekly-digest/weekly-digest-utility.js:783-796 | the title is the shortened title, else the shortened preview; the preview is present exactly when truthy and is then the unescaped cut at the word reaching 270 characters; the featured image is the first photo's large URL when truthy, else null; the URL and date are the post's |
| DigestNormalize.NormalizePosts | worker/cron-jobs/weekly-digest/weekly-digest-utility.js:781-798 | exactly the listed posts are normalized, none added; the result is empty exactly when no post is listed; a single listed post gives its one entry |
| DigestNormalize.NormalizePostsAppend | worker/cron-jobs/weekly-digest/weekly-digest-utility.js:781-798 | normalizing keeps the input order: the normalization of a concatenation is the concatenation of the normalizations, so each listed post gives one entry at its own place |
| DigestNormalize.RecentPostSelection | worker/cron-jobs/weekly-digest/weekly-digest-utility.js:157-160 | the first five Instagram posts (all of them when there are fewer) come first, then every other post, both in their original order; nothing is added |
| DigestNormalize.Instagram | worker/cron-jobs/weekly-digest/weekly-digest-utility.js:158 | exactly the posts with a truthy Instagram id |
| DigestNormalize.Regular | worker/cron-jobs/weekly-digest/weekly-digest-utility.js:159 | exactly the posts without a truthy Instagram id |
| DigestNormalize.InstagramOfConcat | worker/cron-jobs/weekly-digest/weekly-digest-utility.js:160 | the Instagram posts of the selection are the kept Instagram posts |
| DigestNormalize.UniqBy | worker/cron-jobs/weekly-digest/weekly-digest-utility.js:803 | de-duplication by key never adds an element and never lengthens the list |
| DigestNormalize.UniqByFromDistinct | worker/cron-jobs/weekly-digest/weekly-digest-utility.js:803 | de-duplication by key keeps no two elements with the same key |
| DigestNormalize.UniqByFromComplete | worker/cron-jobs/weekly-digest/weekly-digest-utility.js:803 | every key of the input keeps an element |
| DigestNormalize.UniqByFromFirst | worker/cron-jobs/weekly-digest/weekly-digest-utility.js:803 | every kept element is the first of its key in the input |
| DigestNormalize.UniqByFromSnoc | worker/cron-jobs/weekly-digest/weekly-digest-utility.js:803 | appending an element to the input appends it to the de-duplicated list exactly when its key has not been seen, and otherwise leaves the list unchanged |
| DigestNormalize.UniqByIsFirstOfEach | worker/cron-jobs/weekly-digest/weekly-digest-utility.js:803 | de-duplication by key equals the left-to-right list of the first element of each key, so it keeps input order |
| DigestNormalize.FirstOfEachPrefix | worker/cron-jobs/weekly-digest/weekly-digest-utility.js:803 | the first elements of each key in a list are a prefix of those of any extension of it |
| DigestNormalize.ConsolidatePosts | worker/cron-jobs/weekly-digest/weekly-digest-utility.js:802-804 | the first 25 (or all, if fewer) of the first post of each title in the joined lists, read left to right; so at most 25 posts, all from the two lists |
| DigestNormalize.ConsolidateFollowerFirst | worker/cron-jobs/weekly-digest/weekly-digest-utility.js:802-804 | the first list's posts, one per title, lead the consolidated list in their own order |
| DigestNormalize.ConsolidateShape | worker/cron-jobs/weekly-digest/weekly-digest-utility.js:802-804 | consolidated posts have distinct titles, each the first post of its title in the joined lists, and below the cap every title is represented |
| DigestNormalize.NormalizeParts | worker/cron-jobs/weekly-digest/weekly-digest-utility.js:807-814 | one entry per part, in order, naming brand and name and the vehicle's year, make and model |
| DigestNormalize.NormalizePhotoShape | worker/cron-jobs/weekly-digest/weekly-digest-utility.js:817-828 | the photo is always the thumbnail URL, which gives back the thumb key; a photo links to its first vehicle exactly when that vehicle has a poster |
| DigestNormalize.NormalizePhotos | worker/cron-jobs/weekly-digest/weekly-digest-utility.js:817-828 | one entry per image, in order |
| DigestNormalize.UserEmail | worker/cron-jobs/weekly-digest/weekly-digest-utility.js:847 | the address is the local username, else the Facebook e-mail, else none, and never empty |
| DigestNormalize.UserPhoto | worker/cron-jobs/weekly-digest/weekly-digest-utility.js:851-857 | the avatar is the primary image's medium URL, else the Facebook picture when there is an id, else the no-photo image |
| DigestNormalize.NormalizeUser | worker/cron-jobs/weekly-digest/weekly-digest-utility.js:831-860 | no user gives null; otherwise the name falls back to first and last name, the URLs use the profile name and id, and the e-mail and avatar are chosen as above |
| DigestNormalize.WithBothEnds | worker/cron-jobs/weekly-digest/weekly-digest-utility.js:865 | exactly the connections with both ends set |
| DigestNormalize.NormalizeConnectionUsers | worker/cron-jobs/weekly-digest/weekly-digest-utility.js:863-870 | every follower listed comes from a complete connection, never more than the connections |
| DigestNormalize.ConnectionUsersDistinct | worker/cron-jobs/weekly-digest/weekly-digest-utility.js:866 | no two listed followers share a profile name |
| DigestNormalize.ConnectionUsersComplete | worker/cron-jobs/weekly-digest/weekly-digest-utility.js:865-866 | every complete connection's follower is represented: some listed follower carries its profile name |
| DigestAggregate.BucketOf | worker/cron-jobs/weekly-digest/weekly-digest-utility.js:874-884 | exactly the six allowed actions have a bucket, one of the four allowed keys; the two follower post actions and POST share the POST bucket, every other allowed action has its own |
| DigestAggregate.ItemFor | worker/cron-jobs/weekly-digest/weekly-digest-utility.js:900-927 | the item keeps action, action type, actor photo, first actor's profile, actor text and target photo, and prefixes the target URL with the site; PART_ADD names the part as brand and name; PART_ADD and PHOTO_POST name the target's year, make and model, VEHICLE_ADD the added vehicle's; other actions name neither |
| DigestAggregate.PostFor | worker/cron-jobs/weekly-digest/weekly-digest-utility.js:892 | a follower post is the action object owned by the first actor |
| DigestAggregate.PostActivities | worker/cron-jobs/weekly-digest/weekly-digest-utility.js:894-897 | a follower post contributes one normalized post when it has a title or preview, otherwise nothing |
| DigestAggregate.NormalizeNotifications | worker/cron-jobs/weekly-digest/weekly-digest-utility.js:873-938 | the method computes the specified summary: the reduce, then the deferred post updates |
| DigestAggregate.ReduceBuckets | worker/cron-jobs/weekly-digest/weekly-digest-utility.js:878-937 | the reduce loop computes the synchronous fold over the batch |
| DigestAggregate.ReduceOne | worker/cron-jobs/weekly-digest/weekly-digest-utility.js:879-933 | one reducer call creates the bucket if needed and, for a non-post action, pushes its item and counts it |
| DigestAggregate.ApplyPostUpdates | worker/cron-jobs/weekly-digest/weekly-digest-utility.js:895-898 | the continuations, run in batch order after the reduce, compute the deferred fold |
| DigestAggregate.UpdatePost | worker/cron-jobs/weekly-digest/weekly-digest-utility.js:895-898 | one continuation appends the follower post, if it survives, and counts it in POST |
| DigestAggregate.KeysOf | worker/cron-jobs/weekly-digest/weekly-digest-utility.js:881 | the touched buckets are among the four allowed keys |
| DigestAggregate.KeysOfMeaning | worker/cron-jobs/weekly-digest/weekly-digest-utility.js:881-914 | a bucket is created exactly when some notification of the batch goes to it |
| DigestAggregate.Count | worker/cron-jobs/weekly-digest/weekly-digest-utility.js:897-930 | a bucket's count never exceeds the batch size |
| DigestAggregate.ItemInto | worker/cron-jobs/weekly-digest/weekly-digest-utility.js:929 | one notification pushes at most one item |
| DigestAggregate.ItemsOf | worker/cron-jobs/weekly-digest/weekly-digest-utility.js:929 | the pushed items are all non-post activities |
| DigestAggregate.PostsOf | worker/cron-jobs/weekly-digest/weekly-digest-utility.js:896 | the appended activities are all posts |
| DigestAggregate.SyncStepKeys | worker/cron-jobs/weekly-digest/weekly-digest-utility.js:881-914 | one reducer call adds at most the notification's bucket key |
| DigestAggregate.SyncStepBucket | worker/cron-jobs/weekly-digest/weekly-digest-utility.js:910-930 | one reducer call adds exactly the notification's item, and one count, to its bucket |
| DigestAggregate.SyncFromKeys | worker/cron-jobs/weekly-digest/weekly-digest-utility.js:878-937 | the reduce adds exactly the touched keys |
| DigestAggregate.SyncFromBucket | worker/cron-jobs/weekly-digest/weekly-digest-utility.js:878-937 | per key, the reduce counts and appends, in order, the items of the non-post notifications of that key |
| DigestAggregate.DeferredFromKeys | worker/cron-jobs/weekly-digest/weekly-digest-utility.js:886-898 | the deferred pass adds the POST key exactly when there is a follower post |
| DigestAggregate.DeferredFromOther | worker/cron-jobs/weekly-digest/weekly-digest-utility.js:895-898 | the deferred pass leaves every bucket but POST alone |
| DigestAggregate.DeferredStepPost | worker/cron-jobs/weekly-digest/weekly-digest-utility.js:895-898 | one continuation counts a follower post once and appends what it contributes |
| DigestAggregate.DeferredFromPost | worker/cron-jobs/weekly-digest/weekly-digest-utility.js:895-898 | the deferred pass counts every follower post in POST and appends the surviving ones in batch order |
| DigestAggregate.CountSplits | worker/cron-jobs/weekly-digest/weekly-digest-utility.js:897-930 | a bucket counts its pushed items, plus the follower posts for POST |
| DigestAggregate.PostsOfBounded | worker/cron-jobs/weekly-digest/weekly-digest-utility.js:894-897 | no more posts are listed than there are follower posts |
| DigestAggregate.FollowerPostsInPostKey | worker/cron-jobs/weekly-digest/weekly-digest-utility.js:883-890 | a batch with a follower post has a POST bucket |
| DigestAggregate.SummarizeShape | worker/cron-jobs/weekly-digest/weekly-digest-utility.js:873-938 | a non-empty batch gives exactly the buckets of its allowed actions, each counting its notifications and listing its items in order, followed for POST by the surviving follower posts |
| DigestAggregate.BucketCounts | worker/cron-jobs/weekly-digest/weekly-digest-utility.js:873-938 | only allowed keys; outside POST a bucket's count equals its number of activities, in POST it is at least that |
| DigestAggregate.EmptyBatch | worker/cron-jobs/weekly-digest/weekly-digest-utility.js:876 | an empty batch resolves with the empty array |
| DigestCache.DataCache.constructor | worker/cron-jobs/weekly-digest/weekly-digest-utility.js:26 | a new cache holds nothing |
| DigestCache.DataCache.Clear | worker/cron-jobs/weekly-digest/weekly-digest-utility.js:29-31 | clearing forgets every entry |
| DigestCache.DataCache.GetRecentPhotos | worker/cron-jobs/weekly-digest/weekly-digest-utility.js:119-142 | a cached list is served as is; otherwise the fetched images are normalized and cached; a failed query rejects and caches nothing; the other entries are untouched |
| DigestCache.DataCache.GetRecentPosts | worker/cron-jobs/weekly-digest/weekly-digest-utility.js:144-167 | a cached list is served as is; otherwise the selected posts are normalized and cached; a failed query rejects and caches nothing; the other entries are untouched |
| DigestCache.DataCache.GetRecentEditorialContent | worker/cron-jobs/weekly-digest/weekly-digest-utility.js:169-191 | a cached list is served as is; otherwise the fetched posts are normalized and cached; a failed query rejects and caches nothing; the other entries are untouched |
| DigestCache.RecentPostsAreStable | worker/cron-jobs/weekly-digest/weekly-digest-utility.js:144-167 | after a successful first request, a second one gets the same recent posts whatever its own query returns |

## Left out

- Database access is not modelled: queries, `populate`, counts, cursors, `skip`/`limit` and the `mongoose.model(target_type)` dispatch. Query results, lookups by id and the documents a cursor yields are inputs.
- The id getters of the digest utility (`getOwnerVehicleIds`, `getVehicleImageIds`, `getPostIds`, `getVehicleIdsFollowed`) and the query objects of `weeklyDigestEmailData` are query wrappers. The ids and the fan-out results are inputs.
- `getBrands`, `getDeadUsersByVehicle`, `getFreshestPosts` and `getFreshestVehicles` of the auto-engagement utility wrap a query or return a bundled constant. No core operation uses them.
- The Mandrill client, the nodemailer transporter and axios are not modelled. Each send is an outcome value. Summary e-mails are fire-and-forget: their delivery result is only logged, so it is not modelled.
- The copy-test subject pick is a `pick: nat` parameter, taken modulo the number of variants. The random view-count bump is a `draw: nat`. The `$sample` stage is the sampled sequence, given as an input. `getRandomNumber` is left out: it only draws a random number.
- The clock and the locale are inputs: formatted dates and times are strings, and the day of the week is an integer.
- `moment().fromNow()` (`timestamp_from_now`) is not modelled. No digest field reads it.
- The week window of `weeklyDigestEmailData` (`setDate` with a day-of-week offset) is not modelled. Its formatted start and end dates are inputs.
- The auto-engagement cache-age computation is not modelled. `getDeadUsers` never reads it, since its six-day rule is commented out. It also mutates `today` with `setDate(-365)`.
- `striptags` is never imported, so the V2_Comment and Connection action types and the Post target type throw. Rendering models this as a `Threw` outcome.
- The actor-profile fields of the V2_Comment and Connection action types and of the Post target type are not modelled. Those are the throwing branches, so the fields are always `''` on a rendered notification.
- The V2_Comment copy-test block cannot be reached, because its action type throws earlier. Its excerpt loop is modelled on its own (`CommentExcerpt`).
- `NotificationRender.Candidates`: the LIKE-on-Vehicle subject uses `actor_first_name`. That name is set only on a branch that throws, so the model writes it as `''`.
- Strings are sequences of Unicode characters. JavaScript's `length` and `substring` count UTF-16 code units, so lengths differ for characters outside the Basic Multilingual Plane.
- `AutoEngagement.LowerChar`: `toLowerCase` is exact only for ASCII capitals and the Kelvin sign. Other characters are left as they are.
- `Js.Unescape`: covers exactly lodash's five entities. `Js.TruncateAtWord` covers the regular expression `^(.{n}[^\s]*).*` with the ECMAScript white-space and line-terminator classes.
- The POST-bucket update of a follower post runs in a promise continuation, after the whole reduce. The model applies these updates in a second pass, in batch order, which is the order the continuations run in.
- Actor ids are compared as strings, which is what their `toString()` comparison does.
- `WorkerRegistry.AddCheck`: a failed validation returns the value of `logger.error`. The model represents that value as a failure outcome.
- The light-user drip's total count is an input (`Result`) only as the gate of the cursor; its value only reaches log lines, which are not modelled.
- `printAllJobs` only logs, so it is not modelled. The cron scheduling of a job (`cron_time`, `start`, `timezone`, the CronJob library) is not modelled either. `runJob` and `runAllJobs` record which jobs were started.
- The view-count update after a connection to a vehicle (autoengagement-utility.js:331) is not modelled: `Vehicle.update` gets neither a callback nor `.exec()`, so the query is built but never sent. Only the drawn increment is modelled (`AutoEngagement.ViewIncrement`).
- `removeJob` deletes the entry without stopping a running job. The model records only the deletion.
- Configuration values (`config-env.js`, summary recipients, API keys) are not part of this model. The environment is a parameter where it changes a URL.
- `AbandonedUsers.Selected` and `LightUserDrip.Candidate` state the cursor queries' filters. The cursor loops take their documents as given and do not re-check these filters.

## Findings

| source | as written | input that shows it | evidently intended | confidence | as-written member | corrected member |
|---|---|---|---|---|---|---|
| worker/cron-jobs/weekly-digest/weekly-digest-utility.js:273 | the stock vehicle of a target is populated with `default_image.thumb_key` only, so its `default_image.medium` virtual is always `null`, and the stock-image fallback of the vehicle photo never fires (lines 489 and 508) | a Vehicle target without a primary image whose stock vehicle has `default_image.medium_key = "m.jpg"` shows the placeholder image | the photo falls back to the stock vehicle's default medium image, so the medium key has to be selected too | not executed | NotificationResolve.StockFallbackCounterexample | NotificationResolve.StockFallbackUsed |
