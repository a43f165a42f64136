/**
 * `normalizeNotifications` of worker/cron-jobs/weekly-digest/weekly-digest-utility.js:
 * the rendered notifications of the week are folded into a dictionary of
 * `{count, activities}` buckets, one per allowed action, the two follower
 * post actions sharing the POST bucket.
 *
 * The source updates the POST bucket of a follower post in a promise
 * continuation, which runs after the whole reduce has finished; the model
 * does the same in a second pass, so in the POST bucket the follower posts
 * come after any item pushed for a plain POST notification.
 */
module DigestAggregate {
  import opened Wrappers
  import opened Js
  import opened NotificationData
  import opened NotificationRender
  import DigestNormalize

  const AllowedBuckets: set<string> := {"PART_ADD", "PHOTO_POST", "VEHICLE_ADD", "POST"}

  /** One non-post activity as the digest lists it. */
  datatype DigestItem = DigestItem(
    action: string,
    action_type: string,
    actor_photo: string,
    actor_profile: Option<string>,
    actor_name: string,
    target_url: string,
    target_photo: Option<string>,
    part_name: Option<string>,
    vehicle_name: Option<string>)

  datatype Activity = PostActivity(post: DigestNormalize.PostData) | ItemActivity(item: DigestItem)

  datatype Bucket = Bucket(count: nat, activities: seq<Activity>)

  /** The result: the empty array for an empty batch, else the bucket dictionary. */
  datatype Summary = EmptyList | Buckets(buckets: map<string, Bucket>)

  /** WALL_POST and VEHICLE_POST: posts by people the user follows. */
  predicate FollowerPost(action: string) {
    action == "WALL_POST" || action == "VEHICLE_POST"
  }

  /** The bucket an action goes to, `None` when it is not in the allow-list. */
  function BucketOf(action: string): (k: Option<string>)
    ensures k.Some? <==> action in {"PART_ADD", "PHOTO_POST", "VEHICLE_ADD", "POST", "WALL_POST", "VEHICLE_POST"}
    ensures k.Some? ==> k.value in AllowedBuckets
    ensures k == Some("POST") <==> action == "POST" || FollowerPost(action)
    ensures k.Some? && !FollowerPost(action) ==> k.value == action
  {
    if FollowerPost(action) then Some("POST")
    else if action in {"PART_ADD", "PHOTO_POST", "VEHICLE_ADD", "POST"} then Some(action)
    else None
  }

  predicate AllHaveActors(ns: seq<Rendered>) {
    forall i :: 0 <= i < |ns| ==> HasActors(ns[i])
  }

  function FirstActor(n: Rendered): Profile
    requires HasActors(n)
  {
    assert n.actions[0] in n.actions;
    n.actions[0].actor.value
  }

  function YearMakeModelText(year: Option<string>, make: Option<string>, model: Option<string>): string {
    Show(year) + " " + Show(make) + " " + Show(model)
  }

  /** The digest item of a non-post notification. */
  function ItemFor(n: Rendered): (item: DigestItem)
    requires HasActors(n)
    ensures item.action == n.action && item.actor_name == n.actor_text && item.target_photo == n.target_photo
    ensures item.target_url == DigestNormalize.BaseUrl + n.target_url
    ensures item.action_type == n.action_type && item.actor_photo == n.actor_photo
    ensures item.actor_profile == FirstActor(n).profile_name
    ensures item.part_name.Some? <==> n.action == "PART_ADD"
    ensures item.part_name.Some? ==> item.part_name.value == Show(n.action_object.brand) + " " + Show(n.action_object.name)
    ensures item.vehicle_name.Some? <==> n.action in {"PART_ADD", "VEHICLE_ADD", "PHOTO_POST"}
    ensures n.action in {"PART_ADD", "PHOTO_POST"} ==>
      item.vehicle_name == Some(Show(n.target.year) + " " + Show(n.target.make) + " " + Show(n.target.model))
    ensures n.action == "VEHICLE_ADD" ==>
      item.vehicle_name == Some(Show(n.action_object.year) + " " + Show(n.action_object.make) + " " + Show(n.action_object.model))
  {
    var ao := n.action_object;
    var t := n.target;
    DigestItem(
      n.action, n.action_type, n.actor_photo, FirstActor(n).profile_name, n.actor_text,
      DigestNormalize.BaseUrl + n.target_url, n.target_photo,
      if n.action == "PART_ADD" then Some(Show(ao.brand) + " " + Show(ao.name)) else None,
      if n.action == "PART_ADD" || n.action == "PHOTO_POST" then Some(YearMakeModelText(t.year, t.make, t.model))
      else if n.action == "VEHICLE_ADD" then Some(YearMakeModelText(ao.year, ao.make, ao.model))
      else None)
  }

  /**
   * The action object of a follower post, seen as a post owned by the first
   * actor. It is fetched without its photos, so it has no featured image.
   */
  function PostFor(n: Rendered): (p: DigestNormalize.Post)
    requires HasActors(n)
    ensures p.owner == Some(DigestNormalize.PostOwner(FirstActor(n).profile_name))
    ensures p.title == n.action_object.title && p.preview_text == n.action_object.preview_text
  {
    var ao := n.action_object;
    DigestNormalize.Post(ao.id, ao.title, ao.preview_text, ao.created, None,
                         Some(DigestNormalize.PostOwner(FirstActor(n).profile_name)), None)
  }

  /** `normalizePosts([post])`: nothing when the post has neither title nor preview. */
  function PostActivities(n: Rendered): (acts: seq<Activity>)
    requires HasActors(n)
    ensures |acts| <= 1
    ensures |acts| == 1 <==> DigestNormalize.Listed(PostFor(n))
    ensures |acts| == 1 ==> acts[0] == PostActivity(DigestNormalize.NormalizePost(PostFor(n)))
  {
    var ds := DigestNormalize.NormalizePosts([PostFor(n)]);
    seq(|ds|, i requires 0 <= i < |ds| => PostActivity(ds[i]))
  }

  function Get(m: map<string, Bucket>, k: string): Bucket {
    if k in m then m[k] else Bucket(0, [])
  }

  // ---------------------------------------------------------------- the fold

  /** One step of the reduce: a follower post only makes sure the POST bucket exists. */
  function SyncStep(m: map<string, Bucket>, n: Rendered): map<string, Bucket>
    requires HasActors(n)
  {
    var k := BucketOf(n.action);
    if k.None? then m
    else if FollowerPost(n.action) then m[k.value := Get(m, k.value)]
    else
      var b := Get(m, k.value);
      m[k.value := Bucket(b.count + 1, b.activities + [ItemActivity(ItemFor(n))])]
  }

  function SyncFrom(m: map<string, Bucket>, ns: seq<Rendered>): map<string, Bucket>
    requires AllHaveActors(ns)
    decreases |ns|
  {
    if ns == [] then m else SyncFrom(SyncStep(m, ns[0]), ns[1..])
  }

  /** One deferred continuation: a follower post's activity (if any) joins the POST bucket and counts. */
  function DeferredStep(m: map<string, Bucket>, n: Rendered): map<string, Bucket>
    requires HasActors(n)
  {
    if FollowerPost(n.action) then m["POST" := Bumped(Get(m, "POST"), n)] else m
  }

  /** The POST bucket after one follower post: one more, and its normalized post appended if it survives. */
  function Bumped(b: Bucket, n: Rendered): Bucket
    requires HasActors(n)
  {
    Bucket(b.count + 1, b.activities + PostActivities(n))
  }

  function DeferredFrom(m: map<string, Bucket>, ns: seq<Rendered>): map<string, Bucket>
    requires AllHaveActors(ns)
    decreases |ns|
  {
    if ns == [] then m else DeferredFrom(DeferredStep(m, ns[0]), ns[1..])
  }

  /** What `normalizeNotifications` resolves with. */
  function Summarize(ns: seq<Rendered>): Summary
    requires AllHaveActors(ns)
  {
    if ns == [] then EmptyList else Buckets(DeferredFrom(SyncFrom(map[], ns), ns))
  }

  /** `normalizeNotifications`: the reduce, then the deferred post updates, on one mutable dictionary. */
  method NormalizeNotifications(ns: seq<Rendered>) returns (s: Summary)
    requires AllHaveActors(ns)
    ensures s == Summarize(ns)
  {
    if |ns| == 0 {
      return EmptyList;
    }
    var summary := ReduceBuckets(ns);
    summary := ApplyPostUpdates(summary, ns);
    s := Buckets(summary);
  }

  /** The synchronous reduce over the batch. */
  method ReduceBuckets(ns: seq<Rendered>) returns (summary: map<string, Bucket>)
    requires AllHaveActors(ns)
    ensures summary == SyncFrom(map[], ns)
  {
    summary := map[];
    var i := 0;
    while i < |ns|
      invariant 0 <= i <= |ns|
      invariant SyncFrom(summary, ns[i..]) == SyncFrom(map[], ns)
    {
      SyncFromUnfold(summary, ns, i);
      summary := ReduceOne(summary, ns[i]);
      i := i + 1;
    }
  }

  /** The reducer's callback for one notification. */
  method ReduceOne(summary: map<string, Bucket>, n: Rendered) returns (summary': map<string, Bucket>)
    requires HasActors(n)
    ensures summary' == SyncStep(summary, n)
  {
    summary' := summary;
    var key := BucketOf(n.action);
    if key.Some? {
      var k := key.value;
      if k !in summary' {
        summary' := summary'[k := Bucket(0, [])];
      }
      if !FollowerPost(n.action) {
        var item := ItemActivity(ItemFor(n));
        summary' := summary'[k := Bucket(summary'[k].count + 1, summary'[k].activities + [item])];
      } else {
        assert summary' == summary[k := Get(summary, k)];
      }
    }
  }

  lemma SyncFromUnfold(m: map<string, Bucket>, ns: seq<Rendered>, i: nat)
    requires AllHaveActors(ns) && i < |ns|
    ensures AllHaveActors(ns[i..]) && AllHaveActors(ns[i + 1..])
    ensures SyncFrom(m, ns[i..]) == SyncFrom(SyncStep(m, ns[i]), ns[i + 1..])
  {
    assert ns[i..][0] == ns[i] && ns[i..][1..] == ns[i + 1..];
  }

  /** The promise continuations of the follower posts, run in batch order after the reduce. */
  method ApplyPostUpdates(synced: map<string, Bucket>, ns: seq<Rendered>) returns (summary: map<string, Bucket>)
    requires AllHaveActors(ns)
    ensures summary == DeferredFrom(synced, ns)
  {
    summary := synced;
    var i := 0;
    while i < |ns|
      invariant 0 <= i <= |ns|
      invariant DeferredFrom(summary, ns[i..]) == DeferredFrom(synced, ns)
    {
      DeferredFromUnfold(summary, ns, i);
      summary := UpdatePost(summary, ns[i]);
      i := i + 1;
    }
  }

  /** The continuation of one follower post: count it in POST and append its normalized post, if any. */
  method UpdatePost(summary: map<string, Bucket>, n: Rendered) returns (summary': map<string, Bucket>)
    requires HasActors(n)
    ensures summary' == DeferredStep(summary, n)
  {
    summary' := summary;
    if FollowerPost(n.action) {
      var b := Get(summary, "POST");
      summary' := summary["POST" := Bumped(b, n)];
    }
  }

  lemma DeferredFromUnfold(m: map<string, Bucket>, ns: seq<Rendered>, i: nat)
    requires AllHaveActors(ns) && i < |ns|
    ensures AllHaveActors(ns[i..]) && AllHaveActors(ns[i + 1..])
    ensures DeferredFrom(m, ns[i..]) == DeferredFrom(DeferredStep(m, ns[i]), ns[i + 1..])
  {
    assert ns[i..][0] == ns[i] && ns[i..][1..] == ns[i + 1..];
  }

  // ---------------------------------------------------------------- reference definitions

  /** The buckets the batch touches. */
  function KeysOf(ns: seq<Rendered>): (ks: set<string>)
    ensures ks <= AllowedBuckets
  {
    if ns == [] then {}
    else
      var k := BucketOf(ns[0].action);
      if k.Some? then {k.value} + KeysOf(ns[1..]) else KeysOf(ns[1..])
  }

  /** A bucket is touched exactly when some notification of the batch goes to it. */
  lemma {:induction false} KeysOfMeaning(ns: seq<Rendered>, k: string)
    ensures k in KeysOf(ns) <==> exists i :: 0 <= i < |ns| && BucketOf(ns[i].action) == Some(k)
    decreases |ns|
  {
    if ns != [] {
      KeysOfMeaning(ns[1..], k);
      if k in KeysOf(ns[1..]) {
        var i :| 0 <= i < |ns[1..]| && BucketOf(ns[1..][i].action) == Some(k);
        assert ns[i + 1] == ns[1..][i];
      }
      if exists i :: 0 <= i < |ns| && BucketOf(ns[i].action) == Some(k) {
        var i :| 0 <= i < |ns| && BucketOf(ns[i].action) == Some(k);
        if i > 0 {
          assert ns[1..][i - 1] == ns[i];
        }
      }
    }
  }

  /** How many notifications of the batch go to bucket `k`. */
  function Count(ns: seq<Rendered>, k: string): (c: nat)
    ensures c <= |ns|
  {
    if ns == [] then 0
    else (if BucketOf(ns[0].action) == Some(k) then 1 else 0) + Count(ns[1..], k)
  }

  /** The item one notification pushes into bucket `k`, if any. */
  function ItemInto(n: Rendered, k: string): (items: seq<Activity>)
    requires HasActors(n)
    ensures |items| <= 1
  {
    if BucketOf(n.action) == Some(k) && !FollowerPost(n.action) then [ItemActivity(ItemFor(n))] else []
  }

  /** The items pushed into bucket `k`, in batch order. */
  function ItemsOf(ns: seq<Rendered>, k: string): (items: seq<Activity>)
    requires AllHaveActors(ns)
    ensures forall a :: a in items ==> a.ItemActivity?
  {
    if ns == [] then []
    else
      ItemInto(ns[0], k) + ItemsOf(ns[1..], k)
  }

  /** The follower posts that survive `normalizePosts`, in batch order. */
  function PostsOf(ns: seq<Rendered>): (posts: seq<Activity>)
    requires AllHaveActors(ns)
    ensures forall a :: a in posts ==> a.PostActivity?
  {
    if ns == [] then []
    else
      PostsHere(ns[0]) + PostsOf(ns[1..])
  }

  /** What one notification adds to the POST list in the deferred pass. */
  function PostsHere(n: Rendered): seq<Activity>
    requires HasActors(n)
  {
    if FollowerPost(n.action) then PostActivities(n) else []
  }

  /** How many follower posts the batch holds. */
  function FollowerPostCount(ns: seq<Rendered>): nat {
    if ns == [] then 0
    else (if FollowerPost(ns[0].action) then 1 else 0) + FollowerPostCount(ns[1..])
  }

  // ---------------------------------------------------------------- what the fold computes

  lemma SyncStepKeys(m: map<string, Bucket>, n: Rendered)
    requires HasActors(n)
    ensures SyncStep(m, n).Keys == m.Keys + (if BucketOf(n.action).Some? then {BucketOf(n.action).value} else {})
  {
  }

  lemma SyncStepBucket(m: map<string, Bucket>, n: Rendered, k: string)
    requires HasActors(n)
    ensures Get(SyncStep(m, n), k) == Bucket(Get(m, k).count + |ItemInto(n, k)|, Get(m, k).activities + ItemInto(n, k))
  {
  }

  /** The reduce adds exactly the touched keys. */
  lemma {:induction false} SyncFromKeys(m: map<string, Bucket>, ns: seq<Rendered>)
    requires AllHaveActors(ns)
    ensures SyncFrom(m, ns).Keys == m.Keys + KeysOf(ns)
    decreases |ns|
  {
    if ns != [] {
      SyncStepKeys(m, ns[0]);
      SyncFromKeys(SyncStep(m, ns[0]), ns[1..]);
    }
  }

  /** Per key, the reduce adds one count and one item for each non-post notification of that key. */
  lemma {:induction false} SyncFromBucket(m: map<string, Bucket>, ns: seq<Rendered>, k: string)
    requires AllHaveActors(ns)
    ensures Get(SyncFrom(m, ns), k) == Bucket(Get(m, k).count + |ItemsOf(ns, k)|, Get(m, k).activities + ItemsOf(ns, k))
    decreases |ns|
  {
    if ns != [] {
      var m' := SyncStep(m, ns[0]);
      SyncStepBucket(m, ns[0], k);
      SyncFromBucket(m', ns[1..], k);
      assert ItemsOf(ns, k) == ItemInto(ns[0], k) + ItemsOf(ns[1..], k);
      AppendAssoc(Get(m, k).activities, ItemInto(ns[0], k), ItemsOf(ns[1..], k));
    }
  }

  /** The deferred pass adds the POST key exactly when there is a follower post. */
  lemma {:induction false} DeferredFromKeys(m: map<string, Bucket>, ns: seq<Rendered>)
    requires AllHaveActors(ns)
    ensures DeferredFrom(m, ns).Keys == m.Keys + (if FollowerPostCount(ns) > 0 then {"POST"} else {})
    decreases |ns|
  {
    if ns != [] {
      DeferredFromKeys(DeferredStep(m, ns[0]), ns[1..]);
    }
  }

  /** The deferred pass leaves every bucket but POST alone. */
  lemma {:induction false} DeferredFromOther(m: map<string, Bucket>, ns: seq<Rendered>, k: string)
    requires AllHaveActors(ns) && k != "POST"
    ensures Get(DeferredFrom(m, ns), k) == Get(m, k)
    decreases |ns|
  {
    if ns != [] {
      DeferredFromOther(DeferredStep(m, ns[0]), ns[1..], k);
    }
  }

  lemma DeferredStepPost(m: map<string, Bucket>, n: Rendered)
    requires HasActors(n)
    ensures Get(DeferredStep(m, n), "POST").count == Get(m, "POST").count + (if FollowerPost(n.action) then 1 else 0)
    ensures Get(DeferredStep(m, n), "POST").activities == Get(m, "POST").activities + PostsHere(n)
  {
  }

  /** The deferred pass counts every follower post in POST and lists the ones that survive, in order. */
  lemma {:induction false} DeferredFromPost(m: map<string, Bucket>, ns: seq<Rendered>)
    requires AllHaveActors(ns)
    ensures Get(DeferredFrom(m, ns), "POST").count == Get(m, "POST").count + FollowerPostCount(ns)
    ensures Get(DeferredFrom(m, ns), "POST").activities == Get(m, "POST").activities + PostsOf(ns)
    decreases |ns|
  {
    if ns != [] {
      var m' := DeferredStep(m, ns[0]);
      DeferredStepPost(m, ns[0]);
      DeferredFromPost(m', ns[1..]);
      var a, h, r := Get(m, "POST").activities, PostsHere(ns[0]), PostsOf(ns[1..]);
      assert PostsOf(ns) == h + r;
      AppendAssoc(a, h, r);
    }
  }

  /** Only follower posts and notifications of an allowed action are counted, in their own bucket. */
  lemma {:induction false} CountSplits(ns: seq<Rendered>, k: string)
    requires AllHaveActors(ns)
    ensures Count(ns, k) == |ItemsOf(ns, k)| + (if k == "POST" then FollowerPostCount(ns) else 0)
    decreases |ns|
  {
    if ns != [] {
      CountSplits(ns[1..], k);
    }
  }

  lemma {:induction false} PostsOfBounded(ns: seq<Rendered>)
    requires AllHaveActors(ns)
    ensures |PostsOf(ns)| <= FollowerPostCount(ns)
    decreases |ns|
  {
    if ns != [] {
      PostsOfBounded(ns[1..]);
    }
  }

  lemma {:induction false} FollowerPostsInPostKey(ns: seq<Rendered>)
    ensures FollowerPostCount(ns) > 0 ==> "POST" in KeysOf(ns)
    decreases |ns|
  {
    if ns != [] && !FollowerPost(ns[0].action) {
      FollowerPostsInPostKey(ns[1..]);
    }
  }

  /**
   * The summary of a non-empty batch: exactly the buckets of the allowed
   * actions that occur, each counting its notifications; its activities are
   * its items in order, and for POST the surviving follower posts after them.
   */
  lemma SummarizeShape(ns: seq<Rendered>)
    requires AllHaveActors(ns) && ns != []
    ensures Summarize(ns).buckets.Keys == KeysOf(ns)
    ensures forall k :: k in Summarize(ns).buckets ==>
              Summarize(ns).buckets[k] == Bucket(Count(ns, k), ItemsOf(ns, k) + (if k == "POST" then PostsOf(ns) else []))
  {
    SyncFromKeys(map[], ns);
    DeferredFromKeys(SyncFrom(map[], ns), ns);
    FollowerPostsInPostKey(ns);
    forall k | k in Summarize(ns).buckets
      ensures Summarize(ns).buckets[k] == Bucket(Count(ns, k), ItemsOf(ns, k) + (if k == "POST" then PostsOf(ns) else []))
    {
      SummarizeBucket(ns, k);
    }
  }

  lemma SummarizeBucket(ns: seq<Rendered>, k: string)
    requires AllHaveActors(ns) && ns != []
    ensures Get(Summarize(ns).buckets, k) ==
              Bucket(Count(ns, k), ItemsOf(ns, k) + (if k == "POST" then PostsOf(ns) else []))
  {
    var synced := SyncFrom(map[], ns);
    SyncFromBucket(map[], ns, k);
    CountSplits(ns, k);
    assert Get(synced, k) == Bucket(|ItemsOf(ns, k)|, ItemsOf(ns, k));
    if k == "POST" {
      DeferredFromPost(synced, ns);
    } else {
      DeferredFromOther(synced, ns, k);
    }
  }

  /**
   * The bucket invariants: only allowed keys; outside POST the count is the
   * number of activities; in POST it is at least that, since a follower
   * post without title and preview is counted but not listed.
   */
  lemma BucketCounts(ns: seq<Rendered>)
    requires AllHaveActors(ns) && ns != []
    ensures var m := Summarize(ns).buckets;
      && m.Keys <= AllowedBuckets
      && (forall k :: k in m && k != "POST" ==> m[k].count == |m[k].activities|)
      && (forall k :: k in m ==> m[k].count >= |m[k].activities|)
  {
    SummarizeShape(ns);
    PostsOfBounded(ns);
    var m := Summarize(ns).buckets;
    forall k | k in m ensures m[k].count >= |m[k].activities| && (k != "POST" ==> m[k].count == |m[k].activities|) {
      CountSplits(ns, k);
    }
  }

  /** An empty batch resolves with the empty array. */
  lemma EmptyBatch()
    ensures Summarize([]) == EmptyList
  {
  }
}
