/**
 * The digest normalizers of worker/cron-jobs/weekly-digest/weekly-digest-utility.js:
 * `normalizePosts`, `consolidatePosts`, `normalizeParts`, `normalizePhotos`,
 * `normalizeUser` and `normalizeConnectionUsers`, and the post selection of
 * `getRecentPosts`. Locale-formatted dates arrive as strings.
 */
module DigestNormalize {
  import opened Wrappers
  import opened Js
  import opened ImageModel
  import opened UserData
  import NotificationRender

  const BaseUrl: string := "https://wheelwell.com"
  const PostFallbackUrl: string := "https://www.wheelwell.com"
  const TitleWindow: nat := 70
  const PreviewWindow: nat := 270
  const ConsolidateCap: nat := 25

  // ---------------------------------------------------------------- posts

  datatype PostOwner = PostOwner(profile_name: Option<string>)

  /**
   * A post: `first_photo_large` is the `large` URL of its first photo when
   * the photos were populated, `created` its locale-formatted creation date.
   */
  datatype Post = Post(
    id: string,
    title: Option<string>,
    preview_text: Option<string>,
    created: string,
    first_photo_large: Option<string>,
    owner: Option<PostOwner>,
    instagram_id: Option<string>)

  datatype PostData = PostData(
    creation_timestamp: string,
    featured_image: Option<string>,
    preview_text: Option<string>,
    url: string,
    title: string)

  /** `s && s.trim()`: present and not only white space. */
  predicate HasText(s: Option<string>) {
    s.Some? && Trim(s.value) != ""
  }

  /** The filter of `normalizePosts`. */
  predicate Listed(p: Post) {
    HasText(p.title) || HasText(p.preview_text)
  }

  /** A post is listed unless both its title and its preview are absent or white space. */
  lemma ListedIffSomeText(p: Post)
    ensures Listed(p) <==>
              (p.title.Some? && !AllSpace(p.title.value)) || (p.preview_text.Some? && !AllSpace(p.preview_text.value))
  {
    HasTextIff(p.title);
    HasTextIff(p.preview_text);
  }

  lemma HasTextIff(s: Option<string>)
    ensures HasText(s) <==> s.Some? && !AllSpace(s.value)
  {
    if s.Some? { TrimEmpty(s.value); }
  }

  /** The shortened title: whole when under 70 characters, else cut after the word at 70 with "...". */
  function ShortTitle(s: string): (r: string)
    ensures |s| < TitleWindow ==> |r| <= |s|
    ensures |s| >= TitleWindow ==> |r| >= 3 && r[|r| - 3..] == "..."
  {
    if |s| < TitleWindow then Unescape(s) else Unescape(TruncateAtWord(s, TitleWindow)) + "..."
  }

  /** A short title without entities is the title itself. */
  lemma ShortTitlePlain(s: string)
    requires |s| < TitleWindow && '&' !in s
    ensures ShortTitle(s) == s
  {
    UnescapePlain(s);
  }

  /** A long single-line title without entities is cut at the end of the word reaching index 70. */
  lemma ShortTitleLong(s: string)
    requires |s| >= TitleWindow && '&' !in s && forall i :: 0 <= i < |s| ==> !IsLineTerminator(s[i])
    ensures ShortTitle(s) == s[..WordEnd(s, TitleWindow)] + "..."
  {
    TruncateSingleLine(s, TitleWindow);
    var t := s[..WordEnd(s, TitleWindow)];
    assert forall c :: c in t ==> c in s;
    UnescapePlain(t);
  }

  function PostUrl(p: Post): (url: string)
    ensures p.owner.None? ==> url == PostFallbackUrl
    ensures p.owner.Some? ==> url == BaseUrl + "/" + (if Truthy(p.owner.value.profile_name) then p.owner.value.profile_name.value else "") + "?pid=" + p.id
  {
    if p.owner.Some? then
      BaseUrl + "/" + (if Truthy(p.owner.value.profile_name) then p.owner.value.profile_name.value else "") + "?pid=" + p.id
    else PostFallbackUrl
  }

  /** One listed post as the digest shows it; the title falls back to the preview. */
  function NormalizePost(p: Post): (d: PostData)
    requires Listed(p)
    ensures Truthy(p.title) ==> d.title == ShortTitle(p.title.value)
    ensures !Truthy(p.title) ==> d.title == ShortTitle(p.preview_text.value)
    ensures d.preview_text.Some? <==> Truthy(p.preview_text)
    ensures Truthy(p.preview_text) ==> d.preview_text == Some(Unescape(TruncateAtWord(p.preview_text.value, PreviewWindow)))
    ensures d.featured_image.Some? <==> Truthy(p.first_photo_large)
    ensures d.featured_image.Some? ==> d.featured_image == p.first_photo_large
    ensures d.url == PostUrl(p) && d.creation_timestamp == p.created
  {
    var preview := if Truthy(p.preview_text) then Some(Unescape(TruncateAtWord(p.preview_text.value, PreviewWindow))) else None;
    var title := if Truthy(p.title) then ShortTitle(p.title.value) else ShortTitle(p.preview_text.value);
    PostData(p.created, if Truthy(p.first_photo_large) then p.first_photo_large else None, preview, PostUrl(p), title)
  }

  /** `normalizePosts`: the listed posts, normalized, in order. */
  function NormalizePosts(posts: seq<Post>): (r: seq<PostData>)
    ensures |r| <= |posts|
    ensures forall p :: p in posts && Listed(p) ==> NormalizePost(p) in r
    ensures forall d :: d in r ==> exists p :: p in posts && Listed(p) && d == NormalizePost(p)
    ensures (forall p :: p in posts ==> !Listed(p)) <==> r == []
    ensures |posts| == 1 && Listed(posts[0]) ==> r == [NormalizePost(posts[0])]
  {
    if posts == [] then []
    else
      var rest := NormalizePosts(posts[1..]);
      assert forall p :: p in posts[1..] ==> p in posts;
      if Listed(posts[0]) then [NormalizePost(posts[0])] + rest else rest
  }

  /**
   * The filter and map keep the input order: normalizing a concatenation
   * concatenates the normalized parts, so each listed post gives exactly one
   * entry, at its own place.
   */
  lemma {:induction false} NormalizePostsAppend(a: seq<Post>, b: seq<Post>)
    ensures NormalizePosts(a + b) == NormalizePosts(a) + NormalizePosts(b)
    decreases |a|
  {
    if a == [] {
      assert a + b == b;
    } else {
      var head := if Listed(a[0]) then [NormalizePost(a[0])] else [];
      assert (a + b)[0] == a[0] && (a + b)[1..] == a[1..] + b;
      assert NormalizePosts(a + b) == head + NormalizePosts(a[1..] + b);
      assert NormalizePosts(a) == head + NormalizePosts(a[1..]);
      NormalizePostsAppend(a[1..], b);
      AppendAssoc(head, NormalizePosts(a[1..]), NormalizePosts(b));
    }
  }

  /** `getRecentPosts`: the first five Instagram posts, then every other post, in order. */
  function RecentPostSelection(posts: seq<Post>): (r: seq<Post>)
    ensures |Instagram(r)| == if |Instagram(posts)| <= 5 then |Instagram(posts)| else 5
    ensures Instagram(r) == Instagram(posts)[..|Instagram(r)|]
    ensures Regular(r) == Regular(posts)
    ensures r == Instagram(r) + Regular(r)
    ensures forall p :: p in r ==> p in posts
    ensures forall p :: p in posts && !Truthy(p.instagram_id) ==> p in r
  {
    var insta := Instagram(posts);
    var regular := Regular(posts);
    var first5 := if |insta| <= 5 then insta else insta[..5];
    assert forall p :: p in first5 ==> p in insta;
    InstagramOfConcat(first5, regular);
    RegularOfConcat(first5, regular);
    first5 + regular
  }

  /** The posts with a truthy `instagram_id`. */
  function Instagram(posts: seq<Post>): (r: seq<Post>)
    ensures forall p :: p in r <==> p in posts && Truthy(p.instagram_id)
    ensures |r| <= |posts|
  {
    if posts == [] then []
    else if Truthy(posts[0].instagram_id) then [posts[0]] + Instagram(posts[1..])
    else Instagram(posts[1..])
  }

  function Regular(posts: seq<Post>): (r: seq<Post>)
    ensures forall p :: p in r <==> p in posts && !Truthy(p.instagram_id)
  {
    if posts == [] then []
    else if !Truthy(posts[0].instagram_id) then [posts[0]] + Regular(posts[1..])
    else Regular(posts[1..])
  }

  lemma {:induction false} InstagramOfConcat(a: seq<Post>, b: seq<Post>)
    requires forall p :: p in a ==> Truthy(p.instagram_id)
    requires forall p :: p in b ==> !Truthy(p.instagram_id)
    ensures Instagram(a + b) == a
    decreases |a|
  {
    if a == [] {
      assert a + b == b;
      InstagramNone(b);
    } else {
      assert (a + b)[1..] == a[1..] + b;
      InstagramOfConcat(a[1..], b);
    }
  }

  lemma {:induction false} RegularOfConcat(a: seq<Post>, b: seq<Post>)
    requires forall p :: p in a ==> Truthy(p.instagram_id)
    requires forall p :: p in b ==> !Truthy(p.instagram_id)
    ensures Regular(a + b) == b
    decreases |a|
  {
    if a == [] {
      assert a + b == b;
      RegularAll(b);
    } else {
      assert (a + b)[1..] == a[1..] + b;
      RegularOfConcat(a[1..], b);
    }
  }

  lemma {:induction false} RegularAll(b: seq<Post>)
    requires forall p :: p in b ==> !Truthy(p.instagram_id)
    ensures Regular(b) == b
    decreases |b|
  {
    if b != [] {
      RegularAll(b[1..]);
      assert b == [b[0]] + b[1..];
    }
  }

  lemma {:induction false} InstagramNone(b: seq<Post>)
    requires forall p :: p in b ==> !Truthy(p.instagram_id)
    ensures Instagram(b) == []
    decreases |b|
  {
    if b != [] {
      InstagramNone(b[1..]);
    }
  }

  // ---------------------------------------------------------------- de-duplication

  /** Keeps the first element of each key, in order; `seen` holds the keys already kept. */
  function UniqByFrom<T, K(==)>(s: seq<T>, key: T -> K, seen: set<K>): (r: seq<T>)
    ensures |r| <= |s|
    ensures forall x :: x in r ==> x in s && key(x) !in seen
    decreases |s|
  {
    if s == [] then []
    else if key(s[0]) in seen then UniqByFrom(s[1..], key, seen)
    else [s[0]] + UniqByFrom(s[1..], key, seen + {key(s[0])})
  }
  /** lodash `uniqBy`. */
  function UniqBy<T, K(==)>(s: seq<T>, key: T -> K): (r: seq<T>)
    ensures |r| <= |s|
    ensures forall x :: x in r ==> x in s
  {
    UniqByFrom(s, key, {})
  }

  ghost predicate DistinctKeys<T, K>(r: seq<T>, key: T -> K) {
    forall i, j :: 0 <= i < j < |r| ==> key(r[i]) != key(r[j])
  }
  /** `UniqByFrom` keeps no two elements with the same key. */
  lemma {:induction false} UniqByFromDistinct<T, K>(s: seq<T>, key: T -> K, seen: set<K>)
    ensures DistinctKeys(UniqByFrom(s, key, seen), key)
    decreases |s|
  {
    if s != [] && key(s[0]) !in seen {
      var seen' := seen + {key(s[0])};
      UniqByFromDistinct(s[1..], key, seen');
      var r' := UniqByFrom(s[1..], key, seen');
      assert UniqByFrom(s, key, seen) == [s[0]] + r';
      DistinctCons(s[0], r', key, seen');
    } else if s != [] {
      UniqByFromDistinct(s[1..], key, seen);
    }
  }

  /** Putting in front an element whose key the rest avoids keeps the keys distinct. */
  lemma DistinctCons<T, K>(x: T, r: seq<T>, key: T -> K, seen: set<K>)
    requires DistinctKeys(r, key) && key(x) in seen
    requires forall y :: y in r ==> key(y) !in seen
    ensures DistinctKeys([x] + r, key)
  {
    var xr := [x] + r;
    forall i, j | 0 <= i < j < |xr| ensures key(xr[i]) != key(xr[j]) {
      assert xr[j] == r[j - 1];
      if i > 0 { assert xr[i] == r[i - 1]; } else { assert r[j - 1] in r; }
    }
  }

  ghost predicate CoversKeys<T, K>(s: seq<T>, r: seq<T>, key: T -> K, seen: set<K>) {
    forall i :: 0 <= i < |s| && key(s[i]) !in seen ==> exists j :: 0 <= j < |r| && key(r[j]) == key(s[i])
  }

  /** Every key of the input not seen before has an element in the result. */
  lemma UniqByFromComplete<T, K>(s: seq<T>, key: T -> K, seen: set<K>)
    ensures CoversKeys(s, UniqByFrom(s, key, seen), key, seen)
  {
    var r := UniqByFrom(s, key, seen);
    UniqByFromKeys(s, key, seen);
    forall i | 0 <= i < |s| && key(s[i]) !in seen
      ensures exists j :: 0 <= j < |r| && key(r[j]) == key(s[i])
    {
      KeySetHas(s, key, i);
      var j := KeySetIndex(r, key, key(s[i]));
    }
  }

  /** The keys of the elements of `s`. */
  ghost function KeySet<T, K>(s: seq<T>, key: T -> K): set<K>
    decreases |s|
  {
    if s == [] then {} else {key(s[0])} + KeySet(s[1..], key)
  }

  lemma {:induction false} KeySetHas<T, K>(s: seq<T>, key: T -> K, i: nat)
    requires i < |s|
    ensures key(s[i]) in KeySet(s, key)
    decreases |s|
  {
    if i > 0 {
      KeySetHas(s[1..], key, i - 1);
      assert s[1..][i - 1] == s[i];
    }
  }

  lemma {:induction false} KeySetIndex<T, K>(s: seq<T>, key: T -> K, k: K) returns (j: nat)
    requires k in KeySet(s, key)
    ensures j < |s| && key(s[j]) == k
    decreases |s|
  {
    if key(s[0]) == k {
      j := 0;
    } else {
      j := KeySetIndex(s[1..], key, k);
      assert s[1..][j] == s[j + 1];
      j := j + 1;
    }
  }

  /** `UniqByFrom` keeps exactly the keys of the input not seen before. */
  lemma {:induction false} UniqByFromKeys<T, K>(s: seq<T>, key: T -> K, seen: set<K>)
    ensures KeySet(UniqByFrom(s, key, seen), key) == KeySet(s, key) - seen
    decreases |s|
  {
    if s != [] {
      if key(s[0]) in seen {
        UniqByFromKeys(s[1..], key, seen);
      } else {
        var r' := UniqByFrom(s[1..], key, seen + {key(s[0])});
        UniqByFromKeys(s[1..], key, seen + {key(s[0])});
        var r := [s[0]] + r';
        assert UniqByFrom(s, key, seen) == r;
        assert r[0] == s[0] && r[1..] == r';
      }
    }
  }

  /**
   * The first element of each key, read left to right: an element joins the
   * end exactly when no earlier element has its key.
   */
  ghost function FirstOfEach<T, K>(s: seq<T>, key: T -> K): seq<T>
    decreases |s|
  {
    if s == [] then []
    else if key(s[|s| - 1]) in KeySet(s[..|s| - 1], key) then FirstOfEach(s[..|s| - 1], key)
    else FirstOfEach(s[..|s| - 1], key) + [s[|s| - 1]]
  }

  /** Appending one element to the input of `UniqByFrom` appends it to the result exactly when its key is new. */
  lemma {:induction false} UniqByFromSnoc<T, K>(s: seq<T>, x: T, key: T -> K, seen: set<K>)
    ensures UniqByFrom(s + [x], key, seen) ==
              if key(x) in KeySet(s, key) + seen then UniqByFrom(s, key, seen) else UniqByFrom(s, key, seen) + [x]
    decreases |s|
  {
    if s == [] {
      assert s + [x] == [x] && [x][1..] == [];
    } else {
      var sx := s + [x];
      assert sx[0] == s[0] && sx[1..] == s[1..] + [x];
      var seen' := if key(s[0]) in seen then seen else seen + {key(s[0])};
      UniqByFromSnoc(s[1..], x, key, seen');
      assert KeySet(s, key) + seen == KeySet(s[1..], key) + seen';
      if key(s[0]) !in seen {
        AppendAssoc([s[0]], UniqByFrom(s[1..], key, seen'), [x]);
      }
    }
  }

  /** `uniqBy` is the order-keeping subsequence of the first element of each key. */
  lemma {:induction false} UniqByIsFirstOfEach<T, K>(s: seq<T>, key: T -> K)
    ensures UniqBy(s, key) == FirstOfEach(s, key)
    decreases |s|
  {
    if s != [] {
      var init := s[..|s| - 1];
      assert s == init + [s[|s| - 1]];
      UniqByIsFirstOfEach(init, key);
      UniqByFromSnoc(init, s[|s| - 1], key, {});
      assert KeySet(init, key) + {} == KeySet(init, key);
    }
  }

  /** The first elements of each key in `a` come first, in order, among those of `a + b`. */
  lemma {:induction false} FirstOfEachPrefix<T, K>(a: seq<T>, b: seq<T>, key: T -> K)
    ensures FirstOfEach(a, key) <= FirstOfEach(a + b, key)
    decreases |b|
  {
    if b == [] {
      assert a + b == a;
    } else {
      var b' := b[..|b| - 1];
      FirstOfEachPrefix(a, b', key);
      AppendAssoc(a, b', [b[|b| - 1]]);
      assert b == b' + [b[|b| - 1]];
      var ab := a + b;
      assert ab[..|ab| - 1] == a + b' && ab[|ab| - 1] == b[|b| - 1];
    }
  }

  /** Where `CoversKeys` finds the key of element `i`. */
  lemma CoveringIndex<T, K>(s: seq<T>, r: seq<T>, key: T -> K, seen: set<K>, i: nat) returns (j: nat)
    requires CoversKeys(s, r, key, seen) && i < |s| && key(s[i]) !in seen
    ensures j < |r| && key(r[j]) == key(s[i])
  {
    j :| 0 <= j < |r| && key(r[j]) == key(s[i]);
  }

  /** `x` occurs in `s` no later than any element of `s` with the same key. */
  ghost predicate FirstOfKey<T, K>(s: seq<T>, key: T -> K, x: T) {
    x in s && forall i :: 0 <= i < |s| && key(s[i]) == key(x) ==> x in s[..i + 1]
  }

  ghost predicate FirstOccurrences<T, K>(s: seq<T>, r: seq<T>, key: T -> K) {
    forall x :: x in r ==> FirstOfKey(s, key, x)
  }

  /** Every element kept is the first of its key in the input. */
  lemma {:induction false} UniqByFromFirst<T, K>(s: seq<T>, key: T -> K, seen: set<K>)
    ensures FirstOccurrences(s, UniqByFrom(s, key, seen), key)
    decreases |s|
  {
    if s != [] {
      var r := UniqByFrom(s, key, seen);
      var seen' := if key(s[0]) in seen then seen else seen + {key(s[0])};
      UniqByFromFirst(s[1..], key, seen');
      var r' := UniqByFrom(s[1..], key, seen');
      assert r == (if key(s[0]) in seen then [] else [s[0]]) + r';
      forall x | x in r ensures FirstOfKey(s, key, x) {
        if x in r' {
          FirstOfKeyTail(s, key, x);
        } else {
          FirstOfKeyHead(s, key);
        }
      }
    }
  }

  lemma FirstOfKeyHead<T, K>(s: seq<T>, key: T -> K)
    requires s != []
    ensures FirstOfKey(s, key, s[0])
  {
    forall i | 0 <= i < |s| && key(s[i]) == key(s[0]) ensures s[0] in s[..i + 1] {
      assert s[..i + 1][0] == s[0];
    }
  }

  lemma FirstOfKeyTail<T, K>(s: seq<T>, key: T -> K, x: T)
    requires s != [] && FirstOfKey(s[1..], key, x) && key(x) != key(s[0])
    ensures FirstOfKey(s, key, x)
  {
    forall i | 0 <= i < |s| && key(s[i]) == key(x) ensures x in s[..i + 1] {
      FirstOfKeyTailAt(s, key, x, i);
    }
    var k :| 0 <= k < |s[1..]| && s[1..][k] == x;
    assert s[k + 1] == x;
  }

  lemma FirstOfKeyTailAt<T, K>(s: seq<T>, key: T -> K, x: T, i: nat)
    requires s != [] && FirstOfKey(s[1..], key, x) && key(x) != key(s[0])
    requires i < |s| && key(s[i]) == key(x)
    ensures x in s[..i + 1]
  {
    assert i > 0;
    assert s[i] == s[1..][i - 1];
    var t := s[1..][..i];
    assert x in t;
    var k :| 0 <= k < |t| && t[k] == x;
    assert s[..i + 1][k + 1] == t[k];
  }

  /** A prefix of a de-duplicated list is still de-duplicated and still made of first occurrences. */
  lemma PrefixKeepsShape<T, K>(s: seq<T>, u: seq<T>, n: nat, key: T -> K)
    requires n <= |u| && DistinctKeys(u, key) && FirstOccurrences(s, u, key)
    ensures DistinctKeys(u[..n], key) && FirstOccurrences(s, u[..n], key)
  {
    var v := u[..n];
    forall i, j | 0 <= i < j < |v| ensures key(v[i]) != key(v[j]) {
      assert v[i] == u[i] && v[j] == u[j];
    }
    assert forall x :: x in v ==> x in u;
  }

  function PostTitle(p: PostData): string { p.title }

  /** `consolidatePosts`: the lists joined, the first post of each title kept, at most 25. */
  function ConsolidatePosts(first: seq<PostData>, second: seq<PostData>): (r: seq<PostData>)
    ensures |r| <= ConsolidateCap && |r| <= |first| + |second|
    ensures forall x :: x in r ==> x in first + second
    ensures var u := FirstOfEach(first + second, PostTitle);
      |r| == (if |u| <= ConsolidateCap then |u| else ConsolidateCap) && r == u[..|r|]
  {
    UniqByIsFirstOfEach(first + second, PostTitle);
    var u := UniqBy(first + second, PostTitle);
    if |u| <= ConsolidateCap then u else u[..ConsolidateCap]
  }

  /** The first list's posts, one per title, lead the consolidated list in their own order. */
  lemma ConsolidateFollowerFirst(first: seq<PostData>, second: seq<PostData>)
    ensures var r := ConsolidatePosts(first, second); var f := FirstOfEach(first, PostTitle);
      forall i :: 0 <= i < |r| && i < |f| ==> r[i] == f[i]
  {
    FirstOfEachPrefix(first, second, PostTitle);
  }

  /**
   * No two consolidated posts share a title, each is the first post of its
   * title in the joined lists, and when fewer than 25 titles were kept every
   * title of either list is represented.
   */
  lemma ConsolidateShape(first: seq<PostData>, second: seq<PostData>)
    ensures var r := ConsolidatePosts(first, second);
      && DistinctKeys(r, PostTitle)
      && FirstOccurrences(first + second, r, PostTitle)
      && (|r| < ConsolidateCap ==> CoversKeys(first + second, r, PostTitle, {}))
  {
    var s := first + second;
    UniqByFromDistinct(s, PostTitle, {});
    UniqByFromFirst(s, PostTitle, {});
    UniqByFromComplete(s, PostTitle, {});
    var u := UniqBy(s, PostTitle);
    if |u| > ConsolidateCap {
      PrefixKeepsShape(s, u, ConsolidateCap, PostTitle);
    }
  }

  // ---------------------------------------------------------------- parts and photos

  datatype PartDoc = PartDoc(
    brand: Option<string>, name: Option<string>,
    vehicle_year: Option<string>, vehicle_make: Option<string>, vehicle_model: Option<string>)

  datatype PartData = PartData(name: string, vehicle_name: string)

  function NormalizePart(p: PartDoc): PartData {
    PartData(Show(p.brand) + " " + Show(p.name),
             Show(p.vehicle_year) + " " + Show(p.vehicle_make) + " " + Show(p.vehicle_model))
  }

  /** `normalizeParts`: one entry per part, in order. */
  function NormalizeParts(parts: seq<PartDoc>): (r: seq<PartData>)
    ensures |r| == |parts|
    ensures forall i :: 0 <= i < |parts| ==> r[i] == NormalizePart(parts[i])
  {
    seq(|parts|, i requires 0 <= i < |parts| => NormalizePart(parts[i]))
  }

  datatype Poster = Poster(profile_name: Option<string>)
  datatype PhotoVehicle = PhotoVehicle(poster: Option<Poster>, vehicle_url_id: Option<string>, slug: Option<string>)

  /** An image document with its populated vehicles. */
  datatype PhotoDoc = PhotoDoc(id: string, image: Image, created: string, vehicles: seq<PhotoVehicle>)

  datatype PhotoData = PhotoData(photo: string, creation_timestamp: string, photo_url: Option<string>)

  function NormalizePhoto(d: PhotoDoc): PhotoData {
    var photo := if Thumb(d.image) != "" then Thumb(d.image) else Medium(d.image);
    var url :=
      if |d.vehicles| > 0 && d.vehicles[0].poster.Some? then
        var v := d.vehicles[0];
        Some(BaseUrl + "/" + Show(v.poster.value.profile_name) + "/" + Show(v.vehicle_url_id) + "/" + Show(v.slug) + "?photo_id=" + d.id)
      else None;
    PhotoData(photo, d.created, url)
  }

  /**
   * The photo is always the thumbnail (a CDN URL is never empty, so the
   * medium fallback never applies), and it links to the first vehicle
   * exactly when that vehicle has a poster.
   */
  lemma NormalizePhotoShape(d: PhotoDoc)
    ensures NormalizePhoto(d).photo == Thumb(d.image)
    ensures UrlKey(NormalizePhoto(d).photo) == Some(d.image.thumb_key)
    ensures NormalizePhoto(d).photo_url.Some? <==> |d.vehicles| > 0 && d.vehicles[0].poster.Some?
  {
    assert |Thumb(d.image)| >= |CDN| > 0;
  }

  /** `normalizePhotos`: one entry per image, in order. */
  function NormalizePhotos(photos: seq<PhotoDoc>): (r: seq<PhotoData>)
    ensures |r| == |photos|
    ensures forall i :: 0 <= i < |photos| ==> r[i] == NormalizePhoto(photos[i])
  {
    seq(|photos|, i requires 0 <= i < |photos| => NormalizePhoto(photos[i]))
  }

  // ---------------------------------------------------------------- users

  datatype NormalizedUser = NormalizedUser(
    name: string,
    first_name: Option<string>,
    last_name: Option<string>,
    alias_name: string,
    alias_slug: string,
    location: Option<string>,
    mod_score: Option<int>,
    follower_count: Option<int>,
    profile_name: Option<string>,
    url: string,
    account_url: string,
    birthdate: Option<string>,
    email: Option<string>,
    photo: string)

  /** The e-mail address: the local username, else the Facebook e-mail, else `null`. */
  function UserEmail(u: User): (e: Option<string>)
    ensures u.local.Some? && Truthy(u.local.value.username) ==> e == u.local.value.username
    ensures !(u.local.Some? && Truthy(u.local.value.username)) && u.facebook.Some? && Truthy(u.facebook.value.email) ==>
              e == u.facebook.value.email
    ensures e.None? <==> !(u.local.Some? && Truthy(u.local.value.username)) && !(u.facebook.Some? && Truthy(u.facebook.value.email))
    ensures e.Some? ==> e.value != ""
  {
    if u.local.Some? && Truthy(u.local.value.username) then u.local.value.username
    else if u.facebook.Some? && Truthy(u.facebook.value.email) then u.facebook.value.email
    else None
  }

  /** The avatar: the primary image's medium URL, else the Facebook picture, else the no-photo image. */
  function UserPhoto(u: User): (url: string)
    ensures u.primary_image.Some? ==> url == Medium(u.primary_image.value)
    ensures u.primary_image.None? && u.facebook.Some? && Truthy(u.facebook.value.id) ==>
              url == NotificationRender.FacebookPhoto(u.facebook.value.id)
    ensures u.primary_image.None? && !(u.facebook.Some? && Truthy(u.facebook.value.id)) ==> url == NotificationRender.NoPhoto
  {
    if u.primary_image.Some? then
      var img := u.primary_image.value;
      var m, t := Medium(img), Thumb(img);
      assert |m| >= |CDN| > 0;
      if m != "" then m else t
    else if u.facebook.Some? && Truthy(u.facebook.value.id) then NotificationRender.FacebookPhoto(u.facebook.value.id)
    else NotificationRender.NoPhoto
  }

  /** `normalizeUser`: `null` for no user, otherwise the digest's view of the user. */
  function NormalizeUser(data: Option<User>): (r: Option<NormalizedUser>)
    ensures r.None? <==> data.None?
    ensures r.Some? ==> r.value.email == UserEmail(data.value) && r.value.photo == UserPhoto(data.value)
    ensures r.Some? ==> r.value.url == BaseUrl + "/" + Show(data.value.profile_name)
    ensures r.Some? ==> r.value.account_url == BaseUrl + "/profile/" + data.value.id + "/account"
    ensures r.Some? && Truthy(data.value.name) ==> r.value.name == data.value.name.value
    ensures r.Some? && !Truthy(data.value.name) ==> r.value.name == Show(data.value.first_name) + " " + Show(data.value.last_name)
  {
    if data.None? then None
    else
      var u := data.value;
      Some(NormalizedUser(
        if Truthy(u.name) then u.name.value else Show(u.first_name) + " " + Show(u.last_name),
        u.first_name, u.last_name,
        if Truthy(u.alias_name) then u.alias_name.value else "",
        if Truthy(u.alias_slug) then u.alias_slug.value else "",
        if u.location.Some? then Or(u.location.value.manual_entry, u.location.value.name) else Some(""),
        u.mod_score, u.follower_count, u.profile_name,
        BaseUrl + "/" + Show(u.profile_name),
        BaseUrl + "/profile/" + u.id + "/account",
        u.birthdate, UserEmail(u), UserPhoto(u)))
  }

  /**
   * A follow connection: `follower` is the populated `connection[0].object_id`
   * (`None` when the user is gone), `followed` whether `connection[1].object_id` is set.
   */
  datatype ConnectionDoc = ConnectionDoc(follower: Option<User>, followed: bool)

  function FollowerName(c: ConnectionDoc): Option<string> {
    if c.follower.Some? then c.follower.value.profile_name else None
  }

  function WithBothEnds(cons: seq<ConnectionDoc>): (r: seq<ConnectionDoc>)
    ensures |r| <= |cons|
    ensures forall c :: c in r <==> c in cons && c.follower.Some? && c.followed
  {
    if cons == [] then []
    else if cons[0].follower.Some? && cons[0].followed then [cons[0]] + WithBothEnds(cons[1..])
    else WithBothEnds(cons[1..])
  }

  /**
   * `normalizeConnectionUsers`: the followers of complete connections, one
   * per profile name (the first), normalized.
   */
  function NormalizeConnectionUsers(cons: seq<ConnectionDoc>): (r: seq<NormalizedUser>)
    ensures |r| <= |cons|
    ensures forall u :: u in r ==> exists c :: c in cons && c.follower.Some? && c.followed && Some(u) == NormalizeUser(c.follower)
  {
    var complete := WithBothEnds(cons);
    var unique := UniqBy(complete, FollowerName);
    assert forall c :: c in unique ==> c in complete;
    seq(|unique|, i requires 0 <= i < |unique| => NormalizeUser(unique[i].follower).value)
  }

  /** No two normalized followers share a profile name. */
  lemma ConnectionUsersDistinct(cons: seq<ConnectionDoc>)
    ensures var r := NormalizeConnectionUsers(cons);
      forall i, j :: 0 <= i < j < |r| ==> r[i].profile_name != r[j].profile_name
  {
    var complete := WithBothEnds(cons);
    var unique := UniqBy(complete, FollowerName);
    UniqByFromDistinct(complete, FollowerName, {});
    assert DistinctKeys(unique, FollowerName);
    var r := NormalizeConnectionUsers(cons);
    forall i | 0 <= i < |r| ensures r[i].profile_name == FollowerName(unique[i]) {
      assert unique[i] in complete;
    }
  }

  /** Every complete connection's follower is listed: some normalized follower carries its profile name. */
  lemma ConnectionUsersComplete(cons: seq<ConnectionDoc>)
    ensures var r := NormalizeConnectionUsers(cons);
      forall c :: c in cons && c.follower.Some? && c.followed ==>
        exists i :: 0 <= i < |r| && r[i].profile_name == c.follower.value.profile_name
  {
    forall c | c in cons && c.follower.Some? && c.followed
      ensures exists i :: 0 <= i < |NormalizeConnectionUsers(cons)| &&
                NormalizeConnectionUsers(cons)[i].profile_name == c.follower.value.profile_name
    {
      var i := ConnectionUserIndex(cons, c);
    }
  }

  /** Where the follower of a complete connection is listed. */
  lemma ConnectionUserIndex(cons: seq<ConnectionDoc>, c: ConnectionDoc) returns (i: nat)
    requires c in cons && c.follower.Some? && c.followed
    ensures i < |NormalizeConnectionUsers(cons)|
    ensures NormalizeConnectionUsers(cons)[i].profile_name == c.follower.value.profile_name
  {
    var complete := WithBothEnds(cons);
    var unique := UniqBy(complete, FollowerName);
    UniqByFromComplete(complete, FollowerName, {});
    assert c in complete;
    var k :| 0 <= k < |complete| && complete[k] == c;
    i := CoveringIndex(complete, unique, FollowerName, {}, k);
    ConnectionUserAt(cons, i);
  }

  /** The `j`-th listed follower is the follower of the `j`-th connection kept by `uniqBy`. */
  lemma ConnectionUserAt(cons: seq<ConnectionDoc>, j: nat)
    requires j < |UniqBy(WithBothEnds(cons), FollowerName)|
    ensures j < |NormalizeConnectionUsers(cons)|
    ensures NormalizeConnectionUsers(cons)[j].profile_name == FollowerName(UniqBy(WithBothEnds(cons), FollowerName)[j])
  {
    var unique := UniqBy(WithBothEnds(cons), FollowerName);
    assert unique[j] in WithBothEnds(cons);
  }
}
