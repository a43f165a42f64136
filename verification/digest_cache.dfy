/**
 * `_DATA_CACHE` of worker/cron-jobs/weekly-digest/weekly-digest-utility.js:
 * the site-wide lists of the digest (recent photos, recent posts, editorial
 * content) are fetched once and then served from the cache until
 * `clearDataCache` empties it. The database query is an input: its result,
 * or the error it rejects with.
 */
module DigestCache {
  import opened Wrappers
  import opened DigestNormalize

  class DataCache {
    var recent_photos: Option<seq<PhotoData>>
    var recent_posts: Option<seq<PostData>>
    var editorial_content: Option<seq<PostData>>

    predicate Empty()
      reads this
    {
      recent_photos.None? && recent_posts.None? && editorial_content.None?
    }

    /** `let _DATA_CACHE = {}` */
    constructor()
      ensures Empty()
    {
      recent_photos := None;
      recent_posts := None;
      editorial_content := None;
    }

    /** `clearDataCache`: every entry is forgotten. */
    method Clear()
      modifies this
      ensures Empty()
    {
      recent_photos := None;
      recent_posts := None;
      editorial_content := None;
    }

    /**
     * `getRecentPhotos`: a cached list is served as is, even an empty one;
     * otherwise the fetched images are normalized and cached. A failed query
     * rejects and leaves the cache alone.
     */
    method GetRecentPhotos(fetched: Result<seq<PhotoDoc>, string>) returns (r: Result<seq<PhotoData>, string>)
      modifies this
      ensures old(recent_photos).Some? ==> r == Success(old(recent_photos).value) && recent_photos == old(recent_photos)
      ensures old(recent_photos).None? && fetched.Failure? ==> r == Failure(fetched.error) && recent_photos.None?
      ensures old(recent_photos).None? && fetched.Success? ==>
                r == Success(NormalizePhotos(fetched.value)) && recent_photos == Some(r.value)
      ensures recent_posts == old(recent_posts) && editorial_content == old(editorial_content)
    {
      if recent_photos.Some? {
        return Success(recent_photos.value);
      }
      if fetched.Failure? {
        return Failure(fetched.error);
      }
      recent_photos := Some(NormalizePhotos(fetched.value));
      r := Success(recent_photos.value);
    }

    /**
     * `getRecentPosts`: as above; on a miss the fetched posts are reduced to
     * the first five Instagram posts followed by every other post, then
     * normalized.
     */
    method GetRecentPosts(fetched: Result<seq<Post>, string>) returns (r: Result<seq<PostData>, string>)
      modifies this
      ensures old(recent_posts).Some? ==> r == Success(old(recent_posts).value) && recent_posts == old(recent_posts)
      ensures old(recent_posts).None? && fetched.Failure? ==> r == Failure(fetched.error) && recent_posts.None?
      ensures old(recent_posts).None? && fetched.Success? ==>
                r == Success(NormalizePosts(RecentPostSelection(fetched.value))) && recent_posts == Some(r.value)
      ensures recent_photos == old(recent_photos) && editorial_content == old(editorial_content)
    {
      if recent_posts.Some? {
        return Success(recent_posts.value);
      }
      if fetched.Failure? {
        return Failure(fetched.error);
      }
      recent_posts := Some(NormalizePosts(RecentPostSelection(fetched.value)));
      r := Success(recent_posts.value);
    }

    /** `getRecentEditorialContent`: as above, with the fetched posts normalized. */
    method GetRecentEditorialContent(fetched: Result<seq<Post>, string>) returns (r: Result<seq<PostData>, string>)
      modifies this
      ensures old(editorial_content).Some? ==> r == Success(old(editorial_content).value) && editorial_content == old(editorial_content)
      ensures old(editorial_content).None? && fetched.Failure? ==> r == Failure(fetched.error) && editorial_content.None?
      ensures old(editorial_content).None? && fetched.Success? ==>
                r == Success(NormalizePosts(fetched.value)) && editorial_content == Some(r.value)
      ensures recent_photos == old(recent_photos) && recent_posts == old(recent_posts)
    {
      if editorial_content.Some? {
        return Success(editorial_content.value);
      }
      if fetched.Failure? {
        return Failure(fetched.error);
      }
      editorial_content := Some(NormalizePosts(fetched.value));
      r := Success(editorial_content.value);
    }
  }

  /**
   * Two requests in a row see the same recent posts: after a successful
   * first fetch, the second request is served from the cache whatever its
   * own query would have returned.
   */
  method RecentPostsAreStable(cache: DataCache, first: Result<seq<Post>, string>, second: Result<seq<Post>, string>)
    returns (a: Result<seq<PostData>, string>, b: Result<seq<PostData>, string>)
    modifies cache
    ensures a.Success? ==> b == a
  {
    a := cache.GetRecentPosts(first);
    b := cache.GetRecentPosts(second);
  }
}
