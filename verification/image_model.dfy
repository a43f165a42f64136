/**
 * The Image document's URL getters (server/db/image/model.js). Each of the
 * three virtuals is the CloudFront prefix followed by the stored key; the
 * virtuals are part of `toObject`/`toJSON`, which is how the digest reads
 * `.thumb` and `.medium` from a populated image.
 */
module ImageModel {
  import opened Wrappers

  const CDN: string := "https://d1oglr07rm6q0i.cloudfront.net/"

  /** An image document; the three keys are required by the schema. */
  datatype Image = Image(id: string, large_key: string, medium_key: string, thumb_key: string)

  /** The URL of a stored key: it starts with the CDN prefix and ends with the key. */
  function KeyUrl(key: string): (url: string)
    ensures |url| == |CDN| + |key|
    ensures url[..|CDN|] == CDN && url[|CDN|..] == key
  {
    CDN + key
  }

  /** The key a CDN URL was built from (the inverse of `KeyUrl`). */
  function UrlKey(url: string): (key: Option<string>)
    ensures key.Some? <==> |CDN| <= |url| && url[..|CDN|] == CDN
  {
    if |CDN| <= |url| && url[..|CDN|] == CDN then Some(url[|CDN|..]) else None
  }

  /** The `large` virtual. */
  function Large(img: Image): (url: string)
    ensures UrlKey(url) == Some(img.large_key)
  {
    KeyUrl(img.large_key)
  }

  /** The `medium` virtual. */
  function Medium(img: Image): (url: string)
    ensures UrlKey(url) == Some(img.medium_key)
  {
    KeyUrl(img.medium_key)
  }

  /** The `thumb` virtual. */
  function Thumb(img: Image): (url: string)
    ensures UrlKey(url) == Some(img.thumb_key)
  {
    KeyUrl(img.thumb_key)
  }

  /** Two images have the same thumbnail URL exactly when they have the same thumbnail key. */
  lemma ThumbInjective(a: Image, b: Image)
    ensures Thumb(a) == Thumb(b) <==> a.thumb_key == b.thumb_key
  {
    if Thumb(a) == Thumb(b) {
      assert UrlKey(Thumb(a)) == UrlKey(Thumb(b));
    }
  }

  /** The plain object produced by `toObject()`/`toJSON()`, virtuals included. */
  datatype ImageObject = ImageObject(
    id: string, large_key: string, medium_key: string, thumb_key: string,
    large: string, medium: string, thumb: string)

  function ToObject(img: Image): (o: ImageObject)
    ensures o.id == img.id
    ensures UrlKey(o.large) == Some(o.large_key) && o.large_key == img.large_key
    ensures UrlKey(o.medium) == Some(o.medium_key) && o.medium_key == img.medium_key
    ensures UrlKey(o.thumb) == Some(o.thumb_key) && o.thumb_key == img.thumb_key
  {
    ImageObject(img.id, img.large_key, img.medium_key, img.thumb_key,
                Large(img), Medium(img), Thumb(img))
  }
}
