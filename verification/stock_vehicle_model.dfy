/**
 * The StockVehicle document's `default_image` URL getters
 * (server/db/stock-vehicle/model.js): the S3 prefix plus the key when the key
 * is truthy, otherwise `null`. The virtuals are part of `toObject`/`toJSON`.
 */
module StockVehicleModel {
  import opened Wrappers
  import opened Js

  const S3: string := "https://wheelwell-stock-photos.s3.amazonaws.com/"

  /** `default_image` keys are all optional in the schema. */
  datatype DefaultImage = DefaultImage(large_key: Option<string>, medium_key: Option<string>, thumb_key: Option<string>)

  datatype StockVehicle = StockVehicle(make: string, model: string, year: string, trim: string, default_image: DefaultImage)

  /** The rule shared by the three getters. */
  function StockUrl(key: Option<string>): (url: Option<string>)
    ensures url.None? <==> !Truthy(key)
    ensures url.Some? ==>
              |url.value| == |S3| + |key.value| && url.value[..|S3|] == S3 && url.value[|S3|..] == key.value
  {
    if Truthy(key) then Some(S3 + key.value) else None
  }

  /** `default_image.large`. */
  function DefaultLarge(v: StockVehicle): (url: Option<string>)
    ensures url.None? <==> !Truthy(v.default_image.large_key)
    ensures url.Some? ==> |S3| <= |url.value| && url.value[..|S3|] == S3 && url.value[|S3|..] == v.default_image.large_key.value
  {
    StockUrl(v.default_image.large_key)
  }

  /** `default_image.medium`. */
  function DefaultMedium(v: StockVehicle): (url: Option<string>)
    ensures url.None? <==> !Truthy(v.default_image.medium_key)
    ensures url.Some? ==> |S3| <= |url.value| && url.value[..|S3|] == S3 && url.value[|S3|..] == v.default_image.medium_key.value
  {
    StockUrl(v.default_image.medium_key)
  }

  /** `default_image.thumb`. */
  function DefaultThumb(v: StockVehicle): (url: Option<string>)
    ensures url.None? <==> !Truthy(v.default_image.thumb_key)
    ensures url.Some? ==> |S3| <= |url.value| && url.value[..|S3|] == S3 && url.value[|S3|..] == v.default_image.thumb_key.value
  {
    StockUrl(v.default_image.thumb_key)
  }

  /** `default_image` as it appears in `toObject()`/`toJSON()`. */
  datatype DefaultImageObject = DefaultImageObject(
    large_key: Option<string>, medium_key: Option<string>, thumb_key: Option<string>,
    large: Option<string>, medium: Option<string>, thumb: Option<string>)

  /** Each virtual is present exactly when its key is truthy, and is then the S3 prefix followed by the key. */
  function DefaultImageToObject(v: StockVehicle): (o: DefaultImageObject)
    ensures o.large_key == v.default_image.large_key && o.medium_key == v.default_image.medium_key
      && o.thumb_key == v.default_image.thumb_key
    ensures o.large.Some? <==> Truthy(o.large_key)
    ensures o.medium.Some? <==> Truthy(o.medium_key)
    ensures o.thumb.Some? <==> Truthy(o.thumb_key)
    ensures o.large.Some? ==> o.large.value == S3 + o.large_key.value
    ensures o.medium.Some? ==> o.medium.value == S3 + o.medium_key.value
    ensures o.thumb.Some? ==> o.thumb.value == S3 + o.thumb_key.value
  {
    var d := v.default_image;
    DefaultImageObject(d.large_key, d.medium_key, d.thumb_key,
                       DefaultLarge(v), DefaultMedium(v), DefaultThumb(v))
  }
}
