/**
 * `getImageUrl` of src/helpers.js: picks the URL of one size of a media
 * object, reading the two shapes media objects have had (`sizes[slug].url`
 * and `media_details.sizes[slug].source_url`) and falling back to `url`.
 */
module Helpers {
  import opened Js

  /** An entry of the older shape, `media.sizes[slug]`. */
  datatype SizeEntry = SizeEntry(url: Option<string>)

  /** An entry of the newer shape, `media.media_details.sizes[slug]`. */
  datatype DetailSize = DetailSize(sourceUrl: Option<string>)

  /** `media.media_details`; its `sizes` table may itself be missing. */
  datatype MediaDetails = MediaDetails(sizes: Option<map<string, DetailSize>>)

  /**
   * The fields of a media object the blocks read. `mediaType` is the REST
   * field `media_type`, `kind` the media-library field `type`.
   */
  datatype Media = Media(
    url: Option<string>,
    id: Option<int>,
    mediaType: Option<string>,
    kind: Option<string>,
    sizes: Option<map<string, SizeEntry>>,
    mediaDetails: Option<MediaDetails>)

  /** A URL, null (after a warning), or the TypeError JavaScript raises. */
  datatype ImageUrl = Found(url: string) | NotFound | Thrown

  /** `media.media_details.sizes[slug]` reads a property of undefined. */
  predicate ReadsMissingSizes(media: Media) {
    media.mediaDetails.Some? && media.mediaDetails.value.sizes.None?
  }

  predicate HasLegacySize(media: Media, slug: string) {
    media.sizes.Some? && slug in media.sizes.value
  }

  predicate HasDetailSize(media: Media, slug: string) {
    media.mediaDetails.Some? && media.mediaDetails.value.sizes.Some?
    && slug in media.mediaDetails.value.sizes.value
  }

  /**
   * The size-specific candidate: the newer entry's `source_url` whenever that
   * entry exists, even when it has none; otherwise the older entry's `url`.
   */
  function SizedUrl(media: Media, slug: string): Option<string> {
    if HasDetailSize(media, slug) then media.mediaDetails.value.sizes.value[slug].sourceUrl
    else if HasLegacySize(media, slug) then media.sizes.value[slug].url
    else None
  }

  /** The outcome when nothing throws: the sized URL if truthy, else `media.url` if truthy, else null. */
  function Resolved(media: Media, slug: string): ImageUrl {
    if OptTruthy(SizedUrl(media, slug)) then Found(SizedUrl(media, slug).value)
    else if OptTruthy(media.url) then Found(media.url.value)
    else NotFound
  }

  /**
   * The media object is never null here: JavaScript reads `media.url` before
   * its null test, so a null media object could only throw, and the one
   * caller tests for it first.
   */
  method GetImageUrl(media: Media, sizeSlug: string) returns (r: ImageUrl)
    ensures r.Thrown? <==> ReadsMissingSizes(media)
    ensures !r.Thrown? ==> r == Resolved(media, sizeSlug)
    // the result is a non-empty string or null, and null only when every candidate is falsy
    ensures r.Found? ==> r.url != ""
    ensures r.NotFound? <==> !ReadsMissingSizes(media) && !OptTruthy(SizedUrl(media, sizeSlug)) && !OptTruthy(media.url)
    // a present newer entry with a URL wins over the older entry
    ensures HasDetailSize(media, sizeSlug) && OptTruthy(media.mediaDetails.value.sizes.value[sizeSlug].sourceUrl)
      ==> r == Found(media.mediaDetails.value.sizes.value[sizeSlug].sourceUrl.value)
    // a present newer entry without a URL discards the older entry's URL
    ensures HasDetailSize(media, sizeSlug) && !OptTruthy(media.mediaDetails.value.sizes.value[sizeSlug].sourceUrl)
      ==> r == (if OptTruthy(media.url) then Found(media.url.value) else NotFound)
    // with no newer entry, the older entry's URL is used when it is truthy
    ensures media.mediaDetails.None? && HasLegacySize(media, sizeSlug) && OptTruthy(media.sizes.value[sizeSlug].url)
      ==> r == Found(media.sizes.value[sizeSlug].url.value)
  {
    var url: Option<string> := None;
    if media.sizes.Some? && sizeSlug in media.sizes.value {
      url := media.sizes.value[sizeSlug].url;
    }
    if media.mediaDetails.Some? {
      var details := media.mediaDetails.value;
      if details.sizes.None? {
        return Thrown;
      }
      if sizeSlug in details.sizes.value {
        url := details.sizes.value[sizeSlug].sourceUrl;
      }
    }
    if !OptTruthy(url) {
      url := media.url;
    }
    if !OptTruthy(url) {
      return NotFound;
    }
    return Found(url.value);
  }
}
