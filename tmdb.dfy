/**
 * Conventions of the movie metadata service shared by the search and the
 * detail views: the image base URL a poster path is appended to, and the
 * display year taken from a release date.
 */
module Tmdb {
  import opened Wrappers
  import Js

  /** Base URL and width segment of every poster image. */
  const ImageBase := "https://image.tmdb.org/t/p/w500"

  /** Host of the placeholder images that stand in for a missing poster. */
  const PlaceholderHost := "https://via.placeholder.com/"

  /** `date ? date.substring(0, 4) : 'N/A'`: the first four characters of a
      present, non-empty release date (all of it when shorter), else "N/A". */
  function Year(date: Option<string>): (r: string)
    ensures Js.Truthy(date) ==> r != "" && r <= date.value && |r| == Js.Min(4, |date.value|)
    ensures !Js.Truthy(date) ==> r == "N/A"
  {
    if Js.Truthy(date) then Js.Prefix(date.value, 4) else "N/A"
  }

  /** `path ? ImageBase + path : placeholder`. */
  function PosterUrl(path: Option<string>, placeholder: string): (r: string)
    ensures Js.Truthy(path) ==> ImageBase <= r && r[|ImageBase|..] == path.value
    ensures !Js.Truthy(path) ==> r == placeholder
  {
    if Js.Truthy(path) then ImageBase + path.value else placeholder
  }

  /** Recovers the poster path from a poster URL: the part after the image
      base, or `None` for any URL that is not an image-base URL. */
  function PosterPath(url: string): (p: Option<string>)
    ensures p.Some? ==> p.value != "" && url == ImageBase + p.value
  {
    if ImageBase <= url && |url| > |ImageBase| then Some(url[|ImageBase|..]) else None
  }

  /** A placeholder image URL is never an image-base URL, so the two cases
      of `PosterUrl` stay apart: the path can be read back from the URL,
      and the placeholder reads back as "no path". */
  lemma PosterRoundTrip(path: Option<string>, placeholder: string)
    requires PlaceholderHost <= placeholder
    ensures PosterPath(PosterUrl(path, placeholder)) == (if Js.Truthy(path) then path else None)
  {
    assert placeholder[8] == PlaceholderHost[8] != ImageBase[8];
    if Js.Truthy(path) {
      var url := ImageBase + path.value;
      assert url[|ImageBase|..] == path.value;
    }
  }
}
