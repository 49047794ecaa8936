/** Image URL sanitising: picking a usable image URL from what a product
    record holds, with a size-dependent placeholder as the fallback. Whether
    the platform's URL parser accepts a string is the parameter `parses`. */
module ImageService {
  import opened Wrappers
  import opened Text
  import opened Seqs

  const PlaceholderSmall := "assets/images/svg/placeholder-small.svg"
  const PlaceholderMedium := "assets/images/svg/placeholder-medium.svg"
  const PlaceholderLarge := "assets/images/svg/placeholder-large.svg"
  const LoadingImage := "assets/images/svg/loading.svg"
  const ErrorImage := "assets/images/svg/error.svg"

  /** The `url` argument: absent (`null` or `undefined`), one string, or a list. */
  datatype ImageSource = Missing | Single(url: string) | Many(urls: seq<string>)

  /** `getPlaceholder(size)`: the placeholder of a known size, the medium one
      for an absent or unknown size. */
  function Placeholder(size: Option<string>): (r: string)
    ensures size == Some("small") ==> r == PlaceholderSmall
    ensures size == Some("large") ==> r == PlaceholderLarge
    ensures size != Some("small") && size != Some("large") ==> r == PlaceholderMedium
  {
    match size
    case Some(s) =>
      if s == "small" then PlaceholderSmall
      else if s == "medium" then PlaceholderMedium
      else if s == "large" then PlaceholderLarge
      else PlaceholderMedium
    case None => PlaceholderMedium
  }

  /** A string that is a data URL or a bundled asset. */
  predicate IsInline(s: string) {
    StartsWith(s, "data:image") || StartsWith(s, "assets/")
  }

  /** A relative path, accepted when the URL parser refuses the string. */
  predicate IsRelative(s: string) {
    StartsWith(s, "/") || StartsWith(s, "./") || StartsWith(s, "../")
  }

  /** `isValidImageUrl`, on the trimmed string: empty strings and ones starting
      with `null` or `undefined` are refused, data URLs and assets accepted,
      anything else accepted when it parses as a URL or is a relative path. */
  function IsValidImageUrl(url: string, parses: string -> bool): (r: bool)
    ensures r <==> var t := Trim(url);
      t != "" && !StartsWith(t, "null") && !StartsWith(t, "undefined") && (IsInline(t) || parses(t) || IsRelative(t))
  {
    if url == "" then false
    else
      var t := Trim(url);
      if t == "" || t == "null" || t == "undefined" || StartsWith(t, "undefined") || StartsWith(t, "null") then false
      else if IsInline(t) then true
      else if parses(t) then true
      else IsRelative(t)
  }

  /** A string the URL parser refuses is accepted only as an inline or
      relative path. */
  lemma UnparsableNeedsPrefix(url: string, parses: string -> bool)
    requires !parses(Trim(url)) && IsValidImageUrl(url, parses)
    ensures IsInline(Trim(url)) || IsRelative(Trim(url))
  {
  }

  /** `urls.find(isValidImageUrl)`: the first acceptable entry. */
  function FirstValid(urls: seq<string>, parses: string -> bool): (r: Option<string>)
    ensures r.None? <==> forall i :: 0 <= i < |urls| ==> !IsValidImageUrl(urls[i], parses)
    ensures r.Some? ==> exists i :: (0 <= i < |urls| && urls[i] == r.value && IsValidImageUrl(urls[i], parses) &&
      forall j :: 0 <= j < i ==> !IsValidImageUrl(urls[j], parses))
  {
    match FindFrom((u: string) => IsValidImageUrl(u, parses), urls, 0)
    case None => None
    case Some(k) => Some(urls[k])
  }

  /** What to show instead of a missing or refused image. */
  function Fallback(size: Option<string>, usePlaceholder: bool): (r: string)
    ensures usePlaceholder ==> r == Placeholder(size)
    ensures !usePlaceholder ==> r == ""
  {
    if usePlaceholder then Placeholder(size) else ""
  }

  /** `getSafeImageUrl(url, {size, usePlaceholder})`. */
  function SafeImageUrl(url: ImageSource, size: Option<string>, usePlaceholder: bool, parses: string -> bool): (r: string)
    ensures url.Missing? || url == Single("") ==> r == Fallback(size, usePlaceholder)
    ensures url.Many? ==> r == (match FirstValid(url.urls, parses)
      case Some(u) => u
      case None => Fallback(size, usePlaceholder))
    ensures url.Single? && IsInline(url.url) ==> r == url.url
    ensures url.Single? && url.url != "" && !IsInline(url.url) ==>
      r == if IsValidImageUrl(url.url, parses) then url.url else Fallback(size, usePlaceholder)
  {
    match url
    case Missing => Fallback(size, usePlaceholder)
    case Many(urls) =>
      (match FirstValid(urls, parses)
       case Some(u) => u
       case None => Fallback(size, usePlaceholder))
    case Single(s) =>
      if s == "" then Fallback(size, usePlaceholder)
      else if IsInline(s) then s
      else if IsValidImageUrl(s, parses) then s
      else Fallback(size, usePlaceholder)
  }

  /** The result is always the input string untouched, one of the listed
      strings, a placeholder path, or empty; and it is empty only when the
      placeholder was turned off. */
  lemma SafeImageUrlOrigin(url: ImageSource, size: Option<string>, usePlaceholder: bool, parses: string -> bool)
    ensures var r := SafeImageUrl(url, size, usePlaceholder, parses);
      (url.Single? && r == url.url) || (url.Many? && r in url.urls) ||
      r == PlaceholderSmall || r == PlaceholderMedium || r == PlaceholderLarge || r == ""
    ensures SafeImageUrl(url, size, usePlaceholder, parses) == "" ==> !usePlaceholder
  {
    var r := SafeImageUrl(url, size, usePlaceholder, parses);
    if url.Many? {
      var f := FirstValid(url.urls, parses);
      if f.Some? {
        var k :| 0 <= k < |url.urls| && url.urls[k] == f.value && IsValidImageUrl(url.urls[k], parses) &&
          forall j :: 0 <= j < k ==> !IsValidImageUrl(url.urls[j], parses);
        assert Trim(f.value) != "";
      }
    }
  }

  /** `checkImageAvailability`: refused URLs are unavailable, assets always
      available, anything else as the `fetch` probe (`reachable`) says. */
  function ImageAvailable(url: string, parses: string -> bool, reachable: bool): (r: bool)
    ensures !IsValidImageUrl(url, parses) ==> !r
    ensures IsValidImageUrl(url, parses) && StartsWith(url, "assets/") ==> r
    ensures IsValidImageUrl(url, parses) && !StartsWith(url, "assets/") ==> r == reachable
  {
    if !IsValidImageUrl(url, parses) then false
    else if StartsWith(url, "assets/") then true
    else reachable
  }
}
