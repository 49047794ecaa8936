/** The safe image component: it shows a safe URL for its `src`, probes an
    external URL with a detached image element and falls back to the error
    image on failure or after a timeout. Each probe element gets a fresh
    handle; its load, error and timeout callbacks act only while that handle
    is still the component's current element. */
module SafeImage {
  import opened Wrappers
  import opened Text
  import opened ImageService

  /** The prefixes of URLs shown without a probe. */
  const LocalPrefixes: seq<string> := ["data:image", "assets/", "blob:"]

  /** `isExternalUrl`. */
  predicate IsExternalUrl(url: string) {
    !StartsWith(url, "data:image") && !StartsWith(url, "assets/") && !StartsWith(url, "blob:")
  }

  /** A URL is external exactly when it starts with none of the local prefixes. */
  lemma ExternalIffNoLocalPrefix(url: string)
    ensures !IsExternalUrl(url) <==> exists k :: 0 <= k < |LocalPrefixes| && StartsWith(url, LocalPrefixes[k])
  {
    assert LocalPrefixes[0] == "data:image" && LocalPrefixes[1] == "assets/" && LocalPrefixes[2] == "blob:";
  }

  /** The component's `imageLoaded` and `imageError` outputs. */
  datatype Emitted = Loaded(url: string) | Failed(url: string)

  /** The component's display state. `element` is the handle of the current
      probe element (`None` for `null`), `elementUrl` the URL it probes, and
      `nextElement` the handle the next probe element will get. */
  datatype View = View(
    currentImage: string,
    isLoading: bool,
    hasError: bool,
    errorImage: string,
    element: Option<nat>,
    elementUrl: string,
    nextElement: nat,
    events: seq<Emitted>)

  /** Handles already given out are below `nextElement`. */
  predicate Fresh(v: View) {
    v.element.Some? ==> v.element.value < v.nextElement
  }

  /** An error is shown with the error image and ends loading. */
  predicate ErrorShown(v: View) {
    v.hasError ==> !v.isLoading && v.currentImage == v.errorImage
  }

  /** `handleError`. */
  function Fail(v: View): (r: View)
    ensures r.hasError && !r.isLoading && r.currentImage == v.errorImage
    ensures r.events == v.events + [Failed(v.errorImage)]
    ensures r.element == v.element && r.nextElement == v.nextElement && r.errorImage == v.errorImage
  {
    v.(hasError := true, isLoading := false, currentImage := v.errorImage, events := v.events + [Failed(v.errorImage)])
  }

  /** `loadImage` for the safe URL, as written: a local URL is shown at once
      but the previous probe element stays current. */
  function LoadAsWritten(v: View, safeUrl: string): (r: View)
    ensures r.currentImage == safeUrl && !r.hasError && r.events == v.events && r.errorImage == v.errorImage
    ensures IsExternalUrl(safeUrl) ==> (r.isLoading && r.element == Some(v.nextElement) &&
      r.elementUrl == safeUrl && r.nextElement == v.nextElement + 1)
    ensures !IsExternalUrl(safeUrl) ==> (!r.isLoading && r.element == v.element &&
      r.elementUrl == v.elementUrl && r.nextElement == v.nextElement)
  {
    var started := v.(isLoading := true, hasError := false, currentImage := safeUrl);
    if IsExternalUrl(safeUrl) then
      started.(element := Some(v.nextElement), elementUrl := safeUrl, nextElement := v.nextElement + 1)
    else started.(isLoading := false)
  }

  /** `loadImage` with a local URL also dropping the previous probe element,
      so that every load supersedes all earlier probes. */
  function Load(v: View, safeUrl: string): (r: View)
    ensures r.currentImage == safeUrl && !r.hasError && r.events == v.events && r.errorImage == v.errorImage
    ensures IsExternalUrl(safeUrl) ==> (r.isLoading && r.element == Some(v.nextElement) &&
      r.elementUrl == safeUrl && r.nextElement == v.nextElement + 1)
    ensures !IsExternalUrl(safeUrl) ==> (!r.isLoading && r.element.None? && r.nextElement == v.nextElement)
  {
    var started := v.(isLoading := true, hasError := false, currentImage := safeUrl);
    if IsExternalUrl(safeUrl) then
      started.(element := Some(v.nextElement), elementUrl := safeUrl, nextElement := v.nextElement + 1)
    else started.(isLoading := false, element := None)
  }

  /** The two loads differ only in the probe element a local URL leaves current. */
  lemma LoadsDifferOnlyInElement(v: View, url: string)
    ensures IsExternalUrl(url) ==> Load(v, url) == LoadAsWritten(v, url)
    ensures !IsExternalUrl(url) ==> Load(v, url) == LoadAsWritten(v, url).(element := None)
  {
  }

  /** The probe element `h` loaded. */
  function ElementLoaded(v: View, h: nat): (r: View)
    ensures v.element != Some(h) ==> r == v
    ensures v.element == Some(h) ==> r == v.(isLoading := false, hasError := false, events := v.events + [Loaded(v.elementUrl)])
  {
    if v.element == Some(h) then v.(isLoading := false, hasError := false, events := v.events + [Loaded(v.elementUrl)])
    else v
  }

  /** The probe element `h` failed. */
  function ElementFailed(v: View, h: nat): (r: View)
    ensures v.element != Some(h) ==> r == v
    ensures v.element == Some(h) ==> r == Fail(v)
  {
    if v.element == Some(h) then Fail(v) else v
  }

  /** The 10-second timer of probe element `h` fired: an error only if that
      element is current and the image is still loading. */
  function TimedOut(v: View, h: nat): (r: View)
    ensures !(v.element == Some(h) && v.isLoading) ==> r == v
    ensures v.element == Some(h) && v.isLoading ==> r == Fail(v)
  {
    if v.element == Some(h) && v.isLoading then Fail(v) else v
  }

  /** The shown `<img>` loaded (`onImageLoad`): counted only for an external image. */
  function ShownLoaded(v: View): (r: View)
    ensures IsExternalUrl(v.currentImage) ==> r == v.(isLoading := false, events := v.events + [Loaded(v.currentImage)])
    ensures !IsExternalUrl(v.currentImage) ==> r == v
  {
    if IsExternalUrl(v.currentImage) then v.(isLoading := false, events := v.events + [Loaded(v.currentImage)]) else v
  }

  /** The shown `<img>` failed (`onImageError`): an error only for an external image. */
  function ShownFailed(v: View): (r: View)
    ensures IsExternalUrl(v.currentImage) ==> r == Fail(v)
    ensures !IsExternalUrl(v.currentImage) ==> r == v
  {
    if IsExternalUrl(v.currentImage) then Fail(v) else v
  }

  /** Every step keeps handles fresh and an error shown with the error image. */
  lemma StepsKeepInvariants(v: View, url: string, h: nat)
    requires Fresh(v) && ErrorShown(v)
    ensures Fresh(Load(v, url)) && ErrorShown(Load(v, url))
    ensures Fresh(ElementLoaded(v, h)) && ErrorShown(ElementLoaded(v, h))
    ensures Fresh(ElementFailed(v, h)) && ErrorShown(ElementFailed(v, h))
    ensures Fresh(TimedOut(v, h)) && ErrorShown(TimedOut(v, h))
    ensures Fresh(ShownLoaded(v)) && ErrorShown(ShownLoaded(v))
    ensures Fresh(ShownFailed(v)) && ErrorShown(ShownFailed(v))
  {
  }

  /** After a load, no callback of an element created before it changes anything. */
  lemma LoadSupersedesEarlierElements(v: View, url: string, h: nat)
    requires Fresh(v) && h < v.nextElement
    ensures var w := Load(v, url);
      ElementLoaded(w, h) == w && ElementFailed(w, h) == w && TimedOut(w, h) == w
  {
  }

  /** As written, switching from an external URL still being probed to a
      local one leaves the probe current: its later error replaces the local
      image with the error image. */
  lemma LoadAsWrittenKeepsStaleProbe()
    ensures var v0 := View("", true, false, ErrorImage, None, "", 0, []);
      var v1 := LoadAsWritten(v0, "http://a/b");
      var v2 := LoadAsWritten(v1, "assets/b");
      var v3 := ElementFailed(v2, 0);
      v2.currentImage == "assets/b" && !v2.isLoading && !v2.hasError &&
      v3.hasError && v3.currentImage == ErrorImage && v3.currentImage != v2.currentImage
  {
    var v0 := View("", true, false, ErrorImage, None, "", 0, []);
    assert StartsWith("assets/b", "assets/");
    assert !IsExternalUrl("assets/b");
    assert "http://a/b"[0] == 'h';
    assert IsExternalUrl("http://a/b");
    var v1 := LoadAsWritten(v0, "http://a/b");
    assert v1.element == Some(0);
    var v2 := LoadAsWritten(v1, "assets/b");
    assert v2.element == Some(0);
    assert ErrorImage != "assets/b" by {
      assert |"assets/b"| == 8;
    }
  }

  class SafeImageComponent {
    var src: ImageSource
    /** `options.size` and `options.lazy`; either may be absent. */
    var size: Option<string>
    var lazy: Option<bool>
    /** Whether the URL parser accepts a string (used by the image service). */
    const parses: string -> bool
    var currentImage: string
    var isLoading: bool
    var hasError: bool
    var loadingImage: string
    var errorImage: string
    var element: Option<nat>
    var elementUrl: string
    var nextElement: nat
    var events: seq<Emitted>

    constructor (src: ImageSource, size: Option<string>, lazy: Option<bool>, parses: string -> bool)
      ensures this.src == src && this.size == size && this.lazy == lazy && this.parses == parses
      ensures Snapshot() == View("", true, false, "", None, "", 0, []) && loadingImage == ""
    {
      this.src := src;
      this.size := size;
      this.lazy := lazy;
      this.parses := parses;
      currentImage := "";
      isLoading := true;
      hasError := false;
      loadingImage := "";
      errorImage := "";
      element := None;
      elementUrl := "";
      nextElement := 0;
      events := [];
    }

    function Snapshot(): View
      reads this
    {
      View(currentImage, isLoading, hasError, errorImage, element, elementUrl, nextElement, events)
    }

    /** Shows the safe URL for `src` (placeholder on), probing it when external. */
    method LoadImage()
      modifies this
      ensures Snapshot() == Load(old(Snapshot()), SafeImageUrl(src, size, true, parses))
      ensures src == old(src) && size == old(size) && lazy == old(lazy) && loadingImage == old(loadingImage)
    {
      Show(SafeImageUrl(src, size, true, parses));
    }

    /** The display update of `loadImage` for an already sanitised URL. */
    method Show(safeUrl: string)
      modifies this
      ensures Snapshot() == Load(old(Snapshot()), safeUrl)
      ensures src == old(src) && size == old(size) && lazy == old(lazy) && loadingImage == old(loadingImage)
    {
      isLoading := true;
      hasError := false;
      currentImage := safeUrl;
      if IsExternalUrl(safeUrl) {
        element := Some(nextElement);
        elementUrl := safeUrl;
        nextElement := nextElement + 1;
      } else {
        isLoading := false;
        element := None;
      }
    }

    method NgOnInit()
      modifies this
      ensures loadingImage == LoadingImage && errorImage == ErrorImage
      ensures Snapshot() == Load(old(Snapshot()).(errorImage := ErrorImage), SafeImageUrl(src, size, true, parses))
      ensures src == old(src) && size == old(size) && lazy == old(lazy)
    {
      loadingImage := LoadingImage;
      errorImage := ErrorImage;
      LoadImage();
    }

    /** A new `src` arrives; only a change after the first one reloads. */
    method OnSrcChange(newSrc: ImageSource, firstChange: bool)
      modifies this
      ensures src == newSrc && size == old(size) && lazy == old(lazy) && loadingImage == old(loadingImage)
      ensures firstChange ==> Snapshot() == old(Snapshot())
      ensures !firstChange ==> Snapshot() == Load(old(Snapshot()), SafeImageUrl(newSrc, size, true, parses))
    {
      src := newSrc;
      if !firstChange {
        LoadImage();
      }
    }

    method HandleError()
      modifies this
      ensures Snapshot() == Fail(old(Snapshot()))
      ensures src == old(src) && size == old(size) && lazy == old(lazy) && loadingImage == old(loadingImage)
    {
      hasError := true;
      isLoading := false;
      currentImage := errorImage;
      events := events + [Failed(currentImage)];
    }

    /** The `onload` callback of probe element `h`. */
    method OnElementLoad(h: nat)
      modifies this
      ensures Snapshot() == ElementLoaded(old(Snapshot()), h)
      ensures src == old(src) && size == old(size) && lazy == old(lazy) && loadingImage == old(loadingImage)
    {
      if element == Some(h) {
        isLoading := false;
        hasError := false;
        events := events + [Loaded(elementUrl)];
      }
    }

    /** The `onerror` callback of probe element `h`. */
    method OnElementError(h: nat)
      modifies this
      ensures Snapshot() == ElementFailed(old(Snapshot()), h)
      ensures src == old(src) && size == old(size) && lazy == old(lazy) && loadingImage == old(loadingImage)
    {
      if element == Some(h) {
        HandleError();
      }
    }

    /** The timeout of probe element `h`. */
    method OnTimeout(h: nat)
      modifies this
      ensures Snapshot() == TimedOut(old(Snapshot()), h)
      ensures src == old(src) && size == old(size) && lazy == old(lazy) && loadingImage == old(loadingImage)
    {
      if element == Some(h) && isLoading {
        HandleError();
      }
    }

    method OnImageLoad()
      modifies this
      ensures Snapshot() == ShownLoaded(old(Snapshot()))
      ensures src == old(src) && size == old(size) && lazy == old(lazy) && loadingImage == old(loadingImage)
    {
      if IsExternalUrl(currentImage) {
        isLoading := false;
        events := events + [Loaded(currentImage)];
      }
    }

    method OnImageError()
      modifies this
      ensures Snapshot() == ShownFailed(old(Snapshot()))
      ensures src == old(src) && size == old(size) && lazy == old(lazy) && loadingImage == old(loadingImage)
    {
      if IsExternalUrl(currentImage) {
        HandleError();
      }
    }

    /** `lazy` exactly when `options.lazy` is set and true. */
    function GetLoadingAttr(): (r: string)
      reads this
      ensures r == "lazy" <==> lazy == Some(true)
      ensures r == "lazy" || r == "eager"
    {
      if lazy == Some(true) then "lazy" else "eager"
    }
  }
}
