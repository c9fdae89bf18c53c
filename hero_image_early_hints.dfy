/** The Hero Image Early Hints module: while a user who may edit posts renders a page, the
    first image that is not lazy-loaded is taken as the page's hero image and its `src` is
    saved in an option keyed by the request URI; on later requests for that URI the saved
    URL is announced in a 103 Early Hints `Link` header. */
module HeroImageEarlyHints {
  import opened Wrappers
  import opened PhpStrings

  const ContentContext := "the_content"
  const ThumbnailContext := "the_post_thumbnail"
  const LazyAttribute := "loading=\"lazy\""
  const SrcMarker := " src=\""
  const OptionPrefix := "perflab_hieh_"

  /** The contexts in which an image may be the hero image. */
  predicate IsDetectionContext(context: string) {
    context == ContentContext || context == ThumbnailContext
  }

  /** A non-empty image tag that is not lazy-loaded. */
  predicate IsHeroCandidate(img: string) {
    !IsEmpty(img) && !Contains(img, LazyAttribute)
  }

  // ---------------------------------------------------------------------------------------
  // src extraction: the leftmost match of the pattern / src="([^"]+)/

  /** The pattern matches starting at `i`: the marker ` src="` followed by a character
      that is not a double quote (the `+` needs at least one). */
  predicate SrcMatchesAt(s: string, i: int) {
    OccursAt(s, SrcMarker, i) && i + |SrcMarker| < |s| && s[i + |SrcMarker|] != '"'
  }

  /** `i` is the leftmost position at which the pattern matches. */
  predicate IsFirstSrcMatch(s: string, i: int) {
    SrcMatchesAt(s, i) && forall j :: 0 <= j < i ==> !SrcMatchesAt(s, j)
  }

  /** `v` is what the greedy `[^"]+` captures from position `j`: a run of non-quote
      characters that ends at a quote or at the end of the string. */
  predicate CapturesAt(s: string, j: int, v: string) {
    0 <= j && j + |v| <= |s| && s[j..j + |v|] == v && '"' !in v
    && (j + |v| == |s| || s[j + |v|] == '"')
  }

  /** The leftmost match at or after `from`. */
  function FirstSrcMatchFrom(s: string, from: nat): (r: Option<nat>)
    ensures r.Some? ==> from <= r.value < |s| && SrcMatchesAt(s, r.value)
    ensures forall j :: from <= j < (if r.Some? then r.value else |s|) ==> !SrcMatchesAt(s, j)
    decreases |s| - from
  {
    if from >= |s| then None
    else if SrcMatchesAt(s, from) then Some(from)
    else FirstSrcMatchFrom(s, from + 1)
  }

  /** The length of the run of non-quote characters starting at `j`. */
  function QuoteFreeRun(s: string, j: nat): (n: nat)
    requires j <= |s|
    ensures j + n <= |s|
    ensures forall k :: j <= k < j + n ==> s[k] != '"'
    ensures j + n == |s| || s[j + n] == '"'
    decreases |s| - j
  {
    if j == |s| || s[j] == '"' then 0 else 1 + QuoteFreeRun(s, j + 1)
  }

  /** `preg_match( '/ src="([^"]+)/', $img, $matches )`, giving `$matches[1]` on a match. */
  function ExtractSrc(img: string): (r: Option<string>)
    ensures r.None? <==> forall i :: 0 <= i < |img| ==> !SrcMatchesAt(img, i)
    ensures r.Some? ==> r.value != "" && '"' !in r.value
    ensures r.Some? ==> exists i :: IsFirstSrcMatch(img, i) && CapturesAt(img, i + |SrcMarker|, r.value)
  {
    match FirstSrcMatchFrom(img, 0)
    case None => None
    case Some(i) =>
      var start := i + |SrcMarker|;
      var v := img[start..start + QuoteFreeRun(img, start)];
      assert IsFirstSrcMatch(img, i) && CapturesAt(img, start, v);
      Some(v)
  }

  /** The capture is unique: whatever is captured after the leftmost match is the result. */
  lemma ExtractSrcIsFirstCapture(img: string, i: int, v: string)
    requires IsFirstSrcMatch(img, i) && CapturesAt(img, i + |SrcMarker|, v)
    ensures ExtractSrc(img) == Some(v)
  {
    var r := ExtractSrc(img);
    var i' :| IsFirstSrcMatch(img, i') && CapturesAt(img, i' + |SrcMarker|, r.value);
    assert i' == i;
    CapturesUnique(img, i + |SrcMarker|, v, r.value);
  }

  /** The greedy run has one length: two captures from the same position agree. */
  lemma CapturesUnique(s: string, j: int, v: string, w: string)
    requires CapturesAt(s, j, v) && CapturesAt(s, j, w)
    ensures v == w
  {
    assert forall k :: j <= k < j + |w| ==> s[k] == w[k - j] && s[k] != '"';
    assert forall k :: j <= k < j + |v| ==> s[k] == v[k - j] && s[k] != '"';
  }

  /** The characters a match of the pattern pins down. */
  lemma SrcMatchChars(s: string, i: int)
    requires SrcMatchesAt(s, i)
    ensures s[i] == ' ' && s[i + 1] == 's' && s[i + 6] != '"'
  {
    assert s[i..i + 6][0] == s[i] && s[i..i + 6][1] == s[i + 1];
  }

  /** The pattern skips an empty `src=""` and takes the next attribute that has a value. */
  lemma ExtractSrcSkipsEmptySrc()
    ensures ExtractSrc("<img src=\"\" data src=\"hero.jpg\">") == Some("hero.jpg")
  {
    var img := "<img src=\"\" data src=\"hero.jpg\">";
    assert !SrcMatchesAt(img, 4);
    assert SrcMatchesAt(img, 16);
    forall j | 0 <= j < 16 ensures !SrcMatchesAt(img, j) {
      if SrcMatchesAt(img, j) {
        SrcMatchChars(img, j);
        assert false;
      }
    }
    assert CapturesAt(img, 22, "hero.jpg");
    ExtractSrcIsFirstCapture(img, 16, "hero.jpg");
  }

  // ---------------------------------------------------------------------------------------
  // Request-URI normalisation

  /** `preg_replace( '|^' . preg_quote( $home ) . '|i', '', $uri )`: removes one
      case-insensitive occurrence of `home` at the very start of `uri`. */
  function StripHomePrefix(uri: string, home: string): (r: string)
    ensures |r| <= |uri| && r == uri[|uri| - |r|..]
    ensures |uri| - |r| == if StartsWithIgnoreCase(uri, home) then |home| else 0
  {
    if StartsWithIgnoreCase(uri, home) then uri[|home|..] else uri
  }

  /** The URI the module keys its option by, as `perflab_hieh_send_early_hints_header`
      computes it from `$_SERVER['REQUEST_URI']` and the path of the home URL. */
  function NormalizeRequestUri(requestUri: string, homePath: Option<string>): (r: string)
    ensures r != "" && !IsEmpty(r)
    ensures (homePath.None? || homePath.value == "") && !IsEmpty(requestUri) ==> r == requestUri
    ensures (homePath.None? || homePath.value == "") && IsEmpty(requestUri) ==> r == "/"
    ensures homePath.Some? && homePath.value != "" && r != "/" ==> r[0] != '/' && r[|r| - 1] != '/'
  {
    var uri :=
      if homePath.Some? && homePath.value != "" then StripHomePath(requestUri, homePath.value)
      else requestUri;
    if IsEmpty(uri) then "/" else uri
  }

  /** The branch taken for a non-empty home path: trim the home path, strip it from the
      front of the URI, trim the rest. */
  function StripHomePath(requestUri: string, homePath: string): (r: string)
    ensures r != [] ==> r[0] != '/' && r[|r| - 1] != '/'
  {
    TrimSlashes(StripHomePrefix(requestUri, TrimSlashes(homePath)))
  }

  /** With a home path, a URI that starts with the slash-trimmed home path in any letter
      case loses it, and then its slashes. */
  lemma HomePathStripped(home: string, prefix: string, rest: string)
    requires home != "" && EqualsIgnoreCase(prefix, TrimSlashes(home))
    ensures NormalizeRequestUri(prefix + rest, Some(home))
         == (if IsEmpty(TrimSlashes(rest)) then "/" else TrimSlashes(rest))
  {
    var uri := prefix + rest;
    assert uri[..|prefix|] == prefix;
    assert uri[|prefix|..] == rest;
    assert StartsWithIgnoreCase(uri, TrimSlashes(home));
  }

  /** With a home path, a URI that does not start with the slash-trimmed home path (in
      any letter case) keeps all of it and only has its slashes trimmed. */
  lemma HomePathNotMatched(home: string, uri: string)
    requires home != "" && !StartsWithIgnoreCase(uri, TrimSlashes(home))
    ensures NormalizeRequestUri(uri, Some(home))
         == (if IsEmpty(TrimSlashes(uri)) then "/" else TrimSlashes(uri))
  {
    assert StripHomePrefix(uri, TrimSlashes(home)) == uri;
  }

  /** The home path is compared after its slashes are trimmed, so it is never stripped from
      a request URI that starts with '/', as `$_SERVER['REQUEST_URI']` does: such a URI only
      loses its surrounding slashes (for example "/blog/post/" under home "/blog" is keyed as
      "blog/post"). */
  lemma LeadingSlashKeepsHomePath(home: string, uri: string)
    requires TrimSlashes(home) != ""
    requires uri != "" && uri[0] == '/'
    ensures NormalizeRequestUri(uri, Some(home))
         == (if IsEmpty(TrimSlashes(uri)) then "/" else TrimSlashes(uri))
  {
    var t := TrimSlashes(home);
    assert !StartsWithIgnoreCase(uri, t) by {
      if |t| <= |uri| {
        assert uri[..|t|][0] == '/';
        assert ToLowerAscii(t[0]) != '/';
      }
    }
    HomePathNotMatched(home, uri);
  }

  // ---------------------------------------------------------------------------------------
  // The option store

  /** `'perflab_hieh_' . md5( $uri )`. */
  function OptionKey(md5: string -> string, uri: string): (k: string)
    ensures |k| >= |OptionPrefix| && k[..|OptionPrefix|] == OptionPrefix
  {
    OptionPrefix + md5(uri)
  }

  /** What `get_option( $key )` yields to the `! $hero_img_url` test: the URL when the option
      exists and is not falsy. */
  function HeroHint(options: map<string, string>, key: string): (h: Option<string>)
    ensures h.Some? <==> key in options && !IsEmpty(options[key])
    ensures h.Some? ==> h.value == options[key]
  {
    if key in options && !IsEmpty(options[key]) then Some(options[key]) else None
  }

  // ---------------------------------------------------------------------------------------
  // Detection as a state transition

  /** The request-scoped state detection reads and writes: the global request URI (None
      when unset), whether the two detection filters are registered, and the options. */
  datatype DetectorState = DetectorState(
    requestUri: Option<string>,
    hooksActive: bool,
    options: map<string, string>)

  /** `perflab_hieh_img_tag_check` gets past all its guards. */
  predicate Qualifies(s: DetectorState, img: string, context: string, lazyLoadingEnabled: bool) {
    s.requestUri.Some? && IsDetectionContext(context) && lazyLoadingEnabled && IsHeroCandidate(img)
  }

  /** The option write happens: the image qualifies and has a src. */
  predicate WritesOption(s: DetectorState, img: string, context: string, lazyLoadingEnabled: bool) {
    Qualifies(s, img, context, lazyLoadingEnabled) && ExtractSrc(img).Some?
  }

  /** The state after `perflab_hieh_img_tag_check( img, context )`. */
  function ImgTagCheckEffect(s: DetectorState, md5: string -> string, img: string, context: string,
                             lazyLoadingEnabled: bool): (r: DetectorState)
    ensures r.requestUri == s.requestUri
    ensures !Qualifies(s, img, context, lazyLoadingEnabled) ==> r == s
    ensures Qualifies(s, img, context, lazyLoadingEnabled) ==> !r.hooksActive
    ensures r.options != s.options ==> !r.hooksActive
    ensures WritesOption(s, img, context, lazyLoadingEnabled) ==>
              r.options == s.options[OptionKey(md5, s.requestUri.value) := ExtractSrc(img).value]
    ensures !WritesOption(s, img, context, lazyLoadingEnabled) ==> r.options == s.options
  {
    if !Qualifies(s, img, context, lazyLoadingEnabled) then s
    else
      var options :=
        match ExtractSrc(img)
        case Some(src) => s.options[OptionKey(md5, s.requestUri.value) := src]
        case None => s.options;
      DetectorState(s.requestUri, false, options)
  }

  /** Only the option of the current URI can change, and only to the image's src. */
  lemma ImgTagCheckTouchesOneOption(s: DetectorState, md5: string -> string, img: string,
                                    context: string, lazyLoadingEnabled: bool, key: string)
    requires s.requestUri.Some? && key != OptionKey(md5, s.requestUri.value)
    ensures var r := ImgTagCheckEffect(s, md5, img, context, lazyLoadingEnabled);
            (key in r.options <==> key in s.options)
            && (key in s.options ==> r.options[key] == s.options[key])
  {
  }

  /** Detection and announcement agree: once a request for `uri` has recorded the src of
      its hero image, a request for the same URI is hinted that src, unless the src is the
      falsy string "0". */
  lemma DetectedHeroIsHinted(s: DetectorState, md5: string -> string, img: string,
                             context: string, lazyLoadingEnabled: bool)
    requires WritesOption(s, img, context, lazyLoadingEnabled)
    ensures var r := ImgTagCheckEffect(s, md5, img, context, lazyLoadingEnabled);
            HeroHint(r.options, OptionKey(md5, s.requestUri.value))
              == if ExtractSrc(img).value == "0" then None else ExtractSrc(img)
  {
  }

  /** The filters the module registers on 'wp_content_img_tag' and 'post_thumbnail_html'. */
  datatype FilterCall =
    | ContentImgTag(filteredImage: string, context: string, lazyLoadingEnabled: bool)
    | PostThumbnailHtml(html: string, lazyLoadingEnabled: bool)
  {
    /** The tag the filter is given and must give back. */
    function Image(): (img: string)
      ensures this.ContentImgTag? ==> img == filteredImage
      ensures this.PostThumbnailHtml? ==> img == html
    {
      match this
      case ContentImgTag(img, _, _) => img
      case PostThumbnailHtml(html, _) => html
    }

    /** The context the image check sees. */
    function Context(): (context: string)
      ensures this.ContentImgTag? ==> context == this.context
      ensures this.PostThumbnailHtml? ==> context == ThumbnailContext
    {
      match this
      case ContentImgTag(_, context, _) => context
      case PostThumbnailHtml(_, _) => ThumbnailContext
    }
  }

  /** WordPress applying one filter call: the module's callback runs only while it is
      registered. */
  function FilterStep(s: DetectorState, md5: string -> string, call: FilterCall): (r: DetectorState)
    ensures r.requestUri == s.requestUri
    ensures !s.hooksActive ==> r == s
    ensures s.hooksActive && !CallQualifies(s.requestUri, call) ==> r == s
    ensures s.hooksActive && CallQualifies(s.requestUri, call) ==> !r.hooksActive
  {
    if s.hooksActive then ImgTagCheckEffect(s, md5, call.Image(), call.Context(), call.lazyLoadingEnabled)
    else s
  }

  /** The state after the filter calls of a page, applied in order. */
  function RenderEffect(s: DetectorState, md5: string -> string, calls: seq<FilterCall>): (r: DetectorState)
    ensures r.requestUri == s.requestUri
    ensures !s.hooksActive ==> r == s
    decreases |calls|
  {
    if calls == [] then s
    else FilterStep(RenderEffect(s, md5, calls[..|calls| - 1]), md5, calls[|calls| - 1])
  }

  /** The image check would get past its guards for this call under this request URI. */
  predicate CallQualifies(requestUri: Option<string>, call: FilterCall) {
    requestUri.Some? && IsDetectionContext(call.Context()) && call.lazyLoadingEnabled
    && IsHeroCandidate(call.Image())
  }

  /** Call `i` is the first of the page whose image qualifies as the hero image. */
  predicate IsFirstHeroCall(requestUri: Option<string>, calls: seq<FilterCall>, i: int) {
    0 <= i < |calls| && CallQualifies(requestUri, calls[i])
    && forall j :: 0 <= j < i ==> !CallQualifies(requestUri, calls[j])
  }

  /** A page none of whose images qualifies leaves the state as it was. */
  lemma {:induction false} RenderNoQualifying(s: DetectorState, md5: string -> string, calls: seq<FilterCall>)
    requires forall j :: 0 <= j < |calls| ==> !CallQualifies(s.requestUri, calls[j])
    ensures RenderEffect(s, md5, calls) == s
    decreases |calls|
  {
    if calls != [] {
      var init := calls[..|calls| - 1];
      assert forall j :: 0 <= j < |init| ==> init[j] == calls[j];
      RenderNoQualifying(s, md5, init);
    }
  }

  /** A page changes no option but the one of the current URI. */
  lemma {:induction false} RenderKeepsOtherOptions(s: DetectorState, md5: string -> string,
                                                   calls: seq<FilterCall>, key: string)
    requires s.requestUri.Some? && key != OptionKey(md5, s.requestUri.value)
    ensures var r := RenderEffect(s, md5, calls);
            (key in r.options <==> key in s.options)
            && (key in s.options ==> r.options[key] == s.options[key])
    decreases |calls|
  {
    if calls != [] {
      var init := calls[..|calls| - 1];
      var last := calls[|calls| - 1];
      RenderKeepsOtherOptions(s, md5, init, key);
      var m := RenderEffect(s, md5, init);
      if m.hooksActive {
        ImgTagCheckTouchesOneOption(m, md5, last.Image(), last.Context(), last.lazyLoadingEnabled, key);
      }
    }
  }

  /** While the filters are registered, a page records exactly what the image check does
      for its first qualifying image: that image's src under the current URI's key (nothing
      when it has none), and the filters are removed for the rest of the page. */
  lemma {:induction false} RenderRecordsFirstHero(s: DetectorState, md5: string -> string,
                                                  calls: seq<FilterCall>, i: int)
    requires s.hooksActive && IsFirstHeroCall(s.requestUri, calls, i)
    ensures RenderEffect(s, md5, calls)
         == ImgTagCheckEffect(s, md5, calls[i].Image(), calls[i].Context(), calls[i].lazyLoadingEnabled)
    decreases |calls|
  {
    var e := ImgTagCheckEffect(s, md5, calls[i].Image(), calls[i].Context(), calls[i].lazyLoadingEnabled);
    var init := calls[..|calls| - 1];
    assert forall j :: 0 <= j < |init| ==> init[j] == calls[j];
    assert RenderEffect(s, md5, calls) == FilterStep(RenderEffect(s, md5, init), md5, calls[|calls| - 1]);
    if |calls| == i + 1 {
      RenderNoQualifying(s, md5, init);
    } else {
      RenderRecordsFirstHero(s, md5, init, i);
      assert !e.hooksActive;
    }
  }

  /** The request-scoped state of the module: the global `$perflab_hieh_request_uri`, the
      registration of its two filters, and the options table. */
  class HeroImageDetector {
    const md5: string -> string
    var requestUri: Option<string>
    var hooksActive: bool
    var options: map<string, string>
    /** The number of `update_option` calls made so far. */
    ghost var optionWrites: nat

    function State(): (s: DetectorState)
      reads this
      ensures s.requestUri == requestUri && s.hooksActive == hooksActive && s.options == options
    {
      DetectorState(requestUri, hooksActive, options)
    }

    /** The start of a request: the global is unset, no filter is registered, and the
        options are those already stored. */
    constructor (md5: string -> string, storedOptions: map<string, string>)
      ensures this.md5 == md5 && requestUri == None && !hooksActive && options == storedOptions
      ensures optionWrites == 0
    {
      this.md5 := md5;
      requestUri := None;
      hooksActive := false;
      options := storedOptions;
      optionWrites := 0;
    }

    /** `perflab_hieh_add_hooks` on 'init': the filters are registered only for a user who
        can edit posts. */
    method AddHooks(canEditPosts: bool)
      modifies this`hooksActive
      ensures hooksActive == (old(hooksActive) || canEditPosts)
    {
      if !canEditPosts {
        return;
      }
      hooksActive := true;
    }

    /** `perflab_hieh_send_early_hints_header` on 'plugins_loaded': for a front-end request,
        sets the global request URI to the normalised URI and returns the URL it announces
        in the `Link: <url>; rel=preload; as=image` header, if any. */
    method SendEarlyHintsHeader(isBackendRequest: bool, serverRequestUri: string, homePath: Option<string>)
      returns (preload: Option<string>)
      modifies this`requestUri
      ensures isBackendRequest ==> requestUri == old(requestUri) && preload == None
      ensures !isBackendRequest ==>
                requestUri == Some(NormalizeRequestUri(serverRequestUri, homePath))
                && preload == HeroHint(options, OptionKey(md5, requestUri.value))
    {
      if isBackendRequest {
        return None;
      }
      requestUri := Some(serverRequestUri);
      if homePath.Some? && homePath.value != "" {
        var home := TrimSlashes(homePath.value);
        requestUri := Some(StripHomePrefix(requestUri.value, home));
        requestUri := Some(TrimSlashes(requestUri.value));
      }
      if IsEmpty(requestUri.value) {
        requestUri := Some("/");
      }
      preload := HeroHint(options, OptionKey(md5, requestUri.value));
    }

    /** `perflab_hieh_img_tag_check( $filtered_image, $context )`: returns the image tag
        unchanged; for the first qualifying image records its src and removes both filters. */
    method ImgTagCheck(filteredImage: string, context: string, lazyLoadingEnabled: bool)
      returns (r: string)
      modifies this`hooksActive, this`options, this`optionWrites
      ensures r == filteredImage
      ensures State() == ImgTagCheckEffect(old(State()), md5, filteredImage, context, lazyLoadingEnabled)
      ensures optionWrites == old(optionWrites)
                + if WritesOption(old(State()), filteredImage, context, lazyLoadingEnabled) then 1 else 0
    {
      r := filteredImage;
      if requestUri.None? {
        return;
      }
      if !IsDetectionContext(context) {
        return;
      }
      if !lazyLoadingEnabled {
        return;
      }
      if IsHeroCandidate(filteredImage) {
        var matches := ExtractSrc(filteredImage);
        if matches.Some? {
          options := options[OptionKey(md5, requestUri.value) := matches.value];
          optionWrites := optionWrites + 1;
        }
        hooksActive := false;
      }
    }

    /** `perflab_hieh_post_thumbnail_html_check( $html )`: the image check in the
        post-thumbnail context. */
    method PostThumbnailHtmlCheck(html: string, lazyLoadingEnabled: bool) returns (r: string)
      modifies this`hooksActive, this`options, this`optionWrites
      ensures r == html
      ensures State() == ImgTagCheckEffect(old(State()), md5, html, ThumbnailContext, lazyLoadingEnabled)
      ensures optionWrites == old(optionWrites)
                + if WritesOption(old(State()), html, ThumbnailContext, lazyLoadingEnabled) then 1 else 0
    {
      r := ImgTagCheck(html, ThumbnailContext, lazyLoadingEnabled);
    }

    /** WordPress applying one of the two filters: the module's callback runs only while
        it is registered. */
    method ApplyFilter(call: FilterCall) returns (r: string)
      modifies this`hooksActive, this`options, this`optionWrites
      ensures r == call.Image()
      ensures State() == FilterStep(old(State()), md5, call)
      ensures optionWrites == old(optionWrites)
                + if old(hooksActive) && WritesOption(old(State()), call.Image(), call.Context(), call.lazyLoadingEnabled)
                  then 1 else 0
    {
      if !hooksActive {
        return call.Image();
      }
      match call
      case ContentImgTag(img, context, lazy) =>
        r := ImgTagCheck(img, context, lazy);
      case PostThumbnailHtml(html, lazy) =>
        r := PostThumbnailHtmlCheck(html, lazy);
    }

    /** The filters applied to every image of a rendered page, in order: the options are
        written at most once, never while the filters are not registered or the request
        URI is unset, and only under the current URI's key. */
    method RenderImages(calls: seq<FilterCall>)
      modifies this`hooksActive, this`options, this`optionWrites
      ensures State() == RenderEffect(old(State()), md5, calls)
      ensures requestUri == old(requestUri)
      ensures optionWrites <= old(optionWrites) + 1
      ensures !old(hooksActive) || old(requestUri).None? ==> options == old(options)
      ensures old(requestUri).Some? ==>
                forall k :: k != OptionKey(md5, old(requestUri).value) ==>
                  (k in options <==> k in old(options)) && (k in options ==> options[k] == old(options)[k])
    {
      var i := 0;
      while i < |calls|
        invariant 0 <= i <= |calls|
        invariant State() == RenderEffect(old(State()), md5, calls[..i])
        invariant optionWrites <= old(optionWrites) + 1
        invariant optionWrites == old(optionWrites) + 1 ==> !hooksActive
      {
        var _ := ApplyFilter(calls[i]);
        assert calls[..i + 1][..i] == calls[..i];
        i := i + 1;
      }
      assert calls[..|calls|] == calls;
      if old(requestUri).None? {
        RenderNoQualifying(old(State()), md5, calls);
      } else {
        forall k | k != OptionKey(md5, old(requestUri).value)
          ensures (k in options <==> k in old(options)) && (k in options ==> options[k] == old(options)[k])
        {
          RenderKeepsOtherOptions(old(State()), md5, calls, k);
        }
      }
    }
  }

  /** One page request of the module: 'plugins_loaded' sends the early hint, 'init'
      registers the filters, then the page's images are filtered. At most one option is
      written. Without the edit-posts capability, and on a back-end request, no option
      changes; on a front-end request the hint is the option stored for the normalised URI
      before the request, and no other option changes. For an editor's front-end request,
      the normalised URI's option afterwards holds the src of the first qualifying image
      (it is left as it was when that image has no src), and no option changes on a page
      without a qualifying image. */
  method HandleRequest(md5: string -> string, storedOptions: map<string, string>,
                       isBackendRequest: bool, serverRequestUri: string, homePath: Option<string>,
                       canEditPosts: bool, images: seq<FilterCall>)
    returns (preload: Option<string>, finalOptions: map<string, string>, ghost optionWrites: nat)
    ensures optionWrites <= 1
    ensures !canEditPosts || isBackendRequest ==> finalOptions == storedOptions
    ensures isBackendRequest ==> preload == None
    ensures !isBackendRequest ==>
              preload == HeroHint(storedOptions, OptionKey(md5, NormalizeRequestUri(serverRequestUri, homePath)))
    ensures forall k :: k != OptionKey(md5, NormalizeRequestUri(serverRequestUri, homePath)) ==>
              (k in finalOptions <==> k in storedOptions)
              && (k in finalOptions ==> finalOptions[k] == storedOptions[k])
    ensures !isBackendRequest && canEditPosts ==>
              var uri := NormalizeRequestUri(serverRequestUri, homePath);
              forall i :: IsFirstHeroCall(Some(uri), images, i) ==>
                (ExtractSrc(images[i].Image()).Some? ==>
                   finalOptions == storedOptions[OptionKey(md5, uri) := ExtractSrc(images[i].Image()).value])
                && (ExtractSrc(images[i].Image()).None? ==> finalOptions == storedOptions)
    ensures (forall j :: 0 <= j < |images| ==>
               !CallQualifies(Some(NormalizeRequestUri(serverRequestUri, homePath)), images[j]))
            ==> finalOptions == storedOptions
  {
    var detector := new HeroImageDetector(md5, storedOptions);
    preload := detector.SendEarlyHintsHeader(isBackendRequest, serverRequestUri, homePath);
    detector.AddHooks(canEditPosts);
    ghost var start := detector.State();
    if start.hooksActive && start.requestUri.Some? {
      forall i | IsFirstHeroCall(start.requestUri, images, i)
        ensures RenderEffect(start, md5, images)
             == ImgTagCheckEffect(start, md5, images[i].Image(), images[i].Context(), images[i].lazyLoadingEnabled)
      {
        RenderRecordsFirstHero(start, md5, images, i);
      }
      if forall j :: 0 <= j < |images| ==> !CallQualifies(start.requestUri, images[j]) {
        RenderNoQualifying(start, md5, images);
      }
    }
    detector.RenderImages(images);
    finalOptions := detector.options;
    optionWrites := detector.optionWrites;
  }
}
