/** The platforms the bundle registers after the engine (facebook, native, twitter,
    whatsapp, in that order) and what their handlers do. The host's `encodeURI`,
    `window.open` and `navigator.share` are described by a `Host` value. */
module Bundle {
  import opened JsValues
  import opened Webshare

  /** The platforms' SVG markup is opaque data; these strings stand for it. */
  const FacebookIcon: string := "facebook.svg"
  const NativeIcon: string := "native.svg"
  const TwitterIcon: string := "twitter.svg"
  const WhatsappIcon: string := "whatsapp.svg"

  /** Each bundled platform's handler is named after the platform. */
  const Facebook: Platform := Platform("facebook", FacebookIcon, false, "facebook")
  const Native: Platform := Platform("native", NativeIcon, true, "native")
  const Twitter: Platform := Platform("twitter", TwitterIcon, false, "twitter")
  const Whatsapp: Platform := Platform("whatsapp", WhatsappIcon, false, "whatsapp")

  const BundledOrder: seq<string> := ["facebook", "native", "twitter", "whatsapp"]

  const BundledRegistry: map<string, Platform> :=
    map["facebook" := Facebook, "native" := Native, "twitter" := Twitter, "whatsapp" := Whatsapp]

  /** The host as the handlers see it: `encodeURI` (None when it throws a URIError),
      whether `window.open` throws, whether `navigator.share` exists and how its
      promise settles. */
  datatype Host = Host(encodeURI: string -> Option<string>, openThrows: bool, hasShare: bool, shareFulfils: bool)

  /** Calling `navigator.share` where the browser has none. */
  const ShareMissing: Thrown := TypeError("navigator.share is not a function")

  const FacebookPrefix: string := "https://www.facebook.com/sharer/sharer.php?u="
  const TwitterPrefix: string := "https://twitter.com/home?status="
  const WhatsappPrefix: string := "https://api.whatsapp.com/send?text="

  /** The sharer URL: only the encoded `url` is passed on. */
  function FacebookUrl(enc: string -> Option<string>, args: JsObject): Option<string> {
    match enc(ToString(Get(args, "url")))
    case None => None
    case Some(u) => Some(FacebookPrefix + u)
  }

  /** The message both the twitter and the whatsapp template put after their
      endpoint: title, encoded url and text, separated by `%20`. */
  function Message(args: JsObject, encodedUrl: string): string {
    ToString(Get(args, "title")) + "%20" + encodedUrl + "%20" + ToString(Get(args, "text"))
  }

  /** The status URL. */
  function TwitterUrl(enc: string -> Option<string>, args: JsObject): Option<string> {
    match enc(ToString(Get(args, "url")))
    case None => None
    case Some(u) => Some(TwitterPrefix + Message(args, u))
  }

  /** The send URL: the same message under another endpoint. */
  function WhatsappUrl(enc: string -> Option<string>, args: JsObject): Option<string> {
    match enc(ToString(Get(args, "url")))
    case None => None
    case Some(u) => Some(WhatsappPrefix + Message(args, u))
  }

  /** A URL-opening handler: `window.open(url)` then `ok()` inside a try, whose
      catch calls `error` (a throwing `encodeURI` lands there as well). */
  function OpenSteps(url: Option<string>, host: Host): seq<Step> {
    match url
    case None => [CallError]
    case Some(u) => if host.openThrows then [CallError] else [HostCall(WindowOpened(u)), CallOk]
  }

  /** The native handler: `navigator.share(args)`, whose promise calls `ok` or `error`.
      There is no `try`: without `navigator.share` the call throws out of the handler. */
  function NativeSteps(args: JsObject, host: Host): seq<Step> {
    if !host.hasShare then [Raise(ShareMissing)]
    else [HostCall(NativeShareCalled(args)), if host.shareFulfils then CallOk else CallError]
  }

  /** What running each bundled handler does; handlers the bundle does not define do nothing here. */
  function BundledHandlers(host: Host): (string, JsObject) -> seq<Step> {
    (tag: string, args: JsObject) =>
      if tag == "facebook" then OpenSteps(FacebookUrl(host.encodeURI, args), host)
      else if tag == "twitter" then OpenSteps(TwitterUrl(host.encodeURI, args), host)
      else if tag == "whatsapp" then OpenSteps(WhatsappUrl(host.encodeURI, args), host)
      else if tag == "native" then NativeSteps(args, host)
      else []
  }

  /** Creates the engine and performs the bundle's four registrations in order. */
  method Install(protocol: string, hasNativeShare: bool) returns (w: Webshare)
    ensures fresh(w) && w.Valid()
    ensures w.native == NativeShareSupported(protocol, hasNativeShare)
    ensures w.order == BundledOrder
    ensures w.platforms == BundledRegistry
    ensures w.events == map[] && w.log == []
  {
    w := new Webshare(protocol, hasNativeShare);
    w.AddPlatform(Facebook);
    w.AddPlatform(Native);
    w.AddPlatform(Twitter);
    w.AddPlatform(Whatsapp);
    BundledInsertions();
  }

  lemma BundledInsertions()
    ensures InsertKey(InsertKey(InsertKey(InsertKey([], "facebook"), "native"), "twitter"), "whatsapp") == BundledOrder
    ensures map[][Facebook.name := Facebook][Native.name := Native][Twitter.name := Twitter][Whatsapp.name := Whatsapp] == BundledRegistry
  {
  }

  /** Only `native` needs the capability: the other three are supported whatever the flag. */
  lemma BundledSupport(native: bool)
    ensures forall name :: name in BundledRegistry ==>
      (IsPlatformSupported(BundledRegistry[name], native) <==> name != "native" || native)
  {
  }

  /** The native platform is not supported without the capability, yet the guard
      in `invokeShare` lets it through to its handler. */
  lemma NativeReachedWithoutCapability()
    ensures !IsPlatformSupported(Native, false)
    ensures !SupportGuardRejects(Native, false)
  {
  }

  /** The facebook URL carries exactly the encoded page URL after its fixed prefix. */
  lemma FacebookUrlCarriesEncodedUrl(enc: string -> Option<string>, args: JsObject)
    ensures var r := FacebookUrl(enc, args);
      var e := enc(ToString(Get(args, "url")));
      (r.Some? <==> e.Some?) &&
      (r.Some? ==> |r.value| >= |FacebookPrefix| && r.value[..|FacebookPrefix|] == FacebookPrefix &&
                   r.value[|FacebookPrefix|..] == e.value)
  {
  }

  /** The twitter and whatsapp URLs differ only in their prefix. */
  lemma TwitterWhatsappDifferOnlyInPrefix(enc: string -> Option<string>, args: JsObject)
    ensures var t := TwitterUrl(enc, args);
      var w := WhatsappUrl(enc, args);
      (t.Some? <==> w.Some?) &&
      (t.Some? ==>
        |t.value| >= |TwitterPrefix| && |w.value| >= |WhatsappPrefix| &&
        t.value[..|TwitterPrefix|] == TwitterPrefix && w.value[..|WhatsappPrefix|] == WhatsappPrefix &&
        t.value[|TwitterPrefix|..] == w.value[|WhatsappPrefix|..])
  {
  }

  /** With no caller arguments, the twitter URL is built from the page defaults:
      the title, the encoded page URL and an empty text. */
  lemma TwitterUrlFromPageDefaults(enc: string -> Option<string>, page: PageMeta)
    ensures var d := PageDefaults(page);
      var url := d["url"].s;
      var r := TwitterUrl(enc, ResolveArgs(page, map[], "twitter"));
      (r.Some? <==> enc(url).Some?) &&
      (r.Some? ==> r.value == TwitterPrefix + d["title"].s + "%20" + enc(url).value + "%20")
  {
  }

  /** The URL each URL-opening platform builds. */
  function UrlFor(p: Platform, enc: string -> Option<string>, args: JsObject): Option<string>
    requires p in {Facebook, Twitter, Whatsapp}
  {
    if p == Facebook then FacebookUrl(enc, args)
    else if p == Twitter then TwitterUrl(enc, args)
    else WhatsappUrl(enc, args)
  }

  /** A share through facebook, twitter or whatsapp never throws out of the handler:
      it opens the URL and then calls every 'success' listener once, or, when
      encoding or opening throws, opens nothing and calls every 'error' listener once. */
  lemma OpenUrlShareEffects(p: Platform, host: Host, events: map<string, seq<ListenerId>>, merged: JsObject, id: string)
    requires p in {Facebook, Twitter, Whatsapp}
    ensures var url := UrlFor(p, host.encodeURI, merged);
      var steps := BundledHandlers(host)(p.handler, merged);
      var payload := SharePayload(id, merged);
      HandlerOutcome(steps) == Normal &&
      Replay(events, Executed(steps), payload) ==
        if url.Some? && !host.openThrows
        then [WindowOpened(url.value)] + Dispatch(events, "success", payload)
        else Dispatch(events, "error", payload)
  {
    var url := UrlFor(p, host.encodeURI, merged);
    var payload := SharePayload(id, merged);
    var steps := BundledHandlers(host)(p.handler, merged);
    assert steps == OpenSteps(url, host);
    ExecutedUpTo(steps, |steps|);
    assert steps[..|steps|] == steps;
    if url.Some? && !host.openThrows {
      ReplayTwo(events, HostCall(WindowOpened(url.value)), CallOk, payload);
    } else {
      ReplayOne(events, CallError, payload);
    }
  }

  /** A native share hands the merged arguments to `navigator.share` and then
      calls the 'success' or the 'error' listeners, as the promise settles. Without
      `navigator.share` the handler throws a TypeError and nothing is visible. */
  lemma NativeShareEffects(host: Host, events: map<string, seq<ListenerId>>, merged: JsObject)
    ensures var steps := BundledHandlers(host)(Native.handler, merged);
      var payload := SharePayload("native", merged);
      (HandlerOutcome(steps) == if host.hasShare then Normal else Throw(ShareMissing)) &&
      Replay(events, Executed(steps), payload) ==
        if host.hasShare
        then [NativeShareCalled(merged)] + Dispatch(events, if host.shareFulfils then "success" else "error", payload)
        else []
  {
    var steps := BundledHandlers(host)(Native.handler, merged);
    if host.hasShare {
      ExecutedUpTo(steps, |steps|);
      assert steps[..|steps|] == steps;
      ReplayTwo(events, HostCall(NativeShareCalled(merged)), if host.shareFulfils then CallOk else CallError,
        SharePayload("native", merged));
    } else {
      ExecutedUpTo(steps, 0);
    }
  }

  /** Default rendering of the bundle: the single native button when the capability
      is present, otherwise all four buttons in registration order. */
  lemma BundledDefaultRender(emptyArgs: ArgsObject, native: bool)
    ensures var r := PlanRender(NoOptions, emptyArgs, native, BundledOrder, BundledRegistry);
      var ids := if native then ["native"] else BundledOrder;
      r.Ok? && |r.value.children| == |ids| &&
      forall i :: 0 <= i < |ids| ==>
        r.value.children[i].platformId == ids[i] &&
        r.value.children[i].className == ClassAttr("webshare", ids[i])
  {
  }
}
