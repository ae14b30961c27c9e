# webshare.js in Dafny

A model of webshare.js, a small browser widget that offers one "share this page"
action over several share targets and renders a row of share buttons. The model
covers the engine in `dist/webshare.js` (repeated as lines 1-113 of
`dist/webshare.bundle.js`) and the four platforms the bundle registers.

- `js_values.dfy`, module `JsValues`: the JavaScript values the share arguments hold,
  truthiness, string conversion in template literals and the shallow copy of
  `Object.assign`.
- `webshare.dfy`, module `Webshare`: the engine. The class `Webshare` holds the
  platform registry (a map plus the key order `Object.keys` reports), the event
  lists and a log of what becomes visible outside (listener calls, windows opened,
  native share requests). `AddPlatform`, `GetPlatforms`, `On`, `Trigger`,
  `InvokeShare`, `Render` and `Click` are methods on it. Each is proved against
  pure functions: `InsertKey`, `Dispatch`, `ResolveArgs`, `Replay`, `Executed`,
  `HandlerOutcome` and `PlanRender`.
  The element `render` is given is a `Container` holding a list of wrappers. A
  wrapper is the `div` with its button records.
- `bundle.dfy`, module `Bundle`: the facebook, native, twitter and whatsapp
  definitions, their URL templates and what their handlers do, plus `Install`, which
  performs the four registrations in order.

Points where the model follows the code as written, even where the code itself
shows that something else was meant:

- The support check in `invokeShare` (`dist/webshare.js:48`) tests the function
  object `isPlatformSupported` and never calls it. A function object is truthy, so
  the "not supported" throw never happens. The native platform reaches its handler
  even without the capability (`SupportGuardNeverRejects`,
  `NativeReachedWithoutCapability`). The message `'Platform is not supported.'` and
  the helper `isPlatformSupported` (`dist/webshare.js:33-39`), which nothing calls,
  show that the check was meant to use the platform's flag; `IsPlatformSupported`
  is that predicate, and the engine does not use it.
- The `ok`/`error` arrows spread `invokeShare`'s own `arguments`. Arrow functions
  have no `arguments` of their own, and in sloppy mode that object follows the
  reassigned `args`. So every listener receives `(platformId, merged, platformId,
  merged)`. The value a handler passes to `ok` or `error` (the caught exception, for
  instance) never reaches the listeners.
- The merged arguments also carry the caller's `social` block, because
  `Object.assign` copies every caller field (`ResolveArgsExample`).
- `options.platforms == 'all'` is loose equality. The array `['all']` matches it as
  well as the string (`LooselyEqualsAllIff`). Any other string makes `render` throw
  a TypeError when it calls `.map`, but only when that list is the one `render`
  walks: a string general list is harmless while the capability is present.
- An unknown id in the list `render` walks throws a TypeError (reading `icon` of
  undefined) before the wrapper is attached. The container is then left unchanged.

- A handler runs without a `try` around it (`dist/webshare.js:65`). An exception it
  lets escape leaves `invokeShare` and the button's `onclick`, so `return false` is
  skipped and the link to `#` is followed. The bundled URL handlers catch their own
  errors; the native handler does not, and throws when `navigator.share` is missing
  (`NativeShareEffects`).
- Each share reads the page again (`dist/webshare.js:59-60`), so `InvokeShare` and
  `Click` take the page metadata as it is at that moment. A button keeps a reference
  to the caller's `args` object (`dist/webshare.js:74` copies only the outer options
  object), so a click sees the properties that object holds at the time of the click.

Inputs from the host are parameters. The page metadata is a `PageMeta`, given to
each share. The protocol and the presence of `navigator.share` at start-up go to
the constructor. `encodeURI` is a function that may fail (`None` for a URIError).
Whether `window.open` throws, whether `navigator.share` exists when the native
handler runs and how its promise settles are fields of a `Host`. What an arbitrary
handler does is a function from the handler's name and the merged arguments to its
sequence of steps, the last of which may be an exception it lets escape.

## Model

| member | source | states |
|---|---|---|
| `Webshare.Webshare.constructor` | dist/webshare.js:6-20 | native support is fixed once, as secure protocol and a native share primitive; registry, events and log start empty |
| `Webshare.NativeShareSupported` | dist/webshare.js:8 | the capability: the protocol is `https:` and the browser has `navigator.share` |
| `Webshare.InsertKey` | dist/webshare.js:12-17 | registering a name adds it to the key order exactly once; a new name goes last, a name already present keeps its position; distinctness is preserved |
| `Webshare.Webshare.AddPlatform` | dist/webshare.js:12-14 | looking up the name then yields the new platform and every other entry is unchanged (overwrite, no error); key order follows `InsertKey`; events and log are untouched; the registry invariant is kept |
| `Webshare.Webshare.GetPlatforms` | dist/webshare.js:15-17 | every registered name, exactly once, in first-registration order |
| `Webshare.Webshare.On` | dist/webshare.js:21-24 | the listener is appended to the end of that event's list, which is created when missing; other events' lists are unchanged; the registry invariant is untouched, since it reads only the registry |
| `Webshare.Calls` | dist/webshare.js:27-29 | one call per listener, in registration order, each with the same arguments |
| `Webshare.Dispatch` | dist/webshare.js:25-30 | an event nobody listens to produces nothing; otherwise exactly one call per registered listener, the i-th call going to the i-th listener with the given arguments |
| `Webshare.Webshare.Trigger` | dist/webshare.js:25-30 | the log grows by exactly the listener calls of `Dispatch`, in order |
| `Webshare.IsPlatformSupported` | dist/webshare.js:33-39 | a platform is unsupported exactly when it requires native support and the capability is absent (properties in `Bundle.BundledSupport`) |
| `Webshare.SupportGuardRejects` | dist/webshare.js:48 | the guard as written: it rejects when its operand, the function object `isPlatformSupported`, is falsy |
| `Webshare.SupportGuardNeverRejects` | dist/webshare.js:47-48 | the support check as written never throws, for any platform and capability |
| `Webshare.PageDefaults` | dist/webshare.js:58-61 | the lowest layer: canonical link else location, Open Graph title else document title, empty text |
| `Webshare.PlatformOverride` | dist/webshare.js:62 | the highest layer: `args.social[platformId]` when `args.social` is truthy, else `{}` |
| `Webshare.ResolveArgs` | dist/webshare.js:58-62 | the two nested `Object.assign` calls over the three layers (properties in `ResolveArgsPrecedence`) |
| `Webshare.ResolveArgsPrecedence` | dist/webshare.js:58-62 | every field comes from `args.social[platformId]` if present there, else from the caller's args, else from the page defaults; `url`, `title` and `text` are always present |
| `Webshare.ResolveArgsExample` | dist/webshare.js:58-62 | with defaults url/title "D", caller title "C" and override title "S", the result is url "D", title "S", text "" plus the copied `social` field |
| `Webshare.SharePayload` | dist/webshare.js:66-67 | what `ok` and `error` pass to `trigger`: id, merged args, then `invokeShare`'s `arguments`, which are id and the reassigned merged args again |
| `Webshare.StepEffects` | dist/webshare.js:65-67 | what one handler step makes visible: a host call itself, a call of `ok` the 'success' listeners with the share payload, a call of `error` the 'error' listeners with it |
| `Webshare.Replay` | dist/webshare.js:65-68 | the effects of a sequence of handler steps, step after step in order (properties in `ReplaySnoc` and `ReplayTwo`) |
| `Webshare.Webshare.ShareSteps` | dist/webshare.js:65 | the steps the registered platform's handler takes on the arguments merged against the page as it is at the time of the share |
| `Webshare.Webshare.ShareEffects` | dist/webshare.js:65-68 | what such a share makes visible: the effects of its steps before the first exception, listeners receiving the share payload |
| `Webshare.Executed` | dist/webshare.js:65 | the handler steps that take place are exactly the longest prefix without an exception; the step after it, if any, is the exception |
| `Webshare.HandlerOutcome` | dist/webshare.js:65 | the handler call throws exactly when one of its steps is an exception, and then with the first such exception |
| `Webshare.ExecutedUpTo` | dist/webshare.js:65 | a handler whose first `i` steps raise nothing and whose step `i` raises (or which ends there) has executed exactly its first `i` steps |
| `Webshare.Webshare.InvokeShare` | dist/webshare.js:42-69 | an unregistered id throws "Platform unknown." and makes nothing visible; for a registered id the arguments are merged against the page as it is now, the handler's steps up to its first exception become visible in order, each `ok` triggering 'success' and each `error` triggering 'error', and `invokeShare` throws exactly what the handler lets escape |
| `Webshare.Webshare.RunSteps` | dist/webshare.js:65-68 | running a handler appends the effects of its steps before the first exception and ends with that exception, or normally when there is none |
| `Webshare.Webshare.PerformStep` | dist/webshare.js:65-67 | one step that does not raise appends exactly its effects to the log: the host call, or the 'success' listeners for `ok`, or the 'error' listeners for `error` |
| `Webshare.ReplaySnoc` | dist/webshare.js:65-68 | a log holding the effects of a handler's first `i` steps holds those of its first `i + 1` once step `i`'s effects are appended |
| `Webshare.ReplayTwo` | dist/webshare.js:65-68 | a handler that performs a host call and then one callback makes the host call visible before the listeners of that callback run |
| `Webshare.WithDefaults` | dist/webshare.js:74-79 | the options over the defaults `webshare`, `'all'`, `['native']` and a fresh `{}`, keeping the caller's args object itself |
| `Webshare.LooselyEqualsAll` | dist/webshare.js:82-83 | `list == 'all'` under loose equality, an array compared through its comma-joined string |
| `Webshare.LooselyEqualsAllIff` | dist/webshare.js:82-83 | a platform list means "all" exactly when it is the string 'all' or the array ['all'] |
| `Webshare.ExpandAll` | dist/webshare.js:82-83 | a list equal to 'all' becomes the registered ids, any other stays as given |
| `Webshare.TargetList` | dist/webshare.js:90 | the native list when the capability is present, else the general list |
| `Webshare.ClassAttr` | dist/webshare.js:102 | the class string `<c>-platform <c>-platform-<id>` (tokens in `ClassAttrTokens`) |
| `Webshare.MakeElement` | dist/webshare.js:98-102 | a link to '#' with the class string, the platform's icon, its id and a reference to the options' args object |
| `Webshare.BuildElements` | dist/webshare.js:93-106 | buttons exist exactly when every id is registered; then there is one per id, in order, with href '#', the class `c-platform c-platform-<id>`, the platform's icon and the options' args object; otherwise the TypeError on `icon` |
| `Webshare.PlanRender` | dist/webshare.js:72-110 | the wrapper is built from the native list when the capability is present and from the general list otherwise, after defaults and "all" expansion; it has the class name and one button per target id, in order; a string list throws on `.map` and an unknown id throws on `icon` |
| `Webshare.Webshare.Render` | dist/webshare.js:72-110 | a fresh empty args object is made for the defaults; on success exactly one wrapper, the planned one, is appended to the container; on a throw the container is unchanged |
| `Webshare.RenderAllListsRegistry` | dist/webshare.js:74-93 | without native support and with the general list 'all' (default or explicit), there is one button per registered id in registration order, with the class from the default or given class name |
| `Webshare.RenderNativeDefault` | dist/webshare.js:74-90 | with native support and default options, the single button is 'native', with the class built from the default prefix 'webshare'; an unregistered 'native' makes render throw |
| `Webshare.RenderedButtonsStayRegistered` | dist/webshare.js:95-100 | every rendered button names a platform that stays registered, so its click never meets an unknown id |
| `Webshare.ClassAttrTokens` | dist/webshare.js:102 | a button's class attribute holds exactly two classes, `<c>-platform` and `<c>-platform-<id>`, when neither contains whitespace |
| `Webshare.Webshare.Click` | dist/webshare.js:100 | a click invokes the share with the button's id, the page as it is now and the properties the button's args object holds now; the link to '#' is followed exactly when the share throws, whether for an unknown id or from the handler |
| `Bundle.FacebookUrl` | dist/webshare.bundle.js:119 | the sharer URL from the encoded `url` (properties in `FacebookUrlCarriesEncodedUrl`) |
| `Bundle.Message` | dist/webshare.bundle.js:139 | the text after the twitter and whatsapp endpoints: title, `%20`, encoded url, `%20`, text |
| `Bundle.TwitterUrl` | dist/webshare.bundle.js:139 | the status URL: the twitter endpoint followed by the message, absent when encoding throws |
| `Bundle.WhatsappUrl` | dist/webshare.bundle.js:151 | the send URL: the whatsapp endpoint followed by the message, absent when encoding throws |
| `Bundle.OpenSteps` | dist/webshare.bundle.js:117-124 | `window.open` then `ok` inside a `try` whose `catch` calls `error` (properties in `OpenUrlShareEffects`) |
| `Bundle.NativeSteps` | dist/webshare.bundle.js:130-132 | `navigator.share(args)` then `ok` or `error` as the promise settles, or an escaping TypeError when `navigator.share` is missing (properties in `NativeShareEffects`) |
| `Bundle.BundledHandlers` | dist/webshare.bundle.js:114-157 | which of the four handlers runs for each bundled platform |
| `Bundle.Install` | dist/webshare.bundle.js:114-157 | after the four registrations `getPlatforms()` is facebook, native, twitter, whatsapp, and the registry holds exactly those four definitions |
| `Bundle.BundledSupport` | dist/webshare.js:33-39 | `isPlatformSupported` is true for facebook, twitter and whatsapp whatever the capability, and true for native exactly when the capability is present |
| `Bundle.NativeReachedWithoutCapability` | dist/webshare.bundle.js:126-133 | the native platform is unsupported without the capability, yet the guard of `invokeShare` does not stop it |
| `Bundle.FacebookUrlCarriesEncodedUrl` | dist/webshare.bundle.js:119 | the URL exists exactly when encoding succeeds; it is the sharer prefix followed by exactly the encoded `url` |
| `Bundle.TwitterWhatsappDifferOnlyInPrefix` | dist/webshare.bundle.js:134-157 | the twitter and whatsapp URLs exist together, start with their own prefixes and agree on everything after them |
| `Bundle.TwitterUrlFromPageDefaults` | dist/webshare.bundle.js:139 | with no caller args the twitter URL is prefix + page title + `%20` + encoded page URL + `%20` + empty text |
| `Bundle.OpenUrlShareEffects` | dist/webshare.bundle.js:117-124 | facebook, twitter and whatsapp never throw out of their handler; they either open their URL and call every 'success' listener once, or open nothing and call every 'error' listener once (when encoding or opening throws) |
| `Bundle.NativeShareEffects` | dist/webshare.bundle.js:130-132 | with `navigator.share` present the handler passes the merged args to it, then runs the 'success' or the 'error' listeners as the promise settles; without it the handler throws a TypeError and nothing becomes visible |
| `Bundle.BundledDefaultRender` | dist/webshare.bundle.js:72-157 | default rendering of the bundle gives the single native button with the capability, otherwise the four buttons in registration order |

## Left out

- DOM work is reduced to records. `createElement`, `innerHTML`, `appendChild` and `onclick` become `Element`, `Wrapper` and `Container`. The wrapper and the buttons made before a throw are not modelled, because nothing ever sees them.
- Page metadata queries (`querySelector`, `document.title`, `location.href`) are a `PageMeta` parameter of each share. The capability test at `dist/webshare.js:8` is a protocol string and a boolean given to the constructor; whether `navigator.share` exists when the native handler runs is a separate `Host` field, not tied to that boolean.
- `encodeURI` is an uninterpreted parameter. `window.open` is recorded only by the URL it opens. `navigator.share` is recorded only by the arguments it receives. Promise timing is not modelled: a settled share calls back right after the request.
- `console.log(args)` at `dist/webshare.js:50` and the IIFE, `this` and `window` bindings are left out. So is the `this` that `trigger` gives listeners.
- Listeners are opaque, and a handler is known only by its sequence of steps. A listener that throws is not modelled, nor one that registers further listeners while `trigger` runs. A throw from a listener inside a bundled handler's `try` (which would then also call `error`) is not modelled either.
- `Object.keys` lists integer-like keys first in ascending order. The model keeps plain insertion order, so it holds for names that are not array indices.
- Names that coincide with `Object.prototype` members (`constructor`, `toString`, `__proto__`) are treated as ordinary keys.
- JsValues.Own: a string source of `Object.assign` would copy its characters under index keys. The model copies nothing from it, and likewise `Member` returns undefined for property reads on strings.
- Numbers are integers, and arrays and functions cannot appear inside share arguments. Caller options may only leave a property out, not set it to `undefined`. `options.args` must be an object.
- SVG icon markup is opaque and stands as short placeholder strings.
- `gulpfile.js` (build and minification) is not part of this model.
