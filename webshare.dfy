/** The share engine: platform registry, event bus, argument resolution, dispatch
    and rendering of share buttons, as one `Webshare` object whose dictionaries are
    updated in place. The DOM is reduced to element records and a container that
    holds a list of wrappers; effects visible outside the object (listener calls,
    windows opened, native share requests) are appended to `log`. */
module Webshare {
  import opened JsValues

  /** Identity of a listener function registered with `on`. */
  type ListenerId = string

  /** A share target. `handler` names the handler function; what running it does
      is supplied by the caller of `InvokeShare` (see `Step`). */
  datatype Platform = Platform(name: string, icon: string, requiresNativeSupport: bool, handler: string)

  /** What a `throw` carries: the engine throws plain strings, the runtime throws TypeErrors. */
  datatype Thrown = ThrownString(message: string) | TypeError(what: string)

  const PlatformUnknown: Thrown := ThrownString("Platform unknown.")
  const PlatformNotSupported: Thrown := ThrownString("Platform is not supported.")
  /** Reading `platform.icon` when the id is not registered. */
  const IconOfUndefined: Thrown := TypeError("cannot read property 'icon' of undefined")
  /** Calling `.map` on a platform list that is a string other than 'all'. */
  const MapOfString: Thrown := TypeError("targetPlatforms.map is not a function")

  datatype Completion = Normal | Throw(thrown: Thrown)

  datatype Result<T> = Ok(value: T) | Err(error: Thrown)

  /** The capability flag: secure transport and a native share primitive, fixed at start-up. */
  predicate NativeShareSupported(protocol: string, hasNativeShare: bool) {
    protocol == "https:" && hasNativeShare
  }

  // ---------------------------------------------------------------- registry

  predicate Distinct(s: seq<string>) {
    forall i, j :: 0 <= i < j < |s| ==> s[i] != s[j]
  }

  /** The key order of an object after `o[k] = v`: a new key goes last, a key
      already present keeps its place. */
  function InsertKey(keys: seq<string>, k: string): (r: seq<string>)
    ensures forall x :: x in r <==> x in keys || x == k
    ensures |keys| <= |r| && r[..|keys|] == keys
    ensures k in keys ==> |r| == |keys|
    ensures Distinct(keys) ==> Distinct(r)
  {
    if k in keys then keys else keys + [k]
  }

  /** `isPlatformSupported`: only a platform that requires native support can be
      unsupported, and only when the capability is absent. */
  predicate IsPlatformSupported(p: Platform, native: bool) {
    !(p.requiresNativeSupport && !native)
  }

  /** The operand of the support guard in `invokeShare`: the function object
      `isPlatformSupported` itself, which is never called. Functions are objects,
      so the guard sees a truthy value. */
  const IsPlatformSupportedRef: Value := Obj(map[])

  /** The support guard as written: it rejects exactly when its operand is falsy. */
  predicate SupportGuardRejects(p: Platform, native: bool) {
    !Truthy(IsPlatformSupportedRef)
  }

  /** The guard lets every registered platform through, supported or not. */
  lemma SupportGuardNeverRejects(p: Platform, native: bool)
    ensures !SupportGuardRejects(p, native)
  {
  }

  // --------------------------------------------------------------- event bus

  /** Something observable outside the engine. */
  datatype Effect =
    | ListenerCalled(listener: ListenerId, args: seq<Value>)
    | WindowOpened(url: string)
    | NativeShareCalled(data: JsObject)

  function ListenersOf(events: map<string, seq<ListenerId>>, e: string): seq<ListenerId> {
    if e in events then events[e] else []
  }

  /** One call per listener, in registration order, each with the same arguments. */
  function Calls(listeners: seq<ListenerId>, args: seq<Value>): (r: seq<Effect>)
    ensures |r| == |listeners|
    ensures forall i :: 0 <= i < |r| ==> r[i] == ListenerCalled(listeners[i], args)
  {
    if listeners == [] then [] else [ListenerCalled(listeners[0], args)] + Calls(listeners[1..], args)
  }

  /** What `trigger(e, args)` does: nothing for an event nobody listens to. */
  function Dispatch(events: map<string, seq<ListenerId>>, e: string, args: seq<Value>): (r: seq<Effect>)
    ensures e !in events ==> r == []
    ensures e in events ==> |r| == |events[e]|
    ensures e in events ==> forall i :: 0 <= i < |r| ==> r[i] == ListenerCalled(events[e][i], args)
  {
    Calls(ListenersOf(events, e), args)
  }

  // ---------------------------------------------------------------- dispatch

  /** One observable step of a platform handler: a call into the host, a call of
      the `ok` / `error` callback that `invokeShare` hands it, or an exception the
      handler lets escape, which ends the handler and `invokeShare` with it. */
  datatype Step = HostCall(effect: Effect) | CallOk | CallError | Raise(thrown: Thrown)

  /** The steps that take place: those before the first `Raise`. */
  function Executed(steps: seq<Step>): (r: seq<Step>)
    ensures |r| <= |steps| && r == steps[..|r|]
    ensures forall i :: 0 <= i < |r| ==> !r[i].Raise?
    ensures |r| < |steps| ==> steps[|r|].Raise?
  {
    if steps == [] || steps[0].Raise? then [] else [steps[0]] + Executed(steps[1..])
  }

  /** How the handler call ends: with the first exception it lets escape, if any. */
  function HandlerOutcome(steps: seq<Step>): (c: Completion)
    ensures c.Throw? <==> exists i :: 0 <= i < |steps| && steps[i].Raise?
    ensures c.Throw? ==> steps[|Executed(steps)|] == Raise(c.thrown)
  {
    var n := |Executed(steps)|;
    if n < |steps| then Throw(steps[n].thrown) else Normal
  }

  /** A handler that has run its first `i` steps without an exception and then
      raises one, or ends, has executed exactly those steps. */
  lemma {:induction false} ExecutedUpTo(steps: seq<Step>, i: nat)
    requires i <= |steps|
    requires forall j :: 0 <= j < i ==> !steps[j].Raise?
    requires i == |steps| || steps[i].Raise?
    ensures Executed(steps) == steps[..i]
  {
    if i > 0 {
      ExecutedUpTo(steps[1..], i - 1);
      assert steps[..i] == [steps[0]] + steps[1..][..i - 1];
    }
  }

  /** The arguments the `ok` and `error` arrows pass to `trigger`: the platform id
      and the merged arguments, followed by `invokeShare`'s own `arguments` (the
      arrows have none of their own; in sloppy mode that object is mapped to the
      parameters, so its second entry is the reassigned, merged `args`). Whatever
      the handler passes to `ok` or `error` is dropped. */
  function SharePayload(id: string, merged: JsObject): seq<Value> {
    [Str(id), Obj(merged), Str(id), Obj(merged)]
  }

  function StepEffects(events: map<string, seq<ListenerId>>, step: Step, payload: seq<Value>): seq<Effect> {
    match step
    case HostCall(e) => [e]
    case CallOk => Dispatch(events, "success", payload)
    case CallError => Dispatch(events, "error", payload)
    case Raise(_) => []
  }

  /** The effects of a handler's steps, in order. */
  function Replay(events: map<string, seq<ListenerId>>, steps: seq<Step>, payload: seq<Value>): seq<Effect> {
    if steps == [] then []
    else Replay(events, steps[..|steps| - 1], payload) + StepEffects(events, steps[|steps| - 1], payload)
  }

  /** A log that holds the effects of the first `i` steps after `start` holds those
      of the first `i + 1` once the effects of step `i` are appended. */
  lemma ReplaySnoc(events: map<string, seq<ListenerId>>, steps: seq<Step>, i: nat,
                   start: seq<Effect>, log: seq<Effect>, payload: seq<Value>)
    requires i < |steps|
    requires log == start + Replay(events, steps[..i], payload)
    ensures log + StepEffects(events, steps[i], payload) == start + Replay(events, steps[..i + 1], payload)
  {
    assert steps[..i + 1][..i] == steps[..i];
    var done := Replay(events, steps[..i], payload);
    var next := StepEffects(events, steps[i], payload);
    Associative(start, done, next);
  }

  lemma Associative<T>(a: seq<T>, b: seq<T>, c: seq<T>)
    ensures (a + b) + c == a + (b + c)
  {
  }

  lemma ReplayOne(events: map<string, seq<ListenerId>>, a: Step, payload: seq<Value>)
    ensures Replay(events, [a], payload) == StepEffects(events, a, payload)
  {
  }

  lemma ReplayTwo(events: map<string, seq<ListenerId>>, a: Step, b: Step, payload: seq<Value>)
    ensures Replay(events, [a, b], payload) == StepEffects(events, a, payload) + StepEffects(events, b, payload)
  {
    assert [a, b][..1] == [a];
    ReplayOne(events, a, payload);
  }

  /** Page metadata read for the default arguments. */
  datatype PageMeta = PageMeta(canonicalHref: Option<string>, ogTitle: Option<string>, documentTitle: string, locationHref: string)

  /** The lowest layer: canonical link or location, Open Graph title or document title, empty text. */
  function PageDefaults(page: PageMeta): JsObject {
    map[
      "url" := Str(if page.canonicalHref.Some? then page.canonicalHref.value else page.locationHref),
      "title" := Str(if page.ogTitle.Some? then page.ogTitle.value else page.documentTitle),
      "text" := Str("")
    ]
  }

  /** The highest layer: `args.social[platformId]` when `args.social` is truthy, else `{}`. */
  function PlatformOverride(args: JsObject, id: string): Value {
    var social := Get(args, "social");
    if Truthy(social) then Member(social, id) else Obj(map[])
  }

  /** The arguments a handler receives: a fresh object built from three layers. */
  function ResolveArgs(page: PageMeta, args: JsObject, id: string): JsObject {
    Assign(Assign(PageDefaults(page), Obj(args)), PlatformOverride(args, id))
  }

  /** Each field of the resolved arguments comes from the highest layer that has
      it: the platform's override, then the caller's arguments, then the page
      defaults; `url`, `title` and `text` are always there. */
  lemma ResolveArgsPrecedence(page: PageMeta, args: JsObject, id: string)
    ensures var r := ResolveArgs(page, args, id);
      "url" in r && "title" in r && "text" in r &&
      (forall k :: k in r <==> k in PageDefaults(page) || k in args || k in Own(PlatformOverride(args, id))) &&
      (forall k :: k in r ==>
        r[k] == (if k in Own(PlatformOverride(args, id)) then Own(PlatformOverride(args, id))[k]
                 else if k in args then args[k]
                 else PageDefaults(page)[k]))
  {
  }

  /** Layering on a small case: the override's title beats the caller's, the page
      supplies the url, and the caller's `social` block itself is copied along. */
  lemma ResolveArgsExample()
    ensures var social := Obj(map["p" := Obj(map["title" := Str("S")])]);
      ResolveArgs(PageMeta(None, None, "D", "D"), map["title" := Str("C"), "social" := social], "p") ==
        map["url" := Str("D"), "title" := Str("S"), "text" := Str(""), "social" := social]
  {
  }

  // ------------------------------------------------------------------ render

  /** A platform list option: a string (only 'all' is meaningful) or an array of ids. */
  datatype PlatformList = Text(s: string) | Ids(ids: seq<string>)

  /** The caller's `args` object. `render` keeps a reference to it, and each click
      reads its properties as they are at that moment. */
  class ArgsObject {
    var fields: JsObject

    constructor (fields: JsObject)
      ensures this.fields == fields
    {
      this.fields := fields;
    }
  }

  /** The options object passed to `render`; `None` is a property the caller left out. */
  datatype RenderOptions = RenderOptions(
    className: Option<string>,
    platforms: Option<PlatformList>,
    nativePlatforms: Option<PlatformList>,
    args: Option<ArgsObject>)

  const NoOptions: RenderOptions := RenderOptions(None, None, None, None)

  /** The options after the defaults are applied. */
  datatype Settings = Settings(className: string, platforms: PlatformList, nativePlatforms: PlatformList, args: ArgsObject)

  /** `Object.assign` of the options onto the defaults; `emptyArgs` is the `{}` the
      defaults object is created with. */
  function WithDefaults(o: RenderOptions, emptyArgs: ArgsObject): Settings {
    Settings(
      if o.className.Some? then o.className.value else "webshare",
      if o.platforms.Some? then o.platforms.value else Text("all"),
      if o.nativePlatforms.Some? then o.nativePlatforms.value else Ids(["native"]),
      if o.args.Some? then o.args.value else emptyArgs)
  }

  /** An array of strings converted to a string, as `==` against a string converts it. */
  function Join(ids: seq<string>): string {
    if |ids| == 0 then ""
    else if |ids| == 1 then ids[0]
    else Join(ids[..|ids| - 1]) + "," + ids[|ids| - 1]
  }

  /** `list == 'all'` with JavaScript's loose equality. */
  predicate LooselyEqualsAll(l: PlatformList) {
    match l
    case Text(s) => s == "all"
    case Ids(ids) => Join(ids) == "all"
  }

  /** Both the string 'all' and the one-element array ['all'] select every platform. */
  lemma LooselyEqualsAllIff(l: PlatformList)
    ensures LooselyEqualsAll(l) <==> l == Text("all") || l == Ids(["all"])
  {
    if l.Ids? && |l.ids| >= 2 {
      var ids := l.ids;
      var front := Join(ids[..|ids| - 1]);
      assert Join(ids) == front + "," + ids[|ids| - 1];
      assert Join(ids)[|front|] == ',';
    }
  }

  function ExpandAll(l: PlatformList, keys: seq<string>): PlatformList {
    if LooselyEqualsAll(l) then Ids(keys) else l
  }

  /** The list `render` walks: the native list when the capability is present, the
      general list otherwise, with 'all' replaced by the registered ids. */
  function TargetList(native: bool, s: Settings, keys: seq<string>): PlatformList {
    if native then ExpandAll(s.nativePlatforms, keys) else ExpandAll(s.platforms, keys)
  }

  /** A share button: a link to '#' whose click invokes the share with the
      properties `clickArgs` holds at the time of the click. */
  datatype Element = Element(href: string, className: string, innerHTML: string, platformId: string, clickArgs: ArgsObject)

  /** The `div` that holds the buttons of one `render` call. */
  datatype Wrapper = Wrapper(className: string, children: seq<Element>)

  function ClassAttr(prefix: string, id: string): string {
    prefix + "-platform " + prefix + "-platform-" + id
  }

  function MakeElement(p: Platform, id: string, s: Settings): Element {
    Element("#", ClassAttr(s.className, id), p.icon, id, s.args)
  }

  /** The buttons for `ids`, in order; the first unregistered id throws. */
  function BuildElements(ids: seq<string>, platforms: map<string, Platform>, s: Settings): (r: Result<seq<Element>>)
    ensures r.Ok? <==> forall j :: 0 <= j < |ids| ==> ids[j] in platforms
    ensures r.Ok? ==> |r.value| == |ids|
    ensures r.Ok? ==> forall j :: 0 <= j < |ids| ==> r.value[j] == MakeElement(platforms[ids[j]], ids[j], s)
    ensures r.Err? ==> r.error == IconOfUndefined
  {
    if ids == [] then Ok([])
    else if ids[0] !in platforms then Err(IconOfUndefined)
    else
      match BuildElements(ids[1..], platforms, s)
      case Ok(rest) => Ok([MakeElement(platforms[ids[0]], ids[0], s)] + rest)
      case Err(t) => Err(t)
  }

  /** The wrapper one `render` call attaches, or what it throws before attaching anything. */
  function PlanRender(options: RenderOptions, emptyArgs: ArgsObject, native: bool, keys: seq<string>, platforms: map<string, Platform>): (r: Result<Wrapper>)
    ensures r.Ok? <==>
      TargetList(native, WithDefaults(options, emptyArgs), keys).Ids? &&
      forall id :: id in TargetList(native, WithDefaults(options, emptyArgs), keys).ids ==> id in platforms
    ensures r.Err? && TargetList(native, WithDefaults(options, emptyArgs), keys).Text? ==> r.error == MapOfString
    ensures r.Err? && TargetList(native, WithDefaults(options, emptyArgs), keys).Ids? ==> r.error == IconOfUndefined
    ensures r.Ok? ==>
      var s := WithDefaults(options, emptyArgs);
      var ids := TargetList(native, s, keys).ids;
      r.value.className == s.className && |r.value.children| == |ids| &&
      forall i :: 0 <= i < |ids| ==>
        var e := r.value.children[i];
        e.platformId == ids[i] && e.href == "#" && e.className == ClassAttr(s.className, ids[i]) &&
        e.innerHTML == platforms[ids[i]].icon && e.clickArgs == s.args
  {
    var s := WithDefaults(options, emptyArgs);
    match TargetList(native, s, keys)
    case Text(_) => Err(MapOfString)
    case Ids(ids) =>
      match BuildElements(ids, platforms, s)
      case Ok(els) => Ok(Wrapper(s.className, els))
      case Err(t) => Err(t)
  }

  /** Every button of a wrapper names a platform that was registered when it was
      built; since registrations are never removed, its click never meets an
      unknown id. */
  lemma RenderedButtonsStayRegistered(options: RenderOptions, emptyArgs: ArgsObject, native: bool, keys: seq<string>,
                                      platforms: map<string, Platform>, later: map<string, Platform>)
    requires PlanRender(options, emptyArgs, native, keys, platforms).Ok?
    requires platforms.Keys <= later.Keys
    ensures forall e :: e in PlanRender(options, emptyArgs, native, keys, platforms).value.children ==> e.platformId in later
  {
  }

  /** With the default (or an explicit 'all') general list and no native capability,
      `render` makes one button per registered platform, in registration order. */
  lemma RenderAllListsRegistry(options: RenderOptions, emptyArgs: ArgsObject, keys: seq<string>, platforms: map<string, Platform>)
    requires options.platforms in {None, Some(Text("all")), Some(Ids(["all"]))}
    requires forall k :: k in keys ==> k in platforms
    ensures var r := PlanRender(options, emptyArgs, false, keys, platforms);
      r.Ok? && |r.value.children| == |keys| &&
      forall i :: 0 <= i < |keys| ==>
        r.value.children[i].platformId == keys[i] &&
        r.value.children[i].className == ClassAttr(WithDefaults(options, emptyArgs).className, keys[i])
  {
  }

  /** With the native capability and default options, `render` makes the single
      'native' button, or throws if no 'native' platform is registered. */
  lemma RenderNativeDefault(emptyArgs: ArgsObject, keys: seq<string>, platforms: map<string, Platform>)
    ensures var r := PlanRender(NoOptions, emptyArgs, true, keys, platforms);
      (r.Ok? <==> "native" in platforms) &&
      (r.Ok? ==> |r.value.children| == 1 && r.value.children[0].platformId == "native" &&
                 r.value.children[0].className == ClassAttr("webshare", "native")) &&
      (r.Err? ==> r.error == IconOfUndefined)
  {
  }

  // ------------------------------------------------------------ class tokens

  /** ASCII whitespace, which separates the tokens of a class attribute. */
  predicate IsSpace(c: char) {
    c == ' ' || c == '\t' || c == '\n' || c == '\r' || c as int == 12
  }

  predicate NoSpace(w: string) {
    forall i :: 0 <= i < |w| ==> !IsSpace(w[i])
  }

  function WordLength(s: string): (n: nat)
    ensures n <= |s|
    ensures forall i :: 0 <= i < n ==> !IsSpace(s[i])
    ensures n < |s| ==> IsSpace(s[n])
  {
    if s == [] || IsSpace(s[0]) then 0 else 1 + WordLength(s[1..])
  }

  /** The class names a class attribute denotes. */
  function ClassList(s: string): seq<string>
    decreases |s|
  {
    if s == [] then []
    else if IsSpace(s[0]) then ClassList(s[1..])
    else
      var n := WordLength(s);
      [s[..n]] + ClassList(s[n..])
  }

  lemma ClassListOfWord(w: string, rest: string)
    requires w != [] && NoSpace(w)
    requires rest == [] || IsSpace(rest[0])
    ensures ClassList(w + rest) == [w] + ClassList(rest)
  {
    var s := w + rest;
    var n := WordLength(s);
    assert forall i :: 0 <= i < |w| ==> s[i] == w[i];
    assert |w| < |s| ==> s[|w|] == rest[0];
    assert n == |w|;
    assert s[..n] == w;
    assert s[n..] == rest;
  }

  /** A button carries exactly two classes, the shared one and the per-platform one,
      as long as neither the prefix nor the id contains whitespace. */
  lemma ClassAttrTokens(prefix: string, id: string)
    requires NoSpace(prefix) && NoSpace(id)
    ensures ClassList(ClassAttr(prefix, id)) == [prefix + "-platform", prefix + "-platform-" + id]
  {
    var first := prefix + "-platform";
    var second := prefix + "-platform-" + id;
    assert NoSpace(first) by {
      forall i | 0 <= i < |first| ensures !IsSpace(first[i]) {
        if i >= |prefix| { assert first[i] == "-platform"[i - |prefix|]; }
      }
    }
    assert NoSpace(second) by {
      forall i | 0 <= i < |second| ensures !IsSpace(second[i]) {
        if i < |prefix| {
        } else if i < |prefix| + 10 {
          assert second[i] == "-platform-"[i - |prefix|];
        } else {
          assert second[i] == id[i - |prefix| - 10];
        }
      }
    }
    assert ClassAttr(prefix, id) == first + (" " + second);
    ClassListOfWord(first, " " + second);
    assert (" " + second)[1..] == second;
    ClassListOfWord(second, []);
    assert second + [] == second;
  }

  // ------------------------------------------------------------------ objects

  /** The element `render` is given: it receives one wrapper per successful call. */
  class Container {
    var wrappers: seq<Wrapper>

    constructor ()
      ensures wrappers == []
    {
      wrappers := [];
    }
  }

  class Webshare {
    const native: bool
    var platforms: map<string, Platform>
    /** The registry's keys in first-insertion order, as `Object.keys` lists them. */
    var order: seq<string>
    var events: map<string, seq<ListenerId>>
    var log: seq<Effect>

    /** The registry invariant; it concerns the registry alone, so changes to the
        events or the log keep it. */
    ghost predicate Valid()
      reads this`platforms, this`order
    {
      Distinct(order)
      && (forall k :: k in platforms <==> k in order)
      && (forall k :: k in platforms ==> platforms[k].name == k)
    }

    constructor (protocol: string, hasNativeShare: bool)
      ensures Valid()
      ensures native == NativeShareSupported(protocol, hasNativeShare)
      ensures platforms == map[] && order == [] && events == map[] && log == []
    {
      native := NativeShareSupported(protocol, hasNativeShare);
      platforms := map[];
      order := [];
      events := map[];
      log := [];
    }

    /** Registers `p` under its name, replacing any platform of that name. */
    method AddPlatform(p: Platform)
      requires Valid()
      modifies this`platforms, this`order
      ensures Valid()
      ensures platforms == old(platforms)[p.name := p]
      ensures order == InsertKey(old(order), p.name)
      ensures events == old(events) && log == old(log)
    {
      platforms := platforms[p.name := p];
      order := InsertKey(order, p.name);
    }

    /** Every registered name exactly once, in first-registration order. */
    method GetPlatforms() returns (ids: seq<string>)
      requires Valid()
      ensures ids == order
      ensures Distinct(ids)
      ensures forall k :: k in ids <==> k in platforms
    {
      ids := order;
    }

    /** Appends `h` to the listeners of `e`, creating the list on first use. */
    method On(e: string, h: ListenerId)
      modifies this`events
      ensures events == old(events)[e := ListenersOf(old(events), e) + [h]]
    {
      if e !in events {
        events := events[e := []];
      }
      events := events[e := events[e] + [h]];
    }

    /** Calls every listener of `e` in order with `args`; nothing for an unknown event. */
    method Trigger(e: string, args: seq<Value>)
      modifies this`log
      ensures log == old(log) + Dispatch(events, e, args)
    {
      if e !in events {
        return;
      }
      var handlers := events[e];
      for i := 0 to |handlers|
        invariant log == old(log) + Calls(handlers[..i], args)
      {
        log := log + [ListenerCalled(handlers[i], args)];
      }
      assert handlers[..|handlers|] == handlers;
    }

    /** The handler's steps for a share of `id` with caller arguments `args`, on the
        page as it is at that moment, the handler behaving as `run` says. */
    function ShareSteps(id: string, args: JsObject, page: PageMeta, run: (string, JsObject) -> seq<Step>): seq<Step>
      reads this`platforms
      requires id in platforms
    {
      run(platforms[id].handler, ResolveArgs(page, args, id))
    }

    /** What such a share makes visible: the effects of the steps before the first
        exception the handler lets escape. */
    function ShareEffects(id: string, args: JsObject, page: PageMeta, run: (string, JsObject) -> seq<Step>): seq<Effect>
      reads this`platforms, this`events
      requires id in platforms
    {
      var merged := ResolveArgs(page, args, id);
      Replay(events, Executed(ShareSteps(id, args, page, run)), SharePayload(id, merged))
    }

    /** Carries out one step of a handler that does not raise. */
    method PerformStep(step: Step, payload: seq<Value>)
      requires !step.Raise?
      modifies this`log
      ensures log == old(log) + StepEffects(events, step, payload)
    {
      match step {
        case HostCall(e) =>
          log := log + [e];
        case CallOk =>
          Trigger("success", payload);
        case CallError =>
          Trigger("error", payload);
      }
    }

    /** Looks `id` up, resolves the arguments against the page as it is now and runs
        the platform's handler; each `ok` triggers 'success', each `error` triggers
        'error', and an exception the handler lets escape ends the share with it. */
    method InvokeShare(id: string, args: JsObject, page: PageMeta, run: (string, JsObject) -> seq<Step>)
      returns (c: Completion)
      modifies this`log
      ensures id !in platforms ==> c == Throw(PlatformUnknown) && log == old(log)
      ensures id in platforms ==>
        c == HandlerOutcome(ShareSteps(id, args, page, run)) &&
        log == old(log) + ShareEffects(id, args, page, run)
    {
      if id !in platforms {
        return Throw(PlatformUnknown);
      }
      var platform := platforms[id];
      if SupportGuardRejects(platform, native) {
        return Throw(PlatformNotSupported);
      }
      var merged := ResolveArgs(page, args, id);
      var payload := SharePayload(id, merged);
      var steps := run(platform.handler, merged);
      assert ShareSteps(id, args, page, run) == steps;
      c := RunSteps(steps, payload);
    }

    /** Runs a handler's steps in order until one raises; listeners see `payload`. */
    method RunSteps(steps: seq<Step>, payload: seq<Value>) returns (c: Completion)
      modifies this`log
      ensures c == HandlerOutcome(steps)
      ensures log == old(log) + Replay(events, Executed(steps), payload)
    {
      for i := 0 to |steps|
        invariant forall j :: 0 <= j < i ==> !steps[j].Raise?
        invariant log == old(log) + Replay(events, steps[..i], payload)
      {
        var step := steps[i];
        if step.Raise? {
          ExecutedUpTo(steps, i);
          return Throw(step.thrown);
        }
        ReplaySnoc(events, steps, i, old(log), log, payload);
        PerformStep(step, payload);
      }
      ExecutedUpTo(steps, |steps|);
      assert steps[..|steps|] == steps;
      c := Normal;
    }

    /** Builds one wrapper of buttons and attaches it to `container`; a throw leaves
        `container` as it was. `emptyArgs` is the `{}` of the defaults object, the
        args every button shares when the caller gives none. */
    method Render(container: Container, options: RenderOptions) returns (c: Completion, emptyArgs: ArgsObject)
      requires Valid()
      modifies container
      ensures fresh(emptyArgs) && emptyArgs.fields == map[]
      ensures match PlanRender(options, emptyArgs, native, order, platforms)
        case Ok(w) => c == Normal && container.wrappers == old(container.wrappers) + [w]
        case Err(t) => c == Throw(t) && container.wrappers == old(container.wrappers)
    {
      emptyArgs := new ArgsObject(map[]);
      var s := WithDefaults(options, emptyArgs);
      var keys := GetPlatforms();
      var target := TargetList(native, s, keys);
      if target.Text? {
        return Throw(MapOfString), emptyArgs;
      }
      var ids := target.ids;
      var built: seq<Element> := [];
      var i := 0;
      while i < |ids|
        invariant 0 <= i <= |ids|
        invariant forall j :: 0 <= j < i ==> ids[j] in platforms
        invariant |built| == i
        invariant forall j :: 0 <= j < i ==> built[j] == MakeElement(platforms[ids[j]], ids[j], s)
      {
        if ids[i] !in platforms {
          return Throw(IconOfUndefined), emptyArgs;
        }
        built := built + [MakeElement(platforms[ids[i]], ids[i], s)];
        i := i + 1;
      }
      var plan := BuildElements(ids, platforms, s);
      assert plan.Ok? && plan.value == built;
      container.wrappers := container.wrappers + [Wrapper(s.className, built)];
      c := Normal;
    }

    /** A click on a button: the share runs with the page as it is now and the
        properties the button's args object holds now; the link is followed
        exactly when the share throws. */
    method Click(el: Element, page: PageMeta, run: (string, JsObject) -> seq<Step>)
      returns (c: Completion, followsLink: bool)
      modifies this`log
      ensures el.platformId !in platforms ==> c == Throw(PlatformUnknown) && log == old(log)
      ensures el.platformId in platforms ==>
        c == HandlerOutcome(ShareSteps(el.platformId, el.clickArgs.fields, page, run)) &&
        log == old(log) + ShareEffects(el.platformId, el.clickArgs.fields, page, run)
      ensures followsLink <==> c.Throw?
    {
      c := InvokeShare(el.platformId, el.clickArgs.fields, page, run);
      followsLink := c.Throw?;
    }
  }
}
