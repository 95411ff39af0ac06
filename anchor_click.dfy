/** The decision `handle_anchor_click` makes for a click on the page
    (router/src/location/mod.rs): leave the click to the browser, or prevent its default and
    start a client-side navigation with a `LocationChange` built from the link. */
module AnchorClick {
  import opened Wrappers
  import opened Text
  import opened UrlContexts
  import opened Location

  /** An `<a>` element as the handler reads it: its resolved `href`, its `target`, its
      attributes, and the `state` and `replace` properties (`None` when reading the property
      throws). */
  datatype Anchor = Anchor(href: string, target: string, attributes: map<string, string>,
                           stateProperty: Option<JsValue>, replaceProperty: Option<JsValue>)

  /** An element on the event's composed path. */
  datatype EventTarget = AnchorElement(anchor: Anchor) | OtherElement

  /** The parts of a `MouseEvent` the handler reads. */
  datatype MouseEvent = MouseEvent(defaultPrevented: bool, button: int, metaKey: bool, altKey: bool,
                                   ctrlKey: bool, shiftKey: bool, composedPath: seq<EventTarget>)

  /** What the handler depends on besides the event: the window's origin (`None` when reading it
      throws), the router base, the URL parser, and the two unescaping functions. */
  datatype ClickEnv = ClickEnv(windowOrigin: Option<string>, routerBase: Option<string>,
                               parseWithBase: (string, string) -> Option<RouterUrl>,
                               unescape: string -> string, unescapeMinimal: string -> string)

  /** How a click ends. */
  datatype ClickOutcome =
    | OriginUnavailable                                      // the handler returns the error
    | BrowserDefault                                         // the handler returns without acting
    | ParsePanic                                             // the parse of `href` is unwrapped and fails
    | ClientNavigate(url: RouterUrl, change: LocationChange) // default prevented, navigation started

  /** A click the router never takes over: already handled, not the main button, or with a
      modifier key held. */
  predicate ModifiedClick(ev: MouseEvent) {
    ev.defaultPrevented || ev.button != 0 || ev.metaKey || ev.altKey || ev.ctrlKey || ev.shiftKey
  }

  /** The last anchor on the composed path. */
  function LastAnchor(path: seq<EventTarget>): Option<Anchor> {
    if path == [] then None
    else match path[|path| - 1]
      case AnchorElement(a) => Some(a)
      case OtherElement => LastAnchor(path[..|path| - 1])
  }

  /** `path[i]` is an anchor and no anchor follows it. */
  predicate LastAnchorAt(path: seq<EventTarget>, i: int) {
    && 0 <= i < |path| && path[i].AnchorElement?
    && forall j :: i < j < |path| ==> !path[j].AnchorElement?
  }

  /** `LastAnchor` finds nothing exactly when no element is an anchor, and otherwise the
      anchor after which no other anchor comes. */
  lemma {:induction false} LastAnchorIsLast(path: seq<EventTarget>)
    ensures LastAnchor(path).None? <==> forall i :: 0 <= i < |path| ==> !path[i].AnchorElement?
    ensures LastAnchor(path).Some? ==>
      exists i :: LastAnchorAt(path, i) && path[i].anchor == LastAnchor(path).value
  {
    if path != [] {
      var init := path[..|path| - 1];
      if path[|path| - 1].OtherElement? {
        LastAnchorIsLast(init);
        if LastAnchor(path).Some? {
          var i :| LastAnchorAt(init, i) && init[i].anchor == LastAnchor(init).value;
          assert LastAnchorAt(path, i);
        }
        forall i | 0 <= i < |init| ensures path[i] == init[i] { }
      } else {
        assert LastAnchorAt(path, |path| - 1);
      }
    }
  }

  /** The separators of the `rel` attribute. */
  const RelSeparators: set<char> := {' ', '\t'}

  /** The `rel` attribute, empty when absent. */
  function Rel(a: Anchor): string {
    if "rel" in a.attributes then a.attributes["rel"] else []
  }

  /** A link the router leaves to the browser before parsing it: it has a target, it has
      neither an `href` nor a `state` attribute, it is a download, or it is marked external. */
  predicate LeftToBrowser(a: Anchor) {
    || a.target != []
    || (a.href == [] && "state" !in a.attributes)
    || "download" in a.attributes
    || "external" in SplitOn(Rel(a), RelSeparators)
  }

  /** The base path the router serves, empty when it has none. */
  function BaseOf(env: ClickEnv): string {
    match env.routerBase
    case Some(b) => b
    case None => []
  }

  /** A parsed link that leaves the router: another origin, or a non-empty path outside a
      non-empty base. */
  predicate OutsideRouter(url: RouterUrl, origin: string, base: string, pathName: string) {
    url.value.origin != origin || (base != [] && pathName != [] && !StartsWith(pathName, base))
  }

  /** The `state` property: no state when it is `undefined` or cannot be read. */
  function StateOf(prop: Option<JsValue>): Option<JsValue> {
    match prop
    case Some(v) => if v == Undefined then None else Some(v)
    case None => None
  }

  /** The `replace` property: its value when it is a boolean, otherwise `false`. */
  function ReplaceOf(prop: Option<JsValue>): bool {
    match prop
    case Some(Bool(b)) => b
    case _ => false
  }

  /** The navigation the click asks for. */
  function Intent(a: Anchor, url: RouterUrl, env: ClickEnv): LocationChange {
    var pathName := env.unescapeMinimal(url.value.path);
    var to := pathName + QueryMark(url.value.search) + env.unescape(url.value.search) + env.unescape(url.value.hash);
    LocationChange(UrlContext(to), ReplaceOf(a.replaceProperty),
                   "noscroll" !in a.attributes && "data-noscroll" !in a.attributes,
                   StateNew(StateOf(a.stateProperty)))
  }

  /** The decision, in the order the handler makes it. */
  function ClickDecision(ev: MouseEvent, env: ClickEnv): ClickOutcome {
    match env.windowOrigin
    case None => OriginUnavailable
    case Some(origin) =>
      if ModifiedClick(ev) then BrowserDefault
      else match LastAnchor(ev.composedPath)
        case None => BrowserDefault
        case Some(a) =>
          if LeftToBrowser(a) then BrowserDefault
          else match env.parseWithBase(a.href, origin)
            case None => ParsePanic
            case Some(url) =>
              if OutsideRouter(url, origin, BaseOf(env), env.unescapeMinimal(url.value.path)) then BrowserDefault
              else ClientNavigate(url, Intent(a, url, env))
  }

  /** `handle_anchor_click`: reads the origin, bails on a modified click, walks the whole
      composed path keeping the last anchor, then applies the link and router checks in turn. */
  method HandleAnchorClick(ev: MouseEvent, env: ClickEnv) returns (outcome: ClickOutcome)
    ensures outcome == ClickDecision(ev, env)
  {
    if env.windowOrigin.None? {
      return OriginUnavailable;
    }
    var origin := env.windowOrigin.value;
    if ev.defaultPrevented || ev.button != 0 || ev.metaKey || ev.altKey || ev.ctrlKey || ev.shiftKey {
      return BrowserDefault;
    }
    var path := ev.composedPath;
    var found: Option<Anchor> := None;
    var i := 0;
    while i < |path|
      invariant 0 <= i <= |path|
      invariant found == LastAnchor(path[..i])
    {
      assert path[..i + 1][..i] == path[..i];
      if path[i].AnchorElement? {
        found := Some(path[i].anchor);
      }
      i := i + 1;
    }
    assert path[..i] == path;
    if found.None? {
      return BrowserDefault;
    }
    var a := found.value;
    if a.target != [] || (a.href == [] && "state" !in a.attributes) {
      return BrowserDefault;
    }
    var rel := Rel(a);
    if "download" in a.attributes || "external" in SplitOn(rel, RelSeparators) {
      return BrowserDefault;
    }
    var parsed := env.parseWithBase(a.href, origin);
    if parsed.None? {
      return ParsePanic;
    }
    var url := parsed.value;
    var pathName := env.unescapeMinimal(url.value.path);
    var base := BaseOf(env);
    if url.value.origin != origin || (base != [] && pathName != [] && !StartsWith(pathName, base)) {
      return BrowserDefault;
    }
    outcome := ClientNavigate(url, Intent(a, url, env));
  }

  /** `rel` marks the link external when `external` appears in it as a whole word between
      spaces, tabs or the ends. */
  ghost predicate RelExternal(a: Anchor) {
    exists k: nat :: DelimitedAt(Rel(a), "external", k, RelSeparators)
  }

  /** Every check about the link itself and its parse, for an anchor `a` and a window origin. */
  ghost predicate Navigable(a: Anchor, origin: string, env: ClickEnv) {
    && a.target == []
    && (a.href != [] || "state" in a.attributes)
    && "download" !in a.attributes
    && !RelExternal(a)
    && env.parseWithBase(a.href, origin).Some?
    && var url := env.parseWithBase(a.href, origin).value;
       var pathName := env.unescapeMinimal(url.value.path);
       && url.value.origin == origin
       && (BaseOf(env) == [] || pathName == [] || StartsWith(pathName, BaseOf(env)))
  }

  /** `external` is one `rel` token exactly when it occurs in `rel` as a whole word. */
  lemma RelExternalIff(a: Anchor)
    ensures "external" in SplitOn(Rel(a), RelSeparators) <==> RelExternal(a)
  {
    var t := "external";
    assert forall k :: 0 <= k < |t| ==> t[k] !in RelSeparators;
    SplitOnContains(Rel(a), t, RelSeparators);
  }

  /** The router takes over a click exactly when the origin can be read, the click is a plain
      main-button click, some element of the composed path is an anchor, and the last such
      anchor passes every link and router check. */
  lemma ClickNavigatesIff(ev: MouseEvent, env: ClickEnv)
    ensures ClickDecision(ev, env).ClientNavigate? <==>
      && env.windowOrigin.Some?
      && !ModifiedClick(ev)
      && exists i :: LastAnchorAt(ev.composedPath, i) && Navigable(ev.composedPath[i].anchor, env.windowOrigin.value, env)
  {
    var path := ev.composedPath;
    LastAnchorIsLast(path);
    match LastAnchor(path)
    case None =>
    case Some(a) =>
      RelExternalIff(a);
      var i :| LastAnchorAt(path, i) && path[i].anchor == a;
      forall j | LastAnchorAt(path, j) ensures j == i {
        assert !(j < i) && !(i < j);
      }
  }

  /** The error path: the handler panics exactly when a plain click on a link that passes the
      attribute checks carries an `href` the parser rejects. */
  lemma ClickPanicsIff(ev: MouseEvent, env: ClickEnv)
    ensures ClickDecision(ev, env) == ParsePanic <==>
      && env.windowOrigin.Some?
      && !ModifiedClick(ev)
      && LastAnchor(ev.composedPath).Some?
      && !LeftToBrowser(LastAnchor(ev.composedPath).value)
      && env.parseWithBase(LastAnchor(ev.composedPath).value.href, env.windowOrigin.value).None?
  {
  }

  /** The navigation a taken-over click starts: the parsed `href` of the last anchor, and a
      change whose URL is the minimally unescaped path, a `?` when there is a query, then the
      unescaped query and hash; which replaces the entry only when `replace` is `true`, scrolls
      unless `noscroll` or `data-noscroll` is present, and keeps the `state` property unless it
      is `undefined` or unreadable. */
  lemma ClickIntent(ev: MouseEvent, env: ClickEnv)
    requires ClickDecision(ev, env).ClientNavigate?
    ensures var a := LastAnchor(ev.composedPath).value;
      var url := ClickDecision(ev, env).url;
      var c := ClickDecision(ev, env).change;
      && Some(url) == env.parseWithBase(a.href, env.windowOrigin.value)
      && c.value.value == env.unescapeMinimal(url.value.path) + QueryMark(url.value.search)
                          + env.unescape(url.value.search) + env.unescape(url.value.hash)
      && (c.replace <==> a.replaceProperty == Some(Bool(true)))
      && (c.scroll <==> "noscroll" !in a.attributes && "data-noscroll" !in a.attributes)
      && (c.state.inner.None? <==> a.stateProperty.None? || a.stateProperty == Some(Undefined))
      && (c.state.inner.Some? ==> a.stateProperty == c.state.inner)
  {
  }

  /** `?` before a non-empty query, nothing before an empty one. */
  function QueryMark(search: string): string {
    if search == [] then "" else "?"
  }
}
