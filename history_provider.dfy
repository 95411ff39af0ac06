/** The path-based provider (router/src/location/history.rs): the router URL is the document's
    own path, query and hash, and a navigation hands its URL to the history API as it is. */
module HistoryProvider {
  import opened Wrappers
  import opened Text
  import opened UrlContexts
  import opened Location
  import opened Navigation

  /** The query `current` stores: the browser's search without its leading `?`, or empty when
      the search does not start with one. */
  function StripQuery(search: string): (r: string)
    ensures StartsWith(search, "?") ==> "?" + r == search
    ensures !StartsWith(search, "?") ==> r == []
  {
    if StartsWith(search, "?") then search[1..] else []
  }

  /** `current`: the window location as a router URL; `paramsOf` parses the browser's search
      into its pairs and fails with `None`. */
  function Current(w: WindowLocation, paramsOf: string -> Option<ParamsMap>): Option<RouterUrl> {
    match paramsOf(w.search)
    case None => None
    case Some(params) => Some(UrlContext(Url(w.origin, w.pathname, StripQuery(w.search), params, w.hash)))
  }

  /** A search as browsers report it: empty, or `?` and a non-empty query. */
  predicate BrowserSearch(search: string) {
    search == [] || (StartsWith(search, "?") && |search| >= 2)
  }

  /** What `current` reads is the window location: it keeps origin and path, reads fail only
      where the query cannot be parsed, and its full path is the browser's path, search and
      hash put back together. */
  lemma CurrentReadsWindow(w: WindowLocation, paramsOf: string -> Option<ParamsMap>)
    requires BrowserSearch(w.search) && (w.hash == [] || StartsWith(w.hash, "#"))
    ensures Current(w, paramsOf).None? <==> paramsOf(w.search).None?
    ensures Current(w, paramsOf).Some? ==>
      var u := Current(w, paramsOf).value.value;
      && u.origin == w.origin && u.path == w.pathname && u.searchParams == paramsOf(w.search).value
      && FullPath(u) == w.pathname + w.search + w.hash
  {
    if w.search != [] {
      assert "?" + w.search[1..] == w.search;
    }
  }

  /** The href of a commit: the navigation's URL itself. */
  function Href(value: string): string {
    value
  }

  /** `BrowserRouter::new`. */
  method New(window: WindowLocation, paramsOf: string -> Option<ParamsMap>,
             resolve: (WindowLocation, string) -> WindowLocation) returns (r: Option<Router>)
    ensures r.None? <==> paramsOf(window.search).None?
    ensures r.Some? ==>
      && fresh(r.value) && r.value.Valid() && r.value.resolve == resolve
      && (forall w :: r.value.current(w) == Current(w, paramsOf))
      && (forall v :: r.value.hrefOf(v) == v)
      && r.value.url == Current(window, paramsOf).value
      && r.value.pathStack == [r.value.url] && !r.value.isBack && r.value.pending == None
      && r.value.window == window && r.value.history == [] && r.value.tasks == map[]
  {
    r := Router.Create((w: WindowLocation) => Current(w, paramsOf), Href, resolve, window);
  }

  /** A commit of the path-based provider hands the history API the navigation's own URL and
      state; in particular the default change replaces the entry with an `undefined` state. */
  lemma CommitEntry(r: Router, change: LocationChange)
    requires forall v :: r.hrefOf(v) == v
    ensures r.EntryFor(change).href == change.value.value
    ensures r.EntryFor(change).op == (if change.replace then ReplaceState else PushState)
    ensures r.EntryFor(change).state == ToJsValue(change.state)
    ensures r.EntryFor(DefaultLocationChange()) == HistoryEntry(ReplaceState, [], Undefined)
  {
  }
}
