/** The hash-based provider (router/src/location/hash.rs): the router's path lives in the
    document's hash, so every committed href has path `/` and the router path after `#`. */
module HashProvider {
  import opened Wrappers
  import opened Text
  import opened UrlContexts
  import opened Location
  import opened Navigation

  /** `browser_to_router_url`: the path is the hash without one leading `#` (`/` when the hash
      has none) and the hash is cleared; the rest is kept. */
  function BrowserToRouterUrl(u: BrowserContext<Url>): RouterUrl {
    var updated := MapMut(u, (x: Url) =>
      (x.(path := if StartsWith(x.hash, "#") then x.hash[1..] else "/", hash := []), ())).0;
    ChangeContext(updated, BrowserUrlContext)
  }

  /** `router_to_browser_url`: the hash becomes `#` and the path, and the path becomes `/`; the
      rest is kept. */
  function RouterToBrowserUrl(u: RouterUrl): BrowserContext<Url> {
    var updated := MapMut(u, (x: Url) => (x.(hash := "#" + x.path, path := "/"), ())).0;
    ChangeContext(updated, RouterUrlContext)
  }

  /** Router to browser and back loses only the router URL's hash: it is the identity exactly
      on URLs with an empty hash. */
  lemma RouterRoundTrip(u: RouterUrl)
    ensures BrowserToRouterUrl(RouterToBrowserUrl(u)) == UrlContext(u.value.(hash := []))
    ensures BrowserToRouterUrl(RouterToBrowserUrl(u)) == u <==> u.value.hash == []
  {
    assert ("#" + u.value.path)[1..] == u.value.path;
  }

  /** Browser to router and back is the identity exactly on browser URLs whose path is `/` and
      whose hash starts with `#`. */
  lemma BrowserRoundTrip(b: BrowserContext<Url>)
    ensures RouterToBrowserUrl(BrowserToRouterUrl(b)) == b <==> b.value.path == "/" && StartsWith(b.value.hash, "#")
  {
    var h := b.value.hash;
    if StartsWith(h, "#") {
      assert "#" + h[1..] == h;
    }
  }

  /** The moves leave origin, query and parsed query alone. */
  lemma ConversionsKeepQuery(u: RouterUrl, b: BrowserContext<Url>)
    ensures var v := RouterToBrowserUrl(u).value;
      v.origin == u.value.origin && v.search == u.value.search && v.searchParams == u.value.searchParams
      && v.path == "/" && v.hash == "#" + u.value.path
    ensures var v := BrowserToRouterUrl(b).value;
      v.origin == b.value.origin && v.search == b.value.search && v.searchParams == b.value.searchParams
      && v.hash == []
  {
  }

  /** The router path `current` reads from a browser hash: every leading `#` removed. */
  function LogicalPath(hash: string): (path: string)
    ensures path == [] || path[0] != '#'
    ensures EndsWith(hash, path) && AllChar(hash[..|hash| - |path|], '#')
  {
    TrimStartMatches(hash, '#')
  }

  /** `current`: the origin followed by the logical path, parsed as a router URL. */
  function Current(w: WindowLocation, parse: string -> RouterUrl): Option<RouterUrl> {
    Some(parse(w.origin + LogicalPath(w.hash)))
  }

  /** Reading the hash back: a hash written as `#` and a router path that does not itself
      start with `#` gives back that path, and any number of extra `#` marks change nothing. */
  lemma LogicalPathOfCommittedHash(p: string, marks: nat)
    requires p == [] || p[0] != '#'
    ensures LogicalPath("#" + p) == p
    ensures LogicalPath(Repeat('#', marks) + p) == p
  {
    LeadingRunUnique("#" + p, '#', 1);
    assert ("#" + p)[1..] == p;
    LeadingRunUnique(Repeat('#', marks) + p, '#', marks);
    assert (Repeat('#', marks) + p)[marks..] == p;
  }

  /** The href `complete_navigation` commits for a router URL: its origin and the full path
      of its browser form. */
  function CommitHref(u: RouterUrl): string {
    var b := RouterToBrowserUrl(u).value;
    b.origin + FullPath(b)
  }

  /** The committed href is the origin, `/`, the query behind a `?` when there is one, and `#`
      with the router path; taken apart, its hash piece is exactly `#` and the path. */
  lemma CommitHrefShape(u: RouterUrl)
    ensures CommitHref(u) == u.value.origin + "/" + QueryPart(u.value.search) + "#" + u.value.path
    ensures Avoids(u.value.search, {'#'}) ==>
      SplitFullPath(FullPath(RouterToBrowserUrl(u).value)) == ("/", u.value.search, "#" + u.value.path)
  {
    var b := RouterToBrowserUrl(u).value;
    assert HashPart(b.hash) == b.hash;
    if Avoids(u.value.search, {'#'}) {
      assert Avoids(b.path, {'?', '#'});
      SplitFullPathRoundTrip(b);
    }
  }

  /** The href of a commit: the navigation's URL, parsed against the default base, in its
      committed form. */
  function Href(parseDefault: string -> RouterUrl, value: string): string {
    CommitHref(parseDefault(value))
  }

  /** `HashRouter::new`: reading the location never fails here, so the router always exists. */
  method New(window: WindowLocation, parse: string -> RouterUrl, parseDefault: string -> RouterUrl,
             resolve: (WindowLocation, string) -> WindowLocation) returns (r: Option<Router>)
    ensures r.Some?
    ensures && fresh(r.value) && r.value.Valid() && r.value.resolve == resolve
      && (forall w :: r.value.current(w) == Current(w, parse))
      && (forall v :: r.value.hrefOf(v) == Href(parseDefault, v))
      && r.value.url == parse(window.origin + LogicalPath(window.hash))
      && r.value.pathStack == [r.value.url] && !r.value.isBack && r.value.pending == None
      && r.value.window == window && r.value.history == [] && r.value.tasks == map[]
  {
    r := Router.Create((w: WindowLocation) => Current(w, parse), (v: string) => Href(parseDefault, v),
                       resolve, window);
  }
}
