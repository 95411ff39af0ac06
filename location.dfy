/** The URL values of the router's location layer (router/src/location/mod.rs): the `Url`
    record, its reassembly into a full path, the description of a navigation and the history
    state carried with it. */
module Location {
  import opened Wrappers
  import opened Text
  import opened UrlContexts

  /** A JavaScript value as the router sees it, compared by `===`: `undefined` equals only
      itself, booleans compare by value, and every other value is a handle whose id stands for
      the class of values `===` holds equal. */
  datatype JsValue = Undefined | Bool(b: bool) | Handle(id: nat)

  /** The parsed query string (`ParamsMap`), treated as an opaque value compared by equality. */
  type ParamsMap = seq<(string, string)>

  /** `Url`: an origin, a path, the query without its `?`, the parsed query and the hash. */
  datatype Url = Url(origin: string, path: string, search: string, searchParams: ParamsMap, hash: string)

  /** A URL in the router's coordinate system (`UrlContext<RouterUrlContext, Url>`). */
  type RouterUrl = RouterContext<Url>

  /** The document location as the browser reports it: `search` keeps its leading `?` and
      `hash` its leading `#`, each empty when absent. */
  datatype WindowLocation = WindowLocation(origin: string, pathname: string, search: string, hash: string)

  /** The query piece of a full path: `?` and the query, or nothing for an empty query. */
  function QueryPart(search: string): string {
    if search == [] then [] else "?" + search
  }

  /** The hash piece of a full path: nothing for an empty hash, otherwise the hash with a `#`
      in front unless it already has one. */
  function HashPart(hash: string): string {
    if hash == [] then [] else if StartsWith(hash, "#") then hash else "#" + hash
  }

  /** The full path of a URL: path, then query piece, then hash piece. */
  function FullPath(u: Url): string {
    u.path + QueryPart(u.search) + HashPart(u.hash)
  }

  /** `map_mut(|p| p.push_str(s))` on a tagged string. */
  function PushStr<C>(p: UrlContext<C, string>, s: string): UrlContext<C, string> {
    MapMut(p, (x: string) => (x + s, ())).0
  }

  /** `to_full_path`: grows the path in place, first by the query and then by the hash. */
  method ToFullPath<C>(u: UrlContext<C, Url>) returns (path: UrlContext<C, string>)
    ensures path.value == FullPath(u.value)
  {
    path := Map(u, (x: Url) => x.path);
    if u.value.search != [] {
      path := PushStr(path, "?");
      path := PushStr(path, u.value.search);
    }
    if u.value.hash != [] {
      if !StartsWith(u.value.hash, "#") {
        path := PushStr(path, "#");
      }
      path := PushStr(path, u.value.hash);
    }
  }

  /** The three pieces of a full path: the path, up to the first `?` or `#`; the query,
      after the `?` and up to the first `#`; and the hash, from that `#` on. */
  function SplitFullPath(s: string): (parts: (string, string, string))
    ensures s == parts.0 + QueryPart(parts.1) + parts.2 || s == parts.0 + "?" + parts.2
  {
    var i := FirstIndexIn(s, {'?', '#'});
    var rest := s[i..];
    var j := FirstIndexIn(rest, {'#'});
    var query := rest[..j];
    var search := if query == [] then [] else query[1..];
    ThreePieces(s, i, j);
    assert query == [] || query[0] == '?' by {
      if query != [] {
        assert rest[0] !in {'#'} && s[i] in {'?', '#'} && rest[0] == s[i];
      }
    }
    QueryPiece(query);
    (s[..i], search, rest[j..])
  }

  /** A query piece is nothing or `?` followed by the query. */
  lemma QueryPiece(query: string)
    requires query == [] || query[0] == '?'
    ensures var search := if query == [] then [] else query[1..];
      query == QueryPart(search) || query == "?"
  {
    if |query| > 1 {
      assert query == "?" + query[1..];
    }
  }

  /** Cutting at `i` and then at `j` further on loses nothing. */
  lemma ThreePieces(s: string, i: nat, j: nat)
    requires i <= |s| && j <= |s| - i
    ensures s == s[..i] + s[i..][..j] + s[i..][j..]
  {
    assert s[i..] == s[i..][..j] + s[i..][j..];
    assert s == s[..i] + s[i..];
  }

  /** No character of `s` is in `seps`. */
  predicate Avoids(s: string, seps: set<char>) {
    forall k :: 0 <= k < |s| ==> s[k] !in seps
  }

  /** The full path can be taken apart again: when the path holds no `?` or `#` and the query
      no `#`, splitting the full path gives back the path, the query, and the hash with its
      `#`. */
  lemma SplitFullPathRoundTrip(u: Url)
    requires Avoids(u.path, {'?', '#'}) && Avoids(u.search, {'#'})
    ensures SplitFullPath(FullPath(u)) == (u.path, u.search, HashPart(u.hash))
  {
    var q := QueryPart(u.search);
    var h := HashPart(u.hash);
    var s := FullPath(u);
    assert s == u.path + (q + h);
    assert q + h == [] || (q + h)[0] in {'?', '#'} by {
      if q != [] {
        assert (q + h)[0] == q[0];
      } else {
        assert q + h == h;
      }
    }
    PathStops(u.path, q + h);
    QueryStops(u.search, h);
    if q != [] {
      assert q[1..] == u.search;
    }
  }

  /** A path with no `?` or `#` ends at the first character of what follows it, when that is
      a `?` or a `#`. */
  lemma PathStops(p: string, rest: string)
    requires Avoids(p, {'?', '#'})
    requires rest == [] || rest[0] in {'?', '#'}
    ensures FirstIndexIn(p + rest, {'?', '#'}) == |p|
    ensures (p + rest)[..|p|] == p && (p + rest)[|p|..] == rest
  {
    var s := p + rest;
    assert forall m :: 0 <= m < |p| ==> s[m] == p[m];
    assert |p| < |s| ==> s[|p|] == rest[0];
    FirstIndexInUnique(s, {'?', '#'}, |p|);
    assert s[..|p|] == p && s[|p|..] == rest;
  }

  /** A query piece with no `#` ends at the hash piece that follows it. */
  lemma QueryStops(search: string, h: string)
    requires Avoids(search, {'#'})
    requires h == [] || h[0] == '#'
    ensures var q := QueryPart(search);
      FirstIndexIn(q + h, {'#'}) == |q| && (q + h)[..|q|] == q && (q + h)[|q|..] == h
  {
    var q := QueryPart(search);
    var t := q + h;
    forall m | 0 <= m < |q| ensures t[m] !in {'#'} {
      assert t[m] == q[m];
      if m > 0 { assert q[m] == search[m - 1]; }
    }
    assert |q| < |t| ==> t[|q|] == h[0];
    FirstIndexInUnique(t, {'#'}, |q|);
    assert t[..|q|] == q && t[|q|..] == h;
  }

  /** What the full path promises: it begins with the path and is the path alone when the
      query and hash are empty; a non-empty query follows a `?`; a non-empty hash piece
      begins with exactly the `#` the hash had, or one added. */
  lemma FullPathShape(u: Url)
    ensures StartsWith(FullPath(u), u.path)
    ensures u.search == [] && u.hash == [] ==> FullPath(u) == u.path
    ensures u.search != [] ==> StartsWith(FullPath(u), u.path + "?" + u.search)
    ensures u.hash != [] ==> EndsWith(FullPath(u), u.hash) && StartsWith(HashPart(u.hash), "#")
    ensures u.hash != [] && !StartsWith(u.hash, "#") ==> EndsWith(FullPath(u), "#" + u.hash)
    ensures StartsWith(u.hash, "#") ==> FullPath(u) == u.path + QueryPart(u.search) + u.hash
    ensures u.hash != [] && !StartsWith(u.hash, "#") ==>
      FullPath(u) == u.path + QueryPart(u.search) + "#" + u.hash
  {
    var s := FullPath(u);
    assert s[..|u.path|] == u.path;
    if u.search != [] {
      assert s[..|u.path + "?" + u.search|] == u.path + "?" + u.search;
    }
  }

  /** The history state of a navigation (`State`): nothing, or one JavaScript value. */
  datatype State = State(inner: Option<JsValue>)

  /** `State::new`. */
  function StateNew(state: Option<JsValue>): State {
    State(state)
  }

  /** `State::from`: a state holding the value. */
  function StateFrom(value: JsValue): State {
    State(Some(value))
  }

  /** `State::to_js_value`: the held value, or `undefined` for an empty state. */
  function ToJsValue(s: State): (v: JsValue)
    ensures s.inner.None? ==> v == Undefined
    ensures s.inner.Some? ==> v == s.inner.value
  {
    match s.inner
    case Some(v) => v
    case None => Undefined
  }

  /** `State`'s `PartialEq`: two empty states are equal, an empty and a full one are not, and
      two full ones compare their values. */
  predicate StateEq(a: State, b: State) {
    match (a.inner, b.inner)
    case (None, None) => true
    case (Some(x), Some(y)) => x == y
    case _ => false
  }

  /** State equality is exactly equality of the values the states hold, so it is reflexive,
      symmetric and transitive, and an empty state never equals a non-empty one. */
  lemma StateEqLaws(a: State, b: State, c: State)
    ensures StateEq(a, b) <==> a == b
    ensures StateEq(a, a)
    ensures StateEq(a, b) ==> StateEq(b, a)
    ensures StateEq(a, b) && StateEq(b, c) ==> StateEq(a, c)
    ensures a.inner.None? && b.inner.Some? ==> !StateEq(a, b)
  {
  }

  /** Equality is finer than what reaches the history: a state holding `undefined` differs
      from the empty state, but both are handed to the history as `undefined`. */
  lemma UndefinedStateIsNotEmpty()
    ensures !StateEq(StateNew(None), StateFrom(Undefined))
    ensures ToJsValue(StateNew(None)) == ToJsValue(StateFrom(Undefined)) == Undefined
  {
  }

  /** `LocationChange`: the new URL, whether it replaces the current history entry, whether
      to scroll to the top at the end, and the state to store. */
  datatype LocationChange = LocationChange(value: RouterContext<string>, replace: bool, scroll: bool, state: State)

  /** `LocationChange::default`: an empty URL that replaces the entry, scrolls, and has no
      state. */
  function DefaultLocationChange(): (c: LocationChange)
    ensures c.value.value == [] && c.replace && c.scroll
    ensures StateEq(c.state, StateNew(None)) && ToJsValue(c.state) == Undefined
  {
    LocationChange(UrlContext([]), true, true, State(None))
  }
}
