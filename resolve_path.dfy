/** Path resolution for router links (router/src/matching/resolve_path.rs): which paths are
    external, how a path is normalized, and how a relative path is joined to the router's base
    and to the path it is resolved from. */
module ResolvePath {
  import opened Wrappers
  import opened Text
  import opened UrlContexts

  predicate IsAsciiAlphanumeric(c: char) {
    'a' <= c <= 'z' || 'A' <= c <= 'Z' || '0' <= c <= '9'
  }

  /** `has_scheme`: the link leaves the router (protocol-relative, `tel:`, `mailto:`, or a
      scheme written in ASCII letters and digits before the first `://`). */
  predicate HasScheme(path: string) {
    || StartsWith(path, "//")
    || StartsWith(path, "tel:")
    || StartsWith(path, "mailto:")
    || match Find(path, "://")
       case Some(i) => forall k :: 0 <= k < i ==> IsAsciiAlphanumeric(path[k])
       case None => false
  }

  /** The scheme test in terms of the first occurrence of `://`, with no search function. */
  lemma HasSchemeIff(path: string)
    ensures HasScheme(path) <==>
      || StartsWith(path, "//") || StartsWith(path, "tel:") || StartsWith(path, "mailto:")
      || exists i: nat ::
           && OccursAt(path, "://", i)
           && (forall k :: 0 <= k < i ==> !OccursAt(path, "://", k))
           && (forall k :: 0 <= k < i ==> IsAsciiAlphanumeric(path[k]))
  {
    match Find(path, "://")
    case Some(i) =>
      forall j: nat | OccursAt(path, "://", j) && (forall k :: 0 <= k < j ==> !OccursAt(path, "://", k))
        ensures j == i
      {
        assert !(j < i) && !(i < j);
      }
    case None =>
  }

  /** `begins_with_query_or_hash`. */
  predicate BeginsWithQueryOrHash(text: string) {
    |text| > 0 && (text[0] == '#' || text[0] == '?')
  }

  /** `path[i..j]` has only slashes around it. */
  predicate FramedBySlashes(path: string, i: nat, j: nat) {
    && i <= j <= |path|
    && (forall k :: 0 <= k < i ==> path[k] == '/')
    && (forall k :: j <= k < |path| ==> path[k] == '/')
  }

  /** The text `normalize` keeps of `path`: the leading run of `/` removed and the trailing run
      cut down to one. It never starts with `/` and ends in at most one `/`. */
  function TrimSlashes(path: string): (s: string)
    ensures s == [] || s[0] != '/'
  {
    var t := TrimStartMatches(path, '/');
    var trimEnd := SaturatingSub(TrailingRun(t, '/'), 1);
    t[..|t| - trimEnd]
  }

  /** The kept text ends in at most one `/`. */
  lemma TrimSlashesEndsOnce(path: string)
    ensures TrailingRun(TrimSlashes(path), '/') <= 1
  {
    var t := TrimStartMatches(path, '/');
    var n := TrailingRun(t, '/');
    var k := SaturatingSub(n, 1);
    assert TrimSlashes(path) == t[..|t| - k];
    TrailingRunOfPrefix(t, '/', k);
    assert n - k <= 1;
  }

  /** Only edges are touched: the kept text is a slice of `path` with nothing but slashes
      around it, and a trailing run of slashes leaves exactly one behind. */
  lemma TrimSlashesShape(path: string)
    ensures exists i: nat, j: nat :: FramedBySlashes(path, i, j) && TrimSlashes(path) == path[i..j]
    ensures TrimSlashes(path) != [] && EndsWith(path, "/") ==> TrailingRun(TrimSlashes(path), '/') == 1
  {
    TrimSlashesSlice(path);
    var i := |path| - |TrimStartMatches(path, '/')|;
    assert FramedBySlashes(path, i, i + |TrimSlashes(path)|);
    if TrimSlashes(path) != [] && EndsWith(path, "/") {
      TrimSlashesKeepsOne(path);
    }
  }

  /** Where the kept text sits in `path`: right after the leading run of slashes, with only
      slashes after it. */
  lemma TrimSlashesSlice(path: string)
    ensures var i := |path| - |TrimStartMatches(path, '/')|;
      FramedBySlashes(path, i, i + |TrimSlashes(path)|) && TrimSlashes(path) == path[i..i + |TrimSlashes(path)|]
  {
    var t := TrimStartMatches(path, '/');
    var k := SaturatingSub(TrailingRun(t, '/'), 1);
    TrimSlashesUnfold(path);
    TrailingRunCut(t, '/', k);
    SliceOfSuffix(path, t, k, TrimSlashes(path));
  }

  /** `TrimSlashes` spelled out. */
  lemma TrimSlashesUnfold(path: string)
    ensures var t := TrimStartMatches(path, '/');
      TrimSlashes(path) == t[..|t| - SaturatingSub(TrailingRun(t, '/'), 1)]
  {
  }

  /** The last `k` characters of a text whose trailing run of `c` is at least `k` are `c`. */
  lemma TrailingRunCut(t: string, c: char, k: nat)
    requires k <= TrailingRun(t, c)
    ensures k <= |t| && forall j :: |t| - k <= j < |t| ==> t[j] == c
  {
  }

  /** Cutting `k` slashes off the end of a suffix `t` of `path` that follows only slashes
      leaves a slice `s` framed by slashes. */
  lemma SliceOfSuffix(path: string, t: string, k: nat, s: string)
    requires |t| <= |path| && t == path[|path| - |t|..]
    requires forall j :: 0 <= j < |path| - |t| ==> path[j] == '/'
    requires k <= |t| && forall j :: |t| - k <= j < |t| ==> t[j] == '/'
    requires s == t[..|t| - k]
    ensures var i := |path| - |t|;
      FramedBySlashes(path, i, i + |s|) && s == path[i..i + |s|]
  {
    var i := |path| - |t|;
    forall j | i + |t| - k <= j < |path| ensures path[j] == '/' {
      assert path[j] == t[j - i];
    }
  }

  /** A non-empty kept text of a path that ends in `/` ends in exactly one `/`. */
  lemma TrimSlashesKeepsOne(path: string)
    requires TrimSlashes(path) != [] && EndsWith(path, "/")
    ensures TrailingRun(TrimSlashes(path), '/') == 1
  {
    var t := TrimStartMatches(path, '/');
    var n := TrailingRun(t, '/');
    var k := SaturatingSub(n, 1);
    assert TrimSlashes(path) == t[..|t| - k];
    assert t != [];
    assert t[|t| - 1] == path[|path| - 1] == '/' by {
      assert path[|path| - 1] == path[|path| - 1..][0];
    }
    assert n >= 1;
    TrailingRunOfPrefix(t, '/', k);
  }

  /** Every character of `path` survives in `normalize` except the edge slashes: `path` is
      the kept text with slashes around it. */
  lemma NormalizeKeepsInterior(path: string, omitSlash: bool)
    ensures var r := Normalize(path, omitSlash);
      exists i: nat, j: nat ::
        && FramedBySlashes(path, i, j)
        && (r == path[i..j] || r == "/" + path[i..j])
  {
    TrimSlashesShape(path);
  }

  /** `normalize`: trimmed of its edge slashes, then given exactly one leading `/` unless the
      trimmed text is empty, `omitSlash` is set, or it begins with `?` or `#`. */
  function Normalize(path: string, omitSlash: bool): (r: string)
    ensures r == TrimSlashes(path) || r == "/" + TrimSlashes(path)
    ensures StartsWith(r, "/") <==>
      (TrimSlashes(path) != [] && !omitSlash && !BeginsWithQueryOrHash(TrimSlashes(path)))
  {
    var s := TrimSlashes(path);
    if s == [] || omitSlash || BeginsWithQueryOrHash(s) then s else "/" + s
  }

  /** The output of `normalize` never begins or ends with `//` and is never `/` alone. */
  lemma NormalizeEdges(path: string, omitSlash: bool)
    ensures var r := Normalize(path, omitSlash);
      !StartsWith(r, "//") && !EndsWith(r, "//") && r != "/"
  {
    var s := TrimSlashes(path);
    TrimSlashesEndsOnce(path);
    if Normalize(path, omitSlash) == s {
      TrimmedEdges(s);
    } else {
      SlashedEdges(s);
    }
  }

  /** A text with no leading `/` and at most one trailing `/` has no `//` at either end. */
  lemma TrimmedEdges(s: string)
    requires s == [] || s[0] != '/'
    requires TrailingRun(s, '/') <= 1
    ensures !StartsWith(s, "//") && !EndsWith(s, "//") && s != "/"
  {
  }

  /** The same text behind one added `/` still has no `//` at either end. */
  lemma SlashedEdges(s: string)
    requires s != [] && s[0] != '/'
    requires TrailingRun(s, '/') <= 1
    ensures var r := "/" + s; !StartsWith(r, "//") && !EndsWith(r, "//") && r != "/"
  {
    var r := "/" + s;
    assert r[1] == s[0] && r[|r| - 1] == s[|s| - 1];
    if |s| >= 2 {
      assert r[|r| - 2] == s[|s| - 2];
    }
  }

  /** A text that is already trimmed (no leading `/`, at most one trailing `/`) is its own
      trimming, with or without one added leading `/`. */
  lemma TrimSlashesOfTrimmed(s: string)
    requires s == [] || s[0] != '/'
    requires TrailingRun(s, '/') <= 1
    ensures TrimSlashes(s) == s
    ensures TrimSlashes("/" + s) == s
  {
    var t := "/" + s;
    LeadingRunUnique(s, '/', 0);
    LeadingRunUnique(t, '/', 1);
    assert TrimStartMatches(s, '/') == s by {
      assert s[0..] == s;
    }
    assert TrimStartMatches(t, '/') == s by {
      assert t[1..] == s;
    }
    assert SaturatingSub(TrailingRun(s, '/'), 1) == 0;
    assert s[..|s|] == s;
  }

  /** Normalizing twice is normalizing once, for either value of `omitSlash`. */
  lemma {:induction false} NormalizeIdempotent(path: string, omitSlash: bool)
    ensures Normalize(Normalize(path, omitSlash), omitSlash) == Normalize(path, omitSlash)
  {
    TrimSlashesEndsOnce(path);
    TrimSlashesOfTrimmed(TrimSlashes(path));
  }

  /** A text that begins with `?` or `#` and does not end with `/` loses a leading `/` and
      gains none. */
  lemma NormalizeQueryOrHash(s: string)
    requires BeginsWithQueryOrHash(s) && s[|s| - 1] != '/'
    ensures Normalize("/" + s, false) == s
  {
    TrailingRunUnique(s, '/', 0);
    TrimSlashesOfTrimmed(s);
  }

  /** A text with no slash at either end, followed by one or more slashes, keeps exactly one of
      them and gains a leading `/` unless it begins with `?` or `#`. */
  lemma NormalizeTrailingRun(s: string, slashes: string)
    requires s != [] && s[0] != '/' && s[|s| - 1] != '/' && !BeginsWithQueryOrHash(s)
    requires slashes != [] && AllChar(slashes, '/')
    ensures Normalize(s + slashes, false) == "/" + s + "/"
  {
    var t := s + slashes;
    var n := |slashes|;
    assert t[0] == s[0];
    LeadingRunUnique(t, '/', 0);
    assert TrimStartMatches(t, '/') == t by {
      assert t[0..] == t;
    }
    assert t[|t| - 1 - n] == s[|s| - 1];
    TrailingRunUnique(t, '/', n);
    assert TrimSlashes(t) == s + "/" by {
      assert t[..|t| - (n - 1)] == s + "/";
    }
  }

  /** The unit test `normalize_query_string_with_opening_slash`. */
  lemma NormalizeQueryWithOpeningSlash()
    ensures Normalize("/?foo=bar", false) == "?foo=bar"
  {
    NormalizeQueryOrHash("?foo=bar");
    assert "/" + "?foo=bar" == "/?foo=bar";
  }

  /** The unit test `normalize_retain_trailing_slash`. */
  lemma NormalizeRetainTrailingSlash()
    ensures Normalize("foo/bar/", false) == "/foo/bar/"
  {
    NormalizeTrailingRun("foo/bar", "/");
    assert "foo/bar" + "/" == "foo/bar/";
    assert "/" + "foo/bar" + "/" == "/foo/bar/";
  }

  /** The unit test `normalize_dedup_trailing_slashes`. */
  lemma NormalizeDedupTrailingSlashes()
    ensures Normalize("foo/bar/////", false) == "/foo/bar/"
  {
    NormalizeTrailingRun("foo/bar", "/////");
    assert "foo/bar" + "/////" == "foo/bar/////";
    assert "/" + "foo/bar" + "/" == "/foo/bar/";
  }

  /** The prefix `resolve_path` joins the normalized path to, before an empty prefix becomes `/`. */
  function ResolvePrefix(base: string, path: string, from: Option<string>): string {
    var basePath := Normalize(base, false);
    match from
    case None => basePath
    case Some(f) =>
      var fromPath := Normalize(f, false);
      if StartsWith(path, "/") then basePath
      else if Find(fromPath, basePath) != Some(0) then basePath + fromPath
      else fromPath
  }

  /** How the prefix is chosen: the normalized base when there is no `from` or the path is
      absolute; otherwise the normalized `from`, placed under the base when it does not
      already start with it. */
  lemma ResolvePrefixChoice(base: string, path: string, from: Option<string>)
    ensures from.None? ==> ResolvePrefix(base, path, from) == Normalize(base, false)
    ensures from.Some? && StartsWith(path, "/") ==> ResolvePrefix(base, path, from) == Normalize(base, false)
    ensures from.Some? && !StartsWith(path, "/") ==>
      var b := Normalize(base, false);
      var f := Normalize(from.value, false);
      ResolvePrefix(base, path, from) == if StartsWith(f, b) then f else b + f
  {
    if from.Some? {
      FindZeroIffStartsWith(Normalize(from.value, false), Normalize(base, false));
    }
  }

  /** `resolve_path`. External links come back unchanged; every other result is non-empty and
      never protocol-relative (it does not start with `//`). */
  function ResolvePath(base: RouterContext<string>, path: RouterContext<string>,
                       from: RouterContext<Option<string>>): (r: RouterContext<string>)
    ensures HasScheme(path.value) ==> r == path
    ensures !HasScheme(path.value) ==> r.value != [] && !StartsWith(r.value, "//")
  {
    if HasScheme(path.value) then path
    else
      var result := ResolvePrefix(base.value, path.value, from.value);
      var resultEmpty := result == [];
      var prefix := if resultEmpty then "/" else result;
      var tail := Normalize(path.value, resultEmpty);
      PrefixSafeHead(base.value, path.value, from.value);
      JoinSafe(result, tail);
      UrlContext(prefix + tail)
  }

  /** `x` cannot start a `//`, whatever follows it. */
  predicate SafeHead(x: string) {
    x != [] && (x[0] != '/' || (|x| >= 2 && x[1] != '/'))
  }

  /** What follows a safe head changes nothing at the start. */
  lemma SafeHeadAppend(x: string, y: string)
    requires SafeHead(x)
    ensures SafeHead(x + y) && !StartsWith(x + y, "//")
  {
    assert (x + y)[0] == x[0];
    if |x| >= 2 {
      assert (x + y)[1] == x[1];
    }
  }

  /** A non-empty normalized text is a safe head. */
  lemma NormalizeSafeHead(path: string, omitSlash: bool)
    requires Normalize(path, omitSlash) != []
    ensures SafeHead(Normalize(path, omitSlash))
  {
  }

  /** A non-empty prefix is a safe head: it is the normalized base, the normalized `from`,
      or the two joined. */
  lemma PrefixSafeHead(base: string, path: string, from: Option<string>)
    ensures ResolvePrefix(base, path, from) != [] ==> SafeHead(ResolvePrefix(base, path, from))
  {
    var b := Normalize(base, false);
    var p := ResolvePrefix(base, path, from);
    ResolvePrefixChoice(base, path, from);
    if b != [] {
      NormalizeSafeHead(base, false);
    }
    if from.Some? {
      var f := Normalize(from.value, false);
      if f != [] {
        NormalizeSafeHead(from.value, false);
      }
      if b != [] {
        SafeHeadAppend(b, f);
      } else {
        assert b + f == f;
      }
      assert p == b || p == f || p == b + f;
    } else {
      assert p == b;
    }
  }

  /** The join never starts with `//`: a non-empty prefix is a safe head, and `/` is only
      used with a path normalized without its leading slash. */
  lemma JoinSafe(p: string, tail: string)
    requires p != [] ==> SafeHead(p)
    requires p == [] ==> tail == [] || tail[0] != '/'
    ensures !StartsWith((if p == [] then "/" else p) + tail, "//")
  {
    if p == [] {
      assert |"/" + tail| >= 2 ==> ("/" + tail)[1] == tail[0];
    } else {
      SafeHeadAppend(p, tail);
    }
  }

  /** A path with no `:` that does not start with `//` has no scheme. */
  lemma NoSchemeWithoutColon(p: string)
    requires NoColon(p)
    requires |p| < 2 || p[0] != '/' || p[1] != '/'
    ensures !HasScheme(p)
  {
    assert !StartsWith(p, "//") by {
      if |p| >= 2 { assert p[..2][0] == p[0] && p[..2][1] == p[1]; }
    }
    assert !StartsWith(p, "tel:") by {
      if |p| >= 4 { assert p[..4][3] == p[3]; }
    }
    assert !StartsWith(p, "mailto:") by {
      if |p| >= 7 { assert p[..7][6] == p[6]; }
    }
    forall k: nat ensures !OccursAt(p, "://", k) {
      if k + 3 <= |p| {
        assert p[k..k + 3][0] == p[k];
      }
    }
  }

  /** A path segment that needs no normalizing: non-empty, with no `/` at either end and not
      beginning with `?` or `#`. */
  predicate Plain(s: string) {
    s != [] && s[0] != '/' && s[0] != '?' && s[0] != '#' && s[|s| - 1] != '/'
  }

  /** A plain text normalizes to itself behind one `/`, with or without a leading `/` in the
      input. */
  lemma PlainSegment(s: string)
    requires Plain(s)
    ensures Normalize(s, false) == "/" + s && Normalize("/" + s, false) == "/" + s
    ensures Normalize(s, true) == s && Normalize("/" + s, true) == s
  {
    assert TrimSlashes(s) == s && TrimSlashes("/" + s) == s by {
      TrailingRunUnique(s, '/', 0);
      TrimSlashesOfTrimmed(s);
    }
    assert !BeginsWithQueryOrHash(s);
    NormalizeOfTrimmed(s, false, s);
    NormalizeOfTrimmed(s, true, s);
    NormalizeOfTrimmed("/" + s, false, s);
    NormalizeOfTrimmed("/" + s, true, s);
  }

  /** `normalize` in terms of a known trimming. */
  lemma NormalizeOfTrimmed(path: string, omitSlash: bool, s: string)
    requires TrimSlashes(path) == s
    ensures Normalize(path, omitSlash) == if s == [] || omitSlash || BeginsWithQueryOrHash(s) then s else "/" + s
  {
  }

  /** No character of `s` is `:`. */
  predicate NoColon(s: string) {
    forall k :: 0 <= k < |s| ==> s[k] != ':'
  }

  /** A `mailto:` link passes through untouched, whatever the base and `from`. */
  lemma ResolveMailtoUnchanged(base: RouterContext<string>, p: string, from: RouterContext<Option<string>>)
    requires StartsWith(p, "mailto:")
    ensures ResolvePath(base, UrlContext(p), from) == UrlContext(p)
  {
    HasSchemeIff(p);
  }

  /** Outside the scheme case the result is the prefix (`/` when empty) followed by the
      normalized path. */
  lemma ResolvePathJoin(base: RouterContext<string>, path: RouterContext<string>,
                        from: RouterContext<Option<string>>)
    requires !HasScheme(path.value)
    ensures var p := ResolvePrefix(base.value, path.value, from.value);
      ResolvePath(base, path, from).value == (if p == [] then "/" else p) + Normalize(path.value, p == [])
  {
  }

  /** An absolute path ignores `from` and is placed under the base:
      `/x` from anywhere under `/app` is `/app/x`. */
  lemma ResolveAbsoluteUnderBase(a: string, x: string, from: Option<string>)
    requires Plain(a) && Plain(x) && NoColon(x)
    ensures ResolvePath(UrlContext("/" + a), UrlContext("/" + x), UrlContext(from)).value == ("/" + a) + ("/" + x)
  {
    var base := "/" + a;
    var path := "/" + x;
    PlainSegment(a);
    PlainSegment(x);
    assert !HasScheme(path) by {
      assert path[0] == '/' && (|path| < 2 || path[1] != '/');
      assert NoColon(path) by {
        forall k | 0 <= k < |path| ensures path[k] != ':' {
          if k > 0 { assert path[k] == x[k - 1]; }
        }
      }
      NoSchemeWithoutColon(path);
    }
    AbsoluteJoin(base, path, from);
  }

  /** The absolute case once the base and the path are known to be normalized. */
  lemma AbsoluteJoin(base: string, path: string, from: Option<string>)
    requires !HasScheme(path) && StartsWith(path, "/") && base != []
    requires Normalize(base, false) == base && Normalize(path, false) == path
    ensures ResolvePath(UrlContext(base), UrlContext(path), UrlContext(from)).value == base + path
  {
    ResolvePathJoin(UrlContext(base), UrlContext(path), UrlContext(from));
    ResolvePrefixChoice(base, path, from);
    var p := ResolvePrefix(base, path, from);
    assert p == base;
    assert ResolvePath(UrlContext(base), UrlContext(path), UrlContext(from)).value == p + path;
  }

  /** A relative path is resolved under `from`, and `from` is placed under the base when it
      does not already lie there: `x` from `/app/y` under `/app` is `/app/y/x`, and `x` from
      `/y` under `/app` is `/app/y/x` too. */
  lemma ResolveRelativeUnderFrom(a: string, x: string, f: string)
    requires Plain(a) && Plain(x) && Plain(f) && NoColon(x)
    ensures var b := "/" + a;
      ResolvePath(UrlContext(b), UrlContext(x), UrlContext(Some("/" + f))).value ==
        (if StartsWith("/" + f, b) then "/" + f else b + ("/" + f)) + ("/" + x)
  {
    var base := "/" + a;
    var from := "/" + f;
    PlainSegment(a);
    PlainSegment(f);
    PlainSegment(x);
    assert x[0] != '/';
    NoSchemeWithoutColon(x);
    RelativeJoin(base, x, from);
  }

  /** The relative case once the base and `from` are known to be normalized. */
  lemma RelativeJoin(base: string, x: string, from: string)
    requires !HasScheme(x) && !StartsWith(x, "/")
    requires Normalize(base, false) == base && Normalize(from, false) == from
    requires Normalize(x, false) == "/" + x
    ensures ResolvePath(UrlContext(base), UrlContext(x), UrlContext(Some(from))).value ==
      (if StartsWith(from, base) then from else base + from) + ("/" + x)
  {
    ResolvePathJoin(UrlContext(base), UrlContext(x), UrlContext(Some(from)));
    ResolvePrefixChoice(base, x, Some(from));
    var p := ResolvePrefix(base, x, Some(from));
    assert p == if StartsWith(from, base) then from else base + from;
    if p == [] {
      // Only an empty base and an empty `from` give an empty prefix; the path then keeps
      // no slash of its own and the join supplies the `/`.
      assert TrimSlashes(x) == x;
      NormalizeOfTrimmed(x, true, x);
      assert ResolvePath(UrlContext(base), UrlContext(x), UrlContext(Some(from))).value == "/" + x;
      assert p + ("/" + x) == "/" + x;
    } else {
      assert Normalize(x, p == []) == "/" + x;
      assert ResolvePath(UrlContext(base), UrlContext(x), UrlContext(Some(from))).value == p + ("/" + x);
    }
  }
}
