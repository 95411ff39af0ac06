# Leptos router client navigation, modelled in Dafny

This project models the client-side navigation core of the Leptos router and proves properties of
that model. It covers three pieces:

- **Path resolution** (`router/src/matching/resolve_path.rs`). This covers `normalize`,
  `has_scheme` and `resolve_path`, all as pure string functions on `seq<char>`. They are built on
  models of the Rust `str` operations they use, in `text.dfy`.
- **Location values** (`router/src/location/mod.rs`). These are:
  - the tagged wrapper `UrlContext<C, T>`. Its tag is a type parameter that no value stores, as
    with Rust's `PhantomData`;
  - the `Url` record and `to_full_path`;
  - `LocationChange` and its default;
  - `State`;
  - the decision `handle_anchor_click` makes for a click.
- **The navigation state machine** that `BrowserRouter` (`history.rs`) and `HashRouter`
  (`hash.rs`) share. It is one class, `Navigation.Router`:
  - Its fields are the URL signal, the pending slot, the path stack, the `is_back` flag, the
    window location and a ghost log of history calls.
  - The one-shot channel of a waiting navigation is a token with a signal: `Armed`, `Fired` or
    `Dropped`. Replacing the token in the slot drops the old one.
  - The spawned continuation is a task keyed by its token, and `Resume` runs it.
  - The providers differ only in three functions the router is given:
    - how the window location is read (`current`);
    - the href handed to `pushState` or `replaceState`;
    - how the browser moves for that href.

  `HistoryProvider` and `HashProvider` supply these functions. `HashProvider` also holds the
  path-to-hash conversions and their round trips.

The core's foreign calls are parameters of the model:

- the URL parser (`web_sys::Url`);
- `js_sys::decode_uri*` (the `unescape` and `unescape_minimal` functions);
- reading the query into a `ParamsMap`;
- `document.getElementById`.

`ParamsMap` is an opaque value compared by equality. JavaScript values are compared by `===`: a `Handle` id stands for the class of values `===` holds
equal, so strings and numbers equal by value share one id.

Two behaviours of the code are worth stating outright:

- **Resolving under `from`.** `resolve_path("/app", "x", Some("/app/y"))` is `/app/y/x`: a
  `from` that already starts with the base is used whole (`resolve_path.rs:22-31`).
  `ResolvePath.ResolveRelativeUnderFrom` proves this for every plain base and `from` and every
  plain path without a colon. A path with a colon may have a scheme and then comes back unchanged.
- **Scrolling.** `scroll_to_el` scrolls an element named by the hash into view even when `scroll`
  is false (`history.rs:44-63`); only the scroll to the top depends on `scroll`.
  `Navigation.ScrollToElCases` states the rule.

## Model

| member | source | states |
|---|---|---|
| Text.LeadingRun | router/src/matching/resolve_path.rs:68 | It counts the run of a character that starts the text: every counted character is that character, and the one after the run is not. `trim_start_matches` drops exactly that run. |
| Text.TrailingRunOfPrefix | router/src/matching/resolve_path.rs:69-77 | Cutting `k` characters off a trailing run of at least `k` shortens the run by exactly `k`. |
| Text.TrailingRun | router/src/matching/resolve_path.rs:69-73 | It counts the run of a character that ends the text: every counted character is that character, and the one before the run is not. |
| Text.FindFrom | router/src/matching/resolve_path.rs:24 | It returns the first occurrence at or after the start index, or `None` exactly when there is no occurrence. |
| Text.SplitOnContains | router/src/location/mod.rs:412-416 | A token with no separator is one of the pieces of a split exactly when it occurs in the text bounded by separators or the ends. |
| UrlContexts.MapLaws | router/src/location/mod.rs:58-63 | `map` of the identity is the identity, two `map`s compose, and `forget_context` after `map` is the mapper applied to the inner value. |
| UrlContexts.MapMutLaws | router/src/location/mod.rs:65-70 | `map_mut` leaves the value the mapper wrote and returns the mapper's result, both under the same tag. A mapper that writes nothing leaves the wrapper unchanged. |
| UrlContexts.ContextLaws | router/src/location/mod.rs:53-81 | `forget_context` returns what `new` was given. `change_context` keeps the value, and retagging there and back is the identity. |
| ResolvePath.HasSchemeIff | router/src/matching/resolve_path.rs:47-61 | A path has a scheme exactly when it starts with `//`, `tel:` or `mailto:`, or when the text before its first `://` is all ASCII letters and digits. |
| ResolvePath.NoSchemeWithoutColon | router/src/matching/resolve_path.rs:47-61 | A path with no `:` that does not start with `//` has no scheme. |
| ResolvePath.TrimSlashes | router/src/matching/resolve_path.rs:68-78 | The kept text never starts with `/`. |
| ResolvePath.TrimSlashesEndsOnce | router/src/matching/resolve_path.rs:68-78 | The kept text ends in at most one `/`. |
| ResolvePath.TrimSlashesShape | router/src/matching/resolve_path.rs:68-78 | The kept text is a slice of the input with only slashes around it. A non-empty result of a path ending in `/` keeps exactly one trailing `/`. |
| ResolvePath.NormalizeKeepsInterior | router/src/matching/resolve_path.rs:64-86 | The output of `normalize` is an interior slice of the input framed only by slashes, with or without one added `/`. |
| ResolvePath.Normalize | router/src/matching/resolve_path.rs:64-86 | The output is the trimmed text, with or without one leading `/`. It starts with `/` exactly when the trimmed text is non-empty, `omit_slash` is false, and the text does not begin with `?` or `#`. |
| ResolvePath.NormalizeEdges | router/src/matching/resolve_path.rs:64-86 | The output of `normalize` never begins or ends with `//` and is never `/` alone. |
| ResolvePath.NormalizeIdempotent | router/src/matching/resolve_path.rs:64-86 | Normalizing twice gives the same result as normalizing once, for either `omit_slash`. |
| ResolvePath.PlainSegment | router/src/matching/resolve_path.rs:64-86 | A segment with no edge slash, `?` or `#` normalizes to itself behind one `/`, whether or not the input had that `/`. It normalizes to itself alone when `omit_slash` is set. |
| ResolvePath.NormalizeQueryOrHash | router/src/matching/resolve_path.rs:64-91 | A text that begins with `?` or `#` and does not end in `/` loses a leading `/` and gains none. |
| ResolvePath.NormalizeTrailingRun | router/src/matching/resolve_path.rs:64-86 | A text with no `/` at either end that does not begin with `?` or `#`, followed by one or more slashes, normalizes to itself behind one `/` and with exactly one trailing `/`. |
| ResolvePath.NormalizeQueryWithOpeningSlash | router/src/matching/resolve_path.rs:112-114 | `normalize("/?foo=bar", false)` is `?foo=bar`. |
| ResolvePath.NormalizeRetainTrailingSlash | router/src/matching/resolve_path.rs:117-119 | `normalize("foo/bar/", false)` is `/foo/bar/`. |
| ResolvePath.NormalizeDedupTrailingSlashes | router/src/matching/resolve_path.rs:122-124 | `normalize("foo/bar/////", false)` is `/foo/bar/`. |
| ResolvePath.ResolvePrefixChoice | router/src/matching/resolve_path.rs:15-34 | With no `from`, or with an absolute path, the prefix is the normalized base. Otherwise it is the normalized `from` when that starts with the normalized base, and base plus `from` when it does not. |
| ResolvePath.ResolvePath | router/src/matching/resolve_path.rs:7-45 | A path with a scheme is returned unchanged. Any other result is non-empty and never starts with `//`. |
| ResolvePath.ResolvePathJoin | router/src/matching/resolve_path.rs:36-43 | Without a scheme, the result is the prefix, or `/` when the prefix is empty, followed by the path normalized with `omit_slash` set exactly when the prefix is empty. |
| ResolvePath.ResolveMailtoUnchanged | router/src/matching/resolve_path.rs:12-13 | Every link starting with `mailto:` resolves to itself, whatever the base and `from`. |
| ResolvePath.ResolveAbsoluteUnderBase | router/src/matching/resolve_path.rs:19-21 | For plain segments `a` and `x`, with no colon in `x`, the absolute path `/x` resolves to `/a/x` under base `/a`, whatever `from` is. |
| ResolvePath.ResolveRelativeUnderFrom | router/src/matching/resolve_path.rs:22-31 | For plain segments `a`, `f` and `x`, with no colon in `x`, the relative path `x` from `/f` under base `/a` resolves to `/f/x` when `/f` starts with `/a`, and to `/a/f/x` otherwise. |
| ResolvePath.RelativeJoin | router/src/matching/resolve_path.rs:22-43 | Given a path with no scheme that does not start with `/` and whose normalized form is `/` followed by the path, and a base and `from` that are already normalized (either may be empty), the result is the chosen prefix (`from` when it starts with the base, otherwise base followed by `from`) followed by `/` and the path. |
| Location.ToFullPath | router/src/location/mod.rs:152-169 | The text built by the in-place pushes is the path, then `?` and the query when the query is non-empty, then the hash, with a `#` added only when the hash lacks one. |
| Location.SplitFullPath | router/src/location/mod.rs:152-169 | The path, query and hash pieces of a text put the text back together, except that a lone `?` before the hash is dropped. |
| Location.SplitFullPathRoundTrip | router/src/location/mod.rs:152-169 | When the path has no `?` or `#` and the query has no `#`, splitting the full path gives back the path, the query, and the hash with its `#`. |
| Location.FullPathShape | router/src/location/mod.rs:152-169 | The full path starts with the path, and it is the path alone when the query and hash are empty. A non-empty query follows a `?`. The full path is exactly path, query part and hash when the hash starts with `#`, and path, query part, `#` and hash when a non-empty hash does not, so no second `#` is ever added. |
| Location.ToJsValue | router/src/location/mod.rs:336-341 | An empty state converts to `undefined`, and a full state converts to its value. |
| Location.StateEqLaws | router/src/location/mod.rs:344-349 | State equality is equality of the held values: reflexive, symmetric and transitive. An empty state never equals a full one. |
| Location.UndefinedStateIsNotEmpty | router/src/location/mod.rs:332-349 | A state holding `undefined` is not equal to the empty state, yet both reach the history as `undefined`. |
| Location.DefaultLocationChange | router/src/location/mod.rs:281-290 | The default change has an empty URL, replaces the entry, scrolls, and holds no state, which converts to `undefined`. |
| AnchorClick.LastAnchorIsLast | router/src/location/mod.rs:391-399 | No anchor is found exactly when no element of the composed path is an anchor. Otherwise the anchor found is one that no later anchor follows. |
| AnchorClick.HandleAnchorClick | router/src/location/mod.rs:374-478 | The handler's early returns and its loop over the composed path compute exactly the click decision. |
| AnchorClick.RelExternalIff | router/src/location/mod.rs:412-416 | `external` is a `rel` token, splitting on space or tab, exactly when it occurs in `rel` as a whole word. |
| AnchorClick.ClickNavigatesIff | router/src/location/mod.rs:378-441 | The router takes the click exactly when: the origin can be read; no modifier, other button or earlier `preventDefault` applies; the last anchor has no target; it has an `href` or a `state` attribute; it is neither a download nor `rel=external`; its `href` parses; and the parsed URL has the window's origin and is not outside a non-empty base. |
| AnchorClick.ClickPanicsIff | router/src/location/mod.rs:420-424 | The handler panics exactly when a plain click on a link that passes the attribute checks carries an `href` the parser rejects. |
| AnchorClick.ClickIntent | router/src/location/mod.rs:445-477 | A taken click navigates to the parsed `href` of the last anchor. The change's URL is the minimally unescaped path, then `?` if there is a query, then the unescaped query and hash. `replace` holds only for a `true` property, `scroll` only without `noscroll` and `data-noscroll`, and the state is kept unless it is `undefined` or unreadable. |
| Navigation.ScrollToElCases | router/src/location/history.rs:44-63 | An existing element named by the hash is scrolled into view even when `scroll` is false. Otherwise the page scrolls to the top only when `scroll` is true, and nothing happens when it is false. |
| Navigation.BackAfterCommit | router/src/location/history.rs:215-225 | After a commit, returning to the entry below it counts as back. Moving anywhere else does not, once two or more entries are stacked. |
| Navigation.Router.Init | router/src/location/history.rs:74-79 | A fresh router: the given URL is the signal and the only stack entry, nothing is pending, and `is_back` is false. |
| Navigation.Router.Create | router/src/location/history.rs:69-80 | `new` fails exactly when the location cannot be read. Otherwise the URL signal and the path stack hold the current URL, nothing is pending, and `is_back` is false. |
| Navigation.Router.CompleteNavigation | router/src/location/history.rs:250-282 | It appends one history call: replace when `loc.replace`, push otherwise, with the change's href and state. The browser moves to that href. When the new location can be read, its URL is pushed on the path stack and `is_back` is cleared. It scrolls as `scroll_to_el` decides. The slot, signals and tasks are unchanged. |
| Navigation.Router.Navigate | router/src/location/history.rs:149-187 | The URL signal always takes the new URL. With the same origin and path it commits at once and leaves the slot and tokens alone. Otherwise it does not commit, drops the pending token, arms a fresh token in the slot, and queues its task. The same closure is at hash.rs:132-170. |
| Navigation.ArmFresh | router/src/location/history.rs:165-168 | Dropping the pending token and arming a fresh one in its place, with a task waiting on it, keeps the tokens in order: every token is below the next token number, every task has a token, and only the token in the slot is waiting. No settled signal changes. |
| Navigation.Router.ReadyToComplete | router/src/location/history.rs:244-248 | The slot is left empty. A pending token is fired, and with no pending token nothing changes. The same code is at hash.rs:229-233. |
| Navigation.Router.Resume | router/src/location/history.rs:171-185 | A waiting navigation commits only when its token was fired and the URL signal still equals its URL. A dropped token ends the task with no effect, and a token still armed leaves it waiting. |
| Navigation.Router.Popstate | router/src/location/history.rs:211-233 | When the new location can be read, `is_back` is set exactly by the length-1 or second-to-last rule and the URL signal takes the new URL. The path stack and history are never modified. The same callback is at hash.rs:194-218. |
| Navigation.Router.Click | router/src/location/history.rs:189-208 | The click listener applies the anchor-click decision. It navigates exactly when the router takes the click, and every other outcome leaves the router unchanged. |
| Navigation.CancelledNavigationNeverCommits | router/src/location/history.rs:165-183 | Starting a second navigation to another path cancels the first. After the slot fires, the first task commits nothing and the second commits exactly its own history entry. |
| HistoryProvider.StripQuery | router/src/location/history.rs:91-95 | The stored query is the browser search without its `?`. It is empty when the search does not start with `?`. |
| HistoryProvider.CurrentReadsWindow | router/src/location/history.rs:86-101 | Reading fails only when the query cannot be parsed. Origin and path are kept, and the full path of what is read is the browser's path, search and hash put back together. |
| HistoryProvider.New | router/src/location/history.rs:69-80 | The path-based router exists exactly when the location can be read. It commits hrefs unchanged, and its stack holds only the current URL. |
| HistoryProvider.CommitEntry | router/src/location/history.rs:253-271 | The history call passes the change's own URL and its state as a JavaScript value. The default change replaces the entry with `undefined`. |
| HashProvider.RouterRoundTrip | router/src/location/hash.rs:105-125 | Converting router to browser and back clears only the hash, so the round trip is the identity exactly when the hash is empty. |
| HashProvider.BrowserRoundTrip | router/src/location/hash.rs:105-125 | Converting browser to router and back is the identity exactly when the path is `/` and the hash starts with `#`. |
| HashProvider.ConversionsKeepQuery | router/src/location/hash.rs:105-125 | Both conversions keep origin, query and parsed query. To the browser, the path becomes `/` and the hash becomes `#` and the path. To the router, the hash is cleared. |
| HashProvider.LogicalPath | router/src/location/hash.rs:90 | The logical path is what remains of the hash after every leading `#` is removed, and it does not start with `#`. |
| HashProvider.LogicalPathOfCommittedHash | router/src/location/hash.rs:86-95 | A hash written as `#` and a router path gives back that path, whatever number of `#` marks lead it. |
| HashProvider.CommitHrefShape | router/src/location/hash.rs:238-244 | The committed href is the origin, `/`, `?` and the query when there is one, then `#` and the router path. Taken apart, its hash piece is exactly `#` and the path. |
| HashProvider.New | router/src/location/hash.rs:66-84 | The hash router always exists. It reads the hash as its path, commits hrefs in their hash form, and its stack holds only the current URL. |
| ResolvePath.HasScheme | router/src/matching/resolve_path.rs:47-61 | The scheme test. `ResolvePath.HasSchemeIff` characterises it by the first occurrence of `://`, and `ResolvePath.NoSchemeWithoutColon` gives a sufficient condition for its absence. |
| ResolvePath.BeginsWithQueryOrHash | router/src/matching/resolve_path.rs:88-90 | The first character is `#` or `?`. `ResolvePath.Normalize` and `ResolvePath.NormalizeQueryOrHash` state how it suppresses the leading `/`. |
| ResolvePath.ResolvePrefix | router/src/matching/resolve_path.rs:15-34 | The prefix before the empty-prefix `/`. `ResolvePath.ResolvePrefixChoice` states which text it is in each case. |
| UrlContexts.New | router/src/location/mod.rs:54-56 | Wraps a value under a tag. `UrlContexts.ContextLaws` states that `forget_context` gives it back. |
| UrlContexts.Map | router/src/location/mod.rs:58-63 | `map`. `UrlContexts.MapLaws` states the identity and composition laws. |
| UrlContexts.MapMut | router/src/location/mod.rs:65-70 | `map_mut`. `UrlContexts.MapMutLaws` states what it leaves and returns. |
| UrlContexts.ForgetContext | router/src/location/mod.rs:72-74 | `forget_context`. `UrlContexts.ContextLaws` and `UrlContexts.MapLaws` state what it returns. |
| UrlContexts.ChangeContext | router/src/location/mod.rs:76-81 | `change_context`. `UrlContexts.ContextLaws` states that retagging keeps the value and is undone by retagging back. |
| Location.FullPath | router/src/location/mod.rs:152-169 | The reassembled path. `Location.ToFullPath` proves the in-place pushes build it, and `Location.FullPathShape` and `Location.SplitFullPathRoundTrip` state its shape and its inverse. |
| Location.StateNew | router/src/location/mod.rs:332-334 | `State::new`. `Location.UndefinedStateIsNotEmpty` and `Location.ToJsValue` state how its states compare and convert. |
| Location.StateFrom | router/src/location/mod.rs:351-358 | `State::from`: a state holding the value. `Location.UndefinedStateIsNotEmpty` states that a state holding `undefined` differs from the empty one yet converts the same. |
| Location.StateEq | router/src/location/mod.rs:344-349 | `State`'s `eq`. `Location.StateEqLaws` states it is an equivalence that never equates an empty and a full state. |
| AnchorClick.LastAnchor | router/src/location/mod.rs:391-399 | The anchor the loop over the composed path keeps. `AnchorClick.LastAnchorIsLast` states it is the last one. |
| AnchorClick.Intent | router/src/location/mod.rs:445-475 | The navigation a taken click asks for. `AnchorClick.ClickIntent` states each field. |
| AnchorClick.ClickDecision | router/src/location/mod.rs:374-478 | The outcome of a click. `AnchorClick.ClickNavigatesIff` and `AnchorClick.ClickPanicsIff` characterise it, and `AnchorClick.HandleAnchorClick` computes it. |
| Navigation.ScrollToEl | router/src/location/history.rs:44-63 | The scroll at the end of a commit. `Navigation.ScrollToElCases` states each case. |
| Navigation.IsNavigatingBack | router/src/location/history.rs:218-220 | The back rule. `Navigation.BackAfterCommit` states it after a commit, and `Navigation.Router.Popstate` sets `is_back` by it. |
| HistoryProvider.Current | router/src/location/history.rs:86-101 | Reading the window location. `HistoryProvider.CurrentReadsWindow` states when it fails and what it reads. |
| HashProvider.BrowserToRouterUrl | router/src/location/hash.rs:105-114 | The browser-to-router conversion. `HashProvider.ConversionsKeepQuery` and `HashProvider.BrowserRoundTrip` state what it keeps and when it round-trips. |
| HashProvider.RouterToBrowserUrl | router/src/location/hash.rs:116-125 | The router-to-browser conversion. `HashProvider.ConversionsKeepQuery` and `HashProvider.RouterRoundTrip` state what it keeps and when it round-trips. |
| HashProvider.Current | router/src/location/hash.rs:86-95 | Reading the hash as the router path. `HashProvider.LogicalPath` and `HashProvider.LogicalPathOfCommittedHash` state what is read back. |
| HashProvider.CommitHref | router/src/location/hash.rs:238-244 | The href committed for a router URL. `HashProvider.CommitHrefShape` states its pieces. |
| UrlContexts.UrlContext | router/src/location/mod.rs:51 | A value tagged with the context it belongs to. The tag is a type parameter only, as in the source's phantom marker, so retagging never changes the value. |
| Location.Url | router/src/location/mod.rs:89-95 | A URL as its origin, path, search string, query parameters and hash, each kept as given. |
| Location.LocationChange | router/src/location/mod.rs:269-279 | A requested navigation: the new URL, whether it replaces the current history entry, whether to scroll, and the history state. |
| Location.State | router/src/location/mod.rs:329 | A history state: nothing, or one JavaScript value. |
| Navigation.Router | router/src/location/history.rs:29-35 | The state a provider keeps: the URL signal, the pending-navigation slot, the path stack and the back flag. The hash provider keeps the same fields (router/src/location/hash.rs:28-34). `Navigation.Router.Valid` states that tokens are handed out in order and that only the pending token can still be waiting. |
| Navigation.RepeatedNavigationCommitsTwice | router/src/location/history.rs:154-183 | Navigating to a URL on another path and then to the same URL again before its data is ready commits twice: the second call commits at once, and the first task commits after the slot fires, because the signal still holds its URL. |

## Left out

- `escape`, `unescape` and `unescape_minimal` call `js_sys` or `percent_encoding`. `unescape` and `unescape_minimal` are parameters of the click decision. `escape` is not used by the modelled code.
- URL parsing wraps `web_sys::Url`, so the parsers are parameters. In the path-based provider and the click handler, `parse`, `parse_with_base` and `search_params_from_web_url` may return `None`. In the hash provider, `UrlContext::parse` and `parse_with_default_base` are total parameters, so their failures are not modelled.
- `resolve_redirect_url` and `redirect` use `web_sys::Url`, `request_animation_frame` and `set_href`. These are foreign browser calls.
- The `Location` reactive memos and `provide_server_action_error` belong to the reactive graph and the context system.
- The field accessors of `UrlContext<C, Url>` (`origin()`, `path()` and the rest) are each `map` of one field. The model reads the fields directly.
- Listener registration, `Closure::wrap`, logging and the DOM scroll calls are left out. Scrolling is the `ScrollAction` value that `scroll_to_el` decides.
- `Mutex`, `or_poisoned`, `oneshot`, `Executor::spawn_local` and the `is_disposed` assert are concurrency plumbing. They become the token signals, the task map and the explicit `Resume` step. Poisoning and the order in which an executor polls tasks are not modelled.
- JavaScript value equality is `===` on handle ids, where one id stands for each class of `===`-equal values. A NaN, which differs from itself under `===`, has no such class and is not modelled.
- `ParamsMap` is an opaque sequence of pairs compared by equality.
- HistoryProvider.Current: fails only when the query cannot be read into a `ParamsMap`. Failures of the `origin()`, `pathname()`, `search()` and `hash()` getters are not modelled.
- HashProvider.Current: never fails, so the errors of the `location.hash()` and `location.origin()` getters are not modelled.
- Navigation.Router.Click: the origin in the click environment is a parameter independent of the router's `window`. The model does not tie the origin the decision compares against to the window whose location the router holds.
- Navigation.Router.CompleteNavigation: the `history()`, `push_state_with_url` and `replace_state_with_url` calls are assumed to succeed. The code unwraps them (`history.rs:251,260,270`, `hash.rs:236,253,257`), so it panics on a refused call before it pushes on the path stack, clears `is_back` or scrolls. That panic path is not modelled, and the commit branches of `Navigate`, `Resume`, `CancelledNavigationNeverCommits` and `RepeatedNavigationCommitsTwice` inherit the assumption.
- Navigation.Router.Create: `new` reads `current()` twice. The model reads it once, so the branch where the second read fails and the stack starts empty does not arise.
- The browser's own history stack is not modelled. The history is a log of the pushState and replaceState calls, and a popstate gives the new window location directly.
- `join_paths` and `remove_wildcard` are commented out in `resolve_path.rs`.
