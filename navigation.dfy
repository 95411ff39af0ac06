/** The navigation state machine that the path-based provider (router/src/location/history.rs)
    and the hash-based provider (router/src/location/hash.rs) share: the URL signal, the slot
    of the navigation waiting for its data, the stack of committed URLs used to detect back
    navigations, and the `is_back` flag.

    The one-shot channel of a pending navigation is a token whose signal is waiting (`Armed`),
    sent (`Fired`) or cancelled by dropping its sender (`Dropped`); the spawned continuation is
    a task keyed by its token, run by `Resume`. The browser is the window location and a log of
    the pushState and replaceState calls; what differs between the providers is how the window
    location is read (`current`), the href handed to the history API (`hrefOf`), and how the
    browser moves for an href (`resolve`). */
module Navigation {
  import opened Wrappers
  import opened Location
  import opened AnchorClick

  datatype HistoryOp = PushState | ReplaceState

  /** A call to the history API: which call, the href, and the state value. */
  datatype HistoryEntry = HistoryEntry(op: HistoryOp, href: string, state: JsValue)

  type TokenId = nat

  /** The state of a one-shot channel. */
  datatype Signal = Armed | Fired | Dropped

  /** The continuation of a navigation that waits for its data. */
  datatype Task = Task(newUrl: RouterUrl, change: LocationChange)

  /** What `scroll_to_el` does. */
  datatype ScrollAction = ScrollIntoView(id: string) | ScrollToTop | NoScroll

  /** The document as `scroll_to_el` uses it: URI decoding (`None` when it fails) and whether
      an element with an id exists. */
  datatype Dom = Dom(decodeUri: string -> Option<string>, hasElement: string -> bool)

  /** The id `scroll_to_el` looks up for a non-empty hash: the hash without its first character,
      decoded, or the whole hash when decoding fails. */
  function ElementId(hash: string, dom: Dom): string
    requires hash != []
  {
    match dom.decodeUri(hash[1..])
    case Some(decoded) => decoded
    case None => hash
  }

  /** `scroll_to_el`: to the element the hash names when there is one, else to the top when
      the navigation asks for scrolling, else nowhere. */
  function ScrollToEl(hash: string, locScroll: bool, dom: Dom): ScrollAction {
    if hash != [] && dom.hasElement(ElementId(hash, dom)) then ScrollIntoView(ElementId(hash, dom))
    else if locScroll then ScrollToTop
    else NoScroll
  }

  /** The three outcomes of `scroll_to_el`: an existing element wins even when `scroll` is off;
      the top is used only when `scroll` is on; nothing happens otherwise. */
  lemma ScrollToElCases(hash: string, locScroll: bool, dom: Dom)
    ensures var a := ScrollToEl(hash, locScroll, dom);
      && (a.ScrollIntoView? <==> hash != [] && dom.hasElement(ElementId(hash, dom)))
      && (a.ScrollIntoView? ==> a.id == ElementId(hash, dom))
      && (a == ScrollToTop <==> !a.ScrollIntoView? && locScroll)
      && (a == NoScroll <==> !a.ScrollIntoView? && !locScroll)
  {
  }

  /** The popstate rule: the move is a back navigation when only the first URL is on the
      stack, or when the new URL is the one below the top. */
  predicate IsNavigatingBack(stack: seq<RouterUrl>, newUrl: RouterUrl) {
    |stack| == 1 || (|stack| >= 2 && stack[|stack| - 2] == newUrl)
  }

  /** After committing `u` on top of `prev`, returning to `prev` is a back navigation, while
      moving anywhere else is not, once two or more commits are stacked. */
  lemma BackAfterCommit(stack: seq<RouterUrl>, u: RouterUrl, w: RouterUrl)
    requires stack != []
    ensures IsNavigatingBack(stack + [u], stack[|stack| - 1])
    ensures w != stack[|stack| - 1] ==> !IsNavigatingBack(stack + [u], w)
  {
  }

  /** `navigate` commits straight away when the new URL keeps the origin and path. */
  predicate SamePath(curr: RouterUrl, newUrl: RouterUrl) {
    curr.value.origin == newUrl.value.origin && curr.value.path == newUrl.value.path
  }

  /** The signals after the sender of the pending token, if any, is dropped. */
  function Cancel(tokens: map<TokenId, Signal>, pending: Option<TokenId>): map<TokenId, Signal> {
    match pending
    case Some(t) => tokens[t := Dropped]
    case None => tokens
  }

  /** Tokens are handed out in order, every task has a token, and at most one token is
      waiting: the one in the pending slot. */
  ghost predicate TokensInOrder(tokens: map<TokenId, Signal>, tasks: map<TokenId, Task>,
                                pending: Option<TokenId>, nextToken: TokenId)
  {
    && (forall t :: t in tokens ==> t < nextToken)
    && tasks.Keys <= tokens.Keys
    && (pending.Some? ==> pending.value in tokens && tokens[pending.value] == Armed)
    && (forall t :: t in tokens && tokens[t] == Armed ==> pending == Some(t))
  }

  /** Dropping the pending token and arming a fresh one in its place, with a task waiting on
      it, keeps the tokens in order; no settled signal changes. */
  lemma ArmFresh(tokens: map<TokenId, Signal>, tasks: map<TokenId, Task>,
                 pending: Option<TokenId>, nextToken: TokenId, task: Task)
    requires TokensInOrder(tokens, tasks, pending, nextToken)
    ensures var tokens' := Cancel(tokens, pending)[nextToken := Armed];
      && TokensInOrder(tokens', tasks[nextToken := task], Some(nextToken), nextToken + 1)
      && (forall t :: t in tokens && tokens[t] != Armed ==> t in tokens' && tokens'[t] == tokens[t])
  {
  }

  /** A provider's navigation state. */
  class Router {
    const current: WindowLocation -> Option<RouterUrl>
    const hrefOf: string -> string
    const resolve: (WindowLocation, string) -> WindowLocation

    var url: RouterUrl
    var pending: Option<TokenId>
    var pathStack: seq<RouterUrl>
    var isBack: bool
    var window: WindowLocation
    ghost var history: seq<HistoryEntry>
    var tokens: map<TokenId, Signal>
    var tasks: map<TokenId, Task>
    var nextToken: TokenId

    /** Tokens are handed out in order, every task has a token, and at most one token is
        waiting: the one in the pending slot. */
    ghost predicate Valid()
      reads this
    {
      TokensInOrder(tokens, tasks, pending, nextToken)
    }

    /** The history call `complete_navigation` makes for a change. */
    function EntryFor(change: LocationChange): HistoryEntry {
      HistoryEntry(if change.replace then ReplaceState else PushState, hrefOf(change.value.value),
                   ToJsValue(change.state))
    }

    /** The effect of `complete_navigation`: one history entry, the browser moved to its href,
        and, when the new location can be read, its URL pushed on the stack and `is_back`
        cleared. */
    twostate predicate Committed(change: LocationChange)
      reads this
    {
      && history == old(history) + [EntryFor(change)]
      && window == resolve(old(window), hrefOf(change.value.value))
      && match current(window)
         case Some(u) => pathStack == old(pathStack) + [u] && !isBack
         case None => pathStack == old(pathStack) && isBack == old(isBack)
    }

    /** Nothing reached the browser, the stack or `is_back`. */
    twostate predicate NotCommitted()
      reads this
    {
      history == old(history) && window == old(window) && pathStack == old(pathStack) && isBack == old(isBack)
    }

    /** A signal that is no longer waiting never changes again. */
    twostate predicate SettledKept()
      reads this
    {
      forall t :: t in old(tokens) && old(tokens)[t] != Armed ==> t in tokens && tokens[t] == old(tokens)[t]
    }

    /** The effect of the `navigate` closure: the URL signal always takes the new URL; a URL
        with the same origin and path commits at once and leaves the slot alone; any other URL
        cancels the pending token, arms a fresh one in the slot, and leaves a task waiting. */
    twostate predicate Navigated(newUrl: RouterUrl, change: LocationChange)
      reads this
    {
      && url == newUrl
      && (SamePath(old(url), newUrl) ==>
            && Committed(change)
            && pending == old(pending) && tokens == old(tokens) && tasks == old(tasks)
            && nextToken == old(nextToken))
      && (!SamePath(old(url), newUrl) ==>
            && NotCommitted()
            && pending == Some(old(nextToken)) && nextToken == old(nextToken) + 1
            && tokens == Cancel(old(tokens), old(pending))[old(nextToken) := Armed]
            && tasks == old(tasks)[old(nextToken) := Task(newUrl, change)])
    }

    constructor Init(current: WindowLocation -> Option<RouterUrl>, hrefOf: string -> string,
                     resolve: (WindowLocation, string) -> WindowLocation, window: WindowLocation,
                     initial: RouterUrl)
      ensures this.current == current && this.hrefOf == hrefOf && this.resolve == resolve
      ensures this.window == window && history == []
      ensures url == initial && pathStack == [initial] && !isBack
      ensures pending == None && tokens == map[] && tasks == map[] && nextToken == 0
      ensures Valid()
    {
      this.current := current;
      this.hrefOf := hrefOf;
      this.resolve := resolve;
      this.window := window;
      history := [];
      url := initial;
      pathStack := [initial];
      isBack := false;
      pending := None;
      tokens := map[];
      tasks := map[];
      nextToken := 0;
    }

    /** `new`: fails when the location cannot be read; otherwise the URL signal and the stack
        hold the current URL, nothing is pending and `is_back` is false. */
    static method Create(current: WindowLocation -> Option<RouterUrl>, hrefOf: string -> string,
                         resolve: (WindowLocation, string) -> WindowLocation, window: WindowLocation)
      returns (r: Option<Router>)
      ensures r.None? <==> current(window).None?
      ensures r.Some? ==>
        && fresh(r.value) && r.value.Valid()
        && r.value.current == current && r.value.hrefOf == hrefOf && r.value.resolve == resolve
        && r.value.window == window && r.value.history == []
        && r.value.url == current(window).value && r.value.pathStack == [current(window).value]
        && !r.value.isBack && r.value.pending == None && r.value.tasks == map[]
    {
      var initial := current(window);
      if initial.None? {
        return None;
      }
      var router := new Router.Init(current, hrefOf, resolve, window, initial.value);
      r := Some(router);
    }

    /** `complete_navigation`. */
    method CompleteNavigation(change: LocationChange, dom: Dom) returns (scroll: ScrollAction)
      requires Valid()
      modifies this
      ensures Valid() && Committed(change)
      ensures url == old(url) && pending == old(pending) && tokens == old(tokens)
      ensures tasks == old(tasks) && nextToken == old(nextToken)
      ensures scroll == ScrollToEl(window.hash, change.scroll, dom)
    {
      var href := hrefOf(change.value.value);
      history := history + [EntryFor(change)];
      window := resolve(window, href);
      var now := current(window);
      if now.Some? {
        pathStack := pathStack + [now.value];
        isBack := false;
      }
      scroll := ScrollToEl(window.hash, change.scroll, dom);
    }

    /** The `navigate` closure; the scroll is that of the immediate commit, if there is one. */
    method Navigate(newUrl: RouterUrl, change: LocationChange, dom: Dom) returns (scroll: Option<ScrollAction>)
      requires Valid()
      modifies this
      ensures Valid() && Navigated(newUrl, change) && SettledKept()
      ensures SamePath(old(url), newUrl) <==> scroll.Some?
      ensures scroll.Some? ==> scroll.value == ScrollToEl(window.hash, change.scroll, dom)
    {
      var samePath := url.value.origin == newUrl.value.origin && url.value.path == newUrl.value.path;
      url := newUrl;
      if samePath {
        var s := CompleteNavigation(change, dom);
        scroll := Some(s);
      } else {
        var t := nextToken;
        ArmFresh(tokens, tasks, pending, t, Task(newUrl, change));
        nextToken := nextToken + 1;
        tokens := Cancel(tokens, pending)[t := Armed];
        tasks := tasks[t := Task(newUrl, change)];
        pending := Some(t);
        scroll := None;
      }
    }

    /** `ready_to_complete`: takes the pending token, if any, out of the slot and fires it. */
    method ReadyToComplete()
      requires Valid()
      modifies this
      ensures Valid() && SettledKept() && NotCommitted()
      ensures pending == None
      ensures old(pending).Some? ==> tokens == old(tokens)[old(pending).value := Fired]
      ensures old(pending).None? ==> tokens == old(tokens)
      ensures url == old(url) && tasks == old(tasks) && nextToken == old(nextToken)
    {
      if pending.Some? {
        tokens := tokens[pending.value := Fired];
        pending := None;
      }
    }

    /** Runs the task waiting on token `t`. A fired token completes its navigation, but only
        while the URL signal still holds that navigation's URL; a dropped token ends the task
        with no effect; a token still waiting leaves it waiting. */
    method Resume(t: TokenId, dom: Dom) returns (scroll: Option<ScrollAction>)
      requires Valid()
      modifies this
      ensures Valid() && SettledKept()
      ensures var ended := t in old(tasks) && old(tokens)[t] != Armed;
        && (ended ==> tasks == old(tasks) - {t})
        && (!ended ==> tasks == old(tasks))
      ensures var commits := t in old(tasks) && old(tokens)[t] == Fired && old(url) == old(tasks)[t].newUrl;
        && (commits ==> Committed(old(tasks)[t].change)
                        && scroll == Some(ScrollToEl(window.hash, old(tasks)[t].change.scroll, dom)))
        && (!commits ==> NotCommitted() && scroll == None)
      ensures url == old(url) && pending == old(pending) && tokens == old(tokens) && nextToken == old(nextToken)
    {
      scroll := None;
      if t in tasks && tokens[t] != Armed {
        var task := tasks[t];
        var signal := tokens[t];
        tasks := tasks - {t};
        if signal == Fired && url == task.newUrl {
          var s := CompleteNavigation(task.change, dom);
          scroll := Some(s);
        }
      }
    }

    /** The popstate callback, after the browser has moved to `newWindow`: when the location
        can be read, `is_back` is set by the back rule against the stack and the URL signal takes
        the new URL; the stack itself is never touched. */
    method Popstate(newWindow: WindowLocation)
      requires Valid()
      modifies this
      ensures Valid() && SettledKept()
      ensures window == newWindow && history == old(history) && pathStack == old(pathStack)
      ensures current(newWindow).Some? ==>
        url == current(newWindow).value && isBack == IsNavigatingBack(old(pathStack), current(newWindow).value)
      ensures current(newWindow).None? ==> url == old(url) && isBack == old(isBack)
      ensures pending == old(pending) && tokens == old(tokens) && tasks == old(tasks) && nextToken == old(nextToken)
    {
      window := newWindow;
      var now := current(window);
      if now.Some? {
        isBack := IsNavigatingBack(pathStack, now.value);
        url := now.value;
      }
    }

    /** The click listener: the anchor-click decision, then `navigate` when it takes the click
        over; any other outcome leaves the router as it was. */
    method Click(ev: MouseEvent, env: ClickEnv, dom: Dom) returns (outcome: ClickOutcome, scroll: Option<ScrollAction>)
      requires Valid()
      modifies this
      ensures Valid() && SettledKept()
      ensures outcome == ClickDecision(ev, env)
      ensures outcome.ClientNavigate? ==> Navigated(outcome.url, outcome.change)
      ensures outcome.ClientNavigate? ==> (SamePath(old(url), outcome.url) <==> scroll.Some?)
      ensures scroll.Some? ==> outcome.ClientNavigate? && scroll.value == ScrollToEl(window.hash, outcome.change.scroll, dom)
      ensures !outcome.ClientNavigate? ==> unchanged(this) && scroll == None
    {
      outcome := HandleAnchorClick(ev, env);
      scroll := None;
      if outcome.ClientNavigate? {
        scroll := Navigate(outcome.url, outcome.change, dom);
      }
    }
  }

  /** Cancellation: when a second navigation to another path starts before the first one's
      data is ready, the first is cancelled. Firing the slot and running both tasks commits
      the second navigation and never the first. */
  method CancelledNavigationNeverCommits(r: Router, a: RouterUrl, ca: LocationChange,
                                         b: RouterUrl, cb: LocationChange, dom: Dom)
    returns (first: Option<ScrollAction>, second: Option<ScrollAction>)
    requires r.Valid() && !SamePath(r.url, a) && !SamePath(a, b)
    modifies r
    ensures r.Valid()
    ensures first == None && second.Some?
    ensures r.history == old(r.history) + [r.EntryFor(cb)]
    ensures r.url == b && r.pending == None
  {
    var ta := r.nextToken;
    var s1 := r.Navigate(a, ca, dom);
    var tb := r.nextToken;
    var s2 := r.Navigate(b, cb, dom);
    assert r.tokens[ta] == Dropped;
    r.ReadyToComplete();
    assert r.tokens[tb] == Fired && r.tasks[tb].newUrl == b;
    first := r.Resume(ta, dom);
    second := r.Resume(tb, dom);
  }

  /** A repeated navigation: navigating to a URL on another path and then to the same URL again
      before the first one's data is ready commits twice. The second call has the same origin and
      path as the signal, so it commits at once; the first task still holds the URL the signal
      shows, so it commits too once the slot fires. */
  method RepeatedNavigationCommitsTwice(r: Router, a: RouterUrl, ca: LocationChange,
                                        cb: LocationChange, dom: Dom)
    returns (immediate: Option<ScrollAction>, later: Option<ScrollAction>)
    requires r.Valid() && !SamePath(r.url, a)
    modifies r
    ensures r.Valid()
    ensures immediate.Some? && later.Some?
    ensures r.history == old(r.history) + [r.EntryFor(cb), r.EntryFor(ca)]
    ensures r.url == a && r.pending == None
  {
    var ta := r.nextToken;
    var s1 := r.Navigate(a, ca, dom);
    immediate := r.Navigate(a, cb, dom);
    assert r.tokens[ta] == Armed && r.pending == Some(ta);
    r.ReadyToComplete();
    assert r.tokens[ta] == Fired && r.tasks[ta].newUrl == a;
    later := r.Resume(ta, dom);
  }
}
