/**
 * Navigation detection (`NavigationUtils.setup`).  Three channels report a
 * finished navigation: router events (passed straight through), body
 * mutations and the patched `history.pushState`.  The last two compare the
 * pathname with `lastUrl`, update it first, and report only a change.
 */
module Navigation {
  /** The latest pathname `lastUrl` holds after the deduplicating channels saw `seen`. */
  function Latest(start: string, seen: seq<string>): string {
    if |seen| == 0 then start else seen[|seen| - 1]
  }

  /** No path appears twice in a row. */
  predicate NoRepeats(s: seq<string>) {
    forall k :: 0 < k < |s| ==> s[k - 1] != s[k]
  }

  /** The paths the `lastUrl` check lets through, starting from `last`. */
  function Dedup(last: string, seen: seq<string>): seq<string>
    decreases |seen|
  {
    if |seen| == 0 then []
    else if seen[0] != last then [seen[0]] + Dedup(seen[0], seen[1..])
    else Dedup(last, seen[1..])
  }

  /**
   * What the check lets through is no longer than what was seen, never
   * repeats a path twice in a row, starts with a change, ends at the latest
   * path, and holds only paths that were seen.
   */
  lemma {:induction false} DedupShape(last: string, seen: seq<string>)
    ensures |Dedup(last, seen)| <= |seen|
    ensures NoRepeats(Dedup(last, seen))
    ensures |Dedup(last, seen)| > 0 ==> Dedup(last, seen)[0] != last
    ensures |Dedup(last, seen)| > 0 ==> Dedup(last, seen)[|Dedup(last, seen)| - 1] == Latest(last, seen)
    ensures |Dedup(last, seen)| == 0 ==> Latest(last, seen) == last
    ensures forall k :: 0 <= k < |Dedup(last, seen)| ==> Dedup(last, seen)[k] in seen
    decreases |seen|
  {
    if |seen| > 0 {
      var next := if seen[0] != last then seen[0] else last;
      DedupShape(next, seen[1..]);
      assert Latest(next, seen[1..]) == Latest(last, seen);
      var rest := Dedup(next, seen[1..]);
      assert forall k :: 0 <= k < |rest| ==> rest[k] in seen by {
        forall k | 0 <= k < |rest| ensures rest[k] in seen {
          assert rest[k] in seen[1..];
        }
      }
    }
  }

  /** One more observation is reported exactly when it differs from the latest path. */
  lemma {:induction false} DedupSnoc(last: string, seen: seq<string>, path: string)
    ensures Dedup(last, seen + [path]) == Dedup(last, seen) + (if path != Latest(last, seen) then [path] else [])
    ensures Latest(last, seen + [path]) == path
    decreases |seen|
  {
    if |seen| > 0 {
      var t := seen + [path];
      assert t[0] == seen[0] && t[1..] == seen[1..] + [path];
      var next := if seen[0] != last then seen[0] else last;
      assert Latest(next, seen[1..]) == Latest(last, seen);
      DedupSnoc(next, seen[1..], path);
    }
  }

  /** Seeing the same path over and over adds nothing after the first report. */
  lemma {:induction false} DedupRepeated(last: string, path: string, n: nat)
    ensures Dedup(last, Repeat(path, n)) == if n > 0 && path != last then [path] else []
    decreases n
  {
    if n > 0 {
      assert Repeat(path, n)[1..] == Repeat(path, n - 1);
      DedupRepeated(path, path, n - 1);
      if path == last { DedupRepeated(last, path, n - 1); }
    }
  }

  function Repeat(path: string, n: nat): (r: seq<string>)
    ensures |r| == n && forall k :: 0 <= k < n ==> r[k] == path
  {
    if n == 0 then [] else [path] + Repeat(path, n - 1)
  }

  /**
   * The navigation state: `lastUrl`, `navigationInProgress`, whether router
   * events are attached, the completions the pushState patch has scheduled
   * and not yet delivered, and the `onComplete` calls made so far.
   * `observed` and `accepted` record what the deduplicating channels saw and
   * let through.
   */
  class Watcher {
    var lastUrl: string
    var navigationInProgress: bool
    var routerAttached: bool
    var pending: seq<string>
    var completed: seq<string>
    ghost var initialUrl: string
    ghost var observed: seq<string>
    ghost var accepted: seq<string>

    ghost predicate Valid()
      reads this
    {
      && lastUrl == Latest(initialUrl, observed)
      && accepted == Dedup(initialUrl, observed)
      && (navigationInProgress ==> |pending| > 0)
    }

    /** `NavigationUtils.setup`, on the page at `currentPath`; `hasRouter` is whether `window.next` exists. */
    constructor (currentPath: string, hasRouter: bool)
      ensures Valid()
      ensures lastUrl == currentPath && routerAttached == hasRouter
      ensures !navigationInProgress && pending == [] && completed == [] && accepted == []
    {
      lastUrl := currentPath;
      navigationInProgress := false;
      routerAttached := hasRouter;
      pending := [];
      completed := [];
      initialUrl := currentPath;
      observed := [];
      accepted := [];
    }

    /** A `routeChangeComplete` event: passed on without any `lastUrl` check. */
    method RouteChangeComplete(path: string)
      modifies this
      ensures completed == old(completed) + (if routerAttached then [path] else [])
      ensures lastUrl == old(lastUrl) && pending == old(pending) && navigationInProgress == old(navigationInProgress)
      ensures routerAttached == old(routerAttached)
      ensures observed == old(observed) && accepted == old(accepted) && initialUrl == old(initialUrl)
    {
      if routerAttached {
        completed := completed + [path];
      }
    }

    /** The body observer fires while the pathname is `currentUrl`. */
    method Mutation(currentUrl: string)
      requires Valid()
      modifies this
      ensures Valid()
      ensures lastUrl == currentUrl
      ensures completed == old(completed) + (if currentUrl != old(lastUrl) then [currentUrl] else [])
      ensures accepted == old(accepted) + (if currentUrl != old(lastUrl) then [currentUrl] else [])
      ensures observed == old(observed) + [currentUrl] && initialUrl == old(initialUrl)
      ensures pending == old(pending) && navigationInProgress == old(navigationInProgress)
      ensures routerAttached == old(routerAttached)
    {
      DedupSnoc(initialUrl, observed, currentUrl);
      if currentUrl != lastUrl {
        lastUrl := currentUrl;
        completed := completed + [currentUrl];
        accepted := accepted + [currentUrl];
      }
      observed := observed + [currentUrl];
    }

    /** The patched `history.pushState` runs and leaves the pathname at `currentUrl`. */
    method PushState(currentUrl: string)
      requires Valid()
      modifies this
      ensures Valid()
      ensures lastUrl == currentUrl
      ensures currentUrl != old(lastUrl) ==> navigationInProgress && pending == old(pending) + [currentUrl]
      ensures currentUrl == old(lastUrl) ==> navigationInProgress == old(navigationInProgress) && pending == old(pending)
      ensures accepted == old(accepted) + (if currentUrl != old(lastUrl) then [currentUrl] else [])
      ensures observed == old(observed) + [currentUrl] && initialUrl == old(initialUrl)
      ensures completed == old(completed) && routerAttached == old(routerAttached)
    {
      DedupSnoc(initialUrl, observed, currentUrl);
      if currentUrl != lastUrl {
        lastUrl := currentUrl;
        navigationInProgress := true;
        pending := pending + [currentUrl];
        accepted := accepted + [currentUrl];
      }
      observed := observed + [currentUrl];
    }

    /** The 500 ms timer of the oldest scheduled completion fires. */
    method PushSettled()
      requires Valid() && |pending| > 0
      modifies this
      ensures Valid()
      ensures !navigationInProgress
      ensures completed == old(completed) + [old(pending)[0]] && pending == old(pending)[1..]
      ensures lastUrl == old(lastUrl) && routerAttached == old(routerAttached)
      ensures observed == old(observed) && accepted == old(accepted) && initialUrl == old(initialUrl)
    {
      navigationInProgress := false;
      completed := completed + [pending[0]];
      pending := pending[1..];
    }
  }
}
