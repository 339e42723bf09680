// The page-cursor loop shared by every listing helper of gitlab_util.go:
// start at page 1, visit the page's items in order, stop when the callback
// declines or fails, otherwise follow NextPage until it is 0.
//
// The GitLab service is a fixed sequence of responses: entry k answers the
// request for page k+1. A page past the end answers an empty last page, as
// GitLab does.

module Paging {
  import opened Wrappers

  /** The outcome of one ListXxx call for one page number. */
  datatype Response<T> = Page(items: seq<T>, nextPage: nat) | Failure(error: string)

  type Pages<T> = seq<Response<T>>

  /** The service's answer for a page number. */
  function Fetch<T>(src: Pages<T>, page: nat): Response<T>
  {
    if 1 <= page <= |src| then src[page - 1] else Page([], 0)
  }

  /**
   * Every NextPage is 0 or a later page. The loops of gitlab_util.go rely on
   * this to terminate: a service that points back would make them spin.
   */
  ghost predicate Forward<T>(src: Pages<T>)
  {
    forall k :: 0 <= k < |src| && src[k].Page? && src[k].nextPage != 0 ==> src[k].nextPage > k + 1
  }

  /** What a callback returns: (more, err). */
  datatype Reply = Reply(more: bool, err: Option<string>)

  const Continue := Reply(true, None)

  /** Why a walk ended. */
  datatype Stop = Exhausted | Declined | Failed(error: string)
  {
    /** The error the Go iterator returns. */
    function ErrorOf(): Option<string>
    {
      if Failed? then Some(error) else None
    }
  }

  /** The callback invocations, the pages requested, and why the walk ended. */
  datatype Walk<T> = Walk(called: seq<T>, fetched: seq<nat>, stop: Stop)

  /** Visiting one page's items: the invocations, and the stop if one happened. */
  datatype Scan<T> = Scan(called: seq<T>, stop: Option<Stop>)

  function Filter<T>(keep: T -> bool, s: seq<T>): seq<T>
  {
    if s == [] then [] else (if keep(s[0]) then [s[0]] else []) + Filter(keep, s[1..])
  }

  lemma {:induction false} FilterAppend<T>(keep: T -> bool, a: seq<T>, b: seq<T>)
    ensures Filter(keep, a + b) == Filter(keep, a) + Filter(keep, b)
  {
    if a == [] {
      assert a + b == b;
    } else {
      var head := if keep(a[0]) then [a[0]] else [];
      assert (a + b)[0] == a[0] && (a + b)[1..] == a[1..] + b;
      assert Filter(keep, a + b) == head + Filter(keep, a[1..] + b);
      assert Filter(keep, a) == head + Filter(keep, a[1..]);
      FilterAppend(keep, a[1..], b);
      assert head + (Filter(keep, a[1..]) + Filter(keep, b)) == (head + Filter(keep, a[1..])) + Filter(keep, b);
    }
  }

  /** The inner `for _, p := range ps` loop of one page. */
  function ScanItems<T>(items: seq<T>, keep: T -> bool, f: T -> Reply): Scan<T>
  {
    if items == [] then Scan([], None)
    else if !keep(items[0]) then ScanItems(items[1..], keep, f)
    else
      var r := f(items[0]);
      if r.err.Some? then Scan([items[0]], Some(Failed(r.err.value)))
      else if !r.more then Scan([items[0]], Some(Declined))
      else
        var rest := ScanItems(items[1..], keep, f);
        Scan([items[0]] + rest.called, rest.stop)
  }

  /** How the iterators wrap a page-fetch error: fmt.Errorf("caller: %w\n", err). */
  function Wrapped(caller: string, e: string): string
  {
    caller + ": " + e + "\n"
  }

  /** The outer page loop, starting at `page`. */
  function WalkFrom<T>(src: Pages<T>, caller: string, keep: T -> bool, f: T -> Reply, page: nat): Walk<T>
    requires Forward(src) && page >= 1
    decreases |src| + 1 - page
  {
    match Fetch(src, page)
    case Failure(e) => Walk([], [page], Failed(Wrapped(caller, e)))
    case Page(items, next) =>
      var s := ScanItems(items, keep, f);
      if s.stop.Some? then Walk(s.called, [page], s.stop.value)
      else if next == 0 then Walk(s.called, [page], Exhausted)
      else
        var rest := WalkFrom(src, caller, keep, f, next);
        Walk(s.called + rest.called, [page] + rest.fetched, rest.stop)
  }

  /** Everything the service lists from `page` on, and the error of the first failing page. */
  datatype Listing<T> = Listing(items: seq<T>, error: Option<string>)

  function ListFrom<T>(src: Pages<T>, page: nat): Listing<T>
    requires Forward(src) && page >= 1
    decreases |src| + 1 - page
  {
    match Fetch(src, page)
    case Failure(e) => Listing([], Some(e))
    case Page(items, next) =>
      if next == 0 then Listing(items, None)
      else
        var rest := ListFrom(src, next);
        Listing(items + rest.items, rest.error)
  }

  /** The page numbers a complete listing requests, in order. */
  function ChainFrom<T>(src: Pages<T>, page: nat): seq<nat>
    requires Forward(src) && page >= 1
    decreases |src| + 1 - page
  {
    match Fetch(src, page)
    case Failure(_) => [page]
    case Page(_, next) => if next == 0 then [page] else [page] + ChainFrom(src, next)
  }

  /** The items on the given pages, page after page. */
  function ItemsOn<T>(src: Pages<T>, pages: seq<nat>): seq<T>
  {
    if pages == [] then []
    else
      var r := Fetch(src, pages[0]);
      (if r.Page? then r.items else []) + ItemsOn(src, pages[1..])
  }

  lemma {:induction false} ItemsOnAppend<T>(src: Pages<T>, a: seq<nat>, b: seq<nat>)
    ensures ItemsOn(src, a + b) == ItemsOn(src, a) + ItemsOn(src, b)
  {
    if a == [] {
      assert a + b == b;
    } else {
      assert (a + b)[0] == a[0] && (a + b)[1..] == a[1..] + b;
      ItemsOnAppend(src, a[1..], b);
    }
  }

  // ---------------------------------------------------------------------
  // One page

  lemma {:induction false} ScanCalledIsFilteredPrefix<T>(items: seq<T>, keep: T -> bool, f: T -> Reply)
    ensures ScanItems(items, keep, f).called <= Filter(keep, items)
    ensures ScanItems(items, keep, f).stop.None? ==> ScanItems(items, keep, f).called == Filter(keep, items)
    ensures ScanItems(items, keep, f).stop != Some(Exhausted)
  {
    if items != [] {
      ScanCalledIsFilteredPrefix(items[1..], keep, f);
    }
  }

  lemma {:induction false} ScanRepliesBeforeStop<T>(items: seq<T>, keep: T -> bool, f: T -> Reply)
    ensures var s := ScanItems(items, keep, f);
      (forall i :: 0 <= i < |s.called| - 1 ==> f(s.called[i]) == Continue)
      && (s.stop.None? ==> forall i :: 0 <= i < |s.called| ==> f(s.called[i]) == Continue)
      && (s.stop == Some(Declined) ==> |s.called| > 0 && f(s.called[|s.called| - 1]) == Reply(false, None))
      && (s.stop.Some? && s.stop.value.Failed? ==>
            |s.called| > 0 && f(s.called[|s.called| - 1]).err == Some(s.stop.value.error))
  {
    if items != [] {
      ScanRepliesBeforeStop(items[1..], keep, f);
    }
  }

  lemma {:induction false} ScanAllContinue<T>(items: seq<T>, keep: T -> bool, f: T -> Reply)
    requires forall x :: keep(x) ==> f(x) == Continue
    ensures ScanItems(items, keep, f) == Scan(Filter(keep, items), None)
  {
    if items != [] {
      ScanAllContinue(items[1..], keep, f);
    }
  }

  // ---------------------------------------------------------------------
  // The whole walk

  /**
   * The callback only ever sees listed items that pass the filter, in listing
   * order, and a walk that is not cut short sees all of them.
   */
  lemma {:induction false} WalkCalledIsFilteredPrefix<T>(src: Pages<T>, caller: string, keep: T -> bool, f: T -> Reply, page: nat)
    requires Forward(src) && page >= 1
    ensures var w := WalkFrom(src, caller, keep, f, page);
      var l := ListFrom(src, page);
      w.called <= Filter(keep, l.items)
      && (w.stop == Exhausted ==> w.called == Filter(keep, l.items) && l.error.None?)
    decreases |src| + 1 - page
  {
    match Fetch(src, page)
    case Failure(e) =>
    case Page(items, next) =>
      var s := ScanItems(items, keep, f);
      ScanCalledIsFilteredPrefix(items, keep, f);
      if next != 0 {
        var rest := ListFrom(src, next);
        FilterAppend(keep, items, rest.items);
        if s.stop.None? {
          WalkCalledIsFilteredPrefix(src, caller, keep, f, next);
          PrefixAppend(s.called, WalkFrom(src, caller, keep, f, next).called, Filter(keep, rest.items));
        } else {
          PrefixGrow(s.called, Filter(keep, items), Filter(keep, rest.items));
        }
      }
  }

  lemma PrefixAppend<T>(a: seq<T>, b: seq<T>, c: seq<T>)
    requires b <= c
    ensures a + b <= a + c
  {
    assert (a + c)[..|a + b|] == a + c[..|b|];
  }

  lemma PrefixGrow<T>(a: seq<T>, b: seq<T>, c: seq<T>)
    requires a <= b
    ensures a <= b + c
  {
    assert (b + c)[..|a|] == b[..|a|];
  }

  /**
   * Every invocation but the last asked to continue; a walk ended by the
   * callback declining ended on a (false, nil) reply, one ended by exhaustion
   * continued throughout and requested the whole page chain.
   */
  lemma {:induction false} WalkRepliesBeforeStop<T>(src: Pages<T>, caller: string, keep: T -> bool, f: T -> Reply, page: nat)
    requires Forward(src) && page >= 1
    ensures var w := WalkFrom(src, caller, keep, f, page);
      (forall i :: 0 <= i < |w.called| - 1 ==> f(w.called[i]) == Continue)
      && (w.stop == Declined ==> |w.called| > 0 && f(w.called[|w.called| - 1]) == Reply(false, None))
      && (w.stop == Exhausted ==>
            (forall i :: 0 <= i < |w.called| ==> f(w.called[i]) == Continue)
            && w.fetched == ChainFrom(src, page))
    decreases |src| + 1 - page
  {
    match Fetch(src, page)
    case Failure(e) =>
    case Page(items, next) =>
      var s := ScanItems(items, keep, f);
      ScanRepliesBeforeStop(items, keep, f);
      ScanCalledIsFilteredPrefix(items, keep, f);
      if s.stop.None? && next != 0 {
        WalkRepliesBeforeStop(src, caller, keep, f, next);
        var w := WalkFrom(src, caller, keep, f, page);
        var rest := WalkFrom(src, caller, keep, f, next);
        assert w.called == s.called + rest.called;
        forall i | 0 <= i < |w.called| - 1 ensures f(w.called[i]) == Continue {
          if i < |s.called| {
            assert w.called[i] == s.called[i];
          } else {
            assert w.called[i] == rest.called[i - |s.called|];
          }
        }
        if w.stop == Exhausted {
          forall i | 0 <= i < |w.called| ensures f(w.called[i]) == Continue {
            if i < |s.called| {
              assert w.called[i] == s.called[i];
            } else {
              assert w.called[i] == rest.called[i - |s.called|];
            }
          }
        }
      }
  }

  /**
   * With a callback that always continues, the walk visits exactly the
   * filtered listing, requests every page of the chain, and ends with the
   * first fetch error (wrapped) or with nil.
   */
  lemma {:induction false} WalkAllContinue<T>(src: Pages<T>, caller: string, keep: T -> bool, f: T -> Reply, page: nat)
    requires Forward(src) && page >= 1
    requires forall x :: keep(x) ==> f(x) == Continue
    ensures var w := WalkFrom(src, caller, keep, f, page);
      var l := ListFrom(src, page);
      w.called == Filter(keep, l.items)
      && w.fetched == ChainFrom(src, page)
      && w.stop == (if l.error.None? then Exhausted else Failed(Wrapped(caller, l.error.value)))
    decreases |src| + 1 - page
  {
    match Fetch(src, page)
    case Failure(e) =>
    case Page(items, next) =>
      ScanAllContinue(items, keep, f);
      if next != 0 {
        WalkAllContinue(src, caller, keep, f, next);
        FilterAppend(keep, items, ListFrom(src, next).items);
      }
  }

  /**
   * Pages are requested along the page chain, and a page is requested only
   * after every filtered item of the earlier pages was visited: once the
   * callback stops the walk, no further page is fetched.
   */
  lemma {:induction false} WalkStopsOnLastFetchedPage<T>(src: Pages<T>, caller: string, keep: T -> bool, f: T -> Reply, page: nat)
    requires Forward(src) && page >= 1
    ensures var w := WalkFrom(src, caller, keep, f, page);
      |w.fetched| >= 1
      && w.fetched <= ChainFrom(src, page)
      && Filter(keep, ItemsOn(src, w.fetched[..|w.fetched| - 1])) <= w.called
      && w.called <= Filter(keep, ItemsOn(src, w.fetched))
    decreases |src| + 1 - page
  {
    var w := WalkFrom(src, caller, keep, f, page);
    match Fetch(src, page)
    case Failure(e) =>
      assert w.fetched[..0] == [];
      assert ItemsOn(src, w.fetched) == [] + ItemsOn(src, []);
    case Page(items, next) =>
      var s := ScanItems(items, keep, f);
      ScanCalledIsFilteredPrefix(items, keep, f);
      assert ItemsOn(src, [page]) == items + ItemsOn(src, []);
      if s.stop.Some? || next == 0 {
        assert w.fetched[..0] == [];
        assert items + [] == items;
      } else {
        var rest := WalkFrom(src, caller, keep, f, next);
        WalkStopsOnLastFetchedPage(src, caller, keep, f, next);
        assert w == Walk(s.called + rest.called, [page] + rest.fetched, rest.stop);
        assert ChainFrom(src, page) == [page] + ChainFrom(src, next);
        PrefixAfter([page], rest.fetched, ChainFrom(src, next));
        var k := |rest.fetched|;
        var early := rest.fetched[..k - 1];
        assert w.fetched[..|w.fetched| - 1] == [page] + early;
        ItemsOnAppend(src, [page], early);
        ItemsOnAppend(src, [page], rest.fetched);
        FilterAppend(keep, items, ItemsOn(src, early));
        FilterAppend(keep, items, ItemsOn(src, rest.fetched));
        PrefixAfter(s.called, Filter(keep, ItemsOn(src, early)), rest.called);
        PrefixAfter(s.called, rest.called, Filter(keep, ItemsOn(src, rest.fetched)));
      }
  }

  lemma PrefixAfter<U>(c: seq<U>, a: seq<U>, b: seq<U>)
    requires a <= b
    ensures c + a <= c + b
  {
    assert (c + b)[..|c + a|] == c + b[..|a|];
  }

  // ---------------------------------------------------------------------
  // The loop itself

  /**
   * The page loop of ForEachProjectInGroup, ForEachApprovalRuleInProject and
   * ForEachUser: calls f on each item that passes `keep`; returns the
   * invocations in order and the iterator's error.
   */
  method ForEach<T>(src: Pages<T>, caller: string, keep: T -> bool, f: T -> Reply)
    returns (called: seq<T>, err: Option<string>, ghost fetched: seq<nat>)
    requires Forward(src)
    ensures var w := WalkFrom(src, caller, keep, f, 1);
      called == w.called && err == w.stop.ErrorOf()
    ensures fetched == WalkFrom(src, caller, keep, f, 1).fetched
  {
    ghost var whole := WalkFrom(src, caller, keep, f, 1);
    var page := 1;
    called, fetched := [], [];
    while true
      invariant page >= 1
      invariant var rest := WalkFrom(src, caller, keep, f, page);
        whole == Walk(called + rest.called, fetched + rest.fetched, rest.stop)
      decreases |src| + 1 - page
    {
      var resp := Fetch(src, page);
      ghost var rest := WalkFrom(src, caller, keep, f, page);
      ghost var calledBefore, fetchedBefore := called, fetched;
      fetched := fetched + [page];
      if resp.Failure? {
        assert rest == Walk([], [page], Failed(Wrapped(caller, resp.error)));
        assert called + [] == called;
        err := Some(Wrapped(caller, resp.error));
        return;
      }
      var onPage, stop := ScanPage(resp.items, keep, f);
      called := called + onPage;
      if stop.Some? {
        assert rest == Walk(onPage, [page], stop.value);
        assert called + [] == called;
        err := stop.value.ErrorOf();
        return;
      }
      if resp.nextPage == 0 {
        assert rest == Walk(onPage, [page], Exhausted);
        assert called + [] == called;
        break;
      }
      ghost var next := WalkFrom(src, caller, keep, f, resp.nextPage);
      assert rest == Walk(onPage + next.called, [page] + next.fetched, next.stop);
      assert calledBefore + (onPage + next.called) == called + next.called;
      assert fetchedBefore + ([page] + next.fetched) == fetched + next.fetched;
      page := resp.nextPage;
    }
    assert fetched + [] == fetched;
    err := None;
  }

  /** The inner `for _, p := range ps` loop: the invocations on one page and the stop, if any. */
  method ScanPage<T>(items: seq<T>, keep: T -> bool, f: T -> Reply)
    returns (called: seq<T>, stop: Option<Stop>)
    ensures Scan(called, stop) == ScanItems(items, keep, f)
  {
    called := [];
    var i := 0;
    while i < |items|
      invariant 0 <= i <= |items|
      invariant var tail := ScanItems(items[i..], keep, f);
        ScanItems(items, keep, f) == Scan(called + tail.called, tail.stop)
    {
      var p := items[i];
      assert items[i..][1..] == items[i + 1..];
      if keep(p) {
        var r := f(p);
        called := called + [p];
        if r.err.Some? {
          return called, Some(Failed(r.err.value));
        }
        if !r.more {
          return called, Some(Declined);
        }
      }
      i := i + 1;
    }
    stop := None;
  }
}
