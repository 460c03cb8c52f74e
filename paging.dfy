/**
 * The pagination loop the scripts repeat four times (`retrieveVpcSubnets`, `getVmsByCategories`,
 * `retrieveVPCSubnet`, `listVPC`):
 *
 *   nbPages := 10000; page := 0
 *   while page < nbPages:
 *     response := list(page, limit = 50)
 *     nbPages := ceil(response.total_available_results / 50)
 *     for item in response.data: append what `item` contributes
 *     page := page + 1
 *
 * The server is an oracle from page index to response. The copies differ only in what one item
 * contributes (`f`) and in whether a page whose `data` is `None` is skipped (`nullIsEmpty`) or
 * makes the `for` statement raise.
 */
module Paging {
  import opened Prism

  datatype Page<T> = Page(total: nat, data: Option<seq<T>>)

  /** The `_limit` of every paged request. */
  const PageLimit: nat := 50
  /** The initial `nbPages`, which only has to let the first request happen. */
  const SentinelPages: nat := 10000

  /** Integer ceiling of `n / d`, standing for `math.ceil(n / d)`; 0 when `n <= 0`. */
  function CeilDiv(n: int, d: int): (q: nat)
    requires d > 0
    ensures n > 0 ==> (q - 1) * d < n <= q * d
    ensures n <= 0 ==> q == 0
    decreases n
  {
    if n <= 0 then 0 else 1 + CeilDiv(n - d, d)
  }

  /** The `nbPages` a response reporting `total` results sets. */
  function PageCount(total: nat): nat
  {
    CeilDiv(total, PageLimit)
  }

  function Max(a: nat, b: nat): nat
  {
    if a < b then b else a
  }

  function Min(a: nat, b: nat): nat
  {
    if a < b then a else b
  }

  /** `lo, lo + 1, ..., hi - 1`. */
  function Range(lo: nat, hi: nat): (r: seq<nat>)
    requires lo <= hi
    ensures |r| == hi - lo && forall k :: 0 <= k < |r| ==> r[k] == lo + k
    decreases hi - lo
  {
    if lo == hi then [] else [lo] + Range(lo + 1, hi)
  }

  function FlatMap<T, R>(f: T -> seq<R>, xs: seq<T>): seq<R>
  {
    if xs == [] then [] else f(xs[0]) + FlatMap(f, xs[1..])
  }

  lemma {:induction false} FlatMapAppend<T, R>(f: T -> seq<R>, xs: seq<T>, ys: seq<T>)
    ensures FlatMap(f, xs + ys) == FlatMap(f, xs) + FlatMap(f, ys)
  {
    if xs == [] {
      assert xs + ys == ys;
    } else {
      assert (xs + ys)[0] == xs[0];
      assert (xs + ys)[1..] == xs[1..] + ys;
      FlatMapAppend(f, xs[1..], ys);
      calc {
        FlatMap(f, xs + ys);
        f(xs[0]) + FlatMap(f, xs[1..] + ys);
        f(xs[0]) + (FlatMap(f, xs[1..]) + FlatMap(f, ys));
        (f(xs[0]) + FlatMap(f, xs[1..])) + FlatMap(f, ys);
      }
    }
  }

  /** What one page adds to the result: `Raised` when iterating a `None` data field. */
  function PageYield<T, R>(data: Option<seq<T>>, f: T -> seq<R>, nullIsEmpty: bool): Outcome<seq<R>>
  {
    match data
    case None => if nullIsEmpty then Ok([]) else Raised
    case Some(xs) => Ok(FlatMap(f, xs))
  }

  /** Every total the server can report is at most `bound`. */
  ghost predicate Bounded<T>(server: nat -> Page<T>, bound: nat)
  {
    forall p: nat :: server(p).total <= bound
  }

  /** No `nbPages` of a bounded server's run exceeds this. */
  function Horizon(bound: nat): nat
  {
    SentinelPages + bound
  }

  /** What a run returns: the collected list (or the exception) and the pages it requested. */
  datatype Listing<R> = Listing(items: Outcome<seq<R>>, calls: seq<nat>)

  /** The loop from the state `page`, `nbPages` on. */
  ghost function Run<T, R>(server: nat -> Page<T>, f: T -> seq<R>, nullIsEmpty: bool, bound: nat,
                           page: nat, nbPages: nat): Listing<R>
    requires Bounded(server, bound) && nbPages <= Horizon(bound)
    decreases Horizon(bound) - page
  {
    if page >= nbPages then Listing(Ok([]), [])
    else
      var response := server(page);
      match PageYield(response.data, f, nullIsEmpty)
      case Raised => Listing(Raised, [page])
      case Ok(ys) =>
        var rest := Run(server, f, nullIsEmpty, bound, page + 1, PageCount(response.total));
        Listing(if rest.items.Ok? then Ok(ys + rest.items.value) else Raised, [page] + rest.calls)
  }

  /** The whole loop: page 0 with the sentinel page count. */
  ghost function Listed<T, R>(server: nat -> Page<T>, f: T -> seq<R>, nullIsEmpty: bool, bound: nat): Listing<R>
    requires Bounded(server, bound)
  {
    Run(server, f, nullIsEmpty, bound, 0, SentinelPages)
  }

  /** `done` collected and requested before the rest of the run `rest`. */
  function After<R>(items: seq<R>, calls: seq<nat>, rest: Listing<R>): Listing<R>
  {
    Listing(if rest.items.Ok? then Ok(items + rest.items.value) else Raised, calls + rest.calls)
  }

  lemma AfterNothing<R>(rest: Listing<R>)
    ensures After([], [], rest) == rest
  {
    assert [] + rest.calls == rest.calls;
    if rest.items.Ok? {
      assert [] + rest.items.value == rest.items.value;
    }
  }

  /** One request of the loop, seen from the state before it. */
  lemma AfterStep<T, R>(items: seq<R>, calls: seq<nat>, server: nat -> Page<T>, f: T -> seq<R>,
                        nullIsEmpty: bool, bound: nat, page: nat, nbPages: nat)
    requires Bounded(server, bound) && nbPages <= Horizon(bound) && page < nbPages
    ensures PageCount(server(page).total) <= Horizon(bound)
    ensures var y := PageYield(server(page).data, f, nullIsEmpty);
      After(items, calls, Run(server, f, nullIsEmpty, bound, page, nbPages))
      == if y.Raised? then Listing(Raised, calls + [page])
         else After(items + y.value, calls + [page],
                    Run(server, f, nullIsEmpty, bound, page + 1, PageCount(server(page).total)))
  {
    var y := PageYield(server(page).data, f, nullIsEmpty);
    if y.Ok? {
      var rest := Run(server, f, nullIsEmpty, bound, page + 1, PageCount(server(page).total));
      assert calls + ([page] + rest.calls) == calls + [page] + rest.calls;
      if rest.items.Ok? {
        assert items + (y.value + rest.items.value) == items + y.value + rest.items.value;
      }
    }
  }

  /** The inner `for item in data` statement. */
  method AppendAll<T, R>(collected: seq<R>, f: T -> seq<R>, data: seq<T>) returns (r: seq<R>)
    ensures r == collected + FlatMap(f, data)
  {
    r := collected;
    for i := 0 to |data|
      invariant r == collected + FlatMap(f, data[..i])
    {
      assert data[..i + 1] == data[..i] + [data[i]];
      FlatMapAppend(f, data[..i], [data[i]]);
      assert FlatMap(f, [data[i]]) == f(data[i]) + FlatMap(f, []);
      r := r + f(data[i]);
    }
    assert data[..|data|] == data;
  }

  /**
   * The loop itself. It requests pages 0, 1, ... until `page` reaches the page count of the
   * latest response, and stops with `Raised` when an unguarded page has no data.
   */
  method ListAll<T, R>(server: nat -> Page<T>, f: T -> seq<R>, nullIsEmpty: bool, ghost bound: nat)
    returns (items: Outcome<seq<R>>, calls: seq<nat>)
    requires Bounded(server, bound)
    ensures Listing(items, calls) == Listed(server, f, nullIsEmpty, bound)
  {
    var collected: seq<R> := [];
    calls := [];
    var nbPages: nat := SentinelPages;
    var page: nat := 0;
    AfterNothing(Listed(server, f, nullIsEmpty, bound));
    while page < nbPages
      invariant nbPages <= Horizon(bound)
      invariant Listed(server, f, nullIsEmpty, bound)
             == After(collected, calls, Run(server, f, nullIsEmpty, bound, page, nbPages))
      decreases Horizon(bound) - page
    {
      var response := server(page);
      AfterStep(collected, calls, server, f, nullIsEmpty, bound, page, nbPages);
      calls := calls + [page];
      nbPages := PageCount(response.total);
      if response.data.None? {
        if !nullIsEmpty {
          return Raised, calls;
        }
        assert collected + [] == collected;
      } else {
        collected := AppendAll(collected, f, response.data.value);
      }
      page := page + 1;
    }
    assert collected + [] == collected && calls + [] == calls;
    items := Ok(collected);
  }

  /** The items pages `lo` to `hi - 1` contribute, a page without data contributing none. */
  ghost function Gathered<T, R>(server: nat -> Page<T>, f: T -> seq<R>, lo: nat, hi: nat): seq<R>
    decreases hi - lo
  {
    if lo >= hi then []
    else (if server(lo).data.Some? then FlatMap(f, server(lo).data.value) else [])
         + Gathered(server, f, lo + 1, hi)
  }

  /**
   * What any bounded server makes the loop do from `page` on: it requests consecutive pages;
   * it goes on past a page exactly when that page did not raise and the page count the page
   * reported is beyond it; it raises exactly when its last page raised; otherwise it stops at
   * the page count its last page reported; and what it returns is what the requested pages
   * contributed, in page order.
   */
  lemma {:induction false} RunShape<T, R>(server: nat -> Page<T>, f: T -> seq<R>, nullIsEmpty: bool,
                                          bound: nat, page: nat, nbPages: nat)
    requires Bounded(server, bound) && nbPages <= Horizon(bound)
    ensures var l := Run(server, f, nullIsEmpty, bound, page, nbPages);
      && (|l.calls| == 0 <==> page >= nbPages)
      && (forall k :: 0 <= k < |l.calls| ==> l.calls[k] == page + k)
      && (forall q: nat :: page <= q < page + |l.calls| - 1 ==>
            PageYield(server(q).data, f, nullIsEmpty).Ok? && q + 1 < PageCount(server(q).total))
      && (|l.calls| > 0 ==>
            (l.items.Raised? <==> PageYield(server(page + |l.calls| - 1).data, f, nullIsEmpty).Raised?))
      && (|l.calls| > 0 && l.items.Ok? ==>
            PageCount(server(page + |l.calls| - 1).total) <= page + |l.calls|)
      && (l.items.Ok? ==> l.items.value == Gathered(server, f, page, page + |l.calls|))
  {
    RunCalls(server, f, nullIsEmpty, bound, page, nbPages);
    RunPages(server, f, nullIsEmpty, bound, page, nbPages);
    RunItems(server, f, nullIsEmpty, bound, page, nbPages);
  }

  /** A run from `page` requests `page`, `page + 1`, ..., and none exactly when `page >= nbPages`. */
  lemma {:induction false} RunCalls<T, R>(server: nat -> Page<T>, f: T -> seq<R>, nullIsEmpty: bool,
                                          bound: nat, page: nat, nbPages: nat)
    requires Bounded(server, bound) && nbPages <= Horizon(bound)
    ensures var l := Run(server, f, nullIsEmpty, bound, page, nbPages);
      && (|l.calls| == 0 <==> page >= nbPages)
      && (forall k :: 0 <= k < |l.calls| ==> l.calls[k] == page + k)
    decreases Horizon(bound) - page
  {
    var l := Run(server, f, nullIsEmpty, bound, page, nbPages);
    if page < nbPages {
      var response := server(page);
      if PageYield(response.data, f, nullIsEmpty).Ok? {
        var rest := Run(server, f, nullIsEmpty, bound, page + 1, PageCount(response.total));
        RunCalls(server, f, nullIsEmpty, bound, page + 1, PageCount(response.total));
        assert l.calls == [page] + rest.calls;
        assert forall k :: 0 < k < |l.calls| ==> l.calls[k] == rest.calls[k - 1];
      }
    }
  }

  /** Why a run from `page` went on past each page it requested but the last, and why it stopped there. */
  lemma RunPages<T, R>(server: nat -> Page<T>, f: T -> seq<R>, nullIsEmpty: bool,
                       bound: nat, page: nat, nbPages: nat)
    requires Bounded(server, bound) && nbPages <= Horizon(bound)
    ensures var l := Run(server, f, nullIsEmpty, bound, page, nbPages);
      && (forall q: nat :: page <= q < page + |l.calls| - 1 ==>
            PageYield(server(q).data, f, nullIsEmpty).Ok? && q + 1 < PageCount(server(q).total))
      && (|l.calls| > 0 ==>
            (l.items.Raised? <==> PageYield(server(page + |l.calls| - 1).data, f, nullIsEmpty).Raised?))
      && (|l.calls| > 0 && l.items.Ok? ==>
            PageCount(server(page + |l.calls| - 1).total) <= page + |l.calls|)
  {
    RunContinues(server, f, nullIsEmpty, bound, page, nbPages);
    RunStops(server, f, nullIsEmpty, bound, page, nbPages);
  }

  /** A run goes on past a page only when that page did not raise and reported more pages. */
  lemma {:induction false} RunContinues<T, R>(server: nat -> Page<T>, f: T -> seq<R>, nullIsEmpty: bool,
                                              bound: nat, page: nat, nbPages: nat)
    requires Bounded(server, bound) && nbPages <= Horizon(bound)
    ensures var l := Run(server, f, nullIsEmpty, bound, page, nbPages);
      forall q: nat :: page <= q < page + |l.calls| - 1 ==>
        PageYield(server(q).data, f, nullIsEmpty).Ok? && q + 1 < PageCount(server(q).total)
    decreases Horizon(bound) - page
  {
    var l := Run(server, f, nullIsEmpty, bound, page, nbPages);
    if page < nbPages {
      var response := server(page);
      if PageYield(response.data, f, nullIsEmpty).Ok? {
        var next := PageCount(response.total);
        var rest := Run(server, f, nullIsEmpty, bound, page + 1, next);
        RunCalls(server, f, nullIsEmpty, bound, page + 1, next);
        RunContinues(server, f, nullIsEmpty, bound, page + 1, next);
        assert |l.calls| == 1 + |rest.calls|;
      }
    }
  }

  /** A run stops at a page that raised, or at one past which no page was reported. */
  lemma {:induction false} RunStops<T, R>(server: nat -> Page<T>, f: T -> seq<R>, nullIsEmpty: bool,
                                          bound: nat, page: nat, nbPages: nat)
    requires Bounded(server, bound) && nbPages <= Horizon(bound)
    ensures var l := Run(server, f, nullIsEmpty, bound, page, nbPages);
      && (|l.calls| > 0 ==>
            (l.items.Raised? <==> PageYield(server(page + |l.calls| - 1).data, f, nullIsEmpty).Raised?))
      && (|l.calls| > 0 && l.items.Ok? ==>
            PageCount(server(page + |l.calls| - 1).total) <= page + |l.calls|)
    decreases Horizon(bound) - page
  {
    var l := Run(server, f, nullIsEmpty, bound, page, nbPages);
    if page < nbPages {
      var response := server(page);
      if PageYield(response.data, f, nullIsEmpty).Ok? {
        var next := PageCount(response.total);
        var rest := Run(server, f, nullIsEmpty, bound, page + 1, next);
        RunCalls(server, f, nullIsEmpty, bound, page + 1, next);
        RunStops(server, f, nullIsEmpty, bound, page + 1, next);
        assert |l.calls| == 1 + |rest.calls|;
        assert l.items.Ok? <==> rest.items.Ok?;
        if |rest.calls| > 0 {
          assert page + |l.calls| - 1 == (page + 1) + |rest.calls| - 1;
        }
      }
    }
  }

  /** What a run from `page` returns, when it does not raise, is what its pages contributed in order. */
  lemma {:induction false} RunItems<T, R>(server: nat -> Page<T>, f: T -> seq<R>, nullIsEmpty: bool,
                                          bound: nat, page: nat, nbPages: nat)
    requires Bounded(server, bound) && nbPages <= Horizon(bound)
    ensures var l := Run(server, f, nullIsEmpty, bound, page, nbPages);
      l.items.Ok? ==> l.items.value == Gathered(server, f, page, page + |l.calls|)
    decreases Horizon(bound) - page
  {
    var l := Run(server, f, nullIsEmpty, bound, page, nbPages);
    if page < nbPages {
      var response := server(page);
      var y := PageYield(response.data, f, nullIsEmpty);
      if y.Ok? {
        var next := PageCount(response.total);
        var rest := Run(server, f, nullIsEmpty, bound, page + 1, next);
        RunItems(server, f, nullIsEmpty, bound, page + 1, next);
        assert |l.calls| == 1 + |rest.calls|;
        if l.items.Ok? {
          assert y.value == (if response.data.Some? then FlatMap(f, response.data.value) else []);
          assert l.items.value == y.value + rest.items.value;
        }
      }
    }
  }

  /** `RunShape` for the whole loop: it always requests page 0 first and goes on consecutively. */
  lemma ListingShape<T, R>(server: nat -> Page<T>, f: T -> seq<R>, nullIsEmpty: bool, bound: nat)
    requires Bounded(server, bound)
    ensures var l := Listed(server, f, nullIsEmpty, bound);
      && |l.calls| >= 1
      && l.calls == Range(0, |l.calls|)
      && (forall q: nat :: q < |l.calls| - 1 ==>
            PageYield(server(q).data, f, nullIsEmpty).Ok? && q + 1 < PageCount(server(q).total))
      && (l.items.Raised? <==> PageYield(server(|l.calls| - 1).data, f, nullIsEmpty).Raised?)
      && (l.items.Ok? ==>
            PageCount(server(|l.calls| - 1).total) <= |l.calls|
            && l.items.value == Gathered(server, f, 0, |l.calls|))
  {
    RunShape(server, f, nullIsEmpty, bound, 0, SentinelPages);
  }

  /** With the `None` guard of `clean_vpc.py`, a page without data is skipped and the loop never raises. */
  lemma {:induction false} GuardedRunNeverRaises<T, R>(server: nat -> Page<T>, f: T -> seq<R>,
                                                       bound: nat, page: nat, nbPages: nat)
    requires Bounded(server, bound) && nbPages <= Horizon(bound)
    ensures Run(server, f, true, bound, page, nbPages).items.Ok?
    decreases Horizon(bound) - page
  {
    if page < nbPages {
      GuardedRunNeverRaises(server, f, bound, page + 1, PageCount(server(page).total));
    }
  }

  /** Page `p` of a list of `xs` served 50 at a time. */
  function Window<T>(xs: seq<T>, p: nat): seq<T>
  {
    xs[Min(p * PageLimit, |xs|)..Min(p * PageLimit + PageLimit, |xs|)]
  }

  /** A server holding the fixed list `xs`: every page reports `|xs|` and serves its window. */
  ghost predicate Consistent<T>(server: nat -> Page<T>, xs: seq<T>)
  {
    forall p: nat :: server(p) == Page(|xs|, Some(Window(xs, p)))
  }

  lemma {:induction false} ConsistentRun<T, R>(server: nat -> Page<T>, f: T -> seq<R>, nullIsEmpty: bool,
                                               bound: nat, xs: seq<T>, page: nat)
    requires Consistent(server, xs) && |xs| <= bound && page <= PageCount(|xs|)
    ensures Run(server, f, nullIsEmpty, bound, page, PageCount(|xs|))
         == Listing(Ok(FlatMap(f, xs[Min(page * PageLimit, |xs|)..])), Range(page, PageCount(|xs|)))
    decreases PageCount(|xs|) - page
  {
    var n := PageCount(|xs|);
    if page == n {
      assert Min(page * PageLimit, |xs|) == |xs|;
      assert xs[|xs|..] == [];
    } else {
      var lo := page * PageLimit;
      assert lo < |xs|;
      var mid := Min(lo + PageLimit, |xs|);
      assert server(page) == Page(|xs|, Some(Window(xs, page)));
      ConsistentRun(server, f, nullIsEmpty, bound, xs, page + 1);
      assert Min((page + 1) * PageLimit, |xs|) == mid;
      assert xs[lo..] == xs[lo..mid] + xs[mid..];
      FlatMapAppend(f, xs[lo..mid], xs[mid..]);
    }
  }

  /**
   * For a server holding `R = |xs|` items, the loop returns what the items contribute, in
   * server order, after requesting pages 0, 1, ..., max(1, ceil(R / 50)) - 1.
   */
  lemma ConsistentListing<T, R>(server: nat -> Page<T>, f: T -> seq<R>, nullIsEmpty: bool, bound: nat, xs: seq<T>)
    requires Consistent(server, xs) && |xs| <= bound
    ensures Listed(server, f, nullIsEmpty, bound)
         == Listing(Ok(FlatMap(f, xs)), Range(0, Max(1, PageCount(|xs|))))
  {
    var n := PageCount(|xs|);
    assert server(0) == Page(|xs|, Some(Window(xs, 0)));
    var first := xs[..Min(PageLimit, |xs|)];
    assert Window(xs, 0) == first;
    var rest := Run(server, f, nullIsEmpty, bound, 1, n);
    if n == 0 {
      assert xs == [] && first == [];
      assert rest == Listing(Ok([]), []);
      assert Range(0, 1) == [0];
    } else {
      ConsistentRun(server, f, nullIsEmpty, bound, xs, 1);
      assert xs == first + xs[Min(PageLimit, |xs|)..];
      FlatMapAppend(f, first, xs[Min(PageLimit, |xs|)..]);
      assert Range(0, n) == [0] + Range(1, n);
    }
  }

  /** A server with nothing to list is asked for page 0 once and yields the empty list. */
  lemma EmptyListingSingleCall<T, R>(server: nat -> Page<T>, f: T -> seq<R>, nullIsEmpty: bool, bound: nat)
    requires Consistent(server, [])
    ensures Listed(server, f, nullIsEmpty, bound) == Listing(Ok([]), [0])
  {
    ConsistentListing(server, f, nullIsEmpty, bound, []);
    assert Range(0, 1) == [0];
  }

  /** The `{name, ext_id}` record one listed item contributes. */
  function AsRefs(item: Item): seq<Ref>
  {
    [ToRef(item)]
  }

  /** The records of `xs`, element by element. */
  function Refs(xs: seq<Item>): (r: seq<Ref>)
    ensures |r| == |xs| && forall i :: 0 <= i < |xs| ==> r[i] == Ref(xs[i].name, xs[i].extId)
  {
    seq(|xs|, i requires 0 <= i < |xs| => ToRef(xs[i]))
  }

  /** Collecting `AsRefs` copies the name and id of every item, one record per item, in order. */
  lemma {:induction false} RefsPointwise(xs: seq<Item>)
    ensures FlatMap(AsRefs, xs) == Refs(xs)
  {
    if xs != [] {
      RefsPointwise(xs[1..]);
      assert Refs(xs) == [ToRef(xs[0])] + Refs(xs[1..]);
    }
  }

  /** The trace of the `list_subnets(_filter="vpcReference eq ...")` requests for the pages `calls`. */
  function SubnetPageOps(vpcId: Id, calls: seq<nat>): (ops: seq<Op>)
    ensures |ops| == |calls| && forall i :: 0 <= i < |calls| ==> ops[i] == ListVpcSubnets(vpcId, calls[i])
  {
    seq(|calls|, i requires 0 <= i < |calls| => ListVpcSubnets(vpcId, calls[i]))
  }
}
