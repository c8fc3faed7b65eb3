/**
 * `fetch_page` and `fetch_all_data`: the store's feed is read page by page, each product
 * that passes the filter becomes a parsed row and a raw row, and reading stops at the
 * first page that failed, came back empty, or was not full.
 *
 * The feed is given as the answers the store would give: entry `k - 1` answers the request
 * for page `k`, `None` stands for a request that raised (timeout, connection error, HTTP
 * error status, a body that is not JSON), and every page past the end of the sequence is empty.
 */
module Paginator {
  import opened Wrappers
  import opened Catalog
  import opened Filter
  import opened Mapper

  type Feed = seq<Option<seq<Product>>>

  /** What `fetch_page` returns when the request succeeds. */
  datatype FetchResult = FetchResult(items: seq<Product>, totalPages: nat)

  /** The store's answer to the request for page `page`. */
  function PageAt(feed: Feed, page: nat): Option<seq<Product>>
    requires page >= 1
  {
    if page - 1 < |feed| then feed[page - 1] else Some([])
  }

  /**
   * `fetch_page(url, page)`: `None` when the request raised; otherwise the page's products and
   * the page count the caller should assume, one more than this page exactly when it was full.
   */
  function FetchPage(feed: Feed, page: nat): (r: Option<FetchResult>)
    requires page >= 1
    ensures r.None? <==> PageAt(feed, page).None?
    ensures r.Some? ==> r.value.items == PageAt(feed, page).value
    ensures r.Some? ==> (r.value.totalPages > page <==> |r.value.items| >= PAGE_LIMIT)
    ensures r.Some? ==> page <= r.value.totalPages <= page + 1
  {
    match PageAt(feed, page)
    case None => None
    case Some(items) =>
      var totalPages := if |items| < PAGE_LIMIT then page else page + 1;
      Some(FetchResult(items, totalPages))
  }

  /** Whether the loop goes on to the next page after reading page `page`. */
  predicate Continues(feed: Feed, page: nat)
    requires page >= 1
  {
    var data := FetchPage(feed, page);
    data.Some? && data.value.items != [] && page < data.value.totalPages
  }

  /** A page that the store answered with at least `PAGE_LIMIT` products. */
  predicate IsFull(answer: Option<seq<Product>>) {
    answer.Some? && |answer.value| >= PAGE_LIMIT
  }

  /** The loop goes on after a page exactly when that page was full. */
  lemma ContinuesIffFull(feed: Feed, page: nat)
    requires page >= 1
    ensures Continues(feed, page) <==> IsFull(PageAt(feed, page))
  {
  }

  /** The last page the loop requests when it starts at `page`. */
  function LastPage(feed: Feed, page: nat): (r: nat)
    requires 1 <= page <= |feed| + 1
    ensures page <= r <= |feed| + 1
    ensures !Continues(feed, r)
    decreases |feed| + 1 - page
  {
    if Continues(feed, page) then LastPage(feed, page + 1) else page
  }

  /** The loop goes on after every page before the last one. */
  lemma {:induction false} ContinuesBeforeLastPage(feed: Feed, page: nat, p: nat)
    requires 1 <= page <= |feed| + 1 && page <= p < LastPage(feed, page)
    ensures Continues(feed, p)
    decreases |feed| + 1 - page
  {
    if p > page {
      ContinuesBeforeLastPage(feed, page + 1, p);
    }
  }

  /** The products of the pages the loop reads from `page` on, in order. */
  function Consumed(feed: Feed, page: nat): seq<Product>
    requires 1 <= page <= |feed| + 1
    decreases |feed| + 1 - page
  {
    var items := if PageAt(feed, page).Some? then PageAt(feed, page).value else [];
    if Continues(feed, page) then items + Consumed(feed, page + 1) else items
  }

  /** `f` applied to every element of `xs`, in order. */
  function MapAll<A, B>(f: A -> B, xs: seq<A>): (r: seq<B>)
    ensures |r| == |xs|
  {
    if xs == [] then [] else MapAll(f, xs[..|xs| - 1]) + [f(xs[|xs| - 1])]
  }

  lemma {:induction false} MapAllAt<A, B>(f: A -> B, xs: seq<A>, i: int)
    requires 0 <= i < |xs|
    ensures MapAll(f, xs)[i] == f(xs[i])
    decreases |xs|
  {
    if i < |xs| - 1 {
      MapAllAt(f, xs[..|xs| - 1], i);
    }
  }

  lemma MapAllSnoc<A, B>(f: A -> B, xs: seq<A>, x: A)
    ensures MapAll(f, xs + [x]) == MapAll(f, xs) + [f(x)]
  {
    assert (xs + [x])[..|xs + [x]| - 1] == xs;
  }

  lemma {:induction false} MapAllAppend<A, B>(f: A -> B, a: seq<A>, b: seq<A>)
    ensures MapAll(f, a + b) == MapAll(f, a) + MapAll(f, b)
    decreases |b|
  {
    if b == [] {
      assert a + b == a;
    } else {
      MapAllAppend(f, a, b[..|b| - 1]);
      assert (a + b)[..|a + b| - 1] == a + b[..|b| - 1];
    }
  }

  /** `map_product_to_parsed_row` with the run's configuration and extraction date fixed. */
  function RowOf(cfg: Config, extractionDate: string): Product -> ParsedRow {
    p => MapProduct(cfg, p, extractionDate)
  }

  /** The raw-row builder with the run's configuration and extraction date fixed. */
  function RawOf(cfg: Config, extractionDate: string): Product -> RawRow {
    p => MakeRawRow(cfg, p, extractionDate)
  }

  /** After a page the loop goes on from, the rest of the run is the run from the next page. */
  lemma NextPage(feed: Feed, page: nat)
    requires 1 <= page <= |feed| + 1 && Continues(feed, page)
    ensures page + 1 <= |feed| + 1
    ensures LastPage(feed, page) == LastPage(feed, page + 1)
    ensures Consumed(feed, page) == PageAt(feed, page).value + Consumed(feed, page + 1)
  {
  }

  /** At a page the loop stops at, the run ends with that page's products, if any. */
  lemma StopPage(feed: Feed, page: nat)
    requires 1 <= page <= |feed| + 1 && !Continues(feed, page)
    ensures LastPage(feed, page) == page
    ensures Consumed(feed, page) == if PageAt(feed, page).Some? then PageAt(feed, page).value else []
  {
  }

  /** The products of a page answer; a failed request has none. */
  function ItemsOf(answer: Option<seq<Product>>): seq<Product> {
    if answer.Some? then answer.value else []
  }

  /** The products of a run of page answers, in order. */
  function Flatten(answers: Feed): seq<Product> {
    if answers == [] then [] else ItemsOf(answers[0]) + Flatten(answers[1..])
  }

  /**
   * Where a run from `page` stops and what it reads: when every page from `page` up to `k`
   * is full and page `k` is not, the loop requests exactly the pages `page..k` and reads
   * their products, page `k`'s included when it has any.
   */
  lemma {:induction false} RunUpTo(feed: Feed, page: nat, k: nat)
    requires 1 <= page <= k <= |feed| + 1
    requires forall p :: page <= p < k ==> IsFull(PageAt(feed, p))
    requires !IsFull(PageAt(feed, k))
    ensures LastPage(feed, page) == k
    ensures Consumed(feed, page) == Flatten(feed[page - 1..k - 1]) + ItemsOf(PageAt(feed, k))
    decreases k - page
  {
    if page == k {
      RunEndsAt(feed, k);
    } else {
      RunUpTo(feed, page + 1, k);
      RunExtends(feed, page, k);
    }
  }

  /** A run that starts at a page that is not full reads that page alone. */
  lemma RunEndsAt(feed: Feed, k: nat)
    requires 1 <= k <= |feed| + 1 && !IsFull(PageAt(feed, k))
    ensures LastPage(feed, k) == k
    ensures Consumed(feed, k) == Flatten(feed[k - 1..k - 1]) + ItemsOf(PageAt(feed, k))
  {
    ContinuesIffFull(feed, k);
    StopPage(feed, k);
    assert feed[k - 1..k - 1] == [];
  }

  /** A full page in front of a run from the next page adds one request and that page's products. */
  lemma RunExtends(feed: Feed, page: nat, k: nat)
    requires 1 <= page < k <= |feed| + 1 && IsFull(PageAt(feed, page))
    requires LastPage(feed, page + 1) == k
    requires Consumed(feed, page + 1) == Flatten(feed[page..k - 1]) + ItemsOf(PageAt(feed, k))
    ensures LastPage(feed, page) == k
    ensures Consumed(feed, page) == Flatten(feed[page - 1..k - 1]) + ItemsOf(PageAt(feed, k))
  {
    ContinuesIffFull(feed, page);
    NextPage(feed, page);
    FlattenFront(feed, page - 1, k - 1);
    assert ItemsOf(feed[page - 1]) == PageAt(feed, page).value;
    ConcatAssoc(PageAt(feed, page).value, Flatten(feed[page..k - 1]), ItemsOf(PageAt(feed, k)));
  }

  lemma ConcatAssoc(a: seq<Product>, b: seq<Product>, c: seq<Product>)
    ensures a + (b + c) == (a + b) + c
  {
  }

  /** A run of answers flattens to its first answer's products followed by the rest's. */
  lemma FlattenFront(feed: Feed, a: nat, b: nat)
    requires a < b <= |feed|
    ensures Flatten(feed[a..b]) == ItemsOf(feed[a]) + Flatten(feed[a + 1..b])
  {
    var run := feed[a..b];
    assert run[0] == feed[a] && run[1..] == feed[a + 1..b];
  }

  /**
   * The loop stops at the first page that is not full: every page it requests before the
   * last one was full, and the last one failed, was empty or was short.
   */
  lemma StopsAtFirstShortPage(feed: Feed)
    ensures !IsFull(PageAt(feed, LastPage(feed, 1)))
    ensures forall p :: 1 <= p < LastPage(feed, 1) ==> IsFull(PageAt(feed, p))
  {
    ContinuesIffFull(feed, LastPage(feed, 1));
    forall p | 1 <= p < LastPage(feed, 1)
      ensures IsFull(PageAt(feed, p))
    {
      ContinuesBeforeLastPage(feed, 1, p);
      ContinuesIffFull(feed, p);
    }
  }

  /**
   * A request that fails after full pages ends the run: the pages before it are read, the
   * failed page is the last one requested, and nothing after it is.
   */
  lemma FailedPageKeepsEarlierRows(feed: Feed, k: nat)
    requires 1 <= k <= |feed| && feed[k - 1].None?
    requires forall p :: 1 <= p < k ==> IsFull(PageAt(feed, p))
    ensures LastPage(feed, 1) == k
    ensures Consumed(feed, 1) == Flatten(feed[..k - 1])
  {
    RunUpTo(feed, 1, k);
    assert Flatten(feed[..k - 1]) + [] == Flatten(feed[..k - 1]);
  }

  /**
   * A full page followed by a short one takes two requests, whatever the store would have
   * answered for later pages, and reads the products of both.
   */
  lemma FullThenShortPage(a: seq<Product>, b: seq<Product>, later: Feed)
    requires |a| >= PAGE_LIMIT && |b| < PAGE_LIMIT
    ensures LastPage([Some(a), Some(b)] + later, 1) == 2
    ensures Consumed([Some(a), Some(b)] + later, 1) == a + b
  {
    var feed := [Some(a), Some(b)] + later;
    RunUpTo(feed, 1, 2);
    assert feed[0..1] == [Some(a)];
    assert Flatten([Some(a)]) == a;
  }

  /**
   * The loop's state before it requests page `page`: `done` holds the products of the pages
   * already read, and the pages still to read end where the whole run ends.
   */
  ghost predicate Progress(feed: Feed, page: nat, done: seq<Product>) {
    && 1 <= page <= |feed| + 1
    && LastPage(feed, page) == LastPage(feed, 1)
    && Consumed(feed, 1) == done + Consumed(feed, page)
  }

  /** The loop starts at page 1 with nothing read. */
  lemma StartRun(feed: Feed)
    ensures Progress(feed, 1, [])
  {
    assert [] + Consumed(feed, 1) == Consumed(feed, 1);
  }

  /** The loop's bookkeeping when it moves on from page `page` to the next one. */
  lemma AdvanceRun(feed: Feed, page: nat, done: seq<Product>)
    requires Progress(feed, page, done) && Continues(feed, page)
    ensures Progress(feed, page + 1, done + PageAt(feed, page).value)
  {
    NextPage(feed, page);
  }

  /** The loop's bookkeeping when it stops at page `page`. */
  lemma FinishRun(feed: Feed, page: nat, done: seq<Product>)
    requires Progress(feed, page, done) && !Continues(feed, page)
    ensures LastPage(feed, 1) == page
    ensures Consumed(feed, 1) == done + ItemsOf(PageAt(feed, page))
  {
    StopPage(feed, page);
  }

  /** The page numbers `1, 2, ..., n`. */
  function FirstPages(n: nat): (r: seq<nat>)
    ensures |r| == n
  {
    if n == 0 then [] else FirstPages(n - 1) + [n]
  }

  /** The `i`-th request of a run asks for page `i + 1`: pages are requested in order, none skipped or repeated. */
  lemma {:induction false} FirstPagesAt(n: nat, i: nat)
    requires i < n
    ensures FirstPages(n)[i] == i + 1
  {
    if i < n - 1 {
      FirstPagesAt(n - 1, i);
    }
  }

  /** The parsed rows of a list of products, one per product, in order. */
  function ParsedRows(cfg: Config, ps: seq<Product>, extractionDate: string): seq<ParsedRow> {
    MapAll(RowOf(cfg, extractionDate), ps)
  }

  /** The raw rows of a list of products, one per product, in order. */
  function RawRows(cfg: Config, ps: seq<Product>, extractionDate: string): seq<RawRow> {
    MapAll(RawOf(cfg, extractionDate), ps)
  }

  /** The rows of the kept products of two runs of pages, one after the other. */
  lemma RowsGrow<R>(keep: Product -> bool, row: Product -> R, done: seq<Product>, items: seq<Product>)
    ensures MapAll(row, Kept(keep, done + items)) == MapAll(row, Kept(keep, done)) + MapAll(row, Kept(keep, items))
  {
    KeptAppend(keep, done, items);
    MapAllAppend(row, Kept(keep, done), Kept(keep, items));
  }

  /** Raw and parsed rows of the same products line up: same count, same id and URL at each position. */
  lemma RowsInLockstep(cfg: Config, ps: seq<Product>, extractionDate: string)
    ensures var raw, parsed := RawRows(cfg, ps, extractionDate), ParsedRows(cfg, ps, extractionDate);
      && |raw| == |parsed| == |ps|
      && forall i :: 0 <= i < |raw| ==>
        raw[i].productId == parsed[i].productId && raw[i].productUrl == parsed[i].productUrl
  {
    var raw, parsed := RawRows(cfg, ps, extractionDate), ParsedRows(cfg, ps, extractionDate);
    forall i | 0 <= i < |raw|
      ensures raw[i].productId == parsed[i].productId && raw[i].productUrl == parsed[i].productUrl
    {
      MapAllAt(RawOf(cfg, extractionDate), ps, i);
      MapAllAt(RowOf(cfg, extractionDate), ps, i);
    }
  }

  /**
   * The body of the page loop of `fetch_all_data`: the products of one page that `keep`
   * accepts, each turned into a parsed row by `row` and a raw row by `rawRow`, in the page's
   * order. The filter and the two builders are parameters so that their bodies stay out of
   * the loop's proof; `FetchAllData` supplies the real ones.
   */
  method MapPage(keep: Product -> bool, row: Product -> ParsedRow, rawRow: Product -> RawRow, items: seq<Product>)
    returns (raw: seq<RawRow>, parsed: seq<ParsedRow>)
    ensures parsed == MapAll(row, Kept(keep, items))
    ensures raw == MapAll(rawRow, Kept(keep, items))
  {
    raw, parsed := [], [];
    var i := 0;
    while i < |items|
      invariant 0 <= i <= |items|
      invariant parsed == MapAll(row, Kept(keep, items[..i]))
      invariant raw == MapAll(rawRow, Kept(keep, items[..i]))
    {
      var p := items[i];
      assert items[..i + 1] == items[..i] + [p];
      KeptSnoc(keep, items[..i], p);
      ghost var kept := Kept(keep, items[..i]);
      if keep(p) {
        MapAllSnoc(row, kept, p);
        MapAllSnoc(rawRow, kept, p);
        parsed := parsed + [row(p)];
        raw := raw + [rawRow(p)];
      } else {
        assert kept + [] == kept;
      }
      i := i + 1;
    }
    assert items[..|items|] == items;
  }

  /**
   * The page loop of `fetch_all_data`: requests pages 1, 2, 3, ... until one fails, is empty
   * or is not full, and builds the raw and parsed rows of the products `keep` accepts from
   * every page read. `requested` records the page numbers asked for, in order.
   */
  method ReadPages(keep: Product -> bool, row: Product -> ParsedRow, rawRow: Product -> RawRow, feed: Feed)
    returns (raw: seq<RawRow>, parsed: seq<ParsedRow>, requested: seq<nat>)
    ensures requested == FirstPages(LastPage(feed, 1))
    ensures parsed == MapAll(row, Kept(keep, Consumed(feed, 1)))
    ensures raw == MapAll(rawRow, Kept(keep, Consumed(feed, 1)))
  {
    raw, parsed, requested := [], [], [];
    var page: nat := 1;
    ghost var done: seq<Product> := [];
    StartRun(feed);
    while true
      invariant Progress(feed, page, done)
      invariant requested == FirstPages(page - 1)
      invariant parsed == MapAll(row, Kept(keep, done))
      invariant raw == MapAll(rawRow, Kept(keep, done))
      decreases |feed| + 1 - page
    {
      requested := requested + [page];
      var data := FetchPage(feed, page);
      if data.None? || data.value.items == [] {
        FinishRun(feed, page, done);
        assert done + [] == done;
        break;
      }
      var items := data.value.items;
      var pageRaw, pageParsed := MapPage(keep, row, rawRow, items);
      RowsGrow(keep, row, done, items);
      RowsGrow(keep, rawRow, done, items);
      raw, parsed := raw + pageRaw, parsed + pageParsed;
      if page >= data.value.totalPages {
        FinishRun(feed, page, done);
        done := done + items;
        break;
      }
      AdvanceRun(feed, page, done);
      done := done + items;
      page := page + 1;
    }
  }

  /**
   * `fetch_all_data`: the rows of every product the filter keeps from the pages read, built
   * with this run's configuration and extraction date.
   */
  method FetchAllData(cfg: Config, feed: Feed, extractionDate: string)
    returns (raw: seq<RawRow>, parsed: seq<ParsedRow>, requested: seq<nat>)
    ensures requested == FirstPages(LastPage(feed, 1))
    ensures parsed == ParsedRows(cfg, KeepWatches(cfg.excludeKeywords, Consumed(feed, 1)), extractionDate)
    ensures raw == RawRows(cfg, KeepWatches(cfg.excludeKeywords, Consumed(feed, 1)), extractionDate)
  {
    raw, parsed, requested := ReadPages(WatchFilter(cfg.excludeKeywords), RowOf(cfg, extractionDate), RawOf(cfg, extractionDate), feed);
  }
}
