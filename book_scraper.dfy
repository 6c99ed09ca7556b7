/** The crawler of scraper/book_scraper.py. Fetching a page (HTTP, the
    rate-limiting sleep, HTML parsing) is an input: the listing and detail
    pages arrive as abstract records whose optional fields stand for the
    BeautifulSoup lookups that may find nothing. */
module BookScraper {
  import opened Values
  import DataProcessor

  // ------------------------------------------------------------ page shapes

  /** The `<a>` inside an item's `<h3>`: its `title` and `href` attributes. */
  datatype Anchor = Anchor(title: Option<string>, href: Option<string>)

  /** The `p.price_color` element: absent, or present with the outcome of
      `float(text.replace('£', ''))` (None when `float` raises ValueError). */
  datatype PriceTag = NoPriceTag | PriceText(amount: Option<real>)

  /** One `article.product_pod` of a listing page. `anchor` is None when the
      `<h3>` or its `<a>` is missing; `starClasses` is the class list of the
      `p.star-rating` element; `availability` the text of
      `p.instock.availability`. */
  datatype ProductPod = ProductPod(
    anchor: Option<Anchor>,
    price: PriceTag,
    starClasses: Option<seq<string>>,
    availability: Option<string>)

  /** The result of `fetch_page` on a listing page. */
  datatype ListingPage = PageFailed | PageOk(pods: seq<ProductPod>)

  // --------------------------------------------------------------- base url

  /** `base_url.rstrip('/')`. */
  function StripTrailingSlashes(s: string): (r: string)
    ensures r <= s
    ensures r == [] || r[|r| - 1] != '/'
    ensures forall i :: |r| <= i < |s| ==> s[i] == '/'
  {
    if s != [] && s[|s| - 1] == '/' then StripTrailingSlashes(s[..|s| - 1]) else s
  }

  /** The URL of listing page n. */
  function PageUrl(baseUrl: string, n: nat): string
  {
    baseUrl + "/catalogue/page-" + NatToString(n) + ".html"
  }

  /** Distinct page numbers give distinct URLs. */
  lemma PageUrlInjective(baseUrl: string, m: nat, n: nat)
    requires PageUrl(baseUrl, m) == PageUrl(baseUrl, n)
    ensures m == n
  {
    var prefix := baseUrl + "/catalogue/page-";
    var um, un := PageUrl(baseUrl, m), PageUrl(baseUrl, n);
    var dm, dn := NatToString(m), NatToString(n);
    assert |dm| == |dn|;
    assert um == prefix + dm + ".html" && un == prefix + dn + ".html";
    assert dm == um[|prefix|..|prefix| + |dm|];
    assert dn == un[|prefix|..|prefix| + |dn|];
    NatToStringInjective(m, n);
  }

  // ------------------------------------------------------------- parse_item

  /** `rating_map.get(token, 0)`. */
  function RatingOf(token: string): (r: nat)
    ensures r <= 5
  {
    if token == "One" then 1
    else if token == "Two" then 2
    else if token == "Three" then 3
    else if token == "Four" then 4
    else if token == "Five" then 5
    else 0
  }

  /** The five words map to 1..5 and every other token to 0. */
  lemma RatingTokens(token: string)
    ensures RatingOf("One") == 1 && RatingOf("Two") == 2 && RatingOf("Three") == 3
    ensures RatingOf("Four") == 4 && RatingOf("Five") == 5
    ensures RatingOf(token) == 0 <==> token !in {"One", "Two", "Three", "Four", "Five"}
  {
  }

  /** Whether `parse_item` returns (rather than raises) on this pod: the
      `<a>` is there, the price text parses, and the rating element (if any)
      has a second class. */
  predicate Parses(pod: ProductPod)
  {
    && pod.anchor.Some?
    && pod.price != PriceText(None)
    && (pod.starClasses.Some? ==> |pod.starClasses.value| >= 2)
  }

  /** The rating `parse_item` reads from a pod it can parse. */
  function PodRating(pod: ProductPod): nat
    requires Parses(pod)
  {
    if pod.starClasses.Some? then RatingOf(pod.starClasses.value[1]) else 0
  }

  /** The price `parse_item` reads from a pod it can parse: `'£0.00'` when
      the element is missing. */
  function PodPrice(pod: ProductPod): real
    requires Parses(pod)
  {
    match pod.price
    case NoPriceTag => 0.0
    case PriceText(amount) => amount.value
  }

  /** `BookScraper.parse_item`; None stands for the exception it raises. */
  function ParseItem(baseUrl: string, pod: ProductPod): (r: Option<Record>)
    ensures r.Some? <==> Parses(pod)
    ensures r.Some? ==>
      && r.value.Keys == {"title", "price", "rating", "in_stock", "url"}
      && r.value["title"] == Str(if pod.anchor.value.title.Some? then pod.anchor.value.title.value else "")
      && r.value["rating"] == Int(PodRating(pod))
      && r.value["in_stock"] == Bool(pod.availability.Some? && Contains(pod.availability.value, "In stock"))
      && r.value["url"] == Str(baseUrl + "/catalogue/" + (if pod.anchor.value.href.Some? then pod.anchor.value.href.value else ""))
      && r.value["price"] == Num(PodPrice(pod))
  {
    match pod.anchor
    case None => None
    case Some(anchor) =>
      var title := if anchor.title.Some? then anchor.title.value else "";
      var price := match pod.price case NoPriceTag => Some(0.0) case PriceText(amount) => amount;
      if price.None? then None
      else
        if pod.starClasses.Some? && |pod.starClasses.value| < 2 then None
        else
          var rating := if pod.starClasses.Some? then RatingOf(pod.starClasses.value[1]) else 0;
          var inStock := pod.availability.Some? && Contains(pod.availability.value, "In stock");
          var href := if anchor.href.Some? then anchor.href.value else "";
          Some(map[
            "title" := Str(title),
            "price" := Num(price.value),
            "rating" := Int(rating),
            "in_stock" := Bool(inStock),
            "url" := Str(baseUrl + "/catalogue/" + href)])
  }

  /** A parsed item always survives `clean_data` unchanged but for an empty
      title: price, rating, stock flag and url are never blank. */
  lemma ParsedItemSurvivesCleaning(baseUrl: string, pod: ProductPod)
    requires Parses(pod)
    ensures var item := ParseItem(baseUrl, pod).value;
            var cleaned := DataProcessor.CleanItem(item);
            && cleaned != map[]
            && cleaned.Keys >= {"price", "rating", "in_stock", "url"}
            && forall k :: k in cleaned ==> cleaned[k] == item[k]
  {
    var cleaned := DataProcessor.CleanItem(ParseItem(baseUrl, pod).value);
    assert "url" in cleaned;
  }

  /** The records the inner loop of `scrape` collects from one page: the
      pods that parse, in page order. */
  function ParsePods(baseUrl: string, pods: seq<ProductPod>): (r: seq<Record>)
    ensures |r| <= |pods|
  {
    if pods == [] then []
    else
      var last := ParseItem(baseUrl, pods[|pods| - 1]);
      ParsePods(baseUrl, pods[..|pods| - 1]) + (if last.Some? then [last.value] else [])
  }

  lemma {:induction false} ParsePodsConcat(baseUrl: string, a: seq<ProductPod>, b: seq<ProductPod>)
    ensures ParsePods(baseUrl, a + b) == ParsePods(baseUrl, a) + ParsePods(baseUrl, b)
    decreases |b|
  {
    if b == [] {
      assert a + b == a;
    } else {
      assert (a + b)[..|a + b| - 1] == a + b[..|b| - 1];
      assert (a + b)[|a + b| - 1] == b[|b| - 1];
      ParsePodsConcat(baseUrl, a, b[..|b| - 1]);
    }
  }

  /** An item that fails to parse is skipped and the rest of its page is
      still processed. */
  lemma SkipsUnparsable(baseUrl: string, before: seq<ProductPod>, bad: ProductPod, after: seq<ProductPod>)
    requires !Parses(bad)
    ensures ParsePods(baseUrl, before + [bad] + after) == ParsePods(baseUrl, before) + ParsePods(baseUrl, after)
  {
    ParsePodsConcat(baseUrl, before + [bad], after);
    ParsePodsConcat(baseUrl, before, [bad]);
    assert ParseItem(baseUrl, bad).None?;
    assert [bad][..0] == [];
    assert ParsePods(baseUrl, [bad]) == ParsePods(baseUrl, []);
  }

  /** When every pod parses, the page yields one record per pod, in order. */
  lemma {:induction false} ParsePodsAll(baseUrl: string, pods: seq<ProductPod>)
    requires forall i :: 0 <= i < |pods| ==> Parses(pods[i])
    ensures |ParsePods(baseUrl, pods)| == |pods|
    ensures forall i :: 0 <= i < |pods| ==> ParsePods(baseUrl, pods)[i] == ParseItem(baseUrl, pods[i]).value
  {
    if pods != [] {
      var prefix, last := pods[..|pods| - 1], pods[|pods| - 1];
      assert forall i :: 0 <= i < |prefix| ==> prefix[i] == pods[i];
      ParsePodsAll(baseUrl, prefix);
      var item := ParseItem(baseUrl, last);
      assert item.Some?;
      var rp := ParsePods(baseUrl, prefix);
      assert ParsePods(baseUrl, pods) == rp + [item.value];
    }
  }

  // ------------------------------------------------------------ crawl loop

  /** The state of `scrape` after the first k iterations of its page loop:
      the records so far, the URLs requested so far, and whether a listing
      failure has stopped the loop. */
  datatype CrawlState = CrawlState(books: seq<Record>, visited: seq<string>, stopped: bool)

  function CrawlPages(baseUrl: string, fetch: string -> ListingPage, k: nat): CrawlState
  {
    if k == 0 then CrawlState([], [], false)
    else
      var prev := CrawlPages(baseUrl, fetch, k - 1);
      if prev.stopped then prev
      else
        var url := PageUrl(baseUrl, k);
        match fetch(url)
        case PageFailed => CrawlState(prev.books, prev.visited + [url], true)
        case PageOk(pods) => CrawlState(prev.books + ParsePods(baseUrl, pods), prev.visited + [url], false)
  }

  /** The records of pages 1..k when none of them fails. */
  function PagesBooks(baseUrl: string, fetch: string -> ListingPage, k: nat): seq<Record>
  {
    if k == 0 then []
    else
      PagesBooks(baseUrl, fetch, k - 1)
        + match fetch(PageUrl(baseUrl, k)) case PageOk(pods) => ParsePods(baseUrl, pods) case PageFailed => []
  }

  /** The number of pods on the pages 1..k that load. */
  function PodCount(baseUrl: string, fetch: string -> ListingPage, k: nat): nat
  {
    if k == 0 then 0
    else
      PodCount(baseUrl, fetch, k - 1)
        + match fetch(PageUrl(baseUrl, k)) case PageOk(pods) => |pods| case PageFailed => 0
  }

  /** The number of listing pages `range(1, max_pages + 1)` visits. */
  function PageBudget(maxPages: int): nat
  {
    if maxPages < 0 then 0 else maxPages
  }

  /** Once stopped, the crawl stays as it is. */
  lemma {:induction false} StoppedStaysStopped(baseUrl: string, fetch: string -> ListingPage, k: nat, k': nat)
    requires k <= k'
    requires CrawlPages(baseUrl, fetch, k).stopped
    ensures CrawlPages(baseUrl, fetch, k') == CrawlPages(baseUrl, fetch, k)
    decreases k' - k
  {
    if k < k' {
      StoppedStaysStopped(baseUrl, fetch, k, k' - 1);
    }
  }

  /** Pages are requested as 1, 2, 3, ... in order, each at most once, and a
      crawl that did not stop requested all k of them. */
  lemma {:induction false} CrawlVisitsInOrder(baseUrl: string, fetch: string -> ListingPage, k: nat)
    ensures var c := CrawlPages(baseUrl, fetch, k);
            && |c.visited| <= k
            && (!c.stopped ==> |c.visited| == k)
            && forall i :: 0 <= i < |c.visited| ==> c.visited[i] == PageUrl(baseUrl, i + 1)
  {
    if k > 0 {
      CrawlVisitsInOrder(baseUrl, fetch, k - 1);
    }
  }

  /** Without a listing failure every page is requested and the records are
      those of pages 1..k in page order. */
  lemma {:induction false} CrawlWithoutFailure(baseUrl: string, fetch: string -> ListingPage, k: nat)
    requires forall j :: 1 <= j <= k ==> fetch(PageUrl(baseUrl, j)).PageOk?
    ensures var c := CrawlPages(baseUrl, fetch, k);
            && !c.stopped
            && c.books == PagesBooks(baseUrl, fetch, k)
            && |c.visited| == k
  {
    if k > 0 {
      CrawlWithoutFailure(baseUrl, fetch, k - 1);
    }
  }

  /** A listing failure on page m stops the crawl: the records are those of
      pages 1..m-1, page m is the last URL requested, and no later page is
      requested. */
  lemma CrawlStopsAtFailure(baseUrl: string, fetch: string -> ListingPage, m: nat, k: nat)
    requires 1 <= m <= k
    requires forall j :: 1 <= j < m ==> fetch(PageUrl(baseUrl, j)).PageOk?
    requires fetch(PageUrl(baseUrl, m)).PageFailed?
    ensures var c := CrawlPages(baseUrl, fetch, k);
            && c.stopped
            && c.books == PagesBooks(baseUrl, fetch, m - 1)
            && |c.visited| == m
            && c.visited[m - 1] == PageUrl(baseUrl, m)
            && forall j :: j > m ==> PageUrl(baseUrl, j) !in c.visited
  {
    CrawlWithoutFailure(baseUrl, fetch, m - 1);
    StoppedStaysStopped(baseUrl, fetch, m, k);
    CrawlVisitsInOrder(baseUrl, fetch, k);
    var c := CrawlPages(baseUrl, fetch, k);
    forall j | j > m
      ensures PageUrl(baseUrl, j) !in c.visited
    {
      if PageUrl(baseUrl, j) in c.visited {
        var i :| 0 <= i < |c.visited| && c.visited[i] == PageUrl(baseUrl, j);
        PageUrlInjective(baseUrl, i + 1, j);
      }
    }
  }

  /** The crawl returns at most one record per pod it saw. */
  lemma {:induction false} CrawlBookBound(baseUrl: string, fetch: string -> ListingPage, k: nat)
    ensures |CrawlPages(baseUrl, fetch, k).books| <= PodCount(baseUrl, fetch, k)
  {
    if k > 0 {
      CrawlBookBound(baseUrl, fetch, k - 1);
      var prev := CrawlPages(baseUrl, fetch, k - 1);
      if prev.stopped {
        assert PodCount(baseUrl, fetch, k - 1) <= PodCount(baseUrl, fetch, k);
      }
    }
  }

  // ------------------------------------------------------- the detail page

  /** A `<tr>` of the product table: the text of its `<th>` and `<td>`, None
      when the cell is missing. */
  datatype TableRow = TableRow(header: Option<string>, cell: Option<string>)

  /** A detail page: the `<h1>` text, the rows of `table.table-striped` (None
      when the table is absent), and the description: None when there is no
      `div#product_description`, Some(None) when it has no following `<p>`. */
  datatype DetailPage = DetailPage(
    heading: Option<string>,
    table: Option<seq<TableRow>>,
    description: Option<Option<string>>)

  datatype DetailFetch = DetailFailed | DetailOk(page: DetailPage)

  /** What `scrape_book_details` returns; NoDetails is the `{}` of its
      exception handler. */
  datatype BookDetails =
    | NoDetails
    | Details(title: string, description: string, productInfo: map<string, string>, url: string)

  /** The `product_info` dict the row loop builds, or None when a row lacks a
      `<th>` or `<td>` (the loop raises). */
  function ProductInfo(rows: seq<TableRow>): Option<map<string, string>>
  {
    if rows == [] then Some(map[])
    else
      match ProductInfo(rows[..|rows| - 1])
      case None => None
      case Some(info) =>
        var row := rows[|rows| - 1];
        if row.header.None? || row.cell.None? then None
        else Some(info[row.header.value := row.cell.value])
  }

  /** The row loop raises exactly when some row lacks a cell. */
  lemma {:induction false} ProductInfoFails(rows: seq<TableRow>)
    ensures ProductInfo(rows).None? <==>
            exists i :: 0 <= i < |rows| && (rows[i].header.None? || rows[i].cell.None?)
  {
    if rows != [] {
      var prefix := rows[..|rows| - 1];
      ProductInfoFails(prefix);
      assert forall i :: 0 <= i < |prefix| ==> prefix[i] == rows[i];
    }
  }

  /** Each header maps to the cell of the LAST row carrying it. */
  lemma {:induction false} ProductInfoLastWins(rows: seq<TableRow>, key: string)
    requires ProductInfo(rows).Some?
    ensures var info := ProductInfo(rows).value;
            && (key in info <==> exists i :: 0 <= i < |rows| && rows[i].header == Some(key))
            && (key in info ==> exists i :: 0 <= i < |rows| && rows[i].header == Some(key)
                                   && rows[i].cell.Some? && info[key] == rows[i].cell.value
                                   && forall j :: i < j < |rows| ==> rows[j].header != Some(key))
  {
    if rows != [] {
      var prefix, row := rows[..|rows| - 1], rows[|rows| - 1];
      ProductInfoLastWins(prefix, key);
      assert forall i :: 0 <= i < |prefix| ==> prefix[i] == rows[i];
      var info := ProductInfo(rows).value;
      if row.header == Some(key) {
        assert info[key] == row.cell.value;
      } else if key in info {
        var pinfo := ProductInfo(prefix).value;
        var i :| 0 <= i < |prefix| && prefix[i].header == Some(key) && prefix[i].cell.Some? && pinfo[key] == prefix[i].cell.value
                 && forall j :: i < j < |prefix| ==> prefix[j].header != Some(key);
        assert rows[i] == prefix[i];
      }
    }
  }

  /** What `scrape_book_details(url)` returns for a given fetch outcome. */
  function DetailsOf(url: string, fetched: DetailFetch): BookDetails
  {
    match fetched
    case DetailFailed => NoDetails
    case DetailOk(page) =>
      if page.heading.None? then NoDetails
      else
        var info := if page.table.Some? then ProductInfo(page.table.value) else Some(map[]);
        if info.None? then NoDetails
        else
          var description := if page.description.Some? && page.description.value.Some?
                             then page.description.value.value else "";
          Details(page.heading.value, description, info.value, url)
  }

  // ---------------------------------------------------------- the scraper

  /** `BookScraper`: the base URL fixed at construction. The HTTP session
      and the request delay belong to the fetcher, which is an input here. */
  class BookScraper {
    const baseUrl: string

    /** `BookScraper.__init__`: trailing slashes are stripped. */
    constructor (baseUrl: string)
      ensures this.baseUrl == StripTrailingSlashes(baseUrl)
    {
      this.baseUrl := StripTrailingSlashes(baseUrl);
    }

    /** `BookScraper.scrape`. `fetch` answers each listing URL; `visited` is
        the list of URLs requested, in order. */
    method Scrape(maxPages: int, fetch: string -> ListingPage)
      returns (books: seq<Record>, visited: seq<string>)
      ensures books == CrawlPages(baseUrl, fetch, PageBudget(maxPages)).books
      ensures visited == CrawlPages(baseUrl, fetch, PageBudget(maxPages)).visited
    {
      var n := PageBudget(maxPages);
      books, visited := [], [];
      var pageNum := 1;
      while pageNum <= n
        invariant 1 <= pageNum <= n + 1
        invariant CrawlPages(baseUrl, fetch, pageNum - 1) == CrawlState(books, visited, false)
      {
        var url := PageUrl(baseUrl, pageNum);
        visited := visited + [url];
        var page := fetch(url);
        if page.PageFailed? {
          StoppedStaysStopped(baseUrl, fetch, pageNum, n);
          break;
        }
        ghost var before := books;
        var pods := page.pods;
        var j := 0;
        while j < |pods|
          invariant 0 <= j <= |pods|
          invariant books == before + ParsePods(baseUrl, pods[..j])
        {
          var item := ParseItem(baseUrl, pods[j]);
          if item.Some? {
            books := books + [item.value];
          }
          assert pods[..j + 1][..j] == pods[..j];
          j := j + 1;
        }
        assert pods[..j] == pods;
        pageNum := pageNum + 1;
      }
    }

    /** `BookScraper.scrape_book_details`. */
    method ScrapeBookDetails(bookUrl: string, fetch: string -> DetailFetch) returns (details: BookDetails)
      ensures details == DetailsOf(bookUrl, fetch(bookUrl))
    {
      var fetched := fetch(bookUrl);
      if fetched.DetailFailed? {
        return NoDetails;
      }
      var page := fetched.page;
      if page.heading.None? {
        return NoDetails;
      }
      var title := page.heading.value;
      var productInfo: map<string, string> := map[];
      if page.table.Some? {
        var rows := page.table.value;
        for i := 0 to |rows|
          invariant ProductInfo(rows[..i]) == Some(productInfo)
        {
          assert rows[..i + 1][..i] == rows[..i];
          if rows[i].header.None? || rows[i].cell.None? {
            ProductInfoFailsFrom(rows, i + 1);
            return NoDetails;
          }
          productInfo := productInfo[rows[i].header.value := rows[i].cell.value];
        }
        assert rows[..|rows|] == rows;
      }
      var description := "";
      if page.description.Some? {
        description := if page.description.value.Some? then page.description.value.value else "";
      }
      details := Details(title, description, productInfo, bookUrl);
    }
  }

  /** Once the row loop has raised, the whole table fails. */
  lemma {:induction false} ProductInfoFailsFrom(rows: seq<TableRow>, k: nat)
    requires k <= |rows|
    requires ProductInfo(rows[..k]).None?
    ensures ProductInfo(rows).None?
    decreases |rows| - k
  {
    if k < |rows| {
      assert rows[..k + 1][..k] == rows[..k];
      ProductInfoFailsFrom(rows, k + 1);
    } else {
      assert rows[..k] == rows;
    }
  }
}
