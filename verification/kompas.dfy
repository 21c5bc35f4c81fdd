/** The Kompas scraper (parsers/kompas_parser.go): cache-through popular list and article
    detail, and the listing record built from each article item. */
module Kompas {
  import opened Wrappers
  import opened Models
  import opened Fetch
  import opened Links
  import opened TtlCache
  import Strings
  import Scrape
  import Seqs

  /** The two kinds of value the scraper stores; Go keeps them as interface{} and asserts the type back. */
  datatype CacheVal = ListVal(articles: seq<Article>) | ItemVal(article: Article)

  type KompasCache = Cache<CacheVal>

  /** A call's outcome: the returned value and error, the cache after it, and the URLs it fetched. */
  datatype Served<T> = Served(value: T, err: Option<Error>, cache: KompasCache, fetched: seq<string>)

  /** What the listing selectors find in one div.articleItem: the a.article-link href (if any),
      the div.articlePost-date text, the image src (if any) and the h2.articleTitle text. */
  datatype ListItem = ListItem(href: Option<string>, postDate: string, img: Option<string>, title: string)

  /** The goquery side of the scraper: parsing a body, and the listing and detail selectors. */
  datatype Page<!D> = Page(parse: string -> Result<D, string>, items: D -> seq<ListItem>, detail: D -> DetailFields)

  const PopularKey := "kompas:popular"
  const DetailPrefix := "kompas:detail:"
  const PopularUrls := ["https://indeks.kompas.com/terpopuler", "https://indeks.kompas.com/headline"]
  const CacheTtl: int := 5 * Minute
  const SearchUnsupported := "KompasScraper Search is not supported"

  /** Search is not offered: always no articles and the same error, whatever the keyword. */
  function Search(keyword: string): (r: Reply<seq<Article>>)
    ensures r.value == [] && r.err.Some? && Message(r.err.value) == SearchUnsupported
  {
    Reply([], Some(Unsupported(SearchUnsupported)))
  }

  // ----- Listing records -----

  function Href(item: ListItem): string
  {
    item.href.GetOr("")
  }

  function SourceUrl(item: ListItem): string
  {
    Href(item) + "?page=all"
  }

  /** The article path carries its publication time: the second-to-last "/" piece has at least
      four characters, the first two the hour and the next two the minute. */
  predicate TimeInPath(path: string)
  {
    var pieces := Strings.Split(path, '/');
    |pieces| >= 2 && |pieces[|pieces| - 2]| >= 4
  }

  /** The second-to-last "/" piece: at least four characters and no slash. */
  function TimePiece(path: string): (p: string)
    requires TimeInPath(path)
    ensures |p| >= 4 && '/' !in p
  {
    var pieces := Strings.Split(path, '/');
    Strings.SplitPiecesFree(path, '/');
    pieces[|pieces| - 2]
  }

  /** "<post date>, HH:MM WIB" from the post date and the time piece of the path. */
  function ListingDate(postDate: string, piece: string): (d: string)
    requires |piece| >= 4
    ensures |d| == |postDate| + 11 && d[..|postDate|] == postDate
    ensures d[|postDate| + 2..|postDate| + 4] == piece[0..2] && d[|postDate| + 5..|postDate| + 7] == piece[2..4]
  {
    postDate + ", " + piece[0..2] + ":" + piece[2..4] + " WIB"
  }

  /** Every field of a listing record except the date. */
  function Undated(item: ListItem, req: Request, lib: UrlLib): Article
  {
    var parsed := lib.parse(SourceUrl(item));
    Article(
      url := ProxyUrl(req, lib.queryEscape(Href(item))),
      title := item.title,
      shortDesc := if parsed.Some? then parsed.value.host else "",
      author := "",
      date := "",
      sourceUrl := SourceUrl(item),
      content := "",
      imgUrl := item.img.GetOr(""))
  }

  /** The date slicing of the listing stays in bounds for this item: when the link parses, its
      path has a second-to-last "/" piece, and that piece is long enough for [0:2] and [2:4]. */
  predicate DateSlicesInBounds(item: ListItem, lib: UrlLib): (b: bool)
    ensures b <==> (lib.parse(SourceUrl(item)).Some?
                    ==> var su := Strings.Split(lib.parse(SourceUrl(item)).value.path, '/');
                        |su| >= 2 && 4 <= |su[|su| - 2]|)
  {
    lib.parse(SourceUrl(item)).Some? ==> TimeInPath(lib.parse(SourceUrl(item)).value.path)
  }

  /** The listing record as the code builds it: when the link parses it always slices a time
      out of the path, which is only defined when the path has one. */
  function ListingRecordAsWritten(item: ListItem, req: Request, lib: UrlLib): (a: Article)
    requires DateSlicesInBounds(item, lib)
    ensures lib.parse(SourceUrl(item)).Some?
            ==> a.date == ListingDate(item.postDate, TimePiece(lib.parse(SourceUrl(item)).value.path))
    ensures lib.parse(SourceUrl(item)).None? ==> a.date == ""
  {
    var base := Undated(item, req, lib);
    match lib.parse(SourceUrl(item))
    case None => base
    case Some(u) => base.(date := ListingDate(item.postDate, TimePiece(u.path)))
  }

  /** The listing record with the date left unset when the path carries no time, as it is
      when the link does not parse. */
  function ListingRecord(item: ListItem, req: Request, lib: UrlLib): (a: Article)
    ensures a.sourceUrl == item.href.GetOr("") + "?page=all"
    ensures StripProxy(req, a.url) == Some(lib.queryEscape(item.href.GetOr("")))
    ensures a.title == item.title && a.imgUrl == item.img.GetOr("")
    ensures a.author == "" && a.content == ""
    ensures lib.parse(a.sourceUrl).Some? ==> a.shortDesc == lib.parse(a.sourceUrl).value.host
    ensures lib.parse(a.sourceUrl).None? ==> a.shortDesc == "" && a.date == ""
    ensures lib.parse(a.sourceUrl).Some? && TimeInPath(lib.parse(a.sourceUrl).value.path)
            ==> a.date == ListingDate(item.postDate, TimePiece(lib.parse(a.sourceUrl).value.path))
    ensures lib.parse(a.sourceUrl).Some? && !TimeInPath(lib.parse(a.sourceUrl).value.path) ==> a.date == ""
  {
    ProxyRoundTrip(req, lib.queryEscape(Href(item)), "");
    var base := Undated(item, req, lib);
    match lib.parse(SourceUrl(item))
    case None => base
    case Some(u) =>
      if TimeInPath(u.path) then base.(date := ListingDate(item.postDate, TimePiece(u.path))) else base
  }

  /** Wherever the code does not panic, the corrected record is the code's record. */
  lemma ListingRecordAgrees(item: ListItem, req: Request, lib: UrlLib)
    requires DateSlicesInBounds(item, lib)
    ensures ListingRecord(item, req, lib) == ListingRecordAsWritten(item, req, lib)
  {
  }

  /** A link whose path is a single piece below the root ("/slug") has no time piece: the
      code's slicing is out of bounds there. */
  lemma RootPathHasNoTime(slug: string)
    requires '/' !in slug
    ensures !TimeInPath("/" + slug)
  {
    assert "/" + slug == "" + ['/'] + slug;
    Strings.SplitAround("", '/', slug);
    Strings.SplitFree(slug, '/');
  }

  /** A root-level article link such as the repository's "jeo" test item
      (jeo.kompas.com/mencari-harimau-jawa-antara-ada-dan-tiada): the code cannot build its
      record, and the corrected record has an empty date. */
  lemma RootLevelLinkPanics(req: Request, lib: UrlLib, item: ListItem, host: string, slug: string)
    requires '/' !in slug
    requires lib.parse(SourceUrl(item)) == Some(Url(host, "/" + slug))
    ensures !DateSlicesInBounds(item, lib)
    ensures ListingRecord(item, req, lib).date == ""
  {
    RootPathHasNoTime(slug);
  }

  /** For a path .../<time piece>/<slug>, the date is the post date, then HH:MM from the
      first four characters of the time piece, then " WIB". */
  lemma DateFromPath(item: ListItem, req: Request, lib: UrlLib, host: string, prefix: string, piece: string, slug: string)
    requires '/' !in piece && '/' !in slug && |piece| >= 4
    requires lib.parse(SourceUrl(item)) == Some(Url(host, prefix + "/" + piece + "/" + slug))
    ensures ListingRecord(item, req, lib).date
            == item.postDate + ", " + piece[0..2] + ":" + piece[2..4] + " WIB"
  {
    Strings.SecondToLastPiece(prefix, piece, slug, '/');
    assert prefix + "/" + piece + "/" + slug == prefix + ['/'] + piece + ['/'] + slug;
  }

  /** The article of the repository's popular-list test: posted 26/12/2024, time piece 12015311. */
  lemma TestItemListingDate(item: ListItem, req: Request, lib: UrlLib, slug: string)
    requires '/' !in slug
    requires item.postDate == "26/12/2024"
    requires lib.parse(SourceUrl(item)) == Some(Url("nasional.kompas.com", "/read/2024/12/26/12015311/" + slug))
    ensures ListingRecord(item, req, lib).date == "26/12/2024, 12:01 WIB"
  {
    var prefix, piece := "/read/2024/12/26", "12015311";
    assert "/read/2024/12/26/12015311/" + slug == prefix + "/" + piece + "/" + slug;
    DateFromPath(item, req, lib, "nasional.kompas.com", prefix, piece, slug);
    TestItemTime();
  }

  lemma TestItemTime()
    ensures "26/12/2024" + ", " + "12015311"[0..2] + ":" + "12015311"[2..4] + " WIB" == "26/12/2024, 12:01 WIB"
  {
    assert "12015311"[0..2] == "12" && "12015311"[2..4] == "01";
  }

  /** fetchArticlesKompas: one record per article item, in document order. */
  function Listing(items: seq<ListItem>, req: Request, lib: UrlLib): (r: seq<Article>)
    ensures |r| == |items|
    ensures forall i :: 0 <= i < |items| ==> r[i] == ListingRecord(items[i], req, lib)
  {
    seq(|items|, i requires 0 <= i < |items| => ListingRecord(items[i], req, lib))
  }

  /** fetchArticlesKompas as written: it builds every record only when no item's date slicing
      goes out of bounds; otherwise the extractor panics inside the aggregator's worker. */
  function ListingAsWritten(items: seq<ListItem>, req: Request, lib: UrlLib): (r: seq<Article>)
    requires forall i :: 0 <= i < |items| ==> DateSlicesInBounds(items[i], lib)
    ensures |r| == |items|
    ensures forall i :: 0 <= i < |items| ==> r[i] == ListingRecordAsWritten(items[i], req, lib)
  {
    seq(|items|, i requires 0 <= i < |items| => ListingRecordAsWritten(items[i], req, lib))
  }

  /** Wherever the code's listing does not panic, the corrected listing is the code's listing. */
  lemma ListingAgrees(items: seq<ListItem>, req: Request, lib: UrlLib)
    requires forall i :: 0 <= i < |items| ==> DateSlicesInBounds(items[i], lib)
    ensures Listing(items, req, lib) == ListingAsWritten(items, req, lib)
  {
    forall i | 0 <= i < |items|
      ensures Listing(items, req, lib)[i] == ListingAsWritten(items, req, lib)[i]
    {
      ListingRecordAgrees(items[i], req, lib);
    }
  }

  /** An item without an a.article-link href: the link is "?page=all", whose parsed path is
      empty, so the path has a single piece and the code's su[len(su)-2] is out of range. */
  lemma MissingHrefPanics(req: Request, lib: UrlLib, item: ListItem)
    requires item.href.None?
    requires lib.parse("?page=all") == Some(Url("", ""))
    ensures !DateSlicesInBounds(item, lib)
    ensures ListingRecord(item, req, lib).date == ""
  {
    assert SourceUrl(item) == "?page=all";
  }

  function Extractor<D>(page: Page<D>, lib: UrlLib): (D, Request) -> seq<Article>
  {
    (doc: D, req: Request) => Listing(page.items(doc), req, lib)
  }

  /** The aggregate over the popular pages, for one arrival order: every listed article of
      every page that loaded, whatever the order. */
  function Aggregate<D>(fetch: string -> Response, page: Page<D>, lib: UrlLib, req: Request, order: seq<nat>): (r: seq<Article>)
    requires Scrape.IsArrivalOrder(order, |PopularUrls|)
    ensures multiset(r) == multiset(Seqs.Flatten(Scrape.Contributions(fetch, page.parse, Extractor(page, lib), req, PopularUrls)))
  {
    Scrape.Gathered(fetch, page.parse, Extractor(page, lib), PopularUrls, req, order)
  }

  // ----- Cache-through -----

  /** The popular entry, if live, is a list (the type assertion at :29 succeeds): it holds
      exactly when the key is absent, expired, or stores a list. */
  predicate HoldsList(c: KompasCache, now: nat): (b: bool)
    ensures b <==> (PopularKey !in c || now > c[PopularKey].expiresAt || c[PopularKey].data.ListVal?)
  {
    Get(c, PopularKey, now).Some? ==> Get(c, PopularKey, now).value.ListVal?
  }

  /** The entry under key, if live, is an article (the type assertion at :49 succeeds): it holds
      exactly when the key is absent, expired, or stores an article. */
  predicate HoldsItem(c: KompasCache, key: string, now: nat): (b: bool)
    ensures b <==> (key !in c || now > c[key].expiresAt || c[key].data.ItemVal?)
  {
    Get(c, key, now).Some? ==> Get(c, key, now).value.ItemVal?
  }

  /** Every live entry has the type its key's reader asserts: the list under the popular key,
      an article under every other key. */
  predicate WellTyped(c: KompasCache)
  {
    forall k :: k in c ==> (c[k].data.ListVal? <==> k == PopularKey)
  }

  /** Popular: serve a live cached list as is; otherwise aggregate, and cache the aggregate for
      five minutes only when it is non-empty. Never an error. */
  function Popular<D>(c: KompasCache, now: nat, doneAt: nat, fetch: string -> Response, page: Page<D>,
                      lib: UrlLib, req: Request, order: seq<nat>): (r: Served<seq<Article>>)
    requires Scrape.IsArrivalOrder(order, |PopularUrls|)
    requires HoldsList(c, now)
    ensures r.err == None
    ensures Get(c, PopularKey, now).Some? ==> r == Served(Get(c, PopularKey, now).value.articles, None, c, [])
    ensures Get(c, PopularKey, now).None? ==> r.fetched == PopularUrls && r.value == Aggregate(fetch, page, lib, req, order)
    ensures Get(c, PopularKey, now).None? && |r.value| > 0
            ==> r.cache == Set(c, PopularKey, ListVal(r.value), CacheTtl, doneAt)
    ensures Get(c, PopularKey, now).None? && |r.value| == 0 ==> r.cache == c
    ensures forall k :: k != PopularKey ==> (k in r.cache <==> k in c)
    ensures forall k :: k in c && k != PopularKey ==> r.cache[k] == c[k]
    ensures WellTyped(c) ==> WellTyped(r.cache)
  {
    match Get(c, PopularKey, now)
    case Some(v) => Served(v.articles, None, c, [])
    case None =>
      var result := Aggregate(fetch, page, lib, req, order);
      var c' := if |result| > 0 then Set(c, PopularKey, ListVal(result), CacheTtl, doneAt) else c;
      Served(result, None, c', PopularUrls)
  }

  /** Lines 52-79: fetch the page, fail on a transport error, a status other than 200 or a
      parse failure, and otherwise fill the article from the detail selectors. */
  function FetchDetail<D>(fetch: string -> Response, page: Page<D>, url: string): (r: Reply<Article>)
    ensures Load(fetch, page.parse, url).Failure?
            ==> r == Reply(EmptyArticle, Some(Load(fetch, page.parse, url).error))
    ensures Load(fetch, page.parse, url).Success? ==> r.err == None && r.value.url == url
    ensures Load(fetch, page.parse, url).Success?
            ==> var f := page.detail(Load(fetch, page.parse, url).value);
                && r.value.title == f.title && r.value.author == f.author && r.value.date == f.date
                && r.value.imgUrl == f.img.GetOr("") && r.value.content == f.body
                && r.value.shortDesc == "" && r.value.sourceUrl == ""
  {
    match Load(fetch, page.parse, url)
    case Failure(e) => Reply(EmptyArticle, Some(e))
    case Success(doc) =>
      var f := page.detail(doc);
      Reply(Article(url, f.title, "", f.author, f.date, "", f.body, f.img.GetOr("")), None)
  }

  /** Detail's shape for a cache-key scheme `key`: look up key(url); on a live entry return it
      with no fetch; otherwise fetch, and on success store the article under key(article.url). */
  function CacheThrough<D>(c: KompasCache, key: string -> string, now: nat, doneAt: nat,
                           fetch: string -> Response, page: Page<D>, url: string): (r: Served<Article>)
    requires HoldsItem(c, key(url), now)
    ensures Get(c, key(url), now).Some? ==> r == Served(Get(c, key(url), now).value.article, None, c, [])
    ensures Get(c, key(url), now).None? ==> r.fetched == [url]
    ensures Get(c, key(url), now).None? && Load(fetch, page.parse, url).Failure?
            ==> r.err == Some(Load(fetch, page.parse, url).error) && r.value == EmptyArticle && r.cache == c
    ensures Get(c, key(url), now).None? && Load(fetch, page.parse, url).Success?
            ==> r.err == None && r.value.url == url && r.value == FetchDetail(fetch, page, url).value
                && r.cache == Set(c, key(url), ItemVal(r.value), CacheTtl, doneAt)
  {
    match Get(c, key(url), now)
    case Some(v) => Served(v.article, None, c, [])
    case None =>
      var reply := FetchDetail(fetch, page, url);
      if reply.err.Some? then Served(reply.value, reply.err, c, [url])
      else Served(reply.value, None, Set(c, key(reply.value.url), ItemVal(reply.value), CacheTtl, doneAt), [url])
  }

  /** The code's key for an article: "kompas:" + url, the same namespace as the popular list,
      which it hits for exactly one URL. */
  function DetailKeyAsWritten(url: string): (k: string)
    ensures k == PopularKey <==> url == "popular"
  {
    var k := "kompas:" + url;
    assert k[7..] == url;
    assert PopularKey == "kompas:" + "popular";
    k
  }

  /** A key in a namespace of its own, which no URL can make equal to the popular key. */
  function DetailKey(url: string): (k: string)
    ensures k != PopularKey
  {
    assert (DetailPrefix + url)[7] == 'd' && PopularKey[7] == 'p';
    DetailPrefix + url
  }

  /** Detail as the code keys it. */
  function DetailAsWritten<D>(c: KompasCache, now: nat, doneAt: nat, fetch: string -> Response,
                              page: Page<D>, url: string): (r: Served<Article>)
    requires HoldsItem(c, DetailKeyAsWritten(url), now)
    ensures Get(c, DetailKeyAsWritten(url), now).None?
            ==> r.value == FetchDetail(fetch, page, url).value && r.err == FetchDetail(fetch, page, url).err
    ensures Get(c, DetailKeyAsWritten(url), now).None? && r.err == None
            ==> DetailKeyAsWritten(url) in r.cache
                && r.cache[DetailKeyAsWritten(url)] == Entry(ItemVal(r.value), doneAt + CacheTtl)
  {
    CacheThrough(c, DetailKeyAsWritten, now, doneAt, fetch, page, url)
  }

  /** Detail with its own key namespace: it serves and stores an article, and never touches
      the popular list's entry. */
  function Detail<D>(c: KompasCache, now: nat, doneAt: nat, fetch: string -> Response,
                     page: Page<D>, url: string): (r: Served<Article>)
    requires HoldsItem(c, DetailKey(url), now)
    ensures Get(c, DetailKey(url), now).None?
            ==> r.value == FetchDetail(fetch, page, url).value && r.err == FetchDetail(fetch, page, url).err
    ensures Get(c, DetailKey(url), now).None? && r.err == None
            ==> DetailKey(url) in r.cache && r.cache[DetailKey(url)] == Entry(ItemVal(r.value), doneAt + CacheTtl)
    ensures PopularKey in r.cache <==> PopularKey in c
    ensures PopularKey in c ==> r.cache[PopularKey] == c[PopularKey]
    ensures WellTyped(c) ==> WellTyped(r.cache)
  {
    CacheThrough(c, DetailKey, now, doneAt, fetch, page, url)
  }

  // ----- Properties across calls -----

  /** A live cached list is served without looking at the network at all. */
  lemma PopularHitIgnoresNetwork<D>(c: KompasCache, now: nat, doneAt: nat, fetch1: string -> Response,
                                    fetch2: string -> Response, page: Page<D>, lib: UrlLib, req: Request, order: seq<nat>)
    requires Scrape.IsArrivalOrder(order, |PopularUrls|)
    requires HoldsList(c, now)
    requires Get(c, PopularKey, now).Some?
    ensures Popular(c, now, doneAt, fetch1, page, lib, req, order) == Popular(c, now, doneAt, fetch2, page, lib, req, order)
    ensures Popular(c, now, doneAt, fetch1, page, lib, req, order).fetched == []
  {
  }

  /** A non-empty aggregate is served again, unchanged and with no fetch, until its expiry. */
  lemma PopularServedFromCache<D>(c: KompasCache, now: nat, doneAt: nat, later: nat, laterDone: nat,
                                  fetch: string -> Response, fetch2: string -> Response, page: Page<D>,
                                  lib: UrlLib, req: Request, order: seq<nat>, order2: seq<nat>)
    requires Scrape.IsArrivalOrder(order, |PopularUrls|) && Scrape.IsArrivalOrder(order2, |PopularUrls|)
    requires HoldsList(c, now) && Get(c, PopularKey, now).None?
    requires |Popular(c, now, doneAt, fetch, page, lib, req, order).value| > 0
    requires later <= doneAt + CacheTtl
    ensures HoldsList(Popular(c, now, doneAt, fetch, page, lib, req, order).cache, later)
    ensures var first := Popular(c, now, doneAt, fetch, page, lib, req, order);
            var second := Popular(first.cache, later, laterDone, fetch2, page, lib, req, order2);
            second.value == first.value && second.fetched == [] && second.cache == first.cache
  {
  }

  /** An empty aggregate is not cached: the next call, at any later time, fetches again. */
  lemma EmptyPopularRetries<D>(c: KompasCache, now: nat, doneAt: nat, later: nat, laterDone: nat,
                               fetch: string -> Response, fetch2: string -> Response, page: Page<D>,
                               lib: UrlLib, req: Request, order: seq<nat>, order2: seq<nat>)
    requires Scrape.IsArrivalOrder(order, |PopularUrls|) && Scrape.IsArrivalOrder(order2, |PopularUrls|)
    requires HoldsList(c, now) && Get(c, PopularKey, now).None?
    requires Popular(c, now, doneAt, fetch, page, lib, req, order).value == []
    requires now <= later
    ensures HoldsList(Popular(c, now, doneAt, fetch, page, lib, req, order).cache, later)
    ensures var first := Popular(c, now, doneAt, fetch, page, lib, req, order);
            Popular(first.cache, later, laterDone, fetch2, page, lib, req, order2).fetched == PopularUrls
  {
    MissStaysMiss(c, PopularKey, now, later);
  }

  /** A successful Detail followed by a second one before expiry fetches once in all and
      returns the same article both times. */
  lemma DetailFetchesOnce<D>(c: KompasCache, now: nat, doneAt: nat, later: nat, laterDone: nat,
                             fetch: string -> Response, fetch2: string -> Response, page: Page<D>, url: string)
    requires HoldsItem(c, DetailKey(url), now) && Get(c, DetailKey(url), now).None?
    requires Load(fetch, page.parse, url).Success?
    requires later <= doneAt + CacheTtl
    ensures HoldsItem(Detail(c, now, doneAt, fetch, page, url).cache, DetailKey(url), later)
    ensures var first := Detail(c, now, doneAt, fetch, page, url);
            var second := Detail(first.cache, later, laterDone, fetch2, page, url);
            first.fetched + second.fetched == [url] && second.value == first.value && second.err == None
  {
  }

  /** A Detail that fails (a 404, say) reports the error and writes nothing to the cache. */
  lemma DetailErrorWritesNothing<D>(c: KompasCache, now: nat, doneAt: nat, fetch: string -> Response,
                                    page: Page<D>, url: string)
    requires HoldsItem(c, DetailKey(url), now) && Get(c, DetailKey(url), now).None?
    requires fetch(url).Resp? && fetch(url).status == 404
    ensures Detail(c, now, doneAt, fetch, page, url).err == Some(BadStatus(404))
    ensures Detail(c, now, doneAt, fetch, page, url).cache == c
  {
  }

  lemma NewCacheWellTyped()
    ensures WellTyped(NewCache<CacheVal>())
  {
  }

  /** In a well-typed cache both type assertions succeed, for every URL. */
  lemma WellTypedAssertionsHold(c: KompasCache, now: nat, url: string)
    requires WellTyped(c)
    ensures HoldsList(c, now)
    ensures HoldsItem(c, DetailKey(url), now)
  {
  }

  /** Popular keeps the cache well typed. */
  lemma PopularKeepsWellTyped<D>(c: KompasCache, now: nat, doneAt: nat, fetch: string -> Response,
                                 page: Page<D>, lib: UrlLib, req: Request, order: seq<nat>)
    requires Scrape.IsArrivalOrder(order, |PopularUrls|)
    requires WellTyped(c)
    ensures HoldsList(c, now)
    ensures WellTyped(Popular(c, now, doneAt, fetch, page, lib, req, order).cache)
  {
  }

  /** Detail keeps the cache well typed. */
  lemma DetailKeepsWellTyped<D>(c: KompasCache, now: nat, doneAt: nat, fetch: string -> Response,
                                page: Page<D>, url: string)
    requires WellTyped(c)
    ensures HoldsItem(c, DetailKey(url), now)
    ensures WellTyped(Detail(c, now, doneAt, fetch, page, url).cache)
  {
  }

  /** The code's detail key for the URL "popular" is the popular list's key. */
  lemma AsWrittenKeysCollide()
    ensures DetailKeyAsWritten("popular") == PopularKey
  {
  }

  /** After a Popular that caches its list, the code's Detail("popular") hits that list and its
      type assertion fails. */
  lemma PopularThenDetailPanics<D>(c: KompasCache, now: nat, doneAt: nat, fetch: string -> Response,
                                   page: Page<D>, lib: UrlLib, req: Request, order: seq<nat>)
    requires Scrape.IsArrivalOrder(order, |PopularUrls|)
    requires HoldsList(c, now) && Get(c, PopularKey, now).None?
    requires |Popular(c, now, doneAt, fetch, page, lib, req, order).value| > 0
    ensures !HoldsItem(Popular(c, now, doneAt, fetch, page, lib, req, order).cache, DetailKeyAsWritten("popular"), doneAt)
  {
    AsWrittenKeysCollide();
    var r := Popular(c, now, doneAt, fetch, page, lib, req, order);
    ReadYourWrite(c, PopularKey, ListVal(r.value), CacheTtl, doneAt, doneAt);
  }

  /** After the code's Detail("popular") succeeds, Popular hits an article under its key and its
      type assertion fails. The success needs a client that answers the scheme-less URL "popular",
      as a test double does; net/http refuses it, and the detail call then writes nothing. */
  lemma DetailThenPopularPanics<D>(c: KompasCache, now: nat, doneAt: nat, fetch: string -> Response, page: Page<D>)
    requires HoldsItem(c, DetailKeyAsWritten("popular"), now) && Get(c, DetailKeyAsWritten("popular"), now).None?
    requires Load(fetch, page.parse, "popular").Success?
    ensures !HoldsList(DetailAsWritten(c, now, doneAt, fetch, page, "popular").cache, doneAt)
  {
    AsWrittenKeysCollide();
    var r := DetailAsWritten(c, now, doneAt, fetch, page, "popular");
    ReadYourWrite(c, PopularKey, ItemVal(r.value), CacheTtl, doneAt, doneAt);
  }
}
