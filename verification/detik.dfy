/** The Detik scraper (parsers/detik_parser.go): article detail with body links proxied,
    search, the popular aggregate, and the listing record of each list item. No cache. */
module Detik {
  import opened Wrappers
  import opened Models
  import opened Fetch
  import opened Links
  import Strings
  import Seqs
  import Scrape

  /** What the listing selectors find in one article.list-content__item: the h3.media__title
      link's href (if any) and text, the image src (if any) and the date span's title (if any). */
  datatype ListItem = ListItem(href: Option<string>, title: string, img: Option<string>, dateTitle: Option<string>)

  /** Go's `(string, error)` from goquery's Html(): the text, and the error if rendering failed. */
  datatype Rendered = Rendered(text: string, err: Option<string>)

  /** The goquery side of the scraper: parsing, the listing and detail selectors, the href
      attributes (if any) of the anchors of a fragment, and re-serialising a fragment with its
      anchors' hrefs replaced by the given ones. */
  datatype Page<!D> = Page(
    parse: string -> Result<D, string>,
    items: D -> seq<ListItem>,
    detail: D -> DetailFields,
    anchors: D -> seq<Option<string>>,
    render: (D, seq<string>) -> Rendered)

  const PopularUrls := [
    "https://www.detik.com/terpopuler/news",
    "https://www.detik.com/terpopuler/finance",
    "https://www.detik.com/terpopuler/hot",
    "https://www.detik.com/terpopuler/inet",
    "https://www.detik.com/terpopuler/sport",
    "https://www.detik.com/terpopuler/oto",
    "https://www.detik.com/terpopuler/travel",
    "https://www.detik.com/terpopuler/sepakbola",
    "https://www.detik.com/terpopuler/food",
    "https://www.detik.com/terpopuler/health",
    "https://www.detik.com/terpopuler/edu"
  ]

  const TagMarker := "tag"
  const NoDate := "-"
  const SearchPrefix := "https://www.detik.com/search/searchall?query="
  const SearchSuffix := "&page=1&result_type=latest"

  // ----- Body links -----

  /** A body link is left alone when "tag" occurs anywhere in it; every other link is sent
      through this server's /article endpoint. */
  function RewriteHref(req: Request, lib: UrlLib, href: string): (r: string)
    ensures Strings.Contains(href, TagMarker) ==> r == href
    ensures !Strings.Contains(href, TagMarker) ==> StripProxy(req, r) == Some(lib.queryEscape(href))
  {
    ProxyRoundTrip(req, lib.queryEscape(href), "");
    if Strings.Contains(href, TagMarker) then href else ProxyUrl(req, lib.queryEscape(href))
  }

  /** The hrefs every anchor of the body ends up with; an anchor without one is read as "". */
  function RewriteAll(req: Request, lib: UrlLib, anchors: seq<Option<string>>): (r: seq<string>)
    ensures |r| == |anchors|
    ensures forall i :: 0 <= i < |anchors| ==> r[i] == RewriteHref(req, lib, anchors[i].GetOr(""))
  {
    seq(|anchors|, i requires 0 <= i < |anchors| => RewriteHref(req, lib, anchors[i].GetOr("")))
  }

  /** The test is a plain substring test: "tag" inside any word ("vintage", "stage") keeps the
      link unproxied just as a /tag/ path does. */
  lemma TagAnywhereIsKept(req: Request, lib: UrlLib, before: string, after: string)
    ensures RewriteHref(req, lib, before + TagMarker + after) == before + TagMarker + after
  {
    Strings.ContainsInfix(before, TagMarker, after);
  }

  /** A rewritten link, like a listing link, is https exactly when the request used TLS. */
  lemma RewrittenSchemeFollowsTls(req: Request, lib: UrlLib, href: string)
    requires !Strings.Contains(href, TagMarker)
    ensures var r := RewriteHref(req, lib, href);
            |r| >= 8 && (r[..8] == "https://" <==> req.tls)
  {
    ProxySchemeFollowsTls(req, lib.queryEscape(href));
  }

  // ----- Detail -----

  /** Detail: a transport error, a status other than 200 or a parse failure (of the page or of
      its body) gives an error and an empty article; otherwise the article for `url`, whose
      content is always the re-serialised body, whether or not re-serialising reported an error. */
  function Detail<D>(fetch: string -> Response, page: Page<D>, lib: UrlLib, req: Request, url: string): (r: Reply<Article>)
    ensures Load(fetch, page.parse, url).Failure?
            ==> r == Reply(EmptyArticle, Some(Load(fetch, page.parse, url).error))
    ensures Load(fetch, page.parse, url).Success?
            ==> var f := page.detail(Load(fetch, page.parse, url).value);
                match page.parse(f.body)
                case Failure(reason) => r == Reply(EmptyArticle, Some(ParseFailed(reason)))
                case Success(fragment) =>
                  && r.err == None
                  && r.value.url == url
                  && r.value.title == f.title && r.value.author == f.author && r.value.date == f.date
                  && r.value.imgUrl == f.img.GetOr("")
                  && r.value.shortDesc == "" && r.value.sourceUrl == ""
                  && r.value.content == page.render(fragment, RewriteAll(req, lib, page.anchors(fragment))).text
    ensures r.err.Some? ==> r.value == EmptyArticle
  {
    match Load(fetch, page.parse, url)
    case Failure(e) => Reply(EmptyArticle, Some(e))
    case Success(doc) =>
      var f := page.detail(doc);
      match page.parse(f.body)
      case Failure(reason) => Reply(EmptyArticle, Some(ParseFailed(reason)))
      case Success(fragment) =>
        var rendered := page.render(fragment, RewriteAll(req, lib, page.anchors(fragment)));
        var base := Article(url, f.title, "", f.author, f.date, "", "", f.img.GetOr(""));
        var fallback := if rendered.err.Some? then base.(content := f.body) else base;
        Reply(fallback.(content := rendered.text), None)
  }

  /** A status other than 200 is reported as "error: status code N". */
  lemma DetailBadStatus<D>(fetch: string -> Response, page: Page<D>, lib: UrlLib, req: Request, url: string)
    requires fetch(url).Resp? && fetch(url).status != StatusOk
    ensures Detail(fetch, page, lib, req, url) == Reply(EmptyArticle, Some(BadStatus(fetch(url).status)))
    ensures Message(BadStatus(fetch(url).status))[..|StatusPrefix|] == StatusPrefix
  {
    StatusMessageNamesCode(fetch(url).status);
  }

  // ----- Listing -----

  /** One listing record: the proxied link, the raw link as source, the title, the image, the
      link's host, and the date span's title or "-" when it has none. */
  function ListingRecord(item: ListItem, req: Request, lib: UrlLib): (a: Article)
    ensures a.sourceUrl == item.href.GetOr("")
    ensures StripProxy(req, a.url) == Some(lib.queryEscape(a.sourceUrl))
    ensures a.title == item.title && a.imgUrl == item.img.GetOr("")
    ensures a.date == item.dateTitle.GetOr(NoDate)
    ensures lib.parse(a.sourceUrl).Some? ==> a.shortDesc == lib.parse(a.sourceUrl).value.host
    ensures lib.parse(a.sourceUrl).None? ==> a.shortDesc == ""
    ensures a.author == "" && a.content == ""
  {
    var link := item.href.GetOr("");
    ProxyRoundTrip(req, lib.queryEscape(link), "");
    var parsed := lib.parse(link);
    Article(
      url := ProxyUrl(req, lib.queryEscape(link)),
      title := item.title,
      shortDesc := if parsed.Some? then parsed.value.host else "",
      author := "",
      date := item.dateTitle.GetOr(NoDate),
      sourceUrl := link,
      content := "",
      imgUrl := item.img.GetOr(""))
  }

  /** fetchArticlesDetik: one record per list item, in document order. */
  function Listing(items: seq<ListItem>, req: Request, lib: UrlLib): (r: seq<Article>)
    ensures |r| == |items|
    ensures forall i :: 0 <= i < |items| ==> r[i] == ListingRecord(items[i], req, lib)
  {
    seq(|items|, i requires 0 <= i < |items| => ListingRecord(items[i], req, lib))
  }

  /** Listing links are https exactly when the request used TLS. */
  lemma ListingSchemeFollowsTls(item: ListItem, req: Request, lib: UrlLib)
    ensures var u := ListingRecord(item, req, lib).url;
            |u| >= 8 && (u[..8] == "https://" <==> req.tls)
  {
    ProxySchemeFollowsTls(req, lib.queryEscape(item.href.GetOr("")));
  }

  function Extractor<D>(page: Page<D>, lib: UrlLib): (D, Request) -> seq<Article>
  {
    (doc: D, req: Request) => Listing(page.items(doc), req, lib)
  }

  // ----- Search and Popular -----

  /** The search page for a keyword, with the keyword inserted as is, unescaped. */
  function SearchUrl(keyword: string): (u: string)
    ensures |u| == |SearchPrefix| + |keyword| + |SearchSuffix|
    ensures u[..|SearchPrefix|] == SearchPrefix && u[|SearchPrefix| + |keyword|..] == SearchSuffix
    ensures u[|SearchPrefix|..|SearchPrefix| + |keyword|] == keyword
  {
    SearchPrefix + keyword + SearchSuffix
  }

  /** Different keywords ask for different pages. */
  lemma SearchUrlInjective(k1: string, k2: string)
    requires SearchUrl(k1) == SearchUrl(k2)
    ensures k1 == k2
  {
    var s := SearchUrl(k1);
    assert |k1| == |k2|;
    assert k1 == s[|SearchPrefix|..|SearchPrefix| + |k1|];
    assert k2 == SearchUrl(k2)[|SearchPrefix|..|SearchPrefix| + |k2|];
  }

  /** Search: the search page's listing, or an error and no articles when the page cannot be
      fetched, answers with another status than 200, or does not parse. */
  function Search<D>(fetch: string -> Response, page: Page<D>, lib: UrlLib, req: Request, keyword: string): (r: Reply<seq<Article>>)
    ensures Load(fetch, page.parse, SearchUrl(keyword)).Failure?
            ==> r == Reply([], Some(Load(fetch, page.parse, SearchUrl(keyword)).error))
    ensures Load(fetch, page.parse, SearchUrl(keyword)).Success?
            ==> r == Reply(Listing(page.items(Load(fetch, page.parse, SearchUrl(keyword)).value), req, lib), None)
    ensures r.err.None? <==> fetch(SearchUrl(keyword)).Resp? && fetch(SearchUrl(keyword)).status == StatusOk
                             && page.parse(fetch(SearchUrl(keyword)).body).Success?
  {
    match Load(fetch, page.parse, SearchUrl(keyword))
    case Failure(e) => Reply([], Some(e))
    case Success(doc) => Reply(Listing(page.items(doc), req, lib), None)
  }

  /** Popular: the aggregate over the eleven category pages; never an error, and it holds every
      article of every category page that loaded, each exactly once per occurrence. */
  function Popular<D>(fetch: string -> Response, page: Page<D>, lib: UrlLib, req: Request, order: seq<nat>): (r: Reply<seq<Article>>)
    requires Scrape.IsArrivalOrder(order, |PopularUrls|)
    ensures r.err == None
    ensures r.value == Scrape.Gathered(fetch, page.parse, Extractor(page, lib), PopularUrls, req, order)
    ensures multiset(r.value) == multiset(Seqs.Flatten(Scrape.Contributions(fetch, page.parse, Extractor(page, lib), req, PopularUrls)))
  {
    Reply(Scrape.Gathered(fetch, page.parse, Extractor(page, lib), PopularUrls, req, order), None)
  }

  /** The popular pages are eleven distinct category pages. */
  lemma PopularUrlsAreElevenCategories()
    ensures |PopularUrls| == 11
    ensures forall i, j :: 0 <= i < j < |PopularUrls| ==> PopularUrls[i] != PopularUrls[j]
  {
  }

  /** When no category page loads, Popular is an empty list and still no error. */
  lemma PopularAllFailed<D>(fetch: string -> Response, page: Page<D>, lib: UrlLib, req: Request, order: seq<nat>)
    requires Scrape.IsArrivalOrder(order, |PopularUrls|)
    requires forall i :: 0 <= i < |PopularUrls| ==> Load(fetch, page.parse, PopularUrls[i]).Failure?
    ensures Popular(fetch, page, lib, req, order) == Reply([], None)
  {
    Scrape.AllFailedIsEmpty(fetch, page.parse, Extractor(page, lib), PopularUrls, req, order);
  }
}
