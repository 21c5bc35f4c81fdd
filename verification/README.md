# gober news scraper: a Dafny model of its core

gober is a small Go web service. It scrapes Indonesian news sites (Detik and Kompas) and serves
article listings, searches and article details as JSON. This project models the core of that
service:

- **The TTL cache** (`utils/cache_utils.go`). It maps a key to a value with an expiry instant.
  A read hits while the clock is not after the expiry. The map is modelled as a Dafny `map`
  with an explicit nanosecond clock (`TtlCache`).
- **The fan-out/fan-in aggregator** (`utils/scrape_utils.go`):
  - One worker per URL fetches the page, checks for status 200, parses it and extracts
    articles. A worker that fails contributes nothing.
  - The collector concatenates the contributions in the order they arrive.
  - The arrival order is a parameter: any permutation of the URL indices (`Scrape`).
- **The Kompas scraper** (`parsers/kompas_parser.go`):
  - cache-through `Popular`, which caches only non-empty results;
  - cache-through `Detail`;
  - `Search`, which always refuses;
  - the listing record, including the `HH:MM` taken from the second-to-last path piece of the
    article link (`Kompas`).
- **The Detik scraper** (`parsers/detik_parser.go`):
  - the error paths of `Detail` and `Search`;
  - the rewriting of body links through this server's `/article?detailUrl=` route, skipped
    when the link contains `"tag"`;
  - the eleven-page `Popular` aggregate;
  - the listing record, whose date falls back to `"-"` (`Detik`).

The network, the HTML parser (goquery), `url.QueryEscape`, `url.Parse` and the clock are
parameters of the model:

- A page fetch is a function `string -> Response`: either a transport error, or a status
  and a body.
- Parsing is `string -> Result<D, string>`.
- The CSS selectors are functions from the parsed document to plain records.
- Each call takes the instant it reads the cache (`now`) and the instant it writes (`doneAt`).
- Kompas results also record the URLs fetched. This makes "served from cache without a fetch"
  something a contract can state.

The cache reads and writes against a value of the map, so nothing is ever evicted. An expired
entry stays in the map until it is overwritten. This is what the Go code does: its `Get`
only reports a miss. `TtlCache.UnwrittenEntryPersists` states it.

Go's `interface{}` cache values and the type assertions Kompas makes on them are modelled as
follows:

- The values are a two-case datatype `CacheVal`.
- The assertions are the preconditions `HoldsList` and `HoldsItem`.
- `WellTyped` is the invariant under which both assertions succeed.

The Detik body rewrite has a fallback: when re-serialising the rewritten fragment reports an
error, it sets the content to the original body. The very next statement overwrites it, so
the content is always the re-serialised text. `Detik.Detail` states this. The Detik search URL
inserts the keyword unescaped, and `Detik.SearchUrl` does the same.

## Model

| member | source | states |
|---|---|---|
| TtlCache.NewCache | utils/cache_utils.go:19-21 | a new cache holds no entries |
| TtlCache.Get | utils/cache_utils.go:23-41 | a hit exactly when the key is present and the clock is not after its expiry, and the hit returns the stored data |
| TtlCache.Set | utils/cache_utils.go:43-52 | the key's entry becomes (value, now + ttl); every other key keeps its entry; the key set grows by this key only |
| TtlCache.NewCacheMisses | utils/cache_utils.go:19-32 | a fresh cache misses on every key at every time |
| TtlCache.ReadYourWrite | utils/cache_utils.go:23-52 | a written value is read back up to and including its expiry instant, and misses after it |
| TtlCache.SetReplaces | utils/cache_utils.go:47-50 | a second write to a key replaces both value and expiry; nothing of the first write survives |
| TtlCache.SetIsolation | utils/cache_utils.go:43-52 | writing one key never changes what another key reads |
| TtlCache.MissIsAmbiguous | utils/cache_utils.go:27-37 | an expired entry and a never-written key give the same miss |
| TtlCache.MissStaysMiss | utils/cache_utils.go:34-37 | once a key misses, it keeps missing as the clock advances, until it is written again |
| TtlCache.LookupsNeverMutate | utils/cache_utils.go:23-52 | carries the definition of a lookup step (it leaves the map as it is) over a whole trace: only the writes decide the final map. That a read cannot mutate is Get's signature, not this lemma |
| TtlCache.UnwrittenEntryPersists | utils/cache_utils.go:23-41 | an entry that no call writes stays exactly as it was, even once expired: reads never evict |
| TtlCache.ReadYourWritesInTrace | utils/cache_utils.go:23-52 | after a write, later lookups of that key see the value until its expiry, whatever other keys are written in between |
| Fetch.StatusMessageNamesCode | parsers/kompas_parser.go:57-59 | the status error text is "error: status code " followed by the code, and the code can be read back from it |
| Fetch.Load | parsers/kompas_parser.go:52-64 | a transport error, a status other than 200 and a parse failure each produce their own error; success exactly when all three checks pass |
| Links.Scheme | parsers/detik_parser.go:57-60 | "https" exactly when the request came over TLS, "http" exactly when it did not |
| Links.ProxyRoundTrip | parsers/detik_parser.go:61 | a proxied link gives back the escaped link it was built from, and only that link does |
| Links.ProxySchemeFollowsTls | parsers/detik_parser.go:129-133 | a proxied link starts with "https://" exactly when the request used TLS |
| Strings.Split | parsers/kompas_parser.go:108 | strings.Split always returns at least one piece |
| Strings.Contains | parsers/detik_parser.go:56 | strings.Contains: a match needs the substring to fit, and the empty substring is in every string |
| Strings.IntToString | parsers/detik_parser.go:27 | the %d rendering is non-empty and starts with a minus sign exactly for a negative int |
| Links.ProxyUrl | parsers/detik_parser.go:61 | the proxied link is this request's /article prefix with the escaped link after it, which StripProxy gives back |
| Fetch.Message | parsers/kompas_parser.go:58 | the status error's text starts with "error: status code " and continues past it |
| Strings.JoinSplit | parsers/kompas_parser.go:108 | joining the pieces of strings.Split with the separator restores the string |
| Strings.SplitPiecesFree | parsers/kompas_parser.go:108 | no piece of strings.Split contains the separator |
| Strings.SplitFree | parsers/kompas_parser.go:108 | a string without the separator splits into itself alone |
| Strings.SplitAround | parsers/kompas_parser.go:108 | splitting a + sep + b gives the pieces of a followed by the pieces of b |
| Strings.SecondToLastPiece | parsers/kompas_parser.go:108-109 | for any prefix + "/" + seg + "/" + last with no slash in seg or last, the second-to-last piece is seg |
| Strings.ContainsIff | parsers/detik_parser.go:56 | strings.Contains holds exactly when the substring occurs at some position, in both directions |
| Strings.IntRoundTrip | parsers/detik_parser.go:27 | the %d rendering of any int reads back as that int |
| Scrape.Contribution | utils/scrape_utils.go:37-60 | a transport error, a non-200 status and a parse failure each contribute nothing; otherwise the worker contributes the extractor's articles for the parsed page |
| Scrape.Contributions | utils/scrape_utils.go:19-22 | one contribution per URL, each the contribution of that URL |
| Scrape.Gathered | utils/scrape_utils.go:12-35 | for every arrival order, the result holds the contributed articles as a multiset, with the same length |
| Scrape.FetchListArticles | utils/scrape_utils.go:12-35 | the collecting loop appends whole contributions in arrival order, and the result is a permutation of all contributions |
| Scrape.ContributionIsContiguous | utils/scrape_utils.go:30-33 | each URL's contribution appears in the result as one contiguous run |
| Scrape.EachUrlArrivesOnce | utils/scrape_utils.go:19-22 | each URL index occurs exactly once in an arrival order; this follows from the arrival-order hypothesis, and the single send on every exit path of the worker (utils/scrape_utils.go:37-60) is modelled by Contribution being a total function |
| Scrape.InOrderArrival | utils/scrape_utils.go:12-35 | when workers finish in URL order, the result is the contributions in URL order |
| Scrape.AllFailedIsEmpty | utils/scrape_utils.go:37-60 | when every URL fails, the result is empty |
| Scrape.OneSurvivor | utils/scrape_utils.go:12-60 | when all URLs but one fail, the result is exactly that URL's articles, for every arrival order |
| Scrape.MixedFailures | utils/scrape_utils.go:41-59 | a transport error, a status 500 and one good page with two articles give exactly those two articles in any order |
| Kompas.Search | parsers/kompas_parser.go:22-24 | always no articles and the "KompasScraper Search is not supported" error |
| Kompas.DateSlicesInBounds | parsers/kompas_parser.go:103-111 | holds exactly when the link does not parse, or its path splits into at least two pieces with a second-to-last piece of at least four characters, so su[len(su)-2], at[0:2] and at[2:4] stay in bounds |
| Kompas.ListingRecordAsWritten | parsers/kompas_parser.go:90-120 | the code's record: when the link parses, the date is the post date followed by HH:MM from the path's time piece; when it does not parse, the date stays empty |
| Kompas.ListingRecord | parsers/kompas_parser.go:90-120 | source link + "?page=all", proxied link, title, image, host of the parsed link; the date is set only when the path carries a time piece |
| Kompas.ListingRecordAgrees | parsers/kompas_parser.go:103-112 | wherever the code's slicing is in bounds, the corrected record equals the code's record |
| Kompas.RootPathHasNoTime | parsers/kompas_parser.go:108-111 | a path "/slug" has no second-to-last piece of four characters |
| Kompas.RootLevelLinkPanics | parsers/kompas_parser.go:108-111 | a root-level article link makes the code's slicing go out of bounds; the corrected record has an empty date |
| Kompas.DateFromPath | parsers/kompas_parser.go:108-112 | for a path .../piece/slug, the date is the post date + ", " + HH:MM from the piece + " WIB" |
| Kompas.TestItemListingDate | parsers/kompas_parser.go:103-112 | the repository's test article (posted 26/12/2024, path .../12015311/slug) is dated "26/12/2024, 12:01 WIB" |
| Kompas.Listing | parsers/kompas_parser.go:85-126 | one corrected record per article item, in document order (see the Left out line for Kompas.Listing) |
| Kompas.ListingAsWritten | parsers/kompas_parser.go:85-126 | the code's listing, defined only when no item's date slicing goes out of bounds: one as-written record per item, in document order |
| Kompas.ListingAgrees | parsers/kompas_parser.go:103-112 | wherever the code's listing does not panic, the corrected listing equals it |
| Kompas.MissingHrefPanics | parsers/kompas_parser.go:90-109 | an item without an href gives the link "?page=all", whose empty path has one piece, so the code's su[len(su)-2] is out of range; the corrected date is empty |
| Kompas.Aggregate | parsers/kompas_parser.go:32-37 | the aggregate over the two popular pages holds every listed article of every page that loaded, whatever the arrival order |
| Kompas.TimePiece | parsers/kompas_parser.go:108-109 | the second-to-last "/" piece of the path has at least four characters and no slash |
| Kompas.ListingDate | parsers/kompas_parser.go:110-112 | the date is the post date, then the piece's first two characters, then its next two, eleven characters longer than the post date |
| Kompas.DetailKeyAsWritten | parsers/kompas_parser.go:48 | the code's key "kompas:" + url equals the popular key exactly when the URL is "popular" |
| Kompas.HoldsList | parsers/kompas_parser.go:27-29 | the type assertion on the popular entry succeeds: holds exactly when the popular key is absent, expired, or stores a list |
| Kompas.HoldsItem | parsers/kompas_parser.go:48-49 | the type assertion on a detail entry succeeds: holds exactly when the key is absent, expired, or stores an article |
| Kompas.Popular | parsers/kompas_parser.go:26-45 | a live cached list is returned with no fetch; otherwise both pages are aggregated and the result is cached for five minutes only if non-empty; never an error; other keys untouched; a well-typed cache stays well typed |
| Kompas.FetchDetail | parsers/kompas_parser.go:52-79 | the fetch errors give an empty article and the error; otherwise the article's URL, title, author, date, image and content come from the page |
| Kompas.CacheThrough | parsers/kompas_parser.go:47-83 | a live entry is served with no fetch; on a miss, one fetch; an error writes nothing; a success returns the article built from the page and stores it under its key for five minutes |
| Kompas.DetailAsWritten | parsers/kompas_parser.go:47-83 | with the code's key "kompas:" + url, a miss returns the article and error built from the page, and a successful miss stores that article under that key |
| Kompas.DetailKey | parsers/kompas_parser.go:48 | the corrected detail key can never equal the popular list's key |
| Kompas.Detail | parsers/kompas_parser.go:47-83 | a miss returns the article and error built from the page; a successful miss stores that article under its own key; never touches the popular list's entry; keeps a well-typed cache well typed |
| Kompas.PopularHitIgnoresNetwork | parsers/kompas_parser.go:27-30 | a hit gives the same result whatever the network would answer, and fetches nothing |
| Kompas.PopularServedFromCache | parsers/kompas_parser.go:37-43 | after a non-empty aggregate, a later call before expiry returns the same list with no fetch |
| Kompas.EmptyPopularRetries | parsers/kompas_parser.go:40-42 | an empty aggregate is not cached, so the next call fetches both pages again |
| Kompas.DetailFetchesOnce | parsers/kompas_parser.go:48-81 | two Detail calls before expiry fetch once in all and return the same article |
| Kompas.DetailErrorWritesNothing | parsers/kompas_parser.go:57-59 | a 404 reports a status error and leaves the cache as it was |
| Kompas.NewCacheWellTyped | utils/cache_utils.go:19-21 | an empty cache is well typed |
| Kompas.WellTypedAssertionsHold | parsers/kompas_parser.go:27-49 | in a well-typed cache both type assertions succeed, for every URL |
| Kompas.PopularKeepsWellTyped | parsers/kompas_parser.go:29-42 | on a well-typed cache, Popular's type assertion succeeds and the cache stays well typed |
| Kompas.DetailKeepsWellTyped | parsers/kompas_parser.go:48-81 | on a well-typed cache, the corrected Detail's type assertion succeeds and the cache stays well typed |
| Kompas.AsWrittenKeysCollide | parsers/kompas_parser.go:48 | the code's detail key for the URL "popular" is the popular list's key |
| Kompas.PopularThenDetailPanics | parsers/kompas_parser.go:41-49 | after Popular caches a list, the code's Detail("popular") finds the list under its key, so its type assertion fails |
| Kompas.DetailThenPopularPanics | parsers/kompas_parser.go:27-81 | after the code's Detail("popular") succeeds, Popular finds an article under its key, so its type assertion fails; the success needs a client that answers the scheme-less URL "popular", which net/http refuses |
| Detik.RewriteHref | parsers/detik_parser.go:54-64 | a link containing "tag" is kept unchanged; any other link becomes the proxied link of its escaped form |
| Detik.RewriteAll | parsers/detik_parser.go:54-64 | every anchor's new href is its rewrite, and an anchor without an href counts as "" |
| Detik.TagAnywhereIsKept | parsers/detik_parser.go:56 | "tag" anywhere in a link, even inside a word, keeps it unproxied |
| Detik.RewrittenSchemeFollowsTls | parsers/detik_parser.go:57-61 | a rewritten body link is https exactly when the request used TLS |
| Detik.Detail | parsers/detik_parser.go:18-73 | the fetch and fragment-parse errors give an empty article and the error; otherwise URL, title, author, date and image come from the page, description and source URL stay empty, and the content is always the re-serialised rewritten body |
| Detik.DetailBadStatus | parsers/detik_parser.go:26-28 | a status other than 200 gives an empty article and "error: status code N" |
| Detik.ListingRecord | parsers/detik_parser.go:116-147 | proxied link, raw link as source, title, image, host when the link parses, and the date span's title or "-" |
| Detik.Listing | parsers/detik_parser.go:114-150 | one record per list item, in document order |
| Detik.ListingSchemeFollowsTls | parsers/detik_parser.go:129-133 | a listing link is https exactly when the request used TLS |
| Detik.SearchUrl | parsers/detik_parser.go:76 | the search URL is the fixed prefix, the keyword verbatim and unescaped, then the fixed suffix |
| Detik.SearchUrlInjective | parsers/detik_parser.go:76 | different keywords request different search pages |
| Detik.Search | parsers/detik_parser.go:75-94 | the search page's listing, or no articles and the fetch error; no error exactly when the fetch, the status and the parse all succeed |
| Detik.Popular | parsers/detik_parser.go:96-112 | never an error, and the result holds every article of every loaded category page as a multiset |
| Detik.PopularUrlsAreElevenCategories | parsers/detik_parser.go:97-109 | eleven distinct category pages |
| Detik.PopularAllFailed | parsers/detik_parser.go:96-112 | when no category page loads, the result is an empty list and no error |

## Left out

- Goroutines, the channel and the WaitGroup are left out. The model keeps only their outcome: one contribution per URL, concatenated in an arrival order given as a parameter.
- The cache's RWMutex is left out. Each cache call is modelled as atomic, and the calls form a sequence (`TtlCache.Replay`).
- `time.Now` is left out. The read instant `now` and the write instant `doneAt` are parameters, in nanoseconds as Go's `time.Duration` counts them.
- `http.Get` and the `HTTPClient` wrapper (a different client in each parser) are left out. Both become one fetch function. Body-read errors are transport errors.
- goquery's parsing, its CSS selectors and `Html()` rendering are left out. They are functions supplied as parameters.
- The `Html()` error at detik_parser.go:47 and kompas_parser.go:78 is ignored by the source; the model takes the body text as given.
- `url.QueryEscape` and `url.Parse` are left out. Both are uninterpreted functions (`Links.UrlLib`).
- The gin request context is reduced to the two fields the parsers read: TLS yes/no and Host.
- Logging is left out.
- main.go (routing, server start), the Vue front end, scraper.go's interface and the test mocks are not part of this model.
- The Detik tests in parsers/parser_test.go exercise a scraper with an injected client and cache. That is not the Detik scraper modelled here, so they are not used.
- Strings are sequences of characters, while Go slices bytes. Kompas's `at[0:2]` and `at[2:4]` agree with the model on ASCII time pieces. A path piece with multi-byte characters is not modelled byte by byte.
- models/article.go in this copy has no ImgUrl field, but both parsers assign one, so `Models.Article` includes it.
- Scrape.Gathered states its result's multiset and length. The exact sequence, the contributions picked in arrival order, is stated by Scrape.FetchListArticles and Scrape.ContributionIsContiguous.
- Kompas.Listing: it and Kompas.Popular use the corrected record. Wherever DateSlicesInBounds fails for an item, the code panics inside the aggregator's worker instead: a root-level link, or an item with no href. The model returns a record with an empty date. Kompas.ListingAsWritten and Kompas.ListingAgrees relate the two where the code does not panic. A panic inside the worker is not modelled.
- Detik.Popular: its multiset contract does not say which category page each article came from. Scrape.ContributionIsContiguous says it for the general aggregator.

## Findings

| source | as written | input that shows it | evidently intended | confidence | as-written member | corrected member |
|---|---|---|---|---|---|---|
| parsers/kompas_parser.go:48 | Detail caches under "kompas:" + url, the same namespace as the popular list's "kompas:popular". The type assertions at :29 and :49 then meet a value of the other type. | a Detail request for the URL "popular" after a Popular that cached a list; the reverse order also fails, but only with a client that answers the scheme-less URL "popular", which net/http refuses | article keys that cannot collide with the popular key, so both assertions always succeed | not executed | Kompas.PopularThenDetailPanics | Kompas.Detail |
| parsers/kompas_parser.go:108-111 | the listing date always slices [0:2] and [2:4] from the second-to-last path piece | a root-level link such as https://jeo.kompas.com/mencari-harimau-jawa-antara-ada-dan-tiada (parsers/parser_test.go:483): the pieces are "" and the slug, so `at[0:2]` is out of bounds | a record without a time when the path has none; the repository's test for that link expects two records and no error | not executed | Kompas.RootLevelLinkPanics | Kompas.ListingRecord |

Both findings have proofs on both sides:

- The first finding's as-written model is Kompas.DetailAsWritten. Kompas.DetailThenPopularPanics shows the other order of calls. Kompas.Detail and Kompas.Popular keep the cache well typed, and Kompas.WellTypedAssertionsHold shows both type assertions succeed on a well-typed cache.
- The second finding's as-written model is Kompas.ListingRecordAsWritten. Kompas.ListingRecordAgrees shows that the corrected record differs only where the code panics.
