/** The fan-out/fan-in aggregator (utils/scrape_utils.go), modelled by its outcome: one
    contribution per URL, concatenated in the order the contributions arrive. */
module Scrape {
  import opened Wrappers
  import opened Models
  import opened Fetch
  import opened Seqs

  /** What one worker sends on the channel: nothing when the fetch fails, the status is not
      200 or the body does not parse; otherwise the extractor's articles for the document. */
  function Contribution<D, C>(fetch: string -> Response, parse: string -> Result<D, string>,
                              extract: (D, C) -> seq<Article>, ctx: C, url: string): (r: seq<Article>)
    ensures fetch(url).TransportErr? ==> r == []
    ensures fetch(url).Resp? && fetch(url).status != StatusOk ==> r == []
    ensures fetch(url).Resp? && parse(fetch(url).body).Failure? ==> r == []
    ensures fetch(url).Resp? && fetch(url).status == StatusOk && parse(fetch(url).body).Success?
            ==> r == extract(parse(fetch(url).body).value, ctx)
  {
    match Load(fetch, parse, url)
    case Failure(_) => []
    case Success(doc) => extract(doc, ctx)
  }

  /** The contributions of the URLs, in URL order. */
  function Contributions<D, C>(fetch: string -> Response, parse: string -> Result<D, string>,
                               extract: (D, C) -> seq<Article>, ctx: C, urls: seq<string>): (r: seq<seq<Article>>)
    ensures |r| == |urls|
    ensures forall i :: 0 <= i < |urls| ==> r[i] == Contribution(fetch, parse, extract, ctx, urls[i])
  {
    seq(|urls|, i requires 0 <= i < |urls| => Contribution(fetch, parse, extract, ctx, urls[i]))
  }

  /** `order` lists the URL indices in the order the workers finish: each index exactly once. */
  predicate IsArrivalOrder(order: seq<nat>, n: nat)
  {
    multiset(order) == multiset(Range(n))
  }

  /** The fan-in's result: the contributions, each one whole, in arrival order. Whatever the
      order, it holds every contributed article exactly as often as the contributions do. */
  function Gathered<D, C>(fetch: string -> Response, parse: string -> Result<D, string>,
                          extract: (D, C) -> seq<Article>, urls: seq<string>, ctx: C, order: seq<nat>): (r: seq<Article>)
    requires IsArrivalOrder(order, |urls|)
    ensures multiset(r) == multiset(Flatten(Contributions(fetch, parse, extract, ctx, urls)))
    ensures |r| == |Flatten(Contributions(fetch, parse, extract, ctx, urls))|
  {
    var blocks := Contributions(fetch, parse, extract, ctx, urls);
    PermutedFlatten(order, blocks);
    assert |multiset(Flatten(Pick(order, blocks)))| == |multiset(Flatten(blocks))|;
    Flatten(Pick(order, blocks))
  }

  /** FetchListArticles: receive one contribution per URL, in arrival order, appending each. */
  method FetchListArticles<D, C>(extract: (D, C) -> seq<Article>, fetch: string -> Response,
                                 parse: string -> Result<D, string>, urls: seq<string>, ctx: C,
                                 order: seq<nat>) returns (list: seq<Article>)
    requires IsArrivalOrder(order, |urls|)
    ensures list == Gathered(fetch, parse, extract, urls, ctx, order)
    ensures multiset(list) == multiset(Flatten(Contributions(fetch, parse, extract, ctx, urls)))
  {
    ghost var blocks := Contributions(fetch, parse, extract, ctx, urls);
    PermutationBounds(order, |urls|);
    list := [];
    var k := 0;
    while k < |order|
      invariant 0 <= k <= |order|
      invariant list == Flatten(Pick(order[..k], blocks))
    {
      var received := Contribution(fetch, parse, extract, ctx, urls[order[k]]);
      list := list + received;
      assert Pick(order[..k + 1], blocks)[..k] == Pick(order[..k], blocks);
      k := k + 1;
    }
    assert order[..|order|] == order;
  }

  /** Every URL's contribution appears in the result as one contiguous run. */
  lemma ContributionIsContiguous<D, C>(fetch: string -> Response, parse: string -> Result<D, string>,
                                       extract: (D, C) -> seq<Article>, urls: seq<string>, ctx: C,
                                       order: seq<nat>, i: nat)
    requires IsArrivalOrder(order, |urls|)
    requires i < |urls|
    ensures exists off :: InfixAt(Gathered(fetch, parse, extract, urls, ctx, order),
                                  Contribution(fetch, parse, extract, ctx, urls[i]), off)
  {
    var blocks := Contributions(fetch, parse, extract, ctx, urls);
    PermutationBounds(order, |urls|);
    RangeCount(|urls|, i);
    assert i in multiset(order);
    BlockIsContiguous(order, blocks, i);
    assert Gathered(fetch, parse, extract, urls, ctx, order) == Flatten(Pick(order, blocks));
    var off :| InfixAt(Flatten(Pick(order, blocks)), blocks[i], off);
    assert InfixAt(Gathered(fetch, parse, extract, urls, ctx, order),
                   Contribution(fetch, parse, extract, ctx, urls[i]), off);
  }

  /** Each URL is received from exactly once. This follows from the arrival-order hypothesis;
      that a worker sends exactly once on every exit path is what makes Contribution a total
      function of its URL. */
  lemma EachUrlArrivesOnce(order: seq<nat>, n: nat, i: nat)
    requires IsArrivalOrder(order, n)
    requires i < n
    ensures multiset(order)[i] == 1
  {
    RangeCount(n, i);
  }

  /** With the workers finishing in URL order, the result is the contributions in URL order. */
  lemma InOrderArrival<D, C>(fetch: string -> Response, parse: string -> Result<D, string>,
                             extract: (D, C) -> seq<Article>, urls: seq<string>, ctx: C)
    ensures IsArrivalOrder(Range(|urls|), |urls|)
    ensures Gathered(fetch, parse, extract, urls, ctx, Range(|urls|))
            == Flatten(Contributions(fetch, parse, extract, ctx, urls))
  {
    var blocks := Contributions(fetch, parse, extract, ctx, urls);
    assert Pick(Range(|urls|), blocks) == blocks;
  }

  /** No URLs, or only failing ones, give an empty list and no error. */
  lemma AllFailedIsEmpty<D, C>(fetch: string -> Response, parse: string -> Result<D, string>,
                               extract: (D, C) -> seq<Article>, urls: seq<string>, ctx: C, order: seq<nat>)
    requires IsArrivalOrder(order, |urls|)
    requires forall i :: 0 <= i < |urls| ==> Load(fetch, parse, urls[i]).Failure?
    ensures Gathered(fetch, parse, extract, urls, ctx, order) == []
  {
    var blocks := Contributions(fetch, parse, extract, ctx, urls);
    FlattenOfEmpties(blocks);
    var r := Gathered(fetch, parse, extract, urls, ctx, order);
    assert |r| == 0;
  }

  /** When every URL but one fails, the result is exactly the surviving URL's articles, in
      whatever order the workers finish. */
  lemma OneSurvivor<D, C>(fetch: string -> Response, parse: string -> Result<D, string>,
                          extract: (D, C) -> seq<Article>, urls: seq<string>, ctx: C, order: seq<nat>, j: nat)
    requires IsArrivalOrder(order, |urls|)
    requires j < |urls|
    requires forall i :: 0 <= i < |urls| && i != j ==> Load(fetch, parse, urls[i]).Failure?
    ensures Gathered(fetch, parse, extract, urls, ctx, order) == Contribution(fetch, parse, extract, ctx, urls[j])
  {
    var blocks := Contributions(fetch, parse, extract, ctx, urls);
    PermutationBounds(order, |urls|);
    EachUrlArrivesOnce(order, |urls|, j);
    SingleSurvivor(order, blocks, j);
  }

  /** Three sources: one transport error, one status 500, one good page with two articles.
      The result is those two articles, for every arrival order, and there is no error. */
  lemma MixedFailures(order: seq<nat>, a1: Article, a2: Article)
    requires IsArrivalOrder(order, 3)
    ensures Gathered((u: string) => if u == "a" then TransportErr("connection refused")
                                    else if u == "b" then Resp(500, "")
                                    else Resp(200, "<html/>"),
                     (body: string) => Result<string, string>.Success(body),
                     (doc: string, ctx: int) => [a1, a2],
                     ["a", "b", "c"], 0, order) == [a1, a2]
  {
    var fetch := (u: string) => if u == "a" then TransportErr("connection refused")
                                else if u == "b" then Resp(500, "")
                                else Resp(200, "<html/>");
    var parse := (body: string) => Result<string, string>.Success(body);
    var extract := (doc: string, ctx: int) => [a1, a2];
    OneSurvivor(fetch, parse, extract, ["a", "b", "c"], 0, order, 2);
  }
}
