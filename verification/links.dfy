/** The proxied article link both parsers build: scheme://host/article?detailUrl=<escaped link>. */
module Links {
  import opened Wrappers

  /** The parts of the incoming request the parsers read: whether it came over TLS, and its Host. */
  datatype Request = Request(tls: bool, host: string)

  /** The parts of a `url.Parse` result the parsers read. */
  datatype Url = Url(host: string, path: string)

  /** The two library calls the parsers make on links, left uninterpreted:
      `url.QueryEscape` and `url.Parse` (None when it returns an error). */
  datatype UrlLib = UrlLib(queryEscape: string -> string, parse: string -> Option<Url>)

  const ArticleRoute := "/article?detailUrl="

  /** "https" exactly when the request used TLS, "http" otherwise. */
  function Scheme(req: Request): (s: string)
    ensures s == "https" <==> req.tls
    ensures s == "http" <==> !req.tls
  {
    if req.tls then "https" else "http"
  }

  function ProxyPrefix(req: Request): string
  {
    Scheme(req) + "://" + req.host + ArticleRoute
  }

  /** The link to this server's /article endpoint for an already escaped source link. */
  function ProxyUrl(req: Request, escaped: string): (link: string)
    ensures StripProxy(req, link) == Some(escaped)
  {
    var p := ProxyPrefix(req);
    assert (p + escaped)[..|p|] == p;
    assert (p + escaped)[|p|..] == escaped;
    ProxyPrefix(req) + escaped
  }

  /** The escaped source link inside a proxied link, if `link` is one for this request. */
  function StripProxy(req: Request, link: string): Option<string>
  {
    var p := ProxyPrefix(req);
    if |p| <= |link| && link[..|p|] == p then Some(link[|p|..]) else None
  }

  /** A proxied link gives back exactly the escaped link it was built from, and only
      proxied links give anything back. */
  lemma ProxyRoundTrip(req: Request, escaped: string, link: string)
    ensures StripProxy(req, ProxyUrl(req, escaped)) == Some(escaped)
    ensures StripProxy(req, link) == Some(escaped) ==> link == ProxyUrl(req, escaped)
  {
    var p := ProxyPrefix(req);
    assert (p + escaped)[..|p|] == p;
    assert (p + escaped)[|p|..] == escaped;
    if StripProxy(req, link) == Some(escaped) {
      assert link == link[..|p|] + link[|p|..];
    }
  }

  /** The proxied link starts with "https://" exactly when the request used TLS. */
  lemma ProxySchemeFollowsTls(req: Request, escaped: string)
    ensures var link := ProxyUrl(req, escaped);
            |link| >= 8 && (link[..8] == "https://" <==> req.tls)
  {
    var link := ProxyUrl(req, escaped);
    if req.tls {
      assert link[..8] == "https://";
    } else {
      assert link[4] == ':';
    }
  }
}
