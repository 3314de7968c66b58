/** How the header turns the selected provider and the search text into the
    backend request URL. */
module Request {
  import opened Wrappers
  import opened JsString

  /** The backend base URL and access token, fixed at build time. */
  datatype Config = Config(apiUrl: string, apiToken: string)

  /** What a query asks the backend for: the caller's own address (blank
      query, sent when a provider is chosen before any search), an IP
      address, or a domain name. */
  datatype QueryKind = OwnAddress | ByIp | ByDomain

  /** Classifies a query. Blankness is judged on the trimmed text, but the
      IP test (the `ip-regex` exact matcher, passed in as `isExactIp`) sees
      the query as given. Exactly one kind applies to every query. */
  function Classify(query: string, isExactIp: string -> bool): (k: QueryKind)
    ensures k == OwnAddress <==> AllWhiteSpace(query)
    ensures k == ByIp <==> !AllWhiteSpace(query) && isExactIp(query)
    ensures k == ByDomain <==> !AllWhiteSpace(query) && !isExactIp(query)
  {
    if Trim(query) == "" then OwnAddress
    else if isExactIp(query) then ByIp
    else ByDomain
  }

  /** The part of the URL every request shares. */
  function BaseUrl(cfg: Config, api: string): string {
    cfg.apiUrl + "?token=" + cfg.apiToken + "&api=" + api
  }

  predicate HasPrefix(s: string, p: string) {
    |p| <= |s| && s[..|p|] == p
  }

  /** The lookup the tail of a URL asks for. */
  datatype Param = Param(kind: QueryKind, value: string)

  /** Reads the text after the base URL back as a lookup: nothing means the
      caller's own address, `&ip=` and `&domain=` carry the query verbatim. */
  function ParseParam(rest: string): Option<Param> {
    if rest == [] then Some(Param(OwnAddress, []))
    else if HasPrefix(rest, "&ip=") then Some(Param(ByIp, rest[4..]))
    else if HasPrefix(rest, "&domain=") then Some(Param(ByDomain, rest[8..]))
    else None
  }

  /** The lookup a query should produce: its kind, and the query itself
      unless the lookup is for the caller's own address. */
  function Intended(query: string, isExactIp: string -> bool): Param {
    var k := Classify(query, isExactIp);
    Param(k, if k == OwnAddress then [] else query)
  }

  /** Builds the request URL the way the header does: token first, then the
      provider, then at most one lookup parameter. */
  function BuildUrl(cfg: Config, api: string, query: string, isExactIp: string -> bool): string {
    var url := cfg.apiUrl + "?token=" + cfg.apiToken;
    if Trim(query) == [] then url + "&api=" + api
    else if isExactIp(query) then url + "&api=" + api + "&ip=" + query
    else url + "&api=" + api + "&domain=" + query
  }

  /** Splitting a concatenation after its first part gives both parts back. */
  lemma SplitAfter(base: string, tail: string)
    ensures HasPrefix(base + tail, base)
    ensures (base + tail)[|base|..] == tail
  {
    assert (base + tail)[..|base|] == base;
  }

  /** The tail the header appends after the shared base for a query. */
  function Tail(query: string, isExactIp: string -> bool): string {
    match Classify(query, isExactIp)
    case OwnAddress => []
    case ByIp => "&ip=" + query
    case ByDomain => "&domain=" + query
  }

  lemma BuildUrlShape(cfg: Config, api: string, query: string, isExactIp: string -> bool)
    ensures BuildUrl(cfg, api, query, isExactIp) == BaseUrl(cfg, api) + Tail(query, isExactIp)
  {
  }

  lemma ParseIpTail(query: string)
    ensures ParseParam("&ip=" + query) == Some(Param(ByIp, query))
  {
    var t := "&ip=" + query;
    assert t[..4] == "&ip=" && t[4..] == query;
  }

  lemma ParseDomainTail(query: string)
    ensures ParseParam("&domain=" + query) == Some(Param(ByDomain, query))
  {
    var t := "&domain=" + query;
    assert t[1] == 'd' && t[..8] == "&domain=" && t[8..] == query;
  }

  lemma ParseTail(query: string, isExactIp: string -> bool)
    ensures ParseParam(Tail(query, isExactIp)) == Some(Intended(query, isExactIp))
  {
    match Classify(query, isExactIp)
    case OwnAddress =>
    case ByIp => ParseIpTail(query);
    case ByDomain => ParseDomainTail(query);
  }

  /** Every URL starts with the shared base and its tail reads back as
      exactly the lookup the query asks for. */
  lemma UrlRoundTrip(cfg: Config, api: string, query: string, isExactIp: string -> bool)
    ensures HasPrefix(BuildUrl(cfg, api, query, isExactIp), BaseUrl(cfg, api))
    ensures ParseParam(BuildUrl(cfg, api, query, isExactIp)[|BaseUrl(cfg, api)|..]) == Some(Intended(query, isExactIp))
  {
    BuildUrlShape(cfg, api, query, isExactIp);
    SplitAfter(BaseUrl(cfg, api), Tail(query, isExactIp));
    ParseTail(query, isExactIp);
  }

  /** For a fixed provider, distinct non-blank queries never share a URL: the
      URL carries the whole query and its kind. */
  lemma UrlDeterminesQuery(cfg: Config, api: string, q1: string, q2: string, isExactIp: string -> bool)
    ensures !AllWhiteSpace(q1) && !AllWhiteSpace(q2) && BuildUrl(cfg, api, q1, isExactIp) == BuildUrl(cfg, api, q2, isExactIp) ==> q1 == q2
  {
    UrlRoundTrip(cfg, api, q1, isExactIp);
    UrlRoundTrip(cfg, api, q2, isExactIp);
  }

  /** A blank query, whitespace included, asks for the caller's own address:
      the URL is exactly the shared base. */
  lemma BlankQueryAddsNoParameter(cfg: Config, api: string, query: string, isExactIp: string -> bool)
    requires AllWhiteSpace(query)
    ensures BuildUrl(cfg, api, query, isExactIp) == BaseUrl(cfg, api)
  {
    var url := BuildUrl(cfg, api, query, isExactIp);
    var base := BaseUrl(cfg, api);
    UrlRoundTrip(cfg, api, query, isExactIp);
    assert url == url[..|base|] + url[|base|..];
  }
}
