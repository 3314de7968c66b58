/** The search header: submitting the form and fetching geolocation data for
    the selected provider. State the component shares with its parent (map
    position, popup location, map loading flag) lives in the same `View`,
    since the header's only access to it is through the parent's setters. */
module Header {
  import opened Wrappers
  import opened JsString
  import opened Records
  import opened Request
  import opened Outcome
  import Providers

  /** Everything a fetch can change. `ipInfo`, `position` and `location` are
      `None` until first set. */
  datatype View = View(
    ipInfo: Option<IpInfo>,
    loading: bool,
    mapLoading: bool,
    position: Option<Position>,
    location: Option<string>)

  /** A request in flight: its URL and the view while it is outstanding. */
  datatype Started = Started(url: string, view: View)

  /** The whole effect of one fetch: the final view, the URL requested (if
      any) and the error notification raised (if any). */
  datatype Run = Run(view: View, url: Option<string>, toast: Option<string>)

  /** The synchronous start of a fetch, up to the network call. With no
      provider selected nothing happens; otherwise both loading flags go up
      and the URL carries the shared base and the query's lookup. */
  function StartFetch(cfg: Config, api: string, query: string, isExactIp: string -> bool, v: View): (r: Option<Started>)
    ensures r.None? <==> api == []
    ensures r.Some? ==> r.value.view == v.(loading := true, mapLoading := true)
    ensures r.Some? ==> HasPrefix(r.value.url, BaseUrl(cfg, api))
    ensures r.Some? ==> ParseParam(r.value.url[|BaseUrl(cfg, api)|..]) == Some(Intended(query, isExactIp))
  {
    if api == [] then None
    else
      UrlRoundTrip(cfg, api, query, isExactIp);
      Some(Started(BuildUrl(cfg, api, query, isExactIp), v.(loading := true, mapLoading := true)))
  }

  /** The continuation after the network call. Both loading flags end down
      whatever the outcome; the record is the body or the error sentinel; the
      parent's position and location move only on success. */
  function FinishFetch(o: FetchOutcome, v: View): (r: View)
    ensures !r.loading && !r.mapLoading
    ensures o.Ok? ==> r.ipInfo == Some(o.record)
    ensures !o.Ok? ==> r.ipInfo.Some? && IsErrorSentinel(r.ipInfo.value)
    ensures o.Ok? ==> r.position == Some(Position(o.record.lat, o.record.lng)) && r.location == Some(o.record.location)
    ensures !o.Ok? ==> r.position == v.position && r.location == v.location
  {
    var v1 := if o.Ok? then v.(position := Some(PositionOf(o.record)), location := Some(o.record.location)) else v;
    v1.(ipInfo := Some(Stored(o)), loading := false, mapLoading := false)
  }

  /** One call of the fetch with the network's answer `o` supplied. */
  function FetchIpInfo(cfg: Config, api: string, query: string, isExactIp: string -> bool, o: FetchOutcome, v: View): (r: Run)
    ensures api == [] ==> r == Run(v, None, None)
    ensures api != [] ==> r.url.Some? && HasPrefix(r.url.value, BaseUrl(cfg, api))
    ensures api != [] ==> ParseParam(r.url.value[|BaseUrl(cfg, api)|..]) == Some(Intended(query, isExactIp))
    ensures api != [] ==> !r.view.loading && !r.view.mapLoading
    ensures api != [] ==> r.toast == ToastFor(o)
    ensures api != [] && o.Ok? ==> r.view == v.(ipInfo := Some(o.record), loading := false, mapLoading := false, position := Some(Position(o.record.lat, o.record.lng)), location := Some(o.record.location))
    ensures api != [] && !o.Ok? ==> r.view == v.(ipInfo := Some(ErrorRecord()), loading := false, mapLoading := false)
  {
    match StartFetch(cfg, api, query, isExactIp, v)
    case None => Run(v, None, None)
    case Some(s) => Run(FinishFetch(o, s.view), Some(s.url), ToastFor(o))
  }

  /** Any provider chosen in the selector passes the "provider selected"
      test, so a fetch starts, and its URL names that provider. */
  lemma SelectedProviderFetches(cfg: Config, p: Providers.Provider, query: string, isExactIp: string -> bool, v: View)
    ensures StartFetch(cfg, Providers.Id(p), query, isExactIp, v).Some?
    ensures HasPrefix(StartFetch(cfg, Providers.Id(p), query, isExactIp, v).value.url, BaseUrl(cfg, Providers.Id(p)))
  {
  }

  /** The view when the page mounts: no record, no position or location,
      and both loading flags up. */
  function InitialView(): View {
    View(None, true, true, None, None)
  }

  /** The provider state the header starts with: empty. */
  const InitialApi: string := []

  /** The provider the selector shows on mount: its `defaultValue` is the
      empty provider state, which matches no option, so the first option is
      displayed. */
  const ShownApi: string := Providers.Id(Providers.Options[0])

  /** The fetch the mount-time effect runs: the blank initial query with the
      given provider state. */
  function MountFetch(cfg: Config, api: string, isExactIp: string -> bool, o: FetchOutcome): Run {
    FetchIpInfo(cfg, api, [], isExactIp, o, InitialView())
  }

  /** As written, the mount-time fetch sees the empty provider state and does
      nothing: no request is sent and both loading flags stay up, whatever the
      network would have answered, until the user picks a provider. */
  lemma MountAsWrittenStaysLoading(cfg: Config, isExactIp: string -> bool, o: FetchOutcome)
    ensures MountFetch(cfg, InitialApi, isExactIp, o).url.None?
    ensures MountFetch(cfg, InitialApi, isExactIp, o).view.loading
    ensures MountFetch(cfg, InitialApi, isExactIp, o).view.mapLoading
  {
  }

  /** Starting from the provider the selector shows, the mount-time fetch
      asks for the caller's own address from that provider and both loading
      flags come down. */
  lemma MountWithShownProviderCompletes(cfg: Config, isExactIp: string -> bool, o: FetchOutcome)
    ensures MountFetch(cfg, ShownApi, isExactIp, o).url == Some(BaseUrl(cfg, "ip-api"))
    ensures !MountFetch(cfg, ShownApi, isExactIp, o).view.loading
    ensures !MountFetch(cfg, ShownApi, isExactIp, o).view.mapLoading
  {
    assert AllWhiteSpace([]);
    BlankQueryAddsNoParameter(cfg, ShownApi, [], isExactIp);
  }

  /** The search form: the input's text, the error line's text and visibility,
      and the component's `query` state. */
  datatype Form = Form(input: string, errorText: string, errorShown: bool, query: string)

  /** The form after a submit and the argument of the fetch it issued, if any. */
  datatype Submitted = Submitted(form: Form, fetchArg: Option<string>)

  const EmptyInputText: string := "Please input an IP address or domain"

  /** Handles a submit. `mounted` says both the input and the error line are
      rendered; otherwise the submit does nothing. Blank input only shows the
      error; anything else stores the trimmed text as the query, fetches it,
      hides the error line and clears the input. */
  function HandleSubmit(mounted: bool, f: Form): (r: Submitted)
    ensures !mounted ==> r == Submitted(f, None)
    ensures mounted && AllWhiteSpace(f.input) ==> r == Submitted(f.(errorText := EmptyInputText, errorShown := true), None)
    ensures mounted && !AllWhiteSpace(f.input) ==>
      && r.fetchArg == Some(r.form.query)
      && IsTrimOf(r.form.query, f.input)
      && r.form == Form([], f.errorText, false, r.form.query)
  {
    if !mounted then Submitted(f, None)
    else if Trim(f.input) == [] then Submitted(f.(errorText := EmptyInputText, errorShown := true), None)
    else
      var newQuery := Trim(f.input);
      Submitted(Form([], f.errorText, false, newQuery), Some(newQuery))
  }

  /** A fetch started from the form always names its query: the trimmed
      input is never blank, so the URL carries `&ip=` or `&domain=` with
      exactly the text stored as the query, never the own-address form. */
  lemma SubmittedQueryReachesUrl(cfg: Config, api: string, isExactIp: string -> bool, f: Form, o: FetchOutcome, v: View)
    requires api != [] && !AllWhiteSpace(f.input)
    ensures HandleSubmit(true, f).fetchArg.Some?
    ensures
      var q := HandleSubmit(true, f).form.query;
      var run := FetchIpInfo(cfg, api, q, isExactIp, o, v);
      && run.url.Some?
      && ParseParam(run.url.value[|BaseUrl(cfg, api)|..]) == Some(Param(if isExactIp(q) then ByIp else ByDomain, q))
  {
    var q := HandleSubmit(true, f).form.query;
    assert q == Trim(f.input);
    assert !AllWhiteSpace(q) by {
      assert q != [] && !IsWhiteSpace(q[0]);
    }
  }
}
