# IP Address Tracker: search header core

A Dafny model of the search header of the IP Address Tracker web app: the
component that validates the search form, builds the backend request URL for
the selected geolocation provider, and turns the backend's answer into the
displayed `ipInfo` record, an error notification, and updates of the map
position, popup location and loading flags.

The network call is not performed: its result is an input value
(`Outcome.FetchOutcome`: the call threw, a non-OK response with the body's
`message` field, or an OK response carrying the record). The `ip-regex` exact
matcher is an input function `isExactIp: string -> bool`, not re-specified.
The backend base URL and token (build-time environment values) are the
`Request.Config` input. React state setters become fields of an immutable
`Header.View`, so each handler is a pure function from the old view to the
new one.

Modules, leaves first:

- `Wrappers`: `Option`, for JavaScript values that may be `undefined`.
- `JsString`: `String.prototype.trim` over the ECMAScript white-space and
  line-terminator characters, with an independent slice-based specification
  (`IsTrimOf`) proved to determine the trim uniquely.
- `Providers`: the five provider option values of the API selector.
- `Records`: the `ipInfo` record, the all-`"Error"` sentinel and the position
  handed to the map.
- `Request`: query classification (own address, IP, domain) and URL
  construction, with a parser for the URL tail proved to read back the lookup.
- `Outcome`: the notification text and stored record for each outcome.
- `Header`: the fetch (start and completion) and the form submit.

The header issues one plain `fetch` per call. It has no provider-registry
loader, no per-provider response adapters, no cancellation of an earlier
request and no timeout. The selector labels three providers "(IP Only)", but
the header sends a `&domain=` request to them like to any other provider;
the model follows the code.

## Model

| member | source | states |
|---|---|---|
| JsString.Trim | src/components/Header.tsx:58-65 | The trimmed input is the middle slice left after cutting white-space-only ends, starts and ends with a non-white-space character, and is empty exactly when the input is all white space |
| JsString.TrimIsUnique | src/components/Header.tsx:58-65 | Any two strings that are trims of the same input are equal, so the slice specification fixes the trimmed query |
| JsString.TrimIdempotent | src/components/Header.tsx:65-89 | Trimming the already trimmed query again (the fetch re-trims it) changes nothing |
| Providers.FromId | src/components/APISelect.tsx:53-57 | A selector value names a provider exactly when it is one of the five option values, and then that provider's value is the input |
| Providers.IdRoundTrip | src/components/APISelect.tsx:53-57 | Every provider's option value reads back as that provider, so values are distinct |
| Providers.OptionsComplete | src/components/APISelect.tsx:53-57 | The selector lists every provider once, each with a non-empty value |
| Header.SelectedProviderFetches | src/components/Header.tsx:80-94 | Choosing any of the selector's providers passes the header's provider test: a fetch starts and its URL names that provider's value |
| Records.SentinelIsUnique | src/components/Header.tsx:104-112 | A record is the error sentinel exactly when it equals the failure record, so no partial mix qualifies |
| Request.Classify | src/components/Header.tsx:88-94 | Exactly one kind applies: own address iff the query is all white space, IP iff non-blank and the exact IP test accepts the query, domain otherwise |
| Request.UrlRoundTrip | src/components/Header.tsx:87-94 | Every URL starts with base + "?token=" + token + "&api=" + provider, and its tail parses back to the query's kind and the query itself (nothing for own address) |
| Request.UrlDeterminesQuery | src/components/Header.tsx:87-94 | For one provider, two non-blank queries that yield the same URL are the same query |
| Request.BlankQueryAddsNoParameter | src/components/Header.tsx:89 | A blank or whitespace-only query yields exactly the shared base, with no ip or domain parameter |
| Outcome.StoredIsSentinelIff | src/components/Header.tsx:104-125 | The stored record is the all-"Error" sentinel exactly when the call failed or the successful body itself is that sentinel |
| Outcome.ToastIffSentinel | src/components/Header.tsx:104-125 | Unless the backend itself returns the sentinel, a notification is raised exactly when the displayed record is the all-"Error" sentinel |
| Outcome.ToastFor | src/components/Header.tsx:113-122 | No notification iff success; "Wrong domain name!" iff a non-OK response whose body message is "wrong domain name."; the generic text for a thrown call or any other non-OK body |
| Header.StartFetch | src/components/Header.tsx:80-94 | With no provider nothing starts; otherwise only the two loading flags change, both to true, and the URL has the base-plus-lookup form |
| Header.FinishFetch | src/components/Header.tsx:95-133 | Both loading flags end false; the record is the body or the sentinel; on success the position becomes the record's lat and lng and the location its location, on failure both are untouched |
| Header.FetchIpInfo | src/components/Header.tsx:79-134 | With no provider the view is unchanged, no URL and no notification; otherwise one URL of the stated form, loading flags false, the notification of ToastFor, and exactly the success or failure updates with nothing else changed |
| Header.MountAsWrittenStaysLoading | src/components/Header.tsx:137-139 | On mount the provider state is empty, so the effect's fetch sends no request and both loading flags stay up whatever the network would answer |
| Header.MountWithShownProviderCompletes | src/components/APISelect.tsx:50-53 | Had the mount fetch used the provider the selector shows (ip-api), it would request the own-address URL for that provider and lower both loading flags |
| Header.HandleSubmit | src/components/Header.tsx:53-75 | Unmounted: nothing. Blank input: the fixed error text is shown and no fetch. Otherwise the query and the fetch argument are both the trim of the input, the error is hidden and the input cleared |
| Header.SubmittedQueryReachesUrl | src/components/Header.tsx:65-94 | A fetch started by a submit never asks for the own address: its URL ends in an ip or domain parameter holding exactly the stored query |

## Left out

- React's scheduling of state updates and of the `useEffect` re-fetch (Header.tsx:137-139): asynchronous framework behaviour. `Header.MountFetch` models the mount-time run; a later re-fetch after a provider change is one call of `Header.FetchIpInfo` with the current query.
- Decoding the response body as JSON: the body's `message` (failure) or the record (success) is an input. If `res.json()` throws (Header.tsx:117 or 125) the source leaves the loading flags up and stores nothing; the model does not cover that path.
- The `ip-regex` matcher is an input predicate; IP syntax is not specified.
- The toast library: only the chosen message string is modelled, not its options (auto-close delay, theme).
- `VITE_API_URL` and `VITE_API_TOKEN` being undefined at build time (JavaScript would splice "undefined" into the URL): the model takes them as strings.
- The query is spliced into the URL without percent-encoding, as in the source; the URL tail parser reads it back verbatim.
- Latitude and longitude are carried as optional reals and never computed with; floating point is not modelled.
- The DOM side of submitting (preventing the default action, blurring the input, CSS class toggling) beyond the error line's text and visibility and the input's value.
- `APISelect.tsx` width measurement, `SetMapCenter.tsx` map animation, `utility.ts` `fetchTimeout` (not called by the header) and the presentation components: UI, foreign libraries, timers.
- Overlapping fetches: two `fetchIpInfo` calls in flight at once (a submit during the provider-change re-fetch, or two quick submits) can finish out of order; the last to finish wins and the first lowers both loading flags while the other is still outstanding. `Header.FetchIpInfo` treats one call as atomic.
- A failure body that parses to JSON `null` makes Header.tsx:117 throw (`null.message`), the same stuck-loading path as `res.json()` throwing; not covered.
- Dafny strings are Unicode scalar values while JavaScript strings are UTF-16 code units, so lone surrogates cannot be represented. Trimming is unaffected: every character it strips is in the Basic Multilingual Plane.

## Findings

| source | as written | input that shows it | evidently intended | confidence | as-written member | corrected member |
|---|---|---|---|---|---|---|
| src/components/Header.tsx:43 | The provider state starts empty, so the mount-time fetch returns at line 80, while the selector (`defaultValue` matching no option, APISelect.tsx:50) already shows ip-api | Load the page and do not touch the selector: no request is sent and the info panel and map keep their loading state (Header.tsx:41, App.tsx:27) | The first load looks up the caller's own address with the provider shown, as the comment at Header.tsx:88 says | medium, not executed | Header.MountAsWrittenStaysLoading | Header.MountWithShownProviderCompletes |
