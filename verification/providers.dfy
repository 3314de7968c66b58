/** The geolocation providers the API selector offers. The selected option's
    value becomes the `api` query parameter of every request. */
module Providers {
  import opened Wrappers

  datatype Provider = IpApi | Ipify | Ip2Location | IpGeolocation | IpWho

  /** The option value sent to the backend for a provider. */
  function Id(p: Provider): string {
    match p
    case IpApi => "ip-api"
    case Ipify => "ipify"
    case Ip2Location => "ip2location"
    case IpGeolocation => "ipgeolocation"
    case IpWho => "ipwho"
  }

  /** The options in the order the selector lists them. */
  const Options: seq<Provider> := [IpApi, Ipify, Ip2Location, IpGeolocation, IpWho]

  /** Reads a selector value back as a provider; anything that is not one of
      the five option values is no provider. */
  function FromId(s: string): (r: Option<Provider>)
    ensures r.Some? ==> Id(r.value) == s
    ensures r.None? <==> forall p: Provider :: Id(p) != s
  {
    if s == "ip-api" then Some(IpApi)
    else if s == "ipify" then Some(Ipify)
    else if s == "ip2location" then Some(Ip2Location)
    else if s == "ipgeolocation" then Some(IpGeolocation)
    else if s == "ipwho" then Some(IpWho)
    else None
  }

  /** Every option value reads back as the provider it came from, so no two
      providers share a value. */
  lemma IdRoundTrip(p: Provider)
    ensures FromId(Id(p)) == Some(p)
  {
  }

  /** The selector lists every provider exactly once, each with a non-empty
      value, so choosing any option passes the header's "provider selected"
      test. */
  lemma OptionsComplete()
    ensures forall p: Provider :: p in Options
    ensures forall i, j :: 0 <= i < j < |Options| ==> Options[i] != Options[j]
    ensures forall i :: 0 <= i < |Options| ==> Id(Options[i]) != ""
  {
    forall p: Provider ensures p in Options {
      match p
      case IpApi => assert Options[0] == p;
      case Ipify => assert Options[1] == p;
      case Ip2Location => assert Options[2] == p;
      case IpGeolocation => assert Options[3] == p;
      case IpWho => assert Options[4] == p;
    }
  }
}
