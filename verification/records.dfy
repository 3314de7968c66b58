/** The geolocation record the header displays (`ipInfo`) and the map position
    handed to the parent. */
module Records {
  import opened Wrappers

  /** Coordinates are JavaScript numbers that the model only carries around,
      never computes with; `None` is an absent (`undefined`) field. */
  datatype IpInfo = IpInfo(
    ip: string,
    location: string,
    timezone: string,
    isp: string,
    lat: Option<real>,
    lng: Option<real>)

  /** The `{lat, lng}` object passed to the parent's position setter. */
  datatype Position = Position(lat: Option<real>, lng: Option<real>)

  const ErrorText: string := "Error"

  /** A record in which every text field is the error marker and there are no
      coordinates: what the header stores after any failed request. */
  predicate IsErrorSentinel(r: IpInfo) {
    && r.ip == ErrorText && r.isp == ErrorText
    && r.location == ErrorText && r.timezone == ErrorText
    && r.lat.None? && r.lng.None?
  }

  /** The record built on failure. */
  function ErrorRecord(): IpInfo {
    IpInfo(ErrorText, ErrorText, ErrorText, ErrorText, None, None)
  }

  /** The sentinel is one fixed value: a record that has the marker in some
      fields but real data in others is not a sentinel. */
  lemma SentinelIsUnique(r: IpInfo)
    ensures IsErrorSentinel(r) <==> r == ErrorRecord()
  {
  }

  /** The position reported for a record: its own coordinates, absent ones
      included. */
  function PositionOf(r: IpInfo): Position {
    Position(r.lat, r.lng)
  }
}
