/** What the header does with the result of the network call: the record it
    stores and the notification it raises. */
module Outcome {
  import opened Wrappers
  import opened Records

  /** How the call to the backend ended. The body of a failed response is
      reduced to its `message` field, `None` when that field is absent or not
      a string. */
  datatype FetchOutcome =
    | Thrown
    | NotOk(message: Option<string>)
    | Ok(record: IpInfo)

  const GenericToast: string := "Error fetching data from the API!\nPlease try another API."
  const WrongDomainToast: string := "Wrong domain name!"

  /** The body message the backend sends for an unknown domain. */
  const WrongDomainBody: string := "wrong domain name."

  /** The error notification raised for an outcome, `None` when none is.
      The specific wording appears exactly for a failed response whose body
      says the domain was wrong; every other failure gets the generic text. */
  function ToastFor(o: FetchOutcome): (t: Option<string>)
    ensures t.None? <==> o.Ok?
    ensures t == Some(WrongDomainToast) <==> o == NotOk(Some(WrongDomainBody))
    ensures t == Some(GenericToast) <==> o.Thrown? || (o.NotOk? && o.message != Some(WrongDomainBody))
  {
    match o
    case Ok(_) => None
    case Thrown => Some(GenericToast)
    case NotOk(m) => Some(if m == Some(WrongDomainBody) then WrongDomainToast else GenericToast)
  }

  /** The record stored for an outcome: the body on success, otherwise the
      all-error sentinel, never a mixture. */
  function Stored(o: FetchOutcome): IpInfo {
    if o.Ok? then o.record else ErrorRecord()
  }

  /** The displayed record is the sentinel exactly when the call failed or
      the backend itself answered with the sentinel's values. */
  lemma StoredIsSentinelIff(o: FetchOutcome)
    ensures IsErrorSentinel(Stored(o)) <==> !o.Ok? || IsErrorSentinel(o.record)
  {
  }

  /** The record and the notification agree: unless the backend itself
      answers with the sentinel's values, a notification is raised exactly
      when the displayed record is the sentinel. */
  lemma ToastIffSentinel(o: FetchOutcome)
    requires !(o.Ok? && IsErrorSentinel(o.record))
    ensures ToastFor(o).Some? <==> IsErrorSentinel(Stored(o))
  {
  }
}
