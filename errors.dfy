/** `PlexApiError` (`errors.ts`): the one failure value every client call can produce. It
    always names the HTTP method and the path attempted; a status failure adds the status
    and the response text, a transport or decode failure adds the cause instead. */
module Errors {
  import opened Wrappers
  import opened Text
  import Json

  datatype Method = GET | POST | DELETE

  function MethodName(m: Method): string {
    match m
    case GET => "GET"
    case POST => "POST"
    case DELETE => "DELETE"
  }

  /** What went wrong when there is no error status: the request could not be completed
      (`RequestError`), the body could not be read or parsed as JSON (`ResponseError`), or
      the JSON does not match the schema (`ParseError`). */
  datatype Cause =
    | RequestError(reason: string)
    | ResponseError(reason: string)
    | ParseError(error: Json.DecodeError)

  /** The error record (`httpMethod` is the field `method`); `status`, `body` and `cause`
      are each optional. */
  datatype PlexApiError = PlexApiError(
    httpMethod: string,
    path: string,
    status: Option<int>,
    body: Option<string>,
    cause: Option<Cause>)

  /** The three kinds of failure a caller branches on. */
  datatype FailureKind = TransportFailure | StatusFailure | DecodeFailure

  /** Exactly one of {status and body} or {cause} is present. */
  predicate WellFormed(e: PlexApiError) {
    (e.status.Some? && e.body.Some? && e.cause.None?) || (e.status.None? && e.body.None? && e.cause.Some?)
  }

  function Kind(e: PlexApiError): (k: FailureKind)
    requires WellFormed(e)
    ensures k == StatusFailure <==> e.status.Some?
    ensures k == TransportFailure <==> e.cause.Some? && e.cause.value.RequestError?
  {
    if e.status.Some? then StatusFailure
    else if e.cause.value.RequestError? then TransportFailure
    else DecodeFailure
  }

  /** `PlexApiError: <method> <path>`, the part of the message that is always there. */
  function MessageHead(e: PlexApiError): string {
    "PlexApiError: " + e.httpMethod + " " + e.path
  }

  /** ` (<status>)` when the status is truthy, i.e. present and not zero; empty otherwise. */
  function StatusSuffix(status: Option<int>): (suffix: string)
    ensures suffix == "" <==> status.None? || status == Some(0)
    ensures suffix != "" ==>
      |suffix| >= 4 && suffix[..2] == " (" && suffix[|suffix| - 1] == ')' && suffix[2..|suffix| - 1] == IntToDecimal(status.value)
  {
    if status.Some? && status.value != 0 then " (" + IntToDecimal(status.value) + ")" else ""
  }

  /** The `message` getter. */
  function Message(e: PlexApiError): (m: string)
    ensures |MessageHead(e)| <= |m| && m[..|MessageHead(e)|] == MessageHead(e)
    ensures m == MessageHead(e) <==> e.status.None? || e.status == Some(0)
  {
    MessageHead(e) + StatusSuffix(e.status)
  }

  /** Reads the status back out of a message suffix; `None` when there is no parenthetical. */
  function SuffixStatus(s: string): Option<int> {
    if |s| >= 4 && s[..2] == " (" && s[|s| - 1] == ')' then
      var digits := s[2..|s| - 1];
      if IsDecimal(digits) then Some(DecimalToInt(digits))
      else None
    else None
  }

  /** The message carries the status exactly when it is present and non-zero, and the
      status can be read back from it. */
  lemma MessageStatusRoundTrip(e: PlexApiError)
    ensures var m := Message(e);
            SuffixStatus(m[|MessageHead(e)|..]) == if e.status == Some(0) then None else e.status
  {
    var m := Message(e);
    assert m[|MessageHead(e)|..] == StatusSuffix(e.status);
    if e.status.Some? && e.status.value != 0 {
      var s := StatusSuffix(e.status);
      var d := IntToDecimal(e.status.value);
      assert s[2..|s| - 1] == d;
      IntDecimalRoundTrip(e.status.value);
    }
  }
}
