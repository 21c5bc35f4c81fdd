/** Fetching a page and turning it into a parsed document, with the error each step can raise. */
module Fetch {
  import opened Wrappers
  import Strings

  /** What one HTTP GET yields: a transport failure, or a status and a body. */
  datatype Response = TransportErr(reason: string) | Resp(status: int, body: string)

  /** The errors a parser returns to its caller. */
  datatype Error =
    | FetchFailed(reason: string)
    | BadStatus(code: int)
    | ParseFailed(reason: string)
    | Unsupported(reason: string)

  /** Go's `(value, error)` pair. */
  datatype Reply<T> = Reply(value: T, err: Option<Error>)

  const StatusOk := 200
  const StatusPrefix := "error: status code "

  /** The text of `err.Error()`: the status error's text starts with "error: status code ". */
  function Message(e: Error): (m: string)
    ensures e.BadStatus? ==> |m| > |StatusPrefix| && m[..|StatusPrefix|] == StatusPrefix
  {
    match e
    case FetchFailed(reason) => reason
    case BadStatus(code) => StatusPrefix + Strings.IntToString(code)
    case ParseFailed(reason) => reason
    case Unsupported(reason) => reason
  }

  /** The status error names the offending code, and the code can be read back from it. */
  lemma StatusMessageNamesCode(code: int)
    ensures |Message(BadStatus(code))| > |StatusPrefix|
    ensures Message(BadStatus(code))[..|StatusPrefix|] == StatusPrefix
    ensures Strings.ParseInt(Message(BadStatus(code))[|StatusPrefix|..]) == Some(code)
  {
    var m := Message(BadStatus(code));
    assert m[|StatusPrefix|..] == Strings.IntToString(code);
    Strings.IntRoundTrip(code);
  }

  /** Get the URL, insist on status 200, parse the body: a transport error, another status and
      a parse failure each stop the sequence with an error of its own kind. */
  function Load<D>(fetch: string -> Response, parse: string -> Result<D, string>, url: string): (r: Result<D, Error>)
    ensures r.Success? <==> fetch(url).Resp? && fetch(url).status == StatusOk && parse(fetch(url).body).Success?
    ensures r.Success? ==> r.value == parse(fetch(url).body).value
    ensures fetch(url).TransportErr? ==> r == Failure(FetchFailed(fetch(url).reason))
    ensures fetch(url).Resp? && fetch(url).status != StatusOk ==> r == Failure(BadStatus(fetch(url).status))
    ensures fetch(url).Resp? && fetch(url).status == StatusOk && parse(fetch(url).body).Failure?
            ==> r == Failure(ParseFailed(parse(fetch(url).body).error))
  {
    match fetch(url)
    case TransportErr(reason) => Failure(FetchFailed(reason))
    case Resp(status, body) =>
      if status != StatusOk then Failure(BadStatus(status))
      else
        match parse(body)
        case Failure(reason) => Failure(ParseFailed(reason))
        case Success(doc) => Success(doc)
  }
}
