/** The completion handler of the data task started by `fetch`: which outcomes reach `onData`. */
module Fetch {

  import opened Prelude

  /** The response object handed to the completion handler. */
  datatype UrlResponse = HttpResponse(statusCode: int) | OtherResponse

  /** Everything the completion handler receives: an error, a body and a response, each optional. */
  datatype FetchOutcome = FetchOutcome(
    error: Option<string>,
    data: Option<seq<byte>>,
    response: Option<UrlResponse>)

  /** Where the guard chain of the completion handler ends. */
  datatype Verdict =
    | Delivered(body: seq<byte>)
    | TransportFailed
    | NoResponseData
    | NotHttp
    | NotOk(statusCode: int)

  /** Runs the guards in source order; only `Delivered` calls `onData`. */
  function Classify(o: FetchOutcome): (r: Verdict)
    ensures r.Delivered? <==>
      o.error.None? && o.data.Some? && o.response == Some(HttpResponse(200))
    ensures r.Delivered? ==> o.data == Some(r.body)
    ensures o.error.Some? ==> r == TransportFailed
    ensures r.NotOk? ==> r.statusCode != 200 && o.response == Some(HttpResponse(r.statusCode))
  {
    if o.error.Some? then TransportFailed
    else if o.data.None? then NoResponseData
    else if o.response.None? || o.response.value.OtherResponse? then NotHttp
    else if o.response.value.statusCode != 200 then NotOk(o.response.value.statusCode)
    else Delivered(o.data.value)
  }
}
