/** The loading requests the player issues and `finishRequestWithData`, which answers one of them
    from a complete buffer. */
module RangeResponder {

  import opened Prelude
  import opened Urls

  /** Identity of one loading request object. */
  type RequestId = nat

  /** The byte span a loading request asks for. */
  datatype DataRequest = DataRequest(requestedOffset: int, requestedLength: int, toEnd: bool)

  /** One loading request: its URL and data request may be absent, and it may ask for content info. */
  datatype LoadingRequest = LoadingRequest(
    id: RequestId,
    url: Option<Url>,
    dataRequest: Option<DataRequest>,
    wantsContentInfo: bool)

  /** What is written into a content information request. */
  datatype ContentInfo = ContentInfo(byteRangeAccessSupported: bool, contentType: string, contentLength: int)

  /** One call the proxy makes back on a loading request. */
  datatype Reply =
    | ContentInfoFilled(request: RequestId, info: ContentInfo)
    | Responded(request: RequestId, data: seq<byte>)
    | Finished(request: RequestId)

  /** The content type reported for every resource. */
  const ContentType: string := "audio/mpeg"

  /** The slice a ranged request takes exists; a to-end request always fits. */
  predicate InBounds(d: DataRequest, size: nat) {
    d.toEnd ||
    (0 <= d.requestedOffset && 0 <= d.requestedLength && d.requestedOffset + d.requestedLength <= size)
  }

  /** The bytes handed to `respond(with:)`. */
  function ResponseBody(d: DataRequest, data: seq<byte>): (r: seq<byte>)
    requires InBounds(d, |data|)
    ensures d.toEnd ==> r == data
    ensures !d.toEnd ==> |r| == d.requestedLength
    ensures !d.toEnd ==> forall k :: 0 <= k < |r| ==> r[k] == data[d.requestedOffset + k]
  {
    if d.toEnd then data
    else data[d.requestedOffset..d.requestedOffset + d.requestedLength]
  }

  /** Answers request `id` from `data`: content info first when asked for, then exactly one
      response followed by exactly one finish. */
  function FinishRequestWithData(id: RequestId, wantsContentInfo: bool, d: DataRequest, data: seq<byte>)
    : (r: seq<Reply>)
    requires InBounds(d, |data|)
    ensures |r| == if wantsContentInfo then 3 else 2
    ensures wantsContentInfo ==>
      r[0] == ContentInfoFilled(id, ContentInfo(false, "audio/mpeg", |data|))
    ensures r[|r| - 2] == Responded(id, ResponseBody(d, data))
    ensures r[|r| - 1] == Finished(id)
    ensures forall i :: 0 <= i < |r| ==> r[i].request == id
    ensures forall i :: 0 <= i < |r| - 1 ==> !r[i].Finished?
    ensures forall i :: 0 <= i < |r| ==> (r[i].Responded? <==> i == |r| - 2)
  {
    var info := if wantsContentInfo then [ContentInfoFilled(id, ContentInfo(false, ContentType, |data|))] else [];
    info + [Responded(id, ResponseBody(d, data)), Finished(id)]
  }

  /** Two adjacent ranged responses together are the response for their union. */
  lemma AdjacentRangesConcatenate(data: seq<byte>, offset: int, len1: int, len2: int)
    requires 0 <= offset && 0 <= len1 && 0 <= len2 && offset + len1 + len2 <= |data|
    ensures ResponseBody(DataRequest(offset, len1, false), data)
          + ResponseBody(DataRequest(offset + len1, len2, false), data)
         == ResponseBody(DataRequest(offset, len1 + len2, false), data)
  {
  }

  /** A ranged request covering the whole buffer gets what a to-end request gets, whatever
      offset the to-end request carries. */
  lemma WholeRangeIsToEnd(data: seq<byte>, anyOffset: int, anyLength: int)
    ensures ResponseBody(DataRequest(0, |data|, false), data)
         == ResponseBody(DataRequest(anyOffset, anyLength, true), data)
  {
  }

  /** An empty range at the end of the buffer is answered with no bytes. */
  lemma EmptyRangeAtEnd(data: seq<byte>)
    ensures InBounds(DataRequest(|data|, 0, false), |data|)
    ensures ResponseBody(DataRequest(|data|, 0, false), data) == []
  {
  }
}
