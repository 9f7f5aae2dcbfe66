/** The IPFS client: `uploadToIPFS`, modelled like the gateway calls as its
    request, its `try` block run on the reply and its `catch` handler, and
    `getIPFSImageUrl`, a string template over the configured base URL. */
module Ipfs {
  import opened Text
  import opened Js
  import opened Http

  const UploadPrefix := "Failed to upload file to IPFS: "
  const NoHashText := "No hash returned"
  const NoResponseText := "No response received"

  /** The upload: POST to `/api/v0/add` with a multipart form holding the
      file under `file`, and no query parameters. */
  function UploadRequest(): (r: Request)
    ensures r.path == "/api/v0/add" && r.body == Multipart("file") && r.params == map[]
  {
    Post("/api/v0/add", Multipart("file"), map[])
  }

  /** The `try` block: a reply carrying a truthy `Hash` yields it; any other
      reply (whatever its status) throws the "No hash returned" error. */
  function UploadTry(reply: Reply): (r: Completion<JsValue>)
    ensures r.Normal? <==> reply.Ok? && Truthy(reply.data) && Truthy(Prop(reply.data, "Hash"))
    ensures r.Normal? ==> r.value == Prop(reply.data, "Hash")
    ensures reply.Rejected? ==> r == Abrupt(reply.exc)
    ensures reply.Ok? && !r.Normal? ==> r == Abrupt(PlainErr(UploadPrefix + NoHashText))
  {
    match reply
    case Rejected(e) => Abrupt(e)
    case Ok(_, data) =>
      if Truthy(data) && Truthy(Prop(data, "Hash")) then Normal(Prop(data, "Hash"))
      else Abrupt(PlainErr(UploadPrefix + NoHashText))
  }

  /** The `catch` handler: every caught value is rethrown as a new `Error`
      whose message is the prefix followed by a description of the cause. */
  function UploadCatch(e: Thrown, stringify: JsValue -> string): (r: Completion<JsValue>)
    ensures r.Abrupt? && r.exc.PlainErr? && StartsWith(r.exc.message, UploadPrefix)
  {
    if e.AxiosErr? then
      match e.failure
      case Response(status, body) =>
        Abrupt(PlainErr(UploadPrefix + StatusText(status, body, stringify)))
      case NoResponse => Abrupt(PlainErr(UploadPrefix + NoResponseText))
      case Setup => Abrupt(PlainErr(UploadPrefix + e.message))
    else if IsError(e) then
      Abrupt(PlainErr(UploadPrefix + e.message))
    else
      Abrupt(PlainErr(UploadPrefix + UnknownErrorText))
  }

  /** `uploadToIPFS`: returns `data.Hash` exactly when the server answers
      with a truthy body whose `Hash` is truthy; every failure is a plain
      `Error` whose message starts with the function's prefix. */
  function UploadToIpfs(send: Request -> Reply, stringify: JsValue -> string): (r: Completion<JsValue>)
    ensures r.Normal? <==> (send(UploadRequest()).Ok?
                            && Truthy(send(UploadRequest()).data)
                            && Truthy(Prop(send(UploadRequest()).data, "Hash")))
    ensures r.Normal? ==> r.value == Prop(send(UploadRequest()).data, "Hash") && Truthy(r.value)
    ensures r.Abrupt? ==> r.exc.PlainErr? && StartsWith(r.exc.message, UploadPrefix)
  {
    TryCatch(UploadTry(send(UploadRequest())), e => UploadCatch(e, stringify))
  }

  /** A reply without a hash throws inside the `try` block; the `catch`
      rewraps that error as an ordinary `Error`, so the prefix appears twice. */
  lemma UploadWithoutHash(send: Request -> Reply, stringify: JsValue -> string)
    requires send(UploadRequest()).Ok?
    requires !(Truthy(send(UploadRequest()).data) && Truthy(Prop(send(UploadRequest()).data, "Hash")))
    ensures UploadToIpfs(send, stringify)
         == Abrupt(PlainErr(UploadPrefix + UploadPrefix + NoHashText))
  {
  }

  /** How a rejected upload is reported, by the kind of failure. */
  lemma UploadRejected(send: Request -> Reply, stringify: JsValue -> string)
    requires send(UploadRequest()).Rejected?
    ensures var e := send(UploadRequest()).exc;
      UploadToIpfs(send, stringify) == Abrupt(PlainErr(UploadPrefix + (
        match e
        case AxiosErr(_, Response(status, body)) => StatusText(status, body, stringify)
        case AxiosErr(_, NoResponse) => NoResponseText
        case AxiosErr(message, Setup) => message
        case PlainErr(message) => message
        case NonError => UnknownErrorText)))
  {
  }

  // ------------------------------------------------------------ image URLs

  const IpfsSegment := "/ipfs/"
  const DownloadQuery := "?dl=1"

  /** `getIPFSImageUrl`: the gateway URL of a content hash. Total, with no
      special case for the empty hash. */
  function ImageUrl(baseUrl: string, hash: string): (url: string)
    ensures StartsWith(url, baseUrl + IpfsSegment + hash)
    ensures EndsWith(url, DownloadQuery)
    ensures |url| == |baseUrl| + |hash| + 11
  {
    var url := baseUrl + IpfsSegment + hash + DownloadQuery;
    assert url[..|baseUrl + IpfsSegment + hash|] == baseUrl + IpfsSegment + hash;
    assert url[|url| - |DownloadQuery|..] == DownloadQuery;
    url
  }

  /** The URL contains `/ipfs/<hash>`. */
  lemma ImageUrlContainsHash(baseUrl: string, hash: string)
    ensures Contains(ImageUrl(baseUrl, hash), IpfsSegment + hash)
  {
    var url := ImageUrl(baseUrl, hash);
    var u := baseUrl + IpfsSegment + hash;
    var i := |baseUrl|;
    assert url[..|u|] == u;
    assert url[i..i + |IpfsSegment + hash|] == u[i..] == IpfsSegment + hash;
    assert OccursAt(url, IpfsSegment + hash, i);
  }

  /** Recovers the hash from a URL of the shape `ImageUrl` builds for the
      given base; None for any other URL. */
  function HashOfImageUrl(baseUrl: string, url: string): Option<string> {
    var head := baseUrl + IpfsSegment;
    if |head| + |DownloadQuery| <= |url| && StartsWith(url, head) && EndsWith(url, DownloadQuery)
    then Some(url[|head|..|url| - |DownloadQuery|])
    else None
  }

  /** The hash can be read back from its URL, so distinct hashes give
      distinct URLs. */
  lemma HashOfImageUrlRoundTrip(baseUrl: string, hash: string)
    ensures HashOfImageUrl(baseUrl, ImageUrl(baseUrl, hash)) == Some(hash)
  {
  }

  /** Conversely, every URL the reader accepts is the URL of the hash it
      returns. */
  lemma ImageUrlOfHash(baseUrl: string, url: string)
    requires HashOfImageUrl(baseUrl, url).Some?
    ensures ImageUrl(baseUrl, HashOfImageUrl(baseUrl, url).value) == url
  {
  }

  lemma ImageUrlInjective(baseUrl: string, h1: string, h2: string)
    requires ImageUrl(baseUrl, h1) == ImageUrl(baseUrl, h2)
    ensures h1 == h2
  {
    HashOfImageUrlRoundTrip(baseUrl, h1);
    HashOfImageUrlRoundTrip(baseUrl, h2);
  }
}
