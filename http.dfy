/** The HTTP boundary of both clients. The transport itself (axios, its
    timeout and its authentication headers) is not modelled: a client is
    given a function `send` that answers each request with a `Reply`. */
module Http {
  import opened Text
  import opened Js

  /** What a request carries: a JSON body, or a multipart form whose only
      part is the uploaded file under the given field name (the file's
      bytes are not modelled). */
  datatype Body = Json(value: JsValue) | Multipart(field: string)

  /** A POST request: path relative to the client's base URL, body, and
      query parameters. */
  datatype Request = Post(path: string, body: Body, params: map<string, string>)

  /** How the promise returned by `axiosInstance.post` settles: fulfilled
      with a status and the parsed body, or rejected with a thrown value.
      With axios's default status check only a 2xx reply is fulfilled; any
      other status arrives as `Rejected(AxiosErr(_, Response(status, _)))`.
      `Ok` does not restrict its status, so a transport that fulfils other
      statuses is also covered. */
  datatype Reply = Ok(status: nat, data: JsValue) | Rejected(exc: Thrown)

  const UnknownErrorText := "Unknown error"

  /** `${status} ${JSON.stringify(data)}`, the text both clients use to
      report an HTTP status together with a reply body. */
  function StatusText(status: nat, data: JsValue, stringify: JsValue -> string): string {
    NatToString(status) + " " + stringify(data)
  }
}
