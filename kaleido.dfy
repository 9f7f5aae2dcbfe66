/** The blockchain gateway client: `addProductToBlockchain` and
    `getProductFromBlockchain`. Each is modelled as the request it builds, the
    body of its `try` block run on the gateway's reply, and its `catch`
    handler, composed with `TryCatch`; JSON.stringify is the parameter
    `stringify`. */
module Kaleido {
  import opened Text
  import opened Js
  import opened Http

  /** The product record the smart contract stores. */
  datatype Product = Product(
    batchNumber: string,
    productName: string,
    manufacturingDate: string,
    expiryDate: string,
    nafdacNumber: string,
    productImage: string)

  /** The gateway settings the two calls read: the contract address (part of
      every path) and the sender address (the `kld-from` parameter). */
  datatype Config = Config(contractAddress: string, from: string)

  const AddPrefix := "Failed to add product to blockchain: "
  const GetPrefix := "Failed to get product from blockchain: "
  const NoResponseText := "No response received from the server"

  const ProductKeys := {"batchNumber", "productName", "manufacturingDate", "expiryDate",
                        "nafdacNumber", "productImage"}

  /** The JSON object `{batchNumber, productName, ...}` built from the six
      arguments of `addProductToBlockchain`. */
  function ProductBody(p: Product): JsValue {
    JObj(map[
      "batchNumber" := JStr(p.batchNumber),
      "productName" := JStr(p.productName),
      "manufacturingDate" := JStr(p.manufacturingDate),
      "expiryDate" := JStr(p.expiryDate),
      "nafdacNumber" := JStr(p.nafdacNumber),
      "productImage" := JStr(p.productImage)])
  }

  /** Reads the six product fields back out of a JSON object; None unless
      every one of them is a string. */
  function DecodeProduct(v: JsValue): Option<Product> {
    if Prop(v, "batchNumber").JStr? && Prop(v, "productName").JStr?
       && Prop(v, "manufacturingDate").JStr? && Prop(v, "expiryDate").JStr?
       && Prop(v, "nafdacNumber").JStr? && Prop(v, "productImage").JStr?
    then Some(Product(
      Prop(v, "batchNumber").s, Prop(v, "productName").s,
      Prop(v, "manufacturingDate").s, Prop(v, "expiryDate").s,
      Prop(v, "nafdacNumber").s, Prop(v, "productImage").s))
    else None
  }

  // ---------------------------------------------------------------- addProduct

  /** The write call: POST to `/<contract>/addProduct` with the six fields as
      the body, executed synchronously on behalf of the sender. */
  function AddProductRequest(cfg: Config, p: Product): (r: Request)
    ensures r.path == "/" + cfg.contractAddress + "/addProduct"
    ensures r.body.Json? && DecodeProduct(r.body.value) == Some(p)
    ensures r.body.value.JObj? && r.body.value.fields.Keys == ProductKeys
    ensures r.params.Keys == {"kld-from", "kld-sync"} && "kld-call" !in r.params
    ensures r.params["kld-from"] == cfg.from && r.params["kld-sync"] == "true"
  {
    Post("/" + cfg.contractAddress + "/addProduct", Json(ProductBody(p)),
         map["kld-from" := cfg.from, "kld-sync" := "true"])
  }

  /** The `try` block: await the reply, throw a plain `Error` on any status
      other than 200, otherwise return the batch number. */
  function AddProductTry(p: Product, reply: Reply, stringify: JsValue -> string): (r: Completion<string>)
    ensures r.Normal? <==> reply.Ok? && reply.status == 200
    ensures r.Normal? ==> r.value == p.batchNumber
    ensures reply.Rejected? ==> r == Abrupt(reply.exc)
    ensures reply.Ok? && reply.status != 200 ==>
              r.Abrupt? && r.exc.PlainErr? && StartsWith(r.exc.message, AddPrefix)
  {
    match reply
    case Rejected(e) => Abrupt(e)
    case Ok(status, data) =>
      if status != 200 then Abrupt(PlainErr(AddPrefix + StatusText(status, data, stringify)))
      else Normal(p.batchNumber)
  }

  /** The `catch` handler: every caught value is rethrown as a new `Error`
      whose message is the prefix followed by a description of the cause. */
  function AddProductCatch(e: Thrown, stringify: JsValue -> string): (r: Completion<string>)
    ensures r.Abrupt? && r.exc.PlainErr? && StartsWith(r.exc.message, AddPrefix)
  {
    if e.AxiosErr? then
      match e.failure
      case Response(status, body) => Abrupt(PlainErr(AddPrefix + StatusText(status, body, stringify)))
      case NoResponse => Abrupt(PlainErr(AddPrefix + NoResponseText))
      case Setup => Abrupt(PlainErr(AddPrefix + e.message))
    else
      Abrupt(PlainErr(AddPrefix + (if IsError(e) then e.message else UnknownErrorText)))
  }

  /** `addProductToBlockchain`: succeeds exactly on a 200 reply, and then
      with the batch number it was given; every failure is a plain `Error`
      whose message starts with the function's prefix. */
  function AddProduct(cfg: Config, p: Product, send: Request -> Reply, stringify: JsValue -> string)
    : (r: Completion<string>)
    ensures r.Normal? <==> send(AddProductRequest(cfg, p)).Ok? && send(AddProductRequest(cfg, p)).status == 200
    ensures r.Normal? ==> r.value == p.batchNumber
    ensures r.Abrupt? ==> r.exc.PlainErr? && StartsWith(r.exc.message, AddPrefix)
  {
    TryCatch(AddProductTry(p, send(AddProductRequest(cfg, p)), stringify), e => AddProductCatch(e, stringify))
  }

  /** A reply that arrives with a status other than 200 makes the `try`
      block throw; its own `catch` rewraps that error, so the message carries
      the prefix twice. */
  lemma AddProductNon200(cfg: Config, p: Product, send: Request -> Reply, stringify: JsValue -> string)
    requires send(AddProductRequest(cfg, p)).Ok? && send(AddProductRequest(cfg, p)).status != 200
    ensures AddProduct(cfg, p, send, stringify)
         == Abrupt(PlainErr(AddPrefix + AddPrefix
                             + StatusText(send(AddProductRequest(cfg, p)).status,
                                          send(AddProductRequest(cfg, p)).data, stringify)))
  {
  }

  /** How a rejected request is reported, by the kind of failure. */
  lemma AddProductRejected(cfg: Config, p: Product, send: Request -> Reply, stringify: JsValue -> string)
    requires send(AddProductRequest(cfg, p)).Rejected?
    ensures var e := send(AddProductRequest(cfg, p)).exc;
      AddProduct(cfg, p, send, stringify) == Abrupt(PlainErr(AddPrefix + (
        match e
        case AxiosErr(_, Response(status, body)) => StatusText(status, body, stringify)
        case AxiosErr(_, NoResponse) => NoResponseText
        case AxiosErr(message, Setup) => message
        case PlainErr(message) => message
        case NonError => UnknownErrorText)))
  {
  }

  // ---------------------------------------------------------------- getProduct

  /** The read call: POST to `/<contract>/getProduct` with `{batchNumber}`
      as the body, as a synchronous read-only call. */
  function GetProductRequest(cfg: Config, productId: string): (r: Request)
    ensures r.path == "/" + cfg.contractAddress + "/getProduct"
    ensures r.body.Json? && r.body.value.JObj? && r.body.value.fields.Keys == {"batchNumber"}
    ensures Prop(r.body.value, "batchNumber") == JStr(productId)
    ensures r.params.Keys == {"kld-from", "kld-sync", "kld-call"}
    ensures r.params["kld-from"] == cfg.from
    ensures r.params["kld-sync"] == "true" && r.params["kld-call"] == "true"
  {
    Post("/" + cfg.contractAddress + "/getProduct", Json(JObj(map["batchNumber" := JStr(productId)])),
         map["kld-from" := cfg.from, "kld-sync" := "true", "kld-call" := "true"])
  }

  /** What counts as a product: an object with a truthy `batchNumber`. */
  predicate IsProductRecord(v: JsValue) {
    v.JObj? && "batchNumber" in v.fields && Truthy(v.fields["batchNumber"])
  }

  /** The validator applied to a successful reply body: `data.output` is
      returned when it is a product record, and every other reply decodes to
      `null`. */
  function DecodeOutput(data: JsValue): (r: Option<JsValue>)
    ensures r.Some? <==> IsProductRecord(Prop(data, "output"))
    ensures r.Some? ==> r.value == Prop(data, "output")
  {
    if Truthy(data) && Truthy(Prop(data, "output")) then
      var product := Prop(data, "output");
      if TypeOf(product) == "object" && Truthy(Prop(product, "batchNumber"))
         && Prop(product, "batchNumber") != JStr("")
      then Some(product)
      else None
    else None
  }

  /** The `try` block: await the reply and decode it. */
  function GetProductTry(reply: Reply): (r: Completion<Option<JsValue>>)
    ensures r.Normal? <==> reply.Ok?
    ensures r.Normal? ==> r.value == DecodeOutput(reply.data)
    ensures reply.Rejected? ==> r == Abrupt(reply.exc)
  {
    match reply
    case Rejected(e) => Abrupt(e)
    case Ok(_, data) => Normal(DecodeOutput(data))
  }

  /** The `catch` handler. An axios error without a response is an `Error`
      too, so it is reported by its own message. */
  function GetProductCatch(e: Thrown, stringify: JsValue -> string): (r: Completion<Option<JsValue>>)
    ensures r.Abrupt? && r.exc.PlainErr? && StartsWith(r.exc.message, GetPrefix)
  {
    if e.AxiosErr? && e.failure.Response? then
      Abrupt(PlainErr(GetPrefix + StatusText(e.failure.status, e.failure.body, stringify)))
    else if IsError(e) then
      Abrupt(PlainErr(GetPrefix + e.message))
    else
      Abrupt(PlainErr(GetPrefix + UnknownErrorText))
  }

  /** `getProductFromBlockchain`: never throws when the request's promise
      is fulfilled, whatever status `Ok` carries; then returns what the
      validator makes of the reply, so a product record exactly when the
      reply's `output` is one and `null` otherwise; every failure is a plain
      `Error` whose message starts with the function's prefix. */
  function GetProduct(cfg: Config, productId: string, send: Request -> Reply, stringify: JsValue -> string)
    : (r: Completion<Option<JsValue>>)
    ensures r.Normal? <==> send(GetProductRequest(cfg, productId)).Ok?
    ensures r.Normal? ==> r.value == DecodeOutput(send(GetProductRequest(cfg, productId)).data)
    ensures r.Normal? && r.value.Some? ==> IsProductRecord(r.value.value)
    ensures r.Normal? && !IsProductRecord(Prop(send(GetProductRequest(cfg, productId)).data, "output"))
            ==> r.value == None
    ensures r.Abrupt? ==> r.exc.PlainErr? && StartsWith(r.exc.message, GetPrefix)
  {
    TryCatch(GetProductTry(send(GetProductRequest(cfg, productId))), e => GetProductCatch(e, stringify))
  }

  /** How a rejected request is reported, by the kind of failure. */
  lemma GetProductRejected(cfg: Config, productId: string, send: Request -> Reply, stringify: JsValue -> string)
    requires send(GetProductRequest(cfg, productId)).Rejected?
    ensures var e := send(GetProductRequest(cfg, productId)).exc;
      GetProduct(cfg, productId, send, stringify) == Abrupt(PlainErr(GetPrefix + (
        match e
        case AxiosErr(_, Response(status, body)) => StatusText(status, body, stringify)
        case AxiosErr(message, _) => message
        case PlainErr(message) => message
        case NonError => UnknownErrorText)))
  {
  }

  /** For a string `batchNumber`, the validator accepts the product exactly
      when the string is non-empty. */
  lemma StringBatchNumberFound(data: JsValue, b: string)
    requires Prop(data, "output").JObj? && Prop(Prop(data, "output"), "batchNumber") == JStr(b)
    ensures DecodeOutput(data).Some? <==> b != ""
  {
  }

  /** If the gateway echoes back, as `output`, the record that
      `addProductToBlockchain` sent, the read finds it exactly when its batch
      number is non-empty, and the record found carries the six fields that
      were sent. */
  lemma ReadBackAddedProduct(cfg: Config, p: Product, productId: string, send: Request -> Reply,
                             stringify: JsValue -> string, status: nat)
    requires send(GetProductRequest(cfg, productId))
          == Ok(status, JObj(map["output" := AddProductRequest(cfg, p).body.value]))
    ensures var r := GetProduct(cfg, productId, send, stringify);
      && r.Normal?
      && (r.value.Some? <==> p.batchNumber != "")
      && (r.value.Some? ==> DecodeProduct(r.value.value) == Some(p))
  {
  }
}
