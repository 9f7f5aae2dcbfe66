/** The part of JavaScript's semantics the clients depend on: the values a
    parsed JSON reply can hold, truthiness, `typeof`, property reads, the
    values a `catch` clause can receive, and `try`/`catch` itself. */
module Js {

  /** A value decoded from a JSON reply body, plus `undefined` (what reading
      an absent property yields). JSON numbers are kept as reals: the clients
      only ever test them for truthiness. */
  datatype JsValue =
    | Undefined
    | JNull
    | JBool(b: bool)
    | JNum(x: real)
    | JStr(s: string)
    | JArr(items: seq<JsValue>)
    | JObj(fields: map<string, JsValue>)

  /** JavaScript truthiness: `undefined`, `null`, `false`, `0` and `""` are
      falsy; every array and object is truthy. (NaN never comes out of JSON.) */
  predicate Truthy(v: JsValue) {
    match v
    case Undefined => false
    case JNull => false
    case JBool(b) => b
    case JNum(x) => x != 0.0
    case JStr(s) => s != ""
    case JArr(_) => true
    case JObj(_) => true
  }

  /** The `typeof` operator; `null` and arrays are both "object". */
  function TypeOf(v: JsValue): string {
    match v
    case Undefined => "undefined"
    case JNull => "object"
    case JBool(_) => "boolean"
    case JNum(_) => "number"
    case JStr(_) => "string"
    case JArr(_) => "object"
    case JObj(_) => "object"
  }

  /** `v[key]` for the own properties of a JSON object; every other read
      yields `undefined`. Inherited properties and the `length` and index
      properties of strings and arrays are not modelled: none of the keys the
      clients read is one of them. Reading a property of `undefined` or
      `null` would throw; every read in the clients is guarded by a
      truthiness test, so that case never arises. */
  function Prop(v: JsValue, key: string): JsValue {
    if v.JObj? && key in v.fields then v.fields[key] else Undefined
  }

  /** After a truthiness test on a value, a further `!== ""` test on it can
      never fail. */
  lemma TruthyIsNotEmptyString(v: JsValue)
    requires Truthy(v)
    ensures v != JStr("")
  {
  }

  /** How an axios error came about: the server answered with an error
      status, the request went out but no answer came back, or the request
      could not even be set up. */
  datatype AxiosFailure =
    | Response(status: nat, body: JsValue)
    | NoResponse
    | Setup

  /** A value a `catch` clause can receive: an axios error (an `Error`
      subclass, recognised by `axios.isAxiosError`), any other `Error`, or a
      thrown value that is not an `Error` at all. */
  datatype Thrown =
    | AxiosErr(message: string, failure: AxiosFailure)
    | PlainErr(message: string)
    | NonError

  /** `e instanceof Error`. */
  predicate IsError(e: Thrown) {
    e.AxiosErr? || e.PlainErr?
  }

  /** A value that may be `null`. */
  datatype Option<T> = None | Some(value: T)

  /** How a block of code completes: with a value, or by throwing. */
  datatype Completion<T> = Normal(value: T) | Abrupt(exc: Thrown)

  /** `try { body } catch (e) { handler(e) }`: the handler runs exactly when
      the body throws, on the value it threw. */
  function TryCatch<T>(body: Completion<T>, handler: Thrown -> Completion<T>): Completion<T> {
    match body
    case Normal(_) => body
    case Abrupt(e) => handler(e)
  }
}
