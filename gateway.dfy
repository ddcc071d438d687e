/** The HTTP boundary of the `/api/bankId` route: what a request carries, what
    the identity provider's POST settles to, what the route answers, and the
    process-wide secret store. Both route files share these shapes. */
module Gateway {
  import opened Common

  /** The fields the route reads from its `params` query parameter, after
      `JSON.parse`. `startDate` is `new Date(params?.startDate)` in
      milliseconds, or None for an Invalid Date. */
  datatype Params = Params(qrStartToken: JsStr, startDate: Option<int>, orderRef: JsStr)

  /** The raw `params` query parameter: absent or empty (falsy, so not
      parsed), text that `JSON.parse` rejects, or parsed JSON. */
  datatype ParamsText = NoParams | Malformed | Parsed(fields: Params)

  /** `params?.<field>` once parsing is done: when nothing was parsed every
      field is undefined, and `new Date(undefined)` is an Invalid Date. */
  function Lookup(p: ParamsText): (f: Params)
    ensures p.Parsed? ==> f == p.fields
    ensures !p.Parsed? ==> f.qrStartToken.None? && f.orderRef.None? && f.startDate.None?
  {
    match p
    case Parsed(fields) => fields
    case _ => Params(None, None, None)
  }

  /** A GET request to the route: the `method` (here `operation`), `params`
      and `userVisibleData` query parameters and the `x-api-key` and
      `x-forwarded-for` headers (a missing header reads as null). */
  datatype Request = Request(
    operation: JsStr,
    params: ParamsText,
    apiKey: JsStr,
    userVisibleData: JsStr,
    forwardedFor: JsStr)

  /** The fields of a provider reply the route reads. `personalNumber` is
      `Number(result?.completionData?.user?.personalNumber)`: None is NaN. */
  datatype ProviderBody = ProviderBody(
    orderRef: JsStr,
    autoStartToken: JsStr,
    qrStartToken: JsStr,
    qrStartSecret: JsStr,
    status: JsStr,
    hintCode: JsStr,
    personalNumber: Option<int>)

  /** How the axios POST to the provider settles: resolved with a response
      whose `data` may be missing, rejected with an AxiosError, or rejected
      with some other error. */
  datatype PostOutcome = Resolved(data: Option<ProviderBody>) | RejectedAxios | RejectedOther

  /** What `call` returns: the `{ error }` object (truthy), undefined, or the
      response data. */
  datatype CallResult = AxiosFailure | NoData | Data(body: ProviderBody) {
    /** `result.qrStartToken`, undefined unless the provider sent data. */
    function StartToken(): JsStr {
      if Data? then body.qrStartToken else None
    }

    /** `result.qrStartSecret`. */
    function StartSecret(): JsStr {
      if Data? then body.qrStartSecret else None
    }

    /** `result?.status === 'complete'`. */
    predicate IsComplete() {
      Data? && body.status == Some("complete")
    }
  }

  /** `call(method, params)`: an AxiosError becomes `{ error }`; any other
      rejection falls through to `result?.data` with no result, which is
      undefined; a resolved POST yields its data. */
  function Call(post: PostOutcome): (r: CallResult)
    ensures r.AxiosFailure? <==> post.RejectedAxios?
    ensures r.Data? <==> post.Resolved? && post.data.Some?
    ensures r.Data? ==> post.data.value == r.body
  {
    match post
    case RejectedAxios => AxiosFailure
    case RejectedOther => NoData
    case Resolved(data) => if data.Some? then Data(data.value) else NoData
  }

  /** A POST to `<bankIdUrl>/<operation>` with a JSON body. */
  datatype ProviderCall = ProviderCall(operation: string, body: map<string, JsStr>)

  function CollectCall(orderRef: JsStr): ProviderCall {
    ProviderCall("collect", map["orderRef" := orderRef])
  }

  /** What the route answers. `Unauthorized` is the 401 reply; `Failure` is a
      200 reply `{ error }`; `ServerError` stands for an exception that escapes
      the handler; `Forwarded` is the provider's result passed on, with the
      `qrData` and `secret` fields the route may have added to it. */
  datatype Response =
    | Unauthorized
    | Failure(error: string)
    | ServerError
    | QrData(payload: string)
    | OrderStarted(orderRef: JsStr, qrStartToken: JsStr, autoStartToken: JsStr)
    | Forwarded(result: CallResult, qrData: JsStr, secret: JsStr)

  /** The module-level `secretKeyStore` Map from start token to start secret.
      JavaScript Maps accept undefined as key and as value. */
  type Store = map<JsStr, JsStr>

  /** `secretKeyStore.get(key)`: undefined when the key is absent. */
  function StoreGet(store: Store, key: JsStr): (v: JsStr)
    ensures key !in store ==> v.None?
    ensures key in store ==> v == store[key]
  {
    if key in store then store[key] else None
  }

  /** What one request leads to: the reply, the provider call made (if any)
      and the store afterwards. */
  datatype Outcome = Outcome(response: Response, call: Option<ProviderCall>, store: Store)
}
