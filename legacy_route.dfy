/** The earlier `/api/bankid` GET route of api/bankid.ts: no API-key check, no
    `sign`, and a `generateQrData` that does not check for a missing token or
    secret. `Handle` says what one request leads to; `Handler.Get` performs
    it on the store in place. */
module LegacyRoute {
  import opened Common
  import opened RotatingCode
  import opened Gateway

  /** `generateQrData` without the guard: a missing token prints as
      "undefined" in the payload, and only a missing secret stops it, because
      `crypto.createHmac` throws when the key is undefined. An empty secret is
      a valid HMAC key. */
  function GenerateQrData(c: Crypto, token: JsStr, secret: JsStr, now: int, orderTime: Option<int>): (r: Option<string>)
    ensures r.None? <==> secret.None?
  {
    if secret.None? then None
    else Some(RotatingQr(c, Interpolate(token), secret.value, now, orderTime))
  }

  /** The provider call of `auth`: the client address goes under the key
      `ip`, not `endUserIp`. */
  function AuthCall(forwardedFor: JsStr): ProviderCall {
    ProviderCall("auth", map["ip" := forwardedFor])
  }

  function RefreshQr(c: Crypto, store: Store, params: Params, now: int): Outcome {
    var token := params.qrStartToken;
    match GenerateQrData(c, token, StoreGet(store, token), now, params.startDate)
    case None => Outcome(ServerError, None, store)
    case Some(qr) => Outcome(QrData(qr), None, store)
  }

  function Auth(store: Store, req: Request, post: PostOutcome): Outcome {
    var call := Some(AuthCall(req.forwardedFor));
    var data := Call(post);
    // `data.orderRef` on undefined throws
    if data.NoData? then Outcome(ServerError, call, store)
    else
      var (orderRef, autoStartToken) := if data.Data? then (data.body.orderRef, data.body.autoStartToken) else (None, None);
      Outcome(OrderStarted(orderRef, data.StartToken(), autoStartToken), call, store[data.StartToken() := data.StartSecret()])
  }

  function Collect(store: Store, params: Params, post: PostOutcome): Outcome {
    if !Truthy(params.orderRef) then Outcome(Failure("No orderRef specified"), None, store)
    // `NextResponse.json(undefined)` throws: undefined is not JSON
    else if Call(post).NoData? then Outcome(ServerError, Some(CollectCall(params.orderRef)), store)
    else Outcome(Forwarded(Call(post), None, None), Some(CollectCall(params.orderRef)), store)
  }

  /** One GET request against store `store`, with the provider's POST (if the
      route makes one) settling to `post`, at wall-clock time `now` in ms. */
  function Handle(c: Crypto, store: Store, req: Request, post: PostOutcome, now: int): Outcome {
    if req.params.Malformed? then Outcome(Failure("Invalid JSON"), None, store)
    else
      var params := Lookup(req.params);
      if req.operation == Some("refresh-qr") then RefreshQr(c, store, params, now)
      else if req.operation == Some("auth") then Auth(store, req, post)
      else if req.operation == Some("collect") then Collect(store, params, post)
      else Outcome(Failure("Unknown method"), None, store)
  }

  // ---------------------------------------------------------------------------
  // The route, performed on its store in place
  // ---------------------------------------------------------------------------

  class Handler {
    const crypto: Crypto
    var secretKeyStore: Store

    constructor(crypto: Crypto)
      ensures this.crypto == crypto && secretKeyStore == map[]
    {
      this.crypto := crypto;
      secretKeyStore := map[];
    }

    method Get(req: Request, post: PostOutcome, now: int) returns (response: Response, call: Option<ProviderCall>)
      modifies this
      ensures Outcome(response, call, secretKeyStore) == Handle(crypto, old(secretKeyStore), req, post, now)
    {
      call := None;
      if req.params.Malformed? {
        return Failure("Invalid JSON"), None;
      }
      var params := Lookup(req.params);

      if req.operation == Some("refresh-qr") {
        var startToken := params.qrStartToken;
        var qr := GenerateQrData(crypto, startToken, StoreGet(secretKeyStore, startToken), now, params.startDate);
        if qr.None? {
          return ServerError, None;
        }
        response := QrData(qr.value);

      } else if req.operation == Some("auth") {
        call := Some(AuthCall(req.forwardedFor));
        var data := Call(post);
        if data.NoData? {
          return ServerError, call;
        }
        var orderRef, autoStartToken := None, None;
        if data.Data? {
          orderRef, autoStartToken := data.body.orderRef, data.body.autoStartToken;
        }
        response := OrderStarted(orderRef, data.StartToken(), autoStartToken);
        secretKeyStore := secretKeyStore[data.StartToken() := data.StartSecret()];

      } else if req.operation == Some("collect") {
        var orderRef := params.orderRef;
        if !Truthy(orderRef) {
          return Failure("No orderRef specified"), None;
        }
        call := Some(CollectCall(orderRef));
        var result := Call(post);
        if result.NoData? {
          return ServerError, call;
        }
        response := Forwarded(result, None, None);

      } else {
        return Failure("Unknown method"), None;
      }
    }
  }

  // ---------------------------------------------------------------------------
  // Properties of the route
  // ---------------------------------------------------------------------------

  /** Unparseable params are refused before any dispatch. */
  lemma InvalidJsonFirst(c: Crypto, store: Store, req: Request, post: PostOutcome, now: int)
    requires req.params.Malformed?
    ensures Handle(c, store, req, post, now) == Outcome(Failure("Invalid JSON"), None, store)
  {
  }

  /** Every method but the three, `sign` among them, is refused with no call
      and no change. */
  lemma SignIsUnknown(c: Crypto, store: Store, req: Request, post: PostOutcome, now: int)
    requires !req.params.Malformed?
    requires req.operation !in {Some("refresh-qr"), Some("auth"), Some("collect")}
    ensures Handle(c, store, req, post, now) == Outcome(Failure("Unknown method"), None, store)
  {
  }

  /** `refresh-qr` builds the code with whatever secret the store holds under
      the token sent, the empty secret included, and a missing token is
      written "undefined". */
  lemma RefreshUsesWhateverIsStored(c: Crypto, store: Store, req: Request, post: PostOutcome, now: int)
    requires !req.params.Malformed? && req.operation == Some("refresh-qr")
    requires var token := Lookup(req.params).qrStartToken; token in store && store[token].Some?
    ensures var p := Lookup(req.params);
      Handle(c, store, req, post, now) ==
      Outcome(QrData(RotatingQr(c, Interpolate(p.qrStartToken), store[p.qrStartToken].value, now, p.startDate)), None, store)
  {
  }

  /** A code for a token sent without a value reads back with the token
      "undefined". */
  lemma UndefinedTokenInPayload(c: Crypto, secret: string, now: int, orderTime: int)
    ensures var qr := GenerateQrData(c, None, Some(secret), now, Some(orderTime));
      qr.Some? && Split(qr.value).Some? && Split(qr.value).value.token == "undefined"
  {
    RotatingQrReadsBack(c, "undefined", secret, now, orderTime);
  }

  /** With no secret stored under the token, `createHmac` throws and the
      request fails; nothing changes. */
  lemma RefreshWithoutSecretThrows(c: Crypto, store: Store, req: Request, post: PostOutcome, now: int)
    requires !req.params.Malformed? && req.operation == Some("refresh-qr")
    requires StoreGet(store, Lookup(req.params).qrStartToken).None?
    ensures Handle(c, store, req, post, now) == Outcome(ServerError, None, store)
  {
  }

  /** `auth` keeps the start secret in the store and answers only the order
      reference and the two start tokens. */
  lemma AuthKeepsSecretServerSide(c: Crypto, store: Store, req: Request, body: ProviderBody, now: int)
    requires !req.params.Malformed? && req.operation == Some("auth")
    ensures Handle(c, store, req, Resolved(Some(body)), now) ==
      Outcome(OrderStarted(body.orderRef, body.qrStartToken, body.autoStartToken),
              Some(AuthCall(req.forwardedFor)),
              store[body.qrStartToken := body.qrStartSecret])
    ensures "endUserIp" !in AuthCall(req.forwardedFor).body
  {
  }

  /** With no data from the provider, reading `data.orderRef` throws. */
  lemma AuthWithoutDataThrows(c: Crypto, store: Store, req: Request, post: PostOutcome, now: int)
    requires !req.params.Malformed? && req.operation == Some("auth") && Call(post).NoData?
    ensures Handle(c, store, req, post, now) == Outcome(ServerError, Some(AuthCall(req.forwardedFor)), store)
  {
  }

  /** `collect` without an order reference makes no provider call. */
  lemma CollectNeedsOrderRef(c: Crypto, store: Store, req: Request, post: PostOutcome, now: int)
    requires !req.params.Malformed? && req.operation == Some("collect")
    requires !Truthy(Lookup(req.params).orderRef)
    ensures Handle(c, store, req, post, now) == Outcome(Failure("No orderRef specified"), None, store)
  {
  }

  /** `collect` passes a defined provider result on unchanged, whatever its
      status, and never touches the store. */
  lemma CollectPassesOn(c: Crypto, store: Store, req: Request, post: PostOutcome, now: int)
    requires !req.params.Malformed? && req.operation == Some("collect")
    requires Truthy(Lookup(req.params).orderRef) && !Call(post).NoData?
    ensures Handle(c, store, req, post, now) ==
      Outcome(Forwarded(Call(post), None, None), Some(CollectCall(Lookup(req.params).orderRef)), store)
  {
  }

  /** An undefined provider result cannot be serialised as the reply: the
      request fails after the provider call. */
  lemma CollectUndefinedThrows(c: Crypto, store: Store, req: Request, post: PostOutcome, now: int)
    requires !req.params.Malformed? && req.operation == Some("collect")
    requires Truthy(Lookup(req.params).orderRef) && Call(post).NoData?
    ensures Handle(c, store, req, post, now) ==
      Outcome(ServerError, Some(CollectCall(Lookup(req.params).orderRef)), store)
  {
  }

  /** Only `auth` changes the store, and only by one entry: nothing is ever
      removed from it. */
  lemma StoreOnlyGrows(c: Crypto, store: Store, req: Request, post: PostOutcome, now: int)
    ensures var o := Handle(c, store, req, post, now);
      || o.store == store
      || (req.operation == Some("auth") && o.store == store[Call(post).StartToken() := Call(post).StartSecret()])
    ensures store.Keys <= Handle(c, store, req, post, now).store.Keys
  {
  }
}
