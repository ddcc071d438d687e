/** The `/api/bankId` GET route of src/api/bankid.ts: an API-key check, then a
    dispatch on the `method` query parameter to `refresh-qr`, `sign`, `auth`
    or `collect`, around a process-wide store from start token to start
    secret. `Handle` says what one request leads to; `Handler.Get` performs
    it on the store in place. */
module Route {
  import opened Common
  import opened RotatingCode
  import opened Gateway

  /** The deployment's `NEXT_PUBLIC_BANKID_VERIFICATION_API_KEY` (None when
      unset) and the library primitives. */
  datatype Config = Config(apiKey: JsStr, crypto: Crypto)

  const SignFormat := "simpleMarkdownV1"

  /** `apiKey === process.env.NEXT_PUBLIC_BANKID_VERIFICATION_API_KEY`: a
      missing header is null and an unset variable is undefined, and these are
      not identical, so both must be present and equal. */
  predicate Authorized(header: JsStr, configured: JsStr) {
    header.Some? && configured.Some? && header.value == configured.value
  }

  /** `generateQrData`: throws when the start token or the secret is falsy,
      otherwise yields the rotating code. */
  function GenerateQrData(c: Crypto, token: JsStr, secret: JsStr, now: int, orderTime: Option<int>): (r: Option<string>)
    ensures r.None? <==> !Truthy(token) || !Truthy(secret)
  {
    if !Truthy(token) || !Truthy(secret) then None
    else Some(RotatingQr(c, token.value, secret.value, now, orderTime))
  }

  /** The provider call of `sign`: the client address, the text to show
      base64-encoded over its UTF-8 bytes, and its format. */
  function SignCall(c: Crypto, forwardedFor: JsStr, userVisibleData: JsStr): ProviderCall {
    var text := if Truthy(userVisibleData) then userVisibleData.value else "";
    ProviderCall("sign", map[
      "endUserIp" := forwardedFor,
      "userVisibleData" := Some(c.base64(c.utf8Encode(text))),
      "userVisibleDataFormat" := Some(SignFormat)])
  }

  /** The provider call of `auth`. */
  function AuthCall(forwardedFor: JsStr): ProviderCall {
    ProviderCall("auth", map["endUserIp" := forwardedFor])
  }

  /** The one-time secret a completed collect hands out:
      `sha1(`${orderRef}-${Date.now()}`)`. */
  function OneTimeSecret(c: Crypto, orderRef: JsStr, now: int): string {
    c.sha1Hex(Interpolate(orderRef) + "-" + IntToDecimal(now))
  }

  /** `Number(...)` of the personal number is truthy: neither NaN nor 0. */
  predicate NumberTruthy(n: Option<int>) {
    n.Some? && n.value != 0
  }

  function RefreshQr(cfg: Config, store: Store, params: Params, now: int): Outcome {
    var token := params.qrStartToken;
    match GenerateQrData(cfg.crypto, token, StoreGet(store, token), now, params.startDate)
    case None => Outcome(Failure("Failed to refresh QR"), None, store)
    case Some(qr) => Outcome(QrData(qr), None, store)
  }

  function Sign(cfg: Config, store: Store, req: Request, post: PostOutcome, now: int): Outcome {
    var call := Some(SignCall(cfg.crypto, req.forwardedFor, req.userVisibleData));
    var result := Call(post);
    if result.NoData? then Outcome(Failure("Failed to call BankID"), call, store)
    else
      match GenerateQrData(cfg.crypto, result.StartToken(), result.StartSecret(), now, Some(now))
      case None => Outcome(ServerError, call, store)
      case Some(qr) =>
        Outcome(Forwarded(result, Some(qr), None), call, store[result.StartToken() := result.StartSecret()])
  }

  function Auth(store: Store, req: Request, post: PostOutcome): Outcome {
    var call := Some(AuthCall(req.forwardedFor));
    var data := Call(post);
    if data.NoData? then Outcome(Failure("Failed to call BankID"), call, store)
    else
      var (orderRef, autoStartToken) := if data.Data? then (data.body.orderRef, data.body.autoStartToken) else (None, None);
      Outcome(OrderStarted(orderRef, data.StartToken(), autoStartToken), call, store[data.StartToken() := data.StartSecret()])
  }

  function Collect(cfg: Config, store: Store, params: Params, post: PostOutcome, now: int): Outcome {
    var orderRef := params.orderRef;
    if !Truthy(orderRef) then Outcome(Failure("No orderRef specified"), None, store)
    else
      var call := Some(CollectCall(orderRef));
      var result := Call(post);
      // `NextResponse.json(undefined)` throws: undefined is not JSON
      if result.NoData? then Outcome(ServerError, call, store)
      else if !result.IsComplete() then Outcome(Forwarded(result, None, None), call, store)
      else if !NumberTruthy(result.body.personalNumber) then Outcome(Failure("Invalid personal number"), call, store)
      else Outcome(Forwarded(result, None, Some(OneTimeSecret(cfg.crypto, orderRef, now))), call, map[])
  }

  /** One GET request against store `store`, with the provider's POST (if the
      route makes one) settling to `post`, at wall-clock time `now` in ms. */
  function Handle(cfg: Config, store: Store, req: Request, post: PostOutcome, now: int): Outcome {
    if !Authorized(req.apiKey, cfg.apiKey) then Outcome(Unauthorized, None, store)
    else if req.params.Malformed? then Outcome(Failure("Invalid JSON"), None, store)
    else
      var params := Lookup(req.params);
      if req.operation == Some("refresh-qr") then RefreshQr(cfg, store, params, now)
      else if req.operation == Some("sign") then Sign(cfg, store, req, post, now)
      else if req.operation == Some("auth") then Auth(store, req, post)
      else if req.operation == Some("collect") then Collect(cfg, store, params, post, now)
      else Outcome(Failure("Unknown method"), None, store)
  }

  predicate KnownMethod(operation: JsStr) {
    operation in {Some("refresh-qr"), Some("sign"), Some("auth"), Some("collect")}
  }

  // ---------------------------------------------------------------------------
  // The route, performed on its store in place
  // ---------------------------------------------------------------------------

  class Handler {
    const config: Config
    var secretKeyStore: Store

    constructor(config: Config)
      ensures this.config == config && secretKeyStore == map[]
    {
      this.config := config;
      secretKeyStore := map[];
    }

    method Get(req: Request, post: PostOutcome, now: int) returns (response: Response, call: Option<ProviderCall>)
      modifies this
      ensures Outcome(response, call, secretKeyStore) == Handle(config, old(secretKeyStore), req, post, now)
    {
      call := None;
      if !Authorized(req.apiKey, config.apiKey) {
        return Unauthorized, None;
      }
      if req.params.Malformed? {
        return Failure("Invalid JSON"), None;
      }
      var params := Lookup(req.params);
      var result: CallResult;

      if req.operation == Some("refresh-qr") {
        var startToken := params.qrStartToken;
        var qr := GenerateQrData(config.crypto, startToken, StoreGet(secretKeyStore, startToken), now, params.startDate);
        if qr.None? {
          return Failure("Failed to refresh QR"), None;
        }
        response := QrData(qr.value);

      } else if req.operation == Some("sign") {
        call := Some(SignCall(config.crypto, req.forwardedFor, req.userVisibleData));
        result := Call(post);
        if result.NoData? {
          return Failure("Failed to call BankID"), call;
        }
        var qr := GenerateQrData(config.crypto, result.StartToken(), result.StartSecret(), now, Some(now));
        if qr.None? {
          return ServerError, call;
        }
        response := Forwarded(result, qr, None);
        secretKeyStore := secretKeyStore[result.StartToken() := result.StartSecret()];

      } else if req.operation == Some("auth") {
        call := Some(AuthCall(req.forwardedFor));
        var data := Call(post);
        if data.NoData? {
          return Failure("Failed to call BankID"), call;
        }
        var orderRef, autoStartToken := None, None;
        if data.Data? {
          orderRef, autoStartToken := data.body.orderRef, data.body.autoStartToken;
        }
        response := OrderStarted(orderRef, data.StartToken(), autoStartToken);
        secretKeyStore := secretKeyStore[data.StartToken() := data.StartSecret()];

      } else if req.operation == Some("collect") {
        var orderRef := params.orderRef;
        if !Truthy(orderRef) {
          return Failure("No orderRef specified"), None;
        }
        call := Some(CollectCall(orderRef));
        result := Call(post);
        if result.NoData? {
          return ServerError, call;
        }
        var secret: JsStr := None;
        if result.IsComplete() {
          var oneTime := OneTimeSecret(config.crypto, orderRef, now);
          if !NumberTruthy(result.body.personalNumber) {
            return Failure("Invalid personal number"), call;
          }
          secretKeyStore := map[];
          secret := Some(oneTime);
        }
        response := Forwarded(result, None, secret);

      } else {
        return Failure("Unknown method"), None;
      }
    }
  }

  // ---------------------------------------------------------------------------
  // Properties of the route
  // ---------------------------------------------------------------------------

  /** A code the route generates reads back as the token, the whole seconds
      since the order time, and the HMAC of that time keyed by the secret. */
  lemma GenerateQrDataReadsBack(c: Crypto, token: JsStr, secret: JsStr, now: int, orderTime: int)
    requires Truthy(token) && Truthy(secret) && '.' !in token.value
    ensures var qr := GenerateQrData(c, token, secret, now, Some(orderTime));
      qr.Some? && Split(qr.value).Some? &&
      Split(qr.value).value.token == token.value &&
      ParseInt(Split(qr.value).value.time) == Some(ElapsedSeconds(now, orderTime)) &&
      Split(qr.value).value.authCode == c.hmacSha256Hex(secret.value, Split(qr.value).value.time)
  {
    RotatingQrReadsBack(c, token.value, secret.value, now, orderTime);
  }

  /** The API key is checked before anything else: a request without the
      configured key is answered 401, with no provider call and the store
      as it was. */
  lemma UnauthorizedFirst(cfg: Config, store: Store, req: Request, post: PostOutcome, now: int)
    requires !Authorized(req.apiKey, cfg.apiKey)
    ensures Handle(cfg, store, req, post, now) == Outcome(Unauthorized, None, store)
  {
  }

  /** With no key configured, every request is unauthorized. */
  lemma UnsetKeyRejectsAll(cfg: Config, store: Store, req: Request, post: PostOutcome, now: int)
    requires cfg.apiKey.None?
    ensures Handle(cfg, store, req, post, now).response == Unauthorized
  {
  }

  /** Unparseable params are refused before any dispatch. */
  lemma InvalidJsonLeavesStore(cfg: Config, store: Store, req: Request, post: PostOutcome, now: int)
    requires Authorized(req.apiKey, cfg.apiKey) && req.params.Malformed?
    ensures Handle(cfg, store, req, post, now) == Outcome(Failure("Invalid JSON"), None, store)
  {
  }

  /** A method outside the four cases is refused, with no call and no change. */
  lemma UnknownMethodLeavesStore(cfg: Config, store: Store, req: Request, post: PostOutcome, now: int)
    requires Authorized(req.apiKey, cfg.apiKey) && !req.params.Malformed? && !KnownMethod(req.operation)
    ensures Handle(cfg, store, req, post, now) == Outcome(Failure("Unknown method"), None, store)
  {
  }

  /** `refresh-qr` for a token with no truthy stored secret produces no code. */
  lemma RefreshWithoutSecretFails(cfg: Config, store: Store, req: Request, post: PostOutcome, now: int)
    requires Authorized(req.apiKey, cfg.apiKey) && !req.params.Malformed? && req.operation == Some("refresh-qr")
    requires !Truthy(StoreGet(store, Lookup(req.params).qrStartToken))
    ensures Handle(cfg, store, req, post, now) == Outcome(Failure("Failed to refresh QR"), None, store)
  {
  }

  /** `refresh-qr` computes the code from the secret stored under the token
      and the order time the client sent, and changes nothing. */
  lemma RefreshUsesStoredSecret(cfg: Config, store: Store, req: Request, post: PostOutcome, now: int)
    requires Authorized(req.apiKey, cfg.apiKey) && req.params.Parsed? && req.operation == Some("refresh-qr")
    requires var p := req.params.fields; Truthy(p.qrStartToken) && Truthy(StoreGet(store, p.qrStartToken))
    ensures var p := req.params.fields;
      Handle(cfg, store, req, post, now) ==
      Outcome(QrData(RotatingQr(cfg.crypto, p.qrStartToken.value, store[p.qrStartToken].value, now, p.startDate)), None, store)
  {
  }

  /** `auth` keeps the start secret in the store and answers only the order
      reference and the two start tokens: the secret is not in the reply. */
  lemma AuthKeepsSecretServerSide(cfg: Config, store: Store, req: Request, body: ProviderBody, now: int)
    requires Authorized(req.apiKey, cfg.apiKey) && !req.params.Malformed? && req.operation == Some("auth")
    ensures Handle(cfg, store, req, Resolved(Some(body)), now) ==
      Outcome(OrderStarted(body.orderRef, body.qrStartToken, body.autoStartToken),
              Some(AuthCall(req.forwardedFor)),
              store[body.qrStartToken := body.qrStartSecret])
  {
  }

  /** The `!data` guard of `auth` only catches an undefined result: the
      `{ error }` object of a failed axios call passes it, is answered as an
      order with every field undefined, and stores undefined under undefined. */
  lemma AuthErrorPassesGuard(cfg: Config, store: Store, req: Request, now: int)
    requires Authorized(req.apiKey, cfg.apiKey) && !req.params.Malformed? && req.operation == Some("auth")
    ensures Handle(cfg, store, req, RejectedAxios, now) ==
      Outcome(OrderStarted(None, None, None), Some(AuthCall(req.forwardedFor)), store[None := None])
  {
  }

  /** `sign` sends the text base64-encoded over UTF-8 with the markdown
      format, stores the secret, and passes the provider's result on with the
      code for second 0 added: the order time is the current time. */
  lemma SignAddsCodeForSecondZero(cfg: Config, store: Store, req: Request, body: ProviderBody, now: int)
    requires Authorized(req.apiKey, cfg.apiKey) && !req.params.Malformed? && req.operation == Some("sign")
    requires Truthy(body.qrStartToken) && Truthy(body.qrStartSecret)
    ensures var o := Handle(cfg, store, req, Resolved(Some(body)), now);
      && o.call == Some(SignCall(cfg.crypto, req.forwardedFor, req.userVisibleData))
      && o.call.value.body["userVisibleDataFormat"] == Some("simpleMarkdownV1")
      && o.store == store[body.qrStartToken := body.qrStartSecret]
      && o.response == Forwarded(Data(body),
           Some(Payload(body.qrStartToken.value, "0", cfg.crypto.hmacSha256Hex(body.qrStartSecret.value, "0"))), None)
  {
    assert ElapsedSeconds(now, now) == 0;
    assert IntToDecimal(0) == "0";
  }

  /** `sign` whose provider result has no start token or secret (among them
      the `{ error }` object) throws in `generateQrData` outside any `try`:
      the request fails and the store is left alone. */
  lemma SignWithoutStartFieldsThrows(cfg: Config, store: Store, req: Request, post: PostOutcome, now: int)
    requires Authorized(req.apiKey, cfg.apiKey) && !req.params.Malformed? && req.operation == Some("sign")
    requires !Call(post).NoData?
    requires !Truthy(Call(post).StartToken()) || !Truthy(Call(post).StartSecret())
    ensures Handle(cfg, store, req, post, now).response == ServerError
    ensures Handle(cfg, store, req, post, now).store == store
  {
  }

  /** `collect` without an order reference makes no provider call. */
  lemma CollectNeedsOrderRef(cfg: Config, store: Store, req: Request, post: PostOutcome, now: int)
    requires Authorized(req.apiKey, cfg.apiKey) && !req.params.Malformed? && req.operation == Some("collect")
    requires !Truthy(Lookup(req.params).orderRef)
    ensures Handle(cfg, store, req, post, now) == Outcome(Failure("No orderRef specified"), None, store)
  {
  }

  /** A provider result that is not `complete` is passed on unchanged, and
      the store is left alone. */
  lemma CollectPassesOnOpenOrder(cfg: Config, store: Store, req: Request, post: PostOutcome, now: int)
    requires Authorized(req.apiKey, cfg.apiKey) && !req.params.Malformed? && req.operation == Some("collect")
    requires Truthy(Lookup(req.params).orderRef) && !Call(post).IsComplete() && !Call(post).NoData?
    ensures Handle(cfg, store, req, post, now) ==
      Outcome(Forwarded(Call(post), None, None), Some(CollectCall(Lookup(req.params).orderRef)), store)
  {
  }

  /** An undefined provider result cannot be serialised as the reply: the
      request fails after the provider call, and the store is left alone. */
  lemma CollectUndefinedThrows(cfg: Config, store: Store, req: Request, post: PostOutcome, now: int)
    requires Authorized(req.apiKey, cfg.apiKey) && !req.params.Malformed? && req.operation == Some("collect")
    requires Truthy(Lookup(req.params).orderRef) && Call(post).NoData?
    ensures Handle(cfg, store, req, post, now) ==
      Outcome(ServerError, Some(CollectCall(Lookup(req.params).orderRef)), store)
  {
  }

  /** A `complete` result with a falsy personal number is refused, and the
      store is not cleared. */
  lemma CollectRejectsFalsyPersonalNumber(cfg: Config, store: Store, req: Request, body: ProviderBody, now: int)
    requires Authorized(req.apiKey, cfg.apiKey) && !req.params.Malformed? && req.operation == Some("collect")
    requires Truthy(Lookup(req.params).orderRef)
    requires body.status == Some("complete") && !NumberTruthy(body.personalNumber)
    ensures Handle(cfg, store, req, Resolved(Some(body)), now).response == Failure("Invalid personal number")
    ensures Handle(cfg, store, req, Resolved(Some(body)), now).store == store
  {
  }

  /** A `complete` result with a personal number empties the store and
      carries the one-time secret derived from the order reference and now. */
  lemma CollectCompleteEmptiesStore(cfg: Config, store: Store, req: Request, body: ProviderBody, now: int)
    requires Authorized(req.apiKey, cfg.apiKey) && !req.params.Malformed? && req.operation == Some("collect")
    requires Truthy(Lookup(req.params).orderRef)
    requires body.status == Some("complete") && NumberTruthy(body.personalNumber)
    ensures var orderRef := Lookup(req.params).orderRef.value;
      Handle(cfg, store, req, Resolved(Some(body)), now) ==
      Outcome(Forwarded(Data(body), None, Some(cfg.crypto.sha1Hex(orderRef + "-" + IntToDecimal(now)))),
              Some(CollectCall(Some(orderRef))), map[])
  {
  }

  /** The store changes in exactly three ways: `sign` and `auth` add one
      entry, and a completed collect empties it. */
  lemma StoreChanges(cfg: Config, store: Store, req: Request, post: PostOutcome, now: int)
    ensures var o := Handle(cfg, store, req, post, now);
      || o.store == store
      || (req.operation in {Some("sign"), Some("auth")} &&
          o.store == store[Call(post).StartToken() := Call(post).StartSecret()])
      || (req.operation == Some("collect") && Call(post).IsComplete() && o.store == map[])
  {
  }

  /** Once a collect has completed, no start token has a code any more:
      every `refresh-qr` that follows fails. */
  lemma NoCodeAfterCompletion(cfg: Config, store: Store, collect: Request, body: ProviderBody, now: int,
                              refresh: Request, post: PostOutcome, later: int)
    requires Authorized(collect.apiKey, cfg.apiKey) && !collect.params.Malformed? && collect.operation == Some("collect")
    requires Truthy(Lookup(collect.params).orderRef)
    requires body.status == Some("complete") && NumberTruthy(body.personalNumber)
    requires Authorized(refresh.apiKey, cfg.apiKey) && !refresh.params.Malformed? && refresh.operation == Some("refresh-qr")
    ensures var after := Handle(cfg, store, collect, Resolved(Some(body)), now).store;
      Handle(cfg, after, refresh, post, later).response == Failure("Failed to refresh QR")
  {
    CollectCompleteEmptiesStore(cfg, store, collect, body, now);
  }

  /** After `auth` has stored a start secret, `refresh-qr` for that token
      answers the rotating code keyed by that secret. */
  lemma AuthThenRefresh(cfg: Config, store: Store, auth: Request, body: ProviderBody, now: int,
                        refresh: Request, post: PostOutcome, later: int)
    requires Authorized(auth.apiKey, cfg.apiKey) && !auth.params.Malformed? && auth.operation == Some("auth")
    requires Truthy(body.qrStartToken) && Truthy(body.qrStartSecret)
    requires Authorized(refresh.apiKey, cfg.apiKey) && refresh.params.Parsed? && refresh.operation == Some("refresh-qr")
    requires refresh.params.fields.qrStartToken == body.qrStartToken
    ensures var after := Handle(cfg, store, auth, Resolved(Some(body)), now).store;
      Handle(cfg, after, refresh, post, later).response ==
      QrData(RotatingQr(cfg.crypto, body.qrStartToken.value, body.qrStartSecret.value, later, refresh.params.fields.startDate))
  {
    AuthKeepsSecretServerSide(cfg, store, auth, body, now);
  }
}
