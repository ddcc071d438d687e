# BankID QR login for Next.js, modelled in Dafny

The repository adds Swedish BankID sign-in to a Next.js application. It has
two sides.

- **The server side** is a GET route, `/api/bankId`. It talks to the BankID
  Relying Party API (version 6.0) over mutual TLS. It keeps a process-wide
  map from each order's `qrStartToken` to its `qrStartSecret`. From that
  secret it computes the animated QR code: `bankid.<token>.<seconds>.<HMAC-SHA-256(secret, seconds)>`.
- **The client side** is a React hook. It starts an order, polls `collect`
  every 2 s until the order completes or fails, and fetches a fresh QR
  payload every 2 s. It renders the payload as a data-URL image. The newer
  hook gives up after 30 s: its next collect tick stops polling with an
  error, unless that reply reports `complete`, which still signs the user
  in (`Session.CompleteWins`); QR refreshing stops either way. The earlier hook only stops refreshing the QR code then; its
  collect interval captured the timeout flag when polling started, so it
  keeps polling (`LegacySession.StaleTimeoutKeepsPolling`).

Both sides exist in two versions, and each version is modelled separately:

| source | module | file |
|---|---|---|
| src/api/bankid.ts | `Route` | route.dfy |
| api/bankid.ts (earlier version) | `LegacyRoute` | legacy_route.dfy |
| src/hooks/useBankId.ts | `Session` | session.dfy |
| hooks/useBankIdQrCode.ts (earlier version) | `LegacySession` | legacy_session.dfy |

Four shared modules support them:

- `Common`: JavaScript values at the boundary. A missing string is
  `None`. `Truthy` is JavaScript truthiness. `Interpolate` gives template
  literals, where undefined prints as `undefined`. It also holds the
  decimal `toString` of integers and the crypto and encoding primitives,
  which are taken as uninterpreted functions.
- `RotatingCode`: the QR payload, its parser, and the round trip between
  the two.
- `Gateway`: requests, what the provider POST can settle to, the route's
  replies, and the secret store.
- `Replies`: the JSON replies as the hooks read them.

**The routes.** A pure function `Handle(config, store, request, post, now)`
gives the reply, the provider call made (if any), and the new store. Here
`post` is how the provider POST settles, and `now` is the clock in ms. The
class `Handler` holds the store as a field. Its `Get` method performs one
request in place, and its postcondition ties the result to `Handle`. An
exception that escapes the handler, which Next.js answers with a 500, is
the reply `ServerError`.

**The hooks.** A hook is a `State` holding all its state cells, plus the
live timers and intervals. Each callback, effect run, timer expiry or
settled request is an `Event`, and `Step` applies one event atomically.
An effect is an event of its own: React runs it after a render in which one
of its dependencies changed, and each run first clears what the previous
run started. A tick is only an event while its interval is live. The class
`Hook` holds the same cells as fields, and each of its methods ensures
`Snapshot() == Step(old(Snapshot()), e)`. The lemmas are stated over
`Step` and `Run`, which folds `Step` over a sequence of events.

Some behaviours of the code are proved as they are written:

- In `src/api/bankid.ts`:
  - the `{ error }` object of a failed provider call passes the `!data`
    guard of `auth` (`Route.AuthErrorPassesGuard`);
  - `sign` forwards the provider's whole result, start secret included.
- In `api/bankid.ts`:
  - `auth` sends the client address under `ip` rather than `endUserIp`;
  - a missing token is written `undefined` into the payload
    (`LegacyRoute.UndefinedTokenInPayload`).
- In `hooks/useBankIdQrCode.ts`:
  - the collect loop keeps the `hasTimedOut` of the render that started it
    (`LegacySession.StaleTimeoutKeepsPolling`);
  - nothing ever clears `completed`, so a retrigger after a sign-in shows
    no new code (`LegacySession.RetriggerAfterCompletionShowsNoCode`).
- In `src/hooks/useBankId.ts`, completion does not disarm the sign-in
  timeout (`Session.TimeoutAfterCompletion`).

## Model

| member | source | states |
|---|---|---|
| Common.Interpolate | src/api/bankid.ts:162 | a template literal prints a present string as itself |
| Common.IntToDecimal | src/api/bankid.ts:55 | `toString` of an integer is non-empty, has no '.', is all digits exactly when the integer is not negative, and has no leading zero (after the sign) |
| Common.NatDecimalRoundTrip | src/api/bankid.ts:55 | the digits of a natural number read back as that number |
| Common.IntDecimalRoundTrip | src/api/bankid.ts:55 | parsing `toString` of an integer gives the integer back |
| Common.DecimalInjective | src/api/bankid.ts:55 | distinct integers print differently |
| RotatingCode.ElapsedSeconds | src/api/bankid.ts:55 | `Math.floor(ms / 1000)`: the whole seconds elapsed, bounded on both sides, also for negative differences |
| RotatingCode.QrTime | src/api/bankid.ts:55 | an Invalid Date gives "NaN"; otherwise the text parses back to the elapsed seconds; never contains '.' |
| RotatingCode.FirstDot | src/api/bankid.ts:62 | finds the first '.' of a string, or reports there is none |
| RotatingCode.FirstDotAfter | src/api/bankid.ts:62 | in `a + "." + b` with no '.' in `a`, the first '.' is at `|a|` |
| RotatingCode.PayloadRoundTrip | src/api/bankid.ts:62 | `bankid.<token>.<time>.<code>` splits back into token, time and code |
| RotatingCode.RotatingQrReadsBack | src/api/bankid.ts:47-64 | a generated code reads back as the token, the elapsed seconds, and the HMAC of that time keyed by the secret |
| RotatingCode.CodeChangesEachSecond | src/api/bankid.ts:55-62 | for any token, codes for different elapsed seconds differ |
| RotatingCode.RotatingQrShape | src/api/bankid.ts:55-62 | after the order time, the payload is prefix, token, decimal digits, and a 64-character lowercase hex HMAC |
| Gateway.Lookup | src/api/bankid.ts:78-93 | parsed params give their fields; without parsed params the token and order reference are undefined (not merely falsy) and the start date is invalid |
| Gateway.Call | src/api/bankid.ts:28-45 | an AxiosError becomes `{ error }`; any other rejection, or a response without data, becomes undefined; otherwise the response data |
| Gateway.StoreGet | src/api/bankid.ts:97 | an absent key reads as undefined; a present key reads as the value stored under it |
| Route.GenerateQrData | src/api/bankid.ts:47-53 | no code exactly when the token or the secret is falsy |
| Route.Handler.constructor | src/api/bankid.ts:11 | the store starts empty |
| Route.Handler.Get | src/api/bankid.ts:67-185 | the reply, the provider call and the new store are those of `Handle` on the old store |
| Route.GenerateQrDataReadsBack | src/api/bankid.ts:47-64 | a code the route generates reads back as token, elapsed seconds and keyed HMAC |
| Route.UnauthorizedFirst | src/api/bankid.ts:71-76 | a request without the configured API key gets 401, with no call and no store change |
| Route.UnsetKeyRejectsAll | src/api/bankid.ts:74 | with no key configured, every request is unauthorized |
| Route.InvalidJsonLeavesStore | src/api/bankid.ts:78-85 | params that do not parse are refused before dispatch |
| Route.UnknownMethodLeavesStore | src/api/bankid.ts:180-181 | a method outside the four is refused, with no call and no change |
| Route.RefreshWithoutSecretFails | src/api/bankid.ts:90-104 | `refresh-qr` with no truthy stored secret answers "Failed to refresh QR" |
| Route.RefreshUsesStoredSecret | src/api/bankid.ts:90-105 | `refresh-qr` answers the rotating code for the stored secret and the client's start date, and changes nothing |
| Route.AuthKeepsSecretServerSide | src/api/bankid.ts:127-147 | `auth` answers order reference and start tokens only, and stores the secret under the start token |
| Route.AuthErrorPassesGuard | src/api/bankid.ts:127-147 | a failed provider call is answered as an order with undefined fields, and stores undefined under undefined |
| Route.SignAddsCodeForSecondZero | src/api/bankid.ts:107-125 | `sign` posts the base64 UTF-8 text in markdown format, stores the secret, and forwards the result with the code for second 0 |
| Route.SignWithoutStartFieldsThrows | src/api/bankid.ts:118-122 | `sign` without start token or secret (the `{ error }` object included) throws, and the store is unchanged |
| Route.CollectNeedsOrderRef | src/api/bankid.ts:149-155 | `collect` without an order reference makes no call |
| Route.CollectPassesOnOpenOrder | src/api/bankid.ts:157-184 | a defined result that is not `complete` is passed on unchanged, and the store is unchanged |
| Route.CollectUndefinedThrows | src/api/bankid.ts:157-184 | an undefined provider result cannot be serialised by `NextResponse.json`: the request fails after the provider call, with the store unchanged |
| Route.CollectRejectsFalsyPersonalNumber | src/api/bankid.ts:160-166 | a `complete` result whose personal number is NaN or 0 is refused, and the store is kept |
| Route.CollectCompleteEmptiesStore | src/api/bankid.ts:160-178 | a `complete` result empties the store and carries `sha1(orderRef-now)` |
| Route.StoreChanges | src/api/bankid.ts:124-169 | the store changes only when `sign`/`auth` add one entry or a completed collect empties it |
| Route.NoCodeAfterCompletion | src/api/bankid.ts:90-169 | after a completed collect, every `refresh-qr` fails |
| Route.AuthThenRefresh | src/api/bankid.ts:90-147 | after `auth`, `refresh-qr` for its token answers the code keyed by its secret |
| LegacyRoute.GenerateQrData | api/bankid.ts:45-59 | no code exactly when the secret is undefined |
| LegacyRoute.Handler.constructor | api/bankid.ts:9 | the store starts empty |
| LegacyRoute.Handler.Get | api/bankid.ts:61-119 | the reply, the provider call and the new store are those of `Handle` on the old store |
| LegacyRoute.InvalidJsonFirst | api/bankid.ts:65-72 | params that do not parse are refused before dispatch |
| LegacyRoute.SignIsUnknown | api/bankid.ts:114-115 | every method but the three, `sign` included, is refused with no change |
| LegacyRoute.RefreshUsesWhateverIsStored | api/bankid.ts:77-87 | the code uses whatever secret is stored, empty included |
| LegacyRoute.UndefinedTokenInPayload | api/bankid.ts:45-56 | a code for a missing token carries the token "undefined" |
| LegacyRoute.RefreshWithoutSecretThrows | api/bankid.ts:51-87 | with no stored secret the HMAC throws, and nothing changes |
| LegacyRoute.AuthKeepsSecretServerSide | api/bankid.ts:89-103 | `auth` posts `ip`, not `endUserIp`; it answers order reference and tokens, and stores the secret |
| LegacyRoute.AuthWithoutDataThrows | api/bankid.ts:92-97 | with undefined provider data, `auth` throws |
| LegacyRoute.CollectNeedsOrderRef | api/bankid.ts:105-110 | `collect` without an order reference makes no call |
| LegacyRoute.CollectPassesOn | api/bankid.ts:112-118 | `collect` passes any defined result on, whatever its status, and leaves the store |
| LegacyRoute.CollectUndefinedThrows | api/bankid.ts:112-118 | an undefined provider result cannot be serialised by `NextResponse.json`: the request fails after the provider call |
| LegacyRoute.StoreOnlyGrows | api/bankid.ts:102 | only `auth` changes the store, by one entry; no key is ever removed |
| Session.InitQuery | src/hooks/useBankId.ts:119-125 | the method defaults to "auth"; the text to sign is sent exactly when it is truthy |
| Session.Hook.constructor | src/hooks/useBankId.ts:81-90 | the initial cells |
| Session.Hook.Reset | src/hooks/useBankId.ts:92-100 | `reset` performed in place |
| Session.Hook.RetriggerAuth | src/hooks/useBankId.ts:102-105 | `retriggerAuth` performed in place |
| Session.Hook.BeginInitiation | src/hooks/useBankId.ts:108-125 | the initiation effect performed in place; it sends the `InitQuery` of the options exactly when triggered without auth data |
| Session.Hook.InitAttemptResult | src/hooks/useBankId.ts:130-162 | one settled initiation attempt performed in place; it sends the same query again exactly when an attempt before the fifth failed |
| Session.Hook.Timeout | src/hooks/useBankId.ts:114-116 | the sign-in timeout performed in place |
| Session.Hook.StartCollectPolling | src/hooks/useBankId.ts:177-223 | the collect effect performed in place |
| Session.Hook.CollectResponse | src/hooks/useBankId.ts:180-212 | one answered collect tick performed in place |
| Session.Hook.CollectFailure | src/hooks/useBankId.ts:213-217 | one failed collect tick performed in place |
| Session.Hook.StartQrRefresh | src/hooks/useBankId.ts:226-230 | the QR refresh effect performed in place |
| Session.Hook.QrTick | src/hooks/useBankId.ts:10-68 | one refresh tick performed in place; the request it sends is `RefreshSent` of the state before the tick |
| Session.RefreshCarriesEffectTime | src/hooks/useBankId.ts:50-68 | after the refresh effect, ticks send its start token and the time it ran as `startDate` |
| Session.RefreshRequestFixed | src/hooks/useBankId.ts:50-68 | successive ticks of one interval send the same token and `startDate` |
| Session.Hook.QrEncodeResult | src/hooks/useBankId.ts:233-245 | the image effect performed in place |
| Session.Hook.TriggerAutoSignIn | src/hooks/useBankId.ts:254 | `triggerAutoSignIn` performed in place |
| Session.StepKeepsInv | src/hooks/useBankId.ts:127-162 | every event keeps the attempt count within the retry budget, and keeps a start token for live refreshing |
| Session.RunKeepsInv | src/hooks/useBankId.ts:127-162 | the invariant holds after any sequence of events |
| Session.InitialInv | src/hooks/useBankId.ts:81-90 | the initial state satisfies the invariant |
| Session.ResetFields | src/hooks/useBankId.ts:92-100 | `reset` clears image, auth, identification and four flags, and keeps hint code, data string, counter and timers |
| Session.RetriggerIsResetThenCount | src/hooks/useBankId.ts:102-105 | `retriggerAuth` is `reset` plus one trigger |
| Session.InitIdleUntilTriggered | src/hooks/useBankId.ts:109 | no initiation before the first trigger or while auth data is present |
| Session.InitArmsTimeout | src/hooks/useBankId.ts:112-116 | initiation clears `hasTimedOut`, arms the 30 s timeout and sends attempt 1 |
| Session.RetriggerStartsInitiation | src/hooks/useBankId.ts:102-116 | after a retrigger, initiation always starts |
| Session.TimeoutOnlyWhenDue | src/hooks/useBankId.ts:114-116 | `hasTimedOut` is set exactly when the timeout is armed and due |
| Session.LeadingFailures | src/hooks/useBankId.ts:144-153 | counts the failed attempts before the first success |
| Session.IdleRepliesInert | src/hooks/useBankId.ts:130-162 | with no attempt in flight, replies change nothing |
| Session.RetryPending | src/hooks/useBankId.ts:150-155 | within the budget, each failure sends one more attempt |
| Session.RetrySucceeds | src/hooks/useBankId.ts:144-149 | the first success within the budget sets `auth`, and nothing follows it |
| Session.RetryExhausted | src/hooks/useBankId.ts:153-160 | failing through the budget sets `hasError` with no further attempt |
| Session.FifthFailureSetsError | src/hooks/useBankId.ts:127-160 | five failures set `hasError`, leave `auth`, and end the attempts |
| Session.EarlySuccessSetsAuth | src/hooks/useBankId.ts:127-160 | a success among the first five attempts sets `auth` without `hasError` |
| Session.CompleteWins | src/hooks/useBankId.ts:205-207 | `complete` is tested first, even when timed out or in error |
| Session.TickAfterCompletionStops | src/hooks/useBankId.ts:181-184 | a tick after completion stops polling and changes nothing else |
| Session.FailedReplyStops | src/hooks/useBankId.ts:208-212 | `failed`, or any open reply once timed out or in error, stops polling with `hasError` and the hint code |
| Session.CollectThrowStops | src/hooks/useBankId.ts:213-217 | a failed collect request stops polling with `hasError` |
| Session.CollectNeedsOrderRef | src/hooks/useBankId.ts:178 | polling runs exactly when triggered and an order reference is present |
| Session.PollUntilComplete | src/hooks/useBankId.ts:180-212 | any open replies followed by `complete` end completed with that identification, and nothing else changed |
| Session.QrTickStopsWhenDone | src/hooks/useBankId.ts:61-65 | a refresh tick once completed, timed out or in error stops refreshing and changes nothing else |
| Session.RefreshNeedsTokenAndOrderRef | src/hooks/useBankId.ts:227 | refreshing runs exactly when triggered, with token and order reference, outside auto-start |
| Session.QrThrowSetsError | src/hooks/useBankId.ts:45-48 | a failed refresh request sets `hasError` |
| Session.ImageGuard | src/hooks/useBankId.ts:233-245 | no change for an empty string, a timeout, an error or auto-start; otherwise the image becomes the encoded one, or "" when encoding fails, and nothing else changes |
| Session.CompletionIsFinal | src/hooks/useBankId.ts:92-207 | until reset, completion and the identification survive every event |
| Session.ErrorIsFinal | src/hooks/useBankId.ts:92-100 | until reset, `hasError` survives every event |
| Session.TimeoutAfterCompletion | src/hooks/useBankId.ts:114-207 | the timeout still fires on a completed session |
| LegacySession.Hook.constructor | hooks/useBankIdQrCode.ts:62-68 | the initial cells |
| LegacySession.Hook.RetriggerAuth | hooks/useBankIdQrCode.ts:70-72 | `retriggerAuth` performed in place |
| LegacySession.Hook.BeginInitiation | hooks/useBankIdQrCode.ts:75-106 | the initiation effect performed in place |
| LegacySession.Hook.AuthResult | hooks/useBankIdQrCode.ts:86-103 | the settled initiating request performed in place |
| LegacySession.Hook.Timeout | hooks/useBankIdQrCode.ts:82-84 | the sign-in timeout performed in place |
| LegacySession.Hook.StartCollectPolling | hooks/useBankIdQrCode.ts:109-151 | the collect effect performed in place |
| LegacySession.Hook.CollectTick | hooks/useBankIdQrCode.ts:114-145 | one collect tick performed in place |
| LegacySession.Hook.StartQrRefresh | hooks/useBankIdQrCode.ts:154-166 | the QR refresh effect performed in place |
| LegacySession.Hook.QrTick | hooks/useBankIdQrCode.ts:14-47 | one refresh tick performed in place; the request it sends is `RefreshSent` of the state before the tick |
| LegacySession.RefreshCarriesEffectTime | hooks/useBankIdQrCode.ts:42-47 | after the refresh effect, every tick sends its start token and the time it ran, whatever the replies |
| LegacySession.Hook.Render | hooks/useBankIdQrCode.ts:168-176 | the render-time encoding performed in place |
| LegacySession.StepKeepsInv | hooks/useBankIdQrCode.ts:109-166 | every event keeps polling and refreshing after the first trigger, and keeps a start token for refreshing |
| LegacySession.RunKeepsInv | hooks/useBankIdQrCode.ts:109-166 | the invariant holds after any sequence of events |
| LegacySession.InitialInv | hooks/useBankIdQrCode.ts:62-68 | the initial state satisfies the invariant |
| LegacySession.InitIdleUntilTriggered | hooks/useBankIdQrCode.ts:76-78 | no initiation before the first trigger |
| LegacySession.InitArmsTimeout | hooks/useBankIdQrCode.ts:80-103 | initiation clears `hasTimedOut`, arms 30 s and sends the request; auth data and completion are kept |
| LegacySession.RetriggerOnlyCounts | hooks/useBankIdQrCode.ts:70-72 | `retriggerAuth` changes only the counter |
| LegacySession.RetriggerAfterCompletionShowsNoCode | hooks/useBankIdQrCode.ts:65-166 | after a completed sign-in, a retriggered order never refreshes its code |
| LegacySession.AuthFailureOnlyLogged | hooks/useBankIdQrCode.ts:100-102 | a failed initiating request changes nothing |
| LegacySession.AuthReplyReplacesAuth | hooks/useBankIdQrCode.ts:96-97 | any answer, a falsy one too, replaces `auth` |
| LegacySession.TimeoutOnlyWhenDue | hooks/useBankIdQrCode.ts:82-84 | `hasTimedOut` is set exactly when the timeout is armed and due |
| LegacySession.PollsWithoutOrderRef | hooks/useBankIdQrCode.ts:109-148 | polling starts after the first trigger, even with no order reference |
| LegacySession.CompleteStopsPolling | hooks/useBankIdQrCode.ts:130-134 | `complete` stores the identification, sets `completed` and stops |
| LegacySession.TimedOutOrFailedStops | hooks/useBankIdQrCode.ts:136-138 | the captured timeout or `failed` stops polling with no other change |
| LegacySession.StaleTimeoutKeepsPolling | hooks/useBankIdQrCode.ts:109-151 | a timeout after polling began does not stop polling |
| LegacySession.CollectFailureKeepsPolling | hooks/useBankIdQrCode.ts:141-144 | a failed collect request leaves the polling running |
| LegacySession.QrSetupClearsWhenDone | hooks/useBankIdQrCode.ts:154-166 | refreshing runs exactly when triggered, with a token, and not completed or timed out |
| LegacySession.QrErrorKeepsData | hooks/useBankIdQrCode.ts:38-40 | a failed refresh request keeps the data string |
| LegacySession.QrAnswerIsEncoded | hooks/useBankIdQrCode.ts:35-172 | a refresh answer becomes the data string and the next render encodes it |
| LegacySession.CompletedForever | hooks/useBankIdQrCode.ts:65-132 | no event ever clears `completed` |

## Left out

- Network and TLS are not modelled: the HTTPS agent, certificates, the
  provider's URL, and `fetch`/`axios` themselves. The settled result of
  each request is a parameter.
- `NextResponse` is not modelled beyond its body. Response headers, URL
  encoding of query strings, and statuses other than 401 and the 500 of
  an escaping exception (`ServerError`) are not modelled. The request
  headers `x-api-key` and `x-forwarded-for` are fields of `Request`.
- `JSON.parse` and `response.json()` are abstracted into their results,
  as are `new Date(string)` and `Number(...)`: parsed fields, a millisecond
  value or None for an Invalid Date, and an integer or None for NaN. JSON
  values other than strings in the read fields are not modelled, and null
  and undefined are not distinguished, except where that decides the
  outcome (the API-key comparison).
- `Common.IntToDecimal` prints every integer in plain digits. JavaScript
  switches to exponent notation from 1e21 on, which elapsed times and
  clocks never reach.
- The `sign` case of src/api/bankid.ts reads `new Date()` twice, in
  `generateQrData` and for the order time. The model takes both as one
  `now`, so the first code is always for second 0.
- The `skipSetBankIdServerSecret` branch of src/api/bankid.ts:172-174 is
  empty, and the route ignores the option. The hook's `skipSetBankIdServerSecret`
  option, which only travels to that branch, is not modelled either.
- HMAC-SHA-256, SHA-1, UTF-8 encoding and base64 are uninterpreted
  functions. `RotatingCode.RotatingQrShape` assumes the HMAC yields 64
  lowercase hex characters.
- Console logging is not modelled.
- The `qrcode` library is represented only by the image it yields or its
  failure.
- The UI components and example pages that call the hooks are not
  modelled.
- api/config.ts is not part of this model; only its API version is cited.
- Time and interleaving are simplified:
  - events are atomic;
  - the environment runs each effect after the render that changed its
    dependencies;
  - timer periods (2 s refresh, 1 s retry delay) are not counted;
  - requests still in flight from a cleaned-up interval are not modelled,
    and neither are concurrent initiation chains.
- In src/hooks/useBankId.ts the effect's cleanup does not cancel the
  retry chain. The model keeps a single attempt counter across `reset`, so
  late replies still apply, but it does not model two chains racing.
- The client sends `startDate.toString()`, which drops milliseconds, and the
  route parses it back with `new Date`. The model does not connect the two
  sides: a hook's `RefreshRequest.startDate` and a route's
  `Params.startDate` are separate values, and no lemma relates them.
- `autoStartToken` and `startToken`, which the hook returns, are plain
  projections of `auth`. They are not separate members.
- `Session.ImageGuard` reads the flags current when the image is
  encoded. The source reads them at the render in which `qrDataString`
  changed, and the model does not keep that render's copy.
