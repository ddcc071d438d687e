/** The `useBankId` hook of src/hooks/useBankId.ts: the browser-side session
    that starts an order (retrying the request), polls its status, refreshes
    the QR code and renders it. The hook's state cells and the live timers
    form a `State`; every callback, effect run, timer or reply is an `Event`
    applied atomically by `Step`. The class `Hook` holds the same cells as
    fields and performs each event in place.

    Effects are events of their own (`InitEffect`, `CollectEffect`,
    `QrEffect`): React runs them after a render in which one of their
    dependencies changed, and each run first clears what the previous run
    started. Because the collect and refresh effects list every flag their
    ticks read among their dependencies, a tick reads the current flags. */
module Session {
  import opened Common
  import opened Replies

  const SignupTimeout := 30000
  const MaxRetries := 5

  /** The hook's options that shape a request: `bankIdMethod` ("sign" or
      "auth") and `userVisibleData`. */
  datatype Options = Options(bankIdMethod: JsStr, userVisibleData: JsStr)

  /** The query of the initiating request: the method, "auth" unless the
      options say otherwise, and the text to sign only when there is one. */
  function InitQuery(o: Options): (q: map<string, string>)
    ensures "method" in q && q["method"] == (if Truthy(o.bankIdMethod) then o.bankIdMethod.value else "auth")
    ensures "userVisibleData" in q <==> Truthy(o.userVisibleData)
    ensures "userVisibleData" in q ==> q["userVisibleData"] == o.userVisibleData.value
    ensures q.Keys <= {"method", "userVisibleData"}
  {
    var chosen := if Truthy(o.bankIdMethod) then o.bankIdMethod.value else "auth";
    if Truthy(o.userVisibleData) then map["method" := chosen, "userVisibleData" := o.userVisibleData.value]
    else map["method" := chosen]
  }

  datatype State = State(
    // the hook's state cells
    triggerCounter: nat,
    auth: Option<AuthData>,
    hasTimedOut: bool,
    hasError: bool,
    completed: bool,
    qrCodeImage: string,
    qrDataString: QrBody,
    identification: Option<CollectData>,
    autoSignIn: bool,
    hintCode: JsStr,
    // the timers
    attempt: nat,           // the initiation attempt in flight, 1 to MaxRetries; 0 when none
    deadline: Option<int>,  // when the sign-in timeout fires, while it is armed
    collecting: bool,       // the collect interval is live
    refreshing: bool,       // the QR refresh interval is live
    refreshToken: JsStr,    // the start token the refresh interval was started with
    refreshStart: int)      // the `startDate` the refresh requests carry

  /** The state at mount. */
  function Initial(): State {
    State(0, None, false, false, false, "", QrText(""), None, false, Some(""),
          0, None, false, false, None, 0)
  }

  datatype Event =
    | ResetCalled                                     // reset()
    | Retriggered                                     // retriggerAuth()
    | InitEffect(now: int)                            // the initiation effect runs
    | InitReply(reply: Fetched<Option<AuthData>>)     // an initiation attempt settles
    | TimerFired(now: int)                            // the sign-in timeout is due
    | CollectEffect                                   // the collect effect runs
    | CollectReply(polled: Fetched<Option<CollectData>>) // a collect tick and its request
    | QrEffect(now: int)                              // the QR refresh effect runs
    | QrReply(refreshed: Fetched<QrBody>)               // a refresh tick and its request
    | ImageEncoded(image: Option<string>)             // the image effect and its encoder
    | AutoSignInTriggered                             // triggerAutoSignIn()

  /** An initiation attempt fails when the request throws or the body is falsy. */
  predicate InitFailed(r: Fetched<Option<AuthData>>) {
    r.Threw? || r.body.None?
  }

  /** `reset`: clears seven cells and leaves the rest. */
  function AfterReset(s: State): State {
    s.(qrCodeImage := "", auth := None, identification := None, completed := false,
       hasTimedOut := false, hasError := false, autoSignIn := false)
  }

  /** The initiation effect: its cleanup clears the previous timeout; it does
      nothing before the first trigger or while `auth` is set; otherwise it
      clears `hasTimedOut`, arms the timeout and sends attempt 1. */
  function AfterInitEffect(s: State, now: int): State {
    var cleaned := s.(deadline := None);
    if s.auth.Some? || s.triggerCounter == 0 then cleaned
    else cleaned.(hasTimedOut := false, deadline := Some(now + SignupTimeout), attempt := 1)
  }

  /** `retryFetch`: a truthy body is the auth data; a failure before the last
      attempt sends the next one a second later; the last failure sets
      `hasError`. */
  function AfterInitReply(s: State, r: Fetched<Option<AuthData>>): State {
    if s.attempt == 0 then s
    else if !InitFailed(r) then s.(auth := r.body, attempt := 0)
    else if s.attempt < MaxRetries then s.(attempt := s.attempt + 1)
    else s.(hasError := true, attempt := 0)
  }

  /** The collect effect starts polling only after the first trigger and
      with an order reference. */
  predicate CollectArmed(s: State) {
    s.triggerCounter != 0 && s.auth.Some? && Truthy(s.auth.value.orderRef)
  }

  /** `collectToken`: a tick after completion stops; a `complete` reply is
      tested first; a `failed` reply, or any other while timed out or in
      error, stops with `hasError` and the reply's hint code; a failed request
      stops with `hasError`. On a null body, reading its hint code throws, and
      the catch sets the same flags. */
  function AfterCollectReply(s: State, r: Fetched<Option<CollectData>>): State {
    if !s.collecting then s
    else if s.completed then s.(collecting := false)
    else match r
      case Threw => s.(hasError := true, collecting := false)
      case Answered(data) =>
        if IsComplete(data) then s.(identification := data, completed := true)
        else if IsFailed(data) || s.hasTimedOut || s.hasError then
          s.(collecting := false, hasError := true, hintCode := if data.Some? then data.value.hintCode else s.hintCode)
        else s
  }

  /** The QR refresh effect starts the refresh interval only after the first
      trigger, with a start token and an order reference, and not in
      auto-start mode; `startDate` is the time it runs. */
  predicate RefreshArmed(s: State) {
    s.triggerCounter != 0 && s.auth.Some? && Truthy(s.auth.value.qrStartToken) &&
    Truthy(s.auth.value.orderRef) && !s.autoSignIn
  }

  function AfterQrEffect(s: State, now: int): State {
    if RefreshArmed(s) then s.(refreshing := true, refreshToken := s.auth.value.qrStartToken, refreshStart := now)
    else s.(refreshing := false)
  }

  /** A refresh tick: it stops once completed, timed out or in error;
      `fetchAndUpdateQRCode` skips the request without a start token; the
      reply body becomes the data string and a failed request sets `hasError`. */
  function AfterQrReply(s: State, r: Fetched<QrBody>): State {
    if !s.refreshing then s
    else if s.completed || s.hasTimedOut || s.hasError then s.(refreshing := false)
    else if !Truthy(s.refreshToken) then s
    else match r
      case Answered(body) => s.(qrDataString := body)
      case Threw => s.(hasError := true)
  }

  /** The image effect: skipped for an empty data string and when timed
      out, in error or in auto-start mode; an encoder failure blanks the
      image. */
  function AfterImageEncoded(s: State, image: Option<string>): State {
    if !QrTruthy(s.qrDataString) || s.hasTimedOut || s.hasError || s.autoSignIn then s
    else s.(qrCodeImage := if image.Some? then image.value else "")
  }

  /** What a refresh request carries: the start token and the `startDate`
      of the effect run that started the interval. */
  datatype RefreshRequest = RefreshRequest(qrStartToken: string, startDate: int)

  /** The request the next refresh tick sends, if it gets past its guards. */
  function RefreshSent(s: State): Option<RefreshRequest> {
    if s.refreshing && !(s.completed || s.hasTimedOut || s.hasError) && Truthy(s.refreshToken)
    then Some(RefreshRequest(s.refreshToken.value, s.refreshStart))
    else None
  }

  function Step(s: State, e: Event): State {
    match e
    case ResetCalled => AfterReset(s)
    case Retriggered => AfterReset(s).(triggerCounter := s.triggerCounter + 1)
    case InitEffect(now) => AfterInitEffect(s, now)
    case InitReply(r) => AfterInitReply(s, r)
    case TimerFired(now) =>
      if s.deadline.Some? && s.deadline.value <= now then s.(hasTimedOut := true, deadline := None) else s
    case CollectEffect => s.(collecting := CollectArmed(s))
    case CollectReply(r) => AfterCollectReply(s, r)
    case QrEffect(now) => AfterQrEffect(s, now)
    case QrReply(r) => AfterQrReply(s, r)
    case ImageEncoded(image) => AfterImageEncoded(s, image)
    case AutoSignInTriggered => s.(autoSignIn := true)
  }

  function Run(s: State, es: seq<Event>): State
    decreases |es|
  {
    if es == [] then s else Run(Step(s, es[0]), es[1..])
  }

  /** What every reachable state satisfies: no more than `MaxRetries`
      attempts, and a live refresh interval has a start token. */
  predicate Inv(s: State) {
    s.attempt <= MaxRetries && (s.refreshing ==> Truthy(s.refreshToken))
  }

  // ---------------------------------------------------------------------------
  // The hook, performed on its cells in place
  // ---------------------------------------------------------------------------

  class Hook {
    const options: Options
    var triggerCounter: nat
    var auth: Option<AuthData>
    var hasTimedOut: bool
    var hasError: bool
    var completed: bool
    var qrCodeImage: string
    var qrDataString: QrBody
    var identification: Option<CollectData>
    var autoSignIn: bool
    var hintCode: JsStr
    var attempt: nat
    var deadline: Option<int>
    var collecting: bool
    var refreshing: bool
    var refreshToken: JsStr
    var refreshStart: int

    ghost function Snapshot(): State
      reads this
    {
      State(triggerCounter, auth, hasTimedOut, hasError, completed, qrCodeImage, qrDataString,
            identification, autoSignIn, hintCode, attempt, deadline, collecting, refreshing,
            refreshToken, refreshStart)
    }

    constructor(options: Options)
      ensures this.options == options && Snapshot() == Initial()
    {
      this.options := options;
      triggerCounter, auth := 0, None;
      hasTimedOut, hasError, completed := false, false, false;
      qrCodeImage, qrDataString, identification := "", QrText(""), None;
      autoSignIn, hintCode := false, Some("");
      attempt, deadline, collecting, refreshing := 0, None, false, false;
      refreshToken, refreshStart := None, 0;
    }

    method Reset()
      modifies this
      ensures Snapshot() == Step(old(Snapshot()), ResetCalled)
    {
      qrCodeImage := "";
      auth := None;
      identification := None;
      completed := false;
      hasTimedOut := false;
      hasError := false;
      autoSignIn := false;
    }

    method RetriggerAuth()
      modifies this
      ensures Snapshot() == Step(old(Snapshot()), Retriggered)
    {
      Reset();
      triggerCounter := triggerCounter + 1;
    }

    /** The initiation effect, with the query of the first attempt when it
        sends one. */
    method BeginInitiation(now: int) returns (query: Option<map<string, string>>)
      modifies this
      ensures Snapshot() == Step(old(Snapshot()), InitEffect(now))
      ensures query.Some? <==> old(auth).None? && old(triggerCounter) != 0
      ensures query.Some? ==> query.value == InitQuery(options)
    {
      query := None;
      deadline := None;
      if auth.Some? || triggerCounter == 0 {
        return;
      }
      query := Some(InitQuery(options));
      hasTimedOut := false;
      deadline := Some(now + SignupTimeout);
      attempt := 1;
    }

    /** A settled initiation attempt, with the query of the retry when one
        follows. */
    method InitAttemptResult(reply: Fetched<Option<AuthData>>) returns (retry: Option<map<string, string>>)
      modifies this
      ensures Snapshot() == Step(old(Snapshot()), InitReply(reply))
      ensures retry.Some? <==> old(attempt) != 0 && InitFailed(reply) && old(attempt) < MaxRetries
      ensures retry.Some? ==> retry.value == InitQuery(options)
    {
      retry := None;
      if attempt == 0 {
        return;
      }
      if reply.Answered? && reply.body.Some? {
        auth := reply.body;
        attempt := 0;
      } else if attempt < MaxRetries {
        retry := Some(InitQuery(options));
        attempt := attempt + 1;
      } else {
        hasError := true;
        attempt := 0;
      }
    }

    method Timeout(now: int)
      modifies this
      ensures Snapshot() == Step(old(Snapshot()), TimerFired(now))
    {
      if deadline.Some? && deadline.value <= now {
        hasTimedOut := true;
        deadline := None;
      }
    }

    method StartCollectPolling()
      modifies this
      ensures Snapshot() == Step(old(Snapshot()), CollectEffect)
    {
      collecting := triggerCounter != 0 && auth.Some? && Truthy(auth.value.orderRef);
    }

    /** A collect tick whose request answered `data`. */
    method CollectResponse(data: Option<CollectData>)
      modifies this
      ensures Snapshot() == Step(old(Snapshot()), CollectReply(Answered(data)))
    {
      if !collecting {
        return;
      }
      if completed {
        collecting := false;
        return;
      }
      if data.Some? && data.value.status == Some("complete") {
        identification := data;
        completed := true;
      } else if (data.Some? && data.value.status == Some("failed")) || hasTimedOut || hasError {
        collecting := false;
        hasError := true;
        if data.Some? {
          hintCode := data.value.hintCode;
        }
      }
    }

    /** A collect tick whose request or JSON parsing threw. */
    method CollectFailure()
      modifies this
      ensures Snapshot() == Step(old(Snapshot()), CollectReply(Threw))
    {
      if !collecting {
        return;
      }
      if completed {
        collecting := false;
        return;
      }
      hasError := true;
      collecting := false;
    }

    method StartQrRefresh(now: int)
      modifies this
      ensures Snapshot() == Step(old(Snapshot()), QrEffect(now))
    {
      refreshing := false;
      if triggerCounter == 0 || auth.None? || !Truthy(auth.value.qrStartToken) || !Truthy(auth.value.orderRef) || autoSignIn {
        return;
      }
      refreshing := true;
      refreshToken := auth.value.qrStartToken;
      refreshStart := now;
    }

    /** A refresh tick, with the request it sends; `reply` is how that
        request settles. */
    method QrTick(reply: Fetched<QrBody>) returns (sent: Option<RefreshRequest>)
      modifies this
      ensures Snapshot() == Step(old(Snapshot()), QrReply(reply))
      ensures sent == RefreshSent(old(Snapshot()))
    {
      sent := None;
      if !refreshing {
        return;
      }
      if completed || hasTimedOut || hasError {
        refreshing := false;
        return;
      }
      if !Truthy(refreshToken) {
        return;
      }
      sent := Some(RefreshRequest(refreshToken.value, refreshStart));
      match reply
      case Answered(body) => qrDataString := body;
      case Threw => hasError := true;
    }

    method QrEncodeResult(image: Option<string>)
      modifies this
      ensures Snapshot() == Step(old(Snapshot()), ImageEncoded(image))
    {
      if !QrTruthy(qrDataString) || hasTimedOut || hasError || autoSignIn {
        return;
      }
      qrCodeImage := if image.Some? then image.value else "";
    }

    method TriggerAutoSignIn()
      modifies this
      ensures Snapshot() == Step(old(Snapshot()), AutoSignInTriggered)
    {
      autoSignIn := true;
    }
  }

  // ---------------------------------------------------------------------------
  // Properties of the hook
  // ---------------------------------------------------------------------------

  /** Every event keeps the invariant: the retry bound holds in every
      reachable state. */
  lemma StepKeepsInv(s: State, e: Event)
    requires Inv(s)
    ensures Inv(Step(s, e))
  {
  }

  lemma {:induction false} RunKeepsInv(s: State, es: seq<Event>)
    requires Inv(s)
    ensures Inv(Run(s, es))
    decreases |es|
  {
    if es != [] {
      StepKeepsInv(s, es[0]);
      RunKeepsInv(Step(s, es[0]), es[1..]);
    }
  }

  lemma InitialInv()
    ensures Inv(Initial())
  {
  }

  /** `reset` clears the image, the auth data, the identification and the
      four flags; it leaves the hint code, the data string, the counter and
      the timers. */
  lemma ResetFields(s: State)
    ensures var r := Step(s, ResetCalled);
      && r.qrCodeImage == "" && r.auth.None? && r.identification.None?
      && !r.completed && !r.hasTimedOut && !r.hasError && !r.autoSignIn
      && r.hintCode == s.hintCode && r.qrDataString == s.qrDataString && r.triggerCounter == s.triggerCounter
      && r.attempt == s.attempt && r.deadline == s.deadline && r.collecting == s.collecting
      && r.refreshing == s.refreshing
  {
  }

  /** `retriggerAuth` is `reset` followed by one more trigger. */
  lemma RetriggerIsResetThenCount(s: State)
    ensures Step(s, Retriggered) == Step(s, ResetCalled).(triggerCounter := s.triggerCounter + 1)
  {
  }

  /** Initiation does nothing (beyond its cleanup) before the first trigger
      or while auth data is present. */
  lemma InitIdleUntilTriggered(s: State, now: int)
    requires s.triggerCounter == 0 || s.auth.Some?
    ensures Step(s, InitEffect(now)) == s.(deadline := None)
  {
  }

  /** Starting initiation clears `hasTimedOut`, arms the 30 000 ms timeout and
      sends the first attempt. */
  lemma InitArmsTimeout(s: State, now: int)
    requires s.triggerCounter != 0 && s.auth.None?
    ensures var r := Step(s, InitEffect(now));
      !r.hasTimedOut && r.deadline == Some(now + 30000) && r.attempt == 1
  {
  }

  /** After a retrigger, initiation always starts: reset has cleared `auth`. */
  lemma RetriggerStartsInitiation(s: State, now: int)
    ensures var r := Step(Step(s, Retriggered), InitEffect(now));
      r.attempt == 1 && r.deadline == Some(now + SignupTimeout) && !r.hasTimedOut && !r.hasError
  {
  }

  /** The timeout sets `hasTimedOut` exactly when it is armed and due. */
  lemma TimeoutOnlyWhenDue(s: State, now: int)
    ensures Step(s, TimerFired(now)).hasTimedOut <==>
      s.hasTimedOut || (s.deadline.Some? && s.deadline.value <= now)
  {
  }

  /** The number of failed attempts before the first success. */
  function LeadingFailures(es: seq<Event>): (k: nat)
    requires forall i :: 0 <= i < |es| ==> es[i].InitReply?
    ensures k <= |es|
    ensures forall i :: 0 <= i < k ==> InitFailed(es[i].reply)
    ensures k < |es| ==> !InitFailed(es[k].reply)
  {
    if es == [] || !InitFailed(es[0].reply) then 0 else 1 + LeadingFailures(es[1..])
  }

  /** With no attempt in flight, initiation replies change nothing. */
  lemma {:induction false} IdleRepliesInert(s: State, es: seq<Event>)
    requires s.attempt == 0
    requires forall i :: 0 <= i < |es| ==> es[i].InitReply?
    ensures Run(s, es) == s
    decreases |es|
  {
    if es != [] {
      IdleRepliesInert(Step(s, es[0]), es[1..]);
    }
  }

  /** The retry policy, first part: a failure before the budget of
      `MaxRetries` attempts runs out sends the next attempt, so while only
      failures have come back, one more attempt is in flight per failure. */
  lemma {:induction false} RetryPending(s: State, es: seq<Event>)
    requires 1 <= s.attempt && s.attempt + |es| <= MaxRetries
    requires forall i :: 0 <= i < |es| ==> es[i].InitReply? && InitFailed(es[i].reply)
    ensures Run(s, es) == s.(attempt := s.attempt + |es|)
    decreases |es|
  {
    if es != [] {
      RetryPending(s.(attempt := s.attempt + 1), es[1..]);
    }
  }

  /** The retry policy, second part: the first success before the budget
      runs out sets `auth`, and no attempt follows it. */
  lemma {:induction false} RetrySucceeds(s: State, es: seq<Event>, k: nat)
    requires 1 <= s.attempt && s.attempt + k <= MaxRetries && k < |es|
    requires forall i :: 0 <= i < |es| ==> es[i].InitReply?
    requires forall i :: 0 <= i < k ==> InitFailed(es[i].reply)
    requires !InitFailed(es[k].reply)
    ensures Run(s, es) == s.(auth := es[k].reply.body, attempt := 0)
    decreases k
  {
    if k == 0 {
      IdleRepliesInert(s.(auth := es[0].reply.body, attempt := 0), es[1..]);
    } else {
      RetrySucceeds(s.(attempt := s.attempt + 1), es[1..], k - 1);
    }
  }

  /** The retry policy, third part: when the budget runs out before a
      success, the last failure sets `hasError` and no attempt follows. */
  lemma {:induction false} RetryExhausted(s: State, es: seq<Event>)
    requires 1 <= s.attempt <= MaxRetries && MaxRetries - s.attempt < |es|
    requires forall i :: 0 <= i < |es| ==> es[i].InitReply?
    requires forall i :: 0 <= i <= MaxRetries - s.attempt ==> InitFailed(es[i].reply)
    ensures Run(s, es) == s.(hasError := true, attempt := 0)
    decreases |es|
  {
    if s.attempt == MaxRetries {
      IdleRepliesInert(s.(hasError := true, attempt := 0), es[1..]);
    } else {
      RetryExhausted(s.(attempt := s.attempt + 1), es[1..]);
    }
  }

  /** Initiation makes at most five attempts: after the fifth failure
      `hasError` is set, `auth` is untouched, and no attempt is in flight. */
  lemma FifthFailureSetsError(s: State, es: seq<Event>)
    requires s.attempt == 1
    requires |es| >= 5 && forall i :: 0 <= i < |es| ==> es[i].InitReply?
    requires forall i :: 0 <= i < 5 ==> InitFailed(es[i].reply)
    ensures var t := Run(s, es); t.hasError && t.auth == s.auth && t.attempt == 0
  {
    RetryExhausted(s, es);
  }

  /** `hasError` is not set by initiation before the fifth failure: a
      success among the first five attempts sets `auth` and leaves it. */
  lemma EarlySuccessSetsAuth(s: State, es: seq<Event>)
    requires s.attempt == 1
    requires forall i :: 0 <= i < |es| ==> es[i].InitReply?
    requires LeadingFailures(es) < 5 && LeadingFailures(es) < |es|
    ensures var t := Run(s, es);
      t.auth == es[LeadingFailures(es)].reply.body && t.auth.Some? && t.hasError == s.hasError && t.attempt == 0
  {
    RetrySucceeds(s, es, LeadingFailures(es));
  }

  /** A `complete` reply is tested first: it wins even when already timed
      out or in error. */
  lemma CompleteWins(s: State, d: CollectData)
    requires s.collecting && !s.completed && d.status == Some("complete")
    ensures var r := Step(s, CollectReply(Answered(Some(d))));
      r.completed && r.identification == Some(d) && r.hasError == s.hasError && r.hasTimedOut == s.hasTimedOut
  {
  }

  /** A tick after completion stops polling and changes nothing else. */
  lemma TickAfterCompletionStops(s: State, r: Fetched<Option<CollectData>>)
    requires s.collecting && s.completed
    ensures Step(s, CollectReply(r)) == s.(collecting := false)
  {
  }

  /** A `failed` reply, or any reply but `complete` once timed out or in
      error, stops polling with `hasError` and the reply's hint code. */
  lemma FailedReplyStops(s: State, d: CollectData)
    requires s.collecting && !s.completed && d.status != Some("complete")
    requires d.status == Some("failed") || s.hasTimedOut || s.hasError
    ensures Step(s, CollectReply(Answered(Some(d)))) == s.(collecting := false, hasError := true, hintCode := d.hintCode)
  {
  }

  /** A collect request that throws stops polling with `hasError`. */
  lemma CollectThrowStops(s: State)
    requires s.collecting && !s.completed
    ensures Step(s, CollectReply(Threw)) == s.(collecting := false, hasError := true)
  {
  }

  /** Polling runs only after the first trigger and with an order reference. */
  lemma CollectNeedsOrderRef(s: State)
    ensures Step(s, CollectEffect).collecting <==>
      s.triggerCounter > 0 && s.auth.Some? && Truthy(s.auth.value.orderRef)
  {
  }

  /** Helper: the collect-tick events that answer with `pending`, in order. */
  function OpenReplies(pending: seq<CollectData>): seq<Event>
  {
    seq(|pending|, i requires 0 <= i < |pending| => CollectReply(Answered(Some(pending[i]))))
  }

  /** Any number of open (`pending`/`outstanding`) replies followed by a
      `complete` one end in a completed session holding that reply, with no
      other change. */
  lemma {:induction false} PollUntilComplete(s: State, pending: seq<CollectData>, done: CollectData)
    requires s.collecting && !s.completed && !s.hasTimedOut && !s.hasError
    requires forall i :: 0 <= i < |pending| ==> pending[i].status !in {Some("complete"), Some("failed")}
    requires done.status == Some("complete")
    ensures Run(s, OpenReplies(pending) + [CollectReply(Answered(Some(done)))]) ==
      s.(completed := true, identification := Some(done))
    decreases |pending|
  {
    var es := OpenReplies(pending) + [CollectReply(Answered(Some(done)))];
    if pending == [] {
      assert es == [CollectReply(Answered(Some(done)))];
    } else {
      assert Step(s, es[0]) == s;
      assert es[1..] == OpenReplies(pending[1..]) + [CollectReply(Answered(Some(done)))];
      PollUntilComplete(s, pending[1..], done);
    }
  }

  /** A refresh tick stops the refresh interval once completed, timed out or
      in error, and changes nothing else. */
  lemma QrTickStopsWhenDone(s: State, r: Fetched<QrBody>)
    requires s.refreshing && (s.completed || s.hasTimedOut || s.hasError)
    ensures Step(s, QrReply(r)) == s.(refreshing := false)
  {
  }

  /** Refreshing runs only after the first trigger, with a start token and an
      order reference, and not in auto-start mode. */
  lemma RefreshNeedsTokenAndOrderRef(s: State, now: int)
    ensures Step(s, QrEffect(now)).refreshing <==>
      s.triggerCounter > 0 && s.auth.Some? && Truthy(s.auth.value.qrStartToken) &&
      Truthy(s.auth.value.orderRef) && !s.autoSignIn
  {
  }

  /** Once the refresh effect has run, the ticks send its start token and
      the time it ran as `startDate`. */
  lemma RefreshCarriesEffectTime(s: State, now: int)
    requires RefreshArmed(s) && !s.completed && !s.hasTimedOut && !s.hasError
    ensures RefreshSent(Step(s, QrEffect(now))) == Some(RefreshRequest(s.auth.value.qrStartToken.value, now))
  {
  }

  /** Every tick of one refresh interval sends the same request: the reply
      changes neither the token nor the `startDate`. */
  lemma RefreshRequestFixed(s: State, r: Fetched<QrBody>)
    requires RefreshSent(s).Some? && RefreshSent(Step(s, QrReply(r))).Some?
    ensures RefreshSent(Step(s, QrReply(r))) == RefreshSent(s)
  {
  }

  /** A refresh request that throws sets `hasError`. */
  lemma QrThrowSetsError(s: State)
    requires Inv(s) && s.refreshing && !s.completed && !s.hasTimedOut && !s.hasError
    ensures Step(s, QrReply(Threw)) == s.(hasError := true)
  {
  }

  /** Image generation is skipped for an empty data string and when timed
      out, in error or in auto-start mode; otherwise an encoder failure blanks
      the image without setting `hasError`. */
  lemma ImageGuard(s: State, image: Option<string>)
    ensures var r := Step(s, ImageEncoded(image));
      && (s.qrDataString == QrText("") || s.hasTimedOut || s.hasError || s.autoSignIn ==> r == s)
      && (!(s.qrDataString == QrText("") || s.hasTimedOut || s.hasError || s.autoSignIn) ==>
            r == s.(qrCodeImage := if image.Some? then image.value else ""))
  {
  }

  /** Events other than `reset` and `retriggerAuth`. */
  predicate NoRestart(es: seq<Event>) {
    forall i :: 0 <= i < |es| ==> !es[i].ResetCalled? && !es[i].Retriggered?
  }

  /** Completion is final until the hook is reset: no later reply, tick,
      timer or effect clears `completed` or replaces the identification. */
  lemma {:induction false} CompletionIsFinal(s: State, es: seq<Event>)
    requires s.completed && NoRestart(es)
    ensures Run(s, es).completed && Run(s, es).identification == s.identification
    decreases |es|
  {
    if es != [] {
      CompletionIsFinal(Step(s, es[0]), es[1..]);
    }
  }

  /** Likewise an error is final until the hook is reset. */
  lemma {:induction false} ErrorIsFinal(s: State, es: seq<Event>)
    requires s.hasError && NoRestart(es)
    ensures Run(s, es).hasError
    decreases |es|
  {
    if es != [] {
      ErrorIsFinal(Step(s, es[0]), es[1..]);
    }
  }

  /** Completion does not disarm the sign-in timeout: it can still fire and
      set `hasTimedOut` on a completed session. */
  lemma TimeoutAfterCompletion(s: State, now: int)
    requires s.completed && s.deadline.Some? && s.deadline.value <= now
    ensures var r := Step(s, TimerFired(now)); r.completed && r.hasTimedOut
  {
  }
}
