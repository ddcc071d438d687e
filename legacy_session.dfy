/** The earlier `useBankIdQrCode` hook of hooks/useBankIdQrCode.ts: one
    initiation attempt, no `reset`, no error state, and a collect loop that
    keeps the `hasTimedOut` it saw when it started. As for the newer hook,
    the state cells and live timers form a `State`, every callback, effect
    run, timer or reply is an `Event` applied by `Step`, and the class `Hook`
    performs each event on its cells in place. */
module LegacySession {
  import opened Common
  import opened Replies

  const SignupTimeout := 30000

  datatype State = State(
    // the hook's state cells
    triggerCounter: nat,
    auth: Option<AuthData>,          // None: null, undefined or another falsy reply
    hasTimedOut: bool,
    completed: bool,
    qrCodeImage: string,
    qrDataString: Option<QrBody>,    // None: undefined, before the first refresh
    identification: Option<CollectData>,
    // the timers and the request in flight
    authPending: bool,               // the initiating request has not settled
    deadline: Option<int>,           // when the sign-in timeout fires, while armed
    collecting: bool,                // the collect interval is live
    pollOrderRef: JsStr,             // the order reference its requests carry
    pollSawTimedOut: bool,           // the `hasTimedOut` its ticks read
    refreshing: bool,                // the QR refresh interval is live
    refreshToken: JsStr,             // the start token its requests carry
    refreshStart: int)               // the `startDate` its requests carry

  function Initial(): State {
    State(0, None, false, false, "", None, None, false, None, false, None, false, false, None, 0)
  }

  datatype Event =
    | Retriggered                                       // retriggerAuth()
    | InitEffect(now: int)                              // the initiation effect runs
    | AuthReply(reply: Fetched<Option<AuthData>>)       // the initiating request settles
    | TimerFired(now: int)                              // the sign-in timeout is due
    | CollectEffect                                     // the collect effect runs
    | CollectReply(polled: Fetched<Option<CollectData>>) // a collect tick and its request
    | QrEffect(now: int)                                // the QR refresh effect runs
    | QrReply(refreshed: Fetched<QrBody>)               // a refresh tick and its request
    | Rendered(image: Option<string>)                   // a render and its QR encoding

  /** JavaScript truthiness of the data string. */
  predicate DataTruthy(d: Option<QrBody>) {
    d.Some? && QrTruthy(d.value)
  }

  /** The initiation effect, which runs only when the counter changes: its
      cleanup clears the previous timeout; before the first trigger it does
      nothing more; otherwise it clears `hasTimedOut`, arms the timeout and
      sends the request. */
  function AfterInitEffect(s: State, now: int): State {
    var cleaned := s.(deadline := None);
    if s.triggerCounter == 0 then cleaned
    else cleaned.(hasTimedOut := false, deadline := Some(now + SignupTimeout), authPending := true)
  }

  /** The initiating request: whatever body comes back becomes `auth`, a
      falsy one included; a failure is only logged. */
  function AfterAuthReply(s: State, r: Fetched<Option<AuthData>>): State {
    if !s.authPending then s
    else match r
      case Answered(body) => s.(auth := body, authPending := false)
      case Threw => s.(authPending := false)
  }

  /** The collect effect, which runs when `auth` changes: after the first
      trigger it starts polling with `auth?.orderRef`, whatever that is, and
      its ticks keep the `hasTimedOut` of this render. */
  function AfterCollectEffect(s: State): State {
    s.(collecting := s.triggerCounter != 0,
       pollOrderRef := if s.auth.Some? then s.auth.value.orderRef else None,
       pollSawTimedOut := s.hasTimedOut)
  }

  /** `collectToken`: a `complete` reply stores the identification, sets
      `completed` and stops; the captured `hasTimedOut` or a `failed` reply
      stops; a failed request is logged and rethrown inside the tick, so the
      interval goes on. */
  function AfterCollectReply(s: State, r: Fetched<Option<CollectData>>): State {
    if !s.collecting then s
    else match r
      case Threw => s
      case Answered(data) =>
        if IsComplete(data) then s.(identification := data, completed := true, collecting := false)
        else if s.pollSawTimedOut || IsFailed(data) then s.(collecting := false)
        else s
  }

  /** The QR refresh effect, which runs when `auth`, `completed` or
      `hasTimedOut` changes: after the first trigger and with a start token it
      starts the refresh interval, which it clears at once when completed or
      timed out. */
  predicate RefreshArmed(s: State) {
    s.triggerCounter != 0 && s.auth.Some? && Truthy(s.auth.value.qrStartToken) &&
    !(s.completed || s.hasTimedOut)
  }

  function AfterQrEffect(s: State, now: int): State {
    if RefreshArmed(s) then s.(refreshing := true, refreshToken := s.auth.value.qrStartToken, refreshStart := now)
    else s.(refreshing := false)
  }

  /** A refresh tick reads no flag: the reply body becomes the data string
      and a failed request is only logged. */
  function AfterQrReply(s: State, r: Fetched<QrBody>): State {
    if !s.refreshing then s
    else match r
      case Answered(body) => s.(qrDataString := Some(body))
      case Threw => s
  }

  /** Every render with a truthy data string encodes it; an encoder failure
      blanks the image. */
  function AfterRender(s: State, image: Option<string>): State {
    if !DataTruthy(s.qrDataString) then s
    else s.(qrCodeImage := if image.Some? then image.value else "")
  }

  /** What a refresh request carries: the start token and the `startDate`
      of the effect run that started the interval. */
  datatype RefreshRequest = RefreshRequest(qrStartToken: JsStr, startDate: int)

  /** The request the next refresh tick sends: every tick sends one. */
  function RefreshSent(s: State): Option<RefreshRequest> {
    if s.refreshing then Some(RefreshRequest(s.refreshToken, s.refreshStart)) else None
  }

  function Step(s: State, e: Event): State {
    match e
    case Retriggered => s.(triggerCounter := s.triggerCounter + 1)
    case InitEffect(now) => AfterInitEffect(s, now)
    case AuthReply(r) => AfterAuthReply(s, r)
    case TimerFired(now) =>
      if s.deadline.Some? && s.deadline.value <= now then s.(hasTimedOut := true, deadline := None) else s
    case CollectEffect => AfterCollectEffect(s)
    case CollectReply(r) => AfterCollectReply(s, r)
    case QrEffect(now) => AfterQrEffect(s, now)
    case QrReply(r) => AfterQrReply(s, r)
    case Rendered(image) => AfterRender(s, image)
  }

  function Run(s: State, es: seq<Event>): State
    decreases |es|
  {
    if es == [] then s else Run(Step(s, es[0]), es[1..])
  }

  /** What every reachable state satisfies: polling and refreshing run only
      after the first trigger, and refreshing has a start token. */
  predicate Inv(s: State) {
    (s.collecting ==> s.triggerCounter != 0) &&
    (s.refreshing ==> s.triggerCounter != 0 && Truthy(s.refreshToken))
  }

  // ---------------------------------------------------------------------------
  // The hook, performed on its cells in place
  // ---------------------------------------------------------------------------

  class Hook {
    var triggerCounter: nat
    var auth: Option<AuthData>
    var hasTimedOut: bool
    var completed: bool
    var qrCodeImage: string
    var qrDataString: Option<QrBody>
    var identification: Option<CollectData>
    var authPending: bool
    var deadline: Option<int>
    var collecting: bool
    var pollOrderRef: JsStr
    var pollSawTimedOut: bool
    var refreshing: bool
    var refreshToken: JsStr
    var refreshStart: int

    ghost function Snapshot(): State
      reads this
    {
      State(triggerCounter, auth, hasTimedOut, completed, qrCodeImage, qrDataString, identification,
            authPending, deadline, collecting, pollOrderRef, pollSawTimedOut, refreshing,
            refreshToken, refreshStart)
    }

    constructor()
      ensures Snapshot() == Initial()
    {
      triggerCounter, auth, hasTimedOut, completed := 0, None, false, false;
      qrCodeImage, qrDataString, identification := "", None, None;
      authPending, deadline := false, None;
      collecting, pollOrderRef, pollSawTimedOut := false, None, false;
      refreshing, refreshToken, refreshStart := false, None, 0;
    }

    method RetriggerAuth()
      modifies this
      ensures Snapshot() == Step(old(Snapshot()), Retriggered)
    {
      triggerCounter := triggerCounter + 1;
    }

    method BeginInitiation(now: int)
      modifies this
      ensures Snapshot() == Step(old(Snapshot()), InitEffect(now))
    {
      deadline := None;
      if triggerCounter == 0 {
        return;
      }
      hasTimedOut := false;
      deadline := Some(now + SignupTimeout);
      authPending := true;
    }

    method AuthResult(reply: Fetched<Option<AuthData>>)
      modifies this
      ensures Snapshot() == Step(old(Snapshot()), AuthReply(reply))
    {
      if !authPending {
        return;
      }
      authPending := false;
      if reply.Answered? {
        auth := reply.body;
      }
    }

    method Timeout(now: int)
      modifies this
      ensures Snapshot() == Step(old(Snapshot()), TimerFired(now))
    {
      if deadline.Some? && deadline.value <= now {
        hasTimedOut := true;
        deadline := None;
      }
    }

    method StartCollectPolling()
      modifies this
      ensures Snapshot() == Step(old(Snapshot()), CollectEffect)
    {
      collecting := triggerCounter != 0;
      pollOrderRef := if auth.Some? then auth.value.orderRef else None;
      pollSawTimedOut := hasTimedOut;
    }

    method CollectTick(reply: Fetched<Option<CollectData>>)
      modifies this
      ensures Snapshot() == Step(old(Snapshot()), CollectReply(reply))
    {
      if !collecting || reply.Threw? {
        return;
      }
      var data := reply.body;
      if data.Some? && data.value.status == Some("complete") {
        identification := data;
        completed := true;
        collecting := false;
      }
      if pollSawTimedOut || (data.Some? && data.value.status == Some("failed")) {
        collecting := false;
      }
    }

    method StartQrRefresh(now: int)
      modifies this
      ensures Snapshot() == Step(old(Snapshot()), QrEffect(now))
    {
      refreshing := false;
      if triggerCounter == 0 || auth.None? || !Truthy(auth.value.qrStartToken) {
        return;
      }
      // the interval is cleared as soon as it is set
      if completed || hasTimedOut {
        return;
      }
      refreshing := true;
      refreshToken := auth.value.qrStartToken;
      refreshStart := now;
    }

    /** A refresh tick, with the request it sends; `reply` is how that
        request settles. */
    method QrTick(reply: Fetched<QrBody>) returns (sent: Option<RefreshRequest>)
      modifies this
      ensures Snapshot() == Step(old(Snapshot()), QrReply(reply))
      ensures sent == RefreshSent(old(Snapshot()))
    {
      sent := None;
      if !refreshing {
        return;
      }
      sent := Some(RefreshRequest(refreshToken, refreshStart));
      if reply.Answered? {
        qrDataString := Some(reply.body);
      }
    }

    method Render(image: Option<string>)
      modifies this
      ensures Snapshot() == Step(old(Snapshot()), Rendered(image))
    {
      if qrDataString.Some? && QrTruthy(qrDataString.value) {
        qrCodeImage := if image.Some? then image.value else "";
      }
    }
  }

  // ---------------------------------------------------------------------------
  // Properties of the hook
  // ---------------------------------------------------------------------------

  lemma StepKeepsInv(s: State, e: Event)
    requires Inv(s)
    ensures Inv(Step(s, e))
  {
  }

  lemma {:induction false} RunKeepsInv(s: State, es: seq<Event>)
    requires Inv(s)
    ensures Inv(Run(s, es))
    decreases |es|
  {
    if es != [] {
      StepKeepsInv(s, es[0]);
      RunKeepsInv(Step(s, es[0]), es[1..]);
    }
  }

  lemma InitialInv()
    ensures Inv(Initial())
  {
  }

  /** Before the first trigger the initiation effect does nothing. */
  lemma InitIdleUntilTriggered(s: State, now: int)
    requires s.triggerCounter == 0
    ensures Step(s, InitEffect(now)) == s.(deadline := None)
  {
  }

  /** Starting initiation clears `hasTimedOut`, arms the 30 000 ms timeout and
      sends the request; it keeps the previous auth data and completion. */
  lemma InitArmsTimeout(s: State, now: int)
    requires s.triggerCounter != 0
    ensures var r := Step(s, InitEffect(now));
      && !r.hasTimedOut && r.deadline == Some(now + 30000) && r.authPending
      && r.auth == s.auth && r.completed == s.completed && r.identification == s.identification
  {
  }

  /** `retriggerAuth` only counts: nothing is cleared. */
  lemma RetriggerOnlyCounts(s: State)
    ensures Step(s, Retriggered) == s.(triggerCounter := s.triggerCounter + 1)
  {
  }

  /** Since nothing clears `completed`, a retrigger after a completed sign-in
      starts a new order whose QR code is never refreshed. */
  lemma RetriggerAfterCompletionShowsNoCode(s: State, t0: int, t1: int, reply: Fetched<Option<AuthData>>)
    requires s.completed
    ensures var t := Step(Step(Step(Step(s, Retriggered), InitEffect(t0)), AuthReply(reply)), QrEffect(t1));
      t.completed && !t.refreshing
  {
  }

  /** A failed initiating request is only logged. */
  lemma AuthFailureOnlyLogged(s: State)
    requires s.authPending
    ensures Step(s, AuthReply(Threw)) == s.(authPending := false)
  {
  }

  /** Any answer becomes `auth`, a falsy one too, which drops the previous
      auth data. */
  lemma AuthReplyReplacesAuth(s: State, body: Option<AuthData>)
    requires s.authPending
    ensures Step(s, AuthReply(Answered(body))) == s.(auth := body, authPending := false)
  {
  }

  /** The timeout sets `hasTimedOut` exactly when it is armed and due. */
  lemma TimeoutOnlyWhenDue(s: State, now: int)
    ensures Step(s, TimerFired(now)).hasTimedOut <==>
      s.hasTimedOut || (s.deadline.Some? && s.deadline.value <= now)
  {
  }

  /** Polling starts after the first trigger whether or not there is an
      order reference; its requests carry whatever `auth?.orderRef` is. */
  lemma PollsWithoutOrderRef(s: State)
    ensures var r := Step(s, CollectEffect);
      && (r.collecting <==> s.triggerCounter != 0)
      && (s.auth.None? ==> r.pollOrderRef.None?)
      && (s.auth.Some? ==> r.pollOrderRef == s.auth.value.orderRef)
  {
  }

  /** A `complete` reply stores the identification, sets `completed` and
      stops polling. */
  lemma CompleteStopsPolling(s: State, d: CollectData)
    requires s.collecting && d.status == Some("complete")
    ensures Step(s, CollectReply(Answered(Some(d)))) ==
      s.(identification := Some(d), completed := true, collecting := false)
  {
  }

  /** A `failed` reply, or any reply while the captured flag says timed out,
      stops polling without any other change. */
  lemma TimedOutOrFailedStops(s: State, data: Option<CollectData>)
    requires s.collecting && !IsComplete(data) && (s.pollSawTimedOut || IsFailed(data))
    ensures Step(s, CollectReply(Answered(data))) == s.(collecting := false)
  {
  }

  /** The collect loop keeps the `hasTimedOut` of the render that started it:
      a timeout after polling began does not stop it, and a pending reply
      leaves it running. */
  lemma StaleTimeoutKeepsPolling(s: State, now: int, data: Option<CollectData>)
    requires s.collecting && !s.pollSawTimedOut && s.deadline.Some? && s.deadline.value <= now
    requires !IsComplete(data) && !IsFailed(data)
    ensures var t := Step(Step(s, TimerFired(now)), CollectReply(Answered(data)));
      t.hasTimedOut && t.collecting
  {
  }

  /** A failed collect request changes nothing: polling goes on. */
  lemma CollectFailureKeepsPolling(s: State)
    ensures Step(s, CollectReply(Threw)) == s
  {
  }

  /** The refresh interval runs only after the first trigger, with a start
      token, and not once completed or timed out. */
  lemma QrSetupClearsWhenDone(s: State, now: int)
    ensures Step(s, QrEffect(now)).refreshing <==>
      s.triggerCounter != 0 && s.auth.Some? && Truthy(s.auth.value.qrStartToken) &&
      !s.completed && !s.hasTimedOut
  {
  }

  /** Once the refresh effect has run, the ticks send its start token and
      the time it ran as `startDate`, and keep sending them whatever the
      replies: a tick reads no flag. */
  lemma RefreshCarriesEffectTime(s: State, now: int, r: Fetched<QrBody>)
    requires RefreshArmed(s)
    ensures RefreshSent(Step(s, QrEffect(now))) == Some(RefreshRequest(s.auth.value.qrStartToken, now))
    ensures RefreshSent(Step(Step(s, QrEffect(now)), QrReply(r))) == RefreshSent(Step(s, QrEffect(now)))
  {
  }

  /** A failed refresh request keeps the previous data string. */
  lemma QrErrorKeepsData(s: State)
    ensures Step(s, QrReply(Threw)) == s
  {
  }

  /** Any refresh answer becomes the data string, an error object included;
      once that is truthy, every render encodes it. */
  lemma QrAnswerIsEncoded(s: State, body: QrBody, image: string)
    requires s.refreshing && QrTruthy(body)
    ensures var t := Step(Step(s, QrReply(Answered(body))), Rendered(Some(image)));
      t.qrDataString == Some(body) && t.qrCodeImage == image
  {
  }

  /** Completion is final: no event of this hook clears it. */
  lemma {:induction false} CompletedForever(s: State, es: seq<Event>)
    requires s.completed
    ensures Run(s, es).completed
    decreases |es|
  {
    if es != [] {
      CompletedForever(Step(s, es[0]), es[1..]);
    }
  }
}
