/** The CapMonster Cloud client: it builds the `createTask` body, reacts to the
    `createTask` answer, runs the `getTaskResult` poll loop and offers the
    caller an `invalid` handler that reports a bad token and retries.

    HTTPS, JSON and timers are abstract: the code is driven by events (a timer
    tick, a response body, a request error) and callback calls are recorded as
    `Delivery` values. */
module CapMonsterApi {
  import opened Types

  const DefaultPollingInterval: int := 2000
  const DefaultRetries: int := 3
  const CaptchaFailed: string := "CAPTCHA_FAILED"
  const CaptchaFailedTooManyTimes: string := "CAPTCHA_FAILED_TOO_MANY_TIMES"

  /** The values that occur in a task body. */
  datatype JsValue = JsString(s: string) | JsBool(b: bool) | JsUndefined

  type TaskBody = map<string, JsValue>

  /** A value passed as the first (`err`) argument of a callback. */
  datatype ErrValue = Null | Undefined | Str(s: string) | ErrorObject(text: string)

  predicate Truthy(e: ErrValue) {
    match e
    case Str(s) => s != ""
    case ErrorObject(_) => true
    case _ => false
  }

  /** `result.errorCode`, `undefined` when the body has none. */
  function ErrorCodeValue(code: Option<string>): ErrValue {
    if code.Some? then Str(code.value) else Undefined
  }

  datatype TaskResult = TaskResult(id: int, text: string)

  /** One call of the caller's callback. */
  datatype Delivery =
    | ErrorCode(code: ErrValue)    // callback(result.errorCode)
    | Solved(result: TaskResult)   // callback(null, {id, text}, invalid)
    | RequestFailed(text: string)  // callback(e) for a request error
    | RetryFailed(reason: string)   // callback('CAPTCHA_FAILED…') from the retry handler

  // ---------------------------------------------------------------------------
  // Task body

  /** The CapMonster task type expected for each solving method. */
  function TaskType(captchaMethod: string): (r: Option<string>)
    ensures r.Some? <==> captchaMethod in {"hcaptcha", "userrecaptcha", "turnstile"}
  {
    if captchaMethod == "hcaptcha" then Some("HCaptchaTaskProxyless")
    else if captchaMethod == "userrecaptcha" then Some("NoCaptchaTaskProxyless")
    else if captchaMethod == "turnstile" then Some("TurnstileTaskProxyless")
    else None
  }

  /** `postData.task` of `decodeReCaptcha`: empty for an unknown method, else the
      type, URL and key, overridden by any same-named key of `extraData` (which is
      spread last). */
  method BuildTask(captchaMethod: string, captcha: string, pageUrl: string, extraData: TaskBody) returns (task: TaskBody)
    ensures TaskType(captchaMethod).None? ==> task == map[]
    ensures TaskType(captchaMethod).Some? ==>
      && task.Keys == {"type", "websiteURL", "websiteKey"} + extraData.Keys
      && (forall k :: k in extraData ==> task[k] == extraData[k])
      && ("type" !in extraData ==> task["type"] == JsString(TaskType(captchaMethod).value))
      && ("websiteURL" !in extraData ==> task["websiteURL"] == JsString(pageUrl))
      && ("websiteKey" !in extraData ==> task["websiteKey"] == JsString(captcha))
  {
    task := map[];
    if captchaMethod == "hcaptcha" {
      task := map["type" := JsString("HCaptchaTaskProxyless"), "websiteURL" := JsString(pageUrl),
                  "websiteKey" := JsString(captcha)] + extraData;
    } else if captchaMethod == "userrecaptcha" {
      task := map["type" := JsString("NoCaptchaTaskProxyless"), "websiteURL" := JsString(pageUrl),
                  "websiteKey" := JsString(captcha)] + extraData;
    } else if captchaMethod == "turnstile" {
      task := map["type" := JsString("TurnstileTaskProxyless"), "websiteURL" := JsString(pageUrl),
                  "websiteKey" := JsString(captcha)] + extraData;
    }
  }

  // ---------------------------------------------------------------------------
  // Arguments

  /** The last two arguments of `decodeReCaptcha`. */
  datatype Arg = ArgUndefined | ArgOptions(options: Options) | ArgCallback(callback: nat)

  /** Without a callback, the fifth argument is the callback and the options are
      the shared `defaultOptions` object itself, not a copy. */
  function ResolveArgs(options: Arg, callback: Arg, defaults: Options): (r: (Arg, Arg))
    ensures callback.ArgUndefined? ==> r.0 == ArgOptions(defaults) && r.1 == options
    ensures !callback.ArgUndefined? ==> r == (options, callback)
  {
    if callback.ArgUndefined? then (ArgOptions(defaults), options) else (options, callback)
  }

  // ---------------------------------------------------------------------------
  // createTask answer

  datatype CreateTaskResponse = CreateTaskResponse(errorId: int, errorCode: Option<string>, taskId: int)

  datatype CreateEvent = CreateAnswered(resp: CreateTaskResponse) | CreateRequestError(text: string)

  /** The `createTask` handlers: a request error or a non-zero `errorId` is
      delivered and no polling starts; otherwise polling starts for `taskId`
      and nothing is delivered yet. */
  method OnCreateTask(event: CreateEvent) returns (delivered: Option<Delivery>, poller: Poller?)
    ensures event.CreateRequestError? ==> delivered == Some(RequestFailed(event.text)) && poller == null
    ensures event.CreateAnswered? && event.resp.errorId != 0 ==>
      delivered == Some(ErrorCode(ErrorCodeValue(event.resp.errorCode))) && poller == null
    ensures event.CreateAnswered? && event.resp.errorId == 0 ==>
      delivered.None? && poller != null && fresh(poller) && poller.Valid() &&
      poller.State() == InitialPoll(event.resp.taskId)
  {
    match event
    case CreateRequestError(text) =>
      delivered, poller := Some(RequestFailed(text)), null;
    case CreateAnswered(resp) =>
      if resp.errorId != 0 {
        delivered, poller := Some(ErrorCode(ErrorCodeValue(resp.errorCode))), null;
      } else {
        delivered := None;
        poller := new Poller(resp.taskId);
      }
  }

  // ---------------------------------------------------------------------------
  // Poll loop: specification

  datatype SolutionBody = SolutionBody(gRecaptchaResponse: Option<string>, token: Option<string>)

  datatype PollResponse = PollResponse(status: string, errorId: int, errorCode: Option<string>, solution: Option<SolutionBody>)

  /** `result.solution?.gRecaptchaResponse || result.solution?.token || ''` */
  function SolutionText(solution: Option<SolutionBody>): (text: string)
    ensures solution.Some? && StrTruthy(solution.value.gRecaptchaResponse) ==>
      text == solution.value.gRecaptchaResponse.value
    ensures solution.Some? && !StrTruthy(solution.value.gRecaptchaResponse) && StrTruthy(solution.value.token) ==>
      text == solution.value.token.value
    ensures text == "" <==>
      solution.None? || (!StrTruthy(solution.value.gRecaptchaResponse) && !StrTruthy(solution.value.token))
  {
    if solution.None? then ""
    else if StrTruthy(solution.value.gRecaptchaResponse) then solution.value.gRecaptchaResponse.value
    else if StrTruthy(solution.value.token) then solution.value.token.value
    else ""
  }

  /** The closure state of one `pollCaptcha`: whether the interval still runs,
      whether `callback` is still the caller's (not the no-op), how many
      requests are open, how many were sent, and what was delivered. */
  datatype PollState = PollState(
    taskId: int,
    intervalActive: bool,
    callbackArmed: bool,
    inFlight: nat,
    requests: nat,
    delivered: seq<Delivery>)

  datatype PollEvent = Tick | Answered(resp: PollResponse) | RequestError(text: string)

  function InitialPoll(taskId: int): PollState {
    PollState(taskId, true, true, 0, 0, [])
  }

  /** What a non-`processing` response delivers. */
  function TerminalDelivery(taskId: int, resp: PollResponse): Delivery {
    if resp.errorId != 0 then ErrorCode(ErrorCodeValue(resp.errorCode))
    else Solved(TaskResult(taskId, SolutionText(resp.solution)))
  }

  /** Calling the current `callback`: recorded only while it is the caller's. */
  function Call(s: PollState, d: Delivery): seq<Delivery> {
    if s.callbackArmed then s.delivered + [d] else s.delivered
  }

  /** One event of the loop. A tick sends a request while the interval runs; a
      response or request error consumes an open request (an event with none
      open cannot happen and changes nothing). */
  function PollStep(s: PollState, e: PollEvent): (t: PollState)
    ensures t.taskId == s.taskId
    ensures |s.delivered| <= |t.delivered| <= |s.delivered| + 1 && t.delivered[..|s.delivered|] == s.delivered
    ensures !s.callbackArmed ==> t.delivered == s.delivered && !t.callbackArmed
    ensures t.requests == s.requests + (if e.Tick? && s.intervalActive then 1 else 0)
    ensures !s.intervalActive ==> !t.intervalActive
  {
    match e
    case Tick =>
      if s.intervalActive then s.(inFlight := s.inFlight + 1, requests := s.requests + 1) else s
    case Answered(resp) =>
      if s.inFlight == 0 then s
      else if resp.status == "processing" then s.(inFlight := s.inFlight - 1)
      else s.(inFlight := s.inFlight - 1, intervalActive := false, callbackArmed := false,
              delivered := Call(s, TerminalDelivery(s.taskId, resp)))
    case RequestError(text) =>
      if s.inFlight == 0 then s
      else s.(inFlight := s.inFlight - 1, delivered := Call(s, RequestFailed(text)))
  }

  function RunPoll(s: PollState, es: seq<PollEvent>): PollState
    decreases |es|
  {
    if |es| == 0 then s else RunPoll(PollStep(s, es[0]), es[1..])
  }

  predicate IsTerminal(d: Delivery) {
    d.ErrorCode? || d.Solved?
  }

  function CountTerminal(ds: seq<Delivery>): nat {
    if |ds| == 0 then 0
    else CountTerminal(ds[..|ds| - 1]) + (if IsTerminal(ds[|ds| - 1]) then 1 else 0)
  }

  lemma CountTerminalSnoc(ds: seq<Delivery>, d: Delivery)
    ensures CountTerminal(ds + [d]) == CountTerminal(ds) + (if IsTerminal(d) then 1 else 0)
  {
    assert (ds + [d])[..|ds|] == ds;
  }

  /** The loop's invariant: the interval runs exactly while the callback is the
      caller's, and a terminal result has been delivered exactly when it does not. */
  predicate PollInv(s: PollState) {
    s.intervalActive == s.callbackArmed &&
    CountTerminal(s.delivered) == (if s.intervalActive then 0 else 1)
  }

  lemma PollStepKeepsInv(s: PollState, e: PollEvent)
    requires PollInv(s)
    ensures PollInv(PollStep(s, e))
  {
    match e
    case Tick =>
    case Answered(resp) => AnsweredKeepsInv(s, resp);
    case RequestError(text) => RequestErrorKeepsInv(s, text);
  }

  lemma AnsweredKeepsInv(s: PollState, resp: PollResponse)
    requires PollInv(s)
    ensures PollInv(PollStep(s, Answered(resp)))
  {
    if s.inFlight > 0 && resp.status != "processing" {
      var d := TerminalDelivery(s.taskId, resp);
      if s.callbackArmed {
        CountTerminalSnoc(s.delivered, d);
        assert PollStep(s, Answered(resp)).delivered == s.delivered + [d];
      }
    }
  }

  lemma RequestErrorKeepsInv(s: PollState, text: string)
    requires PollInv(s)
    ensures PollInv(PollStep(s, RequestError(text)))
  {
    if s.inFlight > 0 && s.callbackArmed {
      CountTerminalSnoc(s.delivered, RequestFailed(text));
      assert PollStep(s, RequestError(text)).delivered == s.delivered + [RequestFailed(text)];
    }
  }

  lemma {:induction false} RunPollKeepsInv(s: PollState, es: seq<PollEvent>)
    requires PollInv(s)
    ensures PollInv(RunPoll(s, es))
    decreases |es|
  {
    if |es| > 0 {
      PollStepKeepsInv(s, es[0]);
      RunPollKeepsInv(PollStep(s, es[0]), es[1..]);
    }
  }

  /** Whatever ticks, responses (in any order, however many are open at once) and
      request errors a poll loop sees, at most one terminal result reaches the
      caller, and one has exactly when the loop has stopped. */
  lemma AtMostOneTerminal(taskId: int, es: seq<PollEvent>)
    ensures var s := RunPoll(InitialPoll(taskId), es);
      && CountTerminal(s.delivered) <= 1
      && (CountTerminal(s.delivered) == 1 <==> !s.intervalActive)
      && s.intervalActive == s.callbackArmed
  {
    RunPollKeepsInv(InitialPoll(taskId), es);
  }

  /** Once the callback is the no-op and the interval is cleared, nothing more is
      delivered and no request is sent, whatever happens next. */
  lemma {:induction false} QuietAfterTerminal(s: PollState, es: seq<PollEvent>)
    requires !s.intervalActive && !s.callbackArmed
    ensures RunPoll(s, es).delivered == s.delivered
    ensures RunPoll(s, es).requests == s.requests
    ensures !RunPoll(s, es).intervalActive && !RunPoll(s, es).callbackArmed
    decreases |es|
  {
    if |es| > 0 {
      QuietAfterTerminal(PollStep(s, es[0]), es[1..]);
    }
  }

  /** A `processing` response changes nothing but the count of open requests. */
  lemma ProcessingIsNoOp(s: PollState, resp: PollResponse)
    requires s.inFlight > 0 && resp.status == "processing"
    ensures PollStep(s, Answered(resp)) == s.(inFlight := s.inFlight - 1)
  {
  }

  /** The first non-`processing` response clears the interval, disarms the
      callback and delivers the error code, or `taskId` with its token. */
  lemma FirstTerminalDelivers(s: PollState, resp: PollResponse)
    requires s.inFlight > 0 && s.callbackArmed && resp.status != "processing"
    ensures var t := PollStep(s, Answered(resp));
      && !t.intervalActive && !t.callbackArmed
      && t.delivered == s.delivered + [TerminalDelivery(s.taskId, resp)]
      && (resp.errorId != 0 ==> t.delivered[|s.delivered|] == ErrorCode(ErrorCodeValue(resp.errorCode)))
      && (resp.errorId == 0 ==> t.delivered[|s.delivered|] == Solved(TaskResult(s.taskId, SolutionText(resp.solution))))
  {
  }

  /** A request error is passed to the current callback but neither clears the
      interval nor disarms the callback. */
  lemma RequestErrorKeepsPolling(s: PollState, text: string)
    requires s.inFlight > 0
    ensures var t := PollStep(s, RequestError(text));
      && t.intervalActive == s.intervalActive && t.callbackArmed == s.callbackArmed
      && t.delivered == (if s.callbackArmed then s.delivered + [RequestFailed(text)] else s.delivered)
  {
  }

  /** Two responses in flight that both report a terminal state reach the caller once. */
  lemma OverlappingTerminalResponses(taskId: int, r1: PollResponse, r2: PollResponse, later: seq<PollEvent>)
    requires r1.status != "processing" && r2.status != "processing"
    ensures var s := RunPoll(InitialPoll(taskId), [Tick, Tick, Answered(r1), Answered(r2)] + later);
      s.delivered == [TerminalDelivery(taskId, r1)] && s.requests == 2
  {
    var s0 := InitialPoll(taskId);
    var s1 := PollStep(s0, Tick);
    var s2 := PollStep(s1, Tick);
    var s3 := PollStep(s2, Answered(r1));
    var s4 := PollStep(s3, Answered(r2));
    RunPollCons(s3, Answered(r2), later);
    RunPollCons(s2, Answered(r1), [Answered(r2)] + later);
    RunPollCons(s1, Tick, [Answered(r1)] + [Answered(r2)] + later);
    RunPollCons(s0, Tick, [Tick] + [Answered(r1)] + [Answered(r2)] + later);
    assert [Tick, Tick, Answered(r1), Answered(r2)] + later
      == [Tick] + ([Tick] + [Answered(r1)] + [Answered(r2)] + later);
    assert [Tick] + [Answered(r1)] + [Answered(r2)] + later == [Tick] + ([Answered(r1)] + [Answered(r2)] + later);
    assert [Answered(r1)] + [Answered(r2)] + later == [Answered(r1)] + ([Answered(r2)] + later);
    QuietAfterTerminal(s4, later);
  }

  lemma RunPollCons(s: PollState, e: PollEvent, es: seq<PollEvent>)
    ensures RunPoll(s, [e] + es) == RunPoll(PollStep(s, e), es)
  {
    assert ([e] + es)[1..] == es;
  }

  /** Two `processing` answers and then a ready answer carrying only a `token`
      deliver that token once, with `taskId`. */
  lemma ProcessingThenToken(taskId: int)
    ensures
      var processing := PollResponse("processing", 0, None, None);
      var ready := PollResponse("ready", 0, None, Some(SolutionBody(None, Some("abc123"))));
      RunPoll(InitialPoll(taskId), [Tick, Answered(processing), Tick, Answered(processing), Tick, Answered(ready)]).delivered
        == [Solved(TaskResult(taskId, "abc123"))]
  {
    var processing := PollResponse("processing", 0, None, None);
    var ready := PollResponse("ready", 0, None, Some(SolutionBody(None, Some("abc123"))));
    var es := [Tick, Answered(processing), Tick, Answered(processing), Tick, Answered(ready)];
    var s0 := InitialPoll(taskId);
    var s1 := PollStep(s0, Tick);
    var s2 := PollStep(s1, Answered(processing));
    var s3 := PollStep(s2, Tick);
    var s4 := PollStep(s3, Answered(processing));
    var s5 := PollStep(s4, Tick);
    var s6 := PollStep(s5, Answered(ready));
    assert RunPoll(s5, es[5..]) == s6;
    assert RunPoll(s4, es[4..]) == RunPoll(s5, es[5..]);
    assert RunPoll(s3, es[3..]) == RunPoll(s4, es[4..]);
    assert RunPoll(s2, es[2..]) == RunPoll(s3, es[3..]);
    assert RunPoll(s1, es[1..]) == RunPoll(s2, es[2..]);
    assert s6.delivered == [Solved(TaskResult(taskId, "abc123"))];
  }

  /** A request error followed by a terminal answer reaches the caller twice:
      the single-delivery guard covers terminal answers only. */
  lemma RequestErrorThenTerminal(taskId: int, text: string, resp: PollResponse)
    requires resp.status != "processing"
    ensures RunPoll(InitialPoll(taskId), [Tick, Tick, RequestError(text), Answered(resp)]).delivered
      == [RequestFailed(text), TerminalDelivery(taskId, resp)]
  {
    var es := [Tick, Tick, RequestError(text), Answered(resp)];
    var s0 := InitialPoll(taskId);
    var s1 := PollStep(s0, Tick);
    var s2 := PollStep(s1, Tick);
    var s3 := PollStep(s2, RequestError(text));
    var s4 := PollStep(s3, Answered(resp));
    assert RunPoll(s3, es[3..]) == s4;
    assert RunPoll(s2, es[2..]) == RunPoll(s3, es[3..]);
    assert RunPoll(s1, es[1..]) == RunPoll(s2, es[2..]);
  }

  // ---------------------------------------------------------------------------
  // Poll loop: the closure as an object

  /** One running `pollCaptcha`. */
  class Poller {
    const taskId: int
    var intervalActive: bool
    var callbackArmed: bool
    var inFlight: nat
    var requests: nat
    var delivered: seq<Delivery>

    function State(): PollState
      reads this
    {
      PollState(taskId, intervalActive, callbackArmed, inFlight, requests, delivered)
    }

    ghost predicate Valid()
      reads this
    {
      PollInv(State())
    }

    /** `setInterval` has been called and `callback` is the caller's. */
    constructor (taskId: int)
      ensures State() == InitialPoll(taskId) && Valid()
    {
      this.taskId := taskId;
      intervalActive, callbackArmed := true, true;
      inFlight, requests := 0, 0;
      delivered := [];
    }

    /** The interval fires: one more `getTaskResult` request, while it runs. */
    method Tick()
      requires Valid()
      modifies this
      ensures Valid() && State() == PollStep(old(State()), PollEvent.Tick)
      ensures requests == old(requests) + (if intervalActive then 1 else 0)
    {
      ghost var before := State();
      if intervalActive {
        inFlight := inFlight + 1;
        requests := requests + 1;
      }
      assert State() == PollStep(before, PollEvent.Tick);
      PollStepKeepsInv(before, PollEvent.Tick);
    }

    /** The `end` handler of a poll request. */
    method OnPollResponse(resp: PollResponse)
      requires Valid() && inFlight > 0
      modifies this
      ensures Valid() && State() == PollStep(old(State()), Answered(resp))
      ensures resp.status == "processing" ==>
        intervalActive == old(intervalActive) && callbackArmed == old(callbackArmed) && delivered == old(delivered)
      ensures resp.status != "processing" ==> !intervalActive && !callbackArmed
    {
      ghost var before := State();
      if resp.status != "processing" {
        intervalActive := false;
        if callbackArmed {
          delivered := delivered + [TerminalDelivery(taskId, resp)];
        }
        callbackArmed := false;
      }
      inFlight := inFlight - 1;
      assert State() == PollStep(before, Answered(resp));
      PollStepKeepsInv(before, Answered(resp));
    }

    /** The `error` handler of a poll request. */
    method OnRequestError(text: string)
      requires Valid() && inFlight > 0
      modifies this
      ensures Valid() && State() == PollStep(old(State()), RequestError(text))
      ensures intervalActive == old(intervalActive) && callbackArmed == old(callbackArmed)
    {
      ghost var before := State();
      var next := delivered;
      if callbackArmed {
        next := delivered + [RequestFailed(text)];
      }
      delivered, inFlight := next, inFlight - 1;
      assert State() == PollStep(before, RequestError(text));
      PollStepKeepsInv(before, RequestError(text));
    }
  }

  // ---------------------------------------------------------------------------
  // Retry handler

  /** A `decodeReCaptcha` options object; it may be the shared `defaultOptions`. */
  class Options {
    var pollingInterval: Option<int>
    var retries: Option<int>

    constructor (pollingInterval: Option<int>, retries: Option<int>)
      ensures this.pollingInterval == pollingInterval && this.retries == retries
    {
      this.pollingInterval := pollingInterval;
      this.retries := retries;
    }

    /** A fresh object equal to `defaultOptions`. */
    constructor Defaults()
      ensures pollingInterval == Some(DefaultPollingInterval) && retries == Some(DefaultRetries)
    {
      pollingInterval := Some(DefaultPollingInterval);
      retries := Some(DefaultRetries);
    }
  }

  datatype RetryOutcome = Restart | GiveUp(code: string)

  /** The effect of one `invalid(error)` call on the bound options' `retries`,
      given the current `defaultOptions.retries`, and its outcome. */
  function RetryStep(retries: Option<int>, default: Option<int>, failed: bool): (r: (Option<int>, RetryOutcome))
    ensures failed ==> r == (retries, GiveUp(CaptchaFailed))
    ensures r.1 == Restart <==> !failed && IntOr(retries, default).Some? && IntOr(retries, default).value > 1
    ensures r.1 == Restart ==> r.0 == Some(IntOr(retries, default).value - 1) && r.0.value >= 1
    ensures !failed && r.1 != Restart ==> r == (IntOr(retries, default), GiveUp(CaptchaFailedTooManyTimes))
  {
    if failed then (retries, GiveUp(CaptchaFailed))
    else
      var reset := IntOr(retries, default);
      if reset.Some? && reset.value > 1 then (Some(reset.value - 1), Restart)
      else (reset, GiveUp(CaptchaFailedTooManyTimes))
  }

  /** The `invalid` handler bound to `{options, captchaId}`: it reports
      `captchaId`, then gives up on an error argument, and otherwise resets a
      falsy budget to the current `defaultOptions.retries` and either spends one
      unit and restarts or gives up. `options` may be `defaults` itself. */
  method Invalid(options: Options, defaults: Options, taskId: int, error: ErrValue) returns (reported: int, outcome: RetryOutcome)
    modifies options
    ensures reported == taskId
    ensures (options.retries, outcome) == RetryStep(old(options.retries), old(defaults.retries), Truthy(error))
    ensures options.pollingInterval == old(options.pollingInterval)
  {
    reported := taskId;
    if Truthy(error) {
      outcome := GiveUp(CaptchaFailed);
      return;
    }
    if !IntTruthy(options.retries) {
      options.retries := defaults.retries;
    }
    if options.retries.Some? && options.retries.value > 1 {
      options.retries := Some(options.retries.value - 1);
      outcome := Restart;
    } else {
      outcome := GiveUp(CaptchaFailedTooManyTimes);
    }
  }

  /** One `invalid` call on an options object other than `defaultOptions`: the
      value `defaultOptions.retries` has when it is made, and whether it was
      called with an error. */
  datatype RetryCall = RetryCall(default: Option<int>, failed: bool)

  /** Successive `invalid` calls on one options object other than `defaultOptions`. */
  function RetryRun(retries: Option<int>, calls: seq<RetryCall>): (r: (Option<int>, seq<RetryOutcome>))
    ensures |r.1| == |calls|
    decreases |calls|
  {
    if |calls| == 0 then (retries, [])
    else
      var (next, outcome) := RetryStep(retries, calls[0].default, calls[0].failed);
      var (last, outcomes) := RetryRun(next, calls[1..]);
      (last, [outcome] + outcomes)
  }

  /** Successive `invalid` calls on `defaultOptions` itself (decodes started
      without a callback): each reset reads the object it resets. Only these
      calls change `defaultOptions.retries`. */
  function SharedRun(retries: Option<int>, calls: seq<bool>): (r: (Option<int>, seq<RetryOutcome>))
    ensures |r.1| == |calls|
    decreases |calls|
  {
    if |calls| == 0 then (retries, [])
    else
      var (next, outcome) := RetryStep(retries, retries, calls[0]);
      var (last, outcomes) := SharedRun(next, calls[1..]);
      (last, [outcome] + outcomes)
  }

  function Restarts(outcomes: seq<RetryOutcome>): nat {
    if |outcomes| == 0 then 0 else (if outcomes[0].Restart? then 1 else 0) + Restarts(outcomes[1..])
  }

  /** A value `defaultOptions.retries` can take: a number from 1 to 3. */
  predicate DefaultInRange(default: Option<int>) {
    default.Some? && 1 <= default.value <= DefaultRetries
  }

  /** `defaultOptions.retries` starts at 3 and, whatever calls go through it,
      stays a number between 1 and where it started; it restarts at most
      `retries - 1` times. */
  lemma {:induction false} SharedBudgetInRange(retries: Option<int>, calls: seq<bool>)
    requires DefaultInRange(retries)
    ensures DefaultInRange(SharedRun(retries, calls).0)
    ensures SharedRun(retries, calls).0.value <= retries.value
    ensures Restarts(SharedRun(retries, calls).1) <= retries.value - 1
    decreases |calls|
  {
    if |calls| > 0 {
      var (next, outcome) := RetryStep(retries, retries, calls[0]);
      SharedBudgetInRange(next, calls[1..]);
      var outcomes := SharedRun(retries, calls).1;
      assert outcomes == [outcome] + SharedRun(next, calls[1..]).1;
      assert outcomes[1..] == SharedRun(next, calls[1..]).1;
    }
  }

  /** The most restarts an options object with this `retries` can still give,
      when `defaultOptions.retries` is between 1 and 3. */
  function MaxRestarts(retries: Option<int>): int {
    if !IntTruthy(retries) then DefaultRetries - 1
    else if retries.value > 1 then retries.value - 1
    else 0
  }

  /** A budget of `b` allows at most `b - 1` restarts, and an unset budget at
      most 2, however the calls interleave with spending of the defaults. */
  lemma {:induction false} RestartsBounded(retries: Option<int>, calls: seq<RetryCall>)
    requires forall k :: 0 <= k < |calls| ==> DefaultInRange(calls[k].default)
    ensures Restarts(RetryRun(retries, calls).1) <= MaxRestarts(retries)
    decreases |calls|
  {
    if |calls| > 0 {
      var (next, outcome) := RetryStep(retries, calls[0].default, calls[0].failed);
      RestartsBounded(next, calls[1..]);
      var outcomes := RetryRun(retries, calls).1;
      assert outcomes == [outcome] + RetryRun(next, calls[1..]).1;
      assert outcomes[1..] == RetryRun(next, calls[1..]).1;
    }
  }

  /** From a budget that is unset or at least one, `retries` never ends below
      one once it has been set. */
  lemma {:induction false} BudgetStaysPositive(retries: Option<int>, calls: seq<RetryCall>)
    requires IntTruthy(retries) ==> retries.value >= 1
    requires forall k :: 0 <= k < |calls| ==> DefaultInRange(calls[k].default)
    ensures var last := RetryRun(retries, calls).0;
      last == retries || (last.Some? && last.value >= 1)
    decreases |calls|
  {
    if |calls| > 0 {
      var next := RetryStep(retries, calls[0].default, calls[0].failed).0;
      BudgetStaysPositive(next, calls[1..]);
    }
  }

  /** With no budget left, further calls change nothing and never restart,
      whatever `defaultOptions.retries` holds. */
  lemma {:induction false} ExhaustedStaysExhausted(retries: Option<int>, calls: seq<RetryCall>)
    requires IntTruthy(retries) && retries.value <= 1
    ensures RetryRun(retries, calls).0 == retries
    ensures Restarts(RetryRun(retries, calls).1) == 0
    decreases |calls|
  {
    if |calls| > 0 {
      ExhaustedStaysExhausted(retries, calls[1..]);
    }
  }

  /** Let `b` be the budget the first call settles on (`retries`, or the
      defaults' value at that call when `retries` is falsy). Then `b`
      error-free calls restart `b - 1` times and then give up with the
      exhaustion code, not the single-failure one. */
  lemma {:induction false} ExhaustionAfterBudget(retries: Option<int>, calls: seq<RetryCall>)
    requires |calls| > 0
    requires IntOr(retries, calls[0].default).Some?
    requires IntOr(retries, calls[0].default).value >= 1
    requires |calls| == IntOr(retries, calls[0].default).value
    requires forall k :: 0 <= k < |calls| ==> !calls[k].failed
    ensures var outcomes := RetryRun(retries, calls).1;
      && (forall k :: 0 <= k < |calls| - 1 ==> outcomes[k] == Restart)
      && outcomes[|calls| - 1] == GiveUp(CaptchaFailedTooManyTimes)
    decreases |calls|
  {
    if |calls| > 1 {
      var next := RetryStep(retries, calls[0].default, false).0;
      ExhaustionAfterBudget(next, calls[1..]);
    }
  }

  /** One restart through the shared defaults leaves its later readers a budget
      of 2 instead of 3: an options object with `retries` unset then restarts
      once and gives up on its second error-free call, where fresh defaults
      would have let it restart twice. */
  lemma SpentDefaultsShortenRetries()
    ensures SharedRun(Some(DefaultRetries), [false]) == (Some(2), [Restart])
    ensures RetryRun(None, [RetryCall(Some(2), false), RetryCall(Some(2), false)]).1
      == [Restart, GiveUp(CaptchaFailedTooManyTimes)]
    ensures RetryRun(None, [RetryCall(Some(3), false), RetryCall(Some(3), false)]).1 == [Restart, Restart]
  {
    assert [false][1..] == [];
    assert RetryStep(Some(DefaultRetries), Some(DefaultRetries), false) == (Some(2), Restart);
    assert SharedRun(Some(DefaultRetries), [false]) == (Some(2), [Restart] + SharedRun(Some(2), []).1);
    assert SharedRun(Some(2), []).1 == [];
    assert [Restart] + [] == [Restart];
    assert [RetryCall(Some(2), false), RetryCall(Some(2), false)][1..] == [RetryCall(Some(2), false)];
    assert [RetryCall(Some(3), false), RetryCall(Some(3), false)][1..] == [RetryCall(Some(3), false)];
  }

  /** Without a callback, the options are the shared defaults, so a retry through
      them spends the budget of every later call: a call with its own, unset
      `retries` then restarts only once. */
  method RetryThroughDefaults(defaults: Options, handler: nat) returns (outcomes: seq<RetryOutcome>)
    requires defaults.retries == Some(DefaultRetries)
    modifies defaults
    ensures outcomes == [Restart, Restart, GiveUp(CaptchaFailedTooManyTimes)]
    ensures defaults.retries == Some(DefaultRetries - 1)
  {
    var (options, callback) := ResolveArgs(ArgCallback(handler), ArgUndefined, defaults);
    var reported, first := Invalid(options.options, defaults, 1, Null);
    var own := new Options(Some(DefaultPollingInterval), None);
    var second, third;
    reported, second := Invalid(own, defaults, 2, Null);
    reported, third := Invalid(own, defaults, 2, Null);
    outcomes := [first, second, third];
  }
}
