/** The CapMonster provider: for each captcha found by a content script it
    validates the record, assembles the extra task data (site value, invisible
    flag, proxy from the environment), asks the CapMonster client for a token and
    turns the answer into a `CaptchaSolution`.

    The client call is a parameter `service`: given the call it is asked to make,
    it returns the first callback the client delivers, or the exception the call
    threw synchronously. The environment is a map parameter. */
module CapMonster {
  import opened Types
  import opened CapMonsterApi

  const ProviderId: string := "capmonster"

  const ProxyTypeVar: string := "CAPMONSTER_PROXY_TYPE"
  const ProxyAddressVar: string := "CAPMONSTER_PROXY_ADDRESS"
  const ProxyPortVar: string := "CAPMONSTER_PROXY_PORT"
  const ProxyLoginVar: string := "CAPMONSTER_PROXY_LOGIN"
  const ProxyPasswordVar: string := "CAPMONSTER_PROXY_PASSWORD"

  /** `process.env` */
  type Env = map<string, string>

  // ---------------------------------------------------------------------------
  // decodeRecaptchaAsync

  /** The solving method requested for a vendor: only hCaptcha has its own;
      Turnstile is sent as reCAPTCHA. */
  function MethodForVendor(vendor: Vendor): (m: string)
    ensures vendor == HCaptcha <==> m == "hcaptcha"
    ensures vendor != HCaptcha <==> m == "userrecaptcha"
  {
    if vendor == HCaptcha then "hcaptcha" else "userrecaptcha"
  }

  /** Every vendor gets a non-empty task, and a Turnstile widget is submitted as
      a reCAPTCHA v2 task rather than a Turnstile task. */
  lemma VendorTaskTypes(vendor: Vendor)
    ensures TaskType(MethodForVendor(vendor)).Some?
    ensures vendor == HCaptcha ==> TaskType(MethodForVendor(vendor)) == Some("HCaptchaTaskProxyless")
    ensures vendor != HCaptcha ==> TaskType(MethodForVendor(vendor)) == Some("NoCaptchaTaskProxyless")
    ensures TaskType(MethodForVendor(vendor)) != Some("TurnstileTaskProxyless")
  {
  }

  datatype DecodeOpts = DecodeOpts(pollingInterval: Option<int>, retries: Option<int>)

  /** The call `decodeRecaptchaAsync` makes on the client. */
  datatype DecodeCall = DecodeCall(
    apiKey: string,
    captchaMethod: string,
    sitekey: string,
    url: string,
    extraData: TaskBody,
    opts: DecodeOpts)

  /** The first callback delivered by the client, what its call threw, or
      `Pending` when no callback ever comes (every poll answers `processing`, or
      `createTask` never answers). */
  datatype ServiceOutcome = Delivered(first: Delivery) | Threw(error: ErrValue) | Pending

  /** `{err, result, invalid}`; `hasInvalid` says whether `invalid` was passed. */
  datatype DecodeResult = DecodeResult(err: ErrValue, result: Option<TaskResult>, hasInvalid: bool)

  /** The call: the token as API key, the vendor's method, and options that set
      the polling interval to 2000 ms and leave `retries` unset. */
  function DecodeCallFor(token: string, vendor: Vendor, sitekey: string, url: string, extraData: TaskBody): (call: DecodeCall)
    ensures call.captchaMethod == MethodForVendor(vendor)
    ensures call.opts.pollingInterval == Some(DefaultPollingInterval) && call.opts.retries.None?
    ensures call.apiKey == token && call.sitekey == sitekey && call.url == url && call.extraData == extraData
  {
    DecodeCall(token, MethodForVendor(vendor), sitekey, url, extraData, DecodeOpts(Some(2000), None))
  }

  /** The options of the call poll every 2000 ms whatever the defaults say, and
      leave `retries` unset, so the first retry takes the budget that
      `defaultOptions.retries` holds at that moment (between 1 and 3, by
      `SharedBudgetInRange`). */
  lemma DecodeOptsDefaults(call: DecodeCall, defaultInterval: Option<int>, defaultRetries: Option<int>)
    requires call.opts == DecodeOpts(Some(2000), None)
    ensures IntOr(call.opts.pollingInterval, defaultInterval) == Some(DefaultPollingInterval)
    ensures IntOr(call.opts.retries, defaultRetries) == defaultRetries
  {
  }

  /** The promise settles with the arguments of the first callback; a
      synchronous throw settles it with the exception as `err`; with no
      callback it never settles (`None`). */
  function Settle(outcome: ServiceOutcome): (r: Option<DecodeResult>)
    ensures r.None? <==> outcome.Pending?
    ensures outcome.Threw? ==> r.value.err == outcome.error && r.value.result.None? && !r.value.hasInvalid
    ensures r.Some? && r.value.result.Some? <==> outcome.Delivered? && outcome.first.Solved?
    ensures r.Some? && r.value.result.Some? ==>
      r.value.err == Null && r.value.hasInvalid && r.value.result.value == outcome.first.result
    ensures outcome.Delivered? && outcome.first.ErrorCode? ==> r.value.err == outcome.first.code
  {
    match outcome
    case Pending => None
    case Threw(e) => Some(DecodeResult(e, None, false))
    case Delivered(d) =>
      match d
      case ErrorCode(code) => Some(DecodeResult(code, None, false))
      case Solved(result) => Some(DecodeResult(Null, Some(result), true))
      case RequestFailed(text) => Some(DecodeResult(ErrorObject(text), None, false))
      case RetryFailed(reason) => Some(DecodeResult(Str(reason), None, false))
  }

  /** `decodeRecaptchaAsync`: it makes the call `DecodeCallFor` describes and
      settles when the client first calls back. */
  function DecodeRecaptchaAsync(token: string, vendor: Vendor, sitekey: string, url: string, extraData: TaskBody,
                                service: DecodeCall -> ServiceOutcome): (r: Option<DecodeResult>)
    ensures var outcome := service(DecodeCallFor(token, vendor, sitekey, url, extraData));
      && (r.None? <==> outcome.Pending?)
      && (r.Some? && r.value.result.Some? ==> outcome == Delivered(Solved(r.value.result.value)))
      && (r.Some? && outcome.Delivered? && outcome.first.RequestFailed? ==> r.value.err == ErrorObject(outcome.first.text))
  {
    Settle(service(DecodeCallFor(token, vendor, sitekey, url, extraData)))
  }

  // ---------------------------------------------------------------------------
  // extraData

  /** An environment variable that is set to a non-empty string. */
  predicate EnvTruthy(env: Env, name: string) {
    name in env && env[name] != ""
  }

  /** `process.env[name]`, `undefined` when unset. */
  function EnvValue(env: Env, name: string): JsValue {
    if name in env then JsString(env[name]) else JsUndefined
  }

  predicate ProxyConfigured(env: Env) {
    EnvTruthy(env, ProxyTypeVar) && EnvTruthy(env, ProxyAddressVar) && EnvTruthy(env, ProxyPortVar)
  }

  function UpperChar(c: char): char {
    if 'a' <= c <= 'z' then (c as int - 32) as char else c
  }

  /** `toUpperCase` on ASCII letters. */
  function Upper(s: string): (r: string)
    ensures |r| == |s|
    ensures forall i :: 0 <= i < |s| ==> r[i] == UpperChar(s[i])
  {
    seq(|s|, i requires 0 <= i < |s| => UpperChar(s[i]))
  }

  /** The extra task fields: the site value when truthy, `isInvisible: true` for
      an invisible widget, and the five proxy fields exactly when type, address
      and port are all set (login and password are copied even when unset). */
  function ExtraData(captcha: CaptchaInfo, env: Env): (r: TaskBody)
    ensures "recaptchaDataSValue" in r <==> StrTruthy(captcha.s)
    ensures "recaptchaDataSValue" in r ==> r["recaptchaDataSValue"] == JsString(captcha.s.value)
    ensures "isInvisible" in r <==> captcha.isInvisible
    ensures "isInvisible" in r ==> r["isInvisible"] == JsBool(true)
    ensures ProxyConfigured(env) ==>
      && {"proxyType", "proxyAddress", "proxyPort", "proxyLogin", "proxyPassword"} <= r.Keys
      && r["proxyType"] == JsString(Upper(env[ProxyTypeVar]))
      && r["proxyAddress"] == JsString(env[ProxyAddressVar])
      && r["proxyPort"] == JsString(env[ProxyPortVar])
      && r["proxyLogin"] == EnvValue(env, ProxyLoginVar)
      && r["proxyPassword"] == EnvValue(env, ProxyPasswordVar)
    ensures !ProxyConfigured(env) ==>
      "proxyType" !in r && "proxyAddress" !in r && "proxyPort" !in r && "proxyLogin" !in r && "proxyPassword" !in r
    ensures r.Keys <= {"recaptchaDataSValue", "isInvisible", "proxyType", "proxyAddress", "proxyPort", "proxyLogin", "proxyPassword"}
  {
    var site: TaskBody := if StrTruthy(captcha.s) then map["recaptchaDataSValue" := JsString(captcha.s.value)] else map[];
    var invisible := if captcha.isInvisible then site["isInvisible" := JsBool(true)] else site;
    if ProxyConfigured(env) then
      invisible["proxyType" := JsString(Upper(env[ProxyTypeVar]))]
               ["proxyAddress" := JsString(env[ProxyAddressVar])]
               ["proxyPort" := JsString(env[ProxyPortVar])]
               ["proxyLogin" := EnvValue(env, ProxyLoginVar)]
               ["proxyPassword" := EnvValue(env, ProxyPasswordVar)]
    else invisible
  }

  // ---------------------------------------------------------------------------
  // getSolution

  /** `new Error(message).toString()` */
  function ErrorString(message: string): string {
    "Error: " + message
  }

  /** `${err}` */
  function ErrText(e: ErrValue): string {
    match e
    case Null => "null"
    case Undefined => "undefined"
    case Str(s) => s
    case ErrorObject(text) => text
  }

  /** `${result}` */
  function ResultText(result: Option<TaskResult>): string {
    if result.None? then "undefined" else "[object Object]"
  }

  predicate HasRequiredData(captcha: CaptchaInfo) {
    StrTruthy(captcha.sitekey) && StrTruthy(captcha.url) && StrTruthy(captcha.id)
  }

  /** A result with a non-empty text and a non-zero id. */
  predicate UsableResult(result: Option<TaskResult>) {
    result.Some? && result.value.text != "" && result.value.id != 0
  }

  function BaseSolution(captcha: CaptchaInfo): CaptchaSolution {
    CaptchaSolution(captcha.vendor, ProviderId, None, None, None, None, None)
  }

  /** The `extraData` assignments of `getSolution`. */
  method AssembleExtraData(captcha: CaptchaInfo, env: Env) returns (extraData: TaskBody)
    ensures extraData == ExtraData(captcha, env)
  {
    extraData := map[];
    if StrTruthy(captcha.s) {
      extraData := extraData["recaptchaDataSValue" := JsString(captcha.s.value)];
    }
    if captcha.isInvisible {
      extraData := extraData["isInvisible" := JsBool(true)];
    }
    if EnvTruthy(env, ProxyTypeVar) && EnvTruthy(env, ProxyAddressVar) && EnvTruthy(env, ProxyPortVar) {
      extraData := extraData["proxyType" := JsString(Upper(env[ProxyTypeVar]))];
      extraData := extraData["proxyAddress" := JsString(env[ProxyAddressVar])];
      extraData := extraData["proxyPort" := JsString(env[ProxyPortVar])];
      extraData := extraData["proxyLogin" := EnvValue(env, ProxyLoginVar)];
      extraData := extraData["proxyPassword" := EnvValue(env, ProxyPasswordVar)];
    }
  }

  /** The solution `getSolution` resolves with, case by case; `None` when its
      promise never settles because the decode never calls back. */
  function ExpectedSolution(captcha: CaptchaInfo, token: string, env: Env, service: DecodeCall -> ServiceOutcome)
    : (r: Option<CaptchaSolution>)
    ensures r.None? <==>
      && HasRequiredData(captcha)
      && service(DecodeCallFor(token, captcha.vendor, captcha.sitekey.value, captcha.url.value, ExtraData(captcha, env))).Pending?
  {
    if !HasRequiredData(captcha) then
      Some(BaseSolution(captcha).(error := Some(ErrorString("Missing data in captcha"))))
    else
      var decoded := DecodeRecaptchaAsync(token, captcha.vendor, captcha.sitekey.value, captcha.url.value,
                                          ExtraData(captcha, env), service);
      var started := BaseSolution(captcha).(id := captcha.id);
      if decoded.None? then None
      else if Truthy(decoded.value.err) then
        Some(started.(error := Some(ErrorString(ProviderId + " error: " + ErrText(decoded.value.err)))))
      else if !UsableResult(decoded.value.result) then
        Some(started.(error := Some(ErrorString(ProviderId + " error: Missing response data: " + ResultText(decoded.value.result)))))
      else
        Some(started.(providerCaptchaId := Some(decoded.value.result.value.id), text := Some(decoded.value.result.value.text),
                      hasSolution := Some(true)))
  }

  /** `getSolution`: successive assignments to `solution` and `extraData`; a
      `throw` inside the `try` becomes an early return with `error` set. The
      result is `None` when the awaited decode never settles. */
  method GetSolution(captcha: CaptchaInfo, token: string, env: Env, service: DecodeCall -> ServiceOutcome)
    returns (settled: Option<CaptchaSolution>)
    ensures settled == ExpectedSolution(captcha, token, env, service)
  {
    var solution := CaptchaSolution(captcha.vendor, ProviderId, None, None, None, None, None);
    if !StrTruthy(captcha.sitekey) || !StrTruthy(captcha.url) || !StrTruthy(captcha.id) {
      solution := solution.(error := Some(ErrorString("Missing data in captcha")));
      return Some(solution);
    }
    solution := solution.(id := captcha.id);
    var extraData := AssembleExtraData(captcha, env);
    var decoded := DecodeRecaptchaAsync(token, captcha.vendor, captcha.sitekey.value, captcha.url.value, extraData, service);
    if decoded.None? {
      return None;
    }
    var d := decoded.value;
    if Truthy(d.err) {
      solution := solution.(error := Some(ErrorString(ProviderId + " error: " + ErrText(d.err))));
      return Some(solution);
    }
    if d.result.None? || d.result.value.text == "" || d.result.value.id == 0 {
      solution := solution.(error := Some(ErrorString(ProviderId + " error: Missing response data: " + ResultText(d.result))));
      return Some(solution);
    }
    solution := solution.(providerCaptchaId := Some(d.result.value.id));
    solution := solution.(text := Some(d.result.value.text));
    solution := solution.(hasSolution := Some(StrTruthy(solution.text)));
    settled := Some(solution);
  }

  /** Every solution names the captcha's vendor and this provider. */
  lemma SolutionIdentity(captcha: CaptchaInfo, token: string, env: Env, service: DecodeCall -> ServiceOutcome)
    ensures var r := ExpectedSolution(captcha, token, env, service);
      r.Some? ==> r.value.vendor == captcha.vendor && r.value.provider == ProviderId
  {
  }

  /** A captcha without sitekey, url or id fails before any decode: the outcome
      does not depend on the client, it always settles, `id` stays unset and
      nothing is solved. */
  lemma MissingDataFailsEarly(captcha: CaptchaInfo, token: string, env: Env,
                              service1: DecodeCall -> ServiceOutcome, service2: DecodeCall -> ServiceOutcome)
    requires !HasRequiredData(captcha)
    ensures ExpectedSolution(captcha, token, env, service1) == ExpectedSolution(captcha, token, env, service2)
    ensures var r := ExpectedSolution(captcha, token, env, service1);
      && r.Some?
      && r.value.error == Some("Error: Missing data in captcha")
      && r.value.id.None?
      && r.value.hasSolution.None?
  {
    assert ErrorString("Missing data in captcha") == "Error: Missing data in captcha";
  }

  /** A solution is solved exactly when it has no error, and every error is a
      non-empty string; a solved one carries the captcha's id, a non-empty token
      and a non-zero task id. */
  lemma SolvedIffNoError(captcha: CaptchaInfo, token: string, env: Env, service: DecodeCall -> ServiceOutcome)
    ensures var r := ExpectedSolution(captcha, token, env, service);
      r.Some? ==>
      var sol := r.value;
      && (sol.hasSolution == Some(true) <==> sol.error.None?)
      && (sol.error.Some? ==> StrTruthy(sol.error))
      && (sol.hasSolution == Some(true) ==>
            sol.id == captcha.id && StrTruthy(sol.text) && IntTruthy(sol.providerCaptchaId))
  {
  }

  /** The client outcomes that succeed: a delivered result with a non-empty
      token and a non-zero id, for a captcha with all its data. An empty token
      is a failure. */
  lemma SolvedExactly(captcha: CaptchaInfo, token: string, env: Env, service: DecodeCall -> ServiceOutcome)
    ensures var r := ExpectedSolution(captcha, token, env, service);
      (r.Some? && r.value.hasSolution == Some(true)) <==>
      && HasRequiredData(captcha)
      && (var call := DecodeCallFor(token, captcha.vendor, captcha.sitekey.value, captcha.url.value, ExtraData(captcha, env));
          && service(call).Delivered? && service(call).first.Solved?
          && service(call).first.result.text != "" && service(call).first.result.id != 0)
  {
  }

  /** A solved solution carries the delivered result: its `text` is the token
      and its `providerCaptchaId` the task id the client handed back. */
  lemma SolutionCarriesResult(captcha: CaptchaInfo, token: string, env: Env, service: DecodeCall -> ServiceOutcome)
    ensures var r := ExpectedSolution(captcha, token, env, service);
      r.Some? && r.value.hasSolution == Some(true) ==>
        && HasRequiredData(captcha)
        && (var call := DecodeCallFor(token, captcha.vendor, captcha.sitekey.value, captcha.url.value, ExtraData(captcha, env));
            && service(call) == Delivered(Solved(service(call).first.result))
            && r.value.text == Some(service(call).first.result.text)
            && r.value.providerCaptchaId == Some(service(call).first.result.id))
  {
  }

  /** A truthy decode error is reported with the provider's prefix. */
  lemma DecodeErrorMessage(captcha: CaptchaInfo, token: string, env: Env, service: DecodeCall -> ServiceOutcome)
    requires HasRequiredData(captcha)
    ensures var d := DecodeRecaptchaAsync(token, captcha.vendor, captcha.sitekey.value, captcha.url.value,
                                          ExtraData(captcha, env), service);
      d.Some? && Truthy(d.value.err) ==>
        ExpectedSolution(captcha, token, env, service) == Some(BaseSolution(captcha).(id := captcha.id,
          error := Some("Error: capmonster error: " + ErrText(d.value.err))))
  {
    var d := DecodeRecaptchaAsync(token, captcha.vendor, captcha.sitekey.value, captcha.url.value,
                                  ExtraData(captcha, env), service);
    if d.Some? {
      assert ErrorString(ProviderId + " error: " + ErrText(d.value.err)) == "Error: capmonster error: " + ErrText(d.value.err);
    }
  }

  // ---------------------------------------------------------------------------
  // getSolutions

  /** `solutions.find(s => !!s.error)` */
  function FirstError(solutions: seq<CaptchaSolution>): (r: Option<CaptchaSolution>)
    ensures r.None? <==> forall i :: 0 <= i < |solutions| ==> !StrTruthy(solutions[i].error)
    ensures r.Some? ==>
      exists i :: (0 <= i < |solutions| && solutions[i] == r.value && StrTruthy(r.value.error) &&
                   forall j :: 0 <= j < i ==> !StrTruthy(solutions[j].error))
  {
    if |solutions| == 0 then None
    else if StrTruthy(solutions[0].error) then Some(solutions[0])
    else
      var rest := FirstError(solutions[1..]);
      assert rest.Some? ==>
        exists i :: (1 <= i < |solutions| && solutions[i] == rest.value && StrTruthy(rest.value.error) &&
                     forall j :: 1 <= j < i ==> !StrTruthy(solutions[j].error));
      rest
  }

  /** `Promise.all`: every value once all have settled, and `None` (never
      settling) as soon as one of them never does. */
  function AllSettled(settled: seq<Option<CaptchaSolution>>): (r: Option<seq<CaptchaSolution>>)
    ensures r.None? <==> exists i :: 0 <= i < |settled| && settled[i].None?
    ensures r.Some? ==> |r.value| == |settled| && forall i :: 0 <= i < |settled| ==> settled[i] == Some(r.value[i])
  {
    if |settled| == 0 then Some([])
    else if settled[0].None? then None
    else
      var rest := AllSettled(settled[1..]);
      assert rest.None? ==> exists i :: 1 <= i < |settled| && settled[i].None?;
      if rest.None? then None else Some([settled[0].value] + rest.value)
  }

  /** The client session of the `i`-th captcha of a batch: every `getSolution`
      makes its own `createTask` and polls its own task, so two captchas with
      the same data can still get different answers. */
  function Session(service: (nat, DecodeCall) -> ServiceOutcome, i: nat): DecodeCall -> ServiceOutcome {
    (call: DecodeCall) => service(i, call)
  }

  datatype GetSolutionsResult = GetSolutionsResult(solutions: seq<CaptchaSolution>, error: Option<CaptchaSolution>)

  /** `getSolutions`: one solution per captcha, in order, and the first failed
      one; `None` (the promise never settles) when any decode never settles. */
  method GetSolutions(captchas: seq<CaptchaInfo>, token: string, env: Env, service: (nat, DecodeCall) -> ServiceOutcome)
    returns (r: Option<GetSolutionsResult>)
    ensures r.None? <==>
      exists i :: 0 <= i < |captchas| && ExpectedSolution(captchas[i], token, env, Session(service, i)).None?
    ensures r.Some? ==>
      && |r.value.solutions| == |captchas|
      && (forall i :: 0 <= i < |captchas| ==>
            Some(r.value.solutions[i]) == ExpectedSolution(captchas[i], token, env, Session(service, i)))
      && r.value.error == FirstError(r.value.solutions)
  {
    var settled: seq<Option<CaptchaSolution>> := [];
    for i := 0 to |captchas|
      invariant |settled| == i
      invariant forall k :: 0 <= k < i ==> settled[k] == ExpectedSolution(captchas[k], token, env, Session(service, k))
    {
      var solution := GetSolution(captchas[i], token, env, Session(service, i));
      settled := settled + [solution];
    }
    var all := AllSettled(settled);
    if all.None? {
      r := None;
    } else {
      r := Some(GetSolutionsResult(all.value, FirstError(all.value)));
    }
  }

  /** The batch error is undefined exactly when every captcha was solved. */
  lemma BatchErrorIffUnsolved(captchas: seq<CaptchaInfo>, token: string, env: Env,
                              service: (nat, DecodeCall) -> ServiceOutcome, solutions: seq<CaptchaSolution>)
    requires |solutions| == |captchas|
    requires forall i :: 0 <= i < |captchas| ==>
      Some(solutions[i]) == ExpectedSolution(captchas[i], token, env, Session(service, i))
    ensures FirstError(solutions).None? <==> forall i :: 0 <= i < |solutions| ==> solutions[i].hasSolution == Some(true)
  {
    forall i | 0 <= i < |captchas| {
      SolvedIffNoError(captchas[i], token, env, Session(service, i));
    }
  }
}
