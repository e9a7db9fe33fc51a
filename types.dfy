/** Shared records of the recaptcha plugin: the widget description produced by a
    content script, the solution produced by a provider, and the small pieces of
    JavaScript truthiness the code relies on. */
module Types {

  datatype Option<T> = None | Some(value: T)

  datatype Result<T, E> = Ok(value: T) | Err(error: E)

  /** `types.CaptchaVendor` */
  datatype Vendor = Recaptcha | HCaptcha | Turnstile

  /** `types.CaptchaType` */
  datatype CaptchaKind = Checkbox | Invisible

  /** `types.CaptchaInfo`; optional properties of the TypeScript record are `Option`s
      (`None` is `undefined`). `s` is the reCAPTCHA site-specific value. */
  datatype CaptchaInfo = CaptchaInfo(
    vendor: Vendor,
    kind: CaptchaKind,
    url: Option<string>,
    id: Option<string>,
    sitekey: Option<string>,
    s: Option<string>,
    hasResponseElement: bool,
    isInvisible: bool,
    isInViewport: Option<bool>)

  /** `types.CaptchaSolution`, without the `requestAt`/`responseAt`/`duration` timestamps. */
  datatype CaptchaSolution = CaptchaSolution(
    vendor: Vendor,
    provider: string,
    id: Option<string>,
    providerCaptchaId: Option<int>,
    text: Option<string>,
    hasSolution: Option<bool>,
    error: Option<string>)

  /** JavaScript truthiness of an optional string: defined and not empty. */
  predicate StrTruthy(o: Option<string>) {
    o.Some? && o.value != ""
  }

  /** JavaScript truthiness of an optional number: defined and not zero. */
  predicate IntTruthy(o: Option<int>) {
    o.Some? && o.value != 0
  }

  /** `a || b` on optional numbers: `a` when it is truthy, else `b`. */
  function IntOr(a: Option<int>, b: Option<int>): (r: Option<int>)
    ensures IntTruthy(a) ==> r == a
    ensures !IntTruthy(a) ==> r == b
  {
    if IntTruthy(a) then a else b
  }
}
