# Turnstile detection and CapMonster solving, modelled in Dafny

This project models the Cloudflare Turnstile path of `puppeteer-extra-plugin-recaptcha` from end to end:

- **The Turnstile content script** (`content-turnstile.ts`) runs inside the page. It:
  - finds the Turnstile challenge iframes;
  - describes each one as a `CaptchaInfo` record (widget id, sitekey, response element, viewport);
  - paints the found iframes as busy;
  - later writes the solved tokens into the widgets' hidden `cf-chl-widget-<id>_response` inputs.
- **The CapMonster Cloud client** (`provider/capmonster-api.ts`). It:
  - builds the `createTask` body;
  - reacts to the `createTask` answer;
  - runs the `getTaskResult` poll loop, which must call its callback at most once with a terminal result;
  - hands the caller an `invalid` handler that reports a bad token and retries within a budget that it keeps on a shared options object.
- **The CapMonster provider** (`provider/capmonster.ts`). For each captcha it:
  - validates the record;
  - assembles the extra task data (site value, invisible flag, proxy settings from the environment);
  - calls the client;
  - turns the answer into a `CaptchaSolution`.

  `getSolutions` collects one solution per captcha and picks the first failed one.

Files:

- `types.dfy` (module `Types`): the shared records, JavaScript truthiness and `||` on optional numbers.
- `strings.dfy` (module `Strings`): `split` and `join` on one character, the substring test behind `[attr*=…]`, and a declarative "segment after the last separator" against which `split(…).pop()` is proved.
- `content_turnstile.dfy` (module `TurnstileContent`):
  - a `Page` class whose input values and painted iframes change in place;
  - the `TurnstileContentScript` class, whose methods are proved against pure functions of the page.
- `capmonster_api.dfy` (module `CapMonsterApi`):
  - the `createTask` body builder and the `createTask` handler;
  - the poll loop, as a pure step function, lemmas over arbitrary event runs, and a `Poller` class whose handlers follow that step function;
  - the `Options` class and the retry handler, with lemmas over runs of retry calls.
- `capmonster.dfy` (module `CapMonster`): `getSolution` as a method proved against a case-by-case specification function, `getSolutions` as a loop over it, and the lemmas about the solutions.

What is abstract:

- The page is a sequence of iframes (DOM id, `src`, an in-viewport flag) and a map from input id to value.
- The network and timers are events: a timer tick, a response body, a request error.
- A callback call is a recorded `Delivery` value.
- In the provider, the client is a parameter `service`. Given the position of a captcha in the batch and the call made for it, `service` returns one of three things: the first callback the client delivers, which is what settles the promise; the exception the call threw synchronously; or `Pending` when no callback ever comes. Each position is its own session with its own `createTask`.
- `process.env` is a map parameter.

## Model

All paths are under `packages/puppeteer-extra-plugin-recaptcha/src/`; the table writes them in full.

| member | source | states |
|---|---|---|
| Strings.Split | packages/puppeteer-extra-plugin-recaptcha/src/content-turnstile.ts:134 | `split` on one character yields at least one chunk and no chunk contains the separator |
| Strings.JoinSplit | packages/puppeteer-extra-plugin-recaptcha/src/content-turnstile.ts:134 | joining the chunks of `split` with the separator gives the original string back |
| Strings.SplitCount | packages/puppeteer-extra-plugin-recaptcha/src/content-turnstile.ts:137 | `split` yields exactly one more chunk than there are separators |
| Strings.LastChunkIsLastSegment | packages/puppeteer-extra-plugin-recaptcha/src/content-turnstile.ts:134-135 | `split(c).pop()` is the text after the last `c`, and the whole string when there is no `c` |
| Strings.ThirdFromLastChunk | packages/puppeteer-extra-plugin-recaptcha/src/content-turnstile.ts:137-140 | the third `pop()` returns the segment that precedes the last two segments |
| Strings.ContainsIff | packages/puppeteer-extra-plugin-recaptcha/src/content-turnstile.ts:79-81 | the `*=` substring test holds exactly when the substring occurs at some position |
| TurnstileContent.LoadedAlready | packages/puppeteer-extra-plugin-recaptcha/src/content-turnstile.ts:41 | the regex holds exactly for a value starting with `i`, `c` or `loaded` |
| TurnstileContent.ReadyStateValues | packages/puppeteer-extra-plugin-recaptcha/src/content-turnstile.ts:41 | the ready test rejects `loading` and accepts `interactive` and `complete` |
| TurnstileContent.GetResponseInputById | packages/puppeteer-extra-plugin-recaptcha/src/content-turnstile.ts:85-99 | nothing for a falsy id or a missing body; otherwise the input whose id is exactly `cf-chl-widget-<id>_response` when it exists; a selector-breaking id raises |
| TurnstileContent.IsInvisible | packages/puppeteer-extra-plugin-recaptcha/src/content-turnstile.ts:101-106 | always false |
| TurnstileContent.FirstIframeWithIdContaining | packages/puppeteer-extra-plugin-recaptcha/src/content-turnstile.ts:124 | the first iframe, in document order, whose id contains the needle, or none when no iframe matches |
| TurnstileContent.IsInViewport | packages/puppeteer-extra-plugin-recaptcha/src/content-turnstile.ts:122-129 | undefined for a falsy id; otherwise true exactly when the first iframe whose id contains `cf-chl-widget-<id>` exists and is in the viewport |
| TurnstileContent.FindRegularCheckboxes | packages/puppeteer-extra-plugin-recaptcha/src/content-turnstile.ts:78-83 | an iframe is selected exactly when its `src` contains the challenge-platform URL; the result is in document order without repeats |
| TurnstileContent.InfoOf | packages/puppeteer-extra-plugin-recaptcha/src/content-turnstile.ts:133-155 | the record is turnstile / checkbox / not invisible, with the page URL, the widget id, the sitekey and whether the response input exists; it raises exactly when the widget id breaks a selector, with the response-input selector error when that query breaks (it runs first) and the viewport selector error otherwise |
| TurnstileContent.ExtractInfoFromIframes | packages/puppeteer-extra-plugin-recaptcha/src/content-turnstile.ts:131-156 | one record per iframe, in order, when no record raises; otherwise the error of the first iframe that raises, every earlier one succeeding |
| TurnstileContent.WidgetIdOf | packages/puppeteer-extra-plugin-recaptcha/src/content-turnstile.ts:134-135 | the widget id contains no `-` and is no longer than the DOM id |
| TurnstileContent.SitekeyOf | packages/puppeteer-extra-plugin-recaptcha/src/content-turnstile.ts:137-140 | a sitekey exists exactly when `src` has at least two `/`, and contains no `/` |
| TurnstileContent.WidgetIdMeaning | packages/puppeteer-extra-plugin-recaptcha/src/content-turnstile.ts:134-135 | the widget id is the part of the DOM id after its last `-`, and the whole id when there is none |
| TurnstileContent.SitekeyMeaning | packages/puppeteer-extra-plugin-recaptcha/src/content-turnstile.ts:137-140 | the sitekey exists exactly when `src` has at least two `/`, and is then the segment before the size and theme segments |
| TurnstileContent.EmptyWidgetId | packages/puppeteer-extra-plugin-recaptcha/src/content-turnstile.ts:134-152 | an empty DOM id, or one ending in `-`, yields id `""`, no response element and an undefined viewport flag |
| TurnstileContent.Eligible | packages/puppeteer-extra-plugin-recaptcha/src/content-turnstile.ts:193-195 | keeps exactly the turnstile solutions with `hasSolution === true` |
| TurnstileContent.EligibleAppend | packages/puppeteer-extra-plugin-recaptcha/src/content-turnstile.ts:193-195 | the filter distributes over concatenation, so it keeps the input order |
| TurnstileContent.FirstUnwritable | packages/puppeteer-extra-plugin-recaptcha/src/content-turnstile.ts:196-211 | every solution before the returned index finds its input; the one at the index does not |
| TurnstileContent.SolvedRecords | packages/puppeteer-extra-plugin-recaptcha/src/content-turnstile.ts:215-220 | one `{_vendor, id, isSolved: true}` record per written solution, in order |
| TurnstileContent.WriteAllKeys | packages/puppeteer-extra-plugin-recaptcha/src/content-turnstile.ts:211 | writing tokens never adds or removes an input |
| TurnstileContent.WriteAllUntouched | packages/puppeteer-extra-plugin-recaptcha/src/content-turnstile.ts:211 | an input that no solution targets keeps its value |
| TurnstileContent.WriteAllLastWriter | packages/puppeteer-extra-plugin-recaptcha/src/content-turnstile.ts:211 | an input holds the token of the last solution that targets it |
| TurnstileContent.InjectionWritesTokens | packages/puppeteer-extra-plugin-recaptcha/src/content-turnstile.ts:193-221 | after a complete batch, each targeted input holds its last writer's token, the others are unchanged, and the set of inputs is the same |
| TurnstileContent.TurnstileContentScript.constructor | packages/puppeteer-extra-plugin-recaptcha/src/content-turnstile.ts:23-36 | keeps the given options and data |
| TurnstileContent.TurnstileContentScript.Default | packages/puppeteer-extra-plugin-recaptcha/src/content-turnstile.ts:3-9 | the defaults: visual feedback on and an empty solution list |
| TurnstileContent.TurnstileContentScript.PaintCaptchaBusy | packages/puppeteer-extra-plugin-recaptcha/src/content-turnstile.ts:55-64 | marks the iframe exactly when visual feedback is on, and changes nothing else |
| TurnstileContent.TurnstileContentScript.FindRecaptchas | packages/puppeteer-extra-plugin-recaptcha/src/content-turnstile.ts:158-178 | no match: an empty result; a raise: no captchas, the error and no painting; otherwise the extracted records, and every matching iframe painted when feedback is on |
| TurnstileContent.TurnstileContentScript.PaintEach | packages/puppeteer-extra-plugin-recaptcha/src/content-turnstile.ts:170-172 | every listed iframe is painted when feedback is on, and nothing else changes |
| TurnstileContent.TurnstileContentScript.EnterRecaptchaSolutions | packages/puppeteer-extra-plugin-recaptcha/src/content-turnstile.ts:180-227 | no solutions: "No solutions provided" and no write; otherwise eligible tokens are written in order up to the first missing input; a missing input aborts with its error and an empty `solved` while earlier writes stay |
| TurnstileContent.TurnstileContentScript.WriteSolutions | packages/puppeteer-extra-plugin-recaptcha/src/content-turnstile.ts:196-221 | writes the tokens in order up to the first solution without an input, and stops there with that solution's error; when every input exists, it returns one record per solution |
| CapMonsterApi.BuildTask | packages/puppeteer-extra-plugin-recaptcha/src/provider/capmonster-api.ts:85-111 | an unknown method gives an empty task; otherwise the method's task type, `websiteURL` and `websiteKey`, with every key of `extraData` overriding them |
| CapMonsterApi.TaskType | packages/puppeteer-extra-plugin-recaptcha/src/provider/capmonster-api.ts:90-111 | a task type exists exactly for `hcaptcha`, `userrecaptcha` and `turnstile` |
| CapMonsterApi.ResolveArgs | packages/puppeteer-extra-plugin-recaptcha/src/provider/capmonster-api.ts:78-81 | without a callback, the options argument becomes the callback and the options are the shared defaults object itself |
| Types.IntOr | packages/puppeteer-extra-plugin-recaptcha/src/provider/capmonster-api.ts:63 | `options.pollingInterval || defaultOptions.pollingInterval`: a truthy value is used, otherwise the default's; the same `||` resets a falsy `retries` to the current default |
| CapMonsterApi.OnCreateTask | packages/puppeteer-extra-plugin-recaptcha/src/provider/capmonster-api.ts:115-166 | a request error or a non-zero `errorId` is delivered with no polling; otherwise a fresh poller starts for `taskId` and nothing is delivered |
| CapMonsterApi.SolutionText | packages/puppeteer-extra-plugin-recaptcha/src/provider/capmonster-api.ts:49 | a truthy `gRecaptchaResponse` wins, then a truthy `token`; `''` exactly when neither is truthy |
| CapMonsterApi.PollStep | packages/puppeteer-extra-plugin-recaptcha/src/provider/capmonster-api.ts:34-60 | one event keeps the task id, only appends to the deliveries (at most one), delivers nothing once the callback is the no-op, sends a request exactly on a tick while the interval runs, and never restarts a cleared interval |
| CapMonsterApi.PollStepKeepsInv | packages/puppeteer-extra-plugin-recaptcha/src/provider/capmonster-api.ts:34-60 | each event keeps the invariant: the interval runs exactly while the callback is armed, and one terminal result has been delivered exactly when it is not |
| CapMonsterApi.RunPollKeepsInv | packages/puppeteer-extra-plugin-recaptcha/src/provider/capmonster-api.ts:16-63 | any run of events keeps that invariant |
| CapMonsterApi.AtMostOneTerminal | packages/puppeteer-extra-plugin-recaptcha/src/provider/capmonster-api.ts:34-55 | over any sequence of ticks, concurrent responses and request errors, at most one terminal result reaches the caller, and one has exactly when polling has stopped |
| CapMonsterApi.QuietAfterTerminal | packages/puppeteer-extra-plugin-recaptcha/src/provider/capmonster-api.ts:54 | once the callback is the no-op and the interval is cleared, nothing is delivered and no request is sent, whatever follows |
| CapMonsterApi.ProcessingIsNoOp | packages/puppeteer-extra-plugin-recaptcha/src/provider/capmonster-api.ts:36-38 | a `processing` response changes nothing except closing its own request |
| CapMonsterApi.FirstTerminalDelivers | packages/puppeteer-extra-plugin-recaptcha/src/provider/capmonster-api.ts:40-53 | the first non-processing response stops polling, disarms the callback and delivers the error code, or `taskId` with the token |
| CapMonsterApi.RequestErrorKeepsPolling | packages/puppeteer-extra-plugin-recaptcha/src/provider/capmonster-api.ts:57-60 | a request error reaches the current callback but neither clears the interval nor disarms the callback |
| CapMonsterApi.OverlappingTerminalResponses | packages/puppeteer-extra-plugin-recaptcha/src/provider/capmonster-api.ts:34-55 | two open requests that both answer terminally deliver only the first answer, and no later event adds anything |
| CapMonsterApi.ProcessingThenToken | packages/puppeteer-extra-plugin-recaptcha/src/provider/capmonster-api.ts:36-53 | two `processing` answers, then an answer carrying only `token`, deliver that token once with `taskId` |
| CapMonsterApi.RequestErrorThenTerminal | packages/puppeteer-extra-plugin-recaptcha/src/provider/capmonster-api.ts:40-60 | a request error followed by a terminal answer reaches the caller twice; the single-delivery guard covers terminal answers only |
| CapMonsterApi.Poller.constructor | packages/puppeteer-extra-plugin-recaptcha/src/provider/capmonster-api.ts:14-16 | polling starts with the interval running, the callback armed and nothing delivered |
| CapMonsterApi.Poller.Tick | packages/puppeteer-extra-plugin-recaptcha/src/provider/capmonster-api.ts:16-27 | sends one more request exactly while the interval runs, and keeps the invariant |
| CapMonsterApi.Poller.OnPollResponse | packages/puppeteer-extra-plugin-recaptcha/src/provider/capmonster-api.ts:34-55 | follows the step function and keeps the invariant |
| CapMonsterApi.Poller.OnRequestError | packages/puppeteer-extra-plugin-recaptcha/src/provider/capmonster-api.ts:57-60 | delivers the error to an armed callback and leaves the interval and the callback as they were |
| CapMonsterApi.Options.Defaults | packages/puppeteer-extra-plugin-recaptcha/src/provider/capmonster-api.ts:9-12 | polling interval 2000 and retries 3 |
| CapMonsterApi.RetryStep | packages/puppeteer-extra-plugin-recaptcha/src/provider/capmonster-api.ts:136-155 | with an error: nothing changes and it gives up with `CAPTCHA_FAILED`; otherwise it restarts exactly when the reset budget is above 1, leaving that budget minus 1, and else gives up with the too-many-times code |
| CapMonsterApi.Invalid | packages/puppeteer-extra-plugin-recaptcha/src/provider/capmonster-api.ts:131-156 | reports `captchaId`; with an error it gives up with `CAPTCHA_FAILED`; otherwise a falsy budget becomes the current `defaultOptions.retries` (the options may be that object itself), then a budget above 1 is decremented in place and decoding restarts, else it gives up with `CAPTCHA_FAILED_TOO_MANY_TIMES` |
| CapMonsterApi.RestartsBounded | packages/puppeteer-extra-plugin-recaptcha/src/provider/capmonster-api.ts:140-155 | while `defaultOptions.retries` is between 1 and 3, a truthy budget `b` allows at most `b - 1` restarts and an unset one at most 2, however the calls and the spending of the defaults interleave |
| CapMonsterApi.SharedBudgetInRange | packages/puppeteer-extra-plugin-recaptcha/src/provider/capmonster-api.ts:140-144 | whatever retries go through `defaultOptions` itself, its `retries` stays a number from 1 to its starting value, and it restarts at most that value minus 1 times |
| CapMonsterApi.BudgetStaysPositive | packages/puppeteer-extra-plugin-recaptcha/src/provider/capmonster-api.ts:140-145 | from a budget that is unset or at least 1, and defaults between 1 and 3, `retries` never ends up below 1 once set |
| CapMonsterApi.ExhaustedStaysExhausted | packages/puppeteer-extra-plugin-recaptcha/src/provider/capmonster-api.ts:143-155 | once `retries` is at most 1 and truthy, later calls change nothing and never restart |
| CapMonsterApi.ExhaustionAfterBudget | packages/puppeteer-extra-plugin-recaptcha/src/provider/capmonster-api.ts:140-155 | with `b` the budget the first call settles on (its own truthy `retries`, or the value `defaultOptions.retries` has at that call), `b` error-free calls restart `b - 1` times and then give up with the too-many-times code |
| CapMonsterApi.SpentDefaultsShortenRetries | packages/puppeteer-extra-plugin-recaptcha/src/provider/capmonster-api.ts:140-144 | one restart through the shared defaults leaves them at 2, after which an object with unset `retries` restarts once and then gives up, where fresh defaults allow two restarts |
| CapMonsterApi.RetryThroughDefaults | packages/puppeteer-extra-plugin-recaptcha/src/provider/capmonster-api.ts:78-81 | without a callback, a retry spends the budget of the shared defaults object itself, so a later call with its own unset `retries` restarts once and then gives up |
| CapMonster.MethodForVendor | packages/puppeteer-extra-plugin-recaptcha/src/provider/capmonster.ts:42-45 | hCaptcha maps to `hcaptcha`; every other vendor, Turnstile included, maps to `userrecaptcha` |
| CapMonster.VendorTaskTypes | packages/puppeteer-extra-plugin-recaptcha/src/provider/capmonster.ts:42-46 | every vendor gets a task; Turnstile is sent as `NoCaptchaTaskProxyless`, never as `TurnstileTaskProxyless` |
| CapMonster.DecodeCallFor | packages/puppeteer-extra-plugin-recaptcha/src/provider/capmonster.ts:28-46 | the client gets the token as key, the vendor's method, the sitekey, the URL, the extra data, and options with interval 2000 and no `retries` |
| CapMonster.DecodeOptsDefaults | packages/puppeteer-extra-plugin-recaptcha/src/provider/capmonster.ts:34 | these options poll every 2000 ms whatever the defaults hold, and leave the retry budget to whatever `defaultOptions.retries` holds when the first retry happens |
| CapMonster.Settle | packages/puppeteer-extra-plugin-recaptcha/src/provider/capmonster.ts:36-50 | never settles exactly when no callback comes; a synchronous throw becomes `err` rather than being raised; a result exists exactly when a solution was delivered, and then `err` is null and `invalid` is passed |
| CapMonster.DecodeRecaptchaAsync | packages/puppeteer-extra-plugin-recaptcha/src/provider/capmonster.ts:28-51 | pending exactly when the client never calls back on the described call; a result is the one the client delivered; a request error becomes the error object |
| CapMonster.Upper | packages/puppeteer-extra-plugin-recaptcha/src/provider/capmonster.ts:92 | upper-cases character by character and keeps the length |
| CapMonster.ExtraData | packages/puppeteer-extra-plugin-recaptcha/src/provider/capmonster.ts:81-97 | the site value when `s` is truthy; `isInvisible: true` when invisible; the five proxy fields exactly when type, address and port are all set, with the type upper-cased and login and password copied even when unset; no other key |
| CapMonster.AssembleExtraData | packages/puppeteer-extra-plugin-recaptcha/src/provider/capmonster.ts:81-97 | the successive `extraData` assignments build exactly the extra data described above |
| CapMonster.ExpectedSolution | packages/puppeteer-extra-plugin-recaptcha/src/provider/capmonster.ts:65-124 | the promise stays pending exactly when the data is complete and the decode never settles |
| CapMonster.GetSolution | packages/puppeteer-extra-plugin-recaptcha/src/provider/capmonster.ts:65-124 | builds exactly the solution the case-by-case specification describes, or stays pending when the decode never settles; by `SolutionCarriesResult`, a solved one carries the delivered token and task id |
| CapMonster.SolutionIdentity | packages/puppeteer-extra-plugin-recaptcha/src/provider/capmonster.ts:70-73 | every settled solution carries the captcha's vendor and provider `capmonster` |
| CapMonster.MissingDataFailsEarly | packages/puppeteer-extra-plugin-recaptcha/src/provider/capmonster.ts:75-77 | missing sitekey, url or id settles with "Error: Missing data in captcha", no id and no solution, whatever the client would answer |
| CapMonster.SolvedIffNoError | packages/puppeteer-extra-plugin-recaptcha/src/provider/capmonster.ts:107-122 | a solution is solved exactly when it has no error, and every error is a non-empty string; a solved one has the captcha's id, a non-empty token and a non-zero task id |
| CapMonster.SolvedExactly | packages/puppeteer-extra-plugin-recaptcha/src/provider/capmonster.ts:99-114 | solved exactly when the data is complete and the client delivered a result with a non-empty text and a non-zero id, so an empty token is a failure |
| CapMonster.SolutionCarriesResult | packages/puppeteer-extra-plugin-recaptcha/src/provider/capmonster.ts:111-114 | a solved solution's `text` is the token and its `providerCaptchaId` the task id of the result the client delivered for this captcha's call |
| CapMonster.DecodeErrorMessage | packages/puppeteer-extra-plugin-recaptcha/src/provider/capmonster.ts:107 | a truthy decode error gives the solution with the captcha's id and the error "Error: capmonster error: " followed by the error, and nothing else |
| CapMonster.FirstError | packages/puppeteer-extra-plugin-recaptcha/src/provider/capmonster.ts:62 | none exactly when no solution has a truthy error; otherwise the first solution, in order, that has one |
| CapMonster.AllSettled | packages/puppeteer-extra-plugin-recaptcha/src/provider/capmonster.ts:59-61 | `Promise.all`: never settles exactly when one entry never does; otherwise every value, in order |
| CapMonster.GetSolutions | packages/puppeteer-extra-plugin-recaptcha/src/provider/capmonster.ts:53-63 | each captcha is solved in its own client session; the batch never settles exactly when one of its decodes never does; otherwise one solution per captcha, in input order, and the first failed solution as `error` |
| CapMonster.BatchErrorIffUnsolved | packages/puppeteer-extra-plugin-recaptcha/src/provider/capmonster.ts:59-62 | the batch error is undefined exactly when every captcha was solved |

## Left out

- HTTPS requests, `JSON.parse`, and `setInterval`/`clearInterval` timing are replaced by events. Responses arrive as parsed records, and a tick stands for one interval firing.
- `errorId` and `taskId` are integers, and `errorCode` is an optional string. JSON type coercion under the loose `!=` (`"0" != 0`, a missing `errorId`) is not modelled.
- The fire-and-forget `report` request is not sent. `CapMonsterApi.Invalid` returns the reported task id instead.
- CapMonsterApi.Invalid: a restart is the outcome `Restart`. The re-entrant `decodeReCaptcha` call it stands for (a new `createTask`) is not chained in the model.
- `CAPTCHA_FAILED…` is returned by `Invalid` as its outcome rather than passed to a callback. `getSolution` never calls `invalid`, so the provider never reaches that path.
- `apiKey` and `setApiKey` only store the key in a module-level variable, so they are left out. The key shows up as a field of the decode call.
- Promise concurrency in `getSolutions` is a sequential loop over per-captcha client sessions. The order in which the sessions' network events interleave is not modelled; the sessions share three pieces of module state. The module-level `apiKey` is overwritten by every session through `setApiKey(token)`, but one batch passes the same token to every session, so every request sends that key. `defaultOptions.pollingInterval` is only read, and nothing writes it. `defaultOptions.retries` is read and written only by `invalid`, which `getSolution` never calls.
- The event-listener wiring of `_waitUntilDocumentReady` is left out, because it waits on the browser. Only its ready test is modelled (`LoadedAlready`); `FindRecaptchas` models the script once that wait has resolved, so the page carries no `readyState`.
- TurnstileContent.IsInViewport: the geometric test of `_isInViewport` (DOMRect doubles and numeric `||`/`&&` coercion) is an opaque per-iframe flag of the page.
- TurnstileContent.GetResponseInputById: CSS selector parsing is approximated. An id containing the selector's quote character, a backslash or a newline is taken to make `querySelector` raise; all other ids are taken as literal. The exact CSS tokenizer is not modelled.
- Dates are left out because they are clock reads: `requestAt`, `responseAt`, `duration` (floating-point seconds) and `solvedAt`.
- Debug logging, the `globalThis.__name` workaround and the unused provider options `useEnterpriseFlag` and `useActionValue` are left out. None of them affects a result.
- `process.env` is a map parameter.
- CapMonster.Upper: only ASCII letters are upper-cased. JavaScript's full Unicode case mapping is not modelled.
- A `null` captcha passed to `getSolution` is not representable. When it is null, reading `captcha._vendor` raises before the `try`.
- CapMonsterApi.Poller.OnPollResponse: a response or request error is only accepted while a request is open. A stray event with none open cannot occur, and the step function then changes nothing.
- The `JSON.stringify` rendering of the `createTask` body is not modelled. In that rendering, keys whose value is `undefined`, such as an unset proxy login, are dropped.
