# ft-poller in Dafny

A verified model of the core of ft-poller, a recurring-poll data source.
The model covers three parts:

- **The poller** (`poller.dfy`, module `Poller`). The constructor checks the
  config and fills option defaults in place: a 4000 ms timeout,
  `Accept: application/json` and a 60000 ms refresh interval. `start`, `stop`
  and `isRunning` form a two-state lifecycle over an optional timer handle.
  `fetch` turns the transport's outcome into the ordered `'ok'`/`'error'`
  events and decides what `parseData` receives.
- **The retrying fetch** (`eager_fetch.dfy`, module `EagerFetch`). It reads a
  retry budget from `opts.retry` and deletes that key. A timeout becomes a
  not-ok `{ ok: false }`, and any other error is passed on at once. A not-ok
  response is retried while the budget lasts. `stopRetrying` zeroes the budget.
- **`HttpError`** (`errors.dfy`, module `Errors`). This is the message format,
  the captured fields, the `status` getter, and the JSON-or-text choice of
  `responseBody`.

`js.dfy` (module `Js`) holds the JavaScript values and conversions the three
share. These are `undefined` as `Option`, thrown values, truthiness,
template-literal stringification of numbers, and `String.prototype.includes`.

Outside inputs enter as parameters:

- the HTTP transport: a `TransportOutcome` for the poller, and a function from
  call number to `Attempt` for the retrying fetch;
- the timer handle that `setInterval` returns: a `Handle` argument of `Start`;
- the measured latency: a number;
- `JSON.parse` and `url.parse`: function parameters whose results may be thrown
  errors.

Behaviour worth noting, as the code has it:

- `fetch` treats only status code exactly 200 as success, not every 2xx.
- `fetch` chooses between the raw body and `JSON.parse` by the `json` request
  option, not by the Content-Type.
- `responseBody` tests for `"json"` case-sensitively, so `APPLICATION/JSON`
  gives text.
- The constructor accepts an options object without a url.
- `start` returns nothing.
- There is no freshness state machine, no `getData`, no `defaultData`, no
  `retry()` and no `autostart` in this poller.
- The poller calls `request` directly, not the retrying fetch.

## Model

| member | source | states |
|---|---|---|
| `Poller.Poller.New` | src/poller.js:7-26 | Construction fails with the configuration message exactly when the config has neither an options object nor a truthy url. Otherwise it yields a fresh poller built from the config. |
| `Poller.Poller.constructor` | src/poller.js:11-25 | A supplied options object is the one the poller keeps and updates in place. Otherwise a fresh one holds `{url: config.url}`. The options become the defaulted ones, `parseData` is taken as given, and the poller is not running. |
| `Poller.WithDefaults` | src/poller.js:11-21 | The url and `json` flag are kept. The timeout is always truthy: a truthy one is kept and a falsy one becomes 4000. Headers always exist and have a truthy `Accept`: an existing truthy one is kept, otherwise it becomes `application/json`. Every other header is unchanged. |
| `Poller.DefaultsIdempotent` | src/poller.js:15-21 | Filling in the defaults twice gives the same options as once. |
| `Poller.RefreshInterval` | src/poller.js:23 | A truthy refresh interval is kept and a falsy one becomes 60000, so the result is never 0. |
| `Poller.Poller.IsRunning` | src/poller.js:28-30 | `isRunning()` is true exactly when a timer handle is held; every handle `setInterval` returns is truthy. |
| `Poller.Decode` | src/poller.js:73 | With `json` set, `parseData` is handed the body as delivered. Otherwise it gets the `JSON.parse` result, and the cycle fails with `JSON.parse`'s error exactly when that throws. |
| `Poller.Poller.FetchCycle` | src/poller.js:69-81 | A poller's cycle is `Settle` with the poller's own `options.json` and `parseData`. Without `parseData`, nothing is handed over; with `json`, the raw body is. |
| `Poller.Poller.Fetch` | src/poller.js:56-68 | Each fetch makes exactly one transport call, with the poller's current options. |
| `Poller.Poller.Start` | src/poller.js:38-54 | While running, start fails with "Could not start job because the service is already running". It then makes no call and keeps the handle. Otherwise it makes one call first when `initialRequest` is set and none when it is not. It then installs the new handle, so the poller is running. |
| `Poller.Poller.Stop` | src/poller.js:32-36 | Stop returns true and leaves the poller not running, whether it was running or not, so repeating it is harmless. |
| `Poller.Settle` | src/poller.js:61-81 | A cycle emits `ok` alone, `ok` then `error`, or `error` alone. `ok`, with the response and latency, comes first exactly when the status code is 200. Any other status emits only `error` with the body. A transport error emits only `error` with that error. `parseData` is called exactly when the status is 200, decoding succeeds and a `parseData` exists. It then receives the raw body under `json`, otherwise the parsed body. After `ok`, the single `error` carries `JSON.parse`'s error when decoding fails, a `TypeError` when there is no `parseData`, and `parseData`'s thrown value when it throws. |
| `EagerFetch.Recover` | src/eager-fetch.js:15-21 | A rejection named `TimeoutError` becomes a not-ok response. Any other rejection stays a rejection with the same error. A response passes unchanged. |
| `EagerFetch.Budget` | src/eager-fetch.js:8 | The budget is `opts.retry` when present. An absent one behaves as a budget that is not positive, since `undefined > 0` is false. |
| `EagerFetch.Retry` | src/eager-fetch.js:13-28 | The attempt chain makes at least one call. An ok first response or a non-timeout first error ends it after that one call, with that outcome. |
| `EagerFetch.AttemptBound` | src/eager-fetch.js:22-26 | With budget N the transport is called at most N+1 times. With a budget that is absent or at most 0, it is called exactly once. |
| `EagerFetch.BudgetNeverNegative` | src/eager-fetch.js:23-24 | A non-negative budget never becomes negative and never grows. |
| `EagerFetch.ResultIsLastAttempt` | src/eager-fetch.js:22-28 | The result is the outcome of the last call, unchanged, with timeouts as `{ ok: false }`. Every earlier call produced a not-ok response. |
| `EagerFetch.GivesUpOnlyWhenExhausted` | src/eager-fetch.js:23-27 | If `stopRetrying` was not called, a not-ok result comes only after exactly N+1 calls, with the budget spent. |
| `EagerFetch.StopRetryingEndsLoop` | src/eager-fetch.js:30-32 | If `stopRetrying` is called during a call, no further call follows it. |
| `EagerFetch.FetchAttempts` | src/eager-fetch.js:13-37 | The loop computes the same result, number of calls and final budget as the recursive attempt chain. Every call is made with the same url and options. |
| `EagerFetch.EagerFetch` | src/eager-fetch.js:7-38 | The `retry` key is removed from the caller's options before any call, and the other options are untouched. Every transport call receives those options, without a `retry` key, and the result and call count are those of the attempt chain. |
| `Errors.NewHttpError` | src/errors.js:7-18 | Construction fails exactly when `url.parse` throws, with its error. Otherwise `name` is `HttpError`, `url` is the parsed url, `method` and the response are stored as given, and the message is the template of the response's `status` and `statusText`. |
| `Errors.MessageNamesStatus` | src/errors.js:11 | Reading the number back from the message gives the response's `status` when it is a non-negative number. It gives none when the status is `undefined` or negative. |
| `Errors.Message` | src/errors.js:11 | The message starts with `HTTP Error `, then the stringified `status` and a space, and ends with the response's `statusText` (`undefined` for a missing field). |
| `Errors.Status` | src/errors.js:20-22 | The `status` getter as written returns the response's `statusCode` field, not its `status` field. |
| `Errors.StatusGetterMissesFetchStatus` | src/errors.js:20-22 | The `status` getter reads `statusCode`. For a fetch response with status 503 and no `statusCode`, it yields `undefined` while the message reports 503. |
| `Errors.ReportedStatusMatchesMessage` | src/errors.js:20-22 | A getter reading `status` agrees with the status the message reports, for every constructed error with a non-negative status. |
| `Errors.ResponseBody` | src/errors.js:24-28 | The JSON decoder is chosen exactly when `"json"` occurs, case-sensitively, in the stringified Content-Type. Otherwise the text decoder is chosen. The body plays no part in the choice. |
| `Errors.ResponseBodyExamples` | src/errors.js:24-28 | `application/json; charset=utf-8` gives JSON. `text/plain`, a missing header (read as `"null"`) and `APPLICATION/JSON` give text. |

## Left out

- The HTTP transport (`request`, undici's `fetch`), timers, the clock, `JSON.parse` and `url.parse` are foreign code. They are inputs, not models.
- Each timer tick calls `fetch`, which is `Poller.Poller.Fetch` here. The ticks themselves, and `clearInterval` cancelling them, are not modelled. Stop only drops the handle.
- Promise asynchrony and overlapping fetch cycles are not modelled: each cycle is settled on its own.
- `parseData` is modelled as returning or throwing. A promise it returns is not awaited by line 78, and its rejection is not modelled.
- Event-emitter plumbing is left out. A listener that throws inside `emit('ok')`, and an `'error'` emitted with no listener, are not modelled.
- `Poller.Settle` treats the body as text. With the `json` option, `request` has already decoded it, and the model passes it through unchanged.
- Request options other than `url`, `timeout`, `headers` and `json` pass through to the transport and are not modelled.
- The headers object is a map value inside the options object. If the caller shares the same headers object elsewhere, that sharing is not modelled.
- `Poller.WithDefaults` and `Poller.RefreshInterval` treat timeouts and intervals as integers. Non-numeric values and `NaN` are not modelled.
- `EagerFetch.BudgetNeverNegative` holds for integer budgets only. A fractional budget such as 2.5 does go negative in JavaScript (2.5, 1.5, 0.5, then -0.5), and the model does not cover it.
- An absent `retry` is modelled as a budget of 0. This behaves the same, because `undefined > 0` is false.
- `stopRetrying` is a per-call flag: whether it was called while that call was in flight.
- `HttpError` keeps only its `name` and `message` from being an `Error` subclass: no stack, no `instanceof Error`.
- A missing `response` in the `HttpError` constructor would throw a `TypeError`, and the model requires one. Stringifying numbers of 1e21 or more (exponent form) is not modelled.
- Header lookup uses lower-case names, as fetch `Headers` stores them. The joining of repeated headers is not modelled.
- `response.json()` and `response.text()` are represented only by which of them `responseBody` calls.
- src/server.js, src/client.js and examples/dedeplication are wiring and demonstration code. They are not part of this model.

## Findings

| source | as written | input that shows it | evidently intended | confidence | as-written member | corrected member |
|---|---|---|---|---|---|---|
| src/errors.js:20-22 | The `status` getter returns `this._response.statusCode`. The message (line 11) and `responseBody` (lines 24-28) use the fetch `Response` interface (`status`, `statusText`, `headers.get`, `json()`, `text()`), which has no `statusCode`. | A fetch `Response` with `status` 503 and no `statusCode`: the message reads `HTTP Error 503 Service Unavailable`, and `status` is `undefined`. | `status` returns `this._response.status`, the value the message reports. | medium, not executed | `Errors.StatusGetterMissesFetchStatus` | `Errors.ReportedStatusMatchesMessage` |
