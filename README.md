# Wildcard analytics.js integration: message shaping and submission

This project models the core of the Wildcard integration for analytics.js.
The integration receives the host's actions (page, identify, group, track,
alias) and rewrites each event object in place. It adds context, identity,
a timestamp and diagnostic metadata. It then hands the event to a retry
queue, together with its URL and headers, unless the serialised event is
larger than the configured limit. The model also covers two pieces of the
XMLHttpRequest sender: which status codes are reported as errors, and
which request headers are set.

Files:

- `js.dfy` (module `Js`): possibly-missing strings, JavaScript truthiness and the `||` chain.
- `messages.dfy` (module `Messages`): the event object (`Message`) and its context object (`Context`) as classes, and their serialisable content (`Envelope`, `ContextValue`, `Metadata`, `Library`) as values.
- `wildcard.dfy` (module `WildcardIntegration`): the specification functions `Normalize` and `AliasFields`, the action-to-path table, and the class `Wildcard` whose methods rewrite messages in place and append to its `queue` field.
- `send_data.dfy` (module `SendData`): status classification, the ready-state handler and the header-setting loop.
- `scenarios.dfy` (module `Scenarios`): situations from the test suite, plus the size limit's boundary, the status classes and a displaced `options` object, proved from the contracts alone.

The environment is passed in explicitly. `Host` holds `navigator.userAgent`, `location.search`, the clock and the UTM parser. `Analytics` holds the user's ids, `VERSION`, `failedInitializations` and the integration names. The serialised length of an event (`JSON.stringify(...).length`) is a parameter `size: Envelope -> nat` of `AddToQueue`.
The constants are recorded as `MaxSize` (32000), `DefaultOptions` (name `''`, endpoint `''`, `maxPayloadSize` 32000) and `RetryQueueOptions` (360000, 1000, 2, 10, 100).

The model follows the code as written, including these behaviours that a reader might expect otherwise:

- A non-429 4xx status is reported as success, not as a fatal error.
- `userId` is kept only when truthy, so an empty-string `userId` is replaced.
- For an alias, the `previousId` chain starts with an existing `previousId` before `from`, and `userId` is `userId || to`, not just `to`.
- A non-empty list of failed initialisations replaces the whole `_metadata` object, dropping anything a caller put there.
- `bundled` is the integrations' key order, not a sorted list.
- The source name defaults to `''` and falls back to `'analytics'` at use.
- A finished request with status 0 is classified as success. XMLHttpRequest reports status 0 on a network error, a CORS failure or a timeout, and `readyState` 4 is reached before `error` or `timeout` fires, so the callback first reports success and is then called again by `onerror` or `ontimeout` (src/helpers/sendData.ts:21-28, 36). The model reproduces the success report (`Classify(0, _)` is `Success(0)`); the second call is not modelled.

## Model

| member | source | states |
|---|---|---|
| `Js.FirstTruthy` | src/index.ts:140-141 | the value of a chain of JavaScript `or` operators is truthy iff some operand is, is then the first truthy operand, and is otherwise the last operand |
| `Js.OrChain` | src/index.ts:140 | the left-associated chain of `or` operators as the source writes it equals the first-truthy reading, for any number of operands |
| `WildcardIntegration.SourceName` | src/index.ts:67 | the source name (`options.name`, falling back to `'analytics'`) is never empty, is the configured name whenever one is set, and is `analytics` otherwise |
| `WildcardIntegration.DefaultLibrary` | src/index.ts:65-70 | the default library is named `<source name>.js` (`analytics.js` when no name is configured) and carries the host's `VERSION` |
| `WildcardIntegration.FillContext` | src/index.ts:63-75 | `userAgent` is always overwritten; a present `library` or `campaign` is kept verbatim; a missing library becomes the default library; a missing campaign becomes the UTM parse only when the query string is non-empty; other context properties are untouched |
| `WildcardIntegration.NormalizeMetadata` | src/index.ts:81-92 | failed initialisations replace `_metadata` by `{failedInitializations}`; `addBundledMetadata` adds `bundled` = integration names and `unbundled` = the configured list verbatim, keeping an existing `failedInitializations`; with neither, `_metadata` is untouched |
| `WildcardIntegration.Normalize` | src/index.ts:55-97 | after normalisation `context` is the caller's context, else the former `options`, else an empty one (`BaseContext`, the value of `message.context || message.options || {}` at line 61), filled by `FillContext`; `options` is gone; a truthy `userId` is kept, otherwise it becomes `user.id()`; `anonymousId` is always `user.anonymousId()`; `sentAt` is always set; `_metadata` follows `NormalizeMetadata`; every other property passes through |
| `WildcardIntegration.NormalizeIdempotent` | src/index.ts:55-97 | normalising an already normalised event in the same environment changes nothing |
| `WildcardIntegration.AliasFields` | src/index.ts:137-143 | `previousId` becomes the first truthy of `previousId`, `from`, `user.id()`, `user.anonymousId()`; `userId` becomes the first truthy of `userId`, `to`; `from` and `to` are deleted; nothing else changes |
| `WildcardIntegration.PathOf` | src/index.ts:121-145 | each action is submitted to `/` followed by the action's own name (`/page`, `/identify`, `/group`, `/track`, `/alias`) |
| `WildcardIntegration.PathOfInjective` | src/index.ts:121-145 | two actions share a path only if they are the same action |
| `WildcardIntegration.Wildcard.constructor` | src/index.ts:12-15 | a new integration holds its options and host and has queued nothing |
| `WildcardIntegration.Wildcard.SelectContext` | src/index.ts:61-62 | `context` becomes the very same object the caller supplied, else the former `options` object, else a fresh empty object; `options` is removed |
| `WildcardIntegration.Wildcard.FillIn` | src/index.ts:63-75 | the context object's new content is `FillContext` of its old content |
| `WildcardIntegration.Wildcard.NormalizeData` | src/index.ts:55-97 | rewrites the message in place so that its new content is `Normalize` of its old content, keeps the caller's context object (or the former `options` object, or a fresh one) by identity, changes only the message and that one context object (a displaced `options` object is unlinked, not changed), and returns the same message |
| `WildcardIntegration.Wildcard.AddToQueue` | src/index.ts:99-119 | the message is always normalised as by `NormalizeData`, with the same context identity and frame; if its serialised length exceeds `maxPayloadSize` nothing is returned and the queue is unchanged; otherwise (a length equal to the limit included) exactly one item `{endpoint + path, Content-Type: text/plain, the message}` is appended and returned |
| `WildcardIntegration.Wildcard.OnAlias` | src/index.ts:137-145 | the message's new content is `Normalize(AliasFields(old content))`, its context object is kept by identity as by `NormalizeData`, and it is queued under `endpoint + '/alias'` exactly when it fits the size limit |
| `WildcardIntegration.Wildcard.On` | src/index.ts:121-135 | page, identify, group and track pass the message to normalisation as it is and queue it under `endpoint + PathOf(action)` when it fits; alias goes through `OnAlias`; every handler keeps the caller's context object by identity and changes only the message and that context |
| `SendData.Decimal` | src/helpers/sendData.ts:26 | the status is written as a non-empty string of decimal digits without a leading zero |
| `SendData.DecimalRoundTrip` | src/helpers/sendData.ts:26 | the decimal spelling of a status reads back as the same number, so the error text names the status received |
| `SendData.Classify` | src/helpers/sendData.ts:24-29 | a finished request is an error exactly for status 429 or a status in [500, 600) (`IsErrorStatus`, the test at line 25), with the text `ErrorMessage(status, statusText)` = `HTTP Error <status> (<statusText>)` of line 26; every other status is a success carrying that status |
| `SendData.SuccessStatuses` | src/helpers/sendData.ts:27-28 | statuses below 429, between 430 and 499, and from 600 up are successes |
| `SendData.OnReadyStateChange` | src/helpers/sendData.ts:22-31 | the callback fires exactly when `readyState` is 4, with the classified outcome; earlier state changes report nothing |
| `SendData.SentHeadersAppend` | src/helpers/sendData.ts:38-42 | the headers set for a concatenation of entries are those set for each part, in order |
| `SendData.SentHeadersExactly` | src/helpers/sendData.ts:38-42 | `SentHeaders`, the filter the loop at lines 38-42 applies, keeps a header `(name, value)` iff the name is non-empty, the value is a non-empty string, and the entry is among the headers |
| `SendData.Request.SetRequestHeader` | src/helpers/sendData.ts:40 | one `setRequestHeader` call appends exactly that header to the request |
| `SendData.SetHeaders` | src/helpers/sendData.ts:38-42 | the loop sets, in order, exactly the headers whose name is non-empty and whose value is truthy, and nothing else |

## Left out

- The persistent retry queue (`@segment/localstorage-retry`): its backoff, `maxAttempts`, `maxItems` eviction, persistence and drain loop are not visible in this repository. The queue is a sequence that `AddToQueue` appends to; `RetryQueueOptions` records the settings without behaviour.
- The queue's worker callback (src/index.ts:30-38), including the re-stamping of `sentAt` before sending. That call passes its completion callback where `sendData` expects `withCredentials`, so it is plumbing with an argument mismatch rather than logic to verify.
- `initialize`, `ready()` and `loaded()`: the host's event subscription and the dynamic `'on' + action` lookup are host wiring. Routing is the explicit `Action` type handled by `Wildcard.On`.
- The XMLHttpRequest transport: `open`, `send`, `withCredentials`, `timeout`, `ontimeout` and `onerror`, and the `send-json` fallback. All of these are I/O.
- Foreign helpers are inputs, not code: the UTM parser (`Host.utm`), `keys(Integrations)` (`Analytics.integrations`), `navigator.userAgent`, `new Date()` (`Host.now`), and `JSON.stringify` (the `size` parameter).
- Debug logging, the build configuration and the type declarations.
- JavaScript values beyond strings: truthiness is modelled for strings that may be missing. A caller-supplied `library`, `campaign` or `_metadata` counts as present exactly when it is an object. Header values are strings or missing. Inherited enumerable properties seen by `for...in` are not modelled.
- `_metadata` is a value: the aliasing of its `failedInitializations` array with the host's array is not modelled, nor are extra properties a caller put into `_metadata`.
- The second callback after a status-0 completion: `onerror` and `ontimeout` (src/helpers/sendData.ts:21, 36) are transport events, so only the `readyState` 4 report is modelled.
