# flex-alarm-app: network status and service-worker decisions

A model of the two pieces of logic in the flex-alarm-app progressive web app:

- **The network-status handler of the app component** (`src/App.tsx`). On
  every connectivity event the app looks up its public IP address and compares
  it with one hard-coded office address. It keeps a displayed status, `isOnline`,
  which starts offline. It sends a "connected" notification (a reminder to clock
  in) or a "disconnected" one (a reminder to clock out). A failed lookup always
  sets the status offline and always notifies. A successful lookup notifies only
  when the status flips. `sendNotification` shows a notification only when
  permission is granted and a service worker is present.
- **The service worker's decisions** (`src/service-worker.ts`). These are: the
  app-shell navigation route with its file-extension regular expression, the
  same-origin `.png` image route, the `SKIP_WAITING` message filter, the defaults
  a push notification gets, and which window a notification click focuses or
  opens.

Modules:

- `Connectivity` (connectivity.dfy) models the handler. `Transition` is one
  event as a function. `Run` is a sequence of events. `NetworkMonitor` is the
  component's state as a class. Its `Step` method updates `isOnline` and the log
  of sent and shown notices. `Step` is specified by `Transition`.
  `NetworkMonitor.Valid` is the class invariant: the status is online exactly
  when the last notice sent was "connected", and two "connected" notices never
  follow each other.
- `Routing` (routing.dfy) holds the route predicates. The regular expression
  `/[^/?]+\.[^/]+$` is stated declaratively (`FileExtensionMatch`). It is then
  decided on the last path segment (`HasFileExtension`), and the two are proved
  equivalent.
- `WorkerEvents` (worker_events.dfy) holds the message, push and
  notification-click handlers.
- `JsValues` (js_values.dfy) holds the JavaScript values these handlers read,
  with truthiness, `||` and property reads. `Wrappers` (wrappers.dfy) holds
  `Option` and `Result`.

The system's design description goes further than the code. It describes an
`Unknown` initial status, notification gating keyed on the raw observed IP,
a stored reference identity the user can replace, a polling loop, and a
recovery step that re-registers the worker. It also asks that every run of a
constant probe result, failures included, notify at most once. The code has
none of this: the reference address is a constant, the status starts offline,
and failed lookups are never deduplicated. The model follows the code
(`RepeatedFailuresNotifyEachTime`, `SameAddressNotifiesAtMostOnce`).

## Model

| member | source | states |
|---|---|---|
| `Connectivity.Transition` | src/App.tsx:21-53 | the new status is online exactly when the lookup returned the reference address; a notice is sent exactly when the lookup failed (no or empty address) or the status flipped, and it announces the new status |
| `Connectivity.TransitionPreservesAgreement` | src/App.tsx:25-51 | one event keeps the status in agreement with the notice history (online iff the last notice is "connected", never two "connected" in a row) |
| `Connectivity.RunPreservesAgreement` | src/App.tsx:21-58 | any sequence of events keeps that agreement |
| `Connectivity.RunFinalStatus` | src/App.tsx:25-51 | after any non-empty sequence of events the status is online exactly when the last lookup returned the reference address |
| `Connectivity.RepeatedFailuresNotifyEachTime` | src/App.tsx:25-31 | a run of failed lookups sends one "disconnected" notice per lookup and leaves the status offline, whatever the status before |
| `Connectivity.SameAddressNotifiesAtMostOnce` | src/App.tsx:35-51 | a run of one and the same successful address sends at most one notice, and none when the status already matched it |
| `Connectivity.SecondIdenticalLookupIsSilent` | src/App.tsx:35-51 | the same successful lookup twice in a row: the second changes nothing and sends nothing |
| `Connectivity.FirstLookupFromStart` | src/App.tsx:35-50 | from the initial offline status the first matching lookup goes online with one "connected" notice; a first mismatching one changes nothing |
| `Connectivity.HomeAwayHome` | src/App.tsx:21-53 | reference address, another address, reference address: online at the end, with "connected", "disconnected", "connected" sent in that order |
| `Connectivity.NetworkMonitor.constructor` | src/App.tsx:5 | the component starts offline with nothing sent |
| `Connectivity.NetworkMonitor.SendNotification` | src/App.tsx:115-123 | a notice is always requested, and shown only with permission granted and a service worker present; otherwise it is dropped without error |
| `Connectivity.NetworkMonitor.Step` | src/App.tsx:21-53 | the handler's step keeps the class invariant, sets the status and appends the notices as `Transition` says, and shows them only when the gate allows; with permission denied the status still advances |
| `Routing.HasFileExtensionIsRegexMatch` | src/service-worker.ts:18 | the last-segment test agrees with an unanchored match of `/[^/?]+\.[^/]+$` |
| `Routing.NavigationRoute` | src/service-worker.ts:19-24 | a request gets the app shell exactly when its mode is `navigate`, its path does not start with `/_`, and the regular expression finds no file name in it |
| `Routing.TrailingSlashIsNoFileName` | src/service-worker.ts:18 | a path ending in `/` never matches the file-extension expression |
| `Routing.DotAfterQueryIsNoFileName` | src/service-worker.ts:18 | a `.` that appears in the last segment only after a `?` does not make a match, whatever dots earlier segments hold |
| `Routing.PlainRouteIsServedShell` | src/service-worker.ts:19-24 | `/about` gets the shell exactly when the request mode is `navigate` |
| `Routing.FileNameIsNotServedShell` | src/service-worker.ts:18-24 | `/static/logo.svg` and `/_next/page` do not get the shell |
| `Routing.DotsOutsideFileNamesAreServedShell` | src/service-worker.ts:18-24 | `/search?q=a.b`, `/v1.2/` and `/v1.2/s?q=a.b` get the shell |
| `Routing.ImageRoute` | src/service-worker.ts:28-29 | a request goes to the image cache exactly when its origin is the worker's and its path ends in `.png` |
| `Routing.ImageRouteTakesEveryPng` | src/service-worker.ts:28-29 | every same-origin path of the form name + `.png` goes to the image cache |
| `WorkerEvents.ShouldSkipWaiting` | src/service-worker.ts:37-41 | the worker skips waiting exactly when the message data is an object whose `type` is the string `SKIP_WAITING` |
| `WorkerEvents.Payload` | src/service-worker.ts:55 | the payload object is never `null` or `undefined`; it is the parsed data when that is truthy, and `{}` when the push has no data or the parsed value is falsy |
| `WorkerEvents.OnPush` | src/service-worker.ts:54-67 | a push shows a notification unless its data is not JSON; title, body and url are the payload's truthy values, otherwise `알림`, `새로운 알림이 도착했습니다.` and `/`, so all three are truthy; icon, badge and vibration are fixed |
| `WorkerEvents.EmptyPushShowsDefaults` | src/service-worker.ts:55-66 | a push without data shows the default title, body and url |
| `WorkerEvents.FirstFocusable` | src/service-worker.ts:78-82 | finds the first client in list order that can be focused, or reports that none can |
| `WorkerEvents.OnNotificationClickAsWritten` | src/service-worker.ts:78-85 | the handler as written throws exactly when no client can be focused, `openWindow` exists and the notification has no data |
| `WorkerEvents.ClickOnPageNotificationThrows` | src/service-worker.ts:83-85 | clicking a notification without data, with no window open, throws |
| `WorkerEvents.OnNotificationClick` | src/service-worker.ts:78-85 | a click focuses the first focusable client if there is one; otherwise, only if `openWindow` exists, it opens the notification's `data.url` (`undefined` when the data has no `url`), or `/` when there is no data |
| `WorkerEvents.ClickCorrectionKeepsBehaviour` | src/service-worker.ts:78-85 | the corrected handler does what the original does wherever the original does not throw |
| `WorkerEvents.ClickOpensPushedUrl` | src/service-worker.ts:62 | with no focusable window, clicking a push notification opens the url the push handler stored |

## Findings

| source | as written | input that shows it | evidently intended | confidence | as-written member | corrected member |
|---|---|---|---|---|---|---|
| src/service-worker.ts:84 | opens `event.notification.data.url` | a click on a notification shown by the page (src/App.tsx:118 passes no `data`, so `data` is `null`), with no window client and `openWindow` available | open the app instead of throwing a TypeError | medium, not executed | `WorkerEvents.OnNotificationClickAsWritten` | `WorkerEvents.OnNotificationClick` |

## Left out

- The IP lookup (`fetchCurrentIP`: the `fetch` and JSON decoding) is network I/O. Its result is an input, `Option<string>`. A non-string `ip` field (a number, say) is not modelled.
- React plumbing is left out. This covers `useState`, the effect and its `online`/`offline` listeners, and the effect re-running (with one more lookup) whenever `isOnline` changes. It also covers handlers closing over a stale `isOnline` and overlapping asynchronous handlers. Each event is one sequential `Step`.
- `sendNotification` waits for `navigator.serviceWorker.ready` before showing. The model appends to the shown log at once.
- The install prompt, the permission-request button and the rendering are user interface.
- Workbox is a foreign library and is left out: `clientsClaim`, precaching, the `index.html` handler, the stale-while-revalidate strategy and the 50-entry expiration. The install and activate handlers are left out too (logging and an unconditional `skipWaiting`).
- The effects of `showNotification`, `focus`, `openWindow`, `notification.close` and `skipWaiting` are platform side effects. Only the decisions that select them are modelled.
- URL parsing is left out: origins and pathnames are given as strings.
- `JsValues.Get` models only properties that no built-in prototype has. Numbers are reals, so `-0` and floating-point rounding are not modelled.
