# Crypto dashboard front end — a Dafny model of its data logic

The front end shows cryptocurrency market records and their "profit scores".
Its dashboard page fetches a snapshot of the records once. At the same time
it fetches a short-lived token, opens a WebSocket with it and replaces the
records wholesale on every message. When the socket closes it reconnects after 5
seconds. A checkout button posts the chosen subscription tier with a bearer
credential taken from local storage.

This project models that logic in four modules:

- `JsStrings` (`js_strings.dfy`): the JavaScript semantics the cookie parser
  relies on: `split` with a string separator (leftmost, non-overlapping
  cuts), `startsWith`, and `find` over the rows, represented by the index of
  the row `find` returns. Two helpers state the lemmas: `Contains` says a
  piece holds no separator, and `Join` is the way the browser serialises
  `document.cookie` from its rows. The module proves that `join` undoes `split`, and that `split` undoes `join` when
  the pieces hold no separator and the separator cannot overlap itself.
- `Dashboard` (`dashboard.dfy`): the record type, the anti-forgery cookie
  parser `getCSRFToken`, the streaming address (`wss:`/`ws:` + `//host/ws`)
  and the chart's label and value series.
- `LiveFeed` (`live_feed.dfy`): the fetch / token / socket / reconnect /
  cleanup pipeline. `Step` is a pure transition function over a `ViewState`
  value, one `Event` at a time. `Run` applies a sequence of events in any
  order the environment produces. Class `LiveView` keeps the same state in
  fields and has one method per callback; each method is proved to do
  exactly `Step`. The lemmas about `Step` and `Run` state the pipeline's
  properties.
- `Subscribe` (`subscribe.dfy`): the button label and the checkout request
  with its `Authorization` header.

Several behaviours of the code are not what a reader of the page would
expect. The model follows the code and proves each of them:

- A falsy token (none, `null` or `""`) ends the connection attempt with no
  retry (`if (!token) return;`). A truthy token that the WebSocket
  constructor refuses as a subprotocol (one holding `=`, a space or another
  separator of section 4.1 of RFC 6455) makes `new WebSocket` throw before
  any `onclose` exists, with the same effect. Either way the stream stays
  down for good, where one might expect a failed attempt to be retried
  (`StepToken`, `PaddedTokenStalls`, `StalledStaysStalled`).
- Only the snapshot fetch clears `loading`. A stream message that arrives
  first stores its records, but the page keeps rendering the loading
  skeleton (src/pages/Dashboard.tsx:137) until the snapshot fetch succeeds
  or fails, and for good if it never settles (`StepLoading`).
- The cleanup cancels no timer and no pending token request. `ws.close()`
  makes the socket fire `onclose`, which arms one more reconnect. So after
  the page is gone the pipeline still reconnects and opens new sockets
  (`StepUnmount`, `ReconnectAfterUnmount`).

As one would expect, the reconnect logic never runs two attempts at once: at
most one reconnect timer is ever armed (`ReachableAtMostOneAttempt`).

## Model

| member | source | states |
|---|---|---|
| `JsStrings.StartsWith` | src/pages/Dashboard.tsx:25 | `startsWith`: the text is at least as long as the prefix and begins with it; a definition, used by `FindWithPrefix` and the cookie lemmas |
| `JsStrings.Join` | src/pages/Dashboard.tsx:24 | how the browser serialises `document.cookie`: the rows with `"; "` between consecutive ones; the reference inverse of `split`, related to `Split` by `JoinSplit` and `SplitJoin` |
| `JsStrings.Split` | src/pages/Dashboard.tsx:24 | `split` on a non-empty separator always yields at least one piece |
| `JsStrings.JoinSplit` | src/pages/Dashboard.tsx:24 | joining the pieces of a split with the same separator restores the text |
| `JsStrings.SplitJoin` | src/pages/Dashboard.tsx:24 | splitting a join of separator-free rows on a non-overlapping separator gives back exactly those rows |
| `JsStrings.SplitHead` | src/pages/Dashboard.tsx:26 | the first piece of a split is a prefix of the text, holds no separator, and ends at the text's end or where a separator starts |
| `JsStrings.FindWithPrefix` | src/pages/Dashboard.tsx:25 | returns the index of the first row with the prefix and no earlier row has it; `None` exactly when no row has it |
| `Dashboard.CsrfToken` | src/pages/Dashboard.tsx:22-28 | the model of `getCSRFToken`: split on `"; "`, first row starting with `XSRF-TOKEN=`, field 1 of its `=`-split, `""` for undefined or empty; its contract is stated by `CsrfTokenSpec` and `CsrfTokenOfCookieJar` |
| `Dashboard.CsrfTokenSpec` | src/pages/Dashboard.tsx:22-28 | the token never contains `=`; it is `""` when no row starts with `XSRF-TOKEN=`; otherwise the first such row is `XSRF-TOKEN=` + token followed by the end of the row or by `=` |
| `Dashboard.CsrfRowValue` | src/pages/Dashboard.tsx:26 | a row `XSRF-TOKEN=` + v + tail, with v free of `=` and tail empty or starting with `=`, has at least two `=`-fields and field 1 is v |
| `Dashboard.CsrfEmptyValue` | src/pages/Dashboard.tsx:26 | when the first matching row is exactly `XSRF-TOKEN=`, the token is `""` |
| `Dashboard.CsrfTokenOfCookieJar` | src/pages/Dashboard.tsx:23-26 | for a cookie string joined from `"; "`-free rows whose first match is `XSRF-TOKEN=` + v (+ `=`…), the token is exactly v |
| `Dashboard.CsrfTokenOfCookieJarNoMatch` | src/pages/Dashboard.tsx:22-27 | a cookie string joined from rows none of which starts with `XSRF-TOKEN=` gives `""`, never null |
| `Dashboard.CsrfTokenOfEmptyRow` | src/pages/Dashboard.tsx:25-27 | a joined cookie string whose first match is exactly `XSRF-TOKEN=` gives `""` |
| `Dashboard.CsrfEmptyTokenLikeNone` | src/pages/Dashboard.tsx:25-27 | a cookie string with an empty token row and the same string without it both give `""`: the two cases cannot be told apart |
| `Dashboard.CsrfTokenSkipsLookalikes` | src/pages/Dashboard.tsx:24-26 | rows `xsrf-token=…` and `XSRF-TOKENX=…` never match, a later `XSRF-TOKEN=` row loses to the first, and the value stops at its second `=` |
| `Dashboard.WebSocketUrl` | src/pages/Dashboard.tsx:72-73 | the address is `wss://` + host + `/ws` on an `https:` page and `ws://` + host + `/ws` for any other protocol |
| `Dashboard.WebSocketUrlRoundTrip` | src/pages/Dashboard.tsx:72-73 | reading the address back gives the host unchanged and "secure" exactly when the protocol was `https:` |
| `Dashboard.Symbols` | src/pages/Dashboard.tsx:104 | one label per record, label i being record i's symbol |
| `Dashboard.Scores` | src/pages/Dashboard.tsx:107 | one value per record, value i being record i's score |
| `Dashboard.ChartData` | src/pages/Dashboard.tsx:103-107 | labels and values have the records' length and match them position by position; the series is labelled `Profit Score` |
| `Dashboard.ChartDataSame` | src/pages/Dashboard.tsx:103-107 | two record lists draw the same chart if and only if they agree position by position on symbol and score |
| `LiveFeed.Mount` | src/pages/Dashboard.tsx:31-94 | the state right after mounting; its properties are stated by `MountValid` |
| `LiveFeed.Truthy` | src/pages/Dashboard.tsx:70 | `!token` is false exactly for a present, non-empty string; used by `StepToken` |
| `LiveFeed.ValidSubprotocol` | src/pages/Dashboard.tsx:74 | the subprotocol rule of section 4.1 of RFC 6455 that `new WebSocket(url, token)` enforces: non-empty, printable ASCII, no separator; used by `StepToken` and `PaddedTokenStalls` |
| `LiveFeed.SetRecords` | src/pages/Dashboard.tsx:43 | while mounted the records become the given list, after unmounting they stay; no other field changes |
| `LiveFeed.ClearLoading` | src/pages/Dashboard.tsx:44 | while mounted `loading` becomes false, after unmounting it stays; no other field changes |
| `LiveFeed.Step` | src/pages/Dashboard.tsx:43-99 | what each callback does to the state; its contract is stated by `StepPreservesInv`, `StepReplacesRecords`, `StepLoading`, `StepArmsTimerOnlyOnClose`, `StepHarmlessEvents`, `StepToken` and `StepUnmount` |
| `LiveFeed.MountValid` | src/pages/Dashboard.tsx:31-94 | on mount `loading` is true, there are no records and no socket, and exactly one connection attempt is under way |
| `LiveFeed.StepPreservesInv` | src/pages/Dashboard.tsx:66-100 | every callback keeps the invariant: at most one open socket, armed timer or token request in all, and `loading` set while the fetch is outstanding |
| `LiveFeed.StepReplacesRecords` | src/pages/Dashboard.tsx:43-83 | after a fetch success or a parsed message, while mounted, the records are exactly its list (an empty list empties the view); any other event leaves them unchanged |
| `LiveFeed.StepLoading` | src/pages/Dashboard.tsx:32-48 | `loading` never goes from false to true, and it changes if and only if a fetch outcome (success or failure) arrives while mounted |
| `LiveFeed.StepArmsTimerOnlyOnClose` | src/pages/Dashboard.tsx:89-91 | the timer count grows if and only if the event is a close, and a close adds exactly one |
| `LiveFeed.StepHarmlessEvents` | src/pages/Dashboard.tsx:80-87 | a socket error and a malformed message change nothing; the socket stays live |
| `LiveFeed.StepToken` | src/pages/Dashboard.tsx:69-74 | a live socket opens if and only if the token is truthy and a valid subprotocol; it carries the token and points at the page's host, secure exactly on `https:`; a falsy or refused token leaves no attempt in progress and no timer |
| `LiveFeed.PaddedTokenStalls` | src/pages/Dashboard.tsx:74 | a truthy token holding `=` is refused by the socket constructor: no socket opens and no attempt is left in progress |
| `LiveFeed.StepUnmount` | src/pages/Dashboard.tsx:96-100 | cleanup cancels no timer or token request; it closes only a live socket; the close event then arms one more reconnect although the page is unmounted |
| `LiveFeed.ReconnectAfterUnmount` | src/pages/Dashboard.tsx:89-100 | after cleanup, an armed timer and an accepted token still open a new live socket |
| `LiveFeed.RunPreservesInv` | src/pages/Dashboard.tsx:66-100 | any admissible sequence of events keeps the invariant |
| `LiveFeed.ReachableAtMostOneAttempt` | src/pages/Dashboard.tsx:66-94 | in every state reachable from mounting at most one reconnect timer is armed and at most one attempt is in progress |
| `LiveFeed.LoadingNeverReturns` | src/pages/Dashboard.tsx:32-48 | once `loading` is false, no sequence of events makes it true again |
| `LiveFeed.RunReplacesRecords` | src/pages/Dashboard.tsx:43-83 | while mounted, after any event sequence the records equal the list of the latest arrival from fetch or stream, never a merge |
| `LiveFeed.UnmountedViewFrozen` | src/pages/Dashboard.tsx:96-100 | after cleanup no event changes the records or `loading` (React drops the setter calls) |
| `LiveFeed.StalledStaysStalled` | src/pages/Dashboard.tsx:69-70 | once no attempt is in progress, as after a falsy or refused token, no event sequence opens a socket or arms a timer again |
| `LiveFeed.FetchAtMostOnce` | src/pages/Dashboard.tsx:35-50 | a sequence of events holds at most one fetch outcome: the snapshot is never retried |
| `LiveFeed.LiveView.constructor` | src/pages/Dashboard.tsx:31-34 | the object starts in the mount state and satisfies the invariant |
| `LiveFeed.LiveView.OnFetchSuccess` | src/pages/Dashboard.tsx:43-44 | performs exactly `Step` for a fetch success; while mounted the records become the body and `loading` false |
| `LiveFeed.LiveView.OnFetchError` | src/pages/Dashboard.tsx:45-48 | performs exactly `Step` for a fetch failure; the records are unchanged and, while mounted, `loading` becomes false |
| `LiveFeed.LiveView.OnToken` | src/pages/Dashboard.tsx:69-74 | performs exactly `Step` for a token; no timer is armed, and a live socket results if and only if the token is truthy and a valid subprotocol |
| `LiveFeed.LiveView.OnMessage` | src/pages/Dashboard.tsx:76-83 | performs exactly `Step` for a message; neither `loading` nor the socket changes |
| `LiveFeed.LiveView.OnError` | src/pages/Dashboard.tsx:85-87 | modifies nothing, which is exactly `Step` for a socket error |
| `LiveFeed.LiveView.OnClose` | src/pages/Dashboard.tsx:89-91 | performs exactly `Step` for a close; one more timer is armed and the view is unchanged |
| `LiveFeed.LiveView.OnTimer` | src/pages/Dashboard.tsx:90 | performs exactly `Step` for a timer firing; the timer is used up and a token request starts |
| `LiveFeed.LiveView.Teardown` | src/pages/Dashboard.tsx:96-100 | performs exactly `Step` for cleanup; no timer or token request is cancelled |
| `Subscribe.UpperAscii` | src/components/Subscribe.tsx:32 | a lower-case ASCII letter becomes its upper-case letter; any other character is unchanged |
| `Subscribe.Capitalize` | src/components/Subscribe.tsx:32 | `charAt(0).toUpperCase() + slice(1)`: same length, first character upper-cased, the rest unchanged; `""` stays `""` |
| `Subscribe.ButtonLabel` | src/components/Subscribe.tsx:32 | the label is `Subscribe to ` then the tier: 13 + \|tier\| characters, equal to `Subscribe to ` + tier except at position 13, which holds the tier's first character upper-cased; an empty tier gives exactly `Subscribe to ` |
| `Subscribe.ButtonLabelVerbatim` | src/components/Subscribe.tsx:32 | the label equals `Subscribe to ` + tier if and only if the tier is empty or does not start with a lower-case letter |
| `Subscribe.ButtonLabelPremium` | src/pages/Landing.tsx:42 | the landing page's tier `premium` is labelled `Subscribe to Premium` |
| `Subscribe.TemplateText` | src/components/Subscribe.tsx:19 | `${token}` for what `localStorage.getItem` returned: the string itself, or `null` when nothing is stored; its use is stated by `AuthorizationRoundTrip` and `MissingTokenSentAsNull` |
| `Subscribe.AuthorizationHeader` | src/components/Subscribe.tsx:16-19 | the header starts with `Bearer `, is followed by exactly the token's text (`null` when none is stored), and has that length plus 7 |
| `Subscribe.AuthorizationRoundTrip` | src/components/Subscribe.tsx:19 | a stored token is read back from the header unchanged |
| `Subscribe.MissingTokenSentAsNull` | src/components/Subscribe.tsx:16-19 | with no stored token the header is `Bearer null`, the same as for a token spelled `null` |
| `Subscribe.CheckoutRequestFor` | src/components/Subscribe.tsx:14-20 | a request is built whatever is stored; it goes to the checkout endpoint, carries the tier, and presents the stored token or `null` as its credential |

## Left out

- JSX rendering, animation, chart styling options, page layout, routing, the
  header's menu toggle and the Tailwind configuration: presentation only.
- HTTP requests, the WebSocket API, `document.cookie`, `localStorage` and the
  payment redirect are foreign I/O. Their results enter the model as event
  parameters: a fetch outcome, a token, a message payload, a close. The cookie
  string, the stored token and the page's protocol and host are plain inputs.
- `JSON.parse` is not modelled. A message is either dropped (`None`) or
  yields a record list. `None` covers text that does not parse, and bodies
  such as `null` whose `.data` throws; both are logged and dropped. A body
  with no `data` field, where the code stores `undefined`, and one whose
  `data` is not an array (such as `{"data":5}`), which it stores as it is,
  are not modelled.
- Wall-clock time, including the 5-second reconnect delay: a timer firing is
  an event like any other, so the model says nothing about when things
  happen. The order between the snapshot fetch and the stream is left to the
  environment: every order is allowed.
- The socket constructor's other failure modes (an unparsable URL, a
  duplicated subprotocol) cannot arise from the address and single token the
  code passes. The unhandled promise rejection a refused token causes is
  modelled only by its effect: no socket and no retry.
- The headers sent with the two GET requests are not modelled. The token they
  carry is `CsrfToken` of the cookie string.
- The number fields of a record are kept as opaque values. Their formatting
  (`toFixed`, `toLocaleString`) uses floating point and the locale and is not
  modelled.
- `Subscribe.UpperAscii`: upper-cases only ASCII letters. Unicode
  `toUpperCase` can change a string's length (`ß` becomes `SS`), so the label
  is modelled for ASCII first characters only.
- The payment redirect after the checkout request, and the request's failure
  path (only logged), are not modelled.
- React effects that run twice in development mode are not modelled: the
  model mounts once and cleans up once.
