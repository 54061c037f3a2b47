# IP notifier: a verified model of the background page

The Chrome extension's background page (`background.js`) polls a lookup
service for the machine's public IPv4 address. It keeps two module-level
variables: `currentIP`, and `changeCount`, the number of changes seen.
When the address changes, it shows the count on the toolbar badge and raises
a notification. When the browser reports itself offline, it stores the text
`No internet connection` in `currentIP` and shows a red `!` badge. The popup
asks for the current address (`getIP`) and resets the counter (`clearBadge`)
by message.

This project models that core in Dafny:

- `Text` (text.dfy): the decimal text of a counter or status code
  (`Number.prototype.toString`), with its inverse `DecimalValue`. It also
  has `String.prototype.trim` over the ECMAScript WhiteSpace and
  LineTerminator code points.
- `Errors` (errors.dfy): every error a check can raise, with its message.
  - The three TypeErrors the engine raises use V8's wording.
  - A host error (a rejected `fetch` or an unparsable body) carries a
    message chosen by the host.
- `IpValidator` (validator.dfy): the test applied to the response's `ip`
  member.
  - A falsy value is rejected.
  - A truthy value that is not a string fails at `trim`.
  - A string is trimmed and then tested against `^(\d{1,3}\.){3}\d{1,3}$`.
  - The pattern is decided greedily (`MatchesGroups`). It is proved equal to
    an independent reading: split at the dots, and require four fields of
    one to three ASCII digits.
- `RetryingFetch` (retry.dfy): the `fetchWithRetry` loop as a method with
  loop invariants. It is proved equal to a recursive specification, which
  the lemmas are about.
  - The network is a function giving the outcome of the i-th attempt.
  - A delay is counted, not timed.
- `Monitor` (monitor.dfy): one run of `checkIP` as a pure transition
  `Step` from a state and an observation to a new state and a list of
  effects. `Run` chains ticks.
  - The class `IpMonitor` holds `currentIP` and `changeCount` as fields, and
    the badge and notification calls as a ghost effect log.
  - Its methods `CheckIP`, `OnMessage` and `OnInstalled` update those fields
    in place. `CheckIP` and `OnInstalled` are proved to agree with `Step`.
    `OnMessage` runs `Step` when `getIP` finds no address; otherwise it
    states its new state directly.
  - `currentIP` is a datatype: `Unset` (null), `NoConnection` (the sentinel
    text), or `Ip(addr)`.
  - The class invariant says a stored address always passed the validator.
    Such a string is never empty and never the sentinel text
    (`SentinelIsNotDottedQuad`). So the truthiness test and the comparisons
    at background.js:64, 98 and 136 read the same on the datatype as on the
    string.

Each tick is atomic. When `getIP` finds no address, it replies
`Checking...` and then runs exactly one check; that check is modelled as
running to completion inside the handler.

One might expect the first address seen after a connection loss not to
count as a change. The code compares the new address with the stored value,
which is then the sentinel text, so it does count (background.js:98).
`ReconnectCountsAsChange` states this.

The catch block re-enters the offline state when an error's message equals
the sentinel text. `OnlyHostErrorsSignalNoConnection` proves that only a
host error carrying that exact text has that message. `Settle` therefore
tests for that error directly, and `IpMonitor.Conclude` compares messages
as the code does.

## Model

| member | source | states |
|---|---|---|
| Text.NatToDecimal | background.js:101 | the counter's text is non-empty, all ASCII digits, and has no leading zero unless the number is 0 |
| Text.DecimalRoundTrip | background.js:101 | reading back the decimal text of n gives n, so the badge shows exactly the count |
| Text.DecimalBelowThousand | background.js:93 | a number below 1000 prints with at most three digits, which is what the pattern allows per group |
| Text.TrimStart | background.js:90 | the result is a suffix of the input; only whitespace was removed, and the result starts with non-whitespace |
| Text.TrimEnd | background.js:90 | the result is a prefix of the input; only whitespace was removed, and the result ends with non-whitespace |
| Text.Trim | background.js:90 | the trimmed text has no whitespace at either end |
| Text.TrimIsSlice | background.js:90 | trim returns a slice of the input with only whitespace on either side of it |
| Text.TrimRemovesPadding | background.js:90 | trimming whitespace-padded unpadded text gives back exactly that text |
| Text.TrimIdempotent | background.js:90 | trim leaves unpadded text alone, and trimming twice equals trimming once |
| Errors.OnlyHostErrorsSignalNoConnection | background.js:110 | an error's message is the sentinel text exactly when it is a host error carrying that text; no HTTP, validation or engine error has it |
| Errors.Message | background.js:49 | `error.message` of each error: `HTTP error! status: ` and the status in decimal for a non-2xx response; the host's own text for a host error; the two validation messages of lines 87 and 94; V8's wording for the three engine TypeErrors |
| IpValidator.LeadingDigits | background.js:93 | the length of the longest all-digit prefix, followed by a non-digit or the end |
| IpValidator.Truthy | background.js:86 | JavaScript truthiness of the `ip` member: missing, null, false, 0 and the empty string are falsy; every other value is truthy |
| IpValidator.MatchesGroups | background.js:93 | the anchored pattern `(\d{1,3}\.){k}\d{1,3}`: a run of one to three digits, then either the end (k = 0) or a dot and k more groups |
| IpValidator.IsDottedQuad | background.js:93 | the regex test of line 93: the text is four groups of one to three ASCII digits separated by dots and nothing else |
| IpValidator.MatchesGroupsIffFields | background.js:93 | the greedy reading of `(\d{1,3}\.){k}\d{1,3}` accepts text exactly when its dot-separated fields are k+1 runs of one to three digits |
| IpValidator.DottedQuadIffFourOctetFields | background.js:93 | the pattern holds exactly when the text splits at dots into four fields of one to three ASCII digits |
| IpValidator.MatchIsUnpadded | background.js:93 | text matching the pattern starts and ends with a digit, so it has no whitespace at either end |
| IpValidator.Validate | background.js:86-95 | an accepted value was a string whose trimmed text passes the pattern, and that trimmed text is returned; a falsy field gives the no-address error |
| IpValidator.ValidateOutcomes | background.js:86-95 | accepted exactly when the field is a string whose trim has four digit fields; a truthy non-string fails at trim; a non-empty string whose trim fails the pattern gives the format error |
| IpValidator.ValidateAcceptsTrimmed | background.js:90-95 | a string whose trimmed text passes the pattern is accepted as that trimmed text |
| IpValidator.ValidateAcceptsDottedQuad | background.js:90-95 | text that passes the pattern is accepted unchanged |
| IpValidator.SentinelIsNotDottedQuad | background.js:64 | the sentinel text never passes the pattern, so it cannot be mistaken for an address |
| IpValidator.JoinedOctetsMatch | background.js:93 | four digit groups of one to three digits joined by dots pass the pattern |
| IpValidator.DottedDecimalAccepted | background.js:93 | every dotted-decimal address whose parts are below 1000 passes the pattern and the validator, unchanged |
| IpValidator.AcceptsOutOfRangeOctets | background.js:93 | `999.999.1.1` is accepted: octets are not range-checked |
| IpValidator.AcceptsPaddedAddress | background.js:90-95 | ` 8.8.8.8 ` is accepted as `8.8.8.8` |
| IpValidator.RejectsLetters | background.js:93-94 | `abc` is rejected with the format error |
| IpValidator.RejectsThreeGroups | background.js:93-94 | `1.2.3` is rejected with the format error |
| IpValidator.RejectsFourDigitGroup | background.js:93-94 | `1234.1.1.1` is rejected with the format error |
| IpValidator.RejectsAbsentOrNonStringField | background.js:86-90 | an empty string, a missing member or the number 0 give the no-address error; a non-zero number fails at trim |
| RetryingFetch.FetchWithRetry | background.js:43-57 | the loop's result, attempt count and delay count are those of the recursive specification `Retry` |
| RetryingFetch.IsOk | background.js:48 | `response.ok`: the attempt was answered with a status from 200 to 299 |
| RetryingFetch.AttemptError | background.js:47-49 | the error a failed attempt throws: the HTTP-status error for a non-2xx response, the host's rejection otherwise |
| RetryingFetch.RetryFrom | background.js:44-56 | the loop from attempt i on: no attempt left gives undefined; a 2xx attempt returns its response; a failure at the last allowed attempt rethrows its error; any other failure is followed by one delay and the next attempt |
| RetryingFetch.Retry | background.js:43-57 | the whole call: the loop from attempt 0 |
| RetryingFetch.RetryFromFacts | background.js:44-55 | from attempt i on: the attempts stay within the bound, and there is one delay fewer than attempts; every attempt before the last failed; the result is the last attempt's response if it was 2xx, otherwise its error, rethrown only at the final allowed attempt |
| RetryingFetch.RetryAttemptBounds | background.js:43-57 | at most `retries` attempts and one delay between consecutive attempts; with `retries <= 0` no attempt is made and the result is undefined |
| RetryingFetch.RetryReturnsFirstOk | background.js:47-51 | a response is returned exactly when some allowed attempt gets a 2xx status, and it is the first such response |
| RetryingFetch.RetryAllFail | background.js:52-54 | when every attempt fails: exactly `retries` attempts and `retries - 1` delays, and the last attempt's error is rethrown |
| RetryingFetch.DefaultRetriesAllFail | background.js:4-5 | with the defaults and a failing network: three attempts, 4000 ms of delay in total, and the third attempt's error |
| Monitor.Step | background.js:60-124 | a tick keeps the stored address validated and moves the count by zero or one |
| Monitor.Observe | background.js:63-81 | what a check sees: offline when `navigator.onLine` is false; otherwise the settled result of the retried fetch with the default three attempts |
| Monitor.ReadIp | background.js:83-95 | reading the settled fetch: undefined fails at `.json`, a rethrown error passes through, an unparsable body is the host's error, JSON null fails at `.ip`, and otherwise the `ip` member goes through the validator |
| Monitor.LoseConnection | background.js:64-71 | outside the sentinel state: store the sentinel, keep the count, and show the red `!` badge and the connection notification; in the sentinel state: nothing changes and nothing is shown |
| Monitor.Settle | background.js:97-122 | an error carrying the sentinel message re-enters the offline state; any other error changes nothing; an address different from the stored value (unset and the sentinel included) is stored, counted and announced; the stored address again changes nothing |
| Monitor.Run | background.js:128-131 | a run of ticks keeps the stored address validated and raises the count by at most the number of ticks |
| Monitor.RunSnoc | background.js:131 | a run followed by one more tick is that tick applied to the run's final state, effects appended in order |
| Monitor.RepeatedOfflineActsOnce | background.js:63-73 | any number of offline ticks stores the sentinel, leaves the count alone, and shows the red `!` badge and connection notification once, or never when already offline |
| Monitor.FailuresAreSilent | background.js:108-122 | a failed lookup, body or validation changes nothing and shows nothing, unless its message is the sentinel text, when it acts as an offline tick |
| Monitor.MissingAddressIsSilent | background.js:86-88 | a 2xx body whose `ip` member is missing or falsy changes nothing and shows nothing |
| Monitor.NewAddressCounts | background.js:97-106 | an accepted address different from the stored value is stored, and the count rises by exactly one; the badge shows `changeCount.toString()` of the new count (ASCII digits, no leading zero, value count+1) in `#FF4444`, and one notification names the address |
| Monitor.SameAddressIsQuiet | background.js:98 | the stored address seen again changes nothing and shows nothing |
| Monitor.ResponseReports | background.js:83-95 | a 2xx response whose `ip` member trims to a dotted quad reports the trimmed address |
| Monitor.ReportedStep | background.js:97-106 | a tick reporting an address stores it; it counts and announces it exactly when it differs from the stored value |
| Monitor.ReconnectCountsAsChange | background.js:98 | going offline and coming back with the same address counts as one more change, shown after the connection-loss effects |
| Monitor.ChangePositionsOfSnoc | background.js:98-99 | appending an address adds one change position exactly when it differs from the previous one or is the first |
| Monitor.ReportedRunNext | background.js:97-100 | after a run whose last tick reports an address, that address is stored, and the count rose exactly when it differed from the value stored before |
| Monitor.CountsAddressChanges | background.js:98-99 | from start-up, over successful lookups only, the count is the number of positions whose address differs from the previous one (the first counting as one), and the last address is stored |
| Monitor.IpMonitor.constructor | background.js:8-9 | the address starts unset, the count at zero and the effect log empty |
| Monitor.IpMonitor.UpdateBadge | background.js:32-40 | one badge call with that text and color is logged, and nothing else changes |
| Monitor.IpMonitor.ShowNotification | background.js:17-29 | one notification call with that title and message is logged, and nothing else changes |
| Monitor.IpMonitor.ReportConnectionLoss | background.js:64-71 | the fields and the log become those of the offline transition |
| Monitor.IpMonitor.CheckIP | background.js:60-124 | the fields and the log after a check are those `Step` gives for the observation the browser and network make |
| Monitor.IpMonitor.Conclude | background.js:97-122 | once the lookup has settled, the fields and the log are those `Settle` gives |
| Monitor.IpMonitor.OnMessage | background.js:134-149 | getIP replies with the stored value when it is set, including the sentinel, and changes nothing; otherwise it replies `Checking...` and runs one check. clearBadge zeroes the count and logs an empty badge; any other message changes nothing and does not keep the channel open |
| Monitor.IpMonitor.OnInstalled | background.js:159-162 | installation logs an empty badge in the default color, then runs one check |

## Left out

- popup.js: the popup only writes to the page and sends the two messages modelled here; it is not part of this model.
- Host APIs are not modelled. This covers the keep-alive timer (background.js:12-14), the onSuspend cleanup (background.js:152-156), and the actual rendering of badges and notifications. The model records each call in the effect log, so a call that the host rejects still appears there.
- Timers are not modelled. The one-second interval and the delayed first check (background.js:128, 131) are represented only by `Run` over a sequence of ticks. The retry delay (background.js:54) is a counter.
- Monitor.IpMonitor.CheckIP: overlapping checks are not modelled. Each check runs to completion before the next starts. The check that `getIP` starts runs inside the handler rather than concurrently with later messages.
- `fetch` and `response.json()` are inputs, not modelled code. Each attempt is given as a status and a parsed body, or a rejection with the host's message. The URL, headers and cache options of the request are not modelled.
- JSON numbers are real values; only whether they are zero matters (truthiness). `NaN` is not modelled.
- Monitor.IpMonitor.OnMessage: `getIP` reads the request's `type` only. The message sender and other request members are not modelled.
- Logging (`console.log`, `console.error`) is not modelled.
- `changeCount` is a JavaScript number but is modelled as an unbounded `nat`. Two number behaviours are therefore not modelled: `++` stops being exact past 2^53, and `toString` switches to exponent form from 1e21. Neither count is reachable at one check per second.
