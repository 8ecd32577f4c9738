# uptimey dashboard core, modelled in Dafny

uptimey is a browser dashboard. It polls a small status API and writes the values it gets into an HTML template. Success and failure are reported with toasts and notes. This project models the parts of it that carry logic:

- **Uptime and snapshot** (`BasicModel`, from `src/models/basic.model.ts`). `getUptime` splits the elapsed seconds into days, hours and minutes with floors. `gatherData` assembles the snapshot record. The expressions are evaluated on exact reals as written. They are proved equal to the integer reference `s / 86400`, `s / 3600 % 24` and `s / 60 % 60`, with Euclidean (floor) division. This holds for negative elapsed time too.
- **Binder** (`Binder`, the pure specification of `bindData`). The recursive walk over a JSON value tree is proved equal to writing its leaves in order, each under its own key. From that follow idempotence, last-write-wins, exact marker sets and a frame property.
- **Countdown** (`Countdown`, the arithmetic of `requestTimer`). It shows 59 … 00 and stops on exactly the 60th tick.
- **API helper** (`Api.ApiProvider`, from `src/providers/api.ts`). This is a class over an abstract page: element texts, single-span texts, refresh markers, the loading flag, the request log, pending requests, live intervals, an ordered effect log, countdown counters and the timer display. `BindData` walks the value with a loop and a recursive method, and is proved against `Binder.Bound`.
- **Index controller** (`IndexController`, from `app/controllers/index.js`). It covers the title string, the two option records, the callbacks' reactions and `init`.

`Json` holds the value tree and the JavaScript semantics the code relies on: property reads that throw on `null`/`undefined`, and template-literal rendering. `Json.Parsed` says what `JSON.parse` produces, with each key at most once per object. The handlers that receive a response require it. `Arith` holds floor and division facts.

Three behaviours of the code that a reader might not expect, which the model follows:

- With `updates` the code makes no immediate request. The only requests come from the 60 000 ms interval (`Api.ApiProvider.Get`, `Api.Schedule`).
- The countdown starts at `updateTimeout * 1000` = 60 000 000 ms, not 60 000 ms, because `updateTimeout` is already in milliseconds. Only the seconds-of-minute field is shown, so the digits are the same either way (`Countdown.UnitSlipInvisible`).
- Days are not clamped. Negative elapsed time gives negative days (`BasicModel.SplitUptime`).

## Model

| member | source | states |
|---|---|---|
| BasicModel.SplitUptime | src/models/basic.model.ts:38-43 | days*1440 + hours*60 + minutes = floor(s/60); days = floor(s/86400), negative for negative s; hours = floor(s/3600) mod 24 and minutes = floor(s/60) mod 60, so 0 <= hours < 24 and 0 <= minutes < 60 for every integer s |
| BasicModel.GetUptime | src/models/basic.model.ts:37-50 | each field is `pad` of floor(s/86400), floor(s/3600) mod 24, floor(s/60) mod 60 respectively |
| BasicModel.GatherData | src/models/basic.model.ts:18-31 | with `data` optional as documented: uptime equals `GetUptime` of the reading, dates and time are the clock's, `location` is `data.location` unchanged (absent when undefined or when `data` is omitted); it throws exactly when `data` is `null` |
| BasicModel.GatherDataAsWritten | src/models/basic.model.ts:23-31 | as the code is written: it throws exactly when `data` is omitted or `null`; given an argument it agrees with `GatherData` |
| BasicModel.OmittedDataThrows | src/models/basic.model.ts:18-29 | with no argument, the code as written throws, while the documented behaviour serves the record without a location |
| BasicModel.GatheredKeys | src/models/basic.model.ts:23-31 | for an object or omitted `data`, the served record has exactly the keys uptime, currentDate, activeDate, time, then location when `data.location` is defined |
| Binder.WriteLeaf | src/providers/api.ts:89-101 | a key whose normalised id has no element changes nothing; otherwise the element gains a marker iff `updates`, and only its span text (exactly one span) or only its own text (any other count) can change |
| Binder.BoundValue | src/providers/api.ts:87-106 | walking a value never removes a marker, adds none without `updates`, and leaves the page alone for `null` |
| Binder.Bound | src/providers/api.ts:85-109 | binding never removes a marker, adds none without `updates`, and leaves the page alone when the response is not an object |
| Binder.BoundValueIsWriteAll | src/providers/api.ts:87-106 | the recursive `updateValues` equals writing its leaves in traversal order, each under its own key, skipping `null`; this holds for every tree, in particular for the parsed ones (`Json.Parsed`) the code receives |
| Binder.BoundIsWriteAll | src/providers/api.ts:85-109 | `bindData` equals writing the response's leaves in order, for every tree the model walks key by key; an object with a numeric `length` is the exception (see "## Left out") |
| Json.ParsedEntryIsRead | src/providers/api.ts:104-108 | in a parsed object, each entry the walk visits holds exactly what a property read of its key returns |
| Binder.LastWriteWins | src/providers/api.ts:87-108 | a leaf's text is what its element shows when no later leaf normalises to the same id: in the one span if the element has exactly one, in the element's own text otherwise |
| Binder.WriteAllKinds | src/providers/api.ts:93-97 | an own-text change only happens on an element whose span count is not 1, a span-text change only on one with exactly one span |
| Binder.WriteAllFrame | src/providers/api.ts:91-101 | an element no leaf key normalises to keeps its text, span text and marker |
| Binder.WriteAllMarks | src/providers/api.ts:99-101 | markers after binding = markers before, plus the written existing elements iff `updates`; none removed, unchanged when `updates` is false |
| Binder.BindTwice | src/providers/api.ts:85-109 | binding the same data with the same flag twice leaves the same texts and markers as once |
| Countdown.Tick | src/providers/api.ts:144-154 | one tick takes 1000 ms off, shows two digits from 00 to 59, and stops the counter exactly when it shows "00" |
| Countdown.After | src/providers/api.ts:141-156 | after k firings a running counter holds start - 1000k, and a stopped one holds no less than that and never more than the start |
| Countdown.CountsDown | src/providers/api.ts:139-156 | after tick k (1..60) the counter holds start - 1000k, shows 60-k as two digits (59 … 00) and runs iff k < 60 |
| Countdown.StopsOnSixtieth | src/providers/api.ts:146-154 | the display reads "00" on tick 60 and on no earlier tick |
| Countdown.UnitSlipInvisible | src/providers/api.ts:141-146 | every tick shows the digits the intended 60 000 ms start would show |
| Countdown.StaysStopped | src/providers/api.ts:151-154 | once stopped on tick 60 the counter never changes again |
| Api.BuildUrl | src/providers/api.ts:132-134 | "/api" when the route is absent or empty, otherwise "/api/" followed by the route verbatim |
| Api.UrlRoundTrip | src/providers/api.ts:132-134 | the route is recovered from the URL unchanged (no escaping or normalisation); absent and empty routes give the bare API |
| Api.UrlInjective | src/providers/api.ts:132-134 | distinct non-empty routes are requested at distinct URLs |
| Api.Schedule | src/providers/api.ts:13-39 | without `updates` one request at time 0 and never more; with `updates` none at time 0 and exactly one more at each multiple of 60 000 ms, none in between |
| Api.SuccessEffects | src/providers/api.ts:52-67 | bind first; then, iff `updates`, notes cleared and the success toast; then loading removed; then, iff a callback is given, the callback with the raw data, last |
| Api.ErrorNeverCallsBack | src/providers/api.ts:68-75 | the error path starts the timer, runs the notes pass and toasts the error; it never calls back, clears notes or removes loading |
| Api.ApiProvider.constructor | src/providers/api.ts:13-15 | `updateTimeout` is 60 000 ms; nothing requested, registered or logged yet |
| Api.ApiProvider.Get | src/providers/api.ts:27-39 | with `updates` only an interval is registered and nothing is requested; otherwise exactly one request to `BuildUrl(route)` |
| Api.ApiProvider.Ajax | src/providers/api.ts:45-51 | one request to `BuildUrl(route)`, pending until answered |
| Api.ApiProvider.FireInterval | src/providers/api.ts:31-33 | each firing of a live interval issues one request with its options |
| Api.ApiProvider.Success | src/providers/api.ts:52-67 | for a parsed response without a numeric `length` the page becomes `Bound(old page, data, updates)`, markers only grow and are unchanged without `updates`, loading is off, the effect log grows by `SuccessEffects`, the request leaves the pending list |
| Api.ApiProvider.Failure | src/providers/api.ts:68-75 | a fresh counter is appended (earlier ones keep running), the log grows by the error effects, texts and markers untouched |
| Api.ApiProvider.RequestTimer | src/providers/api.ts:139-142 | appends a running counter at `updateTimeout * 1000` ms without touching earlier counters |
| Api.ApiProvider.FireCounter | src/providers/api.ts:142-156 | the counter ticks; the display shows its digits, the wrapper is hidden exactly when they read "00", which is exactly when the counter stops |
| Api.ApiProvider.BindData | src/providers/api.ts:85-109 | for a parsed response without a numeric `length` the page becomes `Bound(old page, data, updates)`; markers gained are exactly the written elements when `updates` |
| Api.ApiProvider.ForEach | src/providers/api.ts:104-108 | looping over the entries of a parsed object, each key once, equals `BoundEntries` of all of them |
| Api.ApiProvider.UpdateValues | src/providers/api.ts:87-106 | one leaf written or one object walked, equal to `BoundValue` |
| Json.LookupLastWins | app/controllers/index.js:20-22 | a property read on a parsed object finds a key iff some entry has it, and then yields the value of the last such entry |
| IndexController.Title | app/controllers/index.js:20-24 | the callback throws exactly when `data`, or its `uptime`, is null or undefined |
| IndexController.TitleOfUptime | app/controllers/index.js:20-24 | for any uptime object, the title is "uptimey - " then the rendering of its days, hours and minutes fields (text, "undefined" when missing, "null", "[object Object]") with " days ", " hours ", " minutes" |
| IndexController.TitleOfFields | app/controllers/index.js:20-24 | with text fields d, h, m the title is exactly "uptimey - d days h hours m minutes" (uptime 01/02/03 gives "uptimey - 01 days 02 hours 03 minutes") |
| IndexController.TitleOfSnapshot | app/controllers/index.js:20-24 | a served `gatherData` record yields the title from the padded days, hours and minutes of the elapsed time |
| IndexController.React | app/controllers/index.js:19-36 | only the copy callback registers an action, always `copy` on `.list-value` |
| IndexController.CopyOnlyFromAdvanced | app/controllers/index.js:28-36 | the advanced request's callback registers the copy action whatever the data; the basic one never does |
| IndexController.Init | app/controllers/index.js:13-39 | off the index layout nothing is requested or registered; on it, route basic gets an interval (updates true) and route advanced exactly one request (updates false) |

## Left out

- `getLocation` is network I/O through promises. The location reaches `GatherData` only as the caller's `data.location`.
- `getCurrentDate`, `getActiveDate` and `getTime` read the clock and format with moment. They enter as opaque strings in `BasicModel.ClockReading`. The elapsed time enters as whole seconds.
- `osUptime`: the model assumes the imported binding is a date moment accepts, which `moment().diff(osUptime, 'seconds')` and `moment(osUptime)` require (src/models/basic.model.ts:38,63). The `os-uptime` package is not part of this model. If the binding were the package's function, moment would see an invalid date and the elapsed time would be NaN; if it were undefined, the elapsed time would be about 0.
- Floating-point rounding in `getUptime` is not modelled; the exact-real evaluation is.
- `utils.pad`, `utils.normalizeString` and `utils.isCurrentLayout` have no visible source. They are parameters: `pad`, `Page.normalize` and `isIndex`.
- BasicModel.GetUptime: the model assumes the `BasicModel` object was built with a utils provider. The constructor argument is optional (src/models/basic.model.ts:16), yet `this.utils.pad` is called unguarded. Without a provider, `getUptime`, and `gatherData` through it, throw a TypeError, which the total `pad` parameter cannot express.
- The toasts and notes providers are not modelled; their calls appear as entries in the ordered effect log.
- `actions.register` is not modelled; it appears as the `Register` reaction.
- `bindDataNotes` inherits the `ApiProvider` instance as `this` inside its arrow function. Its outcome depends on jQuery internals, so it is the single opaque `NotesPass` effect.
- Real timers are not modelled; `setInterval` and `clearInterval` become the `FireInterval` and `FireCounter` events. The two timer periods interleave freely.
- Api.Schedule: the class holds no clock, so the 60 000 ms period of each `FireInterval` is `setInterval`'s promise, assumed rather than derived; `Api.RequestsBy` states that rule and the lemma proves only its arithmetic, with no link to `Get` or `FireInterval`.
- The document title write is not page state; it is the `SetTitle` reaction.
- Binder.Bound: a top-level response that is not an object binds nothing. lodash would instead iterate a top-level string's characters under index keys. The API serves objects.
- Binder.BoundValueIsWriteAll: lodash's `_.forEach` treats an object whose `length` property is a non-negative integer number as array-like. It visits `obj[0]` … `obj[length-1]` under the keys 0 … length-1 and none of the object's own keys. The model always walks the own keys. Leaves carry no number/string distinction, so the model cannot tell a numeric `length`. For `{"length": 0, "a": "x"}` the code writes nothing while the model writes and marks `#a`. For `{"length": 2, "a": "x"}` the code writes nothing but marks the elements of keys 0 and 1, because `.text(undefined)` only reads.
- Binder.BoundIsWriteAll: the same array-like `length` case, at the top level.
- Api.ApiProvider.ForEach: the loop walks own keys; on an object with a numeric `length` the code walks indices instead.
- Api.ApiProvider.UpdateValues: its object branch is `ForEach`, with the same array-like `length` case.
- Api.ApiProvider.BindData: the page equals `Binder.Bound` only for responses in which no object has a numeric `length`.
- Api.ApiProvider.Success: its page clause inherits the array-like `length` case from `BindData`.
- JSON arrays are objects keyed by index. As a result, `${array}` is rendered "[object Object]" rather than a comma-joined list.
- Binder.WriteLeaf: the span count of each element is fixed by the template. jQuery's `.text()` on an element with several spans removes them. The count then stays different from 1, so the branch taken never changes. The template's target elements are assumed not to contain one another. If they did, an own-text write would delete a nested target, and `find('span')` would count a nested target's span as well.
- Binder.BoundIsWriteAll: the entries of an object are walked in the order they appear. `JSON.parse` puts integer-like keys first in ascending order. With distinct keys the order matters only when two leaves land on the same element.
- Binder.BoundValueIsWriteAll: same entry order as `Binder.BoundIsWriteAll`. The lemmas hold for every tree, but the code only ever receives parsed ones.
- The module `app/helpers/api` that `app/controllers/index.js` imports is not part of this model. `IndexController.Init` assumes it behaves like `src/providers/api.ts` (`Api.ApiProvider`).
- Countdown.SecondsField: the seconds field is computed in UTC. Time zones with offsets that are not whole minutes are not modelled.

## Findings

| source | as written | input that shows it | evidently intended | confidence | as-written member | corrected member |
|---|---|---|---|---|---|---|
| src/models/basic.model.ts:18-29 | the comment says the data parameter is optional, but the TypeScript signature `data: any` declares it required and `data.location` is read unconditionally; the omission is reachable only from untyped callers | `gatherData()` with no argument: reading `location` of `undefined` throws a TypeError (`BasicModel.OmittedDataThrows`) | an omitted argument gives the record without a location | medium, not executed | BasicModel.GatherDataAsWritten | BasicModel.GatherData |
