# Bitcoin on-chain dashboard — a Dafny model

This project models the core of a small Bitcoin dashboard written in
TypeScript and React. The core has four parts:

- The data service assembles one snapshot from three public feeds: the spot
  price, the Fear & Greed index and the hash rate. It adds four randomly
  generated indicators. Fear & Greed charts one point per feed entry; the
  other five metrics get a generated 30-point chart history each.
- The analysis service turns the snapshot into a prompt summary. It then
  cleans and checks the language model's JSON reply.
- The advisor panel classifies the reply as BUY, SELL or HOLD, falling back to
  ERROR.
- The application shell sequences the two calls, keeps five pieces of state
  and picks the screen to show.

Modules, one per source file plus two shared ones:

| module | file | models |
|---|---|---|
| `Outcomes` | `outcomes.dfy` | `Option` (null or undefined) and `Result` (returned value or thrown error) |
| `JsBuiltins` | `js_builtins.dfy` | the JavaScript built-ins the core relies on: `trim`, `startsWith`, `slice`, `toUpperCase` (ASCII), `parseInt(_, 10)`, `${n}` for naturals, `join`, `reverse` (as a function and as an in-place array method). Each carries a contract or a lemma about it; `split` is defined only to state what `join` produces |
| `Types` | `types.dfy` | `types.ts` |
| `DataService` | `data_service.dfy` | `services/dataService.ts` |
| `GeminiService` | `gemini_service.dfy` | `services/geminiService.ts`, with the model call's outcome as an input |
| `AIAdvisor` | `ai_advisor.dfy` | `components/AIAdvisor.tsx` |
| `App` | `app.dfy` | `App.tsx`, and the refresh button of `components/Dashboard.tsx` |

Inputs the model does not compute:

- Every `Math.random()` draw is an input, together with a predicate saying it
  lies in `[0, 1)`.
- Each HTTP response is an input: an `ok` flag and the decoded body, if there
  is one.
- The model call's outcome and `JSON.parse` are inputs.
- `Number.prototype.toFixed(2)` is a function parameter.

`generateHistoricalData` is imperative in the source, and the model keeps that
form. It is a method that fills an array in a loop and then reverses it in
place. Its contract ties the result to a pure specification function, and the
properties are proved about that function. Likewise, the application component
is a class with the five state fields. Its `LoadData` method performs the
setters in the source's order, and it is proved to reach the state that the
pure `LoadTransition` function describes.

Facts about the code that a reader might expect to be otherwise:

- The code computes no rolling averages and derives no ratios. MVRV, Mayer,
  Puell and long-term-holder supply are random values in fixed ranges.
- The hash rate is divided by 10^9 (GH/s to EH/s).
- Every feed failure gives the one fixed message; the failing source is not
  named.
- The recommendation is stored as a free string. It is classified only when
  the panel is shown.

## Model

| member | source | states |
|---|---|---|
| `JsBuiltins.LeadingWhitespace` | services/dataService.ts:50 | the count of leading whitespace characters that `parseInt` skips: all of them are whitespace, and the next character is not |
| `JsBuiltins.TrailingWhitespace` | services/geminiService.ts:37 | the count of trailing whitespace characters that `trim` removes: all of them are whitespace, and the one before them is not |
| `JsBuiltins.Trim` | services/geminiService.ts:37 | the result has no whitespace at either end; it is a slice of the input that starts after the leading whitespace, and everything after it is whitespace; an already-trimmed string is returned unchanged |
| `JsBuiltins.RelativeIndex` | services/geminiService.ts:42 | how `slice` resolves an index: an index in `[0, len]` is kept, a negative one counts from the end, and the result is clamped to `len` above and to `0` below |
| `JsBuiltins.Slice` | services/geminiService.ts:42-44 | `slice(start, end)` is never longer than the string; in range it is `s[start..end]`, a negative end counts from the end, and a start at or past the resolved end gives the empty string |
| `JsBuiltins.ToUpper` | components/AIAdvisor.tsx:27 | the result has the same length as the input, and each character is upper-cased in place |
| `JsBuiltins.ToUpperIdempotent` | components/AIAdvisor.tsx:27 | upper-casing twice is the same as upper-casing once |
| `JsBuiltins.TrimIdempotent` | services/geminiService.ts:37 | trimming twice is the same as trimming once |
| `JsBuiltins.DecimalString` | services/dataService.ts:18 | `${n}` for `n < 10^21` (the labels use `n <= 30`) is a non-empty string of decimal digits, with no leading zero unless `n` is 0 |
| `JsBuiltins.DigitPrefix` | services/dataService.ts:50 | `parseInt` reads the longest run of leading digits: a prefix made only of digits, followed by a non-digit or the end of the string |
| `JsBuiltins.DigitsValueOfDecimal` | services/dataService.ts:18 | the digits of `${n}` have the value `n` |
| `JsBuiltins.DigitPrefixOfDigits` | services/dataService.ts:50 | a string made only of digits is read to its end |
| `JsBuiltins.ParseIntOfDecimal` | services/dataService.ts:48-51 | `parseInt(`${n}`, 10) == n`: rendering a natural number and parsing it back round-trips |
| `JsBuiltins.ParseIntWithoutDigits` | services/dataService.ts:50 | a string without digits parses to NaN |
| `JsBuiltins.ParseIntReadsLeadingDigits` | services/dataService.ts:50 | `parseInt` (modelled by `JsBuiltins.ParseInt`) skips leading whitespace, reads the digit run, and ignores whatever follows it |
| `JsBuiltins.TrimStartAfterWhitespace` | services/dataService.ts:50 | the whitespace `parseInt` skips is exactly the leading whitespace run |
| `JsBuiltins.DigitPrefixStops` | services/dataService.ts:50 | `parseInt` stops reading exactly where the digit run ends |
| `JsBuiltins.Join` | services/geminiService.ts:13 | `join` of no parts is the empty string, and the joined string starts with the first part |
| `JsBuiltins.SplitJoin` | services/geminiService.ts:13 | splitting a join on its one-character separator gives back the parts, when no part contains the separator |
| `JsBuiltins.Reversed` | services/dataService.ts:20 | the reverse of a sequence: the same length, with position `i` holding the element at `n-1-i` |
| `JsBuiltins.ReverseInPlace` | services/dataService.ts:20 | reversing an array in place leaves the reverse of its old contents |
| `Types.RecommendationOf` | types.ts:20-25 | finds a variant exactly when the string is one of the four enum values, and then the variant has that value |
| `Types.RecommendationValueRoundTrip` | types.ts:20-25 | each variant's value maps back to that variant, so the four values are distinct |
| `DataService.Scale` | services/dataService.ts:5 | `Math.random() * width` lies in `[0, width)` when the draw is in `[0, 1)` |
| `DataService.GenerateRandom` | services/dataService.ts:4-7 | `generateRandom(min, max)` lies in `[min, max)` |
| `DataService.DayLabelInjective` | services/dataService.ts:18 | different day counts give different `D-n` labels (modelled by `DataService.DayLabel`) |
| `DataService.DayLabelParses` | services/dataService.ts:18 | a day label is "D-" followed by a number that parses back to the day count |
| `DataService.Reset` | services/dataService.ts:16 | when the base is positive, the restart value lies in `[0.95 base, 1.05 base)` |
| `DataService.Step` | services/dataService.ts:14-17 | with a positive base, one loop step always leaves a positive value |
| `DataService.Walk` | services/dataService.ts:12-19 | the loop produces one value per iteration |
| `DataService.WalkPositive` | services/dataService.ts:13-17 | with a positive base, every value of the walk is positive |
| `DataService.HistoricalData` | services/dataService.ts:9-21 | the generated history has exactly `points` entries; position `j` is labelled `D-(j+1)` and holds the value of loop iteration `points-1-j`, so the oldest day comes first |
| `DataService.PushedPoints` | services/dataService.ts:18 | the loop pushes one point per iteration; the `i`-th is labelled `D-(points-i)` and holds the `i`-th walk value, before the two-decimal rounding |
| `DataService.HistoricalDataPositive` | services/dataService.ts:13-17 | with a positive base, every generated value is positive before the two-decimal rounding of line 18 |
| `DataService.GenerateHistoricalData` | services/dataService.ts:9-21 | the loop, followed by the in-place reverse, returns exactly `HistoricalData` |
| `DataService.WalkExtend` | services/dataService.ts:12-19 | each loop iteration appends the next step's value to the walk |
| `DataService.HashRateEhs` | services/dataService.ts:54 | in exact real arithmetic, the EH/s figure times 10^9 gives back the GH/s figure, and a positive rate stays positive |
| `DataService.HashRateExample` | services/dataService.ts:54 | 500,000,000 GH/s is shown as 0.5 EH/s |
| `DataService.FngHistory` | services/dataService.ts:48-51 | the Fear & Greed history has one point per feed entry; position `j` of `n` is labelled `D-(n-1-j)` and holds `parseInt` of entry `n-1-j` |
| `DataService.FngHistoryEndsToday` | services/dataService.ts:47-51 | the last point of the history is `D-0`, taken from the feed's first (current) entry |
| `DataService.Metrics` | services/dataService.ts:62-106 | the six metrics come in their fixed order; Fear & Greed carries the current entry, its classification and its history; the hash rate is shown as the fixed-2 EH/s text; every generated history has 30 points |
| `DataService.FetchDashboardData` | services/dataService.ts:24-117 | every failure ends in the one fixed message; the result is a snapshot exactly when all three feeds are ok, decoded and complete, with a non-empty Fear & Greed array; a snapshot copies the quoted prices and shows the six metrics |
| `DataService.EmptyFearAndGreedFails` | services/dataService.ts:47 | an empty Fear & Greed array fails the whole fetch |
| `DataService.SnapshotHistories` | services/dataService.ts:62-106 | every metric of a snapshot has a history, and the five generated ones have 30 points each |
| `DataService.HashRateHistoryPositive` | services/dataService.ts:75 | with a positive hash rate, the hash-rate history holds only positive values before the two-decimal rounding |
| `GeminiService.MetricsSummary` | services/geminiService.ts:13 | the summary is empty exactly when there are no metrics, and it starts with the first metric's line |
| `GeminiService.SummaryLines` | services/geminiService.ts:13 | the metric summary splits back into exactly one `- name: value (tooltip)` line per metric, in order, when no field contains a line break |
| `GeminiService.EmptySummary` | services/geminiService.ts:13 | no metrics give an empty summary |
| `GeminiService.StripFences` | services/geminiService.ts:41-45 | "```json" is tested first and loses 7 leading and 3 trailing characters; a bare "```" loses 3 and 3; either way the rest is trimmed, and a short text becomes empty; unfenced text is unchanged |
| `GeminiService.CleanReply` | services/geminiService.ts:37-45 | the text handed to `JSON.parse` has no whitespace at either end, and a reply with no fence reaches it exactly as trimmed |
| `GeminiService.CleanReplyIgnoresSurroundingWhitespace` | services/geminiService.ts:37 | whitespace around the reply does not change what reaches `JSON.parse` |
| `GeminiService.CleanJsonFenced` | services/geminiService.ts:37-45 | a reply wrapped in a "```json" fence reaches the parser as its trimmed body |
| `GeminiService.CleanBareFenced` | services/geminiService.ts:37-45 | a reply wrapped in a bare fence reaches the parser as its trimmed body, unless the body itself starts with "json" |
| `GeminiService.BareFenceIsNotJsonFence` | services/geminiService.ts:41-43 | a bare fence around a body that does not start with "json" is not taken for a "```json" fence |
| `GeminiService.CleanUnfenced` | services/geminiService.ts:37-45 | a reply with no fence reaches the parser exactly as trimmed |
| `GeminiService.ValidateReply` | services/geminiService.ts:49-53 | the parsed reply is accepted exactly when both fields are truthy, and is then returned unchanged; otherwise the missing-field error is thrown |
| `GeminiService.AnalysisAttempt` | services/geminiService.ts:31-53 | the `try` block throws a `SyntaxError` exactly when the model call or `JSON.parse` raises one; it returns only what the parser produced from the cleaned text |
| `GeminiService.GetBitcoinAnalysis` | services/geminiService.ts:31-61 | succeeds exactly when the model answered with text that parses to an object with two truthy fields, and returns that object; every failure gives one of the two messages, and it is the invalid-format message exactly when some step of the `try` block (the model call or `JSON.parse`) raised a `SyntaxError` |
| `GeminiService.MissingFieldIsGeneric` | services/geminiService.ts:52-60 | a reply missing its justification surfaces as the generic message, not the missing-field one |
| `GeminiService.AnyRecommendationAccepted` | services/geminiService.ts:49-50 | any non-empty recommendation string is accepted, even one outside BUY, SELL and HOLD |
| `AIAdvisor.Classify` | components/AIAdvisor.tsx:27-55 | the verdict is the upper-cased string's own variant when it is BUY, SELL or HOLD, and `Error` exactly otherwise |
| `AIAdvisor.ClassifyCaseInsensitive` | components/AIAdvisor.tsx:27 | strings that agree once upper-cased get the same verdict |
| `AIAdvisor.ClassifyUpperCased` | components/AIAdvisor.tsx:27 | an already upper-cased recommendation gets the same verdict as the original |
| `AIAdvisor.ToUpperOfUpper` | components/AIAdvisor.tsx:27 | a string with no lower-case letter is unchanged by upper-casing |
| `AIAdvisor.ClassifyValue` | components/AIAdvisor.tsx:55 | each variant's own value gets that variant |
| `AIAdvisor.ClassifyOtherSpellings` | components/AIAdvisor.tsx:27-55 | "buy"/"Buy", "sell"/"Sell" and "hold"/"Hold" get the same verdicts as their upper-case forms |
| `AIAdvisor.LabelInjective` | components/AIAdvisor.tsx:28-53 | the style table (modelled by `AIAdvisor.Label`) gives the four verdicts four different words |
| `AIAdvisor.DisplayedLabel` | components/AIAdvisor.tsx:28-55 | COMPRAR, VENDER and MANTER are shown exactly for BUY, SELL and HOLD in any letter case, and ERRO exactly for every other string |
| `AIAdvisor.Panel` | components/AIAdvisor.tsx:77-82 | the loading placeholder is shown exactly when loading or when there is no recommendation; otherwise the card shows the classified verdict, its label and the justification unchanged |
| `App.Started` | App.tsx:16-19 | a load starts by raising both loading flags and clearing the error and the recommendation, keeping the snapshot |
| `App.LoadTransition` | App.tsx:15-42 | a load always ends with the page-level loading flag lowered; a failed fetch keeps the old snapshot, sets the data-failure error and leaves the analysis loading; a successful fetch stores the snapshot and either the analysis or the ERROR fallback with the analysis-failure error |
| `App.ScreenOf` | App.tsx:49-85 | the loading screen is shown exactly while loading without a snapshot; the error screen exactly when not loading, with a truthy error and no snapshot; the dashboard exactly when a snapshot exists, with the advisor panel and a refresh button enabled exactly when the analysis is not loading |
| `App.InitialScreenIsLoading` | App.tsx:9-13 | the first render shows the loading screen |
| `App.LoadNeverBlank` | App.tsx:49-85 | after any load, from any state, the page is never blank |
| `App.RefreshKeepsDashboard` | App.tsx:16-19 | a refresh over an existing snapshot keeps the dashboard on screen, with the advisor placeholder and refresh disabled |
| `App.AwaitingShowsNewSnapshot` | App.tsx:23 | while the analysis is awaited, the new snapshot is already shown beside the advisor placeholder |
| `App.SuccessShowsAnalysis` | App.tsx:22-34 | a fully successful load shows the snapshot and the classified analysis, and enables refresh |
| `App.AiFailureShowsErrorVerdict` | App.tsx:28-34 | a failed analysis shows the snapshot with the ERRO verdict and the fallback justification, and enables refresh |
| `App.AiErrorNeverShown` | App.tsx:30 | the analysis-failure message is stored but never reaches the error screen |
| `App.DataFailureDisablesRefresh` | App.tsx:36-41 | a failed fetch leaves refresh disabled; with no earlier snapshot the error screen shows the data-failure message, otherwise the stale snapshot stays on screen with the advisor placeholder |
| `App.AppComponent.constructor` | App.tsx:9-13 | the initial state is: no snapshot, no recommendation, both loading flags raised, no error |
| `App.AppComponent.LoadData` | App.tsx:15-42 | the setters, run in the source's order, reach exactly `LoadTransition` of the old state |
| `App.AppComponent.Render` | App.tsx:74-85 | the component shows the dashboard exactly when it holds a snapshot |

## Left out

- Network access, `Promise.all`, `async`/`await` and logging are not modelled. Each `loadData` run is taken to finish before the next starts; two overlapping refreshes are not modelled.
- The Gemini SDK, the prompt wording beyond the metric summary, the model name and the `API_KEY` start-up check are not modelled.
- `JSON.parse` is a parameter. Its outcome is either a parsed object, of which only the two fields read are modelled, or a `SyntaxError`.
- Rendering of every component (React, styling, icons, charts, modals, `PriceTicker`, `MetricCard`, `MetricChartModal`) is not modelled. Only the screen choice and the advisor panel's content are.
- `DataService.HistoricalDataPositive`: the positivity is of the unrounded values. `parseFloat(value.toFixed(2))` turns a walk value in `(0, 0.005)` into `0`, which a low-valued series such as MVRV or Mayer can reach, so a stored point may be `0` in the source.
- `DataService.GenerateRandom`: does not model the `toFixed(2)` and `parseFloat` rounding of the generated value, because floating-point decimal rounding is not modelled. The value lies in the real interval `[min, max)`.
- `DataService.HistoricalData`: each point's value is the unrounded walk value rather than `parseFloat(value.toFixed(2))`, for the same reason. The walk itself is unrounded in the source too.
- `DataService.Metrics`: `toFixed(2)` is a function parameter, not a formatting algorithm.
- `DataService.FetchDashboardData`: a hash-rate body that is not a number is modelled as a missing body (an error). The source's `/` converts it to a number instead: `null`, `true`, `[]` or a numeric string give a number (`null` shows "0.00 EH/s"), and only a non-numeric body gives NaN ("NaN EH/s").
- `DataService.HashRateEhs`: JavaScript numbers are modelled as exact reals, and IEEE double rounding is not modelled, so `ehs * 10^9 == ghs` holds here but can fail by a few units in the last place for large doubles.
- `GeminiService.StripFences`: lengths and cut positions count code points, while JavaScript's `length` and `slice` count UTF-16 code units. The two differ only when the cut positions fall next to a character outside the Basic Multilingual Plane (a surrogate pair): "```ab😀" is 7 units long, and `slice(3, -3)` gives "a", while the model gives "". The short-text thresholds of 6 and 10 shift in the same way.
- `JsBuiltins.DecimalString`: JavaScript writes naturals from 10^21 up in exponent form ("1e+21"), which is not modelled; the day labels only use counts up to 30.
- `DataService.FetchDashboardData`: the price fields are assumed to be numbers. A `bitcoin` object without `usd` or `brl` would be stored as `undefined` in the source.
- `DataService.FetchDashboardData`: a Fear & Greed entry whose fields are not strings, or a `data` field that is not an array, is not modelled.
- `DataService.Walk`: the draws come in pairs (step, reset) per iteration. The source draws the reset value only when it is needed, so the model fixes one of several equivalent orders of draws.
- `GeminiService.ValidateReply`: non-string truthy fields, such as a numeric recommendation, are accepted here as in the source. The application stores recommendations as strings, so it does not follow what the panel would do with them.
- `JsBuiltins.ToUpper`: only ASCII letters are upper-cased. Full Unicode case mapping, such as "ß" to "SS" or "ſ" to "S", is not modelled, so "ſell" is classified as `Error` here but as `Sell` in the source.
- `JsBuiltins.ParseInt`: it follows `parseInt(_, 10)` on integers only. Values beyond 2^53 lose no precision here, while JavaScript numbers would.
- `App`: the error screen's retry button reloads the page. That returns to the initial state, which `App.AppComponent.constructor` models; the reload itself is not modelled.
