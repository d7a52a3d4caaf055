# Aadhaar center-allocation dashboard: a Dafny model

The dashboard is a single React component, `App` in `App.js`. It shows enrolment
statistics, anomaly hotspots and a seven-day demand forecast, all fetched from an
analytics backend. Its logic outside rendering has two parts, and this project
models both:

- `allocation.dfy`, module `Allocation`: the derived center allocation. A forecast
  is a sequence of `{day, demand}` entries. The allocation is the same sequence
  with `centers = ceil(demand / capacity)` added to each entry. The
  "Optimal Centers" headline is the first entry's count, or 0 when there is no
  entry. All of this is pure functions and lemmas.
- `dashboard.dfy`, module `Dashboard`: the view-state controller, as class `App`.
  Its fields are the component's eight state slots. Its methods are the
  transitions: the initial state, mounting, the init-data response, the hotspot
  response and its failure, choosing a state, choosing a district, the
  detailed-analysis response, the forecast response and the capacity slider.
  Each operator action returns the requests it issues, tagged by endpoint and
  carrying the encoded `state` and `district` arguments. Each response is its own
  method call that overwrites only its own slots: `states` and `dataMap` for
  init-data, none for a hotspot failure, and exactly one for each of the others. `App.Handle` dispatches one event of
  either kind to its handler. Two client methods replay sessions: any sequence
  of events without a successful hotspot response, and a drill-down into Pune,
  Maharashtra.

What is proved:

- Each day's count is the ceiling: `(n - 1) * capacity < demand <= n * capacity`
  for positive demand, and `n == 0` exactly when demand is 0. It is the least count
  that covers the demand, and it is the only count meeting both bounds.
- A larger capacity never needs more centers.
- The allocation has the forecast's length and order, and keeps each entry's
  `day` and `demand`. Removing the counts gives back the forecast. Allocating a
  concatenation is concatenating the allocations.
- The allocation reads only the `forecast` and `centerCapacity` slots. So every
  other transition leaves it unchanged. This is a `reads` frame on
  `App.DynamicForecast`, plus an `ensures` on each transition that modifies a
  slot.
- `RefreshData(s, d)` sets the selection to exactly `(s, d)`. It always asks for the
  detailed analysis. It asks for the forecast if and only if `d != "All"`. Both
  requests carry the same encoded arguments. The forecast slot is left as it was,
  not cleared, when `d == "All"`.

The code never clears the forecast when the district goes back to "All"
(`App.js:49-52`). The model keeps the old forecast, and the drill-down scenario
shows it still in memory.

A consequence of the code that the model keeps: the state selector's placeholder
option "Select State" has no `value`. Choosing it calls the handler with the
text "Select State". That sets `districts` to the empty list, selects state
"Select State" and asks for its detailed analysis. `App.SelectState` covers this
because it accepts any string.

## Model

| member | source | states |
|---|---|---|
| Allocation.Centers | App.js:37 | The count is the ceiling of demand over capacity: it covers the demand, one fewer would not, it is 0 exactly for zero demand and at least 1 for positive demand |
| Allocation.CentersIsLeast | App.js:37 | Any count of centers that covers the demand is at least the computed count |
| Allocation.CeilingUnique | App.js:37 | Any count meeting both ceiling bounds equals the computed count |
| Allocation.CentersAntitone | App.js:34-39 | Raising the capacity never raises the count for the same demand |
| Allocation.CentersOfMultiple | App.js:37 | A demand of exactly n full centers needs exactly n centers |
| Allocation.Annotate | App.js:35-38 | One entry of the allocation: removing its count gives back the forecast entry, and the count meets the ceiling bounds for that entry's demand |
| Allocation.Allocate | App.js:34-39 | The allocation has the forecast's length; entry i keeps entry i's day and demand; its count meets the ceiling bounds for that demand |
| Allocation.AllocationEntry | App.js:37 | Entry i's count is the ceiling of entry i's demand, is 0 exactly when that demand is 0, and satisfies (n-1)*capacity < demand <= n*capacity for positive demand |
| Allocation.StripAllocate | App.js:35-38 | Removing the counts from the allocation gives back the forecast, so the allocation only adds the counts |
| Allocation.AllocateAppend | App.js:35 | The allocation of a concatenation is the concatenation of the allocations, so entries are allocated one by one and in order |
| Allocation.AllocateAntitone | App.js:34-39 | Moving the slider to a larger capacity never raises any day's count |
| Allocation.OptimalCenters | App.js:144 | The headline over the derived allocation is the first day's ceiling count when the forecast is non-empty and 0 otherwise; it is 0 exactly when there is no first day or its demand is 0 |
| Allocation.WorkedExample | App.js:34-39 | Demands 1000 and 1500 need 2 and 3 centers at capacity 500 and 4 and 6 at capacity 250; the headline is 2, then 4 |
| Dashboard.App.constructor | App.js:12-19 | Initial slots: empty directory, state list, districts and hotspots; selection ("", "All"); zero statistics; empty forecast; capacity 500 |
| Dashboard.App.DynamicForecast | App.js:34-39 | The allocation reads only the forecast and capacity slots; removing its counts gives back the forecast; each count is the ceiling for its day |
| Dashboard.App.Headline | App.js:144 | The headline is the first day's ceiling count, or 0 without a forecast |
| Dashboard.App.Mount | App.js:21-32 | Mounting issues exactly the init-data and top-anomalies requests, no forecast request, and changes no slot |
| Dashboard.App.OnInitData | App.js:23-26 | The state list and directory become the response's fields, or empty when a field is missing; nothing else changes |
| Dashboard.App.OnTopAnomalies | App.js:29-30 | The hotspot list becomes the response body, or empty when it is missing; nothing else changes |
| Dashboard.App.OnTopAnomaliesFailed | App.js:31 | A failed hotspot request changes no slot |
| Dashboard.App.RefreshData | App.js:41-53 | Selection becomes exactly (s, d); one detailed-analysis request, plus a forecast request iff d is not "All"; every request carries the encodings of s and d; the forecast slot is unchanged |
| Dashboard.App.SelectState | App.js:86 | Districts become the directory's entry for the state, or empty when absent; then selection (state, "All") with only a detailed-analysis request and no forecast request; the allocation is unchanged |
| Dashboard.App.SelectDistrict | App.js:91 | Only callable once a state is chosen; refreshes for the current state and the chosen district, so a forecast request is issued iff the district is not "All"; the forecast slot is kept |
| Dashboard.App.OnDetailedAnalysis | App.js:47 | The statistics are replaced wholesale; nothing else changes and the allocation is unchanged |
| Dashboard.App.OnForecast | App.js:51 | The forecast is replaced wholesale; nothing else changes; the allocation becomes that of the new forecast |
| Dashboard.App.SetCapacity | App.js:103 | The capacity becomes the slider's value; nothing else changes; the allocation becomes that of the forecast at the new capacity |
| Dashboard.App.Handle | App.js:21-103 | Dispatches one response or operator action and gives the whole new state for each: the handler's slot or slots take their new values, every other slot is unchanged, and the requests are exactly the handler's; a district choice with no state selected changes nothing and issues nothing, because that selector is disabled; only a successful hotspot response changes the hotspot list; only a forecast response or a capacity move can change the allocation |
| Dashboard.HotspotFailureScenario | App.js:15-31 | After mounting, for every sequence of events in any order that contains no successful hotspot response (hotspot failures included), the hotspot list is still the initial empty list |
| Dashboard.DrillDownScenario | App.js:34-53 | Choosing Maharashtra asks only for its detailed analysis; choosing Pune asks for detailed analysis and forecast with the same arguments; the allocation at 500 and 250 is [2, 3] and [4, 6]; going back to "All" asks only for statistics and keeps the old forecast |

## Left out

- Rendering: all JSX, styling, icons and charts (`App.js:55-190`). They are presentation only.
- The login gate (`App.js:11`, `App.js:62`) is a local flag with no effect on any request. It is not modelled.
- Constants used only in rendering: the R² text, the reference line at 1200, and the backend base URL `API_BASE`. None of them enters the logic.
- HTTP: requests are returned as values and never executed. Completion order and races between responses are not modelled. Responses are method calls in whatever order the caller makes them.
- Failures of the init-data, detailed-analysis and forecast requests have no handler in the code, so they change no slot. The model has no method for them.
- `console.error` on a hotspot failure is I/O and is not modelled.
- Dashboard.App.RefreshData: always returns its requests. In JavaScript, `encodeURIComponent` throws a URIError when `s` or `d` contains a lone surrogate (`App.js:43-44`). The selection has already changed by then (`App.js:42`), and no request is issued. Dafny strings cannot hold a lone surrogate, so this path is not modelled.
- Dashboard.App.OnForecast: accepts only a well-formed forecast. A null or wrongly shaped response body is stored as it is (`App.js:51`), and the next render then throws at `forecast.map` (`App.js:35`). That failure is not modelled.
- Dashboard.App.OnDetailedAnalysis: accepts only well-formed statistics. A null response body is stored as it is (`App.js:47`), and the next render then throws at `stats.total` (`App.js:139`). That failure is not modelled.
- `encodeURIComponent` is a platform function. It is kept symbolic as `Encoded.UriComponent(raw)`. The model shows only that both requests carry the same encoded values.
- Dashboard.App.SetCapacity: takes a positive integer. The slider hands over a string in [100, 2000] in steps of 50, which JavaScript converts to a number when dividing. So capacity 0, non-integer capacities and the string form are not modelled.
- Allocation.Centers: demand is a natural number. The backend may send fractional demand, and the code rounds up a floating-point quotient. Fractional demand and floating-point rounding are not modelled.
- JavaScript `||` also replaces other falsy values, such as `null`. `Option.None` stands for every such missing value.
- `dataMap[value]` on a JavaScript object also finds inherited properties such as `constructor`. The model looks up only the directory's own keys.
- The spread `...item` keeps any extra fields of a forecast entry. The model's entries have only `day` and `demand`.
- Statistics fields are shown with `|| 0` defaults when missing. That defaulting happens at display time and is not modelled. The statistics slot stores the response as it came.
- The elements of `anomaly_list` have no visible shape. The model keeps each as text.
