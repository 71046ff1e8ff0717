# FDA adverse-event dashboard: a verified model of its data shaping

The dashboard searches the openFDA drug adverse-event endpoint and summarises
the reports it gets back. This project models the parts of it that compute
something, and proves what they compute:

- The per-drug summaries of the dashboard page (`getDrugSummaries`).
  - Reports are scanned twice, drug entry by drug entry.
  - Entries are keyed by their lower-cased `medicinalproduct`.
  - Each key gets a `(total, serious)` counter, a set of administration routes and a pharmacological class.
  - The output is one summary per key, sorted by total, largest first.
- The two reductions of `src/lib/api.ts`.
  - `getManufacturerData` counts manufacturer names and sorts them by count, descending.
  - `getTimeSeriesData` counts reports per `YYYY-MM` month key and sorts the keys ascending.
- The query parameters that `fetchAdverseEvents` and `fetchDrugInfo` append to a `URLSearchParams`.
- The catch clause of both fetches: a 400 or 404 becomes an empty response, and any other error is re-thrown.
- The seriousness checkbox toggle of the search form, and its three option values.

Modules:

- `Wrappers` holds `Option` and `Result`.
- `Text` stands in for the string built-ins the code calls:
  - ASCII case mapping for `toLowerCase`/`toUpperCase`;
  - `trim` with the ECMAScript white-space set;
  - `Number.prototype.toString` and `padStart`;
  - lexicographic order for `localeCompare`.
- `Tally` models `counts[k] = (counts[k] || 0) + 1` as a `map` together with the key insertion order that `Object.entries` and `Set` iteration follow (`Dedup` of the keys seen).
- `Sorting` models `Array.prototype.sort` with a comparator as an insertion sort. It yields a permutation that is ordered under any total preorder.
- `Api`, `Dashboard` and `SearchDrugs` follow `src/lib/api.ts`, `src/app/dashboard/page.tsx` and `src/components/SearchDrugs.tsx`.

The loops are imperative, as in the source:

- Each nested `forEach` is a `while` loop in its own method.
- Each dictionary is a `map` variable that the loop updates.
- Each `URLSearchParams` is a `SearchParams` object whose `Append` method extends its `entries`.

Every loop is proved against a specification function over the input read in scan order. These are `Occurrences`, `ManufacturerNames` and `MonthKeys`. The sequences of appends that build the query strings are proved equal to `EventParams` and `DrugInfoParams`. The lemmas state what those functions mean.

## Model

| member | source | states |
|---|---|---|
| Dashboard.DrugSummaries | src/app/dashboard/page.tsx:60-118 | No `results` gives `[]`. Otherwise: one summary per distinct lower-cased drug name (slugs distinct; a slug is present iff the name occurs); each summary equals `SummaryFor` of its name; the totals add up to the number of named drug entries; sorted by `totalEvents`, non-increasing |
| Dashboard.CountEvents | src/app/dashboard/page.tsx:70-88 | The first pass leaves `drugEventCounts` holding, per name that occurs, its number of entries and its number of entries in serious reports; the keys are in first-occurrence order |
| Dashboard.CountReport | src/app/dashboard/page.tsx:71-87 | The inner loop of the first pass extends the counts by the named entries of one report |
| Dashboard.CountEvent | src/app/dashboard/page.tsx:74-85 | Creates `{0, 0}` for a new key (appending it to the key order), adds 1 to `total`, and adds 1 to `serious` iff the report is serious |
| Dashboard.CountedStep | src/app/dashboard/page.tsx:73-85 | One counted entry keeps the counting invariant |
| Dashboard.CollectRoutes | src/app/dashboard/page.tsx:91-107 | The second pass leaves `drugRoutes[k]` equal to the de-duplicated non-empty routes of `k` in first-seen order, and `drugClasses[k]` equal to the class `ClassOf` picks |
| Dashboard.CollectReport | src/app/dashboard/page.tsx:92-106 | The inner loop of the second pass extends routes and classes by the named entries of one report |
| Dashboard.CollectDrug | src/app/dashboard/page.tsx:94-104 | Creates an empty set for a new key, adds a non-empty route only if it is not already present, and overwrites the class when `pharm_class_epc` is non-empty |
| Dashboard.RoutesStep | src/app/dashboard/page.tsx:95-100 | One entry keeps the route-set invariant |
| Dashboard.ClassesStep | src/app/dashboard/page.tsx:102-104 | One entry keeps the class invariant |
| Dashboard.EntriesAreSummaries | src/app/dashboard/page.tsx:110-116 | The projection of the three dictionaries gives exactly `SummaryFor` of each key |
| Dashboard.SeriousAtMostTotal | src/app/dashboard/page.tsx:77-85 | A name's serious count never exceeds its total |
| Dashboard.SummaryCounts | src/app/dashboard/page.tsx:74-85 | For a counted name: `1 <= totalEvents` and `seriousEvents <= totalEvents` |
| Dashboard.DrugSeriousKeys | src/app/dashboard/page.tsx:80-85 | A report adds one serious event per named entry when serious, and none otherwise |
| Dashboard.SeriousFromReports | src/app/dashboard/page.tsx:80-85 | The serious counts are exactly the counts taken over the serious reports alone |
| Dashboard.KeysOfReports | src/app/dashboard/page.tsx:70-73 | A name gets a summary iff some drug entry of some report has a non-empty name that lower-cases to it |
| Dashboard.SummaryName | src/app/dashboard/page.tsx:111 | The display name has the key's length; its first character is upper-cased, the rest is the key, and lower-casing it gives the slug |
| Dashboard.SummaryRoutes | src/app/dashboard/page.tsx:95-100 | A summary's routes have no duplicates and are exactly the non-empty routes given with that name |
| Dashboard.RoutesOfMember | src/app/dashboard/page.tsx:98-99 | A route is collected for a name iff some occurrence of that name carries it |
| Dashboard.ClassOfLast | src/app/dashboard/page.tsx:102-104 | No class iff no entry of the name lists one; otherwise the class is the first element from the last such entry |
| Dashboard.ClassLabel | src/app/dashboard/page.tsx:115 | The shown class is never empty; a present non-empty class is shown as is, and anything else reads "Unknown" |
| Dashboard.TickSendsFlag | src/app/dashboard/page.tsx:43-47 | After ticking an unticked seriousness box, the dashboard's next query sends that box's parameter with value 1; after unticking, it sends none |
| Dashboard.DashboardLimit | src/app/dashboard/page.tsx:43-47 | The dashboard's query carries `limit=100` twice without a drug name, and once with one |
| Api.SearchParams.Append | src/lib/api.ts:98 | `append` adds one pair at the end and changes nothing else |
| Api.AdverseEventParams | src/lib/api.ts:91-127 | The parameters built are exactly `EventParams`, in append order |
| Api.AppendName | src/lib/api.ts:93-103 | Appends the trimmed search term if it is non-empty, nothing for a blank name, and `limit=100` when there is no name |
| Api.AppendFlag | src/lib/api.ts:105-115 | Appends `<flag>=1` iff the seriousness list includes the value |
| Api.AppendNumber | src/lib/api.ts:117-123 | Appends the decimal number iff it is present and non-zero |
| Api.AppendText | src/lib/api.ts:125-127 | Appends the received-date filter iff it is non-empty |
| Api.EventValuesByName | src/lib/api.ts:91-127 | The values of every parameter name, piece by piece |
| Api.EventSearchParam | src/lib/api.ts:93-99 | `search` is `patient.drug.medicinalproduct:<trimmed>` for a name with non-white-space text, and absent for a white-space-only name |
| Text.TrimIsSlice | src/lib/api.ts:95 | `trim` yields the slice of the name between a white-space-only prefix and a white-space-only suffix, and a non-empty result neither starts nor ends with white space |
| Api.EventLimitParams | src/lib/api.ts:100-119 | `limit` is `100` when there is no name, followed by the explicit limit when that is non-zero; with no name and limit 100 it appears twice |
| Api.EventSkipParam | src/lib/api.ts:121-123 | `skip` is sent iff non-zero, so `skip = 0` is omitted |
| Api.EventSeriousnessParams | src/lib/api.ts:105-115 | Each seriousness parameter is `["1"]` iff its value is in the list, and absent otherwise |
| Api.EventSeriousnessOrder | src/lib/api.ts:105-115 | The seriousness parameters appear in the order death, hospitalization, life-threatening |
| Api.DrugInfoQueryParams | src/lib/api.ts:165-181 | The parameters built are exactly `DrugInfoParams`, in append order |
| Api.DrugInfoSearchParams | src/lib/api.ts:167-181 | The ingredient and the route each add their own `search` value, ingredient first; `limit` and `skip` are sent iff non-zero |
| Api.Recover | src/lib/api.ts:139-154 | Success iff an axios error with status 400 or 404, giving `total = limit = skip = 0` and no results; any other error is returned unchanged |
| Api.Settle | src/lib/api.ts:131-155 | A response passes through unchanged; a failure becomes a success exactly when it is an axios error with status 400 or 404, and that success is the empty response; any other failure stays the original error |
| Api.GetManufacturerData | src/lib/api.ts:208-224 | Names distinct; a name is present iff it is listed somewhere; each count is its number of listings (repeats inside one list count separately) and is at least 1; counts sum to the number of listings; sorted by count, non-increasing |
| Api.CountDrugs | src/lib/api.ts:212-218 | The loop over one report's drug entries counts the manufacturer names of the entries that have them |
| Api.CountManufacturers | src/lib/api.ts:214-216 | The loop over one `manufacturer_name` list counts each name once per listing |
| Api.GetTimeSeriesData | src/lib/api.ts:227-239 | Month keys distinct; a key is present iff some report falls in it; each count is the number of reports in that month and is at least 1; counts sum to the number of reports; keys strictly ascending |
| Api.MonthKeys | src/lib/api.ts:230-233 | One month key per report |
| Api.MonthKeyShape | src/lib/api.ts:232 | A valid date gives `<year>-MM` with MM a two-digit 01..12; a four-digit year gives exactly `YYYY-MM` |
| Api.MonthKeyRoundTrip | src/lib/api.ts:231-232 | The month key determines the calendar month (an invalid date gives its own key), so distinct months never share a bucket |
| Api.MonthKeyOrder | src/lib/api.ts:230-238 | For four-digit years, the string order used to sort the buckets is calendar order: key a comes before or equals key b iff a's year is earlier, or the years match and a's month is not later |
| Api.MonthDigits | src/lib/api.ts:232 | `String(month + 1).padStart(2, '0')` is two digits whose value is the month number |
| Api.EarlierMonthIsTotalPreorder | src/lib/api.ts:238 | The month comparator is a total preorder, so the sort orders the series |
| SearchDrugs.HandleSeriousnessChange | src/components/SearchDrugs.tsx:57-64 | Other filter fields are unchanged; a present value is removed everywhere; an absent value is appended at the end |
| SearchDrugs.Without | src/components/SearchDrugs.tsx:61 | The filtered list keeps exactly the elements other than the value |
| SearchDrugs.WithoutConcat | src/components/SearchDrugs.tsx:61 | Filtering distributes over concatenation, so the other elements keep their order |
| SearchDrugs.WithoutCounts | src/components/SearchDrugs.tsx:61 | Every other value keeps its number of occurrences, and the removed value has none |
| SearchDrugs.WithoutAbsent | src/components/SearchDrugs.tsx:61 | Removing an absent value changes nothing |
| SearchDrugs.ToggleMembership | src/components/SearchDrugs.tsx:60-62 | The toggled value's membership flips, and every other value's membership stays |
| SearchDrugs.ToggleTwice | src/components/SearchDrugs.tsx:60-62 | Toggling an absent value twice restores the list |
| SearchDrugs.ToggleTwicePresent | src/components/SearchDrugs.tsx:60-62 | Toggling a present value twice moves it to the end, with all its other copies gone |
| SearchDrugs.ToggleNoDup | src/components/SearchDrugs.tsx:60-62 | A list without repeats stays without repeats |
| SearchDrugs.OptionsMatchQuery | src/components/SearchDrugs.tsx:21-25 | The three option values are those the event query tests for, in the same order |
| SearchDrugs.OptionSelectsFlag | src/components/SearchDrugs.tsx:21-25 | Each option's value, when in the list, turns on its own query parameter, and only then |
| Sorting.SortBy | src/lib/api.ts:223 | `sort` returns a permutation of its input |
| Sorting.SortBySorted | src/app/dashboard/page.tsx:117 | Under a total-preorder comparator the sorted list is ordered |
| Tally.SortedTally | src/lib/api.ts:221-223 | Sorted tally entries are key-distinct; keys are exactly the elements counted; each carries its count (at least 1); counts sum to the number counted |
| Tally.TalliedStep | src/lib/api.ts:215 | One `counts[x] = (counts[x] or 0) + 1` keeps the tally exact, and appends x to the key order iff it is new |

## Left out

- Network and logging: the axios GET, the URLs, `queryParams.toString()` and `console.log`. The model stops at the list of parameters and at the error the fetch raises.
- Response shape: the response nests its counters as `meta.results.{total, limit, skip}`. The model flattens this into `Meta(total, limit, skip)`.
- React: rendering, `useState`, `useQuery`, and the loading, error and empty states. What the dashboard passes to `fetchAdverseEvents` is kept, as `Dashboard.EventsQueryFor`.
- `src/components/DrugCard.tsx` is not part of this model. It only renders, and its one computation is a floating-point percentage.
- Date parsing: `new Date(receivedate)` with `getFullYear`/`getMonth` depends on the library and the time zone. It is the parameter `parse` of `Api.GetTimeSeriesData`. `None` stands for an invalid date, which renders as `NaN-NaN`.
- `localeCompare` is taken as plain lexicographic order on characters. For digit-and-hyphen month keys the two agree.
- `toLowerCase`/`toUpperCase` are taken as ASCII case mapping. Unicode mappings, including those that change a string's length, are not modelled.
- `encodeURIComponent`: the slug is the lower-cased key itself, not its percent-encoding.
- Tie order: entries with equal counts keep this model's insertion-sort order. The source relies on a stable sort over insertion order, and no contract here speaks about ties.
- The invalid-date key `NaN-NaN` is placed among the month keys by plain character order; where `localeCompare` would place it relative to digit keys is not modelled.
- Object key quirks: object keys that look like array indices are enumerated first by `Object.entries`. Names such as `constructor` or `__proto__` collide with `Object.prototype` in `drugEventCounts[drugName]`. Neither is modelled; keys are ordered by first occurrence.
- Numbers: `limit` and `skip` are integers, and `NaN` (also falsy in JavaScript) is not modelled. The year of a valid date is any integer rendered in decimal; the six-digit and signed years of extreme dates are out of scope.
- The manufacturer list of the drug detail page, which adds `sponsor_name`s from Drugs@FDA, is not part of this model.
- Api.Settle: the catch clause is modelled on the error value. The model does not capture the exception being thrown, or the promise being rejected.
