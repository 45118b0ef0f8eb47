# Expense tracker client: verified model of its list and URL logic

This project is a Dafny model of a React expense-tracker client, with proofs about that model. It covers the list, URL and colour logic of three source files:

- **The expenses page** (`src/Pages/ExpensePage.tsx`):
  - the client-side filter over the fetched expenses, with three tests: the type, the description substring and the lower date bound;
  - the total of the current month's expenses;
  - the category index built from the master-data list;
  - the filter state the page keeps with `useState`, and the handlers that change it.
- **The expense service** (`src/Services/ExpenseService.ts`): the URLs that `getExpenses` and `getDashboardData` request. Each URL is built by appending pairs to a `URLSearchParams` object and serializing it.
- **The chart helper** (`src/Utilis/Helpers.ts`): `generateColorScale`, which samples a colour scheme at `i / count`.

Modules:

- `Wrappers` is `Option`.
- `Sequences` holds three facts about concatenation that the proofs cite.
- `Text` holds JavaScript's string tests: truthiness, `toLowerCase` and `includes`.
- `FormUrlEncoding` holds the `application/x-www-form-urlencoded` serializer that `URLSearchParams.toString()` applies. It is written out as in section 5.2 of the WHATWG URL Standard, over UTF-8 as in RFC 3629. It also holds its decoder (section 5.1) and the decimal `Number.prototype.toString` of integers.
- `ExpenseService`, `ExpensePage` and `Helpers` follow the three source files.

The model keeps three of the page's five pieces of state: `frontendFilters`, `backendDateFilter` and `masterDataById`. The other two, `formOpen` and `selectedExpense`, only drive the edit form. The page's handlers update that state in place, so it is a class, `ExpensesPageState`, whose methods modify it. `prepareMasterDataByObject` and `generateColorScale` are methods with loops. `URLSearchParams` is a class whose `Append` grows its pair list. The filter and the month total are a recursive `filter` and a left fold (`reduce`). Each comes with reference definitions and lemmas.

Parameters stand for what the model cannot see:

- the endpoint paths (`API_ENDPOINTS`);
- the date parser (`new Date(text)`);
- the current month and year (the clock);
- the colour interpolator (`d3.interpolateRainbow`).

## Model

| member | source | states |
|---|---|---|
| ExpensePage.OnOrAfter | src/Pages/ExpensePage.tsx:68 | `>=` on two parsed dates: for dates whose month, day and time of day lie in their ranges, it holds exactly when the first date's time key (year, month, day, milliseconds, in that order of weight) is at least the second's, as JavaScript compares dates by time value; in general a date is on or after itself, every date of a later year is on or after, and no date of an earlier year is |
| ExpensePage.OnOrAfterIsTotalOrder | src/Pages/ExpensePage.tsx:68 | like `>=` on time values, the comparison is total, antisymmetric and transitive |
| ExpensePage.FrontendFilters.AnyActive | src/Pages/ExpensePage.tsx:64-68 | true exactly when some filter key holds a non-empty string |
| ExpensePage.MatchesType | src/Pages/ExpensePage.tsx:64 | an unset or empty type filter passes every expense; a set one passes exactly the expenses of the same type string, with no case folding |
| ExpensePage.MatchesDescription | src/Pages/ExpensePage.tsx:65-66 | passes exactly when the filter is unset or empty, or the lower-cased filter text occurs in the lower-cased description |
| ExpensePage.MatchesDateFrom | src/Pages/ExpensePage.tsx:67-68 | an unset or empty bound passes everything; an active bound is inclusive (an expense dated exactly at `dateFrom` passes); an Invalid Date, on either side, never passes an active bound; with both dates valid it passes exactly when the expense's date is on or after the bound |
| ExpensePage.Matches | src/Pages/ExpensePage.tsx:63-70 | the callback holds exactly when all three tests hold, stated with substring occurrence and the date order |
| ExpensePage.FilteredExpenses | src/Pages/ExpensePage.tsx:62-72 | the result is no longer than the input, and an expense is in it exactly when it is in the input and passes all three tests |
| ExpensePage.FilteredIsSubsequence | src/Pages/ExpensePage.tsx:62-72 | the result is a subsequence of the input: the filter only deletes, and what remains keeps its order |
| ExpensePage.FilteredCounts | src/Pages/ExpensePage.tsx:62-72 | every occurrence of a passing expense is kept, so duplicates survive, and a failing expense occurs 0 times |
| ExpensePage.FilteredMembership | src/Pages/ExpensePage.tsx:63-70 | membership in the result means: the exact type is equal, with no case folding; the lower-cased filter text is a substring of the lower-cased description; the date is on or after `dateFrom`, both dates valid. An unset or empty filter field imposes nothing |
| ExpensePage.FilteredAllPass | src/Pages/ExpensePage.tsx:62-72 | a list whose every expense passes comes back unchanged |
| ExpensePage.FilteredWithoutFilters | src/Pages/ExpensePage.tsx:64-68 | with type, description and dateFrom all unset or empty, the filter returns its input |
| ExpensePage.FilteredIdempotent | src/Pages/ExpensePage.tsx:62-72 | filtering twice with the same state equals filtering once |
| ExpensePage.FrontendFilters.With | src/Pages/ExpensePage.tsx:120-123 | `{ ...prev, [key]: value }` gives the named key the value and keeps every other key |
| ExpensePage.InMonth | src/Pages/ExpensePage.tsx:79-80 | an expense is of the month exactly when its date parses to a valid date with that 0-based month and that year; an Invalid Date is of no month |
| ExpensePage.AddIfInMonth | src/Pages/ExpensePage.tsx:78-84 | the callback adds to the running total exactly the sum of the expense's contribution to the month (its amount or nothing) |
| ExpensePage.ReduceMonthTotal | src/Pages/ExpensePage.tsx:78-84 | `reduce` as a left fold over the callback; it has no contract of its own, and `ReduceMonthTotalIsSum` states its meaning |
| ExpensePage.ReduceMonthTotalIsSum | src/Pages/ExpensePage.tsx:78-84 | the fold started at any total adds the sum of the amounts of the month's expenses to it |
| ExpensePage.CurrentMonthTotal | src/Pages/ExpensePage.tsx:74-85 | the month total is the sum of the amounts of exactly the expenses whose parsed month and year equal the targets; the empty list totals 0 |
| ExpensePage.SumAmountsAppend | src/Pages/ExpensePage.tsx:78-84 | the reference sum of a concatenation is the sum of the two sums |
| ExpensePage.ExpensesInMonthAppend | src/Pages/ExpensePage.tsx:78-84 | selecting the month's expenses commutes with concatenation |
| ExpensePage.CurrentMonthTotalSingle | src/Pages/ExpensePage.tsx:79-83 | one expense contributes its amount when it is of the month, and 0 otherwise |
| ExpensePage.CurrentMonthTotalAppend | src/Pages/ExpensePage.tsx:78-84 | the total of a concatenation is the sum of the totals |
| ExpensePage.OtherMonthContributesNothing | src/Pages/ExpensePage.tsx:80-83 | inserting an expense of another month, or with an invalid date, anywhere in the list leaves the total unchanged |
| ExpensePage.CurrentMonthTotalRemoveAt | src/Pages/ExpensePage.tsx:78-84 | taking one expense out of the list takes exactly its contribution out of the total |
| ExpensePage.CurrentMonthTotalPermutation | src/Pages/ExpensePage.tsx:74-85 | lists with the same elements, in any order, have the same month total |
| ExpensePage.CurrentMonthTotalNonNegative | src/Pages/ExpensePage.tsx:74-85 | with no negative amounts the total is not negative |
| ExpensePage.PrepareMasterDataByObject | src/Pages/ExpensePage.tsx:93-101 | the index's keys are exactly the ids of the list, and each id maps to the title of the last record carrying it |
| ExpensePage.ExpensesPageState.constructor | src/Pages/ExpensePage.tsx:36-38 | the state starts as `{}`, `''` and `{}` |
| ExpensePage.ExpensesPageState.OnMasterDataChange | src/Pages/ExpensePage.tsx:87-101 | a non-empty category list replaces the index with the one built from it (keys, last-wins); an empty list leaves the previous index untouched; the filters are unchanged |
| ExpensePage.ExpensesPageState.HasActiveFilters | src/Pages/ExpensePage.tsx:149-151 | true exactly when some client-side filter field or the server-side date bound is a non-empty string |
| ExpensePage.ExpensesPageState.ExpensesQueryFilters | src/Pages/ExpensePage.tsx:43-46 | the expenses query passes `{ dateTo }` exactly when the date bound is non-empty, so a `dateTo` parameter is sent exactly then |
| ExpensePage.ExpensesPageState.HandleFrontendFilterChange | src/Pages/ExpensePage.tsx:119-124 | only the named client-side filter takes the new value; the date bound and the index are unchanged |
| ExpensePage.ExpensesPageState.HandleDateToFilterChange | src/Pages/ExpensePage.tsx:126-132 | the server-side date bound takes the new value; nothing else changes |
| ExpensePage.ExpensesPageState.HandleClearFilters | src/Pages/ExpensePage.tsx:134-139 | all client-side filters are unset and the date bound is `''`, so no filter is active; the index is kept |
| ExpensePage.NoActiveFiltersShowEverything | src/Pages/ExpensePage.tsx:43-72 | with no active filter the page fetches without `dateTo` and shows every fetched expense |
| Text.Truthy | src/Pages/ExpensePage.tsx:64-67 | `!x` on a `string \| undefined`: `undefined` and `''` are falsy, every non-empty string is truthy |
| Text.Includes | src/Pages/ExpensePage.tsx:66 | `includes` as a scan of the start positions; it has no contract of its own, and `Text.IncludesIsSubstring` states its meaning |
| Text.LowerChar | src/Pages/ExpensePage.tsx:66 | `A`-`Z` map to `a`-`z` and every other character is kept |
| Text.ToLower | src/Pages/ExpensePage.tsx:66 | lower-casing keeps the length and lower-cases each character in place |
| Text.IncludesIsSubstring | src/Pages/ExpensePage.tsx:66 | `includes` holds exactly when the needle occurs at some position of the string |
| FormUrlEncoding.FormEncode | src/Services/ExpenseService.ts:14 | the serializer of one name or value; it has no contract of its own, and `FormUrlEncoding.FormDecodeEncode` and `FormUrlEncoding.FormEncodeChars` state its meaning |
| FormUrlEncoding.Utf8 | src/Services/ExpenseService.ts:14 | each character becomes 1 to 4 bytes, and an ASCII character becomes its own code |
| FormUrlEncoding.EncodeBytesChars | src/Services/ExpenseService.ts:14 | serialized bytes use only unreserved characters, `+` and `%` |
| FormUrlEncoding.FormEncodeChars | src/Services/ExpenseService.ts:53 | a serialized name or value never contains `&`, `=`, `#` or `?`, so it cannot break the query's structure |
| FormUrlEncoding.DecodeEncodeBytes | src/Services/ExpenseService.ts:53 | decoding serialized bytes followed by anything gives those bytes followed by the decoding of the rest |
| FormUrlEncoding.FormDecodeEncode | src/Services/ExpenseService.ts:53 | decoding a serialized string gives back its UTF-8 bytes |
| FormUrlEncoding.FormEncodeUnreserved | src/Services/ExpenseService.ts:46-47 | a string of unreserved characters serializes as itself |
| FormUrlEncoding.NatToString | src/Services/ExpenseService.ts:46-47 | the decimal text of a natural number is a non-empty run of digits with no leading zero |
| FormUrlEncoding.NumberToString | src/Services/ExpenseService.ts:46-47 | the text of any integer uses only unreserved characters |
| FormUrlEncoding.NumberToStringRoundTrip | src/Services/ExpenseService.ts:46-47 | parsing the decimal text of an integer gives the integer back |
| ExpenseService.ParamNameSerialization | src/Services/ExpenseService.ts:11-50 | the literal parameter names the service appends, `"dateTo"` (:11, :50), `"month"` (:46) and `"year"` (:47), which `ParamName.Name` returns, serialize as themselves |
| ExpenseService.SerializePair | src/Services/ExpenseService.ts:14 | `name=value` with both halves serialized; it has no contract of its own, and `ExpenseService.SerializeNamedPair` states its form |
| ExpenseService.SerializeNamedPair | src/Services/ExpenseService.ts:46-50 | a pair of this service goes out as its literal name, `=`, and the serialized value |
| ExpenseService.SerializeQuery | src/Services/ExpenseService.ts:14 | the query string is empty exactly when no pair was appended |
| ExpenseService.SerializeAppend | src/Services/ExpenseService.ts:46-53 | appending a pair adds `&name=value`, or just `name=value` to an empty query |
| ExpenseService.SearchParams.constructor | src/Services/ExpenseService.ts:8 | `new URLSearchParams()` holds no pairs |
| ExpenseService.SearchParams.Append | src/Services/ExpenseService.ts:46-50 | `append` adds the pair at the end and keeps the earlier ones in order |
| ExpenseService.SearchParams.ToString | src/Services/ExpenseService.ts:14 | `toString()` is empty exactly when no pair was appended |
| ExpenseService.HasDateTo | src/Services/ExpenseService.ts:10 | `filters?.dateTo` is truthy: true exactly when an argument is given and its `dateTo` is a non-empty string |
| ExpenseService.GetExpensesUrl | src/Services/ExpenseService.ts:7-20 | without a non-empty `dateTo` the URL is exactly the base path, with no `?`; with one it is `base?dateTo=` and the serialized date |
| ExpenseService.TwoPairQuery | src/Services/ExpenseService.ts:45-53 | two pairs serialize as `n1=v1&n2=v2` |
| ExpenseService.ThreePairQuery | src/Services/ExpenseService.ts:45-53 | a third pair adds `&n3=v3` after the first two |
| ExpenseService.MonthYearQuery | src/Services/ExpenseService.ts:45-47 | month and year serialize as `month=M&year=Y`, month first |
| ExpenseService.MonthYearDateToQuery | src/Services/ExpenseService.ts:45-53 | with a date bound the query is `month=M&year=Y&dateTo=` and the serialized date |
| ExpenseService.DashboardUrlWithoutDateTo | src/Services/ExpenseService.ts:45-54 | the dashboard path, `?` and the month and year pairs make `path?month=M&year=Y` |
| ExpenseService.DashboardUrlWithDateTo | src/Services/ExpenseService.ts:45-54 | with a date bound appended after year, the URL is `path?month=M&year=Y&dateTo=` and the serialized date |
| ExpenseService.GetDashboardDataUrl | src/Services/ExpenseService.ts:40-57 | the URL is always the dashboard path, then `?month=M&year=Y`; `&dateTo=` and the serialized date follow exactly when `dateTo` is a non-empty string, and nothing follows otherwise |
| Helpers.ColorParameter | src/Utilis/Helpers.ts:7 | every sample point `i / count` lies in [0, 1), and it is 0 exactly for the first colour |
| Helpers.ColorParametersIncrease | src/Utilis/Helpers.ts:6-7 | later colours are sampled at strictly larger points, so no two colours share a sample point |
| Helpers.ColorScale | src/Utilis/Helpers.ts:4-10 | the scale has `count` colours, and none when `count` is not positive |
| Helpers.GenerateColorScale | src/Utilis/Helpers.ts:4-10 | the loop returns exactly the scale: one colour per index, the `i`-th interpolated at `i / count`, in increasing order |
| Helpers.ColorScaleElements | src/Utilis/Helpers.ts:6-7 | for every index of the scale, colour `i` is the scheme at `i / count` and the first colour is the scheme at 0; a count of 1 gives exactly that one colour |

## Left out

- HTTP requests, response handling and the API client: they are network I/O. The model stops at the URL each service call would request. `createExpense`, `updateExpense` and `deleteExpense` are not modelled, since they build no query string.
- `src/Configs/Api.ts` is not part of this model. The two endpoint paths the service reads from it, `API_ENDPOINTS.EXPENSES.BASE` and `API_ENDPOINTS.EXPENSES.DASHBOARD`, are a parameter (`ExpenseService.Endpoints`).
- react-query caching, refetching and query invalidation (the `invalidateQueries` calls in the handlers): this state is managed by the library.
- `new Date(text)` parsing and time zones: parsing is a parameter `parse`, where `None` stands for an Invalid Date. Its result is a local calendar date with a time of day, compared in that order.
- The current month and year, taken from the clock: they are parameters.
- ExpensePage.CurrentMonthTotal: amounts are integers in the smallest currency unit. JavaScript's floating-point addition, with its rounding, is not modelled.
- Text.ToLower, Text.LowerChar: only ASCII `A`-`Z` are lower-cased. JavaScript's `toLowerCase` also folds non-ASCII letters, and a few of them change length.
- FormUrlEncoding.Utf8: characters are Unicode scalar values. JavaScript's lone UTF-16 surrogates, which `URLSearchParams` replaces with U+FFFD, are not modelled.
- FormUrlEncoding.NumberToString: only integers are modelled. No caller of `getDashboardData` is part of this model, so the model assumes month and year are integers; fractional values, and the exponent form JavaScript uses from 1e21 up, are left out.
- ExpenseService.SearchParams.Append: only the three parameter names the service uses (`month`, `year`, `dateTo`) can be appended.
- Helpers.GenerateColorScale: `count` is an integer. A fractional `count`, which the JavaScript loop would round up, is not modelled. `i / count` is exact real division, not a binary float. The colour interpolator (`d3.interpolateRainbow`) is a parameter.
- `formatCurrency` and the pie-chart percentage label: locale-dependent and floating-point formatting.
- `handleDelete` with its `window.confirm` prompt, `handleEdit`, `handleFormClose` and the rendered JSX: these are user interface.
- ExpensePage.PrepareMasterDataByObject, ExpensePage.ExpensesPageState.OnMasterDataChange: the index is modelled as a map. The id `__proto__`, which a plain JavaScript object does not store as a key (the assignment goes to the inherited `__proto__` setter), is not modelled.
- Master-data records whose `_id` or `title` is missing are not modelled: the model's records always carry both fields. The code stores such a record as it comes, under the key the missing id converts to.
- Expenses whose `description`, `type` or `date` is missing are not modelled: the model's `Expense` always carries strings. In the code, an expense without a `description` makes `toLowerCase` throw while a description filter is active.
- The upper date bound `dateTo` is applied by the server, not by the client-side filter. The page only keeps it as state and sends it as a query parameter.
