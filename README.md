# Aged-receivables dashboard: a Dafny model of its logic

This project models the parts of the accounts-receivable aging dashboard
that hold logic rather than rendering:

- **The dashboard's UI state** (`dashboardSlice.ts`). A Redux slice holds
  the sort field, the sort direction and the filter selections. It has four
  reducers: `setSort`, `setSortDirection`, `setFilter` and
  `resetDashboardState`. Module `DashboardSlice` states each reducer as a
  function from the old state to the new one. The class
  `DashboardSlice.Dashboard` updates the same three fields in place, as the
  reducers do on their draft state. Its invariant `Valid()` holds that no
  stored filter is empty.
- **The 46–90-day escalation bucket** (`EscalationPage.tsx`). It covers
  the `M/D/Y` due-date parser and the whole-day age of an invoice. It also
  covers the inclusive 46–90 filter, the count and the two balance sums
  (which treat non-finite balances as 0), and the two percentages with
  their zero-denominator guards. This is module `EscalationPage`.
- **The report endpoint** (`accountingApi.ts`). It covers the request's
  search parameters and `transformResponse`: the first three rows are
  dropped, the customer name is cut at the first colon and trimmed, the due
  date is copied, and the balance text loses its commas before it is
  parsed. This is module `AccountingApi`.
- **The stage pill** (`StageTag.tsx`). The stage key is the stage with its
  white space removed, lower-cased. The key selects a colour from a fixed
  table, with gray for unknown keys, and the pill shows the raw stage. This
  is module `StageTag`.

Module `JsStrings` models the JavaScript string operations these use:
`trim`, `split`, `replace` with a one-character pattern or `/\s+/g`,
`toLowerCase`, and `parseInt(s, 10)`. Its white-space class is
ECMAScript's: the characters `\s` matches and `trim` removes. Module
`Wrappers` holds `Option` and `Result`.

Some inputs come from outside the code, so they are parameters:

- The current time is `todayMs`, in whole milliseconds since the epoch.
- The `Date` constructor is `timeOf`. It maps a parsed due date to an
  instant, or to `None` for an invalid date.
- `parseFloat` is the parameter of `AccountingApi.TransformResponse`.

The code takes a due date's year exactly as written: there is no "+2000"
rule for two-digit years (`EscalationPage.ParseDueDateMdy`). The page has
one fixed 46–90 filter. The modelled files have no configurable bucket
scheme, no four-bucket classifier and no record update path.

## Model

| member | source | states |
|---|---|---|
| `DashboardSlice.Flip` | src/features/dashboard/dashboardSlice.ts:63-64 | the toggled direction always differs from the old one |
| `DashboardSlice.SetSort` | src/features/dashboard/dashboardSlice.ts:61-69 | the field becomes the payload; on the same field the direction flips, otherwise it becomes `asc`; filters are untouched |
| `DashboardSlice.SetSortDirection` | src/features/dashboard/dashboardSlice.ts:72-74 | the direction becomes the payload; field and filters are untouched |
| `DashboardSlice.SetFilter` | src/features/dashboard/dashboardSlice.ts:80-97 | `undefined`, `[]` or `''` removes the id; any other value (0 and non-empty lists included) is stored under it, for every id other than `__proto__` (see Left out); every other id keeps its presence and value; sort fields untouched |
| `DashboardSlice.ResetDashboardState` | src/features/dashboard/dashboardSlice.ts:100-102 | from any state the result is `{sortField: '', sortDirection: 'asc', filters: {}}` |
| `DashboardSlice.ReducePreservesNoEmptyFilters` | src/features/dashboard/dashboardSlice.ts:50-104 | no reducer stores an empty string or empty list as a filter value |
| `DashboardSlice.ReachableHasNoEmptyFilters` | src/features/dashboard/dashboardSlice.ts:50-104 | by induction over any action sequence, a state without empty filters never acquires one |
| `DashboardSlice.InitialStateReachesNoEmptyFilters` | src/features/dashboard/dashboardSlice.ts:40-44 | no sequence of reducers applied to the initial state leaves an empty filter value |
| `DashboardSlice.SetSortTwice` | src/features/dashboard/dashboardSlice.ts:61-69 | a second sort by the same field flips the direction back: from the active field it restores the state; from another field it ends on that field, `desc` |
| `DashboardSlice.ClearAbsentFilter` | src/features/dashboard/dashboardSlice.ts:93 | removing a filter that is not stored changes nothing |
| `DashboardSlice.Dashboard.constructor` | src/features/dashboard/dashboardSlice.ts:40-44 | the slice starts with no sort, `asc` and no filters, and is valid |
| `DashboardSlice.Dashboard.SetSort` | src/features/dashboard/dashboardSlice.ts:61-69 | in place: flips the direction on the same field, otherwise sets the field and `asc`; filters unchanged; keeps `Valid()`; equals the reducer |
| `DashboardSlice.Dashboard.SetSortDirection` | src/features/dashboard/dashboardSlice.ts:72-74 | in place: only the direction changes; keeps `Valid()` |
| `DashboardSlice.Dashboard.SetFilter` | src/features/dashboard/dashboardSlice.ts:87-96 | in place: deletes the key for an empty payload, stores the value otherwise (the id `__proto__` as under `DashboardSlice.SetFilter`); sort untouched; keeps `Valid()` |
| `DashboardSlice.Dashboard.ResetDashboardState` | src/features/dashboard/dashboardSlice.ts:100-102 | in place: all three fields return to the initial state |
| `DashboardSlice.Reduce` | src/features/dashboard/dashboardSlice.ts:50-104 | the slice reducer: each action goes to the reducer it names; its contract is carried by `Dashboard.Dispatch` and `ReducePreservesNoEmptyFilters` |
| `DashboardSlice.Run` | src/features/dashboard/dashboardSlice.ts:121-124 | the state after dispatching a sequence of actions in order; its contract is carried by `ReachableHasNoEmptyFilters` |
| `DashboardSlice.Dashboard.Dispatch` | src/features/dashboard/dashboardSlice.ts:121-124 | dispatching an action to the slice reducer gives the reducer's new state and keeps `Valid()` |
| `EscalationPage.ParseDueDate` | src/pages/EscalationPage.tsx:22-30 | the `M/D/Y` branch is taken exactly when the string has two slashes (three parts); otherwise the whole string goes to generic parsing |
| `EscalationPage.ParseDueDateMdy` | src/pages/EscalationPage.tsx:21-28 | any `M/D/Y` of three digit runs, zero-padded (`03/02/23`) or not, reads back as year Y taken literally (no century added), month index M−1, day D |
| `EscalationPage.ParseDueDateOfPieces` | src/pages/EscalationPage.tsx:23-27 | with three pieces, the year is parsed from the third, the day from the second, and the month index is one less than the number parsed from the first (`NaN` staying `NaN`) |
| `EscalationPage.DaysOverdue` | src/pages/EscalationPage.tsx:31-40 | the result is the floor of the elapsed time in 86,400,000 ms days, and negative exactly when the due date is in the future |
| `EscalationPage.InBucket` | src/pages/EscalationPage.tsx:36-41 | the filter callback: a row is in the bucket exactly when its due date is a valid instant and today is at least 46 and less than 91 whole days of milliseconds after it; `InBucketWindow` relates this to the whole-day test |
| `EscalationPage.InBucketWindow` | src/pages/EscalationPage.tsx:38-41 | the inclusive test 46 ≤ days ≤ 90 is exactly 46 days ≤ elapsed ms < 91 days |
| `EscalationPage.FilterRows46To90` | src/pages/EscalationPage.tsx:34-43 | the kept rows form an order-preserving subsequence of the rows; every row in the bucket is kept as often as it occurs and no other row is kept, so the count is the number of bucket rows, duplicates included |
| `EscalationPage.SumBalances` | src/pages/EscalationPage.tsx:47-50 | both `reduce` folds (also lines 57-60), non-finite balances counting 0: with no negative balance the sum is not negative; `SumBalancesAppend` and `BucketBalanceIsRestrictedSum` relate it to other sums |
| `EscalationPage.SumBalancesAppend` | src/pages/EscalationPage.tsx:47-50 | the balance fold over a concatenation is the sum of the two folds |
| `EscalationPage.SumBalancesCons` | src/pages/EscalationPage.tsx:57-60 | the fold over a row followed by rows adds that row's finite-or-zero balance |
| `EscalationPage.BucketBalanceIsRestrictedSum` | src/pages/EscalationPage.tsx:47-50 | the bucket balance equals the full balance sum restricted to the bucket's rows, non-finite balances counting 0 |
| `EscalationPage.RestrictedSumBounds` | src/pages/EscalationPage.tsx:47-60 | with no negative balance, the bucket balance lies between 0 and the outstanding balance |
| `EscalationPage.PercentOfInvoices` | src/pages/EscalationPage.tsx:67-68 | 0 with no invoices; otherwise pct × total = count × 100; within [0, 100] when count ≤ total |
| `EscalationPage.PercentOfBalance` | src/pages/EscalationPage.tsx:71-72 | 0 unless the outstanding balance is positive, so nothing zero or negative is divided by; pct × total = bucket × 100; within [0, 100] when 0 ≤ bucket ≤ total |
| `EscalationPage.EscalationMetrics` | src/pages/EscalationPage.tsx:44-72 | count = number of filtered rows ≤ total = number of rows; bucket balance = restricted sum; outstanding = full sum; both percentages are the guarded quotients of those values, the invoice one in [0, 100], the balance one in [0, 100] when no balance is negative; all zero for no rows |
| `AccountingApi.QueryParams` | src/services/accountingApi.ts:33-38 | `report_date`, `start_due_date`, `end_due_date` always, in that order; `columns` present exactly when supplied and non-empty |
| `AccountingApi.RowList` | src/services/accountingApi.ts:49 | a payload without `Rows` or without `Row` gives no rows |
| `AccountingApi.NormalizeCustomer` | src/services/accountingApi.ts:50-54 | the name never contains `:` and has no leading or trailing white space; without a colon it is the trimmed raw text |
| `AccountingApi.NormalizeCustomerBeforeColon` | src/services/accountingApi.ts:51-52 | with a colon, the name is the text before the first colon, trimmed |
| `AccountingApi.NormalizeCustomerIdempotent` | src/services/accountingApi.ts:50-54 | a normalised name normalises to itself |
| `AccountingApi.StripCommas` | src/services/accountingApi.ts:56-58 | the result has no comma and is shorter by exactly the number of commas |
| `AccountingApi.TransformRow` | src/services/accountingApi.ts:49-59 | the customer is the normalised first cell (before the first colon, trimmed, so without a colon), the due date is the second cell unchanged, and the balance is `parseFloat` of the third cell without its commas |
| `AccountingApi.FirstMissingCell` | src/services/accountingApi.ts:49-50 | the first row lacking a cell, at which the mapping throws |
| `AccountingApi.TransformResponse` | src/services/accountingApi.ts:47-61 | three or fewer rows give none; otherwise it succeeds iff every row after the third has three cells, yielding n − 3 entries, entry i from row i + 3 in order; a failure names the first row past the third that lacks a cell |
| `JsStrings.Trim` | src/services/accountingApi.ts:52-53 | the result neither starts nor ends with white space, and a string already so is unchanged |
| `JsStrings.TrimCutsOnlyWhitespace` | src/services/accountingApi.ts:52-53 | the result is a contiguous piece of the input with only white space cut off before and after it |
| `JsStrings.TrimAbsent` | src/services/accountingApi.ts:52-53 | trimming adds no character |
| `JsStrings.Split` | src/pages/EscalationPage.tsx:23 | the number of pieces is the number of separators plus one, and no piece contains the separator |
| `JsStrings.SplitFirst` | src/services/accountingApi.ts:52 | the first piece is the text before the first separator, or the whole string |
| `JsStrings.JoinSplit` | src/pages/EscalationPage.tsx:23 | joining the pieces with the separator gives back the string |
| `JsStrings.SplitAfterPiece` | src/pages/EscalationPage.tsx:23-24 | a separator-free piece followed by a separator splits off as the first piece |
| `JsStrings.RemoveAll` | src/services/accountingApi.ts:57 | deleting every `,` leaves none and removes exactly the commas counted |
| `JsStrings.RemoveAllAppend` | src/services/accountingApi.ts:57 | deletion distributes over concatenation, so every other character keeps its order |
| `JsStrings.RemoveAllAbsent` | src/services/accountingApi.ts:57 | a string without commas is unchanged |
| `JsStrings.RemoveAllIdempotent` | src/services/accountingApi.ts:57 | stripping commas twice is stripping once |
| `JsStrings.RemoveWhitespace` | src/features/dashboard/components/StageTag.tsx:47 | the result contains no white space and is no longer than the input |
| `JsStrings.RemoveWhitespaceAbsent` | src/features/dashboard/components/StageTag.tsx:47 | a string without white space is unchanged |
| `JsStrings.RemoveWhitespaceOfSpace` | src/features/dashboard/components/StageTag.tsx:47 | a single white-space character is deleted; with the two lemmas around it this pins the removal character by character |
| `JsStrings.RemoveWhitespaceAppend` | src/features/dashboard/components/StageTag.tsx:47 | white-space removal distributes over concatenation |
| `JsStrings.ToLowerCase` | src/features/dashboard/components/StageTag.tsx:47 | same length, each character lower-cased in place |
| `JsStrings.ToLowerCaseAppend` | src/features/dashboard/components/StageTag.tsx:47 | lower-casing distributes over concatenation |
| `JsStrings.ParseInt` | src/pages/EscalationPage.tsx:25 | `parseInt(p, 10)`: leading white space, an optional sign, then the longest digit run, `NaN` without digits; its contract is carried by `ParseIntDigits` |
| `JsStrings.ParseIntDigits` | src/pages/EscalationPage.tsx:25 | `parseInt(s, 10)` of a non-empty run of digits, leading zeros included, is the number the digits denote |
| `StageTag.StageKey` | src/features/dashboard/components/StageTag.tsx:47 | the key contains no white space and no upper-case letter, and is no longer than the stage |
| `StageTag.StageKeyOfKey` | src/features/dashboard/components/StageTag.tsx:47 | a string without white space or capitals is its own key |
| `StageTag.StageKeyIdempotent` | src/features/dashboard/components/StageTag.tsx:47 | normalising a key again returns it unchanged |
| `StageTag.StageKeyIgnoresWhitespace` | src/features/dashboard/components/StageTag.tsx:47 | inserting white space anywhere does not change the key |
| `StageTag.StageKeyIgnoresCase` | src/features/dashboard/components/StageTag.tsx:47 | changing a capital to lower case anywhere does not change the key |
| `StageTag.ColorFor` | src/features/dashboard/components/StageTag.tsx:8-29 | a listed key (`new`, `pending`, `inprogress`, `completed`, `escalated`) gets its table colour; any other gets `bg-gray-100`/`text-gray-800` |
| `StageTag.FallbackOnlyForUnknown` | src/features/dashboard/components/StageTag.tsx:48-51 | the colour is gray exactly when the key is not in the table |
| `StageTag.StagesWithTheSameKey` | src/features/dashboard/components/StageTag.tsx:47-48 | stages with the same key, e.g. differing only in case or white space, get the same colour |
| `StageTag.LookupAsWritten` | src/features/dashboard/components/StageTag.tsx:48 | indexing the table object finds an own entry, holding the key's table colour, exactly for listed keys, and an inherited member exactly for `Object.prototype` names not listed |
| `StageTag.ColorClassesAsWritten` | src/features/dashboard/components/StageTag.tsx:48-60 | as written: a listed key gets its table colour's two classes, an unlisted key that names no inherited member gets gray, and a key naming an inherited member gets no colour class at all (and only such a key does) |
| `StageTag.ColorClasses` | src/features/dashboard/components/StageTag.tsx:42-51 | as documented: always two colour classes, the table colour's for a listed key and gray for any key the table does not list |
| `StageTag.ConstructorStageLosesFallback` | src/features/dashboard/components/StageTag.tsx:48-51 | a stage with key `constructor` gets no colour as written, where gray was meant |
| `StageTag.ConstructorIsAKey` | src/features/dashboard/components/StageTag.tsx:47 | the stage `constructor` has key `constructor` |
| `StageTag.InheritedMemberNames` | src/features/dashboard/components/StageTag.tsx:48 | of the inherited names, only `constructor` and `__proto__` have no capital |
| `StageTag.AsWrittenDiffersOnlyOnInheritedKeys` | src/features/dashboard/components/StageTag.tsx:47-51 | for every key other than `constructor` and `__proto__`, the written colours equal the documented ones |
| `StageTag.RenderStageTag` | src/features/dashboard/components/StageTag.tsx:42-64 | as documented: the pill shows the raw, un-normalised stage, its first class is the base style and its second and third classes are the stage's colour, gray for an unlisted stage |
| `StageTag.RenderStageTagAsWritten` | src/features/dashboard/components/StageTag.tsx:46-64 | as written: the pill shows the raw stage after the base style; for a stage with key `constructor` or `__proto__` it carries no colour class, and for every key except `constructor` and `__proto__` it is the documented pill |

## Findings

| source | as written | input that shows it | evidently intended | confidence | as-written member | corrected member |
|---|---|---|---|---|---|---|
| src/features/dashboard/components/StageTag.tsx:48-51 | `STAGE_COLORS[key] ?? {gray}` indexes a plain object, so keys naming `Object.prototype` members find a non-nullish inherited value, and `??` does not fall back | stage `constructor` (or `Constructor`, `__proto__`): the pill gets no colour class | every stage not in the table is gray, as the component's comment says (line 44) | medium, not executed | `StageTag.ColorClassesAsWritten`, `StageTag.RenderStageTagAsWritten` (`StageTag.ConstructorStageLosesFallback`) | `StageTag.ColorClasses`, `StageTag.RenderStageTag` (`StageTag.ColorFor`) |

## Left out

- Rendering is left out: the JSX, `React.memo`, the ag-Grid table and the metric cards. So is number and currency formatting (`toLocaleString`, `toFixed`).
- The page's fixed query arguments (realm id and dates) and its loading and error screens are left out. The page passes them to the endpoint without computing anything from them.
- The request URL (`/v3/company/${realmId}/...`) is left out. So are its form-URL encoding, `createApi`/`fetchBaseQuery`, caching and the loading/error states. The model keeps the parameter list only.
- JavaScript `Date` semantics are outside the model: local time, daylight saving, month/day overflow in `new Date(y, m - 1, d)`, and `Date.parse` for non-`M/D/Y` strings. They are the `timeOf` parameter. In particular, the `Date` constructor maps years 0–99 to 1900–1999. This model does not capture that, so a two-digit year is passed on as written.
- The clock (`new Date()`) is the `todayMs` parameter.
- Floating point is left out. Balances and percentages are exact reals. `parseFloat` is a parameter, and `NaN`/`Infinity` are one `NonFinite` case.
- Row cells hold text. A cell value of another JSON type (which `includes` would reject) is not modelled.
- JsStrings.ToLowerCase: lower-cases only the ASCII letters `A`–`Z`, because full Unicode case mapping is outside the model.
- JsStrings.ParseInt: integers are unbounded. JavaScript's loss of precision above 2^53 is not modelled.
- DashboardSlice.SetFilter: a number filter value is a real, and `NaN` as a filter value is not modelled. Filter ids are map keys, so every id is an ordinary key. The id `__proto__` is not modelled: on the source's plain object (src/features/dashboard/dashboardSlice.ts:33, written at line 95) it reaches the setter inherited from `Object.prototype`, which stores no string or number and throws for a non-empty list; the model stores the value like any other. No caller uses that id.
- DashboardSlice.Dashboard.SetFilter: the same `__proto__` gap as `DashboardSlice.SetFilter`.
- The selectors (`selectDashboardState`, …) are plain field projections, and the store wiring is not modelled.
- StageTag.RenderStageTag: renders the documented gray colour for the keys `constructor` and `__proto__`, where the component as written shows no colour. `StageTag.RenderStageTagAsWritten` models the component as written.
- StageTag.RenderStageTagAsWritten and StageTag.RenderStageTag: the caller's `className` is modelled as a plain string, which is dropped when empty. Other falsy values that `clsx` also drops are not modelled.
