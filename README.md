# Onboarding wizard and portfolio dashboard, modelled in Dafny

This project models the logic of two pages of the client-reporting web application.

**Client onboarding wizard** (`app/onboarding/page.tsx`):
- A pipeline-export CSV is uploaded.
- The wizard finds the column whose trimmed, lower-cased header is `stage` and collects that column's distinct stage names in first-seen order.
- It shows one mapping row per stage. Each row can be assigned one of twelve standard pipeline categories.
- On submit, the stage names are grouped by category. The wizard builds the flat record that is sent on: four account and calendar identifiers plus one `map_*` field per category.

**Monitoring dashboard** (`Dashboard/app/page.tsx`):
- It loads the client list and normalises the several response shapes the endpoint may produce. It falls back to a single mock client.
- Each client's statistics slot is filled, or marked as failed, as the per-client fetches settle.
- The portfolio summary is recomputed from the whole list: total clients, clients with alerts, and the average cost per lead, booking rate and show-up rate.
- Each client's show-up figure is rendered as a `shows/appointments` label.

Files:
- `wrappers.dfy`: `Option` and `Result`.
- `text.dfy` (module `Text`): the JavaScript string operations the pages rely on:
  - `trim` with ECMAScript white space;
  - `toLowerCase`, for A-Z only;
  - `endsWith`;
  - `Array.prototype.join`;
  - the decimal rendering of integers in a template literal.
- `onboarding.dfy` (module `Onboarding`): the onboarding model. It has pure functions for stage-column discovery, stage extraction, category assignment and the payload, and the methods `CollectStages` and `GroupByCategory` for the two loops the page runs. Its class `Wizard` holds the page's state: step, error line, mapping table and identifiers.
- `dashboard.dfy` (module `Dashboard`): the dashboard model. It has the metrics as functions over the client list, the slot updates and the list normalisation. Its class `DashboardState` has the invariant that the metrics always equal the recomputation from the current list, which is what the `useEffect` on `clients` maintains.

Three behaviours of the code that the model keeps:
- The stage column is the first header that reads `stage` once lower-cased and trimmed; no other header name is accepted.
- The average show-up rate leaves out settled clients whose rate is 0, including clients with zero show-ups. The model keeps that exclusion and proves it (`Dashboard.ZeroShowUpRateIgnored`).
- An object response whose `clients` field is an empty array does not fall through to `data` or `items`, because an empty array is truthy in JavaScript. The model keeps this too (`Dashboard.EmptyClientsFieldShadowsData`).

## Model

| member | source | states |
|---|---|---|
| `Text.Trim` | app/onboarding/page.tsx:68 | `trim` never lengthens its input, and the result neither starts nor ends with white space |
| `Text.TrimIsSlice` | app/onboarding/page.tsx:68 | `trim` returns a contiguous slice of its input; only white space is cut on either side |
| `Text.Lower` | app/onboarding/page.tsx:68 | lower-casing keeps the length, turns each capital A-Z into the small letter at the same alphabet position, leaves no capital A-Z, and keeps every other character |
| `Text.EndsWithIsSuffix` | app/onboarding/page.tsx:113 | `endsWith` holds exactly when the string is some prefix followed by the suffix |
| `Text.TrimIdempotent` | app/onboarding/page.tsx:79-81 | trimming a trimmed value changes nothing, so a stage name, once trimmed, is stored as is |
| `Text.JoinEmptyIff` | app/onboarding/page.tsx:167-178 | a join with `", "` is empty exactly when there is no item or a single empty item |
| `Text.JoinSnoc` | app/onboarding/page.tsx:72 | joining one more header appends the separator and that header |
| `Text.NatToString` | Dashboard/app/page.tsx:522-524 | a count is rendered as a non-empty string of digits with no leading zero; zero is exactly `0` |
| `Text.NatToStringRoundTrip` | Dashboard/app/page.tsx:522-524 | reading the rendered digits back yields the original count |
| `Onboarding.ErrorMessageIdentifiesError` | app/onboarding/page.tsx:54-87 | equal messages mean the same kind of extraction error; a parse failure's message gives back the parser's message, and an empty column's message gives back the column name |
| `Onboarding.AcceptsFileNameByExtension` | app/onboarding/page.tsx:113-116 | a file name is accepted exactly when it has at least four characters and its last four, lower-cased, are `.csv` |
| `Onboarding.FirstStageIndex` | app/onboarding/page.tsx:67-69 | the position found is the first header whose lower-cased, trimmed form is `stage`; no earlier header qualifies |
| `Onboarding.StageHeaderIgnoresCaseAndSpaces` | app/onboarding/page.tsx:68 | the header ` STAGE ` qualifies: case and surrounding white space do not matter |
| `Onboarding.StageColumn` | app/onboarding/page.tsx:64-74 | no column is found exactly when no header of the first row qualifies; otherwise the column is the first qualifying header |
| `Onboarding.CellStage` | app/onboarding/page.tsx:77-81 | a row contributes a stage exactly when it has the cell and the cell's trimmed value is non-empty; the stage is that trimmed value, itself non-empty and trimmed |
| `Onboarding.FirstSeenExact` | app/onboarding/page.tsx:76-85 | every collected stage came from some row, and every row's contribution is collected |
| `Onboarding.FirstSeenDistinct` | app/onboarding/page.tsx:76-85 | the insertion-ordered set holds no stage twice |
| `Onboarding.FirstSeenOrder` | app/onboarding/page.tsx:76-85 | a stage listed before another first occurs at an earlier row |
| `Onboarding.FirstSeenEmptyIff` | app/onboarding/page.tsx:76-85 | the insertion-ordered set stays empty exactly when no cell holds a value |
| `Onboarding.UniqueStages` | app/onboarding/page.tsx:76-85 | the extracted stages are pairwise distinct, non-empty and trimmed |
| `Onboarding.UniqueStagesEmptyIff` | app/onboarding/page.tsx:76-85 | no stage is extracted exactly when no row contributes one |
| `Onboarding.UniqueStagesExact` | app/onboarding/page.tsx:76-85 | a stage is extracted exactly when some row contributes it |
| `Onboarding.UniqueStagesFirstSeenOrder` | app/onboarding/page.tsx:76-85 | the stages are listed in the order of their first occurrence in the rows |
| `Onboarding.CollectStages` | app/onboarding/page.tsx:76-85 | the loop over rows with its `Set` yields exactly the stages in first-seen order, without repeats |
| `Onboarding.ExtractStages` | app/onboarding/page.tsx:46-99 | the checks fail in source order, each error exactly in its own case: parser errors first (with the first error), then no data rows, then no stage column (exactly when no header qualifies), then no stages (exactly when a column is found and no row contributes a stage); it succeeds exactly when there are no errors, there are rows, a column is found and some row contributes, and then the stages are the first-seen stages and not empty |
| `Onboarding.FreshMappings` | app/onboarding/page.tsx:91-96 | one mapping per stage, in the same order, each with stage name equal to the stage and category `''` |
| `Onboarding.StageNames` | app/onboarding/page.tsx:25-28 | the stage names of the mapping table, position by position |
| `Onboarding.ExtractedMappingsWellFormed` | app/onboarding/page.tsx:76-96 | a freshly extracted table is non-empty, has distinct, non-empty, trimmed stage names, and every category is `''` |
| `Onboarding.WithCategory` | app/onboarding/page.tsx:139-143 | the length and every stage name are kept, the chosen row gets the category, every other row is unchanged |
| `Onboarding.WithCategoryKeepsWellFormed` | app/onboarding/page.tsx:139-143 | choosing `''` or one of the twelve categories, the only values the selector offers, keeps the table well-formed: names distinct, non-empty and trimmed, and every category `''` or standard |
| `Onboarding.BucketMembers` | app/onboarding/page.tsx:151-158 | a stage name is in a category's bucket exactly when some mapping with that name has that category |
| `Onboarding.BucketConcat` | app/onboarding/page.tsx:151-158 | buckets are filled in mapping order: the bucket of a concatenation is the concatenation of the buckets |
| `Onboarding.BucketEmptyWhenUnused` | app/onboarding/page.tsx:151-158 | a category no mapping has gets an empty bucket |
| `Onboarding.StageInItsBucketOnly` | app/onboarding/page.tsx:151-158 | with distinct stage names, a stage is in a category's bucket exactly when it is mapped to that category, so it lands in one bucket only |
| `Onboarding.BucketDependsOnlyOnMembers` | app/onboarding/page.tsx:151-158 | a bucket depends only on the stage names and on which mappings carry that category |
| `Onboarding.GroupingUnique` | app/onboarding/page.tsx:151-158 | any dictionary with the grouping's defining property is the grouping: unassigned mappings have no bucket, each used category has its bucket, nothing else is present |
| `Onboarding.GroupByCategory` | app/onboarding/page.tsx:151-158 | the push loop builds a dictionary keyed by exactly the used non-empty categories, each holding that category's stage names in mapping order, none of them empty |
| `Onboarding.GroupedFieldValue` | app/onboarding/page.tsx:167-178 | a category's field reads its bucket joined with `", "`, and `''` when the category is unused |
| `Onboarding.PayloadKeys` | app/onboarding/page.tsx:160-179 | the payload has exactly the four identifier fields and the twelve `map_*` fields |
| `Onboarding.PayloadIdentifiers` | app/onboarding/page.tsx:162-165 | the four identifier fields are copied verbatim |
| `Onboarding.PayloadCategoryField` | app/onboarding/page.tsx:167-178 | the i-th `map_*` field is read from the group of the i-th standard category |
| `Onboarding.PayloadCategoryFields` | app/onboarding/page.tsx:151-178 | every `map_*` field of the submitted payload is that category's bucket joined with `", "` |
| `Onboarding.FieldKeysOfCategoriesOneToThree` | app/onboarding/page.tsx:167-169 | the field names of the first three categories are `map_` plus the category lower-cased with spaces as underscores |
| `Onboarding.FieldKeysOfCategoriesFourToSix` | app/onboarding/page.tsx:170-172 | the same naming rule for the fourth to sixth categories |
| `Onboarding.FieldKeysOfCategoriesSevenToNine` | app/onboarding/page.tsx:173-175 | the same naming rule for the seventh to ninth categories |
| `Onboarding.FieldKeysOfCategoriesTenToTwelve` | app/onboarding/page.tsx:176-178 | the same naming rule for the last three categories |
| `Onboarding.CategoryFieldsFollowNamingRule` | app/onboarding/page.tsx:167-178 | every one of the twelve field names is `map_` plus its category lower-cased with spaces as underscores |
| `Onboarding.StageInOneStandardBucket` | app/onboarding/page.tsx:151-158 | in a well-formed table an assigned stage's category is one of the twelve, and the stage is in that category's bucket and in no other standard category's; an unassigned stage is in none of them |
| `Onboarding.MappingExample` | app/onboarding/page.tsx:151-178 | stages A and B mapped to Won give `map_won` = `"A, B"` |
| `Onboarding.UnassignedExample` | app/onboarding/page.tsx:153 | the unassigned stage C of the same table is in no category's bucket |
| `Onboarding.Wizard.constructor` | app/onboarding/page.tsx:31-44 | the wizard starts at step 1 with no error, no mappings and empty identifiers |
| `Onboarding.Wizard.SetIdentifiers` | app/onboarding/page.tsx:36-39 | the identifier inputs replace the identifiers and nothing else |
| `Onboarding.Wizard.HandleFileUpload` | app/onboarding/page.tsx:109-118 | no file changes nothing; a name not ending in `.csv` in any case sets the upload error; otherwise the error is cleared |
| `Onboarding.Wizard.ProcessCsvData` | app/onboarding/page.tsx:46-99 | it succeeds exactly when extraction succeeds; on success it installs the fresh mappings, clears the error and moves to step 2; on failure it shows that failure's message and keeps the step and the table |
| `Onboarding.Wizard.HandleCsvSubmit` | app/onboarding/page.tsx:131-137 | blank CSV text is refused with its message and nothing else changes; otherwise it processes the CSV as above |
| `Onboarding.Wizard.UpdateStageMapping` | app/onboarding/page.tsx:139-143 | for `''` or a standard category, the table becomes the old table with only the chosen row's category replaced, and stays well-formed |
| `Onboarding.Wizard.Back` | app/onboarding/page.tsx:420-424 | back to step 1 with the error cleared; the table is kept |
| `Onboarding.Wizard.HandleSubmit` | app/onboarding/page.tsx:145-179 | clears the error and returns exactly the payload built from the identifiers and the grouping of the current table |
| `Onboarding.Wizard.SubmissionFailed` | app/onboarding/page.tsx:207-211 | a failed submission shows `Errore nell'invio: ` followed by the detail |
| `Dashboard.Settled` | Dashboard/app/page.tsx:224 | the settled clients are exactly the listed clients that have statistics and are not loading, each as many times as it is listed, and there are no more of them than clients |
| `Dashboard.RecalculatePortfolioMetrics` | Dashboard/app/page.tsx:223-268 | the total is always the list length; with no settled client every other metric is 0; clients with alerts never exceed the settled clients, which never exceed the total |
| `Dashboard.CountWithAlerts` | Dashboard/app/page.tsx:238 | the alert count is at most the number of clients counted |
| `Dashboard.CountWithAlertsZeroIff` | Dashboard/app/page.tsx:238 | the alert count is 0 exactly when no counted client reports an alert |
| `Dashboard.ShowUpRate` | Dashboard/app/page.tsx:251-254 | 0 without appointments; positive exactly when there were appointments and show-ups; within [0, 100] when show-ups do not exceed appointments |
| `Dashboard.MetricsAreMeans` | Dashboard/app/page.tsx:237-259 | the alert count is over settled clients; the three averages are the means of the settled cost per lead, of the non-null booking rates and of the positive show-up rates, each 0 over no values |
| `Dashboard.SumBounds` | Dashboard/app/page.tsx:240-258 | a sum of n values in [lo, hi] lies in [n*lo, n*hi] |
| `Dashboard.MeanBounds` | Dashboard/app/page.tsx:240-258 | a mean of values in [lo, hi] lies in [lo, hi] |
| `Dashboard.ShowUpRatesBounded` | Dashboard/app/page.tsx:250-256 | every averaged show-up rate is positive, and at most 100 when no client has more show-ups than appointments |
| `Dashboard.AvgShowUpRateIsPercentage` | Dashboard/app/page.tsx:250-259 | when no client has more show-ups than appointments, the average show-up rate lies in [0, 100] |
| `Dashboard.BookingRatesBounded` | Dashboard/app/page.tsx:243-245 | booking rates within [0, 100] stay within [0, 100] once nulls are dropped |
| `Dashboard.AvgBookingRateIsPercentage` | Dashboard/app/page.tsx:243-248 | booking rates within [0, 100] average to a value within [0, 100] |
| `Dashboard.UnsettledClientOnlyCounted` | Dashboard/app/page.tsx:224-237 | a loading client, or one without statistics, raises the total by one and changes no other metric |
| `Dashboard.NullBookingRateIgnored` | Dashboard/app/page.tsx:243-248 | a settled client with a null booking rate leaves the average booking rate unchanged: it is left out, not counted as 0 |
| `Dashboard.ZeroShowUpRateIgnored` | Dashboard/app/page.tsx:250-259 | a settled client with zero show-ups leaves the average show-up rate unchanged: its zero rate is filtered out |
| `Dashboard.AvgCplExample` | Dashboard/app/page.tsx:240-241 | two settled clients with cost per lead 10 and 20 average 15 |
| `Dashboard.AvgBookingRateExample` | Dashboard/app/page.tsx:243-248 | settled clients with booking rates null and 50 average 50 |
| `Dashboard.WithStats` | Dashboard/app/page.tsx:185-191 | the list keeps its length; every entry with the id gets the statistics and stops loading; every other entry is unchanged |
| `Dashboard.WithLoadFailed` | Dashboard/app/page.tsx:197-203 | the list keeps its length; every entry with the id stops loading with its statistics untouched; every other entry is unchanged |
| `Dashboard.StatsArrivalsCommute` | Dashboard/app/page.tsx:185-191 | statistics for two different clients can be applied in either order with the same list |
| `Dashboard.StatsArrivalIdempotent` | Dashboard/app/page.tsx:185-191 | applying the same statistics twice equals applying them once |
| `Dashboard.FailedFetchKeepsSettled` | Dashboard/app/page.tsx:197-203 | a failed fetch for a client that never had statistics settles nobody |
| `Dashboard.SettledAgree` | Dashboard/app/page.tsx:224 | lists that agree wherever either holds a settled client have the same settled clients |
| `Dashboard.FailedFetchKeepsMetrics` | Dashboard/app/page.tsx:197-203 | such a failed fetch leaves every portfolio metric unchanged |
| `Dashboard.ArrivedClientSettled` | Dashboard/app/page.tsx:185-191 | after its statistics arrive a listed client is settled with exactly those statistics |
| `Dashboard.NormaliseClientList` | Dashboard/app/page.tsx:96-107 | an array is used as is; an object yields `clients` when present, else `data`, else `items`; when the chosen array is empty or all three are absent, the result is the object itself if it has a client name and nothing otherwise; any other body yields nothing |
| `Dashboard.EmptyClientsFieldShadowsData` | Dashboard/app/page.tsx:100-106 | an empty `clients` array hides a non-empty `data` array: only the object itself can still be listed |
| `Dashboard.Loading` | Dashboard/app/page.tsx:117-120 | every listed client enters the list loading and without statistics, in list order |
| `Dashboard.ClientsFromResponse` | Dashboard/app/page.tsx:76-150 | the installed list is never empty and every entry is loading without statistics; a usable list is installed as listed; a failed fetch or an empty list gives exactly the mock client |
| `Dashboard.ShowUpLabelZeroIff` | Dashboard/app/page.tsx:713-715 | the label reads `0/0` exactly when the client has no statistics or no appointments |
| `Dashboard.ShowUpLabelReadsBack` | Dashboard/app/page.tsx:522-524 | with appointments, the label is the two counts in decimal around `/`, and both read back to the counts |
| `Dashboard.DashboardState.constructor` | Dashboard/app/page.tsx:57-66 | the page starts with no clients, loading, no selection and all-zero metrics, which equal the metrics of the empty list |
| `Dashboard.DashboardState.ReceiveClientList` | Dashboard/app/page.tsx:76-161 | installs the list from the response, selects its first client, stops loading, and the metrics are those of the new list |
| `Dashboard.DashboardState.ReceiveStats` | Dashboard/app/page.tsx:185-194 | the list becomes the slot update with the statistics, and the metrics are recomputed from it |
| `Dashboard.DashboardState.StatsFailed` | Dashboard/app/page.tsx:197-203 | the list becomes the failed-fetch update, and the metrics are recomputed from it |

## Left out

- CSV tokenisation by Papa Parse is a foreign library. Its result is an input here: a list of error messages and the data rows, each a list of header names and a map from header to cell text.
- Reading the chosen file (`FileReader`) and its read-error message are not modelled. Neither is the POST to the relay endpoint, its HTTP error detail or the 2-second `setTimeout` reset after a successful submission (app/onboarding/page.tsx:181-206). These are I/O and timers. A failed submission enters as `Wizard.SubmissionFailed` with the detail as a parameter.
- The `catch` around CSV processing (app/onboarding/page.tsx:100-106) is not modelled. It reports exceptions raised inside the parser or the runtime, which the model does not have.
- `Onboarding.Wizard.UpdateStageMapping` requires a category that is `''` or one of the twelve, the only values the selector offers (app/onboarding/page.tsx:399-405) and the field's declared type (line 27). Grouping is modelled as a dictionary without inherited names. In the source a category equal to an inherited property of a plain object (such as `constructor`) would make the push at line 157 throw, and any other unlisted category would be grouped but reach no payload field. Neither case is reachable through the selector, and the model does not describe either.
- `Onboarding.Wizard.UpdateStageMapping` requires an index inside the table. The page only offers indexes of existing rows, and an index outside the table makes the source throw on `updated[index].category`.
- `Onboarding.Wizard.UpdateStageMapping` models the table as a value. The source copies the array but mutates the shared mapping object in place, so the previous table observes the change. No other code reads the previous table.
- The loading and success flags of the wizard, and the text areas and selects that only render state, are not modelled.
- `Text.Lower` lowers only the ASCII letters A-Z, while `toLowerCase` follows full Unicode case mapping. A header or file name whose other characters lower to `stage` or `.csv` is therefore treated differently.
- The API route `app/api/save-client/route.ts`, the redirect in `app/page.tsx` and both layouts are not part of this model. They forward, redirect or hold static metadata.
- The per-client statistics fetch always installs fixed mock statistics in the source. The model takes the arriving statistics as a parameter, and `Dashboard.MockStats` records the fixed values. `generateMockTrendData` depends on `Math.random` and the clock, so the trend series is left out (empty in `MockStats`).
- The interleaving of the concurrent per-client fetches is not modelled. Neither is the extra `recalculatePortfolioMetrics()` call at Dashboard/app/page.tsx:194, which runs on a stale closure; the `useEffect` on `clients` recomputes the metrics after every change. The model recomputes after every change, and each update is applied atomically.
- Only responses whose `clients`, `data` and `items` fields are arrays or absent/null are modelled. A truthy non-array value in one of those fields (a string, a number) is not.
- All numbers the dashboard averages are exact reals. IEEE-754 rounding, `toFixed` and the currency and percentage formatting are left out, including the percentage label of the legacy `ClientRow` (Dashboard/app/page.tsx:860-862).
- `Text.NatToString` and `Dashboard.ShowUpLabel` render unbounded integers in plain decimal. JavaScript numbers are exact only up to 2^53, a template literal renders values of 10^21 and above in exponent notation, and fractional counts would show a decimal point. None of these is modelled.
- `Dashboard.ShowUpLabelReadsBack` holds for the model's integers. For counts of 10^21 or more the source label is in exponent notation and does not read back as plain digits, and above 2^53 the counts themselves are already rounded.
- The JSX rendering, tabs, accordions, charts and the Insights and table views are not modelled, except for the show-up label.
