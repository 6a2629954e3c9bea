# Budget tracker client: a verified model

This project models the logic of a small React budget client in Dafny and
proves properties of it. The client does four things:

- it shows one month's expense and income records;
- it sums them into a summary card, a per-category breakdown, a daily bar
  chart and a category pie chart;
- it lets the user add, edit and delete records and set the month's salary;
- it keeps recurring "predefined" templates, which the backend turns into
  records for a month or for every month from the selected one on.

The model has one module per part of the client:

- `Records` (`records.dfy`): the record type and the JavaScript idioms every
  view uses: `x || 0`, `s || fallback`, `_id || id` and `date.slice(0, 7)`.
- `Seqs` (`seqs.dfy`): `filter`, a summing `reduce`, and a stable sort by an
  integer key, with their laws.
- `Tally` (`tally.dfy`): the fold `acc[category] = (acc[category] || 0) + amount`
  that both monthly views run. It is modelled as an insertion-ordered list of
  (category, amount) pairs.
- `MonthlySummary` (`monthly_summary.dfy`): the summary card and the category
  breakdown, which is sorted by descending amount and carries percentages.
- `MonthlyCharts` (`monthly_charts.dfy`): the per-day buckets and their
  sorted series, the pie slices and the colour palette.
- `BudgetApp` (`app.dfy`): the top-level view state as a class `AppState`,
  with one method per handler. Backend results are method parameters.
- `ExpenseForm` (`expense_form.dfy`): the add/edit form. Covers its defaults,
  how a record is loaded into it, the submit guard and the record each
  submission sends.
- `Predefined` (`predefined.dfy`): the template panel. Covers its form,
  input coercion, the active filter, save requests, apply requests and the
  `applying` busy flag.

Amounts are exact integers (cents). A number that JavaScript would hold as
`undefined`, `null` or `NaN` is `None`, and a missing string is `""`, which
JavaScript also treats as false. A backend call's outcome is
`Ok(value)` or `Err(message)`.

The pie keeps every category total, including zero and negative ones: the
code applies no positivity filter (`src/components/MonthlyCharts.js:36-46`).

## Model

| member | source | states |
|---|---|---|
| Records.IdOf | src/App.js:80 | the identifier every view compares is `_id` when present, else `id` |
| Records.MonthOf | src/App.js:131 | a record's month is the first seven characters of its date, or the whole date when shorter, and is always a prefix of it |
| Records.FirstDay | src/components/ExpenseForm.js:9 | the default date `month + '-01'` lies in that month for every `YYYY-MM` month |
| Records.OrElse | src/App.js:67 | `s \|\| fallback` is never empty: `s` when non-empty, the fallback otherwise |
| Seqs.Filter | src/App.js:130-133 | a filter keeps exactly the elements meeting the predicate, drawn from the input |
| Seqs.FilterAppend | src/App.js:130-133 | filtering a concatenation is filtering each part, so survivors keep their order |
| Seqs.SortByFacts | src/components/MonthlySummary.js:148 | the sort yields a sorted permutation of its input |
| Seqs.SortByStable | src/components/MonthlySummary.js:148 | elements with equal keys leave the sort in the order they entered it |
| Seqs.SortBySum | src/components/MonthlyCharts.js:33 | sorting does not change any sum over the elements |
| Tally.AddToNames | src/components/MonthlySummary.js:143-146 | one fold step appends the category as a new key only when it has no entry yet, and keeps keys distinct |
| Tally.AddToSum | src/components/MonthlySummary.js:143-146 | one fold step raises the sum of all entries by exactly the record's amount |
| Tally.AddToValue | src/components/MonthlySummary.js:143-146 | one fold step adds the amount to its own category's entry and leaves every other category's value unchanged |
| Tally.TotalsNames | src/components/MonthlySummary.js:140-147 | the fold's keys are the categories in first-occurrence order, each once |
| Tally.TotalsSum | src/components/MonthlySummary.js:140-147 | the fold's entries add up to the sum of all folded amounts |
| Tally.TotalsValue | src/components/MonthlyCharts.js:36-41 | each category's entry is the sum of that category's records |
| Tally.TotalsHasCategory | src/components/MonthlyCharts.js:36-41 | a category has an entry exactly when some folded record carries it |
| Tally.TotalsPositive | src/components/MonthlySummary.js:143-146 | with positive amounts every entry is positive |
| MonthlySummary.Summarize | src/components/MonthlySummary.js:11-24 | income is the sum of the `type === 'income'` amounts and expense the sum of the `type === 'expense'` amounts; total income is the salary (0 when missing) plus income; `income - expense == balance - salary` and `totalIncome - balance == expense` |
| MonthlySummary.KindsPartitionTotal | src/components/MonthlySummary.js:12-18 | income, expense and other-typed totals partition the month's total: no record counts twice |
| MonthlySummary.EmptyMonthSummary | src/components/MonthlySummary.js:11-24 | with no records the card shows the salary as total income and balance |
| MonthlySummary.Rows | src/components/MonthlySummary.js:149-151 | one row per sorted entry, with the same category and amount, in order |
| MonthlySummary.BreakdownShape | src/components/MonthlySummary.js:126-137 | no breakdown unless the expense total is positive; otherwise as many rows as the "N categories" label counts |
| MonthlySummary.BreakdownCategories | src/components/MonthlySummary.js:140-147 | no category appears twice, and a category has a row exactly when an expense-type record carries it |
| MonthlySummary.BreakdownAmounts | src/components/MonthlySummary.js:140-151 | every row carries the sum of the amounts of its own category's expense-type records, after the sort as before it |
| MonthlySummary.RowsNonIncreasing | src/components/MonthlySummary.js:148-151 | rows built from entries sorted by descending amount run from the largest amount down |
| MonthlySummary.BreakdownOrder | src/components/MonthlySummary.js:148 | the breakdown's rows are in non-increasing amount order |
| MonthlySummary.BreakdownStable | src/components/MonthlySummary.js:148 | the sort is stable: entries of equal amount keep the order in which their categories were first met |
| MonthlySummary.BreakdownSums | src/components/MonthlySummary.js:140-151 | the row amounts add up to the summary's expense total and the percentages to exactly 100 |
| MonthlySummary.RowPercentage | src/components/MonthlySummary.js:150-151 | each row's percentage is its amount over the expense total, times 100 |
| MonthlySummary.BreakdownPercentBounds | src/components/MonthlySummary.js:150-151 | with positive amounts every percentage lies in (0, 100] |
| MonthlySummary.ExampleKinds | src/components/MonthlySummary.js:12-18 | in a worked month of two Food expenses and one income, the type filters pick the two expenses and the one income |
| MonthlySummary.ExampleSummary | src/components/MonthlySummary.js:11-24 | the worked month with salary 1000: income 200, expense 150, balance 1050, total income 1200 |
| MonthlySummary.ExampleLunchTotal | src/components/MonthlySummary.js:143-146 | folding one 100 Food expense gives the single entry Food: 100 |
| MonthlySummary.ExampleCategoryTotals | src/components/MonthlySummary.js:143-146 | the worked month's expenses fold to the single entry Food: 150 |
| MonthlySummary.ExampleBreakdown | src/components/MonthlySummary.js:126-151 | the worked month's breakdown is one Food row of 150 at 100% |
| MonthlyCharts.SplitJoin | src/components/MonthlyCharts.js:21 | `split('-')` loses nothing: joining its pieces restores the text, and no piece holds a dash |
| MonthlyCharts.IsoDateKeys | src/components/MonthlyCharts.js:21 | for a `YYYY-MM-DD` date the day key is the `DD` field and the month is `YYYY-MM` |
| MonthlyCharts.LeadingDigits | src/components/MonthlyCharts.js:23 | `parseInt` reads the longest run of leading digits |
| MonthlyCharts.ParseDayInjective | src/components/MonthlyCharts.js:23 | distinct two-digit day fields parse to distinct day numbers |
| MonthlyCharts.AddToDayKeys | src/components/MonthlyCharts.js:20-31 | one fold step creates the day's bucket at the end only when missing, and keeps keys distinct with each bucket's day parsed from its key |
| MonthlyCharts.AddToDayValue | src/components/MonthlyCharts.js:20-31 | one fold step credits the amount to the bucket of the record's own day key, as income for an income record and as expense for any other, and leaves every other day's values unchanged |
| MonthlyCharts.AddToDaySums | src/components/MonthlyCharts.js:20-31 | one fold step credits the record's amount to its own day's bucket and no other, as income for an income record and as expense for any other, and so raises the matching total over all buckets by the amount |
| MonthlyCharts.BucketsKeys | src/components/MonthlyCharts.js:20-24 | one bucket per distinct day key in first-occurrence order, each holding its key parsed |
| MonthlyCharts.FirstDayKeysMembers | src/components/MonthlyCharts.js:20-24 | a day key is listed exactly when some record has that day |
| MonthlyCharts.BucketHasKey | src/components/MonthlyCharts.js:20-24 | a bucket exists for a day key exactly when some record has that day |
| MonthlyCharts.BucketsValue | src/components/MonthlyCharts.js:18-31 | each day's bucket holds the sum of that day's income records as income and the sum of its records of any other type as expense |
| MonthlyCharts.BucketPoint | src/components/MonthlyCharts.js:18-33 | each bucket, projected to a point, is the bar of its own key: the key's parsed day and that day's two sums |
| MonthlyCharts.BucketsSums | src/components/MonthlyCharts.js:25-29 | the buckets' income adds up to the income records' total and their expense to the total of all non-income records |
| MonthlyCharts.Points | src/components/MonthlyCharts.js:33 | `Object.values` keeps each bucket's day, income and expense, in order |
| MonthlyCharts.DailySeriesFromRecords | src/components/MonthlyCharts.js:18-33 | every point of the daily series is the bar of some record's day |
| MonthlyCharts.DailySeriesCoversRecords | src/components/MonthlyCharts.js:18-33 | every record's day has its bar in the daily series |
| MonthlyCharts.DailySeriesValues | src/components/MonthlyCharts.js:18-33 | the points of the daily series are exactly the bars of the records' days, each with its day's income sum and its other sum |
| MonthlyCharts.DailySeriesFacts | src/components/MonthlyCharts.js:18-33 | the daily series has one point per bucket and ascends by day; its points are exactly the bars of the records' days with their per-day income and expense sums; and it keeps both totals |
| MonthlyCharts.DailySeriesStrict | src/components/MonthlyCharts.js:20-33 | when every date has a two-digit day field, no day appears twice and the series strictly ascends |
| MonthlyCharts.DailyExpenseIncludesOther | src/components/MonthlyCharts.js:25-29 | the daily expense bars total the expense card plus the records of unknown type |
| MonthlyCharts.Slices | src/components/MonthlyCharts.js:43-46 | each `[name, value]` entry becomes a `{name, value}` slice, in order |
| MonthlyCharts.SlicesSum | src/components/MonthlyCharts.js:43-46 | the slices' values add up to the entries' total |
| MonthlyCharts.PieDataFacts | src/components/MonthlyCharts.js:36-46 | one slice per distinct expense category holding that category's sum; the slices total the expense card and fall short of the daily expense bars by exactly the unknown-type records |
| MonthlyCharts.EmptyCharts | src/components/MonthlyCharts.js:18-49 | no records give no daily points and no slices |
| MonthlyCharts.SliceColour | src/components/MonthlyCharts.js:118 | every slice's colour is one of the palette's colours |
| MonthlyCharts.SliceColourPeriodic | src/components/MonthlyCharts.js:118 | the colours repeat every eight slices |
| BudgetApp.MonthlyExpenses | src/App.js:130-133 | the shown list holds only the selected month's records, and all of them |
| BudgetApp.MonthlyAppend | src/App.js:58-60 | appending a record adds it to the end of the shown list exactly when it is in the shown month |
| BudgetApp.MonthlyOfMonthOnly | src/App.js:129-133 | a list the backend already restricted to the month is shown unchanged |
| BudgetApp.MonthlyIdempotent | src/App.js:130-133 | filtering the shown list again changes nothing |
| BudgetApp.Dated | src/App.js:51-54 | the sent record differs from the input at most in its date, which is filled in from today when missing |
| BudgetApp.ReplaceById | src/App.js:78-82 | the update keeps the length and every id, and replaces exactly the records with the updated id |
| BudgetApp.ReplaceIdempotent | src/App.js:78-82 | applying the same update twice is applying it once |
| BudgetApp.ReplaceAbsent | src/App.js:78-82 | an update for an id not in the list leaves it unchanged |
| BudgetApp.RemoveById | src/App.js:95 | deletion drops every record with the id and keeps every other |
| BudgetApp.RemoveCount | src/App.js:95 | the kept and the dropped records together number the whole list |
| BudgetApp.RemoveAppend | src/App.js:95 | deletion keeps the survivors' order |
| BudgetApp.AddThenDelete | src/App.js:58-95 | adding a record with a fresh id and deleting that id restores the list |
| BudgetApp.SalaryFor | src/App.js:187 | the salary handed to the summary is the month's stored salary, or 0 |
| BudgetApp.SalaryUpdate | src/App.js:118-121 | storing one month's salary leaves every other month's as it was |
| BudgetApp.AppState.constructor | src/App.js:11-18 | empty list, no edit, the current month, no salaries, loading, no error |
| BudgetApp.AppState.LoadData | src/App.js:25-46 | a successful load replaces the list and stores the month's salary (`amount \|\| 0`); a failure keeps both and shows the load message; loading ends false either way |
| BudgetApp.AppState.SelectMonth | src/App.js:21-23 | choosing a month reloads for that month |
| BudgetApp.AppState.AddExpense | src/App.js:48-70 | sends the dated input; a record created in the shown month is appended; one created elsewhere triggers a reload; a failure keeps the state, shows a non-empty message and rethrows |
| BudgetApp.AppState.UpdateExpense | src/App.js:72-89 | sends to the input's id; success rewrites the list by the returned record's id and ends the edit; failure keeps the state and shows a message |
| BudgetApp.AppState.DeleteExpense | src/App.js:91-104 | success removes the id's records and ends the edit exactly when it was editing that id; failure keeps the state and shows a message |
| BudgetApp.AppState.StartEdit | src/App.js:106-108 | the given record becomes the one being edited |
| BudgetApp.AppState.CancelEdit | src/App.js:110-112 | no record is being edited |
| BudgetApp.AppState.UpdateSalary | src/App.js:114-127 | success stores `amount \|\| 0` for that month only; failure keeps the salaries and shows a message |
| BudgetApp.AppState.DismissError | src/App.js:145 | the banner is hidden |
| ExpenseForm.TrimStart | src/components/ExpenseForm.js:43 | trimming the front removes exactly a leading run of white space |
| ExpenseForm.TrimEnd | src/components/ExpenseForm.js:43 | trimming the back removes exactly a trailing run of white space |
| ExpenseForm.TrimEmpty | src/components/ExpenseForm.js:43 | a title trims to nothing exactly when it is all white space |
| ExpenseForm.Defaults | src/components/ExpenseForm.js:5-11 | the empty form: no title or amount, Food, expense, and a date in the selected month |
| ExpenseForm.FromRecord | src/components/ExpenseForm.js:15-21 | a loaded record's falsy fields fall back one by one to the defaults |
| ExpenseForm.ChangeOneField | src/components/ExpenseForm.js:33-38 | an input event sets the named field and no other |
| ExpenseForm.Payload | src/components/ExpenseForm.js:48-51 | the sent record carries the form's fields with the amount as a number |
| ExpenseForm.Submit | src/components/ExpenseForm.js:41-61 | rejected exactly when the title is blank after trimming or the amount is empty; otherwise an add, or an update whose `_id` and `id` both hold the edited record's identifier |
| ExpenseForm.DefaultsRejected | src/components/ExpenseForm.js:43-46 | the empty form is never submitted |
| ExpenseForm.UpdateKeepsIdentity | src/components/ExpenseForm.js:55-59 | an edit is sent under the edited record's identifier, whatever the form holds |
| ExpenseForm.EditRoundTrip | src/components/ExpenseForm.js:13-59 | loading a complete record and submitting it unchanged sends the record back |
| ExpenseForm.ZeroAmountBlocksEdit | src/components/ExpenseForm.js:17 | a record with amount 0 loads with an empty amount and cannot be resubmitted as loaded |
| ExpenseForm.ExpenseFormState.constructor | src/components/ExpenseForm.js:5-31 | after mounting, the form shows the edited record or the defaults |
| ExpenseForm.ExpenseFormState.Sync | src/components/ExpenseForm.js:13-31 | a new edited record or month repopulates the form |
| ExpenseForm.ExpenseFormState.HandleChange | src/components/ExpenseForm.js:33-39 | the form takes the input event |
| ExpenseForm.ExpenseFormState.HandleSubmit | src/components/ExpenseForm.js:41-74 | hands the submission to a callback; only a successful add resets the form, and an update or failed add leaves it |
| Predefined.DefaultFields | src/components/PredefinedExpenses.js:12-20 | the empty template form: day 1, active, Food, expense, empty text |
| Predefined.DayOrFirst | src/components/PredefinedExpenses.js:92 | a missing or zero day edits as 1, and any other day as itself |
| Predefined.ActiveOrTrue | src/components/PredefinedExpenses.js:93 | an absent active flag edits as true, and a present one as itself |
| Predefined.EditFields | src/components/PredefinedExpenses.js:85-97 | the edit form copies the template, with the day, active flag and description fallbacks |
| Predefined.ActiveTemplates | src/components/PredefinedExpenses.js:159 | the active list holds exactly the templates whose flag is true |
| Predefined.UnsetActiveEditsAsActive | src/components/PredefinedExpenses.js:93 | a template without the flag is listed inactive yet edits as active |
| Predefined.MissingDayEditsAsFirst | src/components/PredefinedExpenses.js:92 | a template without a day edits as day 1 |
| Predefined.ChangeCoerces | src/components/PredefinedExpenses.js:45-51 | each field takes its own event's value (the parsed number or 0 for the number inputs, `checked` for the checkbox, the raw value for text inputs and selects) and keeps its old value under any other event |
| Predefined.SaveRequestFor | src/components/PredefinedExpenses.js:56-63 | saving updates under the edited template's identifier when editing, and creates otherwise; the body is the form |
| Predefined.ApplyMonthRequest | src/components/PredefinedExpenses.js:116-119 | the apply-to-month call names the month and ids and marks the records as predefined |
| Predefined.ApplyAllAsWrittenMisplacesOptions | src/components/PredefinedExpenses.js:140 | the apply-to-all call as written sends the options object as its end month |
| Predefined.ApplyAllRequestFor | src/components/PredefinedExpenses.js:131-140 | the corrected apply-to-all call starts at the selected month with no end month |
| Predefined.ButtonsShownIffSomeActive | src/components/PredefinedExpenses.js:172 | the header apply buttons are rendered exactly when some template is active |
| Predefined.NoApplyWhileApplying | src/components/PredefinedExpenses.js:172-187 | while an apply runs no apply button is enabled, and an inactive template's never is |
| Predefined.PredefinedPanel.constructor | src/components/PredefinedExpenses.js:6-21 | no templates, loading, form hidden, nothing edited, default form, not applying |
| Predefined.PredefinedPanel.Load | src/components/PredefinedExpenses.js:30-42 | a successful fetch replaces the list, a failed one keeps it; loading ends false |
| Predefined.PredefinedPanel.ToggleForm | src/components/PredefinedExpenses.js:167 | the form's visibility flips |
| Predefined.PredefinedPanel.ResetForm | src/components/PredefinedExpenses.js:71-83 | default form, nothing edited, form hidden |
| Predefined.PredefinedPanel.HandleEdit | src/components/PredefinedExpenses.js:85-97 | the template is edited, its fields fill the form, and the form shows |
| Predefined.PredefinedPanel.HandleChange | src/components/PredefinedExpenses.js:45-51 | the form takes the coerced input event |
| Predefined.PredefinedPanel.HandleSubmit | src/components/PredefinedExpenses.js:53-69 | sends the save request; success reloads and resets the form; failure changes nothing |
| Predefined.PredefinedPanel.HandleDelete | src/components/PredefinedExpenses.js:99-109 | nothing is sent without confirmation; a successful delete reloads |
| Predefined.PredefinedPanel.BeginApplyToMonth | src/components/PredefinedExpenses.js:111-119 | the busy flag goes up and the apply-to-month request is sent |
| Predefined.PredefinedPanel.BeginApplyToAll | src/components/PredefinedExpenses.js:131-140 | without confirmation nothing changes; with it the busy flag goes up and the corrected apply-to-all request is sent |
| Predefined.PredefinedPanel.FinishApply | src/components/PredefinedExpenses.js:126-128 | the busy flag comes down whether the call succeeded or failed |

## Left out

- Floating point. Amounts are exact integers, and percentages are exact
  reals. JavaScript's summation error, the `toFixed(1)` and `toFixed(0)`
  rounding, and `parseFloat` on partial or malformed text are not modelled.
  A form's amount input arrives as the number it denotes, or as `None` when
  `parseFloat` gives `NaN`.
- MonthlyCharts.ParseDay: reads only leading decimal digits. It returns 0
  where `parseInt` returns `NaN` (a key with no leading digit, such as the
  `"undefined"` key of a date with fewer than two dashes). Leading white
  space and signs, which `parseInt` accepts, are not modelled, and neither
  is its reading of a `"0x"` prefix as hexadecimal when no radix is given
  (`parseInt("0x1A")` is 26, where ParseDay gives 0).
- Object key order. JavaScript enumerates integer-like keys (canonical
  non-negative integers such as a category named `"5"`, or the ordinary ISO
  day keys `"10"` to `"31"`) first, in numeric order, and only then the
  others (such as `"01"` to `"09"`) in insertion order. The model keeps
  plain insertion order. This affects the order of the pie slices, the
  order of equal amounts in the breakdown, and the order of daily points
  whose keys parse to the same day (such as `"15"` and
  `"15T08:00:00.000Z"`): the stable day sort keeps their object order, so
  the source can list them the other way round.
- Asynchrony. Each handler runs to completion in one method call, and the
  intermediate `loading = true` and cleared-error states are not observable.
  The exception is the panel's apply handlers, which are split at the await
  into a Begin method and `FinishApply`. Races are not modelled, such as a
  response for a month that is no longer selected. The `useMemo` caching
  policy is not modelled either.
- BudgetApp.AppState.SelectMonth: does not require `!loading`. The month
  input is disabled while loading (`src/App.js:158`), but that is a
  rendering rule.
- BudgetApp.AppState.AddExpense: a created record without a date makes
  `newExpense.date.slice` throw in the source. In the model a missing date
  is `""`, which is outside every month, so a reload follows instead of the
  error path. The same holds for the `monthlyExpenses` filter.
- The panel's `onExpenseAdded` callback after a successful apply is the
  App's `loadData`. It is modelled there (`BudgetApp.AppState.LoadData`) and
  not composed with the panel. The counts the backend returns are shown only
  in alerts and are not modelled.
- `src/services/api.js` (HTTP transport, JSON and error wrapping) is not
  part of this model. Its one decision, that a failed salary fetch reads as
  amount 0, is why `LoadData` takes the salary as an `Option<int>` and not as
  a `Result`.
- What the backend does with an apply request is not part of this model:
  the day each template lands on, skipping inactive templates, and duplicate
  records.
- `window.confirm` is a boolean parameter. `alert`, `console.*`, CSS, the
  chart library and all rendering are left out. So are
  `src/components/ExpenseList.js` and the locale formatting of amounts,
  dates and months.
- The summary card's own salary input (`salaryInput` and its handlers) is
  interface state only. The salary it submits is modelled at
  `BudgetApp.AppState.UpdateSalary`.
- A template whose `isActive` is `null` is modelled as `Some(false)`. It
  behaves as false in the active filter and the buttons. Only an absent
  flag (`None`) edits as active.

## Findings

| source | as written | input that shows it | evidently intended | confidence | as-written member | corrected member |
|---|---|---|---|---|---|---|
| src/components/PredefinedExpenses.js:140 | `applyToAll(startMonth, options)` passes `{ isPredefined: true }` as the second argument. The API's signature is `applyToAll(startMonth, endMonth, predefinedExpenseIds)`, so the object is sent as `endMonth` and the flag is never sent as an option | confirming "Apply to All Months" with any selected month, e.g. `2024-03` | an open-ended request: `endMonth` null, every month from the start month. The API call has no slot for the flag | high for the argument shift, which is visible in the call and the signature; not executed | Predefined.ApplyAllRequestAsWritten (shown by Predefined.ApplyAllAsWrittenMisplacesOptions) | Predefined.ApplyAllRequestFor |
