# Monthly budget widget: the month-keyed ledger, in Dafny

This project models the logic of the budget widget in `scripy.js`: a ledger
of income and expense entries kept per month, a budget per month, a currency
symbol, their persistence in the browser's `localStorage`, the month total
shown under the list and the two numbers of the spend-vs-budget doughnut.

- `wrappers.dfy` (`Wrappers`): `Option`, standing for an absent storage
  entry or a number that did not parse.
- `text.dfy` (`Text`): JavaScript's `trim`, applied to the description and to
  tag-button text, with ECMAScript's whitespace and line-terminator code points.
- `ledger.dfy` (`Ledger`): the tables as values. An entry `Tx` is
  `{desc, amount, timestamp, tags}`. The module also holds the month key
  `String(index)`, the running total, the add step (create the list if it is
  absent, push at the end), `splice(index, 1)` with its full index rules, the
  load defaults and the budget-overwrite test.
- `chart.dfy` (`Chart`): whether a chart is drawn, and its data
  `[spent, max(0, budget - spent)]`.
- `tags.dfy` (`Tags`): the three single-select tag groups (paid, app, loan).
  Each button's `active` class is a flag. `highlightButton` and the tag
  capture of an add are methods of `TagPanel`.
- `session.dfy` (`Session`): `LedgerState` holds the page's module-level
  `transactions`, `budgets`, `currency` and `chart`, with the handlers
  `addTransaction`, `removeTransaction`, `setBudget`, `render` and
  `drawChart`. Ghost fields hold the blobs last written to storage. The
  invariant `Persisted` says that a reload rebuilds the in-memory tables
  exactly. It also rebuilds the currency, unless the currency is the empty
  string. A ghost count of live chart instances is part of the invariant. It is 1
  while a chart is alive and 0 otherwise, so no chart is left undestroyed when
  the next one is created.
- `scenarios.dfy` (`Scenarios`): client walk-throughs of one month. They use
  only the handlers' contracts.

Inputs become parameters:
- the month dropdown's value is `month` (0..11);
- `parseFloat` results are `Option<real>`;
- the answer to `confirm` is a `bool`;
- `Date.toLocaleString()` is an opaque `timestamp` string;
- `new Date().getMonth()` is `today`.

The model follows the code as written, including these behaviours:

- An add with invalid inputs still writes the currency to memory and to
  storage, because the code does that before validating (scripy.js:74-75).
- Removal uses `splice(index, 1)` as written. An index past the end removes
  nothing, but the ledger is still saved and re-rendered. A negative index
  counts from the end. Nothing raises an index error.
- The overwrite prompt tests the stored budget's truthiness. A stored budget
  of 0 is overwritten without asking.
- Storage failures are not reported, and neither model nor code handles them.

One more behaviour of the code: the chart's "spent" segment is the signed
month total. Expenses are negative, so they make "remaining" larger. The
model keeps this as written.

## Model

| member | source | states |
|---|---|---|
| `Text.SkipLeading` | scripy.js:72 | the first non-whitespace position at or after `i`; everything skipped is whitespace |
| `Text.SkipTrailing` | scripy.js:72 | the end of a range once its trailing whitespace is dropped; everything dropped is whitespace |
| `Text.Trim` | scripy.js:72 | the trimmed text is never longer than the input and neither starts nor ends with whitespace |
| `Text.TrimOfTrimmed` | scripy.js:72 | a string that neither starts nor ends with whitespace trims to itself, so trimming twice is trimming once |
| `Text.TrimSpec` | scripy.js:72 | `trim` keeps a slice whose cut-away ends are all whitespace; it is empty iff the input is blank |
| `Ledger.MonthKey` | scripy.js:30-32 | the key of a dropdown month is one or two decimal digits; its last digit is the month mod 10; it has one digit iff month < 10; for months 10 and 11 the first digit is 1 |
| `Ledger.MonthKeyInjective` | scripy.js:30-32 | two months share a key iff they are the same month |
| `Ledger.MonthTxs` | scripy.js:37 | the month's list, read with an empty default: a month with no list reads as empty |
| `Ledger.Sum` | scripy.js:61 | the month total of incomes only is never negative; the total of expenses only is never positive |
| `Ledger.SumConcat` | scripy.js:61 | the running total of two consecutive runs of entries is the sum of their totals |
| `Ledger.SumSnoc` | scripy.js:61 | accumulating one more entry adds exactly its amount |
| `Ledger.SumAround` | scripy.js:61 | the total of a list is the total of the entries before position i, plus the entry at i, plus the total of the entries after it |
| `Ledger.Append` | scripy.js:86-97 | after an add the month has one more entry; the new entry is last; the earlier entries are unchanged; every other month is unchanged; the key set gains only this month |
| `Ledger.AppendTotal` | scripy.js:86-97 | an add moves the month total by exactly the new amount |
| `Ledger.OtherMonthsUntouched` | scripy.js:86-97 | replacing one month's list leaves every other month's list as it was |
| `Ledger.Excise` | scripy.js:110 | cutting out position i: length n-1; entries before i stay put; later entries shift down by one; the multiset loses exactly that entry |
| `Ledger.ExciseTotal` | scripy.js:110 | removing an entry moves the month total by minus its amount |
| `Ledger.SpliceStart` | scripy.js:110 | splice's start: the index itself when valid; counted from the end when negative (clamped at 0); clamped at the length when too large |
| `Ledger.SpliceOne` | scripy.js:110 | `splice(index, 1)` on a list, for any index: the length stays or drops by one, and no entry is added |
| `Ledger.SpliceOneCases` | scripy.js:107-110 | `splice(i, 1)` excises position i for 0 <= i < n; it changes nothing for i >= n; it excises n+i for -n <= i < 0; the length drops by one exactly when something is removed |
| `Ledger.SpliceTotal` | scripy.js:110 | a removal at a listed index lowers the month total by the removed amount |
| `Ledger.LoadTable` | scripy.js:12-13 | a missing table blob loads as the empty table; a stored one loads as itself |
| `Ledger.LoadCurrency` | scripy.js:9 | the loaded currency is never empty; a stored non-empty currency loads as itself; a missing or empty one loads as the default currency |
| `Ledger.CurrencyRoundTrip` | scripy.js:9 | a saved currency reloads as itself iff it is not the empty string |
| `Ledger.AsksToOverwrite` | scripy.js:123 | the user is asked only about an assignment that would change the table; a stored non-zero budget is never changed without asking |
| `Ledger.OverwriteRule` | scripy.js:123-126 | no prompt when there is no stored budget, a stored 0 or an equal value; a prompt for a different non-zero stored budget; setting the same value again neither prompts nor changes the table |
| `Chart.Remaining` | scripy.js:140 | the remaining segment is non-negative and at least budget - spent; it is either 0 or exactly budget - spent |
| `Chart.ChartData` | scripy.js:138-140 | the data set is (spent, remaining); remaining is never negative; the two add up to the budget while spending is within it; remaining is 0 once spending reaches the budget |
| `Chart.ChartBudget` | scripy.js:38 | the budget handed to the chart carries a value iff the month has a stored non-zero budget, and then carries that budget |
| `Chart.Drawn` | scripy.js:134 | no chart for a missing budget (the empty string) or a budget of 0; a chart for any other budget |
| `Chart.DrawnForMonth` | scripy.js:134 | a month's chart is drawn iff it has a stored non-zero budget |
| `Tags.FirstActive` | scripy.js:93 | `querySelector` finds an active button with no active button before it, or reports none when no button is active |
| `Tags.ActiveTag` | scripy.js:93-94 | a group contributes no tag iff none of its buttons is active; otherwise its tag is the trimmed text of its first active button |
| `Tags.ActiveTagOfActiveButton` | scripy.js:93-94 | in a group with one active button, the captured tag is that button's trimmed text |
| `Tags.TagsFor` | scripy.js:91-95 | visiting the first n groups captures at most n tags |
| `Tags.CapturedOrder` | scripy.js:91-95 | the captured tags are the paid tag, then the app tag, then the loan tag, each present only if its group has an active button; there are at most 3 |
| `Tags.Activated` | scripy.js:162-167 | after a highlight the group keeps its buttons and texts; exactly the chosen button is active; it is the one the capture finds |
| `Tags.TagPanel.constructor` | scripy.js:92-93 | the page's tag groups as loaded: all three groups present, with the given button texts, none of them active |
| `Tags.TagPanel.Highlight` | scripy.js:162-167 | highlighting a button replaces only its group with the activated group and keeps at most one active button per group |
| `Tags.TagPanel.SelectedTags` | scripy.js:91-95 | the loop's pushes build exactly the captured tag list in group order, at most 3 tags |
| `Session.LedgerState.Load` | scripy.js:8-13 | page load: each blob or its default (empty tables, default currency); stored and in-memory state agree; the chart is drawn iff today's month has a non-zero budget, and then shows (today's month total, max(0, budget - total)); otherwise there is no chart |
| `Session.LedgerState.MonthTotal` | scripy.js:39-62 | the loop's total is the exact sum of the month's amounts, and 0 for a month without a list |
| `Session.LedgerState.DrawChart` | scripy.js:132-140 | the count of live chart instances equals 1 when a chart is alive and 0 otherwise, so the previous chart is destroyed before a new one exists; a chart is alive iff the budget is truthy, and then has data (spent, max(0, budget - spent)); otherwise the `chart` variable is unchanged |
| `Session.LedgerState.Render` | scripy.js:35-67 | returns the month total; keeps the invariant that at most one chart instance is alive; the chart is alive iff the month's budget is truthy, and then shows (total, max(0, budget - total)); otherwise the `chart` variable is unchanged |
| `Session.LedgerState.AddTransaction` | scripy.js:71-105 | the currency is written and saved on every path; success iff the trimmed description is non-empty and the amount parsed; on success the ledger is the old ledger with the entry appended to this month, the saved copy equals it, and the chart is redrawn from the new month total; on failure the ledger, its saved copy and the chart are unchanged; budgets are never touched |
| `Session.LedgerState.Record` | scripy.js:86-104 | the month's list is created if absent and the entry pushed at its end; the saved ledger equals the new ledger; the chart is redrawn from the new month total |
| `Session.LedgerState.RemoveTransaction` | scripy.js:107-114 | declined changes nothing; confirmed replaces this month's list with its `splice(index, 1)`, saves the ledger and redraws the chart from the new month total; a month without a list changes nothing; budgets and currency are never touched |
| `Session.LedgerState.SetBudget` | scripy.js:116-129 | a prompt is shown iff the value parsed and overwrites a different truthy budget; a non-numeric value or a declined prompt leaves budgets and storage unchanged; otherwise the budget is assigned and saved, and the chart is redrawn with the new budget; transactions and currency are never touched |

## Left out

- DOM work is left out because it is presentation, not ledger logic. This
  covers `populateMonthDropdown` (only its option values 0..11 are kept, as
  the range of `month`), the `innerHTML` list templates, the budget input and
  currency label, and the clearing of the description and amount inputs.
- `Tags.TagPanel.constructor` assumes every tag button starts without the
  `active` class. The buttons come from the page's HTML, which is not part of
  this model.
- `addCustomOption` is left out: it creates DOM buttons. `TagPanel` takes its
  groups' button texts when it is constructed, so no buttons are added later.
- `localStorage` and `JSON.stringify`/`JSON.parse` are not real I/O here. The
  stored blobs are ghost copies of the tables, and a save-then-load is taken
  as exact. Storage-quota errors are not modelled.
- A stored blob that is not a well-formed table is not modelled, since the
  stored tables are typed. This covers a corrupt blob that `JSON.parse` would
  throw on, a `null` month list, a non-numeric budget, and JavaScript object
  keys with special meaning.
- `alert` and `confirm` are not modelled as dialogs. A confirmation is the
  `bool` answer the user gives when asked.
- Chart.js is a foreign library. A chart instance is only its data plus an
  alive flag; the canvas, colours, legend and tooltip are not modelled.
- IEEE-754 arithmetic is not modelled. Amounts and budgets are `real`: the
  `+=` accumulation is exact and `toFixed(2)` display rounding is absent. A
  parse that yields `Infinity` (not NaN, so accepted, and stored by JSON as
  `null`) is not distinguished from other numbers.
- Times are not modelled. `Date.toLocaleString()` is an opaque timestamp
  parameter, and `new Date().getMonth()` is the `today` parameter.
- The page's default currency literal is stored with a broken encoding in the
  file. It is modelled as the rupee sign it encodes.
