# gk-deals: verified model of the derived computations

gk-deals is a personal dashboard for hobby "projects" such as car rebuilds and
PC builds. The user logs "expenses" against each project and records buy and
sold prices. The front end derives totals, profit, ROI, a category pie chart
and reminder statuses. Its dialogs build the rows it writes to a hosted
backend. A one-shot script imports an exported expense table, converting leva
to euro.

This project models those derived values and write rules in Dafny and proves
properties about them. The modules follow the source files:

| module | models |
|---|---|
| `Wrappers`, `Types` | `Option`/`Result`; the `project` and `expense` rows of `src/types.ts`; the `x \|\| 0` and `x \|\| ''` defaults |
| `Ledger` | the `reduce` that sums expense amounts |
| `Text` | `split`, `join`, `pop`, `split(' (')[0]`, `replace(/"/g, '')`, `trim`, `toUpperCase` |
| `Store` | the two tables as id-keyed maps with a `Db` class whose update and insert methods are the `update(...).eq('id', x)` and `insert([row])` calls |
| `ProjectDetails` | the summary, ROI, status badge, "Add Expense" gate and odometer panel of the details page |
| `ProjectCard` | the card's "Total Spent" and its add button |
| `Dashboard` | the soft-delete filter, the header totals, the per-card expense lists, the empty state and `handleAddExpense`, with the page state as a class |
| `ExpensePieChart` | the category accumulation (a loop over an insertion-ordered record) and the slice layout loop |
| `RemindersModal` | the reminder status and the save of the three reminder dates |
| `DeleteProjectModal`, `EditProjectModal`, `CreateProjectModal` | the project dialogs, each a class over its form state |
| `AddExpenseModal`, `EditExpenseModal` | the expense dialogs |
| `ImportAudi` | `scripts/import_audi.cjs` and `scripts/import_audi.ts` |

Everything outside the program becomes a parameter:

- **Backend:** whether a write is refused, the logged-in user, the public URL of an upload and the time stamp of an insert.
- **`Math.random()`:** its text.
- **`parseFloat`:** a function `string -> Option<real>`, where `None` stands for NaN, which the store receives as `null`.
- **`String(number)`:** a function `real -> string`.
- **`new Date(...)`:** instants on an integer time line, or day strings.

Amounts are real numbers. A `null` amount adds 0 to a sum, as `sum + null` does in JavaScript.

Modelling decisions about the code:

- A non-empty reminder date that does not parse is classified `ok`: every comparison with an Invalid Date is false.
- ROI is modelled before `toFixed(1)`, with no rounding.
- The import's date column is kept as the reassembled text. See "Left out".

## Model

| member | source | states |
|---|---|---|
| Text.Split | scripts/import_audi.cjs:24-28 | `split` on one character gives at least one piece and no piece holds the separator |
| Text.JoinSplit | scripts/import_audi.cjs:35 | joining the pieces of a split with the same separator gives back the text |
| Text.SplitAfterPiece | scripts/import_audi.cjs:24-25 | a leading separator-free piece splits off on its own, so the rest splits independently |
| Text.SplitJoin | scripts/import_audi.cjs:35 | splitting a join of separator-free pieces gives back the pieces |
| Text.SplitWithoutSep | scripts/import_audi.cjs:28 | text without the separator is a single piece |
| Text.SplitMany | src/components/EditProjectModal.tsx:49-50 | a text splits into several pieces iff it holds the separator |
| Text.SplitCount | scripts/import_audi.cjs:28 | a text splits into one more piece than it holds separators |
| Text.LastPieceShape | src/components/EditProjectModal.tsx:49-50 | `split(sep).pop()` has no separator, ends the text, is preceded by the separator when there is one, and is the whole text otherwise |
| Text.LastPieceEnds | src/components/EditProjectModal.tsx:49-50 | the last piece is a suffix of the text, and the whole text when it holds no separator |
| Text.LastPieceAfterSep | src/components/EditProjectModal.tsx:49-50 | when the text holds the separator, the character just before the last piece is the separator |
| Text.BeforeParen | scripts/import_audi.cjs:33 | `split(' (')[0]` is a prefix with no " (" inside, followed by " (" when it is shorter than the text |
| Text.BeforeParenAt | scripts/import_audi.cjs:33 | the cut falls exactly at the first " (" |
| Text.RemoveQuotes | scripts/import_audi.cjs:33 | the result has no quote and every other character with its multiplicity; `RemoveQuotesChar` and `RemoveQuotesConcat` fix their order |
| Text.RemoveQuotesChar | scripts/import_audi.cjs:33-35 | `replace(/"/g, '')` drops a quote and keeps any other character |
| Text.RemoveQuotesConcat | scripts/import_audi.cjs:33-35 | quote removal distributes over concatenation, so the remaining characters keep their order |
| Text.ToUpperAscii | src/pages/ProjectDetails.tsx:126 | same length; lower-case ASCII letters are raised and other characters kept |
| Types.IsVisible | src/pages/Dashboard.tsx:31 | `!p.is_deleted`: a project is shown unless its flag is true, a `null` flag included; `Dashboard.Visible` states the filter it drives |
| Ledger.AmountSum | src/pages/ProjectDetails.tsx:60 | the left fold `reduce((sum, e) => sum + e.amount, 0)`, also at src/components/ProjectCard.tsx:13 and src/pages/Dashboard.tsx:59; its meaning is carried by `AmountSumConcat`, `AmountSumRemove`, `AmountSumPermutation` and `ProjectCard.CardTotalAppend` |
| Ledger.AmountSumConcat | src/pages/Dashboard.tsx:59 | the sum of a concatenation is the sum of the sums |
| Ledger.AmountSumRemove | src/components/ProjectCard.tsx:13 | removing one expense removes exactly its amount |
| Ledger.AmountSumPermutation | src/components/ProjectCard.tsx:13 | the total does not depend on the order of the expenses |
| Store.UpdateProjectRow | src/components/DeleteProjectModal.tsx:26-28 | an update by id keeps the set of rows, changes only row `id` and applies the payload to it |
| Store.UpdateExpenseRow | src/components/EditExpenseModal.tsx:40-48 | the same for the expense table |
| Store.Db.UpdateProject | src/components/RemindersModal.tsx:35-44 | an accepted update rewrites the table by `UpdateProjectRow`; a refused one leaves it as it was; ids stay consistent |
| Store.Db.UpdateExpense | src/components/EditExpenseModal.tsx:40-50 | the same for expenses |
| Store.Db.InsertProject | src/components/CreateProjectModal.tsx:55-70 | an accepted insert adds exactly one row under a fresh id; a refused one changes nothing |
| Store.Db.InsertExpense | src/components/AddExpenseModal.tsx:27-39 | the same for expenses |
| ProjectDetails.Summarize | src/pages/ProjectDetails.tsx:60-65 | total investment = buy price + expense total; profit = sold price − investment; profitable iff investment <= sold price; missing prices count as 0 |
| ProjectDetails.Roi | src/pages/ProjectDetails.tsx:225 | `totalSpent > 0 ? profit / totalSpent * 100 : 0` before `toFixed(1)`; `RoiGuard` and `CompletedDealScenario` state what it gives |
| ProjectDetails.RoiGuard | src/pages/ProjectDetails.tsx:225 | ROI is 0 when investment <= 0; otherwise ROI × investment = 100 × profit and ROI >= 0 iff profitable |
| ProjectDetails.CompletedDealScenario | src/pages/ProjectDetails.tsx:60-65 | buy 5000, sell 7000, expenses 300 and 200 give investment 5500, profit 1500, profitable, ROI in [27.25, 27.35) |
| ProjectDetails.AddExpenseOffered | src/pages/ProjectDetails.tsx:139 | "Add Expense" is offered unless the status is completed; `StatusLabelCases` ties it to the badge |
| ProjectDetails.StatusLabel | src/pages/ProjectDetails.tsx:126 | `status?.toUpperCase() \|\| 'ACTIVE'`; `StatusLabelCases` gives its value for every status |
| ProjectDetails.StatusLabelCases | src/pages/ProjectDetails.tsx:125-139 | the badge reads COMPLETED for a completed project and ACTIVE otherwise, including no status; "Add Expense" shows iff the badge reads ACTIVE |
| ProjectDetails.OdometerPanelAsWritten | src/pages/ProjectDetails.tsx:96 | the panel's guard as written, true for every car project since a stored missing odometer is `null`; `KmDrivenWithoutStartReading` shows its effect |
| ProjectDetails.KmDrivenAsWritten | src/pages/ProjectDetails.tsx:96-116 | the distance as written, with a `null` start reading compared and subtracted as 0; `KmDrivenWithoutStartReading` and `KmDrivenAgrees` state it |
| ProjectDetails.OdometerPanel | src/pages/ProjectDetails.tsx:96 | the intended guard: a car project with a start reading; `KmDriven` is stated in terms of it |
| ProjectDetails.KmDrivenWithoutStartReading | src/pages/ProjectDetails.tsx:96-116 | as written, a completed car project with no start reading shows the panel and reports its whole end reading as distance driven |
| ProjectDetails.KmDriven | src/pages/ProjectDetails.tsx:96-116 | the intended distance is shown iff the project is a car with a start reading, completed, with a non-zero end reading above the start; it is then end − start and positive |
| ProjectDetails.KmDrivenAgrees | src/pages/ProjectDetails.tsx:96-116 | where a start reading exists the intended and written figures agree |
| ProjectCard.CardTotalAppend | src/components/ProjectCard.tsx:13 | the card total is 0 for no expenses; one more expense raises it by its amount, or by 0 when the amount is missing |
| ProjectCard.CardTotalExcludesBuyPrice | src/components/ProjectCard.tsx:13 | the card total is the details page's investment minus the buy price |
| ProjectCard.AddExpenseArgument | src/components/ProjectCard.tsx:53 | the card's button passes its own project's id; `Dashboard.CardButtonTargetsItsProject` states where it leads |
| Dashboard.Visible | src/pages/Dashboard.tsx:31 | exactly the projects whose delete flag is not true are kept |
| Dashboard.VisibleConcat | src/pages/Dashboard.tsx:31 | the filter keeps the fetched order |
| Dashboard.TotalProjects | src/pages/Dashboard.tsx:58 | "Active Projects" is the number of visible projects; `CompletedProjectsCounted` and `Page.Totals` state it |
| Dashboard.CompletedProjectsCounted | src/pages/Dashboard.tsx:58 | "Active Projects" counts completed visible projects too |
| Dashboard.CardExpenses | src/pages/Dashboard.tsx:97 | a card receives exactly the expenses whose project id is its id |
| Dashboard.Unshown | src/pages/Dashboard.tsx:93-97 | the expenses that reach no card are exactly those of projects without a card |
| Dashboard.SplitOffCard | src/pages/Dashboard.tsx:93-97 | giving a project its card moves exactly its expenses' sum out of the unshown sum |
| Dashboard.UnshownNone | src/pages/Dashboard.tsx:97 | with no cards every expense is unshown |
| Dashboard.TotalExpensesPartition | src/pages/Dashboard.tsx:59 | "Total Expenses" is the sum of the card totals plus the expenses of projects without a card, such as soft-deleted ones |
| Dashboard.CardsDisjoint | src/pages/Dashboard.tsx:97 | no expense reaches two cards of different projects |
| Dashboard.Find | src/pages/Dashboard.tsx:51 | `find` gives the first project with the id, or nothing iff none has it |
| Dashboard.CardsFor | src/pages/Dashboard.tsx:93-100 | one card per project, in order, each with its own expenses |
| Dashboard.Render | src/pages/Dashboard.tsx:84-100 | loading, the empty state or one card per project; `RenderCases` states the cases |
| Dashboard.RenderCases | src/pages/Dashboard.tsx:84-100 | no visible project gives the empty state; otherwise one card per visible project with exactly its expenses |
| Dashboard.CardButtonTargetsItsProject | src/pages/Dashboard.tsx:50-55 | with distinct ids a card's add button finds that card's own project |
| Dashboard.Page.constructor | src/pages/Dashboard.tsx:8-11 | the page starts empty and loading, with no modal target |
| Dashboard.Page.FetchData | src/pages/Dashboard.tsx:17-48 | the projects become the visible fetched rows; a failed project query changes nothing; a failed expense query keeps the old expenses; loading ends off |
| Dashboard.Page.HandleAddExpense | src/pages/Dashboard.tsx:50-55 | the modal target is set to the id and name of a listed project, and stays unchanged otherwise |
| Dashboard.Page.Totals | src/pages/Dashboard.tsx:58-59 | the header shows the number of visible projects and the sum of all fetched expenses |
| ExpensePieChart.Categories | src/components/ExpensePieChart.tsx:11 | each expense's category, with missing or empty ones read as "Other" |
| ExpensePieChart.CategoryOf | src/components/ExpensePieChart.tsx:11 | `e.category \|\| 'Other'`; `OtherBucket` states the fallback |
| ExpensePieChart.Dedup | src/components/ExpensePieChart.tsx:28 | each category exactly once |
| ExpensePieChart.FirstIndex | src/components/ExpensePieChart.tsx:28 | the position of a name's first occurrence |
| ExpensePieChart.FirstIndexAppend | src/components/ExpensePieChart.tsx:28 | appending does not move a first occurrence |
| ExpensePieChart.DedupFirstOccurrence | src/components/ExpensePieChart.tsx:9-13 | categories are listed in order of first occurrence |
| ExpensePieChart.InCategory | src/components/ExpensePieChart.tsx:10-13 | exactly the expenses of one category |
| ExpensePieChart.CategorySumStep | src/components/ExpensePieChart.tsx:12 | one more expense raises only its own category's sum, by its amount |
| ExpensePieChart.CategorySumAbsent | src/components/ExpensePieChart.tsx:12 | a category that does not occur sums to 0 |
| ExpensePieChart.Entries | src/components/ExpensePieChart.tsx:28 | one entry per name, holding that category's sum |
| ExpensePieChart.Breakdown | src/components/ExpensePieChart.tsx:9-13 | the reference grouping, one entry per category in first-occurrence order with its sum; `BreakdownShape`, `BreakdownTotal` and `TotalsAreCategorySums` state it |
| ExpensePieChart.EntriesTotalStep | src/components/ExpensePieChart.tsx:15 | over distinct names one more expense raises the total by its amount when its category is listed |
| ExpensePieChart.BreakdownTotal | src/components/ExpensePieChart.tsx:15 | the categories' amounts add up to the sum of all expense amounts |
| ExpensePieChart.OtherBucket | src/components/ExpensePieChart.tsx:11 | an expense with a missing or empty category is counted under "Other" |
| ExpensePieChart.BreakdownShape | src/components/ExpensePieChart.tsx:9-13 | one entry per distinct category, exactly the categories that occur, in first-occurrence order |
| ExpensePieChart.OrderStep | src/components/ExpensePieChart.tsx:10-12 | a new category joins the order at the end, while a known one leaves the order alone |
| ExpensePieChart.TotalsStep | src/components/ExpensePieChart.tsx:12 | `categories[cat] = (categories[cat] \|\| 0) + amount` as one step of the record |
| ExpensePieChart.TotalsKey | src/components/ExpensePieChart.tsx:12 | a category has a key in the record iff it occurs |
| ExpensePieChart.TotalsAreCategorySums | src/components/ExpensePieChart.tsx:9-13 | the record holds exactly the occurring categories, each with its sum |
| ExpensePieChart.CollectCategories | src/components/ExpensePieChart.tsx:9-13 | the accumulation loop's entries are the reference grouping `Breakdown` |
| ExpensePieChart.ReadBack | src/components/ExpensePieChart.tsx:28 | `Object.entries(categories)` in key order; `ReadBackTotals` states it equals the reference grouping |
| ExpensePieChart.ReadBackTotals | src/components/ExpensePieChart.tsx:28 | `Object.entries` of the filled record is the reference grouping |
| ExpensePieChart.Layout | src/components/ExpensePieChart.tsx:27-49 | slice i has angle amount/total×360, starts where slice i−1 ended, has percent amount/total×100, palette colour i mod 6, and the large-arc flag iff its angle exceeds 180 |
| ExpensePieChart.PaletteColor | src/components/ExpensePieChart.tsx:18-25 | `colors[i % colors.length]` over the six palette colours; `Layout` states each slice's colour |
| ExpensePieChart.PieData | src/components/ExpensePieChart.tsx:8-51 | no slices when the total is 0; otherwise the layout of the reference grouping |
| ExpensePieChart.ScaledAdd | src/components/ExpensePieChart.tsx:29-31 | scaling distributes over a sum of two amounts |
| ExpensePieChart.ScaledSumOfTotal | src/components/ExpensePieChart.tsx:29-31 | the swept angle after all entries is total/total×360 |
| ExpensePieChart.ScaledSumStep | src/components/ExpensePieChart.tsx:29-31 | the sweep after one more entry adds that entry's angle |
| ExpensePieChart.ScaledSumWhole | src/components/ExpensePieChart.tsx:29-31 | with a non-zero total the sweep over all entries is the full circle |
| ExpensePieChart.SlicesTile | src/components/ExpensePieChart.tsx:27-31 | the first slice starts at 0, each starts where the previous ended, and the last ends at 360 |
| ExpensePieChart.PercentSumIsScaled | src/components/ExpensePieChart.tsx:46 | the percents add up to the scaled sum of the amounts |
| ExpensePieChart.PercentsSumTo100 | src/components/ExpensePieChart.tsx:46 | the unrounded percents add up to 100 |
| ExpensePieChart.ScaledSumBounds | src/components/ExpensePieChart.tsx:39 | with non-negative amounts the full sweep covers any two slices' angles |
| ExpensePieChart.ScaledSumSingle | src/components/ExpensePieChart.tsx:39 | with non-negative amounts the full sweep covers any one slice's angle |
| ExpensePieChart.ScaledSumNonNegative | src/components/ExpensePieChart.tsx:39 | with non-negative amounts the sweep is non-negative |
| ExpensePieChart.PairAngleBound | src/components/ExpensePieChart.tsx:29 | with non-negative amounts two slices together take at most 360 |
| ExpensePieChart.AtMostOneLargeArc | src/components/ExpensePieChart.tsx:39 | with non-negative amounts at most one slice has the large-arc flag |
| ExpensePieChart.TotalNonNegative | src/components/ExpensePieChart.tsx:15 | non-negative amounts give a non-negative total |
| ExpensePieChart.AmountSumNonNegative | src/components/ExpensePieChart.tsx:12 | non-negative expense amounts sum to a non-negative amount |
| ExpensePieChart.BreakdownNonNegative | src/components/ExpensePieChart.tsx:12 | non-negative expense amounts give non-negative category amounts |
| RemindersModal.Classify | src/components/RemindersModal.tsx:65-67 | expired at or before today, warning up to a month out, ok after, and ok for an unparseable date; `GetStatus`, `ClassifyMonotone` and `Boundaries` state it |
| RemindersModal.GetStatus | src/components/RemindersModal.tsx:55-68 | none iff the text is empty; expired iff the date parses and is at or before today; warning iff it is after today and at or before a month out; ok otherwise, including a date that does not parse |
| RemindersModal.ClassifyMonotone | src/components/RemindersModal.tsx:65-67 | a later date is never more urgent |
| RemindersModal.GetStatusMonotone | src/components/RemindersModal.tsx:55-67 | the same for date strings that parse |
| RemindersModal.Boundaries | src/components/RemindersModal.tsx:58-66 | today is expired, the instant after is a warning, a month out is a warning and the instant after is ok |
| RemindersModal.NullIfEmpty | src/components/RemindersModal.tsx:38-40 | `value \|\| null` is null iff the text is empty and the text otherwise |
| RemindersModal.NullIfEmptyOrEmpty | src/components/RemindersModal.tsx:19-21 | a field loaded with `\|\| ''` and saved unchanged writes back the stored value, unless that was "" |
| RemindersModal.ReminderPatch | src/components/RemindersModal.tsx:37-41 | the three dates with `\|\| null`; `SaveTouchesOnlyReminders` and `UntouchedSaveKeepsRow` state what it does to a row |
| RemindersModal.SaveTouchesOnlyReminders | src/components/RemindersModal.tsx:37-42 | saving sets the three reminder columns and nothing else of the row |
| RemindersModal.UntouchedSaveKeepsRow | src/components/RemindersModal.tsx:19-42 | opening and saving without edits leaves the row as it was |
| RemindersModal.Modal.constructor | src/components/RemindersModal.tsx:19-22 | the fields start from the stored dates, "" where absent |
| RemindersModal.Modal.Reload | src/components/RemindersModal.tsx:24-28 | the fields follow a new project |
| RemindersModal.Modal.HandleSave | src/components/RemindersModal.tsx:32-53 | an accepted save updates only the project's row with the three dates; a refused one changes nothing; loading ends off |
| DeleteProjectModal.SoftDeleteHides | src/components/DeleteProjectModal.tsx:27 | a soft delete hides the project, changes no other column and is idempotent |
| DeleteProjectModal.SoftDeleteKeepsRows | src/components/DeleteProjectModal.tsx:26-28 | no row disappears; only the flag of row `id` changes |
| DeleteProjectModal.Dialog.constructor | src/components/DeleteProjectModal.tsx:14-15 | empty confirmation and not loading; the button is enabled only for a project with an empty name |
| DeleteProjectModal.Dialog.Type | src/components/DeleteProjectModal.tsx:68 | the confirmation text follows the input |
| DeleteProjectModal.Dialog.ButtonEnabled | src/components/DeleteProjectModal.tsx:77 | the button is enabled iff the typed text is the project's name and nothing is in flight; `Dialog.HandleDelete` states that an enabled button passes the guard |
| DeleteProjectModal.Dialog.HandleDelete | src/components/DeleteProjectModal.tsx:19-40 | nothing happens unless the typed text is the name; an enabled button always passes the guard; past it, an accepted update soft-deletes only this row; loading ends off |
| EditProjectModal.OldFileName | src/components/EditProjectModal.tsx:47-51 | the removed file is the non-empty last '/' segment of the stored URL, or none |
| EditProjectModal.NewFileName | src/components/EditProjectModal.tsx:61-63 | random text, a dot, and the upload name's extension: a dot-free suffix of the name, or the whole name when it has no dot |
| EditProjectModal.EditPatch | src/components/EditProjectModal.tsx:82-89 | the form's columns; the buy price is 0 unless the project is a car rebuild; unparseable prices become 0 |
| EditProjectModal.UntouchedCarEditKeepsRow | src/components/EditProjectModal.tsx:14-19 | saving a car project's form unedited leaves the row unchanged, when description, status, buy price and sold price are all present and both prices read back through `String` and `parseFloat` |
| EditProjectModal.UntouchedCarEditFillsNulls | src/components/EditProjectModal.tsx:14-19 | an unedited save of a car project writes "" over a `null` description, "active" over a missing status and 0 over a `null` price, and changes no other column |
| EditProjectModal.NonCarBuyPriceZeroed | src/components/EditProjectModal.tsx:88 | saving any project that is not a car rebuild stores buy price 0 |
| EditProjectModal.Dialog.constructor | src/components/EditProjectModal.tsx:14-21 | the form starts from the project with its defaults and no picture |
| EditProjectModal.Dialog.Reload | src/components/EditProjectModal.tsx:24-33 | the text fields follow a new project |
| EditProjectModal.Dialog.HandleSubmit | src/components/EditProjectModal.tsx:37-104 | a picture triggers the old file's removal and an upload under a new name; a refused upload stops; otherwise only row `project.id` takes `EditPatch`; loading ends off |
| CreateProjectModal.NewProjectRow | src/components/CreateProjectModal.tsx:57-68 | the inserted row is not deleted, carries the form and the user, and has sold price 0 when the text does not parse |
| CreateProjectModal.CreatedProjectVisible | src/components/CreateProjectModal.tsx:63 | a created project is visible on the dashboard, with no buy price or odometer yet |
| CreateProjectModal.Dialog.constructor | src/components/CreateProjectModal.tsx:12-18 | an empty car-rebuild form, active, sold price "0" |
| CreateProjectModal.Dialog.HandleSubmit | src/components/CreateProjectModal.tsx:22-85 | the upload comes before the user check; with no user nothing is inserted; a created row is added under a fresh id and the name, description and picture are cleared; a failure changes nothing |
| AddExpenseModal.NewExpenseRow | src/components/AddExpenseModal.tsx:29-37 | the row belongs to the form's project; its amount is the parsed text with no fallback to 0 |
| AddExpenseModal.AddedExpenseReachesCard | src/components/AddExpenseModal.tsx:31 | an added expense reaches its project's card and no other, and raises that card's total by the parsed amount, or by 0 |
| AddExpenseModal.Dialog.constructor | src/components/AddExpenseModal.tsx:14-18 | an empty form for today in "Service", which cannot be submitted |
| AddExpenseModal.Dialog.SubmitEnabled | src/components/AddExpenseModal.tsx:128 | enabled iff nothing is in flight and amount and description are non-empty; the constructor and `Dialog.HandleSubmit` state when it holds |
| AddExpenseModal.Dialog.HandleSubmit | src/components/AddExpenseModal.tsx:22-55 | an accepted insert adds exactly `NewExpenseRow` and resets the form, which cannot be submitted again; a refused one changes neither the table nor the form |
| EditExpenseModal.CategoryOrService | src/components/EditExpenseModal.tsx:18 | the category, or "Service" when missing or empty; never empty |
| EditExpenseModal.AmountText | src/components/EditExpenseModal.tsx:16 | `String(expense.amount)`, where a `null` amount shows as "null"; `UntouchedEditKeepsRow` states the read-back |
| EditExpenseModal.Payload | src/components/EditExpenseModal.tsx:42-47 | the update holds the four form fields, with the amount parsed and no fallback |
| EditExpenseModal.UpdateKeepsProjects | src/components/EditExpenseModal.tsx:42-48 | no update moves an expense to another project or changes any id; only row `id` changes |
| EditExpenseModal.UntouchedEditKeepsRow | src/components/EditExpenseModal.tsx:15-18 | saving the form unedited leaves the row unchanged, when a present amount reads back through `String` and `parseFloat` (a `null` amount shows as "null", which parses to NaN and is stored as `null` again), the stored category is present and non-empty, and the shown day converts back to the stored date |
| EditExpenseModal.MissingCategoryBecomesService | src/components/EditExpenseModal.tsx:29 | saving an expense with a missing or empty category files it under "Service" |
| EditExpenseModal.Dialog.constructor | src/components/EditExpenseModal.tsx:15-19 | the form starts from the expense; with a null amount the submit button is enabled iff the description is non-empty |
| EditExpenseModal.Dialog.SubmitEnabled | src/components/EditExpenseModal.tsx:134 | enabled iff nothing is in flight and amount and description are non-empty; `Dialog.HandleSubmit` states it afterwards |
| EditExpenseModal.Dialog.Reload | src/components/EditExpenseModal.tsx:21-31 | every field follows a new expense |
| EditExpenseModal.Dialog.HandleSubmit | src/components/EditExpenseModal.tsx:35-61 | an accepted update changes only row `expense.id` with `Payload`; a refused one changes nothing; loading ends off |
| ImportAudi.NonBlank | scripts/import_audi.cjs:25 | exactly the non-blank lines are kept |
| ImportAudi.NonBlankConcat | scripts/import_audi.cjs:25 | the filter keeps the order of the lines |
| ImportAudi.DataLines | scripts/import_audi.cjs:24-25 | the lines after the header with blank ones dropped; `HeaderIgnored` and `NonBlank` state it |
| ImportAudi.HeaderIgnored | scripts/import_audi.cjs:24-25 | the first line never reaches the data rows |
| ImportAudi.RowFields | scripts/import_audi.cjs:28-35 | the four text fields of a line, or none when `parts[2]` is missing; `RowFieldsClean`, `RowFieldsOfLine`, `RowFieldsNeedTwoCommas` and `QuotedDateUnquoted` state it |
| ImportAudi.RowFieldsClean | scripts/import_audi.cjs:28-35 | a line is read iff it has at least three comma-separated parts; name and amount hold no comma, category and date no quote |
| ImportAudi.RowFieldsOfLine | scripts/import_audi.cjs:28-35 | the date is everything after the third comma, commas kept and quotes removed |
| ImportAudi.RowFieldsNeedTwoCommas | scripts/import_audi.cjs:28-33 | a line can be read iff it holds at least two commas |
| ImportAudi.QuotedDateUnquoted | scripts/import_audi.cjs:35 | a quoted last column such as `"July 24, 2025"` is read as its text, commas and order kept |
| ImportAudi.RemoveQuotesNone | scripts/import_audi.cjs:33 | text without quotes is unchanged |
| ImportAudi.CategoryLinkStripped | scripts/import_audi.cjs:33 | a category exported as `"Name (link)"` is read as `Name` |
| ImportAudi.RoundCents | scripts/import_audi.cjs:42 | the rounded amount is within half a cent of the exact one |
| ImportAudi.RoundCentsIsCents | scripts/import_audi.cjs:42 | the rounded amount is a whole number of cents |
| ImportAudi.Record | scripts/import_audi.cjs:30-45 | project 1, the leva amount as parsed, the euro amount as leva / 1.95583 (rounded or exact), missing iff the leva amount is |
| ImportAudi.MapRows | scripts/import_audi.cjs:27-46 | a success has one record per line; a failure names a line that exists |
| ImportAudi.MapRowsSucceeds | scripts/import_audi.cjs:27-46 | the mapping succeeds iff every line is readable |
| ImportAudi.MapRowsRecords | scripts/import_audi.cjs:27-46 | on success record i is the record of line i, in order |
| ImportAudi.MapRowsStops | scripts/import_audi.cjs:27-46 | on failure the error is the first unreadable line: that line cannot be read and every earlier one can |
| ImportAudi.RecordsBelongToTarget | scripts/import_audi.cjs:38-45 | every record of a successful mapping belongs to project 1 |
| ImportAudi.ImportRounded | scripts/import_audi.cjs:24-46 | the rows `import_audi.cjs` prepares; `ImportShape` states their shape |
| ImportAudi.ImportUnrounded | scripts/import_audi.ts:25-62 | the rows `import_audi.ts` prepares; `ImportShape` and `ScriptsDifferOnlyInAmount` state them |
| ImportAudi.ImportShape | scripts/import_audi.cjs:27-46 | every imported record belongs to project 1, one per data line |
| ImportAudi.ScriptsFailAlike | scripts/import_audi.ts:44-61 | the rounding and the exact script succeed on the same input and otherwise fail at the same line |
| ImportAudi.RecordsDifferOnlyInAmount | scripts/import_audi.ts:44-61 | for one line the two records agree on every field but the euro amount, which the rounding script rounds to cents |
| ImportAudi.ScriptsDifferOnlyInAmount | scripts/import_audi.ts:44-61 | when the rounding script succeeds so does the exact one, with records that agree but for the euro amount, which one rounds to cents |

## Left out

- Network, authentication and storage calls are not modelled. Their outcomes are method parameters: a refused write, the user, the public URL and the creation time.
- Console logging, `alert` and the `onClose`, `onAdded`, `onUpdated`, `onDeleted`, `onCreated` and `onSaved` callbacks are left out. A successful outcome value stands for "the callbacks ran".
- The dialogs' `isOpen` early return, JSX, styling and icons are left out.
- Number formatting is left out: `Intl.NumberFormat`, `toFixed(0)` and `toFixed(1)`. Percent and ROI are the values before formatting.
- Floating point is not modelled. Amounts are exact reals, so sums are associative and `Math.round` is floor(x + 0.5) over reals.
- The SVG path of a slice (`Math.cos`/`Math.sin` of the angles) is left out. The angles, percent, colour and large-arc flag are modelled.
- ExpensePieChart.CollectCategories: it models the record's keys in insertion order. JavaScript lists integer-like keys (a category named "2024", say) first, in numeric order; that ordering is not modelled. The `{}` record also inherits from `Object.prototype`: for a category named "constructor" or "toString", `categories[cat] || 0` is a function and `+` joins text instead of adding, and a category named "__proto__" never appears in `Object.entries`. The model treats every name as an ordinary key.
- Date parsing, time zones, `setHours`, `setMonth` and `toLocaleDateString` are not modelled. Instants and day strings are inputs.
- ImportAudi.Record: the date column is the reassembled text. `new Date(dateRaw).toISOString()` and the RangeError it throws on an invalid date are not modelled. A line with exactly two commas has the date "" (`parts.slice(3)` is empty), and `new Date('').toISOString()` throws, so the script aborts on such a line while the model reads it.
- ImportAudi.MapRowsSucceeds, ImportAudi.RowFieldsClean and ImportAudi.ImportShape: because of the date step above, they count as readable every line with at least two commas, including a line with exactly two commas or an invalid date, on which the scripts abort.
- The regular expression match and the header split in `scripts/import_audi.ts` are computed but unused by the script, so they are left out. `HeaderIgnored` shows the header never matters.
- The scripts' environment checks, file reading and the final bulk insert are left out. The model gives the rows that would be inserted.
- EditProjectModal.UntouchedCarEditKeepsRow: it assumes `parseFloat(String(x)) == x` for the two stored prices, as a per-value requirement rather than for all numbers.
- EditExpenseModal.UntouchedEditKeepsRow: it assumes the amount text and the day read back as stored: `parseFloat(String(x))` gives back a present amount x, and `parseFloat("null")` gives NaN for a `null` one.
- EditExpenseModal.Dialog.constructor: the amount input's `type="number"` and `required` checks are browser behaviour and are not modelled. A number input cannot hold "null", so the browser shows it empty and refuses to submit an expense whose amount is `null` until a number is typed; the model states only the button's `disabled` test.
- Store.CreatedProject: the columns an insert leaves out (`buy_price`, the odometer readings, the VIN and the reminder dates) are taken to default to `null`. The table schema is not part of this model, so this is an assumption, and `CreateProjectModal.CreatedProjectVisible`'s "no buy price and no odometer yet" rests on it.
- The remaining source files are not part of this model: settings, login, layout, notes dialog, licence plate and routing.

## Findings

| source | as written | input that shows it | evidently intended | confidence | as-written member | corrected member |
|---|---|---|---|---|---|---|
| src/pages/ProjectDetails.tsx:96 | the odometer panel's test `project.odometer !== undefined` always passes for a stored row, whose missing odometer is `null` | a completed "Car Rebuild" with odometer `null` and odometer_end 120000 shows "Start: 0 km" and "Total: 120000 km driven" | show the panel and the distance only when a start reading exists | medium, not executed | ProjectDetails.KmDrivenWithoutStartReading | ProjectDetails.KmDriven |
