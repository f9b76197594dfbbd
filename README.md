# FreelanceOS in Dafny

FreelanceOS is a single-page browser workspace for freelancers. Its feature modules
each keep a list of records in browser storage: tasks, sticky notes, saved notes,
income, expenses, payments, projects and pomodoro sessions. A module changes its list
on a user action, writes the whole list back and recomputes what it shows, such as
totals, per-month and per-category figures, filtered views and statistics. Beside the
records sit a few small state machines:

- two pomodoro timers;
- the passcode gate;
- the light/dark theme with its manual override;
- section navigation with a capped history.

The project has one Dafny module per JavaScript file, with each file's own rules, since
several modules overlap and differ in detail. Examples are prepend versus append and
different validation.

- `Base` holds the JavaScript built-ins the modules rely on:
  - `trim`, `toLowerCase`, `includes`, `startsWith`, `split` and `join`;
  - `filter`, `reduce` and `find`;
  - capped newest-first lists;
  - month arithmetic.
- `Utils` models `Storage` over an abstract backend. Each key holds nothing, text that
  does not parse, or a parsed value, and `JSON` itself is abstracted away.
- The controllers whose fields the source updates in place are classes:
  - `FreelanceOS`, `EarningsCalculator`, `PaymentTracker`, `ExpensesTracker`,
    `StickyNotes`, `Navigation`, `Auth`, `ThemeManager` and `Storage`;
  - the page scripts `finance.js`, `portfolio.js`, `pomodoro.js` and `tasks.js`.

  Their methods state the whole new state. The derived figures are functions, and
  lemmas relate them to one another and to the operations.

Some things the source gets from its environment become parameters:

- the current time and date ("now");
- record ids, which the source takes from `Date.now()`;
- the answer to `confirm()` and `prompt()`;
- the timer settings read from the page.

Money and the numbers read from forms are `real`. A form number that may be NaN is
`Base.Number`.

## Model

| member | source | states |
|---|---|---|
| Utils.Load | js/utils.js:17-24 | the parsed value when the key holds one; the default when the key is absent, empty, or does not parse |
| Utils.LoadAfterSave | js/utils.js:6-24 | what is saved under a key is what the next load of it returns; other keys load as before |
| Utils.LoadAfterRemove | js/utils.js:28-31 | a removed key loads as the default |
| Utils.ParseItem | js/utils.js:17-20 | a direct parse of a key fails exactly on unparsable text and otherwise agrees with Storage.load |
| Utils.Storage.constructor | js/utils.js:4 | the backend starts with the given items |
| Utils.Storage.Save | js/utils.js:6-14 | true and the key then loads the saved value, or false with the backend unchanged when it throws |
| Utils.Storage.Remove | js/utils.js:28-36 | true and the key is then absent, or false with the backend unchanged |
| Utils.Storage.Clear | js/utils.js:39-47 | true and the backend is then empty, or false with it unchanged |
| Utils.IsTodayIgnoresTime | js/utils.js:104-109 | a date is today iff its day, month and year equal today's, whatever its time of day |
| Utils.Greeting | js/utils.js:75-80 | "Good Morning!" exactly before 12, "Good Afternoon!" exactly from 12 to before 17, "Good Evening!" exactly from 17 |
| Utils.IsValidEmailIff | js/utils.js:115-118 | the email check accepts exactly the strings of the shape the regular expression describes: one '@' with a non-empty part before it, an inner '.' after it, and no white space |
| Utils.IsRequiredIff | js/utils.js:136-138 | a value is required-valid iff it is present and not white space only |
| Utils.Truncate | js/utils.js:166-169 | text that fits is returned unchanged; longer text becomes its first `length` characters followed by "..." |
| Utils.TruncateBound | js/utils.js:166-169 | the result is never longer than the limit plus three |
| Auth.AcceptsIff | js/auth.js:53-57 | with no stored passcode, or a blank or unparsable one, exactly "1234" is let in; with one stored, exactly that passcode |
| Auth.ChangedPasscodeAccepted | js/auth.js:151-153 | once a new passcode is stored, it is the only one accepted |
| Auth.Auth.constructor | js/auth.js:4-20 | starts unauthenticated with an empty input; logged in (flag re-saved, app shown, modal hidden) exactly when the stored flag is true, otherwise the modal is shown |
| Auth.Auth.CheckAuthStatus | js/auth.js:42-51 | a stored true flag logs in; anything else only shows the modal and changes nothing else |
| Auth.Auth.Authenticate | js/auth.js:53-66 | succeeds exactly when the input equals the saved passcode (default "1234"); success logs in and hides the modal, failure only clears the input |
| Auth.Auth.Login | js/auth.js:68-72 | sets the flag in memory and storage, shows the app, hides the modal |
| Auth.Auth.Logout | js/auth.js:74-80 | clears the flag in memory and storage, hides the app, shows the modal, empties the input |
| Auth.Auth.ChangePasscode | js/auth.js:151-160 | accepts exactly the passcodes of four or more UTF-16 code units (as `.length` counts them), stores them so that only they are accepted afterwards, and leaves storage untouched otherwise |
| Auth.TwoEmojiPasscodeAccepted | js/auth.js:152 | two characters outside the Basic Multilingual Plane make a long enough passcode, and three ASCII characters do not |
| Auth.Auth.GetAuthStatus | js/auth.js:163-165 | returns the authenticated flag |
| Theme.Toggled | js/theme.js:63-64 | the toggle gives 'dark' exactly from 'light', and always 'light' or 'dark' |
| Theme.ToggleTwice | js/theme.js:63-65 | toggling twice returns to 'light' or 'dark' |
| Theme.ThemeManager.constructor | js/theme.js:4-16 | the saved theme is used only when one is saved and the manual flag is set, otherwise the system preference; the chosen theme is stored |
| Theme.ThemeManager.LoadTheme | js/theme.js:32-43 | saved theme exactly when a non-empty one is saved and the manual flag is true, otherwise the system's; it is written back to storage |
| Theme.ThemeManager.SetSystemTheme | js/theme.js:45-51 | the theme becomes 'dark' when the system prefers dark, else 'light', and is stored |
| Theme.ThemeManager.SetTheme | js/theme.js:53-57 | the current and the stored theme both become the argument |
| Theme.ThemeManager.ToggleTheme | js/theme.js:63-67 | switches the theme, stores it and sets the manual flag |
| Theme.ThemeManager.OnSystemChange | js/theme.js:22-28 | a system change is applied and stored only while no manual choice is stored; otherwise nothing changes |
| Theme.ThemeManager.IsDarkMode | js/theme.js:90-92 | true exactly when the current theme is 'dark' |
| Theme.ManualChoiceSticks | js/theme.js:22-28 | after a manual toggle, a later system change leaves the toggled theme in place |
| Navigation.ShortcutTarget | js/navigation.js:35-58 | a shortcut target exists exactly for the keys "1" to "5", and it is always a valid section |
| Navigation.ShortcutsCoverSections | js/navigation.js:37-57 | digit k+1 opens the k-th of dashboard, payments, productivity, finances, portfolio |
| Navigation.InitialSection | js/navigation.js:63-71 | the hash's section exactly when it is one of the five valid sections, otherwise 'dashboard' |
| Navigation.MostVisited | js/navigation.js:188-200 | 'dashboard' when no count is positive; otherwise a section with a maximal positive count, and the earliest one (every earlier count is strictly smaller), because the comparison is strict |
| Navigation.Navigation.constructor | js/navigation.js:4-15 | the first section is the initial route's, with one event and nothing pushed |
| Navigation.Navigation.HandleInitialRoute | js/navigation.js:63-71 | shows the initial route's section without pushing history |
| Navigation.Navigation.NavigateToSection | js/navigation.js:74-82 | pushes a history entry exactly when asked to, then shows the section |
| Navigation.Navigation.ShowSection | js/navigation.js:84-117 | the section becomes current and one event is sent whose previousSection equals the new section |
| Navigation.Navigation.HandleDeepLink | js/navigation.js:254-260 | follows the link only for dashboard, productivity, finances and portfolio; anything else changes nothing |
| Navigation.Navigation.HandleKey | js/navigation.js:35-60 | Ctrl or Meta with a digit 1-5 navigates to its section and pushes history; any other key changes nothing |
| Navigation.Navigation.TrackSectionVisit | js/navigation.js:181-185 | the section's visit count rises by exactly one and its last-visit time is recorded |
| Navigation.Navigation.GetMostVisitedSection | js/navigation.js:157-200 | a reported section with the largest visit count, the earliest in report order on a tie, or 'dashboard' when none is positive |
| Navigation.Navigation.AddToHistory | js/navigation.js:269-284 | the new entry comes first and at most the 50 newest entries are kept |
| Navigation.HistoryKeepsNewest | js/navigation.js:269-284 | a run of additions keeps the newest 50 entries, newest first |
| Earnings.Calculate | js/earnings.js:51-78 | a calculation exists exactly when the trimmed client name is non-empty and rate and hours (missing or NaN read as 0) are positive; then gross = rate × hours > 0 and net = gross − expenses |
| Earnings.MonthlyPartition | js/earnings.js:153-160 | a month's net earnings plus those of every other month make up the total |
| Earnings.MonthlyAfterPrepend | js/earnings.js:153-160 | a new entry at the front adds its net earnings to its own month's total and to no other |
| Earnings.LastMonthEarnings | js/earnings.js:139-147 | "last month" of January is December of the previous year; otherwise the previous month of the same year |
| Earnings.EarningsStats | js/earnings.js:341-353 | totalProjects is the number of entries; the per-project average is 0 with no entries and otherwise total / count; the hourly average is 0 when total hours is 0 and otherwise total / hours |
| Earnings.RecentEarnings | js/earnings.js:165 | the income list shows the first ten entries, or all of them when there are fewer |
| Earnings.EarningsCalculator.constructor | js/earnings.js:293-295 | the entries are the stored list (empty when nothing usable is stored) and no calculation is pending |
| Earnings.EarningsCalculator.CalculateEarnings | js/earnings.js:51-82 | a valid form becomes the pending calculation; an invalid one leaves the pending calculation as it was |
| Earnings.EarningsCalculator.SaveEarnings | js/earnings.js:105-128 | with nothing pending nothing changes; otherwise one entry carrying the calculation goes to the front, the list is stored and nothing is pending any more |
| Earnings.EarningsCalculator.DeleteEarning | js/earnings.js:385-395 | when confirmed, exactly the entries with that id are removed and the rest stored; otherwise nothing changes |
| Earnings.DeleteKeepsOthers | js/earnings.js:387 | deleting keeps every entry with another id exactly as often as before and none with that id |
| Payments.ParseDateTimeLocal | js/payments.js:368-378 | reading a YYYY-MM-DDTHH:MM text as a date gives only valid dates with four-digit years; the model reads only this shape, the one the payment form writes, and treats other text as an Invalid Date (date parsing is left out) |
| Payments.DateTimeLocalRoundTrip | js/payments.js:56-67 | the default date-time text written into the form reads back as the date it was made from |
| Payments.FilterResult | js/payments.js:130-142 | a payment is in the filter result iff it is stored and the lower-cased, trimmed client filter is empty or occurs in its lower-cased client name, and the date filter is empty or a prefix of its date-time |
| Payments.Summarize | js/payments.js:219-222 | the count is the number of payments and the amount the sum of their amounts |
| Payments.SummaryPartition | js/payments.js:219-222 | the summaries of the matching and the non-matching payments add up to the summary of all |
| Payments.GetPaymentsSummary | js/payments.js:364-392 | totals over all payments, plus the summaries of the payments in this month and in the month before, where January looks back to December of the previous year |
| Payments.InvalidDateInNoMonth | js/payments.js:368-378 | a payment whose date-time is not a date is counted in no month |
| Payments.CsvLines | js/payments.js:340-345 | one CSV row per payment, in stored order |
| Payments.ExportCsv | js/payments.js:331-346 | nothing is exported exactly when there are no payments |
| Payments.ExportCsvLines | js/payments.js:337-346 | read back line by line, the export is the header `Client Name,Amount,Date & Time,Notes` followed by each payment's row in stored order |
| Payments.CapitalizeFirst | js/payments.js:303-305 | same length, the first character upper-cased and the rest unchanged |
| Payments.PaymentTracker.constructor | js/payments.js:256-264 | the payments are the stored list, and none when the key is missing or does not parse; every payment is shown |
| Payments.PaymentTracker.AddPayment | js/payments.js:71-97 | accepted exactly when the trimmed client name is non-empty, the amount is neither NaN nor 0, and the date-time is non-empty; then one payment is prepended and stored, otherwise nothing changes |
| Payments.PaymentTracker.DeletePayment | js/payments.js:99-107 | when confirmed, the payments with that id are removed and the rest stored and shown; otherwise nothing changes |
| Payments.PaymentTracker.EditPayment | js/payments.js:109-128 | an unknown id changes nothing; a known id hands back the first payment with that id and removes every payment with the id |
| Payments.PaymentTracker.ApplyFilters | js/payments.js:130-146 | the filtered list is the stored list filtered by the client and date filters, and it is what is shown |
| Payments.PaymentTracker.ClearFilters | js/payments.js:148-154 | the filter result is emptied and every payment is shown again |
| Payments.DeleteKeepsOthers | js/payments.js:101 | deleting keeps every payment with another id exactly as often as before and none with that id |
| Expenses.Average | js/expenses.js:317 | the average is 0 with no expenses and otherwise total / count |
| Expenses.ByCategory | js/expenses.js:370-372 | keeps only stored expenses of that category |
| Expenses.ByDateRange | js/expenses.js:375-380 | keeps only stored expenses dated within the range |
| Expenses.ByCategoryIff | js/expenses.js:370-372 | an expense is kept iff it is stored and its category matches exactly |
| Expenses.ByDateRangeIff | js/expenses.js:375-380 | an expense is kept iff it is stored and start ≤ its date ≤ end, both ends included |
| Expenses.ByDateRangeBounds | js/expenses.js:378 | an expense dated exactly at either end of the range is kept |
| Expenses.CategoryPartition | js/expenses.js:152-155 | one category's total plus the total of all other categories is the overall total |
| Expenses.CategoryTotals | js/expenses.js:330-333 | one entry per category that occurs, holding the sum of that category's amounts; empty exactly for no expenses |
| Expenses.MonthlyExpenses | js/expenses.js:146-150 | keeps only stored expenses of that month and year |
| Expenses.MonthlyExpensesIff | js/expenses.js:146-150 | an expense is in the month's list iff it is stored and dated in that month of that year |
| Expenses.ChartTotals | js/expenses.js:144-160 | the chart's totals cover exactly the current month's expenses per category, and they are empty (the "no expenses this month" branch) exactly when no expense is dated in the current month |
| Expenses.CategoryColor | js/expenses.js:255-264 | the four known categories have their own colours; any other category gets the 'other' colour |
| Expenses.RecentExpenses | js/expenses.js:101 | the list shows the first ten expenses, or all of them when there are fewer |
| Expenses.ExpensesTracker.constructor | js/expenses.js:4-21 | the expenses are the stored list and the displayed total is their sum |
| Expenses.ExpensesTracker.AddExpense | js/expenses.js:39-73 | accepted exactly for a non-blank description and an amount above 0 (NaN read as 0); then one expense goes first, the list is stored and the displayed total rises by the amount; otherwise nothing changes |
| Expenses.ExpensesTracker.DeleteExpense | js/expenses.js:81-96 | when confirmed, exactly the expenses with that id are removed, the rest stored, and the displayed total stays the sum |
| Expenses.ExpensesTracker.GetExpenseStats | js/expenses.js:315-342 | the average is the sum over the count, the monthly total covers the current month, the category totals are per category, and `totalExpenses` holds the count because the later key wins |
| Expenses.DeleteKeepsOthers | js/expenses.js:83 | deleting keeps every expense with another id exactly as often as before and none with that id |
| Expenses.DeleteLowersTotal | js/expenses.js:81-94 | a delete lowers the total by exactly the amounts of the expenses with that id |
| Notes.ColorFor | js/notes.js:112 | a note is drawn with its own colour's configuration when the palette has it, and with the first palette entry otherwise |
| Notes.Clamp | js/notes.js:203-204 | the clamped coordinate is ≥ 0, ≤ max whenever max ≥ 0, unchanged when already within range, and 0 when max < 0 |
| Notes.DragPosition | js/notes.js:195-204 | the dragged note's position is never negative and, when the note fits in its container, keeps the note inside the container |
| Notes.SearchNotes | js/notes.js:326-336 | an empty query shows every note; otherwise no more notes than stored |
| Notes.SearchNotesIff | js/notes.js:332-334 | a non-empty query keeps exactly the notes whose lower-cased content contains the lower-cased query |
| Notes.TotalCharactersConcat | js/notes.js:315 | the character count of two lists together is the sum of their counts |
| Notes.AddNoteKeepsCharacters | js/notes.js:41-50 | adding the new empty note leaves the character count as it was |
| Notes.RoundDiv | js/notes.js:316 | Math.round of a / b: the integer nearest to a / b, halves rounded up |
| Notes.GetNoteStats | js/notes.js:313-323 | totalNotes is the number of notes, totalCharacters the sum of content lengths in UTF-16 code units, averageLength 0 with no notes and otherwise the rounded average |
| Notes.StickyNotes.constructor | js/notes.js:282-284 | the notes are the stored list |
| Notes.StickyNotes.AddNote | js/notes.js:41-52 | an empty yellow note at (20, 20) is appended, the older notes are unchanged, and the list is stored |
| Notes.StickyNotes.DeleteNote | js/notes.js:66-72 | when confirmed, exactly the notes with that id are removed and the rest stored; otherwise nothing changes |
| Notes.StickyNotes.UpdateNoteContent | js/notes.js:74-81 | the first note with that id gets the new content and an updatedAt stamp, every other note is unchanged, and an unknown id changes nothing |
| Notes.StickyNotes.ChangeNoteColor | js/notes.js:83-90 | the first note with that id gets the colour, every other note is unchanged, and an unknown id changes nothing |
| Notes.DeleteKeepsOthers | js/notes.js:68 | deleting keeps every note with another id exactly as often as before and none with that id |
| App.Toggled | js/app.js:572-579 | only the first task with that id has its completed flag flipped; an unknown id leaves the list as it was; the length never changes |
| App.ToggleTwice | js/app.js:572-579 | toggling the same task twice gives back the original list |
| App.Visible | js/app.js:623-631 | any filter other than "completed" or "pending" shows every task |
| App.VisibleIff | js/app.js:627-631 | a task is under "completed" exactly when it is in the list and done, and under "pending" exactly when it is in the list and not done |
| App.VisibleCounts | js/app.js:627-631 | the completed and pending views together hold as many tasks as the whole list |
| App.DeleteTaskKeepsOthers | js/app.js:600-606 | deleting by id removes every copy of the tasks with that id and keeps every other task as often as before |
| App.ClearCompletedKeepsPending | js/app.js:671-677 | clearing completed tasks keeps every pending task as often as before and leaves no completed one |
| App.NoteTitle | js/app.js:834 | the title is never empty: the trimmed input when it is not blank, otherwise the default title |
| App.Calculation | js/app.js:991-1009 | a record is made exactly when the trimmed client name is not blank and rate and hours are positive; its amount is rate times hours and positive |
| App.Summary | js/app.js:1063-1086 | current-month income, last month (December of the previous year in January) and the total over all records |
| App.MonthIncomeSplit | js/app.js:1068-1086 | one month's income plus the income of every other record adds up to the total income |
| App.MonthIncomePrepend | js/app.js:1068-1073 | a new record in front adds its amount to its own month's income and nothing to another month's |
| App.SavedCalculationCounts | js/app.js:1009-1012 | a calculation saved this month raises current-month income and the total by its amount and leaves last month's figure alone |
| App.ChartHeights | js/app.js:1164-1166 | one bar height per chart category |
| App.AddedExpenseCounts | js/app.js:1044-1048 | a new expense raises the total and its own category's chart total by its amount and leaves every other category's total alone |
| App.ChartTotals | js/app.js:1154-1160 | one total per chart category, in the chart's order, each the sum spent in that category |
| App.MaxOf | js/app.js:1162 | the largest value of a non-empty list: no value exceeds it and it is one of them |
| App.HeightBound | js/app.js:1166 | a bar is between 0 and 150 pixels high when the amount is between 0 and the maximum |
| App.FullHeight | js/app.js:1166 | the category holding the maximum gets the full 150 pixels |
| App.ChartHeightsBound | js/app.js:1152-1173 | with non-negative amounts every bar is 0 to 150 pixels high, and when any category has spending some bar is full height |
| App.TrimEach | js/app.js:1247 | one trimmed piece per piece, in order |
| App.Technologies | js/app.js:1247 | no technology in the parsed list is empty |
| App.TechnologiesClean | js/app.js:1247 | every parsed technology is non-empty, trimmed and free of commas |
| App.SpacedTail | js/app.js:1276 | every piece after the first is preceded by the blank that the ", " join put there |
| App.SplitCommaJoin | js/app.js:1276 | splitting a ", "-join at commas gives back the pieces, all but the first with a leading blank |
| App.SplitCommaJoinTop | js/app.js:1276 | the same for a join with nothing before it |
| App.JoinEnds | js/app.js:1276 | a ", "-join of non-empty pieces starts with the first piece's first character and ends with the last piece's last |
| App.TrimmedAlready | js/app.js:1247 | a string with no white space at either end is its own trim |
| App.TrimmedEnds | js/app.js:1247 | a non-empty trimmed string has no white space at either end |
| App.TrimSpaced | js/app.js:1247 | trimming a trimmed piece with one blank in front gives the piece back |
| App.JoinCleanEnds | js/app.js:1276 | a ", "-join of trimmed, non-empty pieces neither starts nor ends with white space |
| App.JoinTrimmed | js/app.js:1276 | a ", "-join of clean pieces is already trimmed |
| App.TechnologiesRoundTrip | js/app.js:1247 | parsing the ", "-join of a clean technology list gives the same list back |
| App.TrimEachSpaced | js/app.js:1247 | trimming the split pieces drops exactly the blanks that the join added |
| App.ProjectFrom | js/app.js:1235-1251 | a project is made exactly when the trimmed title and description are both non-blank, and it holds them trimmed |
| App.AddedProjectIsClean | js/app.js:1236-1247 | an added project has trimmed title, description and link and clean technologies |
| App.EditThenAddRestores | js/app.js:1270-1279 | editing a clean project and submitting the filled-in form unchanged gives back the same project with a new id and date |
| App.Seeded | js/app.js:1376-1408 | demo data is put in only when there are no tasks and no projects; otherwise the data is unchanged |
| App.SeedOnce | js/app.js:1376-1378 | seeding twice is the same as seeding once |
| App.DashboardOf | js/app.js:299-323 | the task and session figures are the numbers of stored tasks created and sessions logged on today's calendar day, and the income is the current month's income |
| App.DashboardCountsToday | js/app.js:301-311 | exactly the tasks and sessions of today's calendar day are counted, each as often as stored, and those of other days make up the rest |
| App.AddedTaskCountsToday | js/app.js:561-565 | a task created today adds one to the dashboard's task count |
| App.LoggedSessionCountsToday | js/app.js:500-503 | a session logged today adds one to the dashboard's session count |
| App.NextSession | js/app.js:436-448 | after work the count goes up by one and a long break follows exactly on every fourth; after a break work follows and the count stays |
| App.FullCycle | js/app.js:436-448 | from a multiple of four, eight completions go work, break three times over, then a long break, then work again |
| App.TimerText | js/app.js:461-463 | the clock text has at least the five characters of "mm:ss" |
| App.FreelanceOS.constructor | js/app.js:7-26 | the timer starts stopped at 25 minutes of work with no sessions counted, the data is what storage holds seeded with demo data, and storage is rewritten only when seeding changed it |
| App.FreelanceOS.SaveData | js/app.js:1365-1371 | storage holds exactly the current data under the app's key |
| App.FreelanceOS.LoadInitialData | js/app.js:1376-1408 | the data becomes its seeded form and is stored only when seeding changed it |
| App.FreelanceOS.AddTask | js/app.js:549-567 | a task is added exactly when the trimmed input is not blank; it goes first, not done, with the trimmed text, and the data is stored; otherwise nothing changes |
| App.FreelanceOS.ToggleTask | js/app.js:572-580 | the list of tasks becomes its toggled form and is stored only when a task with that id exists |
| App.FreelanceOS.EditTask | js/app.js:585-595 | the first task with that id takes the trimmed answer as its text and the data is stored; an unknown id or a blank or cancelled answer changes nothing |
| App.FreelanceOS.DeleteTask | js/app.js:600-607 | when confirmed every task with that id is removed and the data stored; otherwise nothing changes |
| App.FreelanceOS.ClearCompletedTasks | js/app.js:671-678 | when confirmed only the pending tasks remain and the data is stored; otherwise nothing changes |
| App.FreelanceOS.AddStickyNote | js/app.js:691-703 | an empty gold note at the given position is appended and the data stored |
| App.FreelanceOS.DeleteStickyNote | js/app.js:708-712 | every sticky note with that id is removed and the data stored |
| App.FreelanceOS.UpdateStickyNote | js/app.js:717-723 | the first note with that id takes the new content and the data is stored; an unknown id changes nothing |
| App.FreelanceOS.UpdateStickyPosition | js/app.js:728-735 | the first note with that id moves to the new position and the data is stored; an unknown id changes nothing |
| App.FreelanceOS.ClearStickyNotes | js/app.js:812-818 | when confirmed all sticky notes are removed and the data stored; otherwise nothing changes |
| App.FreelanceOS.SaveNote | js/app.js:833-852 | a note is saved exactly when the trimmed content is not blank; it goes first with the trimmed content and a non-empty title; otherwise nothing changes |
| App.FreelanceOS.DeleteSavedNote | js/app.js:868-874 | when confirmed every saved note with that id is removed and the data stored; otherwise nothing changes |
| App.FreelanceOS.SaveCalculation | js/app.js:991-1025 | an income record is put first exactly when the calculation is valid, and the data is stored; otherwise nothing changes |
| App.FreelanceOS.AddExpense | js/app.js:1030-1058 | an expense is put first exactly when the trimmed description is not blank and the amount is positive, and the data is stored; otherwise nothing changes |
| App.FreelanceOS.AddProject | js/app.js:1235-1265 | a project is put first exactly when the trimmed title and description are not blank, and the data is stored; otherwise nothing changes |
| App.FreelanceOS.EditProject | js/app.js:1270-1281 | the first project with that id is returned as a filled-in form and every project with that id is removed without asking; an unknown id changes nothing |
| App.FreelanceOS.DeleteProject | js/app.js:1286-1292 | every project with that id is removed when asking is off or the user confirmed; otherwise nothing changes |
| App.FreelanceOS.StartTimer | js/app.js:378-393 | the timer is running afterwards and nothing else changes |
| App.FreelanceOS.PauseTimer | js/app.js:398-405 | the timer is stopped afterwards and nothing else changes |
| App.FreelanceOS.ResetTimer | js/app.js:410-418 | the timer is stopped on a work session at the configured work length; the session count is kept |
| App.FreelanceOS.UpdateTimerSettings | js/app.js:478-483 | the time becomes the work length only when stopped on a work session; otherwise it is kept |
| App.FreelanceOS.LogPomodoroSession | js/app.js:488-504 | a session of that type with its configured length is appended and the data stored |
| App.FreelanceOS.TimerComplete | js/app.js:423-455 | the timer stops, the finished session is logged, and the next session and count follow the work/break/long-break cycle with that session's length |
| App.FreelanceOS.Tick | js/app.js:381-387 | one second is taken off; at zero or below the session completes (stopped, logged, stored, next session and its length), otherwise nothing else changes |
| Finance.IncomeTable | js/finance.js:27-40 | one row per year-and-month key that has records, in the order the keys first appear, each holding the sum of the amounts with that key |
| Finance.IncomeTableCoversMonths | js/finance.js:29-34 | every record's month has a row, and no month has two |
| Finance.IncomeLog.constructor | js/finance.js:24-42 | the table is drawn from the stored records: one row per year-and-month key in order of first appearance with that key's sum, and none when the stored text does not parse |
| Finance.IncomeLog.RenderIncomeTable | js/finance.js:24-41 | the rows are the income table of the stored records; unparsable stored text leaves the table empty |
| Finance.IncomeLog.Submit | js/finance.js:8-22 | a NaN rate or hours (or unparsable storage) stores nothing; otherwise one record {date, amount = rate × hours} is appended at the end and the table is redrawn as the income table of the new records |
| Finance.LocalMonthEastOfUtc | js/finance.js:64 | at or east of UTC the month read back from a date-only value is the month written in it |
| Finance.LocalMonthWestOfUtc | js/finance.js:64 | west of UTC an expense dated the 1st of March is bucketed under February as written, but under March by the written month |
| Finance.MonthSummary | js/finance.js:55-66 | one entry per month index that has expenses, holding the sum of their amounts; the year plays no part |
| Finance.SameMonthSharesBucket | js/finance.js:64-65 | two expenses in the same month of different years land in the same entry |
| Finance.BarOrderIsStringOrder | js/finance.js:70 | the bar order lists every month once, in string order of the month index, so "10" and "11" come before "2" |
| Finance.MaxTotal | js/finance.js:69 | the largest total, at least 0, bounds every total |
| Finance.BarWidthBound | js/finance.js:73 | when the largest total is positive, no bar is wider than 100% and the largest total's bar is exactly 100% |
| Finance.KeysIn | js/finance.js:70 | the months of an order that have an entry, and only those |
| Finance.BarsFor | js/finance.js:70-76 | one bar per listed month, in the order listed |
| Finance.DrawBars | js/finance.js:68-76 | the drawn bars are the chart's bars for the summary |
| Finance.BarsSpec | js/finance.js:69-76 | every month in the summary has a bar, and the bars go in string order of the month index |
| Finance.ExpenseLog.constructor | js/finance.js:93 | start-up renders from the given storage: the stored expenses listed, their per-month totals (corrected bucketing) and the bars drawn from them, or nothing shown when the stored text does not parse |
| Finance.ExpenseLog.Render | js/finance.js:52-77 | the list shows the stored expenses, the summary holds their totals per month as written in the date (the corrected bucketing of the Findings table) and the bars are drawn from it; unparsable stored text changes nothing |
| Finance.ExpenseLog.Save | js/finance.js:79 | the whole array is written under the key and rendered: listed, totalled per month (corrected bucketing) and drawn as bars |
| Finance.ExpenseLog.Add | js/finance.js:81-91 | accepted exactly for a non-blank title, a number and a date (and parsable storage); then {title, amount, date} is appended at the end, stored and rendered, totalled per month (corrected bucketing) with its bars; otherwise nothing changes |
| Finance.ExpenseLog.Delete | js/finance.js:61 | the expense at that position is removed, the rest keep their order, and the list is stored and rendered, totalled per month (corrected bucketing) with its bars |
| Pomodoro.ClockText | js/pomodoro.js:34-37 | the display text is at least "mm:ss" long |
| Pomodoro.ClockTextRoundTrip | js/pomodoro.js:34-37 | below 100 minutes the display is exactly "mm:ss", both fields two digits, seconds below 60, and it reads back as the number of seconds |
| Pomodoro.LoadLogs | js/pomodoro.js:17-26 | loading as written lists the stored log reversed, oldest entry at the top |
| Pomodoro.LoadLogsNewestFirst | js/pomodoro.js:17-26 | corrected loading lists the stored log in stored order, newest first |
| Pomodoro.ReloadMovesNewestEntry | js/pomodoro.js:17-26 | as written, a just-completed session is at the top of the page but at the bottom after a reload |
| Pomodoro.ReloadKeepsOrder | js/pomodoro.js:28-31 | with newest-first loading, the list on the page after a session is the list a reload shows, while the log is under its cap |
| Pomodoro.Countdown.constructor | js/pomodoro.js:73-75 | 25 minutes remaining, no ticker, the stored log listed newest first (the corrected loading of the Findings table) and the time displayed; unparsable stored text stops start-up with an empty list |
| Pomodoro.Countdown.Start | js/pomodoro.js:56-59 | afterwards a ticker is set, and a start while one is set changes nothing, so at most one ticker is active |
| Pomodoro.Countdown.Stop | js/pomodoro.js:60-65 | afterwards no ticker is set and the remaining time is untouched |
| Pomodoro.Countdown.Reset | js/pomodoro.js:66-71 | no ticker, the full duration remaining, and the display shows it; 0 ≤ remaining ≤ duration is kept |
| Pomodoro.Countdown.SaveLog | js/pomodoro.js:28-32 | the entry goes first and at most the 20 newest are kept; unparsable stored text saves nothing |
| Pomodoro.Countdown.Tick | js/pomodoro.js:40-54 | above 0 exactly one second comes off; at 0 the ticker is cleared, one entry is logged and listed, and the full duration is restored, so completion comes one tick after reaching 0; 0 ≤ remaining ≤ duration is kept |
| Portfolio.Cards | js/portfolio.js:41-50 | one card per stored project, in order, showing its title and description, with a "View" link exactly when its link is non-empty |
| Portfolio.DeleteShiftsCards | js/portfolio.js:47 | after a delete, the cards after the deleted one move up by one and the cards before it stay, each unchanged |
| Portfolio.ProjectShelf.constructor | js/portfolio.js:33-40 | the page shows the stored projects, none when the key is absent |
| Portfolio.ProjectShelf.Render | js/portfolio.js:38-51 | afterwards the page shows what storage holds |
| Portfolio.ProjectShelf.Save | js/portfolio.js:52 | the whole array is written under the key and then shown |
| Portfolio.ProjectShelf.Add | js/portfolio.js:54-64 | accepted exactly when the trimmed title and description are non-empty (and storage parses); then the trimmed project is appended to the stored list, an absent key counting as empty; otherwise nothing changes |
| Portfolio.ProjectShelf.Delete | js/portfolio.js:47 | the project at that position is removed, the others keep their order, and the list is stored |
| Tasks.DailyPlanner.constructor | js/tasks.js:1-9 | the page shows the stored tasks |
| Tasks.DailyPlanner.Render | js/tasks.js:9-31 | afterwards the page shows what storage holds |
| Tasks.DailyPlanner.Save | js/tasks.js:33-36 | the whole array is written back under the same key and then shown |
| Tasks.DailyPlanner.Add | js/tasks.js:38-46 | blank input (or unparsable storage) changes nothing; otherwise the trimmed text, not done, is appended and the list stored |
| Tasks.DailyPlanner.SetDone | js/tasks.js:17 | that task's done flag becomes the checkbox state and no other task changes |
| Tasks.DailyPlanner.SetText | js/tasks.js:22 | that task's text becomes the typed value verbatim, with no trimming or emptiness check, and no other task changes |
| Tasks.DailyPlanner.Delete | js/tasks.js:26 | that task is removed and the rest keep their order |

## Left out

- Rendering and page glue are not modelled: `innerHTML` templating, event-listener wiring, CSS, notifications, `alert`, and the breadcrumb and shortcut panels (`showBreadcrumb`, `showSectionShortcuts`). Only the data a page shows is modelled (the filtered task list, the cards, the log items, the chart figures).
- Timers (`setInterval`, `setTimeout`) become explicit calls: one `Tick` per second, and no notion of elapsed time.
- Locale formatting and date parsing are not modelled: `toFixed`, `toLocaleString`, `Format.currency`, `DateTime.formatDate` / `formatTime` / `getMonthName` / `getCurrentMonthYear` / `formatDuration`, `Format.percentage`, `Format.fileSize`, `Validation.isValidNumber`. Dates are integer tuples, and money is `real` with no rounding.
- `Validation.isValidUrl` is not modelled, because it delegates to the browser's `URL` constructor.
- The DOM helpers, `debounce` and `throttle` in js/utils.js are not modelled; they are browser plumbing.
- `JSON.parse` / `JSON.stringify` and `localStorage` are abstracted as a map from key to "blank, unparsable or parsed".
- App.FreelanceOS.constructor: `loadData` merges the stored object into the defaults field by field (`{...this.data, ...parsed}`). The model treats stored data as a whole record, so a stored object that lacks some arrays is not modelled.
- App.FreelanceOS.SaveData: the error that `saveData` catches and only logs (storage full) is not modelled; a save always succeeds.
- App.FreelanceOS.ResetTimer: the settings come in as whole numbers. The NaN that `parseInt` yields for an empty field is not modelled. The same holds for UpdateTimerSettings, TimerComplete and LogPomodoroSession.
- App.TimerText: for a non-negative time it states only that the text is at least "mm:ss" long. The exact "mm:ss" shape below 100 minutes is Pomodoro.ClockTextRoundTrip. The text the source would show for a negative time is not modelled.
- Utils.Truncate: lengths are counted in characters (code points), while `length` and `substring` count UTF-16 code units. Text with characters outside the Basic Multilingual Plane is cut at a different place, and a cut inside a surrogate pair cannot be represented by a sequence of characters.
- Payments.FilterResult: the case mapping behind `toLowerCase` covers the ASCII letters only, so a client name or query with other letters (such as "É") is compared without lower-casing them. The same gap applies to Payments.Matches.
- Payments.PaymentTracker.ApplyFilters: the client filter uses the same ASCII-only lower-casing as Payments.FilterResult.
- Payments.CapitalizeFirst: upper-cases ASCII letters only, and so keeps the length. JavaScript's `toUpperCase` maps all of Unicode and can lengthen the text (a leading 'ß' becomes "SS").
- Notes.SearchNotesIff: the lower-casing of content and query covers the ASCII letters only; the same holds for Notes.SearchNotes.
- Pomodoro.Countdown.constructor: lists the stored log newest first, the corrected loading (Pomodoro.LoadLogsNewestFirst). The page script's start-up uses `loadLogs`, which shows it oldest first; that behaviour is Pomodoro.LoadLogs and the first row of the Findings table.
- Finance.ExpenseLog.Render: buckets each expense under the month written in its date (Finance.MonthOf), the corrected bucketing. The page script reads the local month of UTC midnight, which west of UTC moves expenses dated the 1st into the previous month; that behaviour is Finance.LocalMonthAsWritten and the second row of the Findings table.
- Finance.ExpenseLog.constructor: renders after its change, so its per-month summary uses the same corrected bucketing as Finance.ExpenseLog.Render, not the local month the page script reads.
- Finance.ExpenseLog.Save: renders after its change, so its per-month summary uses the same corrected bucketing as Finance.ExpenseLog.Render, not the local month the page script reads.
- Finance.ExpenseLog.Add: renders after its change, so its per-month summary uses the same corrected bucketing as Finance.ExpenseLog.Render, not the local month the page script reads.
- Finance.ExpenseLog.Delete: renders after its change, so its per-month summary uses the same corrected bucketing as Finance.ExpenseLog.Render, not the local month the page script reads.
- Storage writes never fail in the model. `localStorage.setItem` can throw (quota exceeded, private browsing), which `Storage.save` turns into `false` (modelled by Utils.Storage.Save). The direct writes of the earnings, payments, expenses, notes, auth, theme, navigation, finance, pomodoro, portfolio and tasks modules and `saveData` in js/app.js are modelled as always succeeding.
- Category and section names are map keys in the model. In js/expenses.js the colour table and the per-category totals are plain objects, so a category named like an `Object.prototype` member ("constructor", "toString") would behave differently there. The category select cannot produce such a name.
- Pomodoro.ClockText: states only the minimum length; the exact shape is proved in Pomodoro.ClockTextRoundTrip.
- Notes.SearchNotes: its own contract gives only the empty-query case and a bound on the result's length; which notes a non-empty query keeps is Notes.SearchNotesIff.
- App.ChartHeights: its own contract gives only the number of bars; the heights' bounds are App.ChartHeightsBound.
- Dragging (`makeDraggable` in js/app.js, the mouse and touch handlers in js/notes.js) keeps only the final position written back (App.FreelanceOS.UpdateStickyPosition) and the clamp arithmetic (Notes.Clamp, Notes.DragPosition).
- Resume upload and download (`handleResumeUpload`, `downloadResume`, and the resume part of js/portfolio.js) are not modelled; they go through `FileReader` and file download.
- The exports are not modelled: `exportTasks`, `exportNoteAsText`, `exportNoteAsPDF`, `exportEarnings`, `exportExpenses` and `exportNotes` build a `Blob` and download it or open a print window. The one export that is plain text building, the payments CSV, is modelled.
- `loadSavedNote` and `clearNotepad` only copy strings between form fields and are not modelled.
- The following are page set-up and display with no record logic, and are not modelled:
  - in js/app.js: `handleAuth`, `logout`, `initTheme`, `toggleTheme`, `setTheme`, `switchSection`, `switchTab`, `updateDateTime`, `showRandomQuote`;
  - `calculateEarnings`, which only displays the product.

  Separate modules own these for the pages that use them (Auth, Theme, Navigation).
- Earnings: `autoCalculate` and `updateCalculationDisplay` only display figures and are not modelled. `renderIncomeChart` is not modelled: its six-month loop builds chart labels and bar percentages, and the per-month sums it draws are Earnings' monthly totals.
- Expenses: `getMonthlyExpenseTrend` is not modelled. Its six-month loop formats month names, and the per-month sums are the filter-and-sum pattern modelled by Expenses.MonthlyExpenses. The chart's pixel widths and percentages are not modelled either.
- Navigation: `getCurrentSection` and `getNavigationHistory` are plain field and storage reads. The `sectionChanged` event is modelled as a list of sent events; that it is dispatched on `window` but listened for on `document` (js/navigation.js:115, js/navigation.js:293) is not modelled. The `popstate` handler only calls `showSection`, which Navigation.Navigation.ShowSection models.
- Theme: `getCurrentTheme`, `getThemeColors` and `updateThemeIcon` read or display fixed values and are not modelled.
- Payments: `formatDateTime`, `formatCurrency`, `escapeHtml` and the integration buttons only format text or show messages, and are not modelled.
- Finance.LocalMonthAsWritten: time zones are reduced to one offset from UTC in minutes.
- Ids come from `Date.now()` in the source. The model takes them as parameters and does not rule out two records sharing an id, as the source does not.
- Object keys that are numbers in the source (the month buckets of js/finance.js) are modelled as integer map keys, and the year-month key as a pair.

## Findings

| source | as written | input that shows it | evidently intended | confidence | as-written member | corrected member |
|---|---|---|---|---|---|---|
| js/pomodoro.js:17-26 | `loadLogs` walks the stored log, which is newest first, and prepends each item to the page list, so after a reload the oldest session is at the top | stored log ["B", "A"] (B newest); after a reload the page lists "A" above "B", while a session completed on the page is put at the top | the page list keeps the stored, newest-first order across reloads | medium, not executed | Pomodoro.LoadLogs, Pomodoro.ReloadMovesNewestEntry | Pomodoro.LoadLogsNewestFirst, Pomodoro.ReloadKeepsOrder |
| js/finance.js:64 | the expense summary takes the month of a date-only value with `new Date(ex.date).getMonth()`, which reads the date as midnight UTC and returns the local month | an expense dated 2024-03-01 viewed at UTC-5 is bucketed under February | bucket each expense under the month written in its date | medium, not executed | Finance.LocalMonthAsWritten, Finance.LocalMonthWestOfUtc | Finance.MonthSummary |
