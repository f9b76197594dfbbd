/**
 * js/app.js: the FreelanceOS application object. Everything it keeps lives in
 * one `data` record (tasks, sticky notes, saved notes, income and expense
 * records, projects, pomodoro sessions) that is written whole to storage after
 * each change; the dashboard, the financial summaries and the expense chart are
 * derived from it. Beside it sits the pomodoro timer with its work / break /
 * long-break cycle.
 */
module App {
  import opened Base
  import opened Utils
  import Pomodoro

  /** The storage key saveData writes `this.data` under. */
  const DataKey := "freelanceOS_data"
  /** The timer's starting time: 25 minutes, in seconds. */
  const InitialTime: int := 25 * 60
  /** Every fourth completed work session is followed by a long break. */
  const LongBreakEvery: nat := 4

  datatype Task = Task(id: int, text: string, completed: bool, createdAt: Date)

  /** A sticky note; x and y are its position in pixels inside the board. */
  datatype StickyNote = StickyNote(id: int, content: string, x: real, y: real, color: string)

  datatype SavedNote = SavedNote(id: int, title: string, content: string, date: Date)

  datatype IncomeRecord = IncomeRecord(id: int, client: string, description: string, rate: real, hours: real, amount: real, date: Date)

  datatype ExpenseRecord = ExpenseRecord(id: int, description: string, amount: real, category: string, date: Date)

  datatype Project = Project(id: int, title: string, description: string, link: string, technologies: seq<string>, date: Date)

  datatype SessionType = Work | Break | LongBreak

  /** A logged pomodoro session; `duration` is the minutes setting of its type when it was logged. */
  datatype Session = Session(id: int, kind: SessionType, date: Date, duration: int)

  /** `this.data` (the resume entry is not part of this model). */
  datatype Data = Data(
    tasks: seq<Task>,
    stickyNotes: seq<StickyNote>,
    savedNotes: seq<SavedNote>,
    incomeRecords: seq<IncomeRecord>,
    expenseRecords: seq<ExpenseRecord>,
    projects: seq<Project>,
    pomodoroSessions: seq<Session>)

  const EmptyData := Data([], [], [], [], [], [], [])

  /** The three duration inputs of the timer settings, in minutes, as parseInt reads them. */
  datatype TimerSettings = TimerSettings(work: int, shortBreak: int, longBreak: int)

  /** What the project form holds after editProject filled it in. */
  datatype ProjectForm = ProjectForm(title: string, description: string, link: string, technologies: string)

  /** The three figures updateDashboard shows. */
  datatype Dashboard = Dashboard(tasksToday: nat, sessionsToday: nat, monthlyIncome: real)

  /** The three figures updateFinancialSummary shows. */
  datatype FinancialSummary = FinancialSummary(currentMonth: real, lastMonth: real, total: real)

  // ---------------------------------------------------------------- tasks

  function HasTaskId(id: int): Task -> bool {
    (t: Task) => t.id == id
  }

  function Completed(): Task -> bool {
    (t: Task) => t.completed
  }

  /** The tasks a "pending" filter or clearCompletedTasks keeps. */
  function Pending(): Task -> bool {
    Not(Completed())
  }

  /** toggleTask on the list: the first task with that id has its completed flag flipped. */
  function Toggled(tasks: seq<Task>, id: int): (r: seq<Task>)
    ensures |r| == |tasks|
    ensures FindIndex(tasks, HasTaskId(id)).None? ==> r == tasks
    ensures FindIndex(tasks, HasTaskId(id)).Some? ==>
              var k := FindIndex(tasks, HasTaskId(id)).value;
              r[k] == tasks[k].(completed := !tasks[k].completed)
              && forall i :: 0 <= i < |r| && i != k ==> r[i] == tasks[i]
  {
    match FindIndex(tasks, HasTaskId(id))
    case None => tasks
    case Some(k) => tasks[k := tasks[k].(completed := !tasks[k].completed)]
  }

  /** Toggling the same id twice gives the list back. */
  lemma ToggleTwice(tasks: seq<Task>, id: int)
    ensures Toggled(Toggled(tasks, id), id) == tasks
  {
    var once := Toggled(tasks, id);
    FindIndexAgree(tasks, once, HasTaskId(id));
  }

  /** Two lists whose elements agree on p, position by position, have the same first p-position. */
  lemma FindIndexAgree<T>(a: seq<T>, b: seq<T>, p: T -> bool)
    requires |a| == |b|
    requires forall i :: 0 <= i < |a| ==> p(a[i]) == p(b[i])
    ensures FindIndex(a, p) == FindIndex(b, p)
  {
  }

  /** renderTasks: "completed" and "pending" select by the flag, any other filter shows every task. */
  function Visible(tasks: seq<Task>, filter: string): (r: seq<Task>)
    ensures filter != "completed" && filter != "pending" ==> r == tasks
  {
    if filter == "completed" then Filter(tasks, Completed())
    else if filter == "pending" then Filter(tasks, Pending())
    else tasks
  }

  /** A task is listed under "completed" exactly when it is done, and under "pending" exactly when it is not. */
  lemma VisibleIff(tasks: seq<Task>, t: Task)
    ensures t in Visible(tasks, "completed") <==> t in tasks && t.completed
    ensures t in Visible(tasks, "pending") <==> t in tasks && !t.completed
  {
    FilterMember(tasks, Completed(), t);
    FilterMember(tasks, Pending(), t);
  }

  /** The "completed" and "pending" lists together hold as many tasks as "all". */
  lemma VisibleCounts(tasks: seq<Task>)
    ensures |Visible(tasks, "completed")| + |Visible(tasks, "pending")| == |Visible(tasks, "all")|
  {
    FilterCountSplit(tasks, Completed());
  }

  /** deleteTask keeps every task with another id as often as before, and none with that id. */
  lemma DeleteTaskKeepsOthers(tasks: seq<Task>, id: int, t: Task)
    ensures multiset(Filter(tasks, Not(HasTaskId(id))))[t] == if t.id != id then multiset(tasks)[t] else 0
  {
    FilterMultiset(tasks, Not(HasTaskId(id)), t);
  }

  /** clearCompletedTasks keeps every pending task as often as before, and no completed one. */
  lemma ClearCompletedKeepsPending(tasks: seq<Task>, t: Task)
    ensures multiset(Filter(tasks, Pending()))[t] == if !t.completed then multiset(tasks)[t] else 0
    ensures forall u :: u in Filter(tasks, Pending()) ==> !u.completed
  {
    FilterMultiset(tasks, Pending(), t);
  }

  // ---------------------------------------------------------------- sticky and saved notes

  function HasStickyId(id: int): StickyNote -> bool {
    (n: StickyNote) => n.id == id
  }

  function HasSavedId(id: int): SavedNote -> bool {
    (n: SavedNote) => n.id == id
  }

  /** saveNote's title: the trimmed title, or 'Untitled Note' when that is empty. */
  function NoteTitle(input: string): (r: string)
    ensures r != ""
    ensures Trim(input) != "" ==> r == Trim(input)
  {
    if Trim(input) != "" then Trim(input) else "Untitled Note"
  }

  // ---------------------------------------------------------------- finance

  /**
   * saveCalculation's record: refused (None) unless the trimmed client name is
   * not empty and rate, hours and their product are all above 0; the
   * description falls back to 'Project work'.
   */
  function Calculation(client: string, rate: Number, hours: Number, description: string, id: int, now: Date): (r: Option<IncomeRecord>)
    ensures r.Some? <==> Trim(client) != "" && Positive(rate) && Positive(hours)
    ensures r.Some? ==> r.value.amount == r.value.rate * r.value.hours && r.value.amount > 0.0
                        && r.value.rate == rate.value && r.value.hours == hours.value
                        && r.value.client == Trim(client) && r.value.date == now && r.value.id == id
                        && (Trim(description) == "" ==> r.value.description == "Project work")
                        && (Trim(description) != "" ==> r.value.description == Trim(description))
  {
    if Trim(client) != "" && Positive(rate) && Positive(hours) && rate.value * hours.value > 0.0 then
      Some(IncomeRecord(id, Trim(client), if Trim(description) != "" then Trim(description) else "Project work",
                        rate.value, hours.value, rate.value * hours.value, now))
    else
      assert Positive(rate) && Positive(hours) ==> rate.value * hours.value > 0.0;
      None
  }

  function IncomeAmount(r: IncomeRecord): real {
    r.amount
  }

  function IncomeInMonth(month: int, year: int): IncomeRecord -> bool {
    (r: IncomeRecord) => InMonth(r.date, month, year)
  }

  /** The income of the records dated in that month of that year. */
  function MonthIncome(records: seq<IncomeRecord>, month: int, year: int): real {
    Sum(Filter(records, IncomeInMonth(month, year)), IncomeAmount)
  }

  function TotalIncome(records: seq<IncomeRecord>): real {
    Sum(records, IncomeAmount)
  }

  /** updateFinancialSummary: this month's income, last month's (January looks at December of last year), all income. */
  function Summary(records: seq<IncomeRecord>, now: Date): (r: FinancialSummary)
    requires ValidDate(now)
    ensures r.currentMonth == MonthIncome(records, now.month, now.year)
    ensures now.month == 0 ==> r.lastMonth == MonthIncome(records, 11, now.year - 1)
    ensures now.month > 0 ==> r.lastMonth == MonthIncome(records, now.month - 1, now.year)
    ensures r.total == TotalIncome(records)
  {
    var last := PreviousMonth(now.month, now.year);
    FinancialSummary(MonthIncome(records, now.month, now.year), MonthIncome(records, last.0, last.1), TotalIncome(records))
  }

  /** A month's income and the income of every other month add up to the total. */
  lemma MonthIncomeSplit(records: seq<IncomeRecord>, month: int, year: int)
    ensures MonthIncome(records, month, year) + Sum(Filter(records, Not(IncomeInMonth(month, year))), IncomeAmount)
            == TotalIncome(records)
  {
    SumFilterSplit(records, IncomeInMonth(month, year), IncomeAmount);
  }

  /** A record put in front adds its amount to its own month's income and to no other month's. */
  lemma MonthIncomePrepend(records: seq<IncomeRecord>, rec: IncomeRecord, month: int, year: int)
    ensures MonthIncome([rec] + records, month, year)
            == MonthIncome(records, month, year) + (if InMonth(rec.date, month, year) then rec.amount else 0.0)
  {
    var p := IncomeInMonth(month, year);
    FilterConcat([rec], records, p);
    assert Filter([rec], p) == (if p(rec) then [rec] else []) + Filter([rec][1..], p);
    SumConcat(Filter([rec], p), Filter(records, p), IncomeAmount);
  }

  /** A saved calculation raises this month's and the total income by its amount and leaves last month's as it was. */
  lemma SavedCalculationCounts(records: seq<IncomeRecord>, rec: IncomeRecord, now: Date)
    requires ValidDate(now) && rec.date == now
    ensures Summary([rec] + records, now).currentMonth == Summary(records, now).currentMonth + rec.amount
    ensures Summary([rec] + records, now).lastMonth == Summary(records, now).lastMonth
    ensures Summary([rec] + records, now).total == Summary(records, now).total + rec.amount
  {
    var last := PreviousMonth(now.month, now.year);
    MonthIncomePrepend(records, rec, now.month, now.year);
    MonthIncomePrepend(records, rec, last.0, last.1);
    SumConcat([rec], records, IncomeAmount);
  }

  function ExpenseAmount(e: ExpenseRecord): real {
    e.amount
  }

  function ExpenseCategory(e: ExpenseRecord): string {
    e.category
  }

  /** updateExpenseSummary: the sum of every expense record. */
  function TotalExpenses(records: seq<ExpenseRecord>): real {
    Sum(records, ExpenseAmount)
  }

  /** addExpense's test: a non-blank description and an amount above 0. */
  predicate ExpenseAcceptable(description: string, amount: Number) {
    Trim(description) != "" && Positive(amount)
  }

  /** The categories renderExpenseChart draws, in order. */
  const ChartCategories: seq<string> := ["office", "software", "equipment", "marketing", "travel", "other"]

  /** A category's total: the sum over the records of that category. */
  function CategorySpend(records: seq<ExpenseRecord>, category: string): real {
    SumWhere(records, ExpenseCategory, category, ExpenseAmount)
  }

  /** renderExpenseChart's categoryTotals, one per chart category. */
  function ChartTotals(records: seq<ExpenseRecord>): (r: seq<real>)
    ensures |r| == |ChartCategories|
    ensures forall i :: 0 <= i < |r| ==> r[i] == CategorySpend(records, ChartCategories[i])
  {
    seq(|ChartCategories|, i requires 0 <= i < |ChartCategories| => CategorySpend(records, ChartCategories[i]))
  }

  /**
   * addExpense, then updateExpenseSummary and renderExpenseChart: the new expense
   * raises the total and its own category's total by its amount, and no other category's.
   */
  lemma AddedExpenseCounts(records: seq<ExpenseRecord>, e: ExpenseRecord, category: string)
    ensures TotalExpenses([e] + records) == TotalExpenses(records) + e.amount
    ensures CategorySpend([e] + records, category)
            == CategorySpend(records, category) + (if e.category == category then e.amount else 0.0)
  {
    assert [e][1..] == [];
    assert Sum([e], ExpenseAmount) == e.amount + Sum([e][1..], ExpenseAmount);
    SumConcat([e], records, ExpenseAmount);
    SumWhereCons(e, records, ExpenseCategory, category, ExpenseAmount);
    assert ExpenseCategory(e) == e.category && ExpenseAmount(e) == e.amount;
  }

  /** `Math.max(...values)` of a non-empty list. */
  function MaxOf(values: seq<real>): (r: real)
    requires |values| > 0
    ensures forall i :: 0 <= i < |values| ==> values[i] <= r
    ensures r in values
  {
    if |values| == 1 then values[0]
    else
      var rest := MaxOf(values[1..]);
      if values[0] > rest then values[0] else rest
  }

  /** A bar's height in pixels: its share of the largest total, times 150; 0 when no total is above 0. */
  function BarHeight(amount: real, max: real): real {
    if max > 0.0 then amount / max * 150.0 else 0.0
  }

  lemma HeightBound(amount: real, max: real)
    requires 0.0 <= amount <= max
    ensures 0.0 <= BarHeight(amount, max) <= 150.0
  {
    if max > 0.0 {
      assert amount / max <= 1.0;
    }
  }

  lemma FullHeight(max: real)
    requires max > 0.0
    ensures BarHeight(max, max) == 150.0
  {
  }

  /** renderExpenseChart's bar heights, one per chart category. */
  function ChartHeights(records: seq<ExpenseRecord>): (r: seq<real>)
    ensures |r| == |ChartCategories|
  {
    var totals := ChartTotals(records);
    var max := MaxOf(totals);
    seq(|totals|, i requires 0 <= i < |totals| => BarHeight(totals[i], max))
  }

  /**
   * With no negative amounts every bar is between 0 and 150 pixels high, and
   * when some category has spending, the category with the most is full height.
   */
  lemma ChartHeightsBound(records: seq<ExpenseRecord>)
    requires forall i :: 0 <= i < |records| ==> records[i].amount >= 0.0
    ensures forall i :: 0 <= i < |ChartCategories| ==> 0.0 <= ChartHeights(records)[i] <= 150.0
    ensures (exists i :: 0 <= i < |ChartCategories| && CategorySpend(records, ChartCategories[i]) > 0.0) ==>
              exists i :: 0 <= i < |ChartCategories| && ChartHeights(records)[i] == 150.0
  {
    var totals := ChartTotals(records);
    var max := MaxOf(totals);
    forall i | 0 <= i < |totals| ensures totals[i] >= 0.0 {
      var kept := Filter(records, KeyIs(ExpenseCategory, ChartCategories[i]));
      forall j | 0 <= j < |kept| ensures ExpenseAmount(kept[j]) >= 0.0 {
        assert kept[j] in records;
      }
      SumNonNegative(kept, ExpenseAmount);
    }
    forall i | 0 <= i < |totals| ensures 0.0 <= BarHeight(totals[i], max) <= 150.0 {
      HeightBound(totals[i], max);
    }
    var k :| 0 <= k < |totals| && totals[k] == max;
    if max > 0.0 {
      FullHeight(max);
      assert ChartHeights(records)[k] == 150.0;
    }
  }

  // ---------------------------------------------------------------- projects

  function HasProjectId(id: int): Project -> bool {
    (p: Project) => p.id == id
  }

  function NonEmpty(): string -> bool {
    (s: string) => s != ""
  }

  /** `parts.map(tech => tech.trim())`. */
  function TrimEach(parts: seq<string>): (r: seq<string>)
    ensures |r| == |parts|
    ensures forall i :: 0 <= i < |r| ==> r[i] == Trim(parts[i])
  {
    seq(|parts|, i requires 0 <= i < |parts| => Trim(parts[i]))
  }

  /** addProject's technologies: the trimmed input split at commas, each piece trimmed, empty pieces dropped. */
  function Technologies(input: string): (r: seq<string>)
    ensures forall t :: t in r ==> t != ""
  {
    Filter(TrimEach(Split(Trim(input), ',')), NonEmpty())
  }

  /** Every technology is non-empty, already trimmed, and holds no comma. */
  lemma TechnologiesClean(input: string, t: string)
    requires t in Technologies(input)
    ensures t != "" && Trim(t) == t && ',' !in t
  {
    var parts := Split(Trim(input), ',');
    var trimmed := TrimEach(parts);
    assert t in trimmed;
    var i :| 0 <= i < |trimmed| && trimmed[i] == t;
    TrimIdempotent(parts[i]);
    TrimSpec(parts[i]);
  }

  // ---------------------------------------------------------------- dashboard

  function CreatedOn(day: Date): Task -> bool {
    (t: Task) => SameDay(t.createdAt, day)
  }

  function LoggedOn(day: Date): Session -> bool {
    (s: Session) => SameDay(s.date, day)
  }

  /** updateDashboard: the tasks created today, the sessions logged today, this month's income. */
  function DashboardOf(data: Data, now: Date): (r: Dashboard)
    ensures r.tasksToday == |Filter(data.tasks, CreatedOn(now))| <= |data.tasks|
    ensures r.sessionsToday == |Filter(data.pomodoroSessions, LoggedOn(now))| <= |data.pomodoroSessions|
    ensures r.monthlyIncome == MonthIncome(data.incomeRecords, now.month, now.year)
  {
    Dashboard(|Filter(data.tasks, CreatedOn(now))|, |Filter(data.pomodoroSessions, LoggedOn(now))|,
              MonthIncome(data.incomeRecords, now.month, now.year))
  }

  /**
   * The dashboard counts exactly the tasks created and the sessions logged on
   * the same calendar day as now, each as often as it is stored, and the ones
   * from other days make up the rest of the lists.
   */
  lemma DashboardCountsToday(data: Data, now: Date, t: Task, s: Session)
    ensures multiset(Filter(data.tasks, CreatedOn(now)))[t]
            == if SameDay(t.createdAt, now) then multiset(data.tasks)[t] else 0
    ensures multiset(Filter(data.pomodoroSessions, LoggedOn(now)))[s]
            == if SameDay(s.date, now) then multiset(data.pomodoroSessions)[s] else 0
    ensures DashboardOf(data, now).tasksToday + |Filter(data.tasks, Not(CreatedOn(now)))| == |data.tasks|
    ensures DashboardOf(data, now).sessionsToday + |Filter(data.pomodoroSessions, Not(LoggedOn(now)))|
            == |data.pomodoroSessions|
  {
    FilterMultiset(data.tasks, CreatedOn(now), t);
    FilterMultiset(data.pomodoroSessions, LoggedOn(now), s);
    FilterCountSplit(data.tasks, CreatedOn(now));
    FilterCountSplit(data.pomodoroSessions, LoggedOn(now));
  }

  /** A task added now raises the dashboard's task count by one and nothing else. */
  lemma AddedTaskCountsToday(data: Data, t: Task, now: Date)
    requires t.createdAt == now
    ensures DashboardOf(data.(tasks := [t] + data.tasks), now)
            == DashboardOf(data, now).(tasksToday := DashboardOf(data, now).tasksToday + 1)
  {
    FilterConcat([t], data.tasks, CreatedOn(now));
    assert Filter([t], CreatedOn(now)) == [t] + Filter([t][1..], CreatedOn(now));
  }

  /** A session logged now raises the dashboard's session count by one and nothing else. */
  lemma LoggedSessionCountsToday(data: Data, s: Session, now: Date)
    requires s.date == now
    ensures DashboardOf(data.(pomodoroSessions := data.pomodoroSessions + [s]), now)
            == DashboardOf(data, now).(sessionsToday := DashboardOf(data, now).sessionsToday + 1)
  {
    FilterConcat(data.pomodoroSessions, [s], LoggedOn(now));
    assert Filter([s], LoggedOn(now)) == [s] + Filter([s][1..], LoggedOn(now));
  }

  // ---------------------------------------------------------------- timer

  /** logPomodoroSession's duration: the minutes setting of the session's type. */
  function DurationOf(kind: SessionType, settings: TimerSettings): int {
    match kind
    case Work => settings.work
    case Break => settings.shortBreak
    case LongBreak => settings.longBreak
  }

  /**
   * The session that follows a completed one, with the updated count of work
   * sessions: a work session raises the count and is followed by a long break
   * when the new count is a multiple of 4, else by a short break; a break is
   * followed by work and leaves the count alone.
   */
  function NextSession(kind: SessionType, count: nat): (r: (SessionType, nat))
    ensures kind == Work ==> r.1 == count + 1 && (r.0 == LongBreak <==> r.1 % LongBreakEvery == 0) && r.0 != Work
    ensures kind != Work ==> r == (Work, count)
  {
    if kind == Work then
      if (count + 1) % LongBreakEvery == 0 then (LongBreak, count + 1) else (Break, count + 1)
    else (Work, count)
  }

  /** The session and count after n completions in a row. */
  function Completions(kind: SessionType, count: nat, n: nat): (SessionType, nat) {
    if n == 0 then (kind, count)
    else
      var prev := Completions(kind, count, n - 1);
      NextSession(prev.0, prev.1)
  }

  /**
   * One round of the cycle: from work with a count that is a multiple of 4,
   * completions alternate work and break, the first three breaks are short, the
   * fourth is long, and after eight completions it is work again with the count
   * four higher.
   */
  lemma {:induction false} FullCycle(k: nat)
    ensures Completions(Work, 4 * k, 1) == (Break, 4 * k + 1)
    ensures Completions(Work, 4 * k, 2) == (Work, 4 * k + 1)
    ensures Completions(Work, 4 * k, 3) == (Break, 4 * k + 2)
    ensures Completions(Work, 4 * k, 4) == (Work, 4 * k + 2)
    ensures Completions(Work, 4 * k, 5) == (Break, 4 * k + 3)
    ensures Completions(Work, 4 * k, 6) == (Work, 4 * k + 3)
    ensures Completions(Work, 4 * k, 7) == (LongBreak, 4 * k + 4)
    ensures Completions(Work, 4 * k, 8) == (Work, 4 * k + 4)
  {
    assert (4 * k + 1) % 4 == 1 && (4 * k + 2) % 4 == 2 && (4 * k + 3) % 4 == 3 && (4 * k + 4) % 4 == 0;
    assert Completions(Work, 4 * k, 0) == (Work, 4 * k);
    assert Completions(Work, 4 * k, 1) == (Break, 4 * k + 1);
    assert Completions(Work, 4 * k, 2) == (Work, 4 * k + 1);
    assert Completions(Work, 4 * k, 3) == (Break, 4 * k + 2);
    assert Completions(Work, 4 * k, 4) == (Work, 4 * k + 2);
    assert Completions(Work, 4 * k, 5) == (Break, 4 * k + 3);
    assert Completions(Work, 4 * k, 6) == (Work, 4 * k + 3);
    assert Completions(Work, 4 * k, 7) == (LongBreak, 4 * k + 4);
  }

  /** updateTimerDisplay's label of a session type. */
  function TimerLabel(kind: SessionType): string {
    match kind
    case Work => "Work Session"
    case Break => "Short Break"
    case LongBreak => "Long Break"
  }

  // ---------------------------------------------------------------- editing a project round trip

  /** The pieces splitting `a, b, c` at commas gives: every piece after the first keeps the space after its comma. */
  function SpacedTail(ts: seq<string>): (r: seq<string>)
    ensures |r| == |ts|
    ensures forall i :: 0 <= i < |r| ==> r[i] == " " + ts[i]
  {
    seq(|ts|, i requires 0 <= i < |ts| => " " + ts[i])
  }

  /** Splitting a ", "-join of comma-free pieces at the commas. */
  lemma {:induction false} SplitCommaJoin(ts: seq<string>, lead: string)
    requires |ts| >= 1 && ',' !in lead
    requires forall i :: 0 <= i < |ts| ==> ',' !in ts[i]
    ensures Split(lead + Join(ts, ", "), ',') == [lead + ts[0]] + SpacedTail(ts[1..])
  {
    if |ts| == 1 {
      SplitNoSep(lead + ts[0], ',');
      assert SpacedTail(ts[1..]) == [];
    } else {
      var rest := Join(ts[1..], ", ");
      assert lead + Join(ts, ", ") == (lead + ts[0]) + [','] + (" " + rest);
      SplitAppend(lead + ts[0], " " + rest, ',');
      SplitCommaJoin(ts[1..], " ");
      assert ts[1..][1..] == ts[2..];
      assert SpacedTail(ts[1..]) == [" " + ts[1]] + SpacedTail(ts[2..]);
    }
  }

  lemma SplitCommaJoinTop(ts: seq<string>)
    requires |ts| >= 1
    requires forall i :: 0 <= i < |ts| ==> ',' !in ts[i]
    ensures Split(Join(ts, ", "), ',') == [ts[0]] + SpacedTail(ts[1..])
  {
    SplitCommaJoin(ts, "");
    assert "" + Join(ts, ", ") == Join(ts, ", ");
    assert "" + ts[0] == ts[0];
  }

  /** A ", "-join of non-empty pieces starts with the first piece's first character and ends with the last piece's last. */
  lemma {:induction false} JoinEnds(ts: seq<string>)
    requires |ts| >= 1 && forall i :: 0 <= i < |ts| ==> ts[i] != ""
    ensures var j := Join(ts, ", ");
            |j| >= 1 && j[0] == ts[0][0] && j[|j| - 1] == ts[|ts| - 1][|ts[|ts| - 1]| - 1]
  {
    if |ts| > 1 {
      JoinEnds(ts[1..]);
    }
  }

  /** A string that neither starts nor ends with white space is its own trim. */
  lemma TrimmedAlready(s: string)
    requires s == [] || (!IsSpace(s[0]) && !IsSpace(s[|s| - 1]))
    ensures Trim(s) == s
  {
  }

  /** A non-empty string that is its own trim neither starts nor ends with white space. */
  lemma TrimmedEnds(s: string)
    requires s != "" && Trim(s) == s
    ensures !IsSpace(s[0]) && !IsSpace(s[|s| - 1])
  {
    TrimSpec(s);
  }

  /** A trimmed, non-empty piece with one space put in front trims back to itself. */
  lemma TrimSpaced(t: string)
    requires t != "" && Trim(t) == t
    ensures Trim(" " + t) == t
  {
    TrimmedEnds(t);
    assert (" " + t)[1..] == t;
    assert TrimStart(" " + t) == TrimStart(t);
    TrimmedAlready(t);
  }

  /** A ", "-join of trimmed, non-empty pieces neither starts nor ends with white space. */
  lemma JoinCleanEnds(ts: seq<string>)
    requires |ts| >= 1
    requires forall i :: 0 <= i < |ts| ==> ts[i] != "" && Trim(ts[i]) == ts[i]
    ensures var j := Join(ts, ", "); |j| >= 1 && !IsSpace(j[0]) && !IsSpace(j[|j| - 1])
  {
    JoinEnds(ts);
    TrimmedEnds(ts[0]);
    TrimmedEnds(ts[|ts| - 1]);
  }

  /** A ", "-join of trimmed, non-empty pieces is already trimmed. */
  lemma JoinTrimmed(ts: seq<string>)
    requires |ts| >= 1
    requires forall i :: 0 <= i < |ts| ==> ts[i] != "" && Trim(ts[i]) == ts[i]
    ensures Trim(Join(ts, ", ")) == Join(ts, ", ")
  {
    JoinCleanEnds(ts);
    TrimmedAlready(Join(ts, ", "));
  }

  /**
   * editProject fills the technologies field with the list joined by ", ";
   * submitting that text again gives back the same list, as long as every
   * technology is non-empty, trimmed and free of commas (which is what
   * addProject stores).
   */
  lemma TechnologiesRoundTrip(ts: seq<string>)
    requires forall i :: 0 <= i < |ts| ==> ts[i] != "" && Trim(ts[i]) == ts[i] && ',' !in ts[i]
    ensures Technologies(Join(ts, ", ")) == ts
  {
    if ts == [] {
      assert Trim("") == "";
      assert Split("", ',') == [""];
      assert TrimEach([""]) == [""];
      assert Filter([""], NonEmpty()) == [];
    } else {
      var j := Join(ts, ", ");
      JoinTrimmed(ts);
      SplitCommaJoinTop(ts);
      TrimEachSpaced(ts);
      var parts := Split(Trim(j), ',');
      assert TrimEach(parts) == ts;
      FilterAll(ts, NonEmpty());
    }
  }

  /** Trimming the pieces of a ", "-join of trimmed, non-empty pieces gives the pieces. */
  lemma TrimEachSpaced(ts: seq<string>)
    requires |ts| >= 1
    requires forall i :: 0 <= i < |ts| ==> ts[i] != "" && Trim(ts[i]) == ts[i]
    ensures TrimEach([ts[0]] + SpacedTail(ts[1..])) == ts
  {
    var pieces := [ts[0]] + SpacedTail(ts[1..]);
    forall i | 0 <= i < |pieces| ensures Trim(pieces[i]) == ts[i] {
      if i > 0 {
        TrimSpaced(ts[i]);
      }
    }
  }

  /** addProject's record from the form: refused (None) when the trimmed title or description is empty. */
  function ProjectFrom(form: ProjectForm, id: int, now: Date): (r: Option<Project>)
    ensures r.Some? <==> Trim(form.title) != "" && Trim(form.description) != ""
    ensures r.Some? ==> r.value.title == Trim(form.title) && r.value.description == Trim(form.description)
                        && r.value.link == Trim(form.link) && r.value.id == id && r.value.date == now
                        && forall t :: t in r.value.technologies ==> t != ""
  {
    if Trim(form.title) != "" && Trim(form.description) != "" then
      Some(Project(id, Trim(form.title), Trim(form.description), Trim(form.link), Technologies(form.technologies), now))
    else None
  }

  /** What editProject puts in the form for a project. */
  function FormOf(p: Project): ProjectForm {
    ProjectForm(p.title, p.description, p.link, Join(p.technologies, ", "))
  }

  /** Every project addProject makes is clean: its fields trimmed, title and description non-empty, technologies clean. */
  predicate CleanProject(p: Project) {
    p.title != "" && Trim(p.title) == p.title && p.description != "" && Trim(p.description) == p.description
    && Trim(p.link) == p.link
    && forall i :: 0 <= i < |p.technologies| ==> p.technologies[i] != "" && Trim(p.technologies[i]) == p.technologies[i] && ',' !in p.technologies[i]
  }

  /** addProject only ever makes clean projects. */
  lemma AddedProjectIsClean(form: ProjectForm, id: int, now: Date)
    requires ProjectFrom(form, id, now).Some?
    ensures CleanProject(ProjectFrom(form, id, now).value)
  {
    var p := ProjectFrom(form, id, now).value;
    TrimIdempotent(form.title);
    TrimIdempotent(form.description);
    TrimIdempotent(form.link);
    forall i | 0 <= i < |p.technologies|
      ensures p.technologies[i] != "" && Trim(p.technologies[i]) == p.technologies[i] && ',' !in p.technologies[i]
    {
      TechnologiesClean(form.technologies, p.technologies[i]);
    }
  }

  /**
   * editProject then submitting the form unchanged gives the same project back,
   * under the new id and date, for every project addProject made.
   */
  lemma EditThenAddRestores(p: Project, id: int, now: Date)
    requires CleanProject(p)
    ensures ProjectFrom(FormOf(p), id, now) == Some(p.(id := id, date := now))
  {
    TechnologiesRoundTrip(p.technologies);
  }

  // ---------------------------------------------------------------- seeding

  /** The demo tasks loadInitialData puts in; `stamp` is Date.now(). */
  function DemoTasks(stamp: int, now: Date): seq<Task> {
    [Task(stamp - 1000, "Complete client website design", false, now),
     Task(stamp - 2000, "Send invoice to ABC Corp", true, now)]
  }

  function DemoProjects(stamp: int, now: Date): seq<Project> {
    [Project(stamp - 3000, "E-commerce Website",
             "Built a modern e-commerce platform with shopping cart, payment integration, and admin dashboard.",
             "https://example.com", ["HTML", "CSS", "JavaScript", "Node.js"], now)]
  }

  /** loadInitialData on the data: the demo set replaces tasks and projects only when both are empty. */
  function Seeded(data: Data, stamp: int, now: Date): (r: Data)
    ensures data.tasks == [] && data.projects == [] ==>
              r == data.(tasks := DemoTasks(stamp, now), projects := DemoProjects(stamp, now))
    ensures data.tasks != [] || data.projects != [] ==> r == data
  {
    if data.tasks == [] && data.projects == [] then
      data.(tasks := DemoTasks(stamp, now), projects := DemoProjects(stamp, now))
    else data
  }

  /** Seeding once is enough: a second seeding, at any time, changes nothing. */
  lemma SeedOnce(data: Data, stamp: int, now: Date, stamp2: int, now2: Date)
    ensures Seeded(Seeded(data, stamp, now), stamp2, now2) == Seeded(data, stamp, now)
  {
  }

  // ---------------------------------------------------------------- the application object

  class FreelanceOS {
    var data: Data
    var store: map<string, Item<Data>>
    /** timerState: an interval is set exactly while isRunning. */
    var isRunning: bool
    /** Seconds left in the current session. */
    var currentTime: int
    var currentSession: SessionType
    /** Work sessions completed so far. */
    var sessionCount: nat

    /**
     * new FreelanceOS(): the timer starts at 25 minutes of work, not running;
     * loadData reads the stored data (absent, empty or unparsable text keeps
     * the empty lists), then loadInitialData seeds the demo set.
     */
    constructor (store: map<string, Item<Data>>, stamp: int, now: Date)
      ensures !isRunning && currentTime == InitialTime && currentSession == Work && sessionCount == 0
      ensures data == Seeded(Load(store, DataKey, EmptyData), stamp, now)
      ensures data != Load(store, DataKey, EmptyData) ==> this.store == store[DataKey := Parsed(data)]
      ensures data == Load(store, DataKey, EmptyData) ==> this.store == store
    {
      isRunning := false;
      currentTime := InitialTime;
      currentSession := Work;
      sessionCount := 0;
      data := Load(store, DataKey, EmptyData);
      this.store := store;
      new;
      LoadInitialData(stamp, now);
    }

    /** saveData: the whole data record under one key. */
    method SaveData()
      modifies this`store
      ensures store == old(store)[DataKey := Parsed(data)]
    {
      store := store[DataKey := Parsed(data)];
    }

    /** loadInitialData: seed the demo set when there are no tasks and no projects, and save it. */
    method LoadInitialData(stamp: int, now: Date)
      modifies this`data, this`store
      ensures data == Seeded(old(data), stamp, now)
      ensures data != old(data) ==> store == old(store)[DataKey := Parsed(data)]
      ensures data == old(data) ==> store == old(store)
    {
      if data.tasks == [] && data.projects == [] {
        data := data.(tasks := DemoTasks(stamp, now), projects := DemoProjects(stamp, now));
        SaveData();
      }
    }

    // ------------------------------------------------------------ tasks

    /** addTask: blank input is ignored; otherwise the trimmed text, not completed, goes first. */
    method AddTask(input: string, id: int, now: Date) returns (added: bool)
      modifies this`data, this`store
      ensures added <==> Trim(input) != ""
      ensures !added ==> data == old(data) && store == old(store)
      ensures added ==> data == old(data).(tasks := [Task(id, Trim(input), false, now)] + old(data.tasks))
                        && store == old(store)[DataKey := Parsed(data)]
    {
      var text := Trim(input);
      if text == "" {
        return false;
      }
      data := data.(tasks := [Task(id, text, false, now)] + data.tasks);
      SaveData();
      added := true;
    }

    /** toggleTask: flip the first task with that id; an unknown id changes nothing. */
    method ToggleTask(id: int)
      modifies this`data, this`store
      ensures data == old(data).(tasks := Toggled(old(data.tasks), id))
      ensures FindIndex(old(data.tasks), HasTaskId(id)).None? ==> store == old(store)
      ensures FindIndex(old(data.tasks), HasTaskId(id)).Some? ==> store == old(store)[DataKey := Parsed(data)]
    {
      var k := FindIndex(data.tasks, HasTaskId(id));
      if k.Some? {
        var i := k.value;
        data := data.(tasks := data.tasks[i := data.tasks[i].(completed := !data.tasks[i].completed)]);
        SaveData();
      }
    }

    /**
     * editTask: the prompt's answer (None when cancelled) replaces the first
     * task with that id's text, trimmed, unless it is blank.
     */
    method EditTask(id: int, answer: Option<string>)
      modifies this`data, this`store
      ensures var k := FindIndex(old(data.tasks), HasTaskId(id));
              if k.Some? && answer.Some? && Trim(answer.value) != "" then
                data == old(data).(tasks := old(data.tasks)[k.value := old(data.tasks)[k.value].(text := Trim(answer.value))])
                && store == old(store)[DataKey := Parsed(data)]
              else
                data == old(data) && store == old(store)
    {
      var k := FindIndex(data.tasks, HasTaskId(id));
      if k.Some? && answer.Some? && Trim(answer.value) != "" {
        var i := k.value;
        data := data.(tasks := data.tasks[i := data.tasks[i].(text := Trim(answer.value))]);
        SaveData();
      }
    }

    /** deleteTask: when confirmed, drop every task with that id. */
    method DeleteTask(id: int, confirmed: bool)
      modifies this`data, this`store
      ensures !confirmed ==> data == old(data) && store == old(store)
      ensures confirmed ==> data == old(data).(tasks := Filter(old(data.tasks), Not(HasTaskId(id))))
                            && store == old(store)[DataKey := Parsed(data)]
    {
      if confirmed {
        data := data.(tasks := Filter(data.tasks, Not(HasTaskId(id))));
        SaveData();
      }
    }

    /** clearCompletedTasks: when confirmed, keep only the pending tasks, in order. */
    method ClearCompletedTasks(confirmed: bool)
      modifies this`data, this`store
      ensures !confirmed ==> data == old(data) && store == old(store)
      ensures confirmed ==> data == old(data).(tasks := Filter(old(data.tasks), Pending()))
                            && store == old(store)[DataKey := Parsed(data)]
    {
      if confirmed {
        data := data.(tasks := Filter(data.tasks, Pending()));
        SaveData();
      }
    }

    // ------------------------------------------------------------ sticky notes

    /** addStickyNote: an empty gold note at a random spot (x below 300, y below 200) goes last. */
    method AddStickyNote(id: int, x: real, y: real)
      requires 0.0 <= x < 300.0 && 0.0 <= y < 200.0
      modifies this`data, this`store
      ensures data == old(data).(stickyNotes := old(data.stickyNotes) + [StickyNote(id, "", x, y, "#ffd700")])
      ensures store == old(store)[DataKey := Parsed(data)]
    {
      data := data.(stickyNotes := data.stickyNotes + [StickyNote(id, "", x, y, "#ffd700")]);
      SaveData();
    }

    /** deleteStickyNote: drop every note with that id, without asking. */
    method DeleteStickyNote(id: int)
      modifies this`data, this`store
      ensures data == old(data).(stickyNotes := Filter(old(data.stickyNotes), Not(HasStickyId(id))))
      ensures store == old(store)[DataKey := Parsed(data)]
    {
      data := data.(stickyNotes := Filter(data.stickyNotes, Not(HasStickyId(id))));
      SaveData();
    }

    /** updateStickyNote: the first note with that id gets the content; an unknown id changes nothing. */
    method UpdateStickyNote(id: int, content: string)
      modifies this`data, this`store
      ensures var k := FindIndex(old(data.stickyNotes), HasStickyId(id));
              if k.Some? then
                data == old(data).(stickyNotes := old(data.stickyNotes)[k.value := old(data.stickyNotes)[k.value].(content := content)])
                && store == old(store)[DataKey := Parsed(data)]
              else
                data == old(data) && store == old(store)
    {
      var k := FindIndex(data.stickyNotes, HasStickyId(id));
      if k.Some? {
        var i := k.value;
        data := data.(stickyNotes := data.stickyNotes[i := data.stickyNotes[i].(content := content)]);
        SaveData();
      }
    }

    /** updateStickyPosition: the first note with that id moves to (x, y); an unknown id changes nothing. */
    method UpdateStickyPosition(id: int, x: real, y: real)
      modifies this`data, this`store
      ensures var k := FindIndex(old(data.stickyNotes), HasStickyId(id));
              if k.Some? then
                data == old(data).(stickyNotes := old(data.stickyNotes)[k.value := old(data.stickyNotes)[k.value].(x := x, y := y)])
                && store == old(store)[DataKey := Parsed(data)]
              else
                data == old(data) && store == old(store)
    {
      var k := FindIndex(data.stickyNotes, HasStickyId(id));
      if k.Some? {
        var i := k.value;
        data := data.(stickyNotes := data.stickyNotes[i := data.stickyNotes[i].(x := x, y := y)]);
        SaveData();
      }
    }

    /** clearStickyNotes: when confirmed, no sticky notes are left. */
    method ClearStickyNotes(confirmed: bool)
      modifies this`data, this`store
      ensures !confirmed ==> data == old(data) && store == old(store)
      ensures confirmed ==> data == old(data).(stickyNotes := []) && store == old(store)[DataKey := Parsed(data)]
    {
      if confirmed {
        data := data.(stickyNotes := []);
        SaveData();
      }
    }

    // ------------------------------------------------------------ saved notes

    /** saveNote: blank content is refused; otherwise the note goes first, titled 'Untitled Note' when the title is blank. */
    method SaveNote(title: string, content: string, id: int, now: Date) returns (saved: bool)
      modifies this`data, this`store
      ensures saved <==> Trim(content) != ""
      ensures !saved ==> data == old(data) && store == old(store)
      ensures saved ==> data == old(data).(savedNotes := [SavedNote(id, NoteTitle(title), Trim(content), now)] + old(data.savedNotes))
                        && store == old(store)[DataKey := Parsed(data)]
    {
      var text := Trim(content);
      if text == "" {
        return false;
      }
      data := data.(savedNotes := [SavedNote(id, NoteTitle(title), text, now)] + data.savedNotes);
      SaveData();
      saved := true;
    }

    /** deleteSavedNote: when confirmed, drop every saved note with that id. */
    method DeleteSavedNote(id: int, confirmed: bool)
      modifies this`data, this`store
      ensures !confirmed ==> data == old(data) && store == old(store)
      ensures confirmed ==> data == old(data).(savedNotes := Filter(old(data.savedNotes), Not(HasSavedId(id))))
                            && store == old(store)[DataKey := Parsed(data)]
    {
      if confirmed {
        data := data.(savedNotes := Filter(data.savedNotes, Not(HasSavedId(id))));
        SaveData();
      }
    }

    // ------------------------------------------------------------ finance

    /** saveCalculation: a valid calculation goes first among the income records; anything else changes nothing. */
    method SaveCalculation(client: string, rate: Number, hours: Number, description: string, id: int, now: Date)
      returns (saved: bool)
      modifies this`data, this`store
      ensures saved <==> Calculation(client, rate, hours, description, id, now).Some?
      ensures !saved ==> data == old(data) && store == old(store)
      ensures saved ==> data == old(data).(incomeRecords := [Calculation(client, rate, hours, description, id, now).value]
                                                            + old(data.incomeRecords))
                        && store == old(store)[DataKey := Parsed(data)]
    {
      var r := Calculation(client, rate, hours, description, id, now);
      if r.None? {
        return false;
      }
      data := data.(incomeRecords := [r.value] + data.incomeRecords);
      SaveData();
      saved := true;
    }

    /** addExpense: a non-blank description and an amount above 0 put the expense first; otherwise nothing changes. */
    method AddExpense(description: string, amount: Number, category: string, id: int, now: Date) returns (added: bool)
      modifies this`data, this`store
      ensures added <==> ExpenseAcceptable(description, amount)
      ensures !added ==> data == old(data) && store == old(store)
      ensures added ==> data == old(data).(expenseRecords := [ExpenseRecord(id, Trim(description), amount.value, category, now)]
                                                             + old(data.expenseRecords))
                        && store == old(store)[DataKey := Parsed(data)]
    {
      if !ExpenseAcceptable(description, amount) {
        return false;
      }
      data := data.(expenseRecords := [ExpenseRecord(id, Trim(description), amount.value, category, now)] + data.expenseRecords);
      SaveData();
      added := true;
    }

    // ------------------------------------------------------------ projects

    /** addProject: needs a non-blank title and description; the project goes first. */
    method AddProject(title: string, description: string, link: string, technologies: string, id: int, now: Date)
      returns (added: bool)
      modifies this`data, this`store
      ensures added <==> ProjectFrom(ProjectForm(title, description, link, technologies), id, now).Some?
      ensures !added ==> data == old(data) && store == old(store)
      ensures added ==> data == old(data).(projects := [ProjectFrom(ProjectForm(title, description, link, technologies), id, now).value]
                                                       + old(data.projects))
                        && store == old(store)[DataKey := Parsed(data)]
    {
      var p := ProjectFrom(ProjectForm(title, description, link, technologies), id, now);
      if p.None? {
        return false;
      }
      data := data.(projects := [p.value] + data.projects);
      SaveData();
      added := true;
    }

    /**
     * editProject: the first project with that id fills the form, and every
     * project with that id is removed without asking; an unknown id changes nothing.
     */
    method EditProject(id: int) returns (form: Option<ProjectForm>)
      modifies this`data, this`store
      ensures var k := FindIndex(old(data.projects), HasProjectId(id));
              if k.Some? then
                var p := old(data.projects)[k.value];
                form == Some(FormOf(p))
                && data == old(data).(projects := Filter(old(data.projects), Not(HasProjectId(id))))
                && store == old(store)[DataKey := Parsed(data)]
              else
                form.None? && data == old(data) && store == old(store)
    {
      var k := FindIndex(data.projects, HasProjectId(id));
      if k.None? {
        return None;
      }
      var p := data.projects[k.value];
      form := Some(FormOf(p));
      DeleteProject(id, false, false);
    }

    /** deleteProject: removes every project with that id when asking is off or the user confirmed. */
    method DeleteProject(id: int, ask: bool, confirmed: bool)
      modifies this`data, this`store
      ensures ask && !confirmed ==> data == old(data) && store == old(store)
      ensures !ask || confirmed ==> data == old(data).(projects := Filter(old(data.projects), Not(HasProjectId(id))))
                                    && store == old(store)[DataKey := Parsed(data)]
    {
      if !ask || confirmed {
        data := data.(projects := Filter(data.projects, Not(HasProjectId(id))));
        SaveData();
      }
    }

    // ------------------------------------------------------------ timer

    /** startTimer: sets the interval only when not running. */
    method StartTimer()
      modifies this`isRunning
      ensures isRunning
    {
      if !isRunning {
        isRunning := true;
      }
    }

    /** pauseTimer: clears the interval when running; the time left is kept. */
    method PauseTimer()
      modifies this`isRunning
      ensures !isRunning
    {
      if isRunning {
        isRunning := false;
      }
    }

    /** resetTimer: not running, a work session, the work setting's minutes in seconds. */
    method ResetTimer(settings: TimerSettings)
      modifies this`isRunning, this`currentTime, this`currentSession
      ensures !isRunning && currentSession == Work && currentTime == settings.work * 60
    {
      isRunning := false;
      currentTime := settings.work * 60;
      currentSession := Work;
    }

    /** updateTimerSettings: a stopped work session takes the new work duration; otherwise nothing changes. */
    method UpdateTimerSettings(settings: TimerSettings)
      modifies this`currentTime
      ensures !isRunning && currentSession == Work ==> currentTime == settings.work * 60
      ensures isRunning || currentSession != Work ==> currentTime == old(currentTime)
    {
      if !isRunning && currentSession == Work {
        currentTime := settings.work * 60;
      }
    }

    /** logPomodoroSession: the session, with its type's minutes setting, goes last, and the data is saved. */
    method LogPomodoroSession(kind: SessionType, id: int, now: Date, settings: TimerSettings)
      modifies this`data, this`store
      ensures data == old(data).(pomodoroSessions := old(data.pomodoroSessions) + [Session(id, kind, now, DurationOf(kind, settings))])
      ensures store == old(store)[DataKey := Parsed(data)]
    {
      data := data.(pomodoroSessions := data.pomodoroSessions + [Session(id, kind, now, DurationOf(kind, settings))]);
      SaveData();
    }

    /**
     * timerComplete: stop, log the session that just ended, and move to the
     * next session with the full time of its type.
     */
    method TimerComplete(id: int, now: Date, settings: TimerSettings)
      modifies this`isRunning, this`currentTime, this`currentSession, this`sessionCount, this`data, this`store
      ensures !isRunning
      ensures data == old(data).(pomodoroSessions := old(data.pomodoroSessions) + [Session(id, old(currentSession), now, DurationOf(old(currentSession), settings))])
      ensures store == old(store)[DataKey := Parsed(data)]
      ensures (currentSession, sessionCount) == NextSession(old(currentSession), old(sessionCount))
      ensures currentTime == DurationOf(currentSession, settings) * 60
    {
      isRunning := false;
      LogPomodoroSession(currentSession, id, now, settings);
      if currentSession == Work {
        sessionCount := sessionCount + 1;
        if sessionCount % LongBreakEvery == 0 {
          currentSession := LongBreak;
          currentTime := settings.longBreak * 60;
        } else {
          currentSession := Break;
          currentTime := settings.shortBreak * 60;
        }
      } else {
        currentSession := Work;
        currentTime := settings.work * 60;
      }
    }

    /**
     * The interval callback, which only exists while running: one second comes
     * off, and at 0 or below the session completes.
     */
    method Tick(id: int, now: Date, settings: TimerSettings)
      requires isRunning
      modifies this`isRunning, this`currentTime, this`currentSession, this`sessionCount, this`data, this`store
      ensures old(currentTime) - 1 > 0 ==> currentTime == old(currentTime) - 1 && isRunning
                                           && currentSession == old(currentSession) && sessionCount == old(sessionCount)
                                           && data == old(data) && store == old(store)
      ensures old(currentTime) - 1 <= 0 ==>
                !isRunning && (currentSession, sessionCount) == NextSession(old(currentSession), old(sessionCount))
                && currentTime == DurationOf(currentSession, settings) * 60
                && data == old(data).(pomodoroSessions := old(data.pomodoroSessions) + [Session(id, old(currentSession), now, DurationOf(old(currentSession), settings))])
                && store == old(store)[DataKey := Parsed(data)]
    {
      currentTime := currentTime - 1;
      if currentTime <= 0 {
        TimerComplete(id, now, settings);
      }
    }
  }

  /** updateTimerDisplay's clock text for a time that is not negative: "mm:ss". */
  function TimerText(seconds: nat): (r: string)
    ensures |r| >= 5
  {
    Pomodoro.ClockText(seconds)
  }
}
