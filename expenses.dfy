/**
 * js/expenses.js: the expenses tracker. New expenses go to the front of the
 * stored list; the displayed total, the current month's per-category chart
 * figures and the statistics are derived from it.
 */
module Expenses {
  import opened Base
  import opened Utils

  const ExpensesKey := "freelanceos_expenses"
  /** renderExpensesList shows at most this many entries. */
  const RecentCount: nat := 10
  /** The colour of a category getCategoryColor does not know. */
  const OtherColor := "#6b7280"

  /** An expense; `date` and `createdAt` are the save time (new Date().toISOString()), read back as a local date. */
  datatype Expense = Expense(id: int, description: string, amount: real, category: string, date: Date, createdAt: Date)

  /**
   * The object getExpenseStats returns. Its literal names `totalExpenses`
   * twice, first for the sum and then for the count; the later key wins, so
   * the field holds the number of expenses.
   */
  datatype ExpenseStats = ExpenseStats(
    totalExpenses: real,
    averagePerExpense: real,
    monthlyTotal: real,
    categoryTotals: map<string, real>)

  function Amount(e: Expense): real {
    e.amount
  }

  /** updateTotalExpenses: the sum of all amounts. */
  function Total(expenses: seq<Expense>): real {
    Sum(expenses, Amount)
  }

  function CategoryOf(e: Expense): string {
    e.category
  }

  function OfCategory(category: string): (r: Expense -> bool)
    ensures forall e :: r(e) <==> CategoryOf(e) == category
  {
    KeyIs(CategoryOf, category)
  }

  function InMonthOf(month: int, year: int): Expense -> bool {
    (e: Expense) => InMonth(e.date, month, year)
  }

  function HasId(id: int): Expense -> bool {
    (e: Expense) => e.id == id
  }

  function InRange(start: Date, end: Date): Expense -> bool {
    (e: Expense) => DateLe(start, e.date) && DateLe(e.date, end)
  }

  /** `count > 0 ? total / count : 0`. */
  function Average(total: real, count: nat): (r: real)
    ensures count == 0 ==> r == 0.0
    ensures count > 0 ==> r * (count as real) == total
  {
    if count > 0 then total / (count as real) else 0.0
  }

  /** getExpensesByCategory. */
  function ByCategory(expenses: seq<Expense>, category: string): (r: seq<Expense>)
    ensures forall e :: e in r ==> e in expenses && e.category == category
  {
    Filter(expenses, OfCategory(category))
  }

  /** getExpensesByDateRange. */
  function ByDateRange(expenses: seq<Expense>, start: Date, end: Date): (r: seq<Expense>)
    ensures forall e :: e in r ==> e in expenses && DateLe(start, e.date) && DateLe(e.date, end)
  {
    Filter(expenses, InRange(start, end))
  }

  /** getExpensesByCategory keeps exactly the expenses of that category. */
  lemma ByCategoryIff(expenses: seq<Expense>, category: string, e: Expense)
    ensures e in ByCategory(expenses, category) <==> e in expenses && e.category == category
  {
    FilterMember(expenses, OfCategory(category), e);
  }

  /** getExpensesByDateRange is inclusive at both ends. */
  lemma ByDateRangeIff(expenses: seq<Expense>, start: Date, end: Date, e: Expense)
    ensures e in ByDateRange(expenses, start, end) <==> e in expenses && DateLe(start, e.date) && DateLe(e.date, end)
  {
    FilterMember(expenses, InRange(start, end), e);
  }

  /** An expense dated exactly at either bound of a non-empty range is in it. */
  lemma ByDateRangeBounds(expenses: seq<Expense>, e: Expense, other: Date)
    requires e in expenses && DateLe(e.date, other)
    ensures e in ByDateRange(expenses, e.date, other)
    ensures DateLe(other, e.date) ==> e in ByDateRange(expenses, other, e.date)
  {
    ByDateRangeIff(expenses, e.date, other, e);
    ByDateRangeIff(expenses, other, e.date, e);
  }

  /** The total of one category's expenses, the figure the chart and the statistics show for it. */
  function CategoryTotal(expenses: seq<Expense>, category: string): real {
    Total(ByCategory(expenses, category))
  }

  /** One category's total plus the total of every other category's expenses is the overall total. */
  lemma CategoryPartition(expenses: seq<Expense>, category: string)
    ensures CategoryTotal(expenses, category) + Total(Filter(expenses, Not(OfCategory(category)))) == Total(expenses)
  {
    SumFilterSplit(expenses, OfCategory(category), Amount);
  }

  /** `totals` has one entry per category occurring in `expenses`, holding that category's total. */
  ghost predicate TotalsOf(totals: map<string, real>, expenses: seq<Expense>) {
    Totals(totals, expenses, CategoryOf, Amount)
  }

  /**
   * The categoryTotals accumulation (renderExpenseChart and getExpenseStats):
   * one entry per category that occurs, holding that category's total.
   */
  method CategoryTotals(expenses: seq<Expense>) returns (totals: map<string, real>)
    ensures TotalsOf(totals, expenses)
    ensures totals == map[] <==> expenses == []
  {
    totals := map[];
    var i := 0;
    while i < |expenses|
      invariant 0 <= i <= |expenses|
      invariant TotalsOf(totals, expenses[..i])
      invariant i == 0 ==> totals == map[]
    {
      TotalsPrefixStep(totals, expenses, i, CategoryOf, Amount);
      totals := AddTo(totals, CategoryOf(expenses[i]), Amount(expenses[i]));
      i := i + 1;
    }
    assert expenses[..i] == expenses;
    if expenses != [] {
      assert expenses[0] in expenses;
      assert expenses[0].category in totals;
    }
  }

  /** The expenses of a given month of a given year. */
  function MonthlyExpenses(expenses: seq<Expense>, month: int, year: int): (r: seq<Expense>)
    ensures forall e :: e in r ==> e in expenses && InMonth(e.date, month, year)
  {
    Filter(expenses, InMonthOf(month, year))
  }

  /** The chart's expenses are exactly those dated in the current month and year. */
  lemma MonthlyExpensesIff(expenses: seq<Expense>, month: int, year: int, e: Expense)
    ensures e in MonthlyExpenses(expenses, month, year) <==> e in expenses && InMonth(e.date, month, year)
  {
    FilterMember(expenses, InMonthOf(month, year), e);
  }

  /**
   * The figures of renderExpenseChart: the current month's category totals;
   * an empty map is the "No expenses this month" branch.
   */
  method ChartTotals(expenses: seq<Expense>, now: Date) returns (totals: map<string, real>)
    ensures TotalsOf(totals, MonthlyExpenses(expenses, now.month, now.year))
    ensures totals == map[] <==> forall e :: e in expenses ==> !InMonth(e.date, now.month, now.year)
  {
    var monthly := MonthlyExpenses(expenses, now.month, now.year);
    totals := CategoryTotals(monthly);
    forall e ensures e in monthly <==> e in expenses && InMonth(e.date, now.month, now.year) {
      MonthlyExpensesIff(expenses, now.month, now.year, e);
    }
    if monthly != [] {
      assert monthly[0] in monthly;
    }
  }

  /**
   * getCategoryColor: the four named categories have their own colours;
   * anything else gets the colour of 'other'.
   */
  function CategoryColor(category: string): (r: string)
    ensures category == "business" ==> r == "#3b82f6"
    ensures category == "personal" ==> r == "#f59e0b"
    ensures category == "equipment" ==> r == "#10b981"
    ensures category == "software" ==> r == "#8b5cf6"
    ensures category !in {"business", "personal", "equipment", "software"} ==> r == OtherColor
  {
    if category == "business" then "#3b82f6"
    else if category == "personal" then "#f59e0b"
    else if category == "equipment" then "#10b981"
    else if category == "software" then "#8b5cf6"
    else OtherColor
  }

  /** The entries renderExpensesList shows: the first ten, newest first. */
  function RecentExpenses(expenses: seq<Expense>): (r: seq<Expense>)
    ensures |r| <= RecentCount
    ensures |expenses| <= RecentCount ==> r == expenses
    ensures |expenses| > RecentCount ==> r == expenses[..RecentCount]
  {
    Take(expenses, RecentCount)
  }

  /** Whether addExpense accepts the form: a non-blank description and an amount above 0. */
  predicate Acceptable(description: string, amount: Number) {
    Trim(description) != "" && OrZero(amount) > 0.0
  }

  class ExpensesTracker {
    var expenses: seq<Expense>
    /** The text of the total-expenses display, as a number. */
    var displayedTotal: real
    var store: map<string, Item<seq<Expense>>>

    /** The display shows the sum of the list. */
    ghost predicate Valid()
      reads this
    {
      displayedTotal == Total(expenses)
    }

    /** new ExpensesTracker(): loadExpenses, then updateTotalExpenses. */
    constructor (store: map<string, Item<seq<Expense>>>)
      ensures expenses == Load(store, ExpensesKey, [])
      ensures this.store == store
      ensures Valid()
    {
      expenses := Load(store, ExpensesKey, []);
      displayedTotal := Total(Load(store, ExpensesKey, []));
      this.store := store;
    }

    /**
     * addExpense: refused (nothing changes) for a blank description or an
     * amount that is not above 0; otherwise the new expense goes first and the
     * list is stored.
     */
    method AddExpense(description: string, amount: Number, category: string, id: int, now: Date) returns (ok: bool)
      requires Valid()
      modifies this
      ensures Valid()
      ensures ok <==> Acceptable(description, amount)
      ensures !ok ==> expenses == old(expenses) && store == old(store)
      ensures ok ==> expenses == [Expense(id, Trim(description), OrZero(amount), category, now, now)] + old(expenses)
                     && store == old(store)[ExpensesKey := Parsed(expenses)]
                     && displayedTotal == old(displayedTotal) + OrZero(amount)
    {
      ok := Acceptable(description, amount);
      if !ok {
        return;
      }
      var e := Expense(id, Trim(description), OrZero(amount), category, now, now);
      var updated := [e] + expenses;
      assert updated[1..] == expenses;
      expenses := updated;
      store := store[ExpensesKey := Parsed(updated)];
      displayedTotal := Total(updated);
    }

    /** deleteExpense: when confirmed, drop every expense with that id and store the rest. */
    method DeleteExpense(id: int, confirmed: bool)
      requires Valid()
      modifies this
      ensures Valid()
      ensures !confirmed ==> expenses == old(expenses) && store == old(store)
      ensures confirmed ==> expenses == Filter(old(expenses), Not(HasId(id)))
                            && store == old(store)[ExpensesKey := Parsed(expenses)]
      ensures forall e :: e in expenses ==> e in old(expenses)
      ensures confirmed ==> forall e :: e in expenses ==> e.id != id
    {
      if confirmed {
        expenses := Filter(expenses, Not(HasId(id)));
        store := store[ExpensesKey := Parsed(expenses)];
        displayedTotal := Total(expenses);
      }
    }

    /**
     * getExpenseStats at time `now`. The average is the sum over the count,
     * the monthly total covers the current month, and `totalExpenses` is the count.
     */
    method GetExpenseStats(now: Date) returns (r: ExpenseStats)
      ensures r.totalExpenses == |expenses| as real
      ensures r.averagePerExpense == Average(Total(expenses), |expenses|)
      ensures r.monthlyTotal == Total(MonthlyExpenses(expenses, now.month, now.year))
      ensures TotalsOf(r.categoryTotals, expenses)
    {
      var total := Total(expenses);
      var average := Average(total, |expenses|);
      var monthlyTotal := Total(MonthlyExpenses(expenses, now.month, now.year));
      var totals := CategoryTotals(expenses);
      r := ExpenseStats(|expenses| as real, average, monthlyTotal, totals);
    }
  }

  /** Deleting by id keeps every expense with another id exactly as often as before, and none with that id. */
  lemma DeleteKeepsOthers(expenses: seq<Expense>, id: int, e: Expense)
    ensures multiset(Filter(expenses, Not(HasId(id))))[e] == if e.id != id then multiset(expenses)[e] else 0
  {
    FilterMultiset(expenses, Not(HasId(id)), e);
  }

  /** A delete lowers the total by exactly the amounts of the expenses with that id. */
  lemma DeleteLowersTotal(expenses: seq<Expense>, id: int)
    ensures Total(Filter(expenses, Not(HasId(id)))) + Total(Filter(expenses, HasId(id))) == Total(expenses)
  {
    SumFilterSplit(expenses, HasId(id), Amount);
  }
}
