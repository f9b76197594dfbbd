/**
 * js/finance.js: the finance page. An earnings form appends income records and
 * a table totals them per calendar month; an expense form appends expenses, a
 * list shows them with delete buttons, and a bar chart totals them per month
 * of the year.
 */
module Finance {
  import opened Base
  import opened Utils

  const IncomeKey := "incomeRecords"
  const ExpenseKey := "expenses"

  // ------------------------------------------------------------ income

  /** One income record; `date` is the save time (toISOString), read back as a local date. */
  datatype IncomeRecord = IncomeRecord(date: Date, amount: real)

  /** The income table's key `${getFullYear()}-${getMonth()+1}`, held as the pair it is built from. */
  datatype MonthKey = MonthKey(year: int, month: int)

  /** One table row: a month and the total of its records. */
  datatype IncomeRow = IncomeRow(key: MonthKey, total: real)

  function KeyOf(r: IncomeRecord): MonthKey {
    MonthKey(r.date.year, r.date.month + 1)
  }

  function IncomeAmount(r: IncomeRecord): real {
    r.amount
  }

  /**
   * renderIncomeTable's rows: one per calendar month that has records, in the
   * order the months first appear, each with the sum of that month's amounts.
   */
  method IncomeTable(records: seq<IncomeRecord>) returns (rows: seq<IncomeRow>)
    ensures |rows| == |FirstKeys(records, KeyOf)|
    ensures forall i :: 0 <= i < |rows| ==>
              rows[i].key == FirstKeys(records, KeyOf)[i]
              && rows[i].total == SumWhere(records, KeyOf, rows[i].key, IncomeAmount)
  {
    var keys: seq<MonthKey> := [];
    var totals: map<MonthKey, real> := map[];
    var i := 0;
    while i < |records|
      invariant 0 <= i <= |records|
      invariant Totals(totals, records[..i], KeyOf, IncomeAmount)
      invariant keys == FirstKeys(records[..i], KeyOf)
    {
      TotalsPrefixStep(totals, records, i, KeyOf, IncomeAmount);
      FirstKeysPrefixStep(records, i, KeyOf);
      if KeyOf(records[i]) !in keys {
        keys := keys + [KeyOf(records[i])];
      }
      totals := AddTo(totals, KeyOf(records[i]), IncomeAmount(records[i]));
      i := i + 1;
    }
    assert records[..i] == records;
    FirstKeysSpec(records, KeyOf);
    assert forall k :: k in keys ==> k in totals;
    rows := RowsOf(keys, totals);
  }

  /** The table rows for the months `keys`, read from the running totals. */
  function RowsOf(keys: seq<MonthKey>, totals: map<MonthKey, real>): (r: seq<IncomeRow>)
    requires forall k :: k in keys ==> k in totals
    ensures |r| == |keys|
    ensures forall i :: 0 <= i < |r| ==> r[i].key == keys[i] && r[i].total == totals[keys[i]]
  {
    seq(|keys|, j requires 0 <= j < |keys| => IncomeRow(keys[j], totals[keys[j]]))
  }

  /** Every month with a record has exactly one row. */
  lemma IncomeTableCoversMonths(records: seq<IncomeRecord>, r: IncomeRecord)
    requires r in records
    ensures KeyOf(r) in FirstKeys(records, KeyOf)
    ensures forall i, j :: 0 <= i < j < |FirstKeys(records, KeyOf)| ==> FirstKeys(records, KeyOf)[i] != FirstKeys(records, KeyOf)[j]
  {
    FirstKeysSpec(records, KeyOf);
  }

  class IncomeLog {
    var store: map<string, Item<seq<IncomeRecord>>>
    /** The rows of the income table. */
    var rows: seq<IncomeRow>

    function Records(): seq<IncomeRecord>
      reads this
    {
      Load(store, IncomeKey, [])
    }

    /** The page script's start-up: renderIncomeTable. */
    constructor (store: map<string, Item<seq<IncomeRecord>>>)
      ensures this.store == store
      ensures ParseItem(store, IncomeKey, []).None? ==> rows == []
      ensures |rows| == |FirstKeys(Records(), KeyOf)|
      ensures forall i :: 0 <= i < |rows| ==>
                rows[i].key == FirstKeys(Records(), KeyOf)[i]
                && rows[i].total == SumWhere(Records(), KeyOf, rows[i].key, IncomeAmount)
    {
      this.store := store;
      rows := [];
      new;
      RenderIncomeTable();
    }

    /** renderIncomeTable: the table is cleared, then filled from storage; unparsable text leaves it empty. */
    method RenderIncomeTable()
      modifies this`rows
      ensures ParseItem(store, IncomeKey, []).None? ==> rows == []
      ensures |rows| == |FirstKeys(Records(), KeyOf)|
      ensures forall i :: 0 <= i < |rows| ==>
                rows[i].key == FirstKeys(Records(), KeyOf)[i]
                && rows[i].total == SumWhere(Records(), KeyOf, rows[i].key, IncomeAmount)
    {
      var records := Load(store, IncomeKey, []);
      rows := IncomeTable(records);
    }

    /**
     * The earnings form's submit handler: a NaN rate or hours does nothing;
     * otherwise {date, amount = rate × hours} goes at the end of the stored
     * records and the table is redrawn. Unparsable stored text makes JSON.parse
     * throw: nothing is saved.
     */
    method Submit(rate: Number, hours: Number, now: Date) returns (saved: bool)
      modifies this
      ensures saved <==> rate.Num? && hours.Num? && ParseItem(old(store), IncomeKey, []).Some?
      ensures !saved ==> store == old(store) && rows == old(rows)
      ensures saved ==> Records() == old(Records()) + [IncomeRecord(now, rate.value * hours.value)]
                        && store == old(store)[IncomeKey := Parsed(Records())]
                        && |rows| == |FirstKeys(Records(), KeyOf)|
                        && forall i :: 0 <= i < |rows| ==>
                             rows[i].key == FirstKeys(Records(), KeyOf)[i]
                             && rows[i].total == SumWhere(Records(), KeyOf, rows[i].key, IncomeAmount)
    {
      if rate.NaN? || hours.NaN? {
        return false;
      }
      var amount := rate.value * hours.value;
      var parsed := ParseItem(store, IncomeKey, []);
      if parsed.None? {
        return false;
      }
      store := store[IncomeKey := Parsed(parsed.value + [IncomeRecord(now, amount)])];
      RenderIncomeTable();
      saved := true;
    }
  }

  // ---------------------------------------------------------- expenses

  type MonthIndex = m: int | 0 <= m < 12

  /** The value of the date input (type=date): a calendar day, month counted from 0. */
  datatype Day = Day(year: int, month: MonthIndex, day: int)

  datatype Expense = Expense(title: string, amount: real, date: Day)

  /** The width a bar gets: `summary[m] / max * 100 || 0`, which is -Infinity for a negative total when max is 0. */
  datatype Width = Percent(value: real) | NegInfinity

  datatype Bar = Bar(month: MonthIndex, width: Width)

  function ExpenseAmount(e: Expense): real {
    e.amount
  }

  /** The month of the year an expense is bucketed under: the month written in its date. */
  function MonthOf(e: Expense): MonthIndex {
    e.date.month
  }

  /**
   * `new Date(ex.date).getMonth()` as the code computes it: a date-only string
   * is read as midnight UTC, and getMonth() gives the month in local time.
   * `offset` is local time minus UTC in minutes; west of UTC the first day of a
   * month becomes the last day of the previous one.
   */
  function LocalMonthAsWritten(d: Day, offset: int): (r: MonthIndex)
    requires -1440 < offset < 1440
  {
    if offset < 0 && d.day == 1 then PreviousMonth(d.month, d.year).0 else d.month
  }

  /** At or east of UTC the local month is the month written in the date. */
  lemma LocalMonthEastOfUtc(d: Day, offset: int)
    requires 0 <= offset < 1440
    ensures LocalMonthAsWritten(d, offset) == d.month
  {
  }

  /** West of UTC an expense dated the 1st of March is bucketed under February. */
  lemma LocalMonthWestOfUtc()
    ensures LocalMonthAsWritten(Day(2024, 2, 1), -300) == 1
    ensures MonthOf(Expense("rent", 100.0, Day(2024, 2, 1))) == 2
  {
  }

  /** The expense form's test: a non-blank title, a number for the amount, and a date. */
  predicate Acceptable(title: string, amount: Number, date: Option<Day>) {
    Trim(title) != "" && amount.Num? && date.Some?
  }

  /**
   * render's summary: one entry per month of the year that has expenses,
   * holding the sum of their amounts; the year plays no part, so the same month
   * of different years shares one entry.
   */
  method MonthSummary(expenses: seq<Expense>) returns (summary: map<MonthIndex, real>)
    ensures Totals(summary, expenses, MonthOf, ExpenseAmount)
  {
    summary := map[];
    var i := 0;
    while i < |expenses|
      invariant 0 <= i <= |expenses|
      invariant Totals(summary, expenses[..i], MonthOf, ExpenseAmount)
    {
      TotalsPrefixStep(summary, expenses, i, MonthOf, ExpenseAmount);
      summary := AddTo(summary, MonthOf(expenses[i]), ExpenseAmount(expenses[i]));
      i := i + 1;
    }
    assert expenses[..i] == expenses;
  }

  /** Two expenses in the same month of different years land in one summary entry. */
  lemma SameMonthSharesBucket(a: Expense, b: Expense, m: MonthIndex)
    requires a.date.month == m && b.date.month == m
    ensures SumWhere([a, b], MonthOf, m, ExpenseAmount) == a.amount + b.amount
  {
    SumWhereSnoc([a], b, MonthOf, m, ExpenseAmount);
    SumWhereSnoc([], a, MonthOf, m, ExpenseAmount);
    assert [a] == [] + [a];
    assert [a, b] == [a] + [b];
  }

  /** The default sort order of strings: by UTF-16 code unit, a proper prefix first. */
  predicate StrLess(a: string, b: string) {
    if a == [] then b != []
    else if b == [] then false
    else if a[0] != b[0] then a[0] < b[0]
    else StrLess(a[1..], b[1..])
  }

  /** The month indices as `Object.keys(summary).sort()` orders them: as strings, so "10" and "11" come before "2". */
  const BarOrder: seq<MonthIndex> := [0, 1, 10, 11, 2, 3, 4, 5, 6, 7, 8, 9]

  /** BarOrder lists every month once, each step going up in string order. */
  lemma BarOrderIsStringOrder()
    ensures forall m: MonthIndex :: m in BarOrder
    ensures forall i :: 0 <= i < |BarOrder| - 1 ==> StrLess(Decimal(BarOrder[i]), Decimal(BarOrder[i + 1]))
  {
    assert Decimal(10) == "10" && Decimal(11) == "11";
    assert Decimal(0) == "0" && Decimal(1) == "1" && Decimal(2) == "2" && Decimal(3) == "3";
    assert Decimal(4) == "4" && Decimal(5) == "5" && Decimal(6) == "6" && Decimal(7) == "7";
    assert Decimal(8) == "8" && Decimal(9) == "9";
    assert StrLess("1", "10") && StrLess("10", "11") && StrLess("11", "2");
  }

  /** `Math.max(...values, 0)` over the summary entries of the given months. */
  function MaxTotal(months: seq<MonthIndex>, summary: map<MonthIndex, real>): (r: real)
    ensures r >= 0.0
    ensures forall i :: 0 <= i < |months| && months[i] in summary ==> summary[months[i]] <= r
  {
    if months == [] then 0.0
    else
      var rest := MaxTotal(months[1..], summary);
      if months[0] in summary && summary[months[0]] > rest then summary[months[0]] else rest
  }

  /** A bar's width from its total and the largest total. */
  function BarWidth(total: real, max: real): (r: Width)
    requires max >= 0.0
  {
    if max > 0.0 then Percent(total / max * 100.0)
    else if total < 0.0 then NegInfinity
    else Percent(0.0)
  }

  /** The largest total's bar is full width, and no bar is wider. */
  lemma BarWidthBound(total: real, max: real)
    requires max > 0.0 && total <= max
    ensures BarWidth(total, max).value <= 100.0
    ensures total == max ==> BarWidth(total, max).value == 100.0
  {
    assert total / max <= 1.0;
  }

  function BarFor(summary: map<MonthIndex, real>, max: real, m: MonthIndex): Bar
    requires max >= 0.0 && m in summary
  {
    Bar(m, BarWidth(summary[m], max))
  }

  /** The months of `order` that are keys of the summary, in the order of `order`. */
  function KeysIn(order: seq<MonthIndex>, summary: map<MonthIndex, real>): (r: seq<MonthIndex>)
    ensures |r| <= |order|
    ensures forall m :: m in r <==> m in order && m in summary
  {
    if order == [] then []
    else (if order[0] in summary then [order[0]] else []) + KeysIn(order[1..], summary)
  }

  /** `Object.keys(summary).sort()`. */
  function SortedKeys(summary: map<MonthIndex, real>): seq<MonthIndex> {
    KeysIn(BarOrder, summary)
  }

  /** One bar per listed month, in the order listed. */
  function BarsFor(summary: map<MonthIndex, real>, months: seq<MonthIndex>, max: real): (r: seq<Bar>)
    requires max >= 0.0 && forall m :: m in months ==> m in summary
    ensures |r| == |months|
    ensures forall i :: 0 <= i < |r| ==> r[i] == BarFor(summary, max, months[i])
  {
    if months == [] then []
    else BarsFor(summary, months[..|months| - 1], max) + [BarFor(summary, max, months[|months| - 1])]
  }

  /** The chart's bars: one per month in the summary, in string order of the month index. */
  function Bars(summary: map<MonthIndex, real>): (r: seq<Bar>)
  {
    BarsFor(summary, SortedKeys(summary), MaxTotal(BarOrder, summary))
  }

  /**
   * The drawing loop of render: the bar of each month in the summary, in
   * sorted key order, each appended below the ones before it.
   */
  method DrawBars(summary: map<MonthIndex, real>) returns (bars: seq<Bar>)
    ensures bars == Bars(summary)
  {
    var months := SortedKeys(summary);
    var max := MaxTotal(BarOrder, summary);
    bars := [];
    var i := 0;
    while i < |months|
      invariant 0 <= i <= |months|
      invariant bars == BarsFor(summary, months[..i], max)
    {
      assert months[i] in months;
      assert months[..i + 1][..i] == months[..i];
      bars := bars + [BarFor(summary, max, months[i])];
      i := i + 1;
    }
    assert months[..i] == months;
  }

  /** Picking keys out of an order keeps a relation that holds between every earlier and later element. */
  lemma {:induction false} KeysInKeepsOrder(s: seq<MonthIndex>, summary: map<MonthIndex, real>)
    requires forall i, j :: 0 <= i < j < |s| ==> StrLess(Decimal(s[i]), Decimal(s[j]))
    ensures forall i, j :: 0 <= i < j < |KeysIn(s, summary)| ==> StrLess(Decimal(KeysIn(s, summary)[i]), Decimal(KeysIn(s, summary)[j]))
  {
    if s != [] {
      KeysInKeepsOrder(s[1..], summary);
      var rest := KeysIn(s[1..], summary);
      forall y | y in rest ensures StrLess(Decimal(s[0]), Decimal(y)) {
        var k :| 0 <= k < |s[1..]| && s[1..][k] == y;
        assert s[k + 1] == y;
      }
    }
  }

  /** Every month in the summary has exactly one bar, and the bars go in string order of the month index. */
  lemma BarsSpec(summary: map<MonthIndex, real>)
    ensures forall m :: m in summary ==> exists b :: b in Bars(summary) && b.month == m
    ensures forall i, j :: 0 <= i < j < |Bars(summary)| ==> StrLess(Decimal(Bars(summary)[i].month), Decimal(Bars(summary)[j].month))
  {
    var months := SortedKeys(summary);
    BarOrderIsStringOrder();
    StrLessTransitiveOnBarOrder();
    KeysInKeepsOrder(BarOrder, summary);
    forall m | m in summary ensures exists b :: b in Bars(summary) && b.month == m {
      assert m in months;
      var i :| 0 <= i < |months| && months[i] == m;
      assert Bars(summary)[i].month == m;
    }
  }

  /** The string order along BarOrder holds between any earlier and later month, not only neighbours. */
  lemma StrLessTransitiveOnBarOrder()
    ensures forall i, j :: 0 <= i < j < |BarOrder| ==> StrLess(Decimal(BarOrder[i]), Decimal(BarOrder[j]))
  {
    BarOrderIsStringOrder();
    forall i, j | 0 <= i < j < |BarOrder| ensures StrLess(Decimal(BarOrder[i]), Decimal(BarOrder[j])) {
      var k := i;
      while k + 1 < j
        invariant i <= k < j
        invariant StrLess(Decimal(BarOrder[i]), Decimal(BarOrder[k + 1]))
      {
        StrLessTransitive(Decimal(BarOrder[i]), Decimal(BarOrder[k + 1]), Decimal(BarOrder[k + 2]));
        k := k + 1;
      }
    }
  }

  lemma {:induction false} StrLessTransitive(a: string, b: string, c: string)
    requires StrLess(a, b) && StrLess(b, c)
    ensures StrLess(a, c)
  {
    if a != [] && b != [] && c != [] && a[0] == b[0] && b[0] == c[0] {
      StrLessTransitive(a[1..], b[1..], c[1..]);
    }
  }

  class ExpenseLog {
    var store: map<string, Item<seq<Expense>>>
    /** The array the last render parsed, as its delete handlers hold it. */
    var shown: seq<Expense>
    var bars: seq<Bar>
    /** The per-month totals the last render drew its bars from. */
    ghost var summary: map<MonthIndex, real>

    function Stored(): seq<Expense>
      reads this`store
    {
      Load(store, ExpenseKey, [])
    }

    /**
     * render: parse the stored list (a throw here leaves the list and chart as
     * they were), list it, total it per month, and draw the bars.
     */
    method Render()
      modifies this`shown, this`bars, this`summary
      ensures ParseItem(store, ExpenseKey, []).None? ==> shown == old(shown) && bars == old(bars) && summary == old(summary)
      ensures ParseItem(store, ExpenseKey, []).Some? ==>
                shown == Stored() && Totals(summary, Stored(), MonthOf, ExpenseAmount) && bars == Bars(summary)
    {
      var parsed := ParseItem(store, ExpenseKey, []);
      if parsed.Some? {
        var expenses := parsed.value;
        shown := expenses;
        var totals := MonthSummary(expenses);
        summary := totals;
        bars := DrawBars(totals);
      }
    }

    /** The page script's start-up: render. */
    constructor (store: map<string, Item<seq<Expense>>>)
      ensures this.store == store
      ensures ParseItem(store, ExpenseKey, []).None? ==> shown == [] && bars == []
      ensures ParseItem(store, ExpenseKey, []).Some? ==>
                shown == Stored() && Totals(summary, Stored(), MonthOf, ExpenseAmount) && bars == Bars(summary)
    {
      this.store := store;
      shown := [];
      bars := [];
      summary := map[];
      new;
      Render();
    }

    /** save: write the whole array under the key, then render. */
    method Save(expenses: seq<Expense>)
      modifies this`store, this`shown, this`bars, this`summary
      ensures store == old(store)[ExpenseKey := Parsed(expenses)]
      ensures shown == expenses && Stored() == expenses
      ensures Totals(summary, expenses, MonthOf, ExpenseAmount) && bars == Bars(summary)
    {
      store := store[ExpenseKey := Parsed(expenses)];
      Render();
    }

    /**
     * The expense form's submit handler: needs a non-blank title, a number and
     * a date; then {title (trimmed), amount, date} goes at the end of the stored
     * list. Unparsable stored text makes JSON.parse throw: nothing changes.
     */
    method Add(title: string, amount: Number, date: Option<Day>) returns (added: bool)
      modifies this`store, this`shown, this`bars, this`summary
      ensures added <==> Acceptable(title, amount, date) && ParseItem(old(store), ExpenseKey, []).Some?
      ensures !added ==> store == old(store) && shown == old(shown) && bars == old(bars)
      ensures added ==> Stored() == old(Stored()) + [Expense(Trim(title), amount.value, date.value)]
                        && store == old(store)[ExpenseKey := Parsed(Stored())]
                        && shown == Stored()
                        && Totals(summary, Stored(), MonthOf, ExpenseAmount) && bars == Bars(summary)
    {
      var t := Trim(title);
      if t == "" || amount.NaN? || date.None? {
        return false;
      }
      var parsed := ParseItem(store, ExpenseKey, []);
      if parsed.None? {
        return false;
      }
      Save(parsed.value + [Expense(t, amount.value, date.value)]);
      added := true;
    }

    /** A delete button's handler: splice position i out of render's array and save; the rest keep their order. */
    method Delete(i: nat)
      requires i < |shown|
      modifies this`store, this`shown, this`bars, this`summary
      ensures shown == old(shown)[..i] + old(shown)[i + 1..]
      ensures store == old(store)[ExpenseKey := Parsed(shown)]
      ensures Totals(summary, shown, MonthOf, ExpenseAmount) && bars == Bars(summary)
    {
      Save(RemoveAt(shown, i));
    }
  }
}
