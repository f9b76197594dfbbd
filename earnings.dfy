/**
 * js/earnings.js: the earnings calculator. A calculation is made from the
 * form, held as the pending calculation, and saved to the front of the stored
 * earnings list; monthly totals and overall statistics are derived from it.
 */
module Earnings {
  import opened Base
  import opened Utils

  const EarningsKey := "freelanceos_earnings"
  /** renderIncomeList shows at most this many entries. */
  const RecentCount: nat := 10

  datatype Calculation = Calculation(
    clientName: string,
    hourlyRate: real,
    hoursWorked: real,
    expenses: real,
    grossEarnings: real,
    netEarnings: real,
    date: Date)

  /** A saved entry: the calculation's fields plus an id (Date.now()) and the save time. */
  datatype Earning = Earning(id: int, calculation: Calculation, savedAt: Date)

  datatype Stats = Stats(
    totalEarnings: real,
    averagePerProject: real,
    totalHours: real,
    averageHourlyRate: real,
    totalProjects: nat)

  /**
   * calculateEarnings on the raw form values: refused (None) when the trimmed
   * client name is empty or rate or hours is not positive; otherwise the
   * calculation, with gross = rate * hours and net = gross - expenses.
   */
  function Calculate(clientName: string, hourlyRate: Number, hoursWorked: Number, expenses: Number, now: Date)
    : (r: Option<Calculation>)
    ensures r.Some? <==> Trim(clientName) != "" && OrZero(hourlyRate) > 0.0 && OrZero(hoursWorked) > 0.0
    ensures r.Some? ==> r.value.clientName == Trim(clientName) && r.value.date == now
                        && r.value.hourlyRate == OrZero(hourlyRate) && r.value.hoursWorked == OrZero(hoursWorked)
                        && r.value.expenses == OrZero(expenses)
                        && r.value.grossEarnings == r.value.hourlyRate * r.value.hoursWorked
                        && r.value.netEarnings == r.value.grossEarnings - r.value.expenses
                        && r.value.grossEarnings > 0.0
  {
    var client := Trim(clientName);
    var rate := OrZero(hourlyRate);
    var hours := OrZero(hoursWorked);
    var exp := OrZero(expenses);
    if client == "" then None
    else if rate <= 0.0 || hours <= 0.0 then None
    else
      var gross := rate * hours;
      Some(Calculation(client, rate, hours, exp, gross, gross - exp, now))
  }

  /** The entries dated in a given month of a given year. */
  function InMonthOf(month: int, year: int): Earning -> bool {
    (e: Earning) => InMonth(e.calculation.date, month, year)
  }

  /** getMonthlyEarnings: the net earnings of the entries dated in that month of that year. */
  function MonthlyEarnings(earnings: seq<Earning>, month: int, year: int): real {
    Sum(Filter(earnings, InMonthOf(month, year)), (e: Earning) => e.calculation.netEarnings)
  }

  function TotalEarnings(earnings: seq<Earning>): real {
    Sum(earnings, (e: Earning) => e.calculation.netEarnings)
  }

  /** A month's earnings plus those of all other months are the total earnings. */
  lemma MonthlyPartition(earnings: seq<Earning>, month: int, year: int)
    ensures MonthlyEarnings(earnings, month, year)
            + Sum(Filter(earnings, Not(InMonthOf(month, year))), (e: Earning) => e.calculation.netEarnings)
            == TotalEarnings(earnings)
  {
    SumFilterSplit(earnings, InMonthOf(month, year), (e: Earning) => e.calculation.netEarnings);
  }

  /** A new entry at the front adds its net earnings to its own month and to no other. */
  lemma {:induction false} MonthlyAfterPrepend(e: Earning, earnings: seq<Earning>, month: int, year: int)
    ensures MonthlyEarnings([e] + earnings, month, year)
            == MonthlyEarnings(earnings, month, year) + (if InMonth(e.calculation.date, month, year) then e.calculation.netEarnings else 0.0)
  {
    assert ([e] + earnings)[1..] == earnings;
    var kept := if InMonth(e.calculation.date, month, year) then [e] else [];
    assert Filter([e] + earnings, InMonthOf(month, year)) == kept + Filter(earnings, InMonthOf(month, year));
    SumConcat(kept, Filter(earnings, InMonthOf(month, year)), (x: Earning) => x.calculation.netEarnings);
  }

  /** The month updateDisplays reports as "last month": January looks back to December of the previous year. */
  function LastMonthEarnings(earnings: seq<Earning>, now: Date): (r: real)
    requires 0 <= now.month < 12
    ensures now.month == 0 ==> r == MonthlyEarnings(earnings, 11, now.year - 1)
    ensures now.month > 0 ==> r == MonthlyEarnings(earnings, now.month - 1, now.year)
  {
    var prev := PreviousMonth(now.month, now.year);
    MonthlyEarnings(earnings, prev.0, prev.1)
  }

  /** getEarningsStats. */
  function EarningsStats(earnings: seq<Earning>): (r: Stats)
    ensures r.totalProjects == |earnings|
    ensures r.totalEarnings == TotalEarnings(earnings)
    ensures r.totalHours == Sum(earnings, (e: Earning) => e.calculation.hoursWorked)
    ensures |earnings| == 0 ==> r.averagePerProject == 0.0
    ensures |earnings| > 0 ==> r.averagePerProject * (|earnings| as real) == r.totalEarnings
    ensures r.totalHours <= 0.0 ==> r.averageHourlyRate == 0.0
    ensures r.totalHours > 0.0 ==> r.averageHourlyRate * r.totalHours == r.totalEarnings
  {
    var total := TotalEarnings(earnings);
    var n := |earnings|;
    var hours := Sum(earnings, (e: Earning) => e.calculation.hoursWorked);
    Stats(total,
          if n > 0 then total / (n as real) else 0.0,
          hours,
          if hours > 0.0 then total / hours else 0.0,
          n)
  }

  /** The entries renderIncomeList shows: the first ten, newest first. */
  function RecentEarnings(earnings: seq<Earning>): (r: seq<Earning>)
    ensures |r| <= RecentCount
    ensures |earnings| <= RecentCount ==> r == earnings
    ensures |earnings| > RecentCount ==> r == earnings[..RecentCount]
  {
    Take(earnings, RecentCount)
  }

  class EarningsCalculator {
    var earnings: seq<Earning>
    var currentCalculation: Option<Calculation>
    var store: map<string, Item<seq<Earning>>>

    /** new EarningsCalculator(): loadEarnings, and no pending calculation. */
    constructor (store: map<string, Item<seq<Earning>>>)
      ensures earnings == Load(store, EarningsKey, [])
      ensures currentCalculation == None
      ensures this.store == store
    {
      earnings := Load(store, EarningsKey, []);
      currentCalculation := None;
      this.store := store;
    }

    /** calculateEarnings: a valid form becomes the pending calculation; an invalid one leaves it alone. */
    method CalculateEarnings(clientName: string, hourlyRate: Number, hoursWorked: Number, expenses: Number, now: Date)
      modifies this`currentCalculation
      ensures var c := Calculate(clientName, hourlyRate, hoursWorked, expenses, now);
              currentCalculation == if c.Some? then c else old(currentCalculation)
    {
      var c := Calculate(clientName, hourlyRate, hoursWorked, expenses, now);
      if c.Some? {
        currentCalculation := c;
      }
    }

    /** saveEarnings: the pending calculation goes to the front of the list, which is stored; the pending calculation is cleared. */
    method SaveEarnings(id: int, savedAt: Date) returns (saved: bool)
      modifies this
      ensures saved <==> old(currentCalculation).Some?
      ensures !saved ==> earnings == old(earnings) && store == old(store) && currentCalculation == old(currentCalculation)
      ensures saved ==> earnings == [Earning(id, old(currentCalculation).value, savedAt)] + old(earnings)
                        && store == old(store)[EarningsKey := Parsed(earnings)]
                        && currentCalculation == None
    {
      if currentCalculation.None? {
        saved := false;
        return;
      }
      earnings := [Earning(id, currentCalculation.value, savedAt)] + earnings;
      store := store[EarningsKey := Parsed(earnings)];
      currentCalculation := None;
      saved := true;
    }

    /** deleteEarning: when confirmed, drop every entry with that id and store the rest. */
    method DeleteEarning(id: int, confirmed: bool)
      modifies this`earnings, this`store
      ensures !confirmed ==> earnings == old(earnings) && store == old(store)
      ensures confirmed ==> earnings == Filter(old(earnings), (e: Earning) => e.id != id)
                            && store == old(store)[EarningsKey := Parsed(earnings)]
      ensures forall e :: e in earnings ==> e in old(earnings)
      ensures confirmed ==> forall e :: e in earnings ==> e.id != id
    {
      if confirmed {
        earnings := Filter(earnings, (e: Earning) => e.id != id);
        store := store[EarningsKey := Parsed(earnings)];
      }
    }
  }

  /** Deleting by id keeps every entry with another id exactly as often as before, and no entry with that id. */
  lemma DeleteKeepsOthers(earnings: seq<Earning>, id: int, e: Earning)
    ensures multiset(Filter(earnings, (x: Earning) => x.id != id))[e] == if e.id != id then multiset(earnings)[e] else 0
  {
    FilterMultiset(earnings, (x: Earning) => x.id != id, e);
  }
}
