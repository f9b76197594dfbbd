/**
 * js/payments.js: the payment tracker. Payments are kept newest first in
 * storage; the table and its summary show either every payment or the result
 * of the client/date filters; a CSV text of all payments can be exported.
 */
module Payments {
  import opened Base
  import opened Utils

  const PaymentsKey := "freelanceos_payments"
  const CsvHeader := "Client Name,Amount,Date & Time,Notes"

  /** One payment; `id` is the text of Date.now() and `createdAt` an ISO time, both supplied by the caller. */
  datatype Payment = Payment(id: string, clientName: string, amount: real, dateTime: string, notes: string, createdAt: string)

  datatype Summary = Summary(count: nat, amount: real)

  datatype PaymentsSummary = PaymentsSummary(total: nat, totalAmount: real, thisMonth: Summary, lastMonth: Summary)

  // ------------------------------------------------------------- date-time text

  /** The value setDefaultDateTime writes into the datetime-local field: YYYY-MM-DDTHH:MM. */
  function DateTimeLocal(d: Date): string
    requires d.year >= 0 && ValidDate(d)
  {
    Decimal(d.year) + "-" + Pad2(d.month + 1) + "-" + Pad2(d.day) + "T" + Pad2(d.hour) + ":" + Pad2(d.minute)
  }

  /** new Date(text) on the datetime-local shape YYYY-MM-DDTHH:MM; None stands for an Invalid Date. */
  function ParseDateTimeLocal(s: string): (r: Option<Date>)
    ensures r.Some? ==> ValidDate(r.value) && 0 <= r.value.year <= 9999
  {
    if |s| == 16 && s[4] == '-' && s[7] == '-' && s[10] == 'T' && s[13] == ':'
       && AllDigits(s[..4]) && AllDigits(s[5..7]) && AllDigits(s[8..10])
       && AllDigits(s[11..13]) && AllDigits(s[14..])
    then
      var d := Date(DigitsValue(s[..4]), DigitsValue(s[5..7]) - 1, DigitsValue(s[8..10]),
                    DigitsValue(s[11..13]), DigitsValue(s[14..]));
      DigitsValueBound(s[..4]);
      if ValidDate(d) then Some(d) else None
    else None
  }

  /** Where the parser finds each field of a YYYY-MM-DDTHH:MM text. */
  lemma {:induction false} LayoutSlices(y: string, mo: string, da: string, h: string, mi: string)
    requires |y| == 4 && |mo| == 2 && |da| == 2 && |h| == 2 && |mi| == 2
    ensures var s := y + "-" + mo + "-" + da + "T" + h + ":" + mi;
            |s| == 16 && s[4] == '-' && s[7] == '-' && s[10] == 'T' && s[13] == ':'
            && s[..4] == y && s[5..7] == mo && s[8..10] == da && s[11..13] == h && s[14..] == mi
  {
    var s := y + "-" + mo + "-" + da + "T" + h + ":" + mi;
    var s1 := y + "-";
    var s2 := s1 + mo + "-";
    var s3 := s2 + da + "T";
    var s4 := s3 + h + ":";
    assert s == s4 + mi;
    assert s[14..] == mi;
    assert s[..14] == s4;
    assert s4[11..13] == h && s4[13] == ':' && s4[..11] == s3;
    assert s3[8..10] == da && s3[10] == 'T' && s3[..8] == s2;
    assert s2[5..7] == mo && s2[7] == '-' && s2[..5] == s1;
    assert s1[..4] == y && s1[4] == '-';
  }

  /** A text laid out as YYYY-MM-DDTHH:MM with digits in every field parses to those fields. */
  lemma ParseLayout(y: string, mo: string, da: string, h: string, mi: string)
    requires |y| == 4 && |mo| == 2 && |da| == 2 && |h| == 2 && |mi| == 2
    requires AllDigits(y) && AllDigits(mo) && AllDigits(da) && AllDigits(h) && AllDigits(mi)
    requires ValidDate(Date(DigitsValue(y), DigitsValue(mo) - 1, DigitsValue(da), DigitsValue(h), DigitsValue(mi)))
    ensures ParseDateTimeLocal(y + "-" + mo + "-" + da + "T" + h + ":" + mi)
            == Some(Date(DigitsValue(y), DigitsValue(mo) - 1, DigitsValue(da), DigitsValue(h), DigitsValue(mi)))
  {
    LayoutSlices(y, mo, da, h, mi);
  }

  /** The default date-time text reads back as the date it was made from (for four-digit years). */
  lemma DateTimeLocalRoundTrip(d: Date)
    requires 1000 <= d.year <= 9999 && ValidDate(d)
    ensures ParseDateTimeLocal(DateTimeLocal(d)) == Some(d)
  {
    var y, mo, da, h, mi := Decimal(d.year), Pad2(d.month + 1), Pad2(d.day), Pad2(d.hour), Pad2(d.minute);
    DecimalFourDigits(d.year);
    DecimalValue(d.year);
    Pad2Value(d.month + 1);
    Pad2Value(d.day);
    Pad2Value(d.hour);
    Pad2Value(d.minute);
    assert AllDigits(y);
    assert Date(DigitsValue(y), DigitsValue(mo) - 1, DigitsValue(da), DigitsValue(h), DigitsValue(mi)) == d;
    ParseLayout(y, mo, da, h, mi);
  }

  /** The payment's date-time falls in the given month of the given year (an Invalid Date never does). */
  function PaidIn(month: int, year: int): Payment -> bool {
    (p: Payment) => var d := ParseDateTimeLocal(p.dateTime); d.Some? && InMonth(d.value, month, year)
  }

  // ------------------------------------------------------------- validation, filters, summaries

  /** The record addPayment builds from the form: client name and notes trimmed. */
  function NewPayment(id: string, clientName: string, amount: real, dateTime: string, notes: string, createdAt: string): Payment {
    Payment(id, Trim(clientName), amount, dateTime, Trim(notes), createdAt)
  }

  /** The guard of addPayment: a client name, an amount that is neither NaN nor 0, and a date-time. */
  predicate Acceptable(clientName: string, amount: Number, dateTime: string) {
    Trim(clientName) != "" && amount.Num? && amount.value != 0.0 && dateTime != ""
  }

  /**
   * The applyFilters predicate, given the client filter already lower-cased and
   * trimmed: an empty filter matches everything; the client filter is a
   * substring of the lower-cased client name and the date filter a prefix of
   * the date-time text.
   */
  function Matches(clientFilter: string, dateFilter: string): Payment -> bool {
    (p: Payment) =>
      (clientFilter == "" || Includes(ToLower(p.clientName), clientFilter)) &&
      (dateFilter == "" || StartsWith(p.dateTime, dateFilter))
  }

  /** The filtered list holds exactly the payments that match, each as often as before. */
  lemma FilterResult(payments: seq<Payment>, rawClientFilter: string, dateFilter: string, p: Payment)
    ensures var cf := Trim(ToLower(rawClientFilter));
            p in Filter(payments, Matches(cf, dateFilter)) <==>
              p in payments
              && (cf == "" || OccursIn(cf, ToLower(p.clientName)))
              && (dateFilter == "" || StartsWith(p.dateTime, dateFilter))
  {
    var cf := Trim(ToLower(rawClientFilter));
    FilterMember(payments, Matches(cf, dateFilter), p);
    IncludesIff(ToLower(p.clientName), cf);
  }

  /** updateSummary: how many payments and the sum of their amounts. */
  function Summarize(payments: seq<Payment>): (r: Summary)
    ensures r.count == |payments|
    ensures r.amount == Sum(payments, (p: Payment) => p.amount)
  {
    Summary(|payments|, Sum(payments, (p: Payment) => p.amount))
  }

  /** The summaries of the matching and of the non-matching payments add up to the summary of all. */
  lemma SummaryPartition(payments: seq<Payment>, keep: Payment -> bool)
    ensures Summarize(Filter(payments, keep)).count + Summarize(Filter(payments, Not(keep))).count
            == Summarize(payments).count
    ensures Summarize(Filter(payments, keep)).amount + Summarize(Filter(payments, Not(keep))).amount
            == Summarize(payments).amount
  {
    FilterCountSplit(payments, keep);
    SumFilterSplit(payments, keep, (p: Payment) => p.amount);
  }

  /** getPaymentsSummary: all payments, and those of this month and of the month before (January looks back to December). */
  function GetPaymentsSummary(payments: seq<Payment>, now: Date): (r: PaymentsSummary)
    requires 0 <= now.month < 12
    ensures r.total == |payments| && r.totalAmount == Summarize(payments).amount
    ensures r.thisMonth == Summarize(Filter(payments, PaidIn(now.month, now.year)))
    ensures now.month == 0 ==> r.lastMonth == Summarize(Filter(payments, PaidIn(11, now.year - 1)))
    ensures now.month > 0 ==> r.lastMonth == Summarize(Filter(payments, PaidIn(now.month - 1, now.year)))
  {
    var last := PreviousMonth(now.month, now.year);
    PaymentsSummary(|payments|, Sum(payments, (p: Payment) => p.amount),
                    Summarize(Filter(payments, PaidIn(now.month, now.year))),
                    Summarize(Filter(payments, PaidIn(last.0, last.1))))
  }

  /** A payment whose date-time text is not a date is counted in no month. */
  lemma InvalidDateInNoMonth(p: Payment, month: int, year: int)
    requires ParseDateTimeLocal(p.dateTime).None?
    ensures !PaidIn(month, year)(p)
  {
  }

  // ------------------------------------------------------------- text helpers

  /** One CSV row: client, date-time and notes in double quotes; the amount as `amountText` prints it. */
  function CsvLine(p: Payment, amountText: real -> string): string {
    "\"" + p.clientName + "\"," + amountText(p.amount) + ",\"" + p.dateTime + "\",\"" + p.notes + "\""
  }

  function CsvLines(payments: seq<Payment>, amountText: real -> string): (r: seq<string>)
    ensures |r| == |payments|
    ensures forall i :: 0 <= i < |payments| ==> r[i] == CsvLine(payments[i], amountText)
  {
    seq(|payments|, i requires 0 <= i < |payments| => CsvLine(payments[i], amountText))
  }

  /**
   * The text exportPayments puts in the CSV file: nothing when there are no
   * payments, else the header line and one line per payment, joined by '\n'.
   * `amountText` is JavaScript's number-to-string conversion.
   */
  function ExportCsv(payments: seq<Payment>, amountText: real -> string): (r: Option<string>)
    ensures r.None? <==> payments == []
  {
    if payments == [] then None
    else Some(Join([CsvHeader] + CsvLines(payments, amountText), "\n"))
  }

  /** No field of the payment, nor its printed amount, holds a line break. */
  predicate SingleLine(p: Payment, amountText: real -> string) {
    '\n' !in p.clientName && '\n' !in p.dateTime && '\n' !in p.notes && '\n' !in amountText(p.amount)
  }

  /** Read back line by line, the export is the header followed by each payment's row, in stored order. */
  lemma ExportCsvLines(payments: seq<Payment>, amountText: real -> string)
    requires payments != []
    requires forall i :: 0 <= i < |payments| ==> SingleLine(payments[i], amountText)
    ensures var lines := Split(ExportCsv(payments, amountText).value, '\n');
            |lines| == |payments| + 1 && lines[0] == CsvHeader
            && forall i :: 0 <= i < |payments| ==> lines[i + 1] == CsvLine(payments[i], amountText)
  {
    var parts := [CsvHeader] + CsvLines(payments, amountText);
    forall i | 0 <= i < |parts| ensures '\n' !in parts[i] {
      if i > 0 {
        var p := payments[i - 1];
        assert parts[i] == CsvLine(p, amountText);
        assert SingleLine(p, amountText);
      }
    }
    SplitJoin(parts, '\n');
  }

  /** capitalizeFirst: the first character upper-cased, the rest unchanged. */
  function CapitalizeFirst(s: string): (r: string)
    ensures |r| == |s|
    ensures s != [] ==> r[0] == UpperChar(s[0]) && r[1..] == s[1..]
  {
    if s == [] then "" else [UpperChar(s[0])] + s[1..]
  }

  // ------------------------------------------------------------- the tracker

  class PaymentTracker {
    var payments: seq<Payment>
    var filteredPayments: seq<Payment>
    /** The list the table renders and the summary totals: all payments, or a filter result. */
    var shown: seq<Payment>
    var store: map<string, Item<seq<Payment>>>

    /** The summary figures updateSummary displays. */
    function Displayed(): Summary
      reads this
    {
      Summarize(shown)
    }

    /** new PaymentTracker(): loadPayments (a missing or unparsable key gives no payments). */
    constructor (store: map<string, Item<seq<Payment>>>)
      ensures payments == Load(store, PaymentsKey, [])
      ensures PaymentsKey !in store || !store[PaymentsKey].Parsed? ==> payments == []
      ensures filteredPayments == [] && shown == payments
      ensures this.store == store
    {
      payments := Load(store, PaymentsKey, []);
      filteredPayments := [];
      shown := payments;
      this.store := store;
    }

    /** addPayment: an acceptable form is prepended and stored; anything else changes nothing. */
    method AddPayment(clientName: string, amount: Number, dateTime: string, notes: string, id: string, createdAt: string)
      returns (ok: bool)
      modifies this`payments, this`store, this`shown
      ensures ok <==> Acceptable(clientName, amount, dateTime)
      ensures ok ==> payments == [NewPayment(id, clientName, amount.value, dateTime, notes, createdAt)] + old(payments)
                     && store == old(store)[PaymentsKey := Parsed(payments)]
                     && shown == payments
      ensures !ok ==> payments == old(payments) && store == old(store) && shown == old(shown)
    {
      ok := Acceptable(clientName, amount, dateTime);
      if !ok {
        return;
      }
      var updated := [NewPayment(id, clientName, amount.value, dateTime, notes, createdAt)] + payments;
      payments, store, shown := updated, store[PaymentsKey := Parsed(updated)], updated;
    }

    /** deletePayment: when confirmed, drop the payments with that id and store the rest. */
    method DeletePayment(id: string, confirmed: bool)
      modifies this`payments, this`store, this`shown
      ensures !confirmed ==> payments == old(payments) && store == old(store) && shown == old(shown)
      ensures confirmed ==> payments == Filter(old(payments), (p: Payment) => p.id != id)
                            && store == old(store)[PaymentsKey := Parsed(payments)]
                            && shown == payments
    {
      if confirmed {
        payments := Filter(payments, (p: Payment) => p.id != id);
        store := store[PaymentsKey := Parsed(payments)];
        shown := payments;
      }
    }

    /**
     * editPayment: hand back the first payment with that id (to refill the
     * form) and remove every payment with that id; an unknown id changes nothing.
     */
    method EditPayment(id: string) returns (form: Option<Payment>)
      modifies this`payments, this`store, this`shown
      ensures form.None? <==> forall i :: 0 <= i < |old(payments)| ==> old(payments)[i].id != id
      ensures form.None? ==> payments == old(payments) && store == old(store) && shown == old(shown)
      ensures form.Some? ==> form.value in old(payments) && form.value.id == id
                             && (exists k :: 0 <= k < |old(payments)| && form.value == old(payments)[k]
                                              && forall i :: 0 <= i < k ==> old(payments)[i].id != id)
                             && payments == Filter(old(payments), (p: Payment) => p.id != id)
                             && store == old(store)[PaymentsKey := Parsed(payments)]
                             && shown == payments
    {
      var k := FindIndex(payments, (p: Payment) => p.id == id);
      if k.None? {
        form := None;
        return;
      }
      form := Some(payments[k.value]);
      payments := Filter(payments, (p: Payment) => p.id != id);
      store := store[PaymentsKey := Parsed(payments)];
      shown := payments;
    }

    /** applyFilters: the client filter is lower-cased and trimmed; the result is shown and summarised. */
    method ApplyFilters(rawClientFilter: string, dateFilter: string)
      modifies this`filteredPayments, this`shown
      ensures filteredPayments == Filter(payments, Matches(Trim(ToLower(rawClientFilter)), dateFilter))
      ensures shown == filteredPayments
      ensures |filteredPayments| <= |payments|
    {
      filteredPayments := Filter(payments, Matches(Trim(ToLower(rawClientFilter)), dateFilter));
      shown := filteredPayments;
    }

    /** clearFilters: forget the filter result and show every payment again. */
    method ClearFilters()
      modifies this`filteredPayments, this`shown
      ensures filteredPayments == [] && shown == payments
    {
      filteredPayments := [];
      shown := payments;
    }
  }

  /** Deleting by id keeps every other payment as often as before and removes all with that id. */
  lemma DeleteKeepsOthers(payments: seq<Payment>, id: string, p: Payment)
    ensures multiset(Filter(payments, (x: Payment) => x.id != id))[p] == if p.id != id then multiset(payments)[p] else 0
  {
    FilterMultiset(payments, (x: Payment) => x.id != id, p);
  }
}
