/**
 * JavaScript built-in behaviour that every FreelanceOS module leans on:
 * String.prototype.trim / toLowerCase / includes / startsWith / split / join,
 * Array.prototype.filter / reduce / find / slice / unshift, and the
 * calendar arithmetic the modules do on getMonth() / getFullYear().
 */
module Base {

  datatype Option<T> = None | Some(value: T)

  /** A number read from a form field with parseFloat or parseInt: NaN or a real value. */
  datatype Number = NaN | Num(value: real)

  /** `parseFloat(x) || 0`: NaN (and 0) read as 0. */
  function OrZero(n: Number): real {
    if n.NaN? then 0.0 else n.value
  }

  /** `n > 0` in JavaScript: false for NaN. */
  predicate Positive(n: Number) {
    n.Num? && n.value > 0.0
  }

  /**
   * A local date-time as the source reads it through getFullYear(), getMonth()
   * (0 = January), getDate(), getHours() and getMinutes().
   */
  datatype Date = Date(year: int, month: int, day: int, hour: int, minute: int)

  /** The ranges Date's getters return (days are not checked against the month's length). */
  predicate ValidDate(d: Date) {
    0 <= d.month < 12 && 1 <= d.day <= 31 && 0 <= d.hour < 24 && 0 <= d.minute < 60
  }

  /** Both dates fall on the same calendar day (Date.prototype.toDateString equality). */
  predicate SameDay(a: Date, b: Date) {
    a.year == b.year && a.month == b.month && a.day == b.day
  }

  predicate InMonth(d: Date, month: int, year: int) {
    d.month == month && d.year == year
  }

  /** Chronological order of two dates (the `<=` of two Date objects). */
  predicate DateLe(a: Date, b: Date) {
    if a.year != b.year then a.year < b.year
    else if a.month != b.month then a.month < b.month
    else if a.day != b.day then a.day < b.day
    else if a.hour != b.hour then a.hour < b.hour
    else a.minute <= b.minute
  }

  /** The month before (month, year); January (0) rolls back to December (11) of year - 1. */
  function PreviousMonth(month: int, year: int): (r: (int, int))
    requires 0 <= month < 12
    ensures 0 <= r.0 < 12
    ensures r.1 == (if month == 0 then year - 1 else year)
    ensures month == 0 ==> r.0 == 11
    ensures month != 0 ==> r.0 == month - 1
  {
    if month == 0 then (11, year - 1) else (month - 1, year)
  }

  /** The month after (month, year); December rolls over to January of year + 1. */
  function NextMonth(month: int, year: int): (r: (int, int))
    requires 0 <= month < 12
    ensures 0 <= r.0 < 12
  {
    if month == 11 then (0, year + 1) else (month + 1, year)
  }

  /** PreviousMonth and NextMonth undo each other on every valid month. */
  lemma MonthRoundTrip(month: int, year: int)
    requires 0 <= month < 12
    ensures NextMonth(PreviousMonth(month, year).0, PreviousMonth(month, year).1) == (month, year)
    ensures PreviousMonth(NextMonth(month, year).0, NextMonth(month, year).1) == (month, year)
  {
  }

  // ---------------------------------------------------------------- text

  /**
   * The characters String.prototype.trim removes and the regular expression
   * class \s matches: WhiteSpace (tab, VT, FF, space, NBSP, BOM and the Zs
   * category) and LineTerminator (LF, CR, LS, PS).
   */
  predicate IsSpace(c: char) {
    c == '\t' || c == '\n' || c == '\U{000B}' || c == '\U{000C}' || c == '\r' || c == ' ' ||
    c == '\U{00A0}' || c == '\U{1680}' || ('\U{2000}' <= c <= '\U{200A}') ||
    c == '\U{2028}' || c == '\U{2029}' || c == '\U{202F}' || c == '\U{205F}' ||
    c == '\U{3000}' || c == '\U{FEFF}'
  }

  predicate AllSpace(s: string) {
    forall i :: 0 <= i < |s| ==> IsSpace(s[i])
  }

  /** String.prototype.trimStart: drop the leading white space. */
  function TrimStart(s: string): string
  {
    if s == [] || !IsSpace(s[0]) then s else TrimStart(s[1..])
  }

  /** String.prototype.trimEnd: drop the trailing white space. */
  function TrimEnd(s: string): string
  {
    if s == [] || !IsSpace(s[|s| - 1]) then s else TrimEnd(s[..|s| - 1])
  }

  /** trimStart keeps a suffix of the input that does not start with white space,
      and what it cuts off is white space. */
  lemma {:induction false} TrimStartShape(s: string)
    ensures |TrimStart(s)| <= |s| && TrimStart(s) == s[|s| - |TrimStart(s)|..]
    ensures TrimStart(s) == [] || !IsSpace(TrimStart(s)[0])
    ensures AllSpace(s[..|s| - |TrimStart(s)|])
  {
    if s != [] && IsSpace(s[0]) {
      TrimStartShape(s[1..]);
      var k := |s| - |TrimStart(s)|;
      forall i | 0 <= i < k ensures IsSpace(s[i]) {
        if i > 0 { assert s[i] == s[1..][..k - 1][i - 1]; }
      }
    }
  }

  /** trimEnd keeps a prefix of the input that does not end with white space,
      and what it cuts off is white space. */
  lemma {:induction false} TrimEndShape(s: string)
    ensures |TrimEnd(s)| <= |s| && TrimEnd(s) == s[..|TrimEnd(s)|]
    ensures TrimEnd(s) == [] || !IsSpace(TrimEnd(s)[|TrimEnd(s)| - 1])
    ensures AllSpace(s[|TrimEnd(s)|..])
  {
    if s != [] && IsSpace(s[|s| - 1]) {
      var f := s[..|s| - 1];
      TrimEndShape(f);
      var k := |TrimEnd(s)|;
      forall i | k <= i < |s| ensures IsSpace(s[i]) {
        if i < |s| - 1 { assert s[i] == f[k..][i - k]; }
      }
    }
  }

  /** String.prototype.trim. */
  function Trim(s: string): string
  {
    TrimEnd(TrimStart(s))
  }

  /** Trim removes exactly the leading and trailing white space: what is left is a
      contiguous piece of the input that neither starts nor ends with white space,
      and everything cut off on either side is white space. */
  lemma TrimSpec(s: string)
    ensures exists k :: 0 <= k <= |s| - |Trim(s)| && Trim(s) == s[k..k + |Trim(s)|]
                        && AllSpace(s[..k]) && AllSpace(s[k + |Trim(s)|..])
    ensures Trim(s) == [] || (!IsSpace(Trim(s)[0]) && !IsSpace(Trim(s)[|Trim(s)| - 1]))
  {
    var a := TrimStart(s);
    var r := TrimEnd(a);
    var k := |s| - |a|;
    TrimStartShape(s);
    TrimEndShape(a);
    assert r == s[k..k + |r|];
    assert s[k + |r|..] == a[|r|..];
    if r != [] {
      assert r[0] == a[0];
    }
  }

  /** A trimmed string is empty exactly when the input was all white space. */
  lemma {:induction false} TrimEmptyIff(s: string)
    ensures Trim(s) == [] <==> AllSpace(s)
  {
    if s != [] && IsSpace(s[0]) {
      TrimEmptyIff(s[1..]);
      assert TrimStart(s) == TrimStart(s[1..]);
      if AllSpace(s[1..]) {
        forall i | 0 <= i < |s| ensures IsSpace(s[i]) {
          if i > 0 { assert s[i] == s[1..][i - 1]; }
        }
      }
      if AllSpace(s) {
        forall i | 0 <= i < |s[1..]| ensures IsSpace(s[1..][i]) {
          assert s[1..][i] == s[i + 1];
        }
      }
    } else if s != [] {
      assert TrimStart(s) == s;
      TrimEndShape(s);
    }
  }

  /** Trimming twice is the same as trimming once. */
  lemma TrimIdempotent(s: string)
    ensures Trim(Trim(s)) == Trim(s)
  {
    var r := Trim(s);
    TrimSpec(s);
    if r != [] {
      assert TrimStart(r) == r;
      assert TrimEnd(r) == r;
    }
  }

  /** A string is blank (falsy after trim()). */
  predicate Blank(s: string) {
    Trim(s) == []
  }

  /**
   * String.prototype.length: the number of UTF-16 code units, where a character
   * outside the Basic Multilingual Plane takes two.
   */
  function Utf16Length(s: string): (r: nat)
    ensures |s| <= r <= 2 * |s|
  {
    if s == [] then 0 else (if s[0] as int >= 0x1_0000 then 2 else 1) + Utf16Length(s[1..])
  }

  /** Character-wise String.prototype.toLowerCase on the ASCII letters. */
  function LowerChar(c: char): char {
    if 'A' <= c <= 'Z' then (c as int + 32) as char else c
  }

  function UpperChar(c: char): char {
    if 'a' <= c <= 'z' then (c as int - 32) as char else c
  }

  function ToLower(s: string): (r: string)
    ensures |r| == |s|
    ensures forall i :: 0 <= i < |s| ==> r[i] == LowerChar(s[i])
  {
    if s == [] then [] else [LowerChar(s[0])] + ToLower(s[1..])
  }

  /** String.prototype.startsWith. */
  predicate StartsWith(s: string, prefix: string) {
    |prefix| <= |s| && s[..|prefix|] == prefix
  }

  /** `needle` occurs in `hay` at some position: what String.prototype.includes answers. */
  ghost predicate OccursIn(needle: string, hay: string) {
    exists i :: OccursAt(needle, hay, i)
  }

  ghost predicate OccursAt(needle: string, hay: string, i: int) {
    0 <= i <= |hay| - |needle| && hay[i..i + |needle|] == needle
  }

  /** String.prototype.includes, by scanning start positions left to right. */
  function Includes(hay: string, needle: string): bool
  {
    StartsWith(hay, needle) || (hay != [] && Includes(hay[1..], needle))
  }

  /** The scan finds the needle exactly when it occurs somewhere. */
  lemma {:induction false} IncludesIff(hay: string, needle: string)
    ensures Includes(hay, needle) <==> OccursIn(needle, hay)
  {
    if StartsWith(hay, needle) {
      assert OccursAt(needle, hay, 0);
    } else if hay == [] {
      assert |needle| > 0;
    } else {
      IncludesIff(hay[1..], needle);
      if OccursIn(needle, hay[1..]) {
        var i :| OccursAt(needle, hay[1..], i);
        assert hay[i + 1..i + 1 + |needle|] == needle;
        assert OccursAt(needle, hay, i + 1);
      }
      if OccursIn(needle, hay) {
        var i :| OccursAt(needle, hay, i);
        if i != 0 {
          assert hay[1..][i - 1..i - 1 + |needle|] == needle;
          assert OccursAt(needle, hay[1..], i - 1);
        }
      }
    }
  }

  /** Every string includes the empty string. */
  lemma IncludesEmpty(hay: string)
    ensures Includes(hay, "")
  {
    assert StartsWith(hay, "");
  }

  /** String.prototype.split with a one-character separator: the pieces between separators. */
  function Split(s: string, sep: char): (r: seq<string>)
    ensures |r| >= 1
    ensures forall i :: 0 <= i < |r| ==> sep !in r[i]
  {
    if s == [] then [""]
    else
      var rest := Split(s[1..], sep);
      if s[0] == sep then [""] + rest else [[s[0]] + rest[0]] + rest[1..]
  }

  /** Array.prototype.join. */
  function Join(parts: seq<string>, sep: string): (r: string)
  {
    if parts == [] then ""
    else if |parts| == 1 then parts[0]
    else parts[0] + sep + Join(parts[1..], sep)
  }

  /** Splitting a join on a separator that no piece contains gives the pieces back. */
  lemma {:induction false} SplitJoin(parts: seq<string>, sep: char)
    requires |parts| >= 1
    requires forall i :: 0 <= i < |parts| ==> sep !in parts[i]
    ensures Split(Join(parts, [sep]), sep) == parts
  {
    if |parts| == 1 {
      SplitNoSep(parts[0], sep);
    } else {
      SplitJoin(parts[1..], sep);
      SplitAppend(parts[0], Join(parts[1..], [sep]), sep);
      assert Join(parts, [sep]) == parts[0] + ([sep] + Join(parts[1..], [sep]));
    }
  }

  lemma {:induction false} SplitNoSep(s: string, sep: char)
    requires sep !in s
    ensures Split(s, sep) == [s]
  {
    if s != [] {
      assert sep !in s[1..] by {
        forall i | 0 <= i < |s[1..]| ensures s[1..][i] != sep { assert s[1..][i] == s[i + 1]; }
      }
      SplitNoSep(s[1..], sep);
      assert [s[0]] + s[1..] == s;
    }
  }

  lemma {:induction false} SplitAppend(a: string, b: string, sep: char)
    requires sep !in a
    ensures Split(a + [sep] + b, sep) == [a] + Split(b, sep)
  {
    if a == [] {
      assert a + [sep] + b == [sep] + b;
      assert ([sep] + b)[1..] == b;
    } else {
      SplitAppend(a[1..], b, sep);
      assert (a + [sep] + b)[1..] == a[1..] + [sep] + b;
      assert [a[0]] + a[1..] == a;
    }
  }

  function DigitChar(d: nat): char
    requires d < 10
  {
    ('0' as int + d) as char
  }

  /** String(n) for a non-negative integer. */
  function Decimal(n: nat): (r: string)
    ensures |r| >= 1
    ensures forall i :: 0 <= i < |r| ==> '0' <= r[i] <= '9'
    decreases n
  {
    if n < 10 then [DigitChar(n)] else Decimal(n / 10) + [DigitChar(n % 10)]
  }

  /** String(n).padStart(2, '0'). */
  function Pad2(n: nat): (r: string)
    ensures |r| >= 2
  {
    var d := Decimal(n);
    if |d| >= 2 then d else "0" + d
  }

  /** Below 100 the padded text is exactly the two decimal digits of n. */
  lemma Pad2TwoDigits(n: nat)
    requires n < 100
    ensures Pad2(n) == [DigitChar(n / 10), DigitChar(n % 10)]
  {
    if n < 10 {
      assert Decimal(n) == [DigitChar(n)];
      assert "0" == [DigitChar(0)];
    } else {
      assert Decimal(n / 10) == [DigitChar(n / 10)];
    }
  }

  predicate AllDigits(s: string) {
    forall i :: 0 <= i < |s| ==> '0' <= s[i] <= '9'
  }

  /** The number a string of decimal digits denotes (most significant digit first). */
  function DigitsValue(s: string): nat
    requires AllDigits(s)
  {
    if s == [] then 0 else DigitsValue(s[..|s| - 1]) * 10 + (s[|s| - 1] as int - '0' as int)
  }

  function Pow10(n: nat): (r: nat)
    ensures r >= 1
  {
    if n == 0 then 1 else 10 * Pow10(n - 1)
  }

  /** A string of k digits denotes a number below 10^k. */
  lemma {:induction false} DigitsValueBound(s: string)
    requires AllDigits(s)
    ensures DigitsValue(s) < Pow10(|s|)
  {
    if s != [] {
      var front := s[..|s| - 1];
      DigitsValueBound(front);
      var v, p := DigitsValue(front), Pow10(|front|);
      assert v <= p - 1;
      assert v * 10 <= p * 10 - 10;
    }
  }

  /** Reading back the decimal text of n gives n. */
  lemma {:induction false} DecimalValue(n: nat)
    ensures DigitsValue(Decimal(n)) == n
    decreases n
  {
    if n >= 10 {
      var d := Decimal(n);
      assert d[..|d| - 1] == Decimal(n / 10);
      DecimalValue(n / 10);
    }
  }

  /** Four-digit numbers have four-character decimal text. */
  lemma DecimalFourDigits(n: nat)
    requires 1000 <= n <= 9999
    ensures |Decimal(n)| == 4
  {
    assert |Decimal(n / 1000)| == 1;
    assert |Decimal(n / 100)| == 2;
    assert |Decimal(n / 10)| == 3;
  }

  /** Below 100 the padded text has two digits and reads back as n. */
  lemma Pad2Value(n: nat)
    requires n < 100
    ensures |Pad2(n)| == 2 && AllDigits(Pad2(n)) && DigitsValue(Pad2(n)) == n
  {
    Pad2TwoDigits(n);
    var p := Pad2(n);
    var hi := [DigitChar(n / 10)];
    assert p[..1] == hi;
    assert hi[..0] == [];
    assert DigitsValue(hi) == n / 10;
    assert DigitsValue(p) == DigitsValue(hi) * 10 + n % 10;
  }

  // ----------------------------------------------------------- sequences

  /** Array.prototype.filter. */
  function Filter<T>(s: seq<T>, p: T -> bool): (r: seq<T>)
    ensures |r| <= |s|
    ensures forall x :: x in r ==> x in s && p(x)
  {
    if s == [] then [] else (if p(s[0]) then [s[0]] else []) + Filter(s[1..], p)
  }

  /** Filtering a concatenation filters each part and keeps their order. */
  lemma {:induction false} FilterConcat<T>(a: seq<T>, b: seq<T>, p: T -> bool)
    ensures Filter(a + b, p) == Filter(a, p) + Filter(b, p)
  {
    if a != [] {
      assert (a + b)[1..] == a[1..] + b;
      FilterConcat(a[1..], b, p);
    } else {
      assert a + b == b;
    }
  }

  /** Filter keeps every element that satisfies p as often as it occurred, and no other. */
  lemma {:induction false} FilterMultiset<T>(s: seq<T>, p: T -> bool, x: T)
    ensures multiset(Filter(s, p))[x] == if p(x) then multiset(s)[x] else 0
  {
    if s != [] {
      FilterMultiset(s[1..], p, x);
      assert s == [s[0]] + s[1..];
    }
  }

  /** An element is kept exactly when it is present and satisfies p. */
  lemma FilterMember<T>(s: seq<T>, p: T -> bool, x: T)
    ensures x in Filter(s, p) <==> x in s && p(x)
  {
    FilterMultiset(s, p, x);
    assert x in Filter(s, p) <==> multiset(Filter(s, p))[x] > 0;
  }

  /** What a filter keeps plus what it drops is everything: the counts add up. */
  lemma {:induction false} FilterCountSplit<T>(s: seq<T>, p: T -> bool)
    ensures |Filter(s, p)| + |Filter(s, Not(p))| == |s|
  {
    if s != [] {
      FilterCountSplit(s[1..], p);
    }
  }

  /** Filter changes nothing when every element passes. */
  lemma {:induction false} FilterAll<T>(s: seq<T>, p: T -> bool)
    requires forall i :: 0 <= i < |s| ==> p(s[i])
    ensures Filter(s, p) == s
  {
    if s != [] {
      FilterAll(s[1..], p);
    }
  }

  /** Array.prototype.reduce((sum, x) => sum + f(x), 0). */
  function Sum<T>(s: seq<T>, f: T -> real): real
  {
    if s == [] then 0.0 else f(s[0]) + Sum(s[1..], f)
  }

  lemma {:induction false} SumConcat<T>(a: seq<T>, b: seq<T>, f: T -> real)
    ensures Sum(a + b, f) == Sum(a, f) + Sum(b, f)
  {
    if a != [] {
      assert (a + b)[1..] == a[1..] + b;
      SumConcat(a[1..], b, f);
    } else {
      assert a + b == b;
    }
  }

  /** The sum over the records a filter keeps plus the sum over those it drops is the total. */
  lemma {:induction false} SumFilterSplit<T>(s: seq<T>, p: T -> bool, f: T -> real)
    ensures Sum(Filter(s, p), f) + Sum(Filter(s, Not(p)), f) == Sum(s, f)
  {
    if s != [] {
      SumFilterSplit(s[1..], p, f);
      assert Filter(s, p) == (if p(s[0]) then [s[0]] else []) + Filter(s[1..], p);
      assert Filter(s, Not(p)) == (if Not(p)(s[0]) then [s[0]] else []) + Filter(s[1..], Not(p));
      SumConcat(if p(s[0]) then [s[0]] else [], Filter(s[1..], p), f);
      SumConcat(if Not(p)(s[0]) then [s[0]] else [], Filter(s[1..], Not(p)), f);
    }
  }

  /** The negation of a predicate, as a value (so that one filter and its complement can be named). */
  function Not<T>(p: T -> bool): T -> bool {
    x => !p(x)
  }

  /** Sum of non-negative terms is non-negative. */
  lemma {:induction false} SumNonNegative<T>(s: seq<T>, f: T -> real)
    requires forall i :: 0 <= i < |s| ==> f(s[i]) >= 0.0
    ensures Sum(s, f) >= 0.0
  {
    if s != [] {
      SumNonNegative(s[1..], f);
    }
  }

  /** Array.prototype.findIndex: the first position whose element satisfies p. */
  function FindIndex<T>(s: seq<T>, p: T -> bool): (r: Option<nat>)
    ensures r.None? <==> forall i :: 0 <= i < |s| ==> !p(s[i])
    ensures r.Some? ==> (r.value < |s| && p(s[r.value])
                         && forall i :: 0 <= i < r.value ==> !p(s[i]))
  {
    if s == [] then None
    else if p(s[0]) then Some(0)
    else
      var r := FindIndex(s[1..], p);
      if r.None? then None else Some(r.value + 1)
  }

  /** Array.prototype.slice(0, n). */
  function Take<T>(s: seq<T>, n: nat): (r: seq<T>)
    ensures |r| == if n < |s| then n else |s|
    ensures r == s[..|r|]
  {
    if n < |s| then s[..n] else s
  }

  /** Array.prototype.splice(i, 1): removes position i; an index past the end removes nothing. */
  function RemoveAt<T>(s: seq<T>, i: nat): (r: seq<T>)
    ensures i < |s| ==> r == s[..i] + s[i + 1..]
    ensures i >= |s| ==> r == s
  {
    if i < |s| then s[..i] + s[i + 1..] else s
  }

  /**
   * `log.unshift(entry)` followed by keeping only the first `cap` elements
   * (slice(0, cap) or splice(cap)): a newest-first log of bounded length.
   */
  function PushCapped<T>(log: seq<T>, entry: T, cap: nat): (r: seq<T>)
    requires cap >= 1
    ensures |r| == if |log| + 1 < cap then |log| + 1 else cap
    ensures r[0] == entry
    ensures r[1..] == log[..|r| - 1]
  {
    Take([entry] + log, cap)
  }

  function Reverse<T>(s: seq<T>): (r: seq<T>)
    ensures |r| == |s|
  {
    if s == [] then [] else Reverse(s[1..]) + [s[0]]
  }

  /** Pushing `entries` one after the other, first to last. */
  function PushAll<T>(log: seq<T>, entries: seq<T>, cap: nat): seq<T>
    requires cap >= 1
  {
    if entries == [] then log
    else PushCapped(PushAll(log, entries[..|entries| - 1], cap), entries[|entries| - 1], cap)
  }

  lemma {:induction false} ReverseSnoc<T>(s: seq<T>, x: T)
    ensures Reverse(s + [x]) == [x] + Reverse(s)
  {
    if s != [] {
      assert (s + [x])[1..] == s[1..] + [x];
      ReverseSnoc(s[1..], x);
    } else {
      assert s + [x] == [x];
    }
  }

  /**
   * A capped log keeps the newest entries: after any run of pushes it holds the
   * first `cap` elements of (pushed entries, newest first) followed by the old log.
   */
  lemma {:induction false} PushAllKeepsNewest<T>(log: seq<T>, entries: seq<T>, cap: nat)
    requires cap >= 1 && |log| <= cap
    ensures PushAll(log, entries, cap) == Take(Reverse(entries) + log, cap)
  {
    if entries == [] {
    } else {
      var n := |entries| - 1;
      var front, e := entries[..n], entries[n];
      assert entries == front + [e];
      PushAllKeepsNewest(log, front, cap);
      ReverseSnoc(front, e);
      var x := Reverse(front) + log;
      assert Reverse(entries) + log == [e] + x;
      var lhs := Take([e] + Take(x, cap), cap);
      var rhs := Take([e] + x, cap);
      assert |lhs| == |rhs|;
      forall i | 0 <= i < |lhs| ensures lhs[i] == rhs[i] {
        if i > 0 {
          assert lhs[i] == Take(x, cap)[i - 1];
        }
      }
    }
  }

  // ------------------------------------------------- keyed accumulation

  /** The records whose key is k. */
  function KeyIs<T, K(==,!new)>(key: T -> K, k: K): T -> bool {
    x => key(x) == k
  }

  /** The sum of f over the records whose key is k. */
  function SumWhere<T, K(==,!new)>(s: seq<T>, key: T -> K, k: K, f: T -> real): real {
    Sum(Filter(s, KeyIs(key, k)), f)
  }

  /**
   * An object filled by `totals[key(x)] = (totals[key(x)] || 0) + f(x)` over
   * `s`: one entry per key that occurs, holding the sum over that key's records.
   */
  ghost predicate Totals<T, K(!new)>(totals: map<K, real>, s: seq<T>, key: T -> K, f: T -> real) {
    (forall k :: k in totals <==> exists x :: x in s && key(x) == k)
    && (forall k :: k in totals ==> totals[k] == SumWhere(s, key, k, f))
  }

  /** Appending one record adds f of it to its own key's sum and to no other. */
  lemma SumWhereSnoc<T, K(!new)>(s: seq<T>, x: T, key: T -> K, k: K, f: T -> real)
    ensures SumWhere(s + [x], key, k, f) == SumWhere(s, key, k, f) + (if key(x) == k then f(x) else 0.0)
  {
    FilterConcat(s, [x], KeyIs(key, k));
    assert Filter([x], KeyIs(key, k)) == (if key(x) == k then [x] else []) + Filter([x][1..], KeyIs(key, k));
    SumConcat(Filter(s, KeyIs(key, k)), Filter([x], KeyIs(key, k)), f);
  }

  /** Putting one record in front adds f of it to its own key's sum and to no other. */
  lemma SumWhereCons<T, K(!new)>(x: T, s: seq<T>, key: T -> K, k: K, f: T -> real)
    ensures SumWhere([x] + s, key, k, f) == SumWhere(s, key, k, f) + (if key(x) == k then f(x) else 0.0)
  {
    FilterConcat([x], s, KeyIs(key, k));
    assert Filter([x], KeyIs(key, k)) == (if key(x) == k then [x] else []) + Filter([x][1..], KeyIs(key, k));
    SumConcat(Filter([x], KeyIs(key, k)), Filter(s, KeyIs(key, k)), f);
  }

  /** A key no record has sums to 0. */
  lemma SumWhereAbsent<T, K(!new)>(s: seq<T>, key: T -> K, k: K, f: T -> real)
    requires forall x :: x in s ==> key(x) != k
    ensures SumWhere(s, key, k, f) == 0.0
  {
    var r := Filter(s, KeyIs(key, k));
    assert forall i :: 0 <= i < |r| ==> r[i] in r;
  }

  /** `totals[k] = (totals[k] || 0) + v`. */
  function AddTo<K>(totals: map<K, real>, k: K, v: real): map<K, real> {
    totals[k := (if k in totals then totals[k] else 0.0) + v]
  }

  /** One step of the accumulation keeps Totals. */
  lemma TotalsStep<T, K(!new)>(totals: map<K, real>, s: seq<T>, x: T, key: T -> K, f: T -> real)
    requires Totals(totals, s, key, f)
    ensures Totals(AddTo(totals, key(x), f(x)), s + [x], key, f)
  {
    var t := AddTo(totals, key(x), f(x));
    if key(x) !in totals {
      SumWhereAbsent(s, key, key(x), f);
    }
    forall k | k in t
      ensures t[k] == SumWhere(s + [x], key, k, f)
    {
      SumWhereSnoc(s, x, key, k, f);
    }
    forall k
      ensures k in t <==> exists y :: y in s + [x] && key(y) == k
    {
      if k in t && k != key(x) {
        var y :| y in s && key(y) == k;
        assert y in s + [x];
      }
      if exists y :: y in s + [x] && key(y) == k {
        var y :| y in s + [x] && key(y) == k;
        assert y in s || y == x;
      }
    }
  }

  /** The step as a loop over `s` takes it: from the first i records to the first i + 1. */
  lemma TotalsPrefixStep<T, K(!new)>(totals: map<K, real>, s: seq<T>, i: nat, key: T -> K, f: T -> real)
    requires i < |s| && Totals(totals, s[..i], key, f)
    ensures Totals(AddTo(totals, key(s[i]), f(s[i])), s[..i + 1], key, f)
  {
    assert s[..i + 1] == s[..i] + [s[i]];
    TotalsStep(totals, s[..i], s[i], key, f);
  }

  /**
   * The keys of `s` in order of first appearance: the order in which the
   * accumulation above creates the object's (non-integer) keys.
   */
  function FirstKeys<T, K(==,!new)>(s: seq<T>, key: T -> K): seq<K> {
    if s == [] then []
    else
      var f := FirstKeys(s[..|s| - 1], key);
      if key(s[|s| - 1]) in f then f else f + [key(s[|s| - 1])]
  }

  /** Every key that occurs is listed once, and nothing else is. */
  lemma {:induction false} FirstKeysSpec<T, K(!new)>(s: seq<T>, key: T -> K)
    ensures forall k :: k in FirstKeys(s, key) <==> exists x :: x in s && key(x) == k
    ensures forall i, j :: 0 <= i < j < |FirstKeys(s, key)| ==> FirstKeys(s, key)[i] != FirstKeys(s, key)[j]
  {
    if s != [] {
      var front := s[..|s| - 1];
      var last := s[|s| - 1];
      FirstKeysSpec(front, key);
      assert s == front + [last];
      forall k ensures k in FirstKeys(s, key) <==> exists x :: x in s && key(x) == k {
        if exists x :: x in s && key(x) == k {
          var x :| x in s && key(x) == k;
          if x != last {
            assert x in front;
          }
        }
        if k in FirstKeys(front, key) {
          var x :| x in front && key(x) == k;
          assert x in s;
        }
      }
    }
  }

  /** FirstKeys as a loop over `s` extends it: a key is added when record i brings a new one. */
  lemma FirstKeysPrefixStep<T, K(!new)>(s: seq<T>, i: nat, key: T -> K)
    requires i < |s|
    ensures FirstKeys(s[..i + 1], key)
            == if key(s[i]) in FirstKeys(s[..i], key) then FirstKeys(s[..i], key) else FirstKeys(s[..i], key) + [key(s[i])]
  {
    assert s[..i + 1][..i] == s[..i];
  }
}
