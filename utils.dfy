/**
 * js/utils.js: the Storage wrapper over a key-value backend, and the small
 * DateTime, Validation and Format helpers the feature modules share.
 */
module Utils {
  import opened Base

  /**
   * What a storage key holds, seen through JSON.parse: an empty string
   * (falsy, so read as "nothing"), text that does not parse, or a parsed value.
   */
  datatype Item<V> = Blank | Unparsable | Parsed(value: V)

  /**
   * Storage.load: the parsed value when the key holds one; the default when
   * the key is absent, holds the empty string, or does not parse.
   */
  function Load<V>(items: map<string, Item<V>>, key: string, default: V): (r: V)
    ensures key in items && items[key].Parsed? ==> r == items[key].value
    ensures key !in items || !items[key].Parsed? ==> r == default
  {
    if key in items then
      match items[key]
      case Parsed(v) => v
      case _ => default
    else default
  }

  /** What was saved under a key is what the next load of that key returns, and
      saving under one key leaves every other key's load as it was. */
  lemma LoadAfterSave<V>(items: map<string, Item<V>>, key: string, data: V, other: string, default: V)
    ensures Load(items[key := Parsed(data)], key, default) == data
    ensures other != key ==> Load(items[key := Parsed(data)], other, default) == Load(items, other, default)
  {
  }

  /** Loading a removed key gives the default. */
  lemma LoadAfterRemove<V>(items: map<string, Item<V>>, key: string, default: V)
    ensures Load(items - {key}, key, default) == default
  {
  }

  /**
   * `JSON.parse(localStorage.getItem(key) || fallback)` without the Storage
   * wrapper's try/catch: an absent or empty key reads as the default, and text
   * that does not parse throws (None).
   */
  function ParseItem<V>(items: map<string, Item<V>>, key: string, default: V): (r: Option<V>)
    ensures r.None? <==> key in items && items[key].Unparsable?
    ensures r.Some? ==> r.value == Load(items, key, default)
  {
    if key in items && items[key].Unparsable? then None else Some(Load(items, key, default))
  }

  /**
   * The Storage object over one family of keys. `failing` stands for the
   * backend throwing (quota exceeded, storage disabled): the operation then
   * reports false and the backend is as it was.
   */
  class Storage<V> {
    var items: map<string, Item<V>>

    constructor (initial: map<string, Item<V>>)
      ensures items == initial
    {
      items := initial;
    }

    /** Storage.save. */
    method Save(key: string, data: V, failing: bool) returns (ok: bool)
      modifies this
      ensures ok == !failing
      ensures items == if failing then old(items) else old(items)[key := Parsed(data)]
      ensures ok ==> forall d: V :: Load(items, key, d) == data
    {
      if failing {
        ok := false;
      } else {
        items := items[key := Parsed(data)];
        ok := true;
      }
    }

    /** Storage.remove. */
    method Remove(key: string, failing: bool) returns (ok: bool)
      modifies this
      ensures ok == !failing
      ensures items == if failing then old(items) else old(items) - {key}
      ensures ok ==> key !in items
    {
      if failing {
        ok := false;
      } else {
        items := items - {key};
        ok := true;
      }
    }

    /** Storage.clear. */
    method Clear(failing: bool) returns (ok: bool)
      modifies this
      ensures ok == !failing
      ensures items == if failing then old(items) else map[]
    {
      if failing {
        ok := false;
      } else {
        items := map[];
        ok := true;
      }
    }
  }

  // ---------------------------------------------------------------- DateTime

  /** DateTime.isToday: same day of the month, month and year as today. */
  predicate IsToday(d: Date, today: Date) {
    d.day == today.day && d.month == today.month && d.year == today.year
  }

  /** Whether a date is today does not depend on its time of day, and every date is on its own day. */
  lemma IsTodayIgnoresTime(d: Date, today: Date, hour: int, minute: int)
    ensures IsToday(d, d)
    ensures IsToday(d.(hour := hour, minute := minute), today) == IsToday(d, today)
    ensures IsToday(d, today) <==> SameDay(d, today)
  {
  }

  /** DateTime.getGreeting for the current hour. */
  function Greeting(hour: int): (r: string)
    ensures r == "Good Morning!" <==> hour < 12
    ensures r == "Good Afternoon!" <==> 12 <= hour < 17
    ensures r == "Good Evening!" <==> 17 <= hour
  {
    if hour < 12 then "Good Morning!"
    else if hour < 17 then "Good Afternoon!"
    else "Good Evening!"
  }

  // ---------------------------------------------------------------- Validation

  /** A character the class [^\s@] of the email pattern matches. */
  predicate EmailChar(c: char) {
    !IsSpace(c) && c != '@'
  }

  /**
   * The shape /^[^\s@]+@[^\s@]+\.[^\s@]+$/ accepts, with the '@' at index `at`
   * and the separating '.' at index `dot`: every other character is neither
   * white space nor '@', and each of the three parts is non-empty.
   */
  ghost predicate EmailAt(s: string, at: int, dot: int) {
    1 <= at && at + 2 <= dot <= |s| - 2 && s[at] == '@' && s[dot] == '.' &&
    forall i :: 0 <= i < |s| && i != at ==> EmailChar(s[i])
  }

  ghost predicate EmailShape(s: string) {
    exists at, dot :: EmailAt(s, at, dot)
  }

  /** Some character strictly inside `t` (not the first, not the last) is a '.'. */
  predicate HasInnerDot(t: string) {
    |t| >= 3 && '.' in t[1..|t| - 1]
  }

  /** Validation.isValidEmail, evaluated by locating the one '@' and then an inner '.' after it. */
  function IsValidEmail(s: string): bool {
    match FindIndex(s, (c: char) => c == '@')
    case None => false
    case Some(at) =>
      at > 0 && (forall i :: 0 <= i < |s| && i != at ==> EmailChar(s[i])) && HasInnerDot(s[at + 1..])
  }

  /** isValidEmail accepts exactly the strings the regular expression matches. */
  lemma IsValidEmailIff(s: string)
    ensures IsValidEmail(s) <==> EmailShape(s)
  {
    var f := FindIndex(s, (c: char) => c == '@');
    if IsValidEmail(s) {
      var at := f.value;
      var t := s[at + 1..];
      var j :| 0 <= j < |t[1..|t| - 1]| && t[1..|t| - 1][j] == '.';
      assert s[at + 2 + j] == '.';
      assert EmailAt(s, at, at + 2 + j);
    }
    if EmailShape(s) {
      var at, dot :| EmailAt(s, at, dot);
      assert f.Some?;
      assert f.value == at;
      var t := s[at + 1..];
      assert t[1..|t| - 1][dot - at - 2] == '.';
    }
  }

  /** Validation.isRequired: present (not null or undefined) and not white space only. */
  function IsRequired(value: Option<string>): (r: bool)
  {
    value.Some? && Trim(value.value) != ""
  }

  lemma IsRequiredIff(value: Option<string>)
    ensures IsRequired(value) <==> value.Some? && !AllSpace(value.value)
  {
    if value.Some? {
      TrimEmptyIff(value.value);
    }
  }

  /**
   * Format.truncate: text that fits is returned as it is; longer text is cut to
   * its first `length` characters (none when `length` is negative, as
   * substring clamps) and followed by "...".
   */
  function Truncate(text: string, length: int): (r: string)
    ensures |text| <= length ==> r == text
    ensures |text| > length ==> (|r| == (if length < 0 then 0 else length) + 3
                                 && r[|r| - 3..] == "..."
                                 && r[..|r| - 3] == text[..|r| - 3])
  {
    if |text| <= length then text
    else text[..if length < 0 then 0 else length] + "..."
  }

  /** Truncated text is never longer than the limit plus the three dots. */
  lemma TruncateBound(text: string, length: nat)
    ensures |Truncate(text, length)| <= length + 3
  {
  }
}
