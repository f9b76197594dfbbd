/**
 * js/pomodoro.js: the standalone 25-minute countdown on the productivity page,
 * driven by a one-second ticker, with a stored log of the last 20 completed
 * sessions and the on-page list of log items.
 */
module Pomodoro {
  import opened Base
  import opened Utils

  const LogsKey := "pomodoroLogs"
  /** saveLog keeps at most this many entries. */
  const LogCap: nat := 20
  /** 25 minutes, in seconds. */
  const DefaultDuration: nat := 25 * 60

  /** updateDisplay: minutes and seconds, each padded to two digits, separated by ':'. */
  function ClockText(n: nat): (r: string)
    ensures |r| >= 5
  {
    Pad2(n / 60) + ":" + Pad2(n % 60)
  }

  /** Below 100 minutes the display is "mm:ss" and reads back as the number of seconds. */
  lemma ClockTextRoundTrip(n: nat)
    requires n < 6000
    ensures var t := ClockText(n);
            |t| == 5 && t[2] == ':' && AllDigits(t[..2]) && AllDigits(t[3..])
            && DigitsValue(t[3..]) < 60
            && DigitsValue(t[..2]) * 60 + DigitsValue(t[3..]) == n
  {
    var t := ClockText(n);
    Pad2Value(n / 60);
    Pad2Value(n % 60);
    assert t[..2] == Pad2(n / 60);
    assert t[3..] == Pad2(n % 60);
  }

  /** The log line of a completed session; `end` is toLocaleTimeString() of the end time. */
  function LogEntry(end: string): string {
    "Session completed at " + end
  }

  /**
   * loadLogs onto an empty list: each stored entry is prepended in turn, so
   * the page shows the stored log in reverse (oldest first).
   */
  method LoadLogs(stored: seq<string>) returns (shown: seq<string>)
    ensures shown == Reverse(stored)
  {
    shown := [];
    var i := 0;
    while i < |stored|
      invariant 0 <= i <= |stored|
      invariant shown == Reverse(stored[..i])
    {
      assert stored[..i + 1] == stored[..i] + [stored[i]];
      ReverseSnoc(stored[..i], stored[i]);
      shown := [stored[i]] + shown;
      i := i + 1;
    }
    assert stored[..i] == stored;
  }

  /** Loading with append instead of prepend: the page shows the stored log as stored, newest first. */
  method LoadLogsNewestFirst(stored: seq<string>) returns (shown: seq<string>)
    ensures shown == stored
  {
    shown := [];
    var i := 0;
    while i < |stored|
      invariant 0 <= i <= |stored|
      invariant shown == stored[..i]
    {
      assert stored[..i + 1] == stored[..i] + [stored[i]];
      shown := shown + [stored[i]];
      i := i + 1;
    }
    assert stored[..i] == stored;
  }

  /**
   * As written, a session completed on the page appears at the top of the list,
   * but after a reload the same log shows it at the bottom.
   */
  lemma ReloadMovesNewestEntry()
    ensures var stored := ["Session completed at 9:00"];
            var entry := LogEntry("9:25");
            var onPage := [entry] + Reverse(stored);
            var afterReload := Reverse(PushCapped(stored, entry, LogCap));
            onPage[0] == entry && afterReload[0] != entry
  {
    var stored := ["Session completed at 9:00"];
    var entry := LogEntry("9:25");
    var pushed := PushCapped(stored, entry, LogCap);
    assert pushed == [entry, stored[0]];
    assert Reverse(pushed[1..]) == [stored[0]];
    assert entry[23] != stored[0][23];
  }

  /**
   * With newest-first loading, the list a session leaves on the page is the list
   * a reload shows, as long as the stored log has not reached its cap.
   */
  lemma ReloadKeepsOrder(stored: seq<string>, entry: string)
    requires |stored| < LogCap
    ensures [entry] + stored == PushCapped(stored, entry, LogCap)
  {
    assert |[entry] + stored| <= LogCap;
  }

  class Countdown {
    var duration: nat
    var remaining: int
    /** An interval is set (intervalId is not null). */
    var ticker: bool
    /** The text of the timer display. */
    var display: string
    /** The log items on the page, top first. */
    var shown: seq<string>
    var store: map<string, Item<seq<string>>>

    /** The countdown never leaves [0, duration]. */
    predicate Valid()
      reads this
    {
      0 <= remaining <= duration
    }

    /** The stored log, newest first. */
    function Log(): seq<string>
      reads this
    {
      Load(store, LogsKey, [])
    }

    /**
     * The page script's start-up: 25 minutes, no ticker, then loadLogs and
     * updateDisplay. The stored log is listed newest first, as a session adds
     * it (see LoadLogs for the order the page script produces). Unparsable
     * stored text makes loadLogs throw, which ends start-up early: the list
     * stays empty and the display keeps the page's text.
     */
    constructor (store: map<string, Item<seq<string>>>, pageText: string)
      ensures Valid() && remaining == duration == DefaultDuration && !ticker
      ensures this.store == store
      ensures ParseItem(store, LogsKey, []).Some? ==> shown == Log() && display == ClockText(remaining)
      ensures ParseItem(store, LogsKey, []).None? ==> shown == [] && display == pageText
    {
      duration := DefaultDuration;
      remaining := DefaultDuration;
      ticker := false;
      this.store := store;
      var parsed := ParseItem(store, LogsKey, []);
      if parsed.Some? {
        var items := LoadLogsNewestFirst(parsed.value);
        shown := items;
        display := ClockText(DefaultDuration);
      } else {
        shown := [];
        display := pageText;
      }
    }

    /** The start button: sets a ticker only when none is set. */
    method Start()
      modifies this`ticker
      ensures ticker
      ensures old(ticker) ==> unchanged(this)
    {
      if ticker {
        return;
      }
      ticker := true;
    }

    /** The stop button: clears the ticker; the remaining time is kept. */
    method Stop()
      modifies this`ticker
      ensures !ticker
    {
      if ticker {
        ticker := false;
      }
    }

    /** The reset button: no ticker, the full duration again, and the display shows it. */
    method Reset()
      requires Valid()
      modifies this`ticker, this`remaining, this`display
      ensures Valid()
      ensures !ticker && remaining == duration && display == ClockText(duration)
    {
      ticker := false;
      remaining := duration;
      display := ClockText(duration);
    }

    /**
     * saveLog: the entry goes first and only the newest 20 are kept. Unparsable
     * stored text makes JSON.parse throw: nothing is saved (ok is false).
     */
    method SaveLog(entry: string) returns (ok: bool)
      modifies this`store
      ensures ok <==> ParseItem(old(store), LogsKey, []).Some?
      ensures ok ==> store == old(store)[LogsKey := Parsed(PushCapped(old(Log()), entry, LogCap))]
      ensures ok ==> |Log()| <= LogCap && Log()[0] == entry
      ensures !ok ==> store == old(store)
    {
      var parsed := ParseItem(store, LogsKey, []);
      if parsed.None? {
        return false;
      }
      store := store[LogsKey := Parsed(PushCapped(parsed.value, entry, LogCap))];
      ok := true;
    }

    /**
     * tick: above 0 one second comes off. At 0 the session is over: the ticker
     * is cleared, the entry is logged and listed, and the countdown starts again
     * from the full duration, so completion comes one tick after reaching 0.
     * If saveLog throws, the rest of the tick is skipped and the countdown stays at 0.
     */
    method Tick(end: string)
      requires Valid()
      modifies this`remaining, this`ticker, this`display, this`shown, this`store
      ensures Valid()
      ensures old(remaining) > 0 ==> remaining == old(remaining) - 1 && display == ClockText(remaining)
                                     && ticker == old(ticker) && shown == old(shown) && store == old(store)
      ensures old(remaining) == 0 ==> !ticker
      ensures old(remaining) == 0 && ParseItem(old(store), LogsKey, []).Some? ==>
                remaining == duration && display == ClockText(duration)
                && shown == [LogEntry(end)] + old(shown)
                && store == old(store)[LogsKey := Parsed(PushCapped(old(Log()), LogEntry(end), LogCap))]
      ensures old(remaining) == 0 && ParseItem(old(store), LogsKey, []).None? ==>
                remaining == 0 && display == old(display) && shown == old(shown) && store == old(store)
    {
      if remaining > 0 {
        remaining := remaining - 1;
        display := ClockText(remaining);
      } else {
        ticker := false;
        var saved := SaveLog(LogEntry(end));
        if !saved {
          return;
        }
        shown := [LogEntry(end)] + shown;
        remaining := duration;
        display := ClockText(duration);
      }
    }
  }
}
