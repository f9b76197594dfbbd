/**
 * js/navigation.js: which section of the single-page app is showing, the
 * browser-history entries it pushes, the `sectionChanged` events it sends,
 * per-section visit counters and the capped navigation history in storage.
 */
module Navigation {
  import opened Base
  import opened Utils

  /** The five sections the initial route accepts from the URL hash. */
  const ValidSections: seq<string> := ["dashboard", "payments", "productivity", "finances", "portfolio"]
  /** The four sections a `?section=` deep link accepts (no 'payments'). */
  const DeepLinkSections: seq<string> := ["dashboard", "productivity", "finances", "portfolio"]
  /** The sections getSectionStats reports, in the order getMostVisitedSection visits them. */
  const StatsSections: seq<string> := ["dashboard", "productivity", "finances", "portfolio"]

  const HistoryKey := "freelanceos_navigation_history"
  /** addToHistory keeps at most this many entries. */
  const HistoryCap: nat := 50

  /** The detail of a `sectionChanged` event. */
  datatype SectionChanged = SectionChanged(section: string, previousSection: string)

  /** One navigation-history entry; the ISO timestamp is supplied by the caller. */
  datatype HistoryEntry = HistoryEntry(section: string, timestamp: string)

  function VisitsKey(section: string): string {
    "freelanceos_" + section + "_visits"
  }

  function LastVisitKey(section: string): string {
    "freelanceos_" + section + "_last_visit"
  }

  /** The section a Ctrl/Meta + key shortcut opens, if any. */
  function ShortcutTarget(key: string): (r: Option<string>)
    ensures r.Some? <==> key in {"1", "2", "3", "4", "5"}
    ensures r.Some? ==> r.value in ValidSections
  {
    if key == "1" then Some("dashboard")
    else if key == "2" then Some("payments")
    else if key == "3" then Some("productivity")
    else if key == "4" then Some("finances")
    else if key == "5" then Some("portfolio")
    else None
  }

  /** Each digit key opens a different section, and every valid section has its digit. */
  lemma ShortcutsCoverSections()
    ensures forall k :: 0 <= k < |ValidSections| ==> ShortcutTarget(Decimal(k + 1)) == Some(ValidSections[k])
  {
    assert Decimal(1) == "1" && Decimal(2) == "2" && Decimal(3) == "3" && Decimal(4) == "4" && Decimal(5) == "5";
  }

  /** The section handleInitialRoute opens for the raw `location.hash` (with its leading '#'). */
  function InitialSection(rawHash: string): (r: string)
    ensures r in ValidSections
    ensures r == (if |rawHash| >= 1 then rawHash[1..] else "") || r == "dashboard"
    ensures |rawHash| >= 1 && rawHash[1..] in ValidSections ==> r == rawHash[1..]
  {
    var hash := if |rawHash| >= 1 then rawHash[1..] else "";
    if hash != "" && hash in ValidSections then hash else "dashboard"
  }

  /**
   * getMostVisitedSection over the entries of getSectionStats: the first entry
   * whose visit count is strictly larger than every earlier maximum (which
   * starts at 0), or 'dashboard' when no count is positive.
   */
  method MostVisited(stats: seq<(string, int)>) returns (r: string)
    ensures (forall j :: 0 <= j < |stats| ==> stats[j].1 <= 0) ==> r == "dashboard"
    ensures (exists j :: 0 <= j < |stats| && stats[j].1 > 0) ==>
              exists k :: 0 <= k < |stats| && r == stats[k].0 && stats[k].1 > 0
                && (forall j :: 0 <= j < |stats| ==> stats[j].1 <= stats[k].1)
                && (forall j :: 0 <= j < k ==> stats[j].1 < stats[k].1)
  {
    var mostVisited := "dashboard";
    var maxVisits := 0;
    ghost var best := -1;
    var i := 0;
    while i < |stats|
      invariant 0 <= i <= |stats|
      invariant -1 <= best < i
      invariant best == -1 ==> mostVisited == "dashboard" && maxVisits == 0
                               && forall j :: 0 <= j < i ==> stats[j].1 <= 0
      invariant best >= 0 ==> mostVisited == stats[best].0 && maxVisits == stats[best].1 && maxVisits > 0
                              && (forall j :: 0 <= j < i ==> stats[j].1 <= maxVisits)
                              && (forall j :: 0 <= j < best ==> stats[j].1 < maxVisits)
    {
      if stats[i].1 > maxVisits {
        maxVisits := stats[i].1;
        mostVisited := stats[i].0;
        best := i;
      }
      i := i + 1;
    }
    r := mostVisited;
  }

  class Navigation {
    var currentSection: string
    /** Sections pushed onto the browser history by history.pushState, oldest first. */
    var pushed: seq<string>
    /** `sectionChanged` events dispatched so far, oldest first. */
    var events: seq<SectionChanged>
    var visits: map<string, Item<int>>
    var lastVisits: map<string, Item<string>>
    var history: map<string, Item<seq<HistoryEntry>>>

    /** Visit count of a section as getSectionStats reads it (0 when nothing is stored). */
    function Visits(section: string): int
      reads this
    {
      Load(visits, VisitsKey(section), 0)
    }

    /** The stored navigation history (empty when nothing usable is stored). */
    function History(): seq<HistoryEntry>
      reads this
    {
      Load(history, HistoryKey, [])
    }

    /** new Navigation(): starts at 'dashboard', then handleInitialRoute. */
    constructor (rawHash: string, visits: map<string, Item<int>>, lastVisits: map<string, Item<string>>,
                 history: map<string, Item<seq<HistoryEntry>>>)
      ensures currentSection == InitialSection(rawHash)
      ensures pushed == []
      ensures events == [SectionChanged(currentSection, currentSection)]
      ensures this.visits == visits && this.lastVisits == lastVisits && this.history == history
    {
      currentSection := "dashboard";
      pushed := [];
      events := [];
      this.visits := visits;
      this.lastVisits := lastVisits;
      this.history := history;
      new;
      HandleInitialRoute(rawHash);
    }

    /** handleInitialRoute: open the hash's section when it is valid, else 'dashboard'; no history push. */
    method HandleInitialRoute(rawHash: string)
      modifies this`currentSection, this`events, this`pushed
      ensures pushed == old(pushed)
      ensures currentSection == InitialSection(rawHash)
      ensures events == old(events) + [SectionChanged(currentSection, currentSection)]
    {
      var hash := if |rawHash| >= 1 then rawHash[1..] else "";
      if hash != "" && hash in ValidSections {
        NavigateToSection(hash, false);
      } else {
        NavigateToSection("dashboard", false);
      }
    }

    /** navigateToSection: push a history entry when asked to, then show the section. */
    method NavigateToSection(section: string, updateHistory: bool)
      modifies this`currentSection, this`events, this`pushed
      ensures pushed == if updateHistory then old(pushed) + [section] else old(pushed)
      ensures currentSection == section
      ensures events == old(events) + [SectionChanged(section, section)]
    {
      if updateHistory {
        pushed := pushed + [section];
      }
      ShowSection(section);
    }

    /**
     * showSection: make `section` current, then dispatch the event. Because the
     * field is written first, the event's previousSection is the new section.
     */
    method ShowSection(section: string)
      modifies this`currentSection, this`events
      ensures currentSection == section
      ensures events == old(events) + [SectionChanged(section, section)]
      ensures events[|events| - 1].previousSection == events[|events| - 1].section
    {
      currentSection := section;
      events := events + [SectionChanged(section, currentSection)];
    }

    /** handleDeepLink: follow `?section=` only for the four deep-linkable sections. */
    method HandleDeepLink(section: Option<string>)
      modifies this`currentSection, this`events, this`pushed
      ensures pushed == old(pushed)
      ensures section.Some? && section.value in DeepLinkSections ==>
                currentSection == section.value
                && events == old(events) + [SectionChanged(section.value, section.value)]
      ensures !(section.Some? && section.value in DeepLinkSections) ==>
                currentSection == old(currentSection) && events == old(events)
    {
      if section.Some? && section.value != "" && section.value in DeepLinkSections {
        NavigateToSection(section.value, false);
      }
    }

    /** The keydown listener: Ctrl or Meta with a digit 1-5 navigates (pushing history). */
    method HandleKey(ctrlKey: bool, metaKey: bool, key: string)
      modifies this`currentSection, this`events, this`pushed
      ensures (ctrlKey || metaKey) && ShortcutTarget(key).Some? ==>
                currentSection == ShortcutTarget(key).value
                && pushed == old(pushed) + [currentSection]
                && events == old(events) + [SectionChanged(currentSection, currentSection)]
      ensures !((ctrlKey || metaKey) && ShortcutTarget(key).Some?) ==>
                currentSection == old(currentSection) && pushed == old(pushed) && events == old(events)
    {
      if ctrlKey || metaKey {
        var target := ShortcutTarget(key);
        if target.Some? {
          NavigateToSection(target.value, true);
        }
      }
    }

    /** trackSectionVisit: one more visit for the section, and its last-visit time. */
    method TrackSectionVisit(section: string, now: string)
      modifies this`visits, this`lastVisits
      ensures visits == old(visits)[VisitsKey(section) := Parsed(old(Visits(section)) + 1)]
      ensures Visits(section) == old(Visits(section)) + 1
      ensures lastVisits == old(lastVisits)[LastVisitKey(section) := Parsed(now)]
    {
      var n := Load(visits, VisitsKey(section), 0);
      visits := visits[VisitsKey(section) := Parsed(n + 1)];
      lastVisits := lastVisits[LastVisitKey(section) := Parsed(now)];
    }

    /** getMostVisitedSection. */
    method GetMostVisitedSection() returns (r: string)
      ensures r in StatsSections
      ensures (forall s :: s in StatsSections ==> Visits(s) <= 0) ==> r == "dashboard"
      ensures (exists s :: s in StatsSections && Visits(s) > 0) ==>
                Visits(r) > 0 && (forall s :: s in StatsSections ==> Visits(s) <= Visits(r))
                && exists k :: 0 <= k < |StatsSections| && r == StatsSections[k]
                                 && forall j :: 0 <= j < k ==> Visits(StatsSections[j]) < Visits(r)
    {
      var stats := seq(|StatsSections|, j requires 0 <= j < |StatsSections| reads this =>
                                          (StatsSections[j], Visits(StatsSections[j])));
      r := MostVisited(stats);
      if exists j :: 0 <= j < |stats| && stats[j].1 > 0 {
        var k :| 0 <= k < |stats| && r == stats[k].0 && stats[k].1 > 0
                 && (forall j :: 0 <= j < |stats| ==> stats[j].1 <= stats[k].1);
        assert Visits(r) == stats[k].1;
        assert r == StatsSections[k];
        forall j | 0 <= j < k ensures Visits(StatsSections[j]) < Visits(r) {
          assert stats[j].1 == Visits(StatsSections[j]);
        }
        forall s | s in StatsSections ensures Visits(s) <= Visits(r) {
          var j :| 0 <= j < |StatsSections| && StatsSections[j] == s;
          assert stats[j].1 == Visits(s);
        }
      } else {
        forall s | s in StatsSections ensures Visits(s) <= 0 {
          var j :| 0 <= j < |StatsSections| && StatsSections[j] == s;
          assert stats[j].1 == Visits(s);
        }
      }
    }

    /** addToHistory: the new entry goes first; beyond 50 entries the oldest are dropped. */
    method AddToHistory(section: string, timestamp: string)
      modifies this`history
      ensures history == old(history)[HistoryKey := Parsed(History())]
      ensures History() == PushCapped(old(History()), HistoryEntry(section, timestamp), HistoryCap)
      ensures |History()| <= HistoryCap
      ensures History()[0] == HistoryEntry(section, timestamp)
    {
      var h := Load(history, HistoryKey, []);
      h := [HistoryEntry(section, timestamp)] + h;
      if |h| > HistoryCap {
        h := h[..HistoryCap];
      }
      history := history[HistoryKey := Parsed(h)];
    }
  }

  /** A run of addToHistory calls keeps the newest 50 entries, newest first. */
  lemma HistoryKeepsNewest(log: seq<HistoryEntry>, entries: seq<HistoryEntry>)
    requires |log| <= HistoryCap
    ensures PushAll(log, entries, HistoryCap) == Take(Reverse(entries) + log, HistoryCap)
  {
    PushAllKeepsNewest(log, entries, HistoryCap);
  }
}
