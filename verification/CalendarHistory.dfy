/**
 Confirmed calendar activity across plan replacements: what was confirmed once stays represented until age or the
 count ceiling removes it, while provisional windows never become history.
 */
module CalendarHistory {
  import opened Common

  const RETENTION := 365 * 86_400 * MICROS_PER_SECOND
  const HARD_CAP := 1000

  /** A valid calendar record; `confirmed` says that its confirmed start equals its start. */
  datatype Record = Record(uid: string, summary: string, location: Option<string>, start: int, end: int,
                           confirmed: bool, action: bool)

  datatype State = State(history: seq<Record>, pending: seq<Record>)

  // ---------------------------------------------------------------- lists

  /** The elements satisfying `f`, in order. */
  function Keep(s: seq<Record>, f: Record -> bool): (r: seq<Record>)
    ensures forall x :: x in r <==> x in s && f(x)
    ensures |r| <= |s|
  {
    if |s| == 0 then []
    else
      var n := |s| - 1;
      assert s == s[..n] + [s[n]];
      if f(s[n]) then Keep(s[..n], f) + [s[n]] else Keep(s[..n], f)
  }

  function StartOf(r: Record): int { r.start }

  // ---------------------------------------------------------------- retention

  function Newest(s: seq<Record>): seq<Record> { if |s| > HARD_CAP then s[|s| - HARD_CAP..] else s }

  /** Recent entries in order of their start, at most a thousand of them. */
  function Retained(history: seq<Record>, now: int): seq<Record> {
    Newest(SortedBy(Keep(history, (r: Record) => r.end >= now - RETENTION), StartOf))
  }

  /** The ceiling is reached by entries that start no earlier than `r`. */
  predicate Crowded(kept: seq<Record>, r: Record) {
    |kept| == HARD_CAP && forall k | k in kept :: k.start >= r.start
  }

  lemma SortedHas(s: seq<Record>, r: Record)
    ensures r in SortedBy(s, StartOf) <==> r in s
  {
    SortingPermutes(s, StartOf);
    assert r in multiset(SortedBy(s, StartOf)) <==> r in multiset(s);
  }

  lemma NewestDropsOldest(all: seq<Record>, r: Record)
    requires Sorted(all, StartOf)
    ensures Sorted(Newest(all), StartOf) && |Newest(all)| <= HARD_CAP
    ensures r in Newest(all) ==> r in all
    ensures r in all ==> r in Newest(all) || Crowded(Newest(all), r)
  {
    if r in all && |all| > HARD_CAP {
      var k :| 0 <= k < |all| && all[k] == r;
      var dropped, kept := |all| - HARD_CAP, Newest(all);
      if k < dropped {
        forall j | 0 <= j < HARD_CAP ensures kept[j].start >= r.start { assert kept[j] == all[dropped + j]; }
      } else {
        assert kept[k - dropped] == r;
      }
    }
  }

  /** Retention: in order, bounded, nothing new, and an unexpired entry leaves only for newer ones. */
  lemma RetentionDropsOldest(history: seq<Record>, now: int, r: Record)
    ensures Sorted(Retained(history, now), StartOf) && |Retained(history, now)| <= HARD_CAP
    ensures r in Retained(history, now) ==> r in history && r.end >= now - RETENTION
    ensures r in history && r.end >= now - RETENTION ==> r in Retained(history, now) || Crowded(Retained(history, now), r)
  {
    hide Crowded, Sorted, Newest;
    var recent := Keep(history, (r: Record) => r.end >= now - RETENTION);
    SortedHas(recent, r);
    NewestDropsOldest(SortedBy(recent, StartOf), r);
  }

  // ---------------------------------------------------------------- identity of a window

  /** One continuous confirmed phase, whatever its estimated end. */
  predicate SameConfirmedWindow(a: Record, b: Record) {
    && a.confirmed && b.confirmed && !a.action && !b.action
    && a.start == b.start && a.location == b.location
    && (a.summary == b.summary || (a.location == Some("Climate") && a.uid == b.uid))
  }

  /** The current record continues the previous one, rather than restarting it. */
  predicate SameRunningWindow(previous: Record, current: Record, now: int) {
    && ((previous.summary == current.summary && previous.location == current.location)
        || SameConfirmedWindow(previous, current))
    && previous.confirmed && current.confirmed && previous.start == current.start
    && previous.start <= now && current.start <= now < current.end && current.start < previous.end
  }

  /** Index of the first entry of the record's phase, or the length. */
  function PhaseIndex(s: seq<Record>, record: Record): (i: nat)
    ensures i <= |s| && (i < |s| ==> SameConfirmedWindow(s[i], record))
    ensures forall k | 0 <= k < i :: !SameConfirmedWindow(s[k], record)
  {
    if |s| == 0 then 0
    else
      var i := PhaseIndex(s[..|s| - 1], record);
      if i < |s| - 1 || SameConfirmedWindow(s[|s| - 1], record) then i else |s|
  }

  predicate SameEntry(a: Record, b: Record) {
    a.start == b.start && a.end == b.end && a.summary == b.summary && a.location == b.location
  }

  // ---------------------------------------------------------------- adding one entry

  function Without(s: seq<Record>, i: nat): (t: seq<Record>)
    requires i < |s|
  {
    s[..i] + s[i + 1..]
  }

  /** The history with the earlier estimate of this phase, if there is one, removed. */
  function Unestimated(history: seq<Record>, record: Record): seq<Record> {
    var i := PhaseIndex(history, record);
    if i < |history| then Without(history, i) else history
  }

  predicate Listed(history: seq<Record>, record: Record) { exists p | p in history :: SameEntry(p, record) }

  /** Whether the history already knows the phase at least as far. */
  predicate Known(history: seq<Record>, record: Record) {
    var i := PhaseIndex(history, record);
    i < |history| && history[i].end >= record.end
  }

  /** Coalesce one entry into the history. */
  function Appended(history: seq<Record>, record: Record): seq<Record> {
    if Known(history, record) then history
    else
      var rest := Unestimated(history, record);
      if record.confirmed && !Listed(rest, record) then rest + [record] else rest
  }

  method AppendUnique(history: seq<Record>, record: Record) returns (r: seq<Record>)
    ensures r == Appended(history, record)
  {
    r := history;
    var index := 0;
    while index < |r|
      invariant index <= |r| && r == history
      invariant forall k | 0 <= k < index :: !SameConfirmedWindow(history[k], record)
    {
      if SameConfirmedWindow(r[index], record) {
        if r[index].end >= record.end { return; }
        r := Without(r, index);
        break;
      }
      index := index + 1;
    }
    if record.confirmed && !Listed(r, record) { r := r + [record]; }
  }

  /** `x` stands for the confirmed activity `e`, to the same end or beyond. */
  predicate Carries(x: Record, e: Record) {
    x.confirmed && x.start == e.start && x.location == e.location && x.end >= e.end
  }

  ghost predicate Carried(s: seq<Record>, e: Record) { exists x :: x in s && Carries(x, e) }

  predicate ConfirmedOnly(s: seq<Record>) { forall x | x in s :: x.confirmed }

  lemma WithoutHas(s: seq<Record>, i: nat, x: Record)
    requires i < |s|
    ensures x in Without(s, i) ==> x in s
    ensures x in s && x != s[i] ==> x in Without(s, i)
  {
    assert s == s[..i] + [s[i]] + s[i + 1..];
  }

  lemma CarriedBy(s: seq<Record>, x: Record, e: Record)
    requires x in s && Carries(x, e)
    ensures Carried(s, e)
  {}

  /** A confirmed entry is represented once it has been coalesced. */
  lemma AppendingRecords(history: seq<Record>, record: Record)
    requires ConfirmedOnly(history) && record.confirmed
    ensures Carried(Appended(history, record), record)
  {
    var i := PhaseIndex(history, record);
    var rest := Unestimated(history, record);
    if Known(history, record) {
      CarriedBy(history, history[i], record);
    } else if Listed(rest, record) {
      var p :| p in rest && SameEntry(p, record);
      if i < |history| { WithoutHas(history, i, p); }
      CarriedBy(rest, p, record);
    } else {
      CarriedBy(rest + [record], record, record);
    }
  }

  lemma AppendingAdmits(history: seq<Record>, record: Record, x: Record)
    requires x in Appended(history, record)
    ensures x in history || (x == record && record.confirmed)
  {
    var i := PhaseIndex(history, record);
    if i < |history| { WithoutHas(history, i, x); }
  }

  /** Coalescing loses no confirmed activity: what it removes, the new entry carries on. */
  lemma AppendingKeeps(history: seq<Record>, record: Record, e: Record)
    requires ConfirmedOnly(history) && Carried(history, e)
    ensures Carried(Appended(history, record), e)
  {
    var i := PhaseIndex(history, record);
    var x :| x in history && Carries(x, e);
    if !Known(history, record) {
      if i < |history| && x == history[i] {
        AppendingRecords(history, record);
        var y :| y in Appended(history, record) && Carries(y, record);
        CarriedBy(Appended(history, record), y, e);
      } else {
        if i < |history| { WithoutHas(history, i, x); }
        CarriedBy(Appended(history, record), x, e);
      }
    }
  }

  // ---------------------------------------------------------------- one entry per continuous window

  /** Outside Climate a confirmed phase is named by its start, location and summary. */
  predicate SamePhase(a: Record, b: Record) {
    SameConfirmedWindow(a, b) && a.location != Some("Climate")
  }

  predicate OnePerPhase(s: seq<Record>) { forall i, j | 0 <= i < j < |s| :: !SamePhase(s[i], s[j]) }

  lemma OnePerPhaseWithout(s: seq<Record>, i: nat)
    requires OnePerPhase(s) && i < |s|
    ensures OnePerPhase(Without(s, i))
    ensures forall k | 0 <= k < |s| && k != i :: s[k] in Without(s, i)
  {
    var t := Without(s, i);
    forall a, b | 0 <= a < b < |t| ensures !SamePhase(t[a], t[b]) {
      assert t[a] == s[if a < i then a else a + 1] && t[b] == s[if b < i then b else b + 1];
    }
    forall k | 0 <= k < |s| && k != i ensures s[k] in t { assert t[if k < i then k else k - 1] == s[k]; }
  }

  lemma PhasesMerge(a: Record, b: Record, r: Record)
    ensures SamePhase(a, r) && SameConfirmedWindow(b, r) ==> SamePhase(a, b) && SamePhase(b, a)
  {}

  /** A phase recorded once stays recorded once. */
  lemma AppendingKeepsOnePerPhase(history: seq<Record>, record: Record)
    requires OnePerPhase(history)
    ensures OnePerPhase(Appended(history, record))
  {
    var i := PhaseIndex(history, record);
    var rest := Unestimated(history, record);
    if i < |history| {
      OnePerPhaseWithout(history, i);
      forall k | 0 <= k < |rest| ensures !SamePhase(rest[k], record) {
        var m := if k < i then k else k + 1;
        assert rest[k] == history[m];
        PhasesMerge(history[m], history[i], record);
      }
    }
  }

  lemma OnePerPhaseLonger(s: seq<Record>, r: Record)
    requires OnePerPhase(s) && forall i | 0 <= i < |s| :: !SamePhase(s[i], r)
    ensures OnePerPhase(s + [r])
  {}

  lemma OnePerPhasePrefix(s: seq<Record>, init: seq<Record>, r: Record)
    requires OnePerPhase(s) && s == init + [r]
    ensures OnePerPhase(init) && forall x | x in init :: !SamePhase(x, r)
  {
    forall x | x in init ensures !SamePhase(x, r) {
      var k :| 0 <= k < |init| && init[k] == x;
      assert s[k] == x && s[|init|] == r;
    }
    assert forall i | 0 <= i < |init| :: init[i] == s[i];
  }

  lemma {:induction false} OnePerPhaseKept(s: seq<Record>, f: Record -> bool)
    requires OnePerPhase(s)
    ensures OnePerPhase(Keep(s, f))
  {
    hide SamePhase, OnePerPhase;
    if |s| == 0 {
      OnePerPhaseNone();
    } else {
      var init, last := s[..|s| - 1], s[|s| - 1];
      OnePerPhasePrefix(s, init, last);
      OnePerPhaseKept(init, f);
      OnePerPhaseLonger(Keep(init, f), last);
    }
  }

  lemma OnePerPhaseNone()
    ensures OnePerPhase([])
  {}

  lemma {:induction false} OnePerPhaseInserted(s: seq<Record>, r: Record)
    requires Sorted(s, StartOf) && OnePerPhase(s) && forall x | x in s :: !SamePhase(x, r) && !SamePhase(r, x)
    ensures OnePerPhase(Inserted(s, r, StartOf))
  {
    if |s| > 0 && s[0].start <= r.start {
      var rest := Inserted(s[1..], r, StartOf);
      OnePerPhaseInserted(s[1..], r);
      InsertedPermutes(s[1..], r, StartOf);
      forall x | x in rest ensures !SamePhase(s[0], x) {
        assert x in multiset(rest);
        if x != r {
          var k :| 0 <= k < |s[1..]| && s[1..][k] == x;
          assert s[k + 1] == x;
        }
      }
    }
  }

  lemma {:induction false} OnePerPhaseSorted(s: seq<Record>)
    requires OnePerPhase(s)
    ensures OnePerPhase(SortedBy(s, StartOf))
  {
    if |s| > 0 {
      var n := |s| - 1;
      OnePerPhaseSorted(s[..n]);
      forall x | x in SortedBy(s[..n], StartOf) ensures !SamePhase(x, s[n]) && !SamePhase(s[n], x) {
        SortedHas(s[..n], x);
        var k :| 0 <= k < n && s[..n][k] == x;
        assert !SamePhase(s[k], s[n]);
      }
      OnePerPhaseInserted(SortedBy(s[..n], StartOf), s[n]);
    }
  }

  lemma OnePerPhaseRetained(history: seq<Record>, now: int)
    requires OnePerPhase(history)
    ensures OnePerPhase(Retained(history, now))
  {
    var f := (r: Record) => r.end >= now - RETENTION;
    OnePerPhaseKept(history, f);
    OnePerPhaseSorted(Keep(history, f));
    var all, kept := SortedBy(Keep(history, f), StartOf), Retained(history, now);
    assert kept == Newest(all);
  }

  // ---------------------------------------------------------------- the update

  predicate InScope(r: Record, location: Option<string>) { location.None? || r.location == location }

  /** The first saved window of the same phase that reaches further, if any. */
  function Extension(pending: seq<Record>, r: Record): Record {
    if |pending| == 0 then r
    else if SameConfirmedWindow(pending[0], r) && pending[0].end > r.end then pending[0]
    else Extension(pending[1..], r)
  }

  /** What an observation reports about its scope; an execution snapshot keeps newer extents. */
  function Observed(current: seq<Record>, pending: seq<Record>, location: Option<string>): seq<Record> {
    var seen := Keep(current, (r: Record) => r.confirmed && InScope(r, location));
    if location.Some? then seen else seq(|seen|, i requires 0 <= i < |seen| => Extension(pending, seen[i]))
  }

  /** The windows to publish: a new plan replaces them all, an observation only its own confirmed ones. */
  function Published(current: seq<Record>, pending: seq<Record>, replacePlan: bool,
                     location: Option<string>): seq<Record> {
    if replacePlan then current
    else
      var observed := Observed(current, pending, location);
      observed + Keep(pending, (r: Record) =>
        !r.confirmed || (if location.Some? then r.location != location
                         else !(exists o | o in observed :: o.location == r.location)))
  }

  function Archive(saved: State, now: int): seq<Record> {
    Retained(Keep(saved.history, (r: Record) => r.confirmed), now)
  }

  function Admitted(history: seq<Record>, windows: seq<Record>): seq<Record> {
    Keep(windows, (r: Record) => r.confirmed || !(exists h | h in history :: h.uid == r.uid))
  }

  predicate Continued(p: Record, windows: seq<Record>, now: int) { exists c | c in windows :: SameRunningWindow(p, c, now) }

  function Uncontinued(history: seq<Record>, windows: seq<Record>, now: int): seq<Record> {
    Keep(history, (h: Record) => !Continued(h, windows, now))
  }

  /** A running confirmed window that is no longer planned is closed at the present. */
  function Close(p: Record, now: int): Record { if p.end <= now then p else p.(end := now) }

  predicate Closes(p: Record, windows: seq<Record>, now: int) {
    !Continued(p, windows, now) && (p.end <= now || (p.start < now && p.confirmed))
  }

  /** The history after the previously published windows have been closed. */
  function Closed(history: seq<Record>, previous: seq<Record>, windows: seq<Record>, now: int): seq<Record> {
    if |previous| == 0 then history
    else
      var p, h := previous[|previous| - 1], Closed(history, previous[..|previous| - 1], windows, now);
      if Closes(p, windows, now) then Appended(h, Close(p, now)) else h
  }

  /** The history after the windows that have ended have been moved there. */
  function Elapsed(history: seq<Record>, windows: seq<Record>, now: int): seq<Record> {
    if |windows| == 0 then history
    else
      var w, h := windows[|windows| - 1], Elapsed(history, windows[..|windows| - 1], now);
      if w.end <= now then Appended(h, w) else h
  }

  /** The windows that are still running or to come. */
  function Active(windows: seq<Record>, now: int): seq<Record> {
    if |windows| == 0 then []
    else
      var rest, w := Active(windows[..|windows| - 1], now), windows[|windows| - 1];
      if w.end <= now then rest else rest + [w]
  }

  function Gathered(archive: seq<Record>, previous: seq<Record>, windows: seq<Record>, now: int): seq<Record> {
    Elapsed(Closed(Uncontinued(archive, windows, now), previous, windows, now), windows, now)
  }

  function Updated(saved: State, current: seq<Record>, now: int, replacePlan: bool, location: Option<string>): State {
    var archive := Archive(saved, now);
    var windows := Admitted(archive, Published(current, saved.pending, replacePlan, location));
    State(Retained(Gathered(archive, saved.pending, windows, now), now), Active(windows, now))
  }

  method ExtendObserved(seen: seq<Record>, pending: seq<Record>) returns (observed: seq<Record>)
    ensures observed == seq(|seen|, i requires 0 <= i < |seen| => Extension(pending, seen[i]))
  {
    observed := seen;
    for index := 0 to |seen|
      invariant |observed| == |seen|
      invariant forall k | 0 <= k < |seen| :: observed[k] == if k < index then Extension(pending, seen[k]) else seen[k]
    {
      observed := observed[index := Extension(pending, observed[index])];
    }
  }

  method ClosePrevious(base: seq<Record>, previous: seq<Record>, windows: seq<Record>, now: int)
    returns (history: seq<Record>)
    ensures history == Closed(base, previous, windows, now)
  {
    hide Appended, Continued;
    history := base;
    for i := 0 to |previous|
      invariant history == Closed(base, previous[..i], windows, now)
    {
      assert previous[..i + 1][..i] == previous[..i];
      var p := previous[i];
      if !Continued(p, windows, now) {
        if p.end <= now {
          history := AppendUnique(history, p);
        } else if p.start < now && p.confirmed {
          history := AppendUnique(history, p.(end := now));
        }
      }
    }
    assert previous[..|previous|] == previous;
  }

  method ArchiveElapsed(base: seq<Record>, windows: seq<Record>, now: int)
    returns (history: seq<Record>, active: seq<Record>)
    ensures history == Elapsed(base, windows, now) && active == Active(windows, now)
  {
    hide Appended;
    history, active := base, [];
    for i := 0 to |windows|
      invariant history == Elapsed(base, windows[..i], now) && active == Active(windows[..i], now)
    {
      assert windows[..i + 1][..i] == windows[..i];
      if windows[i].end <= now { history := AppendUnique(history, windows[i]); } else { active := active + [windows[i]]; }
    }
    assert windows[..|windows|] == windows;
  }

  /** Reconcile the saved calendar with the windows of a plan or of an observation. */
  method UpdateCalendarHistory(saved: State, current: seq<Record>, now: int, replacePlan: bool,
                               location: Option<string>)
    returns (r: State)
    ensures r == Updated(saved, current, now, replacePlan, location)
  {
    hide Keep, Retained, Closed, Elapsed, Extension;
    var archive := Archive(saved, now);
    var windows := current;
    if !replacePlan {
      var observed := Keep(current, (r: Record) => r.confirmed && InScope(r, location));
      if location.None? { observed := ExtendObserved(observed, saved.pending); }
      assert observed == Observed(current, saved.pending, location);
      windows := Published(current, saved.pending, false, location);
    }
    windows := Admitted(archive, windows);
    var history := Uncontinued(archive, windows, now);
    history := ClosePrevious(history, saved.pending, windows, now);
    var active;
    history, active := ArchiveElapsed(history, windows, now);
    r := State(Retained(history, now), active);
  }

  // ---------------------------------------------------------------- what survives

  lemma AppendingConfirmed(history: seq<Record>, record: Record)
    requires ConfirmedOnly(history)
    ensures ConfirmedOnly(Appended(history, record))
  {
    forall x | x in Appended(history, record) ensures x.confirmed { AppendingAdmits(history, record, x); }
  }

  lemma {:induction false} ClosedKeeps(history: seq<Record>, previous: seq<Record>, windows: seq<Record>, now: int,
                                       e: Record)
    requires ConfirmedOnly(history)
    ensures ConfirmedOnly(Closed(history, previous, windows, now))
    ensures Carried(history, e) ==> Carried(Closed(history, previous, windows, now), e)
  {
    hide Carried, Appended, ConfirmedOnly;
    if |previous| > 0 {
      var init, p := previous[..|previous| - 1], previous[|previous| - 1];
      var h := Closed(history, init, windows, now);
      ClosedKeeps(history, init, windows, now, e);
      AppendingConfirmed(h, Close(p, now));
      if Carried(h, e) { AppendingKeeps(h, Close(p, now), e); }
    }
  }

  lemma {:induction false} ClosedRecords(history: seq<Record>, previous: seq<Record>, windows: seq<Record>,
                                         now: int, e: Record)
    requires ConfirmedOnly(history) && e in previous && e.confirmed && Closes(e, windows, now)
    ensures Carried(Closed(history, previous, windows, now), Close(e, now))
  {
    hide Carried, Appended, ConfirmedOnly;
    var n := |previous| - 1;
    var init, p := previous[..n], previous[n];
    var h := Closed(history, init, windows, now);
    ClosedKeeps(history, init, windows, now, e);
    if e == p {
      AppendingRecords(h, Close(p, now));
    } else {
      assert previous == init + [p];
      ClosedRecords(history, init, windows, now, e);
      if Closes(p, windows, now) { AppendingKeeps(h, Close(p, now), Close(e, now)); }
    }
  }

  lemma {:induction false} ElapsedKeeps(history: seq<Record>, windows: seq<Record>, now: int, e: Record)
    requires ConfirmedOnly(history)
    ensures ConfirmedOnly(Elapsed(history, windows, now))
    ensures Carried(history, e) ==> Carried(Elapsed(history, windows, now), e)
  {
    hide Carried, Appended, ConfirmedOnly;
    if |windows| > 0 {
      var init, w := windows[..|windows| - 1], windows[|windows| - 1];
      ElapsedKeeps(history, init, now, e);
      var h := Elapsed(history, init, now);
      AppendingConfirmed(h, w);
      if Carried(h, e) { AppendingKeeps(h, w, e); }
    }
  }

  lemma {:induction false} ElapsedRecords(history: seq<Record>, windows: seq<Record>, now: int, e: Record)
    requires ConfirmedOnly(history) && e in windows && e.confirmed && e.end <= now
    ensures Carried(Elapsed(history, windows, now), e)
  {
    hide Carried, Appended, ConfirmedOnly;
    var n := |windows| - 1;
    var init, w := windows[..n], windows[n];
    ElapsedKeeps(history, init, now, e);
    var h := Elapsed(history, init, now);
    if e == w {
      AppendingRecords(h, w);
    } else {
      assert windows == init + [w];
      ElapsedRecords(history, init, now, e);
      if w.end <= now { AppendingKeeps(h, w, e); }
    }
  }

  lemma {:induction false} ActiveHas(windows: seq<Record>, now: int, x: Record)
    ensures x in Active(windows, now) <==> x in windows && x.end > now
  {
    if |windows| > 0 {
      assert windows == windows[..|windows| - 1] + [windows[|windows| - 1]];
      ActiveHas(windows[..|windows| - 1], now, x);
    }
  }

  /** The calendar still shows the confirmed activity, at least as far as it had gone by now. */
  ghost predicate Represented(state: State, e: Record, now: int) {
    Carried(state.history, Close(e, now)) || Carried(state.pending, Close(e, now))
  }

  predicate Expired(e: Record, now: int) { e.end < now - RETENTION }

  /** A gathered entry ends up in the new history unless newer ones fill it. */
  lemma GatheredIsRetained(gathered: seq<Record>, now: int, e: Record)
    requires Carried(gathered, e) && !Expired(e, now)
    ensures Carried(Retained(gathered, now), e) || Crowded(Retained(gathered, now), e)
  {
    var x :| x in gathered && Carries(x, e);
    RetentionDropsOldest(gathered, now, x);
    if x in Retained(gathered, now) { CarriedBy(Retained(gathered, now), x, e); }
  }

  lemma ContinuedIsActive(e: Record, windows: seq<Record>, now: int)
    requires Continued(e, windows, now)
    ensures Carried(Active(windows, now), Close(e, now))
  {
    var c :| c in windows && SameRunningWindow(e, c, now);
    ActiveHas(windows, now, c);
    CarriedBy(Active(windows, now), c, Close(e, now));
  }

  lemma ArchiveIsConfirmed(saved: State, now: int)
    ensures ConfirmedOnly(Archive(saved, now))
  {
    var confirmed := Keep(saved.history, (r: Record) => r.confirmed);
    forall x | x in Archive(saved, now) ensures x.confirmed { RetentionDropsOldest(confirmed, now, x); }
  }

  /** Confirmed activity is never lost: what was confirmed, in the history or as a window already begun, is still
      there with its start and location, unless it is older than a year or a thousand newer entries replace it. */
  lemma ConfirmedNeverLost(saved: State, current: seq<Record>, now: int, replacePlan: bool,
                           location: Option<string>, e: Record)
    requires e.confirmed && (e in saved.history || (e in saved.pending && e.start < now))
    ensures var r := Updated(saved, current, now, replacePlan, location);
      Represented(r, e, now) || Expired(e, now) || Crowded(r.history, e)
      || (e in saved.history && Crowded(Archive(saved, now), e))
  {
    hide Carried, Crowded, Retained, Closed, Elapsed, Active, Appended, ConfirmedOnly, Continued;
    var archive := Archive(saved, now);
    var windows := Admitted(archive, Published(current, saved.pending, replacePlan, location));
    var base := Uncontinued(archive, windows, now);
    var closed := Closed(base, saved.pending, windows, now);
    if Expired(e, now) { return; }
    ArchiveIsConfirmed(saved, now);
    assert ConfirmedOnly(base) by { BaseIsConfirmed(archive, windows, now); }
    ClosedKeeps(base, saved.pending, windows, now, Close(e, now));
    if Continued(e, windows, now) {
      ContinuedIsActive(e, windows, now);
      return;
    }
    if e in saved.history {
      RetentionDropsOldest(Keep(saved.history, (r: Record) => r.confirmed), now, e);
      if e !in archive { return; }
      assert e in base;
      assert Carried(base, Close(e, now)) by { CarriedBy(base, e, Close(e, now)); }
    } else {
      ClosedRecords(base, saved.pending, windows, now, e);
    }
    ElapsedKeeps(closed, windows, now, Close(e, now));
    GatheredIsRetained(Elapsed(closed, windows, now), now, Close(e, now));
    assert Crowded(Retained(Elapsed(closed, windows, now), now), Close(e, now))
      ==> Crowded(Retained(Elapsed(closed, windows, now), now), e) by { CrowdedSame(e, now); }
  }

  /** A confirmed window of the published plan that has ended is recorded in the history. */
  lemma EndedWindowIsRecorded(saved: State, current: seq<Record>, now: int, replacePlan: bool, location: Option<string>,
                              e: Record)
    requires e.confirmed && e.end <= now && e in Published(current, saved.pending, replacePlan, location)
    ensures var r := Updated(saved, current, now, replacePlan, location);
      Carried(r.history, e) || Expired(e, now) || Crowded(r.history, e)
  {
    hide Carried, Crowded, Retained, Closed, Elapsed, Active, Appended, ConfirmedOnly, Continued, Published;
    var archive := Archive(saved, now);
    var windows := Admitted(archive, Published(current, saved.pending, replacePlan, location));
    var base := Uncontinued(archive, windows, now);
    ArchiveIsConfirmed(saved, now);
    assert ConfirmedOnly(base) by { BaseIsConfirmed(archive, windows, now); }
    ClosedKeeps(base, saved.pending, windows, now, e);
    ElapsedRecords(Closed(base, saved.pending, windows, now), windows, now, e);
    if !Expired(e, now) { GatheredIsRetained(Gathered(archive, saved.pending, windows, now), now, e); }
  }

  lemma BaseIsConfirmed(archive: seq<Record>, windows: seq<Record>, now: int)
    requires ConfirmedOnly(archive)
    ensures ConfirmedOnly(Uncontinued(archive, windows, now))
  {}

  lemma CrowdedSame(e: Record, now: int)
    ensures forall kept :: Crowded(kept, Close(e, now)) ==> Crowded(kept, e)
  {}

  // ---------------------------------------------------------------- what is still to come

  /** Still ahead, and not a provisional window that the history already has under its name. */
  ghost predicate Upcoming(saved: State, now: int, w: Record) {
    w.end > now && (w.confirmed || forall h | h in Archive(saved, now) :: h.uid != w.uid)
  }

  lemma PendingAre(saved: State, current: seq<Record>, now: int, replacePlan: bool, location: Option<string>, w: Record)
    ensures w in Updated(saved, current, now, replacePlan, location).pending <==>
      w in Published(current, saved.pending, replacePlan, location) && Upcoming(saved, now, w)
  {
    hide Published, Archive, Gathered, Retained;
    var windows := Admitted(Archive(saved, now), Published(current, saved.pending, replacePlan, location));
    ActiveHas(windows, now, w);
  }

  /** A new plan replaces what was to come: pending are exactly its windows that are still ahead. */
  lemma PlanReplacesPending(saved: State, current: seq<Record>, now: int, location: Option<string>, w: Record)
    ensures w in Updated(saved, current, now, true, location).pending <==> w in current && Upcoming(saved, now, w)
  {
    hide Upcoming, Updated;
    PendingAre(saved, current, now, true, location, w);
  }

  /** An observation in one place replaces that place's confirmed windows and leaves every other window to come. */
  lemma ScopedObservationKeepsPending(saved: State, current: seq<Record>, now: int, place: string, w: Record)
    ensures w in Updated(saved, current, now, false, Some(place)).pending <==>
      && Upcoming(saved, now, w)
      && ((w in current && w.confirmed && w.location == Some(place))
          || (w in saved.pending && (!w.confirmed || w.location != Some(place))))
  {
    hide Upcoming, Updated;
    PendingAre(saved, current, now, false, Some(place), w);
  }

  /** `w` is a longer extent of the window that was observed as `r`. */
  ghost predicate Reaches(w: Record, r: Record) { SameConfirmedWindow(w, r) && w.end > r.end }

  ghost predicate FirstToReach(pending: seq<Record>, w: Record, r: Record, k: nat) {
    k < |pending| && pending[k] == w && Reaches(w, r) && forall j: nat | j < k :: !Reaches(pending[j], r)
  }

  /** The record that stands for an observed one: the first saved window of its phase that reaches further, or itself. */
  ghost predicate StandsFor(pending: seq<Record>, w: Record, r: Record) {
    || (w == r && forall k: nat | k < |pending| :: !Reaches(pending[k], r))
    || (exists k: nat :: FirstToReach(pending, w, r, k))
  }

  lemma {:induction false} ExtensionStands(pending: seq<Record>, w: Record, r: Record)
    ensures w == Extension(pending, r) <==> StandsFor(pending, w, r)
  {
    if |pending| > 0 && Reaches(pending[0], r) {
      if w == pending[0] { assert FirstToReach(pending, w, r, 0); }
    } else if |pending| > 0 {
      ExtensionStands(pending[1..], w, r);
      StandsBehind(pending, w, r);
    }
  }

  /** A first window that does not reach further changes nothing. */
  lemma StandsBehind(pending: seq<Record>, w: Record, r: Record)
    requires |pending| > 0 && !Reaches(pending[0], r)
    ensures StandsFor(pending, w, r) <==> StandsFor(pending[1..], w, r)
  {
    hide Reaches;
    var rest := pending[1..];
    if k: nat :| FirstToReach(rest, w, r, k) { assert FirstToReach(pending, w, r, k + 1); }
    if k: nat :| FirstToReach(pending, w, r, k) { assert FirstToReach(rest, w, r, k - 1); }
    assert forall k: nat | k < |rest| :: rest[k] == pending[k + 1];
    assert forall k: nat | 0 < k < |pending| :: pending[k] == rest[k - 1];
  }

  /** A snapshot of an execution keeps newer extents, replaces confirmed windows of the places it reports on, and leaves
      every provisional window to come. */
  lemma SnapshotKeepsPending(saved: State, current: seq<Record>, now: int, w: Record)
    ensures w in Updated(saved, current, now, false, None).pending <==>
      && Upcoming(saved, now, w)
      && ((exists r | r in current :: r.confirmed && StandsFor(saved.pending, w, r))
          || (w in saved.pending && (!w.confirmed || !(exists r | r in current :: r.confirmed && r.location == w.location))))
  {
    hide Upcoming, Updated, StandsFor, Observed;
    PendingAre(saved, current, now, false, None, w);
    ObservedStand(saved, current, w);
    ObservedPlaces(saved, current, w.location);
  }

  lemma ObservedAre(saved: State, current: seq<Record>, r: Record)
    requires r in current && r.confirmed
    ensures Extension(saved.pending, r) in Observed(current, saved.pending, None)
  {
    hide Extension;
    var seen := Keep(current, (r: Record) => r.confirmed && InScope(r, None));
    var i :| 0 <= i < |seen| && seen[i] == r;
    assert Observed(current, saved.pending, None)[i] == Extension(saved.pending, r);
  }

  lemma ObservedFrom(saved: State, current: seq<Record>, o: Record) returns (r: Record)
    requires o in Observed(current, saved.pending, None)
    ensures r in current && r.confirmed && o == Extension(saved.pending, r)
  {
    hide Extension;
    var i :| 0 <= i < |Observed(current, saved.pending, None)| && Observed(current, saved.pending, None)[i] == o;
    r := Keep(current, (r: Record) => r.confirmed && InScope(r, None))[i];
  }

  lemma ObservedStand(saved: State, current: seq<Record>, w: Record)
    ensures w in Observed(current, saved.pending, None) <==>
      exists r | r in current :: r.confirmed && StandsFor(saved.pending, w, r)
  {
    hide StandsFor, Extension, Observed;
    if w in Observed(current, saved.pending, None) {
      var r := ObservedFrom(saved, current, w);
      ExtensionStands(saved.pending, w, r);
    }
    if r :| r in current && r.confirmed && StandsFor(saved.pending, w, r) {
      ExtensionStands(saved.pending, w, r);
      ObservedAre(saved, current, r);
    }
  }

  lemma ObservedPlaces(saved: State, current: seq<Record>, place: Option<string>)
    ensures (exists o | o in Observed(current, saved.pending, None) :: o.location == place) <==>
      exists r | r in current :: r.confirmed && r.location == place
  {
    hide Extension, Observed;
    if o :| o in Observed(current, saved.pending, None) && o.location == place {
      var r := ObservedFrom(saved, current, o);
      ExtensionKeepsPlace(saved.pending, r);
    }
    if r :| r in current && r.confirmed && r.location == place {
      ObservedAre(saved, current, r);
      ExtensionKeepsPlace(saved.pending, r);
    }
  }

  lemma {:induction false} ExtensionKeepsPlace(pending: seq<Record>, r: Record)
    ensures Extension(pending, r).location == r.location
  {
    if |pending| > 0 { ExtensionKeepsPlace(pending[1..], r); }
  }

  // ---------------------------------------------------------------- what may enter

  lemma {:induction false} ClosedAdmits(history: seq<Record>, previous: seq<Record>, windows: seq<Record>,
                                        now: int, x: Record)
    requires x in Closed(history, previous, windows, now)
    ensures x in history || exists p :: p in previous && p.confirmed && Closes(p, windows, now) && x == Close(p, now)
  {
    hide Appended, Continued;
    if |previous| > 0 {
      var init, p := previous[..|previous| - 1], previous[|previous| - 1];
      var h := Closed(history, init, windows, now);
      if Closes(p, windows, now) { AppendingAdmits(h, Close(p, now), x); }
      if x in h { ClosedAdmits(history, init, windows, now, x); }
      assert forall q | q in init :: q in previous;
    }
  }

  lemma {:induction false} ElapsedAdmits(history: seq<Record>, windows: seq<Record>, now: int, x: Record)
    requires x in Elapsed(history, windows, now)
    ensures x in history || (x in windows && x.confirmed && x.end <= now)
  {
    hide Appended;
    if |windows| > 0 {
      var init, w := windows[..|windows| - 1], windows[|windows| - 1];
      var h := Elapsed(history, init, now);
      if w.end <= now { AppendingAdmits(h, w, x); }
      if x in h { ElapsedAdmits(history, init, now, x); }
      assert windows == init + [w];
    }
  }

  /** Nothing provisional becomes history: an entry was there before, or is a confirmed window that has ended,
      at the latest by being closed now. */
  lemma OnlyConfirmedEnters(saved: State, current: seq<Record>, now: int, replacePlan: bool,
                            location: Option<string>, x: Record)
    requires x in Updated(saved, current, now, replacePlan, location).history
    ensures x.confirmed
    ensures x in saved.history
            || (exists p :: p in saved.pending && p.confirmed && x == Close(p, now) && (p.end <= now || p.start < now))
            || (x in Published(current, saved.pending, replacePlan, location) && x.end <= now)
  {
    hide Closed, Elapsed, Active, Appended, Continued, Retained;
    var archive := Archive(saved, now);
    var windows := Admitted(archive, Published(current, saved.pending, replacePlan, location));
    var base := Uncontinued(archive, windows, now);
    var closed := Closed(base, saved.pending, windows, now);
    RetentionDropsOldest(Elapsed(closed, windows, now), now, x);
    ElapsedAdmits(closed, windows, now, x);
    if x in closed {
      ClosedAdmits(base, saved.pending, windows, now, x);
      if x in base { RetentionDropsOldest(Keep(saved.history, (r: Record) => r.confirmed), now, x); }
    }
  }

  /** The new state is well formed: history in order and bounded, windows still to end. */
  lemma UpdateKeepsShape(saved: State, current: seq<Record>, now: int, replacePlan: bool, location: Option<string>)
    ensures var r := Updated(saved, current, now, replacePlan, location);
      && Sorted(r.history, StartOf) && |r.history| <= HARD_CAP && ConfirmedOnly(r.history)
      && (forall x | x in r.history :: !Expired(x, now)) && (forall x | x in r.pending :: x.end > now)
  {
    hide Closed, Elapsed, Active, Retained, Published;
    var r := Updated(saved, current, now, replacePlan, location);
    var archive := Archive(saved, now);
    var windows := Admitted(archive, Published(current, saved.pending, replacePlan, location));
    var gathered := Gathered(archive, saved.pending, windows, now);
    forall x | x in r.history ensures x.confirmed && !Expired(x, now) {
      OnlyConfirmedEnters(saved, current, now, replacePlan, location, x);
      RetentionDropsOldest(gathered, now, x);
    }
    forall x | x in r.pending ensures x.end > now { ActiveHas(windows, now, x); }
    RetentionDropsOldest(gathered, now, Record("", "", None, 0, 0, false, false));
  }

  lemma {:induction false} ClosedOnePerPhase(history: seq<Record>, previous: seq<Record>, windows: seq<Record>,
                                             now: int)
    requires OnePerPhase(history)
    ensures OnePerPhase(Closed(history, previous, windows, now))
  {
    hide Appended, Continued, OnePerPhase;
    if |previous| > 0 {
      var init, p := previous[..|previous| - 1], previous[|previous| - 1];
      ClosedOnePerPhase(history, init, windows, now);
      AppendingKeepsOnePerPhase(Closed(history, init, windows, now), Close(p, now));
    }
  }

  lemma {:induction false} ElapsedOnePerPhase(history: seq<Record>, windows: seq<Record>, now: int)
    requires OnePerPhase(history)
    ensures OnePerPhase(Elapsed(history, windows, now))
  {
    hide Appended, OnePerPhase;
    if |windows| > 0 {
      var init, w := windows[..|windows| - 1], windows[|windows| - 1];
      ElapsedOnePerPhase(history, init, now);
      AppendingKeepsOnePerPhase(Elapsed(history, init, now), w);
    }
  }

  /** Outside Climate, one continuous confirmed window has one history entry, if it began so. */
  lemma UpdateKeepsOnePerPhase(saved: State, current: seq<Record>, now: int, replacePlan: bool,
                               location: Option<string>)
    requires OnePerPhase(saved.history)
    ensures OnePerPhase(Updated(saved, current, now, replacePlan, location).history)
  {
    hide Closed, Elapsed, Active, Appended, Continued, Retained, OnePerPhase, Published;
    var archive := Archive(saved, now);
    var windows := Admitted(archive, Published(current, saved.pending, replacePlan, location));
    var confirmed := Keep(saved.history, (r: Record) => r.confirmed);
    OnePerPhaseKept(saved.history, (r: Record) => r.confirmed);
    OnePerPhaseRetained(confirmed, now);
    OnePerPhaseKept(archive, (h: Record) => !Continued(h, windows, now));
    var base := Uncontinued(archive, windows, now);
    ClosedOnePerPhase(base, saved.pending, windows, now);
    ElapsedOnePerPhase(Closed(base, saved.pending, windows, now), windows, now);
    OnePerPhaseRetained(Gathered(archive, saved.pending, windows, now), now);
  }
}
