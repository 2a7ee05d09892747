/**
 Day-over-day readiness of the learned climate model: authority is granted by two consecutive validation days and
 lost only for stated reasons, over every sequence of refreshes.
 */
module Readiness {
  import opened Common

  const VALIDATION_EXPIRY := 14 * 86_400 * MICROS_PER_SECOND

  datatype Mode = Heat | Cool

  datatype Policy = Automatic | Observe | Legacy

  datatype Status = Disabled | Learning | Active | ReadyObserving | Degraded

  /** What a refresh knows about one mode. `day` is the model's training date; `controlled` says that climate
      control is held by somebody. */
  datatype Evidence = Evidence(day: Option<int>, qualified: bool, live: bool, lastWindow: Option<int>, now: int,
                               controlled: bool)

  datatype Item = Item(day: Option<int>, passes: nat, failures: nat, lastGood: Option<int>, ready: bool)

  const NEW_ITEM := Item(None, 0, 0, None, false)

  datatype Validation = Validation(day: int, passed: bool, live: bool)

  // ---------------------------------------------------------------- one refresh of one mode

  predicate NewDay(i: Item, e: Evidence) { e.day.Some? && i.day != e.day }

  predicate Consecutive(i: Item, e: Evidence) { i.day.Some? && e.day.Some? && e.day.value - i.day.value == 1 }

  /** A date is validated once: the first refresh that sees it decides. */
  function Validated(i: Item, e: Evidence): Item {
    if !NewDay(i, e) then i
    else if e.qualified && e.live then
      Item(e.day, if Consecutive(i, e) then i.passes + 1 else 1, 0, e.lastWindow, i.ready)
    else
      Item(e.day, 0, if Consecutive(i, e) then i.failures + 1 else 1, i.lastGood, i.ready)
  }

  predicate Stale(i: Item, e: Evidence) { i.lastGood.None? || e.now - i.lastGood.value > VALIDATION_EXPIRY }

  function Refreshed(i: Item, e: Evidence): Item {
    var v := Validated(i, e);
    if !e.live || Stale(v, e) || v.failures >= 2 then v.(ready := false, passes := 0)
    else if v.passes >= 2 && !e.controlled then v.(ready := true)
    else v
  }

  // ---------------------------------------------------------------- every run from an empty state

  function After(run: seq<Evidence>): Item {
    if |run| == 0 then NEW_ITEM else Refreshed(After(run[..|run| - 1]), run[|run| - 1])
  }

  /** The validations of a run: one per change of the training date. */
  function Validations(run: seq<Evidence>): seq<Validation> {
    if |run| == 0 then []
    else
      var init, e := run[..|run| - 1], run[|run| - 1];
      if NewDay(After(init), e) then Validations(init) + [Validation(e.day.value, e.qualified && e.live, e.live)]
      else Validations(init)
  }

  /** Length of the trailing run of validations on consecutive days that all have the outcome `passed`. */
  function Streak(v: seq<Validation>, passed: bool): nat {
    if |v| == 0 || v[|v| - 1].passed != passed then 0
    else if |v| > 1 && v[|v| - 1].day - v[|v| - 2].day == 1 then 1 + Streak(v[..|v| - 1], passed)
    else 1
  }

  lemma StreakExtends(v: seq<Validation>, next: Validation, passed: bool)
    ensures Streak(v + [next], passed) ==
      if next.passed != passed then 0
      else if |v| > 0 && next.day - v[|v| - 1].day == 1 then 1 + Streak(v, passed) else 1
  {
    var w := v + [next];
    assert w[..|w| - 1] == v;
  }

  /** A streak of two means that the two latest validation dates are consecutive with the same outcome. */
  lemma StreakOfTwo(v: seq<Validation>, passed: bool)
    requires Streak(v, passed) >= 2
    ensures |v| >= 2 && v[|v| - 1].passed == v[|v| - 2].passed == passed && v[|v| - 1].day == v[|v| - 2].day + 1
  {
    var w := v[..|v| - 1];
    assert Streak(w, passed) >= 1;
    assert w[|w| - 1] == v[|v| - 2];
  }

  /** The counters mean what they say: the pass count never exceeds the streak of passed days, the failure count is
      the streak of failed days, and the remembered date is that of the last validation. */
  lemma {:induction false} CountersAreStreaks(run: seq<Evidence>)
    ensures var i, v := After(run), Validations(run);
      && i.passes <= Streak(v, true) && i.failures == Streak(v, false)
      && i.day == (if |v| > 0 then Some(v[|v| - 1].day) else None)
      && (forall k | 0 <= k < |v| :: v[k].passed ==> v[k].live)
  {
    if |run| > 0 {
      var init, e := run[..|run| - 1], run[|run| - 1];
      CountersAreStreaks(init);
      if NewDay(After(init), e) {
        var next := Validation(e.day.value, e.qualified && e.live, e.live);
        StreakExtends(Validations(init), next, true);
        StreakExtends(Validations(init), next, false);
      }
    }
  }

  lemma RefreshGrants(i: Item, e: Evidence)
    requires !i.ready && Refreshed(i, e).ready
    ensures Refreshed(i, e).passes >= 2 && e.live && !Stale(Refreshed(i, e), e) && !e.controlled
  {}

  /** A mode turns ready only when its two latest validation dates are consecutive days that both passed with live
      evidence, and never without present live, fresh evidence or while somebody holds climate control. */
  lemma ReadyNeedsTwoDays(run: seq<Evidence>)
    requires |run| > 0 && !After(run[..|run| - 1]).ready && After(run).ready
    ensures var v, e := Validations(run), run[|run| - 1];
      && |v| >= 2 && v[|v| - 1].passed && v[|v| - 2].passed && v[|v| - 1].live && v[|v| - 2].live
      && v[|v| - 1].day == v[|v| - 2].day + 1
      && e.live && !Stale(After(run), e) && !e.controlled
  {
    hide Validations, Streak;
    CountersAreStreaks(run);
    RefreshGrants(After(run[..|run| - 1]), run[|run| - 1]);
    StreakOfTwo(Validations(run), true);
  }

  /** Live evidence whose last good window, at `lastGood`, is at most fourteen days old. */
  ghost predicate Fresh(e: Evidence, lastGood: Option<int>) {
    e.live && lastGood.Some? && e.now - lastGood.value <= 1_209_600_000_000
  }

  /** A day that passes leaves a pass, and no failure. */
  lemma PassCounts(i: Item, e: Evidence)
    requires e.day.Some? && i.day != e.day && e.qualified && Fresh(e, e.lastWindow)
    ensures var r := Refreshed(i, e);
      && r.day == e.day && r.passes >= 1 && r.failures == 0 && r.lastGood == e.lastWindow
      && (Consecutive(i, e) && i.passes >= 1 ==> r.passes >= 2 && (!e.controlled ==> r.ready))
  {}

  /** Refreshes on the same date keep the pass while evidence stays live and fresh. */
  lemma {:induction false} PassStays(run: seq<Evidence>, more: seq<Evidence>)
    requires After(run).day.Some? && After(run).passes >= 1 && After(run).failures == 0
    requires forall e | e in more :: e.day == After(run).day && Fresh(e, After(run).lastGood)
    ensures var i := After(run + more);
      && i.day == After(run).day && i.passes >= 1 && i.failures == 0 && i.lastGood == After(run).lastGood
  {
    hide After;
    if |more| == 0 {
      assert run + more == run;
    } else {
      var init, e := more[..|more| - 1], more[|more| - 1];
      PassStays(run, init);
      AfterOne(run + init, e);
      assert (run + init) + [e] == run + more;
    }
  }

  /** Two consecutive days that pass make a mode ready, whatever came before and however often the first date is
      refreshed, if evidence stays live and fresh and nobody holds climate control at the second. */
  lemma TwoDaysGrant(run: seq<Evidence>, first: Evidence, more: seq<Evidence>, second: Evidence)
    requires first.day.Some? && After(run).day != first.day && second.day == Some(first.day.value + 1)
    requires first.qualified && Fresh(first, first.lastWindow) && second.qualified && Fresh(second, second.lastWindow)
    requires forall e | e in more :: e.day == first.day && Fresh(e, first.lastWindow)
    requires !second.controlled
    ensures After(run + [first] + more + [second]).ready
  {
    hide After, Refreshed;
    AfterOne(run, first);
    PassCounts(After(run), first);
    PassStays(run + [first], more);
    AfterOne(run + [first] + more, second);
    PassCounts(After(run + [first] + more), second);
  }

  /** Readiness, once granted, lasts exactly as long as evidence is live and fresh and no two consecutive days fail. */
  lemma ReadyIsLostOnlyFor(run: seq<Evidence>)
    requires |run| > 0 && After(run[..|run| - 1]).ready
    ensures var i, v, e := After(run), Validations(run), run[|run| - 1];
      && (!i.ready <==> !e.live || Stale(i, e) || Streak(v, false) >= 2)
      && (!i.ready && e.live && !Stale(i, e) ==>
            |v| >= 2 && !v[|v| - 1].passed && !v[|v| - 2].passed && v[|v| - 1].day == v[|v| - 2].day + 1)
  {
    CountersAreStreaks(run);
    if Streak(Validations(run), false) >= 2 { StreakOfTwo(Validations(run), false); }
  }

  /** Refreshing again on a date already validated adds no validation and never raises the pass count. */
  lemma SameDayNeverRaises(run: seq<Evidence>, again: Evidence)
    requires After(run).day == again.day
    ensures Validations(run + [again]) == Validations(run)
    ensures After(run + [again]).passes <= After(run).passes && After(run + [again]).failures == After(run).failures
  {
    assert (run + [again])[..|run|] == run;
  }

  lemma AfterOne(run: seq<Evidence>, e: Evidence)
    ensures After(run + [e]) == Refreshed(After(run), e)
  {
    assert (run + [e])[..|run|] == run;
  }

  /** Any number of refreshes on one date: still at most the passes the date began with. */
  lemma {:induction false} OneDateOneStep(run: seq<Evidence>, more: seq<Evidence>)
    requires After(run).day.Some? && forall k | 0 <= k < |more| :: more[k].day == After(run).day
    ensures Validations(run + more) == Validations(run) && After(run + more).passes <= After(run).passes
    ensures After(run + more).day == After(run).day
  {
    if |more| == 0 {
      assert run + more == run;
    } else {
      var init := more[..|more| - 1];
      OneDateOneStep(run, init);
      SameDayNeverRaises(run + init, more[|more| - 1]);
      assert (run + init) + [more[|more| - 1]] == run + more;
      assert (run + more)[..|run + more| - 1] == run + init;
    }
  }

  // ---------------------------------------------------------------- the engine

  class ReadinessEngine {
    var modes: map<Mode, Item>
    var everActive: bool
    var status: Status
    ghost var history: map<Mode, seq<Evidence>>

    ghost predicate Valid()
      reads this
    {
      && modes.Keys == history.Keys
      && (forall m | m in modes :: modes[m] == After(history[m]))
      && (status == Degraded ==> everActive)
    }

    constructor ()
      ensures Valid() && modes == map[] && !everActive && status == Learning
    {
      modes, everActive, status, history := map[], false, Learning, map[];
    }

    predicate AnyReady()
      reads this
    {
      (Heat in modes && modes[Heat].ready) || (Cool in modes && modes[Cool].ready)
    }

    /** What a refresh makes of the old state of a mode. */
    function Next(before: map<Mode, Item>, m: Mode, evidence: map<Mode, Evidence>): Item
      requires m in evidence
    {
      Refreshed(if m in before then before[m] else NEW_ITEM, evidence[m])
    }

    ghost function Longer(before: map<Mode, seq<Evidence>>, m: Mode, evidence: map<Mode, Evidence>): seq<Evidence>
      requires m in evidence
    {
      (if m in before then before[m] else []) + [evidence[m]]
    }

    method RefreshMode(m: Mode, evidence: map<Mode, Evidence>)
      requires Valid() && m in evidence
      modifies this`modes, this`history
      ensures Valid()
      ensures modes == old(modes)[m := Next(old(modes), m, evidence)]
      ensures history == old(history)[m := Longer(old(history), m, evidence)]
    {
      hide Refreshed;
      ghost var past := if m in history then history[m] else [];
      AfterOne(past, evidence[m]);
      assert After(past) == if m in modes then modes[m] else NEW_ITEM;
      modes, history := modes[m := Next(modes, m, evidence)], history[m := past + [evidence[m]]];
    }

    /** One refresh: every mode moves by one step, and only then is the overall status decided. */
    method UpdateReadiness(evidence: map<Mode, Evidence>, policy: Policy)
      requires Valid() && Heat in evidence && Cool in evidence
      modifies this
      ensures Valid()
      ensures modes == old(modes)[Heat := Next(old(modes), Heat, evidence)][Cool := Next(old(modes), Cool, evidence)]
      ensures history == old(history)[Heat := Longer(old(history), Heat, evidence)]
                                     [Cool := Longer(old(history), Cool, evidence)]
      ensures status == (if policy == Legacy then Disabled
                         else if AnyReady() then (if policy == Observe then ReadyObserving else Active)
                         else if everActive then Degraded else Learning)
      ensures everActive == (old(everActive) || (policy == Automatic && AnyReady()))
    {
      hide Refreshed, After;
      var order := [Heat, Cool];
      for k := 0 to 2
        invariant Valid() && everActive == old(everActive)
        invariant modes == if k == 0 then old(modes)
                           else if k == 1 then old(modes)[Heat := Next(old(modes), Heat, evidence)]
                           else old(modes)[Heat := Next(old(modes), Heat, evidence)][Cool := Next(old(modes), Cool, evidence)]
        invariant history == if k == 0 then old(history)
                             else if k == 1 then old(history)[Heat := Longer(old(history), Heat, evidence)]
                             else old(history)[Heat := Longer(old(history), Heat, evidence)]
                                              [Cool := Longer(old(history), Cool, evidence)]
      {
        RefreshMode(order[k], evidence);
      }
      if policy == Legacy {
        status := Disabled;
      } else if AnyReady() {
        status := if policy == Observe then ReadyObserving else Active;
        if policy == Automatic { everActive := true; }
      } else {
        status := if everActive then Degraded else Learning;
      }
    }
  }
}
