/**
 What the export-limit transaction does, not only what it avoids: when nothing stands in the way, a change or a
 restoration is sent, once, with the commanded setting; what is shown is noticed.
 */
module ExportActs {
  import opened Common
  import opened ExportLog
  import opened ExportState
  import opened ExportTiming
  import opened ExportSteps
  import opened ExportKeeps
  import opened ExportDispatch
  import opened ExportRuns
  import opened ExportTraces
  import opened ExportExact

  // ---------------------------------------------------------------- readings and deadlines

  /** A look is usable exactly when it shows a reading that is not of the future and at most ten minutes old. */
  lemma UsableExactly(look: Look, now: nat, read: Readback)
    ensures Settled(look, now) == Seen(read) <==> look.raw == Some(read) && read.at <= now <= read.at + 600_000_000
  {}

  /** A control may change again exactly when every wait on record is over: the stricter of the configured and the captured
      interval after the last attempt, five minutes after a confirmation and after an external settlement. */
  lemma EligibleExactly(r: Record, option: nat, now: nat)
    ensures AtMost(NextEligible(r, option), now) <==>
      && (r.attemptedAt.Some? ==>
            && r.attemptedAt.value + 300_000_000 <= now && r.attemptedAt.value + option <= now
            && r.attemptedAt.value + r.interval <= now)
      && (r.confirmedAt.Some? ==> r.confirmedAt.value + 300_000_000 <= now)
      && (r.settledAt.Some? ==> r.settledAt.value + 300_000_000 <= now)
  {}

  // ---------------------------------------------------------------- when saves succeed

  ghost predicate Saving(w: World) { forall f | f in w.faults :: f.Written? || f.Delayed? }

  /** The store has moved on and nothing else. */
  ghost predicate Proceeds(s: State, t: State) {
    Calm(s, t) && Saving(t.world) && t.world == s.world.(faults := t.world.faults)
  }

  lemma SavesWell(s: State, d: Data, flush: bool)
    requires Saving(s.world)
    ensures var r := Persisted(s, d, flush);
      && r.outcome.Done? && Proceeds(s, r.state) && r.state.mem == d && (flush ==> r.state.disk == d)
  {
    if |s.world.faults| > 0 {
      assert s.world.faults[0] in s.world.faults;
      assert forall f | f in s.world.faults[1..] :: f in s.world.faults;
    }
  }

  lemma PreparesWell(s: State, now: nat, target: Identity)
    requires Saving(s.world)
    ensures var r, record := Prepared(s, now, target), Normalized(s.mem, target.control, now);
      && r.outcome == Done(record) && Proceeds(s, r.state)
      && r.state.mem == s.mem.(limits := s.mem.limits[target.control := record])
  {
    hide Persisted, Normalized, Saving;
    SavesWell(s, s.mem.(limits := s.mem.limits[target.control := Normalized(s.mem, target.control, now)]), false);
  }

  lemma ReservesWell(s: State, o: Order)
    requires Saving(s.world)
    ensures var r := Reserving(s, o);
      && r.outcome.Done? && Saving(r.state.world) && r.state.world == s.world.(faults := r.state.world.faults)
      && r.state.log == TakenOver(s.log, s.mem, o.request, o.baseline)
      && r.state.clock == s.clock && r.state.mem.own == Some(o.own) && r.state.issued == s.issued + 1
  {
    hide Persisted, TakenOver, Saving;
    var begun := s.(issued := s.issued + 1, log := TakenOver(s.log, s.mem, o.request, o.baseline));
    SavesWell(begun, begun.mem.(own := Some(o.own)), false);
    var t := OwnSaved(begun, Some(o.own)).state;
    SavesWell(t, t.mem.(limits := t.mem.limits[o.target.control := o.Reservation()]), true);
  }

  // ---------------------------------------------------------------- a command that nothing stops

  /** The last look before the service boundary: in time and in the window, not vetoed, the same control, and the gateway
      still shows, settled, the setting that the request saw. */
  ghost predicate LastLookAgrees(s: State, target: Identity, timing: Record, option: nat, seen: Setting, restore: bool,
                                 window: (nat, nat))
  {
    var m := s.Next(target);
    && m.target.Some? && m.target.value.control == target.control && AtMost(NextEligible(timing, option), m.now)
    && |s.world.looks| > 0 && Settled(s.world.looks[0], m.now).Seen?
    && !Settled(s.world.looks[0], m.now).read.pending && Settled(s.world.looks[0], m.now).read.setting == seen
    && (!restore ==> window.0 <= m.now < window.1 && !m.veto)
  }

  ghost predicate Leaves(w: World) { !w.Answer().TargetUnavailable? && !w.Answer().DiedBefore? }

  /** The order in memory, as it is reserved. */
  ghost predicate InHand(s: State, o: Order) {
    && s.mem.own == Some(o.own) && o.own.pending == Some(o.request) && o.own.baseline == Some(o.baseline) && s.issued > 0
    && (o.previous.Some? ==>
          o.previous.value.pending.None? && (o.previous.value.baseline.Some? ==> o.previous.value.baseline == o.own.baseline))
  }

  lemma InHandOrders(s: State, o: Order)
    requires InHand(s, o)
    ensures Orders(Probe(s, 0, Setting(o.baseline.watts, o.baseline.slew + 1)), s, o)
  {
    var q := Probe(s, 0, Setting(o.baseline.watts, o.baseline.slew + 1));
    Begins(s, 0, q.baseline);
    Parts(q, s);
  }

  ghost predicate Continued(a: seq<Event>, b: seq<Event>) { |a| <= |b| && b[..|a|] == a }

  lemma TracedContinues(q: Probe, t: State)
    requires Traced(q, t)
    ensures Continued(q.start.log, t.log)
  {}

  lemma FollowedContinues(s: State, o: Order, response: Response, now: nat)
    requires InHand(s, o)
    ensures Continued(s.log, Followed(s, o, response, now).state.log)
  {
    hide Followed, Traced, Orders;
    var q := Probe(s, 0, Setting(o.baseline.watts, o.baseline.slew + 1));
    InHandOrders(s, o);
    assert o.own.pending == Some(o.request) && Works(q, s, o.own) by { OrderWorks(q, s, o); }
    Follow(q, s, o, response, now);
    TracedContinues(q, Followed(s, o, response, now).state);
  }

  lemma OrderWorks(q: Probe, s: State, o: Order)
    requires Orders(q, s, o)
    ensures Works(q, s, o.own)
  {
    hide Traced;
  }

  /** A durable order is called when the last look agrees and the call can leave. */
  lemma SendsWell(s: State, o: Order, window: (nat, nat))
    requires InHand(s, o) && Leaves(s.world)
    requires LastLookAgrees(s, o.target, o.timing, o.option, o.request.seen.setting, o.request.restore, window)
    ensures var m := s.Next(o.target);
      var log := Ticked(s, m.now).log + [Observed(Settled(s.world.looks[0], m.now).read)];
      Continued(log + [Call(o.target.control, m.now, o.request, s.disk)], Sending(s, o, window).state.log)
  {
    hide NextEligible, Followed, Settled;
    var m := s.Next(o.target);
    var begun := Ticked(s.(world := s.world.AfterMoment()), m.now);
    var (t, latest) := Looked(begun, m.now, m.target);
    assert latest == Settled(s.world.looks[0], m.now) && t.log == Ticked(s, m.now).log + [Observed(latest.read)];
    assert Blocks(o, m, latest, window).None?;
    var (u, response) := Called(t, o.target.control, o.request, m.now);
    if Reached(response) { FollowedContinues(u, o, response, m.now); }
  }

  /** Exactly one call was added, and it is this one. */
  ghost predicate CallsOnce(before: seq<Event>, after: seq<Event>, control: string, watts: Option<int>, restore: bool,
                            slew: Option<int>)
  {
    && CallCount(after) == CallCount(before) + 1
    && exists k: nat | |before| <= k < |after| ::
         && after[k].Call? && after[k].control == control && after[k].request.watts == watts
         && after[k].request.restore == restore && after[k].request.slew == slew
  }

  lemma {:induction false} CountsUp(before: seq<Event>, after: seq<Event>, k: nat)
    requires Continued(before, after) && |before| <= k < |after| && after[k].Call?
    ensures CallCount(after) > CallCount(before)
  {
    var n := |after| - 1;
    assert after[..n][..|before|] == before;
    if k < n { CountsUp(before, after[..n], k); } else { CountGrows(before, after[..n]); }
  }

  lemma {:induction false} CountGrows(before: seq<Event>, after: seq<Event>)
    requires Continued(before, after)
    ensures CallCount(after) >= CallCount(before)
  {
    if |after| > |before| {
      var n := |after| - 1;
      assert after[..n][..|before|] == before;
      CountGrows(before, after[..n]);
    } else {
      assert before == after;
    }
  }

  /** When the wait is over, saves succeed, the last look agrees and the call can leave, exactly the ordered command is
      sent, and an orderly outcome reports it. */
  lemma DispatchSends(s: State, own: Ownership, baseline: Setting, watts: Option<int>, now: nat, read: Readback,
                      target: Identity, restore: bool, option: nat, window: (nat, nat))
    requires Inv(s) && Current(s, now) && FreshShown(s.log) == Some(read) && Saving(s.world) && Leaves(s.world)
    requires Fits(s, own, baseline, read, target, restore) && (restore ==> watts == baseline.watts)
    requires var timing := Normalized(s.mem, target.control, now);
      AtMost(NextEligible(timing, option), now) && LastLookAgrees(s, target, timing, option, read.setting, restore, window)
    ensures var r := Dispatched(s, own, baseline, watts, now, read, target, restore, option, window);
      && CallsOnce(s.log, r.state.log, target.control, watts, restore, if restore then Some(baseline.slew) else None)
      && (r.outcome.Done? ==> r.outcome.value.sent)
  {
    hide Inv, FreshShown, NextEligible, Normalized, Prepared, Reserving, Sending, LastLookAgrees, CallCount, Steady;
    var timing := Normalized(s.mem, target.control, now);
    PreparesWell(s, now, target);
    var t := Prepared(s, now, target).state;
    var o := OrderOf(t, own, baseline, watts, now, read, target, restore, option, timing);
    ReservesWell(t, o);
    var u := Reserving(t, o).state;
    LooksOn(s, u, target, timing, option, read.setting, restore, window);
    PreviousFits(s, t, o, own, baseline, read, target, restore);
    SendsWell(u, o, window);
    DispatchedKeeps(s, own, baseline, watts, now, read, target, restore, option, window);
    var r := Dispatched(s, own, baseline, watts, now, read, target, restore, option, window);
    assert r == Sending(u, o, window);
    CallIsAdded(s, u, o, watts, restore, r.state.log);
  }

  lemma PreviousFits(s: State, t: State, o: Order, own: Ownership, baseline: Setting, read: Readback, target: Identity,
                     restore: bool)
    requires Fits(s, own, baseline, read, target, restore) && t.mem.own == s.mem.own && o.previous == t.mem.own
    requires o.own == own.(baseline := Some(baseline), pending := Some(o.request))
    ensures o.previous.Some? ==>
      o.previous.value.pending.None? && (o.previous.value.baseline.Some? ==> o.previous.value.baseline == o.own.baseline)
  {}

  lemma LooksOn(s: State, u: State, target: Identity, timing: Record, option: nat, seen: Setting, restore: bool,
                window: (nat, nat))
    requires LastLookAgrees(s, target, timing, option, seen, restore, window) && Leaves(s.world)
    requires u.clock == s.clock && u.world == s.world.(faults := u.world.faults)
    ensures LastLookAgrees(u, target, timing, option, seen, restore, window) && Leaves(u.world)
    ensures |u.world.looks| > 0 && Settled(u.world.looks[0], u.Next(target).now).Seen?
  {
    hide NextEligible, Settled;
  }

  lemma CallIsAdded(s: State, u: State, o: Order, watts: Option<int>, restore: bool, after: seq<Event>)
    requires u.log == TakenOver(s.log, s.mem, o.request, o.baseline)
    requires |u.world.looks| > 0 && Settled(u.world.looks[0], u.Next(o.target).now).Seen?
    requires o.request.watts == watts && o.request.restore == restore
    requires var m := u.Next(o.target);
      Continued(Ticked(u, m.now).log + [Observed(Settled(u.world.looks[0], m.now).read)]
                + [Call(o.target.control, m.now, o.request, u.disk)], after)
    requires CallCount(s.log) <= CallCount(after) <= CallCount(s.log) + 1
    ensures CallsOnce(s.log, after, o.target.control, watts, restore, o.request.slew)
  {
    hide CallCount, Settled;
    var m := u.Next(o.target);
    var log := Ticked(u, m.now).log + [Observed(Settled(u.world.looks[0], m.now).read)];
    var e := Call(o.target.control, m.now, o.request, u.disk);
    var k := |log|;
    assert after[..k + 1] == log + [e];
    assert after[k] == after[..k + 1][k] == e;
    assert |s.log| <= |u.log| <= |Ticked(u, m.now).log| && u.log[..|s.log|] == s.log;
    assert Ticked(u, m.now).log[..|u.log|] == u.log;
    assert after[..|s.log|] == after[..k + 1][..|s.log|] == log[..|s.log|] == s.log;
    CountsUp(s.log, after, k);
  }

  // ---------------------------------------------------------------- the operations

  /** What a change dispatches once a usable look has shown other watts than those asked for. */
  lemma ExecutedDispatches(s: State, watts: Option<int>, now: nat, target: Identity, option: nat, window: (nat, nat))
    requires var r := Reconciled(s, now, Some(target));
      && r.outcome == Done(None) && (r.state.mem.own.Some? ==> !r.state.mem.own.value.restoring)
      && |r.state.world.looks| > 0 && Settled(r.state.world.looks[0], now).Seen?
      && var read := Settled(r.state.world.looks[0], now).read; !read.pending && read.setting.watts != watts
    ensures var (u, feedback) := Looked(Reconciled(s, now, Some(target)).state, now, Some(target));
      && feedback.Seen?
      && var own := if u.mem.own.Some? then u.mem.own.value else Ownership(target, None, None, None, None, false);
         var baseline := if own.baseline.Some? then own.baseline.value else feedback.read.setting;
         Executed(s, watts, now, Some(target), option, window)
         == Dispatched(u, own, baseline, watts, now, feedback.read, target, false, option, window)
  {
    hide Reconciled, Dispatched, Settled;
  }

  /** A change is sent: reconciliation left the control clear, it is not being restored, the gateway shows other watts than
      those asked for, and nothing stops the dispatch. */
  lemma ExecutionSends(s: State, watts: Option<int>, now: nat, target: Identity, option: nat, window: (nat, nat))
    requires Inv(s)
    requires var r := Reconciled(s, now, Some(target));
      var t := r.state.(world := r.state.world.AfterLook());
      && r.outcome == Done(None) && (r.state.mem.own.Some? ==> !r.state.mem.own.value.restoring)
      && |r.state.world.looks| > 0 && Settled(r.state.world.looks[0], now).Seen?
      && var read := Settled(r.state.world.looks[0], now).read;
         var timing := Normalized(r.state.mem, target.control, now);
         && !read.pending && read.setting.watts != watts
         && AtMost(NextEligible(timing, option), now) && Saving(t.world) && Leaves(t.world)
         && LastLookAgrees(t, target, timing, option, read.setting, false, window)
    ensures var r := Executed(s, watts, now, Some(target), option, window);
      && CallsOnce(Reconciled(s, now, Some(target)).state.log, r.state.log, target.control, watts, false, None)
      && CallCount(r.state.log) == CallCount(s.log) + 1
      && (r.outcome.Done? ==> r.outcome.value.sent)
  {
    hide Inv, FreshShown, NextEligible, Normalized, Reconciled, Dispatched, LastLookAgrees, CallCount, Steady, Settled, Saving;
    hide EndedOnMatch, Accounts, Executed;
    ReconciledKeeps(s, now, Some(target));
    ExecutedDispatches(s, watts, now, target, option, window);
    var t := Reconciled(s, now, Some(target)).state;
    LookKeeps(t, now, Some(target));
    var (u, feedback) := Looked(t, now, Some(target));
    var read := feedback.read;
    var own := if u.mem.own.Some? then u.mem.own.value else Ownership(target, None, None, None, None, false);
    var baseline := if own.baseline.Some? then own.baseline.value else read.setting;
    StillCurrent(t, u, now);
    LooksOn(t.(world := t.world.AfterLook()), u, target, Normalized(t.mem, target.control, now), option, read.setting, false,
            window);
    assert Fits(u, own, baseline, read, target, false);
    DispatchSends(u, own, baseline, watts, now, read, target, false, option, window);
    Shorten(t.log, u.log, Executed(s, watts, now, Some(target), option, window).state.log, target.control, watts, false, None);
  }

  lemma Shorten(a: seq<Event>, b: seq<Event>, after: seq<Event>, control: string, watts: Option<int>, restore: bool,
                slew: Option<int>)
    requires |a| <= |b| && CallCount(a) == CallCount(b) && CallsOnce(b, after, control, watts, restore, slew)
    ensures CallsOnce(a, after, control, watts, restore, slew)
  {
    hide CallCount;
  }

  /** The state in which a restoration reconciles. */
  function Restoring(s: State, own: Ownership): State { OwnSaved(s, Some(own.(restoring := true))).state }

  /** A restoration is sent: the control is clear after reconciliation and still holds its baseline, the gateway shows
      another setting, and nothing stops the dispatch. The command is the baseline, slew rate included. */
  lemma RestorationSends(s: State, own: Ownership, b: Setting, now: nat, target: Identity, option: nat)
    requires Inv(s) && s.mem.own == Some(own) && own.baseline == Some(b) && Saving(s.world)
    requires var r := Reconciled(Restoring(s, own), now, Some(target));
      var t := r.state.(world := r.state.world.AfterLook());
      && r.outcome == Done(None) && Baseline(r.state.mem) == Some(b)
      && |r.state.world.looks| > 0 && Settled(r.state.world.looks[0], now).Seen?
      && var read := Settled(r.state.world.looks[0], now).read;
         var timing := Normalized(r.state.mem, target.control, now);
         && read.setting != b && AtMost(NextEligible(timing, option), now) && Saving(t.world) && Leaves(t.world)
         && LastLookAgrees(t, target, timing, option, read.setting, true, (now, now + READBACK_MAX_AGE))
    ensures var r := Restoration(s, now, Some(target), option);
      && CallsOnce(Reconciled(Restoring(s, own), now, Some(target)).state.log, r.state.log, target.control, b.watts, true,
                   Some(b.slew))
      && CallCount(r.state.log) == CallCount(s.log) + 1
      && (r.outcome.Done? ==> r.outcome.value.sent)
  {
    hide Inv, FreshShown, NextEligible, Normalized, Reconciled, GivenBack, LastLookAgrees, CallCount, Steady, Settled, Saving;
    hide EndedOnMatch, EndedByOther, Persisted;
    var holding := own.(restoring := true);
    Cosmetic(s, holding);
    PersistKeeps(s, s.mem.(own := Some(holding)), false);
    SavesWell(s, s.mem.(own := Some(holding)), false);
    var begun := Restoring(s, own);
    ReconciledKeeps(begun, now, Some(target));
    var t := Reconciled(begun, now, Some(target)).state;
    BackSends(t, t.mem.own.value, b, now, target, option);
    BackIsReported(s, own, b, now, target, option);
  }

  lemma BackIsReported(s: State, own: Ownership, b: Setting, now: nat, target: Identity, option: nat)
    requires s.mem.own == Some(own) && own.baseline == Some(b) && Saving(s.world)
    requires var r := Reconciled(Restoring(s, own), now, Some(target));
      r.outcome == Done(None) && Baseline(r.state.mem) == Some(b)
    ensures var t := Reconciled(Restoring(s, own), now, Some(target)).state;
      Restoration(s, now, Some(target), option) == GivenBack(t, t.mem.own.value, b, now, Some(target), option)
  {
    hide Reconciled, GivenBack, Persisted;
    SavesWell(s, s.mem.(own := Some(own.(restoring := true))), false);
  }

  lemma BackSends(s: State, own: Ownership, b: Setting, now: nat, target: Identity, option: nat)
    requires Inv(s) && Current(s, now) && s.mem.own == Some(own) && own.baseline == Some(b) && own.restoring
    requires Clear(s, target) && |s.world.looks| > 0 && Settled(s.world.looks[0], now).Seen?
    requires var t := s.(world := s.world.AfterLook());
      var read := Settled(s.world.looks[0], now).read;
      var timing := Normalized(s.mem, target.control, now);
      && read.setting != b && AtMost(NextEligible(timing, option), now) && Saving(t.world) && Leaves(t.world)
      && LastLookAgrees(t, target, timing, option, read.setting, true, (now, now + READBACK_MAX_AGE))
    ensures var r := GivenBack(s, own, b, now, Some(target), option);
      && CallsOnce(s.log, r.state.log, target.control, b.watts, true, Some(b.slew))
      && (r.outcome.Done? ==> r.outcome.value.sent)
  {
    hide Inv, FreshShown, NextEligible, Normalized, Dispatched, LastLookAgrees, CallCount, Steady, Settled, Saving;
    LookKeeps(s, now, Some(target));
    var (u, feedback) := Looked(s, now, Some(target));
    var read := feedback.read;
    StillCurrent(s, u, now);
    LooksOn(s.(world := s.world.AfterLook()), u, target, Normalized(s.mem, target.control, now), option, read.setting, true,
            (now, now + READBACK_MAX_AGE));
    assert Fits(u, own, b, read, target, true);
    DispatchSends(u, own, b, b.watts, now, read, target, true, option, (now, now + READBACK_MAX_AGE));
    Shorten(s.log, u.log, GivenBack(s, own, b, now, Some(target), option).state.log, target.control, b.watts, true,
            Some(b.slew));
  }

  /** A restoration ends ownership when the control is clear after reconciliation and the gateway shows the baseline. */
  lemma RestorationEnds(s: State, own: Ownership, b: Setting, now: nat, target: Identity, option: nat)
    requires s.mem.own == Some(own) && own.baseline == Some(b) && Saving(s.world)
    requires var r := Reconciled(Restoring(s, own), now, Some(target));
      && r.outcome == Done(None) && Baseline(r.state.mem) == Some(b) && Saving(r.state.world)
      && |r.state.world.looks| > 0 && Settled(r.state.world.looks[0], now).Seen?
      && Settled(r.state.world.looks[0], now).read.setting == b
    ensures var r := Restoration(s, now, Some(target), option);
      r.outcome == Done(Result(Restored, Some(BaselineRestored), false)) && r.state.mem.own.None?
  {
    hide Reconciled, Settled, Persisted, Dispatched;
    BackIsReported(s, own, b, now, target, option);
    var t := Reconciled(Restoring(s, own), now, Some(target)).state;
    var (u, feedback) := Looked(t, now, Some(target));
    SavesWell(u.With(Dropped(b, Matched(feedback.read))), u.mem.(own := None), false);
  }

  /** An idle control that owns a baseline, in an obliging environment that shows another setting: the restoration is
      sent, with the baseline as its command. */
  lemma IdleRestorationSends(s: State, own: Ownership, b: Setting, shown: Setting)
    requires Inv(s) && s.mem.own == Some(own) && own.baseline == Some(b) && own.pending.None? && own.pause.None?
    requires own.identity.control in s.mem.limits && WellFormed(s.mem.limits[own.identity.control], s.clock)
    requires shown != b
    ensures var now, known := MuchLater(s.clock), if own.expected.Some? then own.expected.value else b;
      var looks := [Readback(known, false, now), Readback(shown, false, now), Readback(shown, false, now)];
      var r := Restoration(s.(world := Showing(looks)), now, Some(own.identity), 0);
      && CallsOnce(s.log + [Observed(looks[0])], r.state.log, own.identity.control, b.watts, true, Some(b.slew))
      && (r.outcome.Done? ==> r.outcome.value.sent)
  {
    hide Inv, Normalized, NextEligible, Reconciled, Restoration, CallsOnce, WellFormed, CallCount, Persisted;
    var now, control := MuchLater(s.clock), own.identity.control;
    var known := if own.expected.Some? then own.expected.value else b;
    var looks := [Readback(known, false, now), Readback(shown, false, now), Readback(shown, false, now)];
    var begun, holding := s.(world := Showing(looks)), own.(restoring := true);
    Unanswered(s, begun);
    SavesNow(begun, begun.mem.(own := Some(holding)), false);
    var t := Restoring(begun, own);
    LaterIsEligible(s.mem, control, s.clock);
    var record := Normalized(t.mem, control, now);
    assert record == Normalized(s.mem, control, now) by { SameTiming(s.mem, t.mem, control, now); }
    ReconcilesIdle(t, holding, now, looks[0], record);
    var u := Reconciled(t, now, Some(own.identity)).state;
    NormalizationSettles(s.mem, control, now, now);
    assert Normalized(u.mem, control, now) == record by { RecordStays(s.mem, u.mem, control, now); }
    AgreesLast(u, own.identity, record, now, shown, looks[1]);
    RestorationSends(begun, own, b, now, own.identity, 0);
  }

  lemma SameTiming(d: Data, e: Data, control: string, now: nat)
    requires d.limits == e.limits && control in d.limits
    ensures Normalized(d, control, now) == Normalized(e, control, now)
  {}

  lemma RecordStays(d: Data, e: Data, control: string, now: nat)
    requires control in d.limits && WellFormed(Normalized(d, control, now), now)
    requires e.limits == d.limits[control := Normalized(d, control, now)]
    requires Normalized(d, control, now).checkedAt == now
    ensures Normalized(e, control, now) == Normalized(d, control, now)
  {}

  lemma AgreesLast(u: State, target: Identity, record: Record, now: nat, shown: Setting, read: Readback)
    requires |u.world.looks| == 2 && u.world.looks[0] == u.world.looks[1] == Look(Some(read), false)
    requires read == Readback(shown, false, now) && u.world.moments == [] && u.clock == now
    requires AtMost(NextEligible(record, 0), now)
    ensures Settled(u.world.looks[0], now) == Seen(read)
    ensures LastLookAgrees(u.(world := u.world.AfterLook()), target, record, 0, shown, true, (now, now + READBACK_MAX_AGE))
  {
    hide NextEligible;
  }
}
