/** Reconciliation keeps the invariant of store and history, and what it reports is so. */
module ExportKeeps {
  import opened Common
  import opened ExportLog
  import opened ExportState
  import opened ExportTiming
  import opened ExportSteps

  /** On a steady clock, `now` is the latest instant seen. */
  ghost predicate Current(s: State, now: nat) { s.clock >= now && (Steady(s.log) ==> s.clock == now) }

  /** Nothing but the store, and what the environment still has to answer, has changed. */
  ghost predicate Calm(s: State, t: State) { t.log == s.log && t.issued == s.issued && t.clock == s.clock }

  /** Nothing was called or issued, and time stands still. */
  ghost predicate Uncalled(s: State, t: State) {
    && CallCount(t.log) == CallCount(s.log) && t.issued == s.issued && t.clock == s.clock
    && (Steady(t.log) <==> Steady(s.log))
  }

  // ---------------------------------------------------------------- the store and the gateway

  lemma TickKeeps(s: State, now: nat)
    requires Inv(s)
    ensures var t := Ticked(s, now);
      && Inv(t) && Current(t, now) && t.clock == Later(Some(s.clock), now).value
      && CallCount(t.log) == CallCount(s.log) && FreshShown(t.log) == FreshShown(s.log)
      && Outstanding(t.log) == Outstanding(s.log) && Booked(t.log) == Booked(s.log)
      && BaselineAfter(t.log) == BaselineAfter(s.log) && (Steady(t.log) ==> Steady(s.log))
      && (forall k :: CallTime(t.log, k) == CallTime(s.log, k)) && (forall k :: LastCall(t.log, k) == LastCall(s.log, k))
  {
    hide Inv, CallTime, LastCall;
    ClockMoves(s, now);
    Appended(s.log, ClockBack);
    QuietTimes(s.log, ClockBack);
  }

  lemma RestartKeeps(s: State)
    requires Inv(s)
    ensures var t := Restarted(s);
      && Inv(t) && CallCount(t.log) == CallCount(s.log) && (Steady(t.log) <==> Steady(s.log))
      && Outstanding(t.log) == Outstanding(s.log)
  {
    hide Inv;
    Crashes(s);
    Appended(s.log, Crash(s.disk));
  }

  lemma PersistKeeps(s: State, d: Data, flush: bool)
    requires Inv(s.(mem := d))
    ensures var r := Persisted(s, d, flush);
      && Inv(r.state) && Uncalled(s, r.state)
      && (!r.outcome.Died? ==> Calm(s, r.state) && r.state.mem == d)
      && (r.outcome.Done? && flush ==> r.state.disk == d)
      && (r.outcome.Died? ==> r.state.log == s.log + [Crash(r.state.disk)] && r.state.mem == r.state.disk)
  {
    hide DataInv, TicketsBy, GoodLog, BaselineAfter, ExpectedAfter, Durable, Closed;
    var fate := if flush && s.world.Fate().Delayed? then Written else s.world.Fate();
    var reached := fate.Written? || fate.FailedWritten? || fate.DiedWritten?;
    var t := s.(mem := d, disk := if reached then d else s.disk, world := s.world.AfterSave());
    assert Inv(t);
    RestartKeeps(t);
  }

  lemma LookKeeps(s: State, now: nat, target: Option<Identity>)
    requires Inv(s)
    ensures var (t, f) := Looked(s, now, target);
      && Inv(t) && t.mem == s.mem && t.disk == s.disk && Uncalled(s, t)
      && Outstanding(t.log) == Outstanding(s.log) && Booked(t.log) == Booked(s.log)
      && BaselineAfter(t.log) == BaselineAfter(s.log)
      && (forall k :: CallTime(t.log, k) == CallTime(s.log, k)) && (forall k :: LastCall(t.log, k) == LastCall(s.log, k))
      && (f.Seen? ==> f.read.at <= now <= f.read.at + READBACK_MAX_AGE
                      && t.log == s.log + [Observed(f.read)] && FreshShown(t.log) == Some(f.read))
      && (f.Unusable? ==> t.log == s.log)
  {
    hide DataInv, TicketsBy, GoodLog, CallTime, LastCall, Closed, Durable;
    if target.Some? {
      var t, f := s.(world := s.world.AfterLook()), Settled(s.world.Glimpse(), now);
      assert Inv(t);
      if f.Seen? {
        var e := Observed(f.read);
        Notes(t, e);
        QuietTimes(s.log, e);
        Appended(s.log, e);
      }
    }
  }

  lemma PreparedKeeps(s: State, now: nat, target: Identity)
    requires Inv(s) && Current(s, now)
    ensures var r := Prepared(s, now, target);
      && Inv(r.state) && Uncalled(s, r.state)
      && (!r.outcome.Died? ==> Calm(s, r.state) && r.state.mem.own == s.mem.own)
      && (r.outcome.Done? ==>
            r.outcome.value == Normalized(s.mem, target.control, now)
            && r.state.mem == s.mem.(limits := s.mem.limits[target.control := r.outcome.value]))
  {
    hide DataInv, TicketsBy, GoodLog, Normalized, Persisted, CallCount;
    var record := Normalized(s.mem, target.control, now);
    PreparedFits(s, now, target.control);
    PersistKeeps(s, s.mem.(limits := s.mem.limits[target.control := record]), false);
  }

  lemma PreparedFits(s: State, now: nat, control: string)
    requires Inv(s) && Current(s, now)
    ensures Inv(s.(mem := s.mem.(limits := s.mem.limits[control := Normalized(s.mem, control, now)])))
  {
    hide TicketsBy, GoodLog, OwnOk, Timely, Normalized;
    if Steady(s.log) {
      NormalizedTimely(s.mem, control, s.log, s.issued, s.clock);
    } else {
      LimitsRewritten(s.mem, control, Normalized(s.mem, control, now), s.log, s.issued, s.clock);
    }
    LimitsKeep(s, s.mem.(limits := s.mem.limits[control := Normalized(s.mem, control, now)]));
  }

  /** Timing is no part of what the history tracks. */
  lemma LimitsKeep(s: State, next: Data)
    requires Inv(s) && next.own == s.mem.own && DataInv(next, s.log, s.issued, s.clock)
    ensures Inv(s.(mem := next))
  {
    hide DataInv, TicketsBy, GoodLog;
  }

  // ---------------------------------------------------------------- waits

  /** The pending request, if it was the control's last call, has left a stamp that holds the control back. */
  lemma StampAnswers(d: Data, log: seq<Event>, stamp: Option<nat>)
    requires GoodLog(log) && d.own.Some? && PendingOf(d).Some? && d.own.value.identity.control in d.limits
    requires var record := d.limits[d.own.value.identity.control]; stamp == record.confirmedAt || stamp == record.settledAt
    requires StampedFor(stamp, Some(PendingOf(d).value.sentAt), d, d.own.value.identity.control, log)
    ensures Answered(d, log)
  {
    hide CallTime, LastCall, GoodLog;
    var k := d.own.value.identity.control;
    if LastCall(log, k).Some? { LastCallHasTime(log, k); }
  }

  lemma NeverCalledAnswers(d: Data, log: seq<Event>)
    requires GoodLog(log) && PendingOf(d).Some? && CallTime(log, PendingOf(d).value.ticket).None?
    ensures Answered(d, log)
  {
    hide CallTime, LastCall, GoodLog;
    var k := d.own.value.identity.control;
    if LastCall(log, k).Some? { LastCallHasTime(log, k); }
  }

  /** A stamp of the present on behalf of the request sent at `sentAt`. */
  ghost predicate IsStamp(record: Record, stamped: Record, now: nat, sentAt: nat) {
    || stamped == record.(settledAt := Some(now), settlementFor := Some(sentAt))
    || stamped == record.(confirmedAt := Some(now), confirmationFor := Some(sentAt))
  }

  /** Stamping the pending request's control with the present keeps every promise. */
  lemma StampFits(s: State, now: nat, stamped: Record)
    requires Inv(s) && Current(s, now) && PendingOf(s.mem).Some? && s.mem.own.value.identity.control in s.mem.limits
    requires IsStamp(s.mem.limits[s.mem.own.value.identity.control], stamped, now, PendingOf(s.mem).value.sentAt)
    ensures Inv(s.(mem := s.mem.(limits := s.mem.limits[s.mem.own.value.identity.control := stamped])))
  {
    hide GoodLog, OwnOk, CallTime, LastCall, Outstanding, Tracked, TicketReserved, Closed;
    var d, k := s.mem, s.mem.own.value.identity.control;
    var n := d.(limits := d.limits[k := stamped]);
    if Steady(s.log) {
      assert RecordTimely(d, k, s.log, s.clock) && ControlHeld(d, k, s.log);
      assert PendingTimely(PendingOf(d).value, s.log, s.clock);
      assert RecordTimely(n, k, s.log, s.clock);
      assert ControlHeld(n, k, s.log);
    }
    LimitsRewritten(d, k, stamped, s.log, s.issued, s.clock);
    LimitsKeep(s, n);
  }

  /** With either stamp in place the request is answered for. */
  lemma StampHolds(s: State, p: Request)
    requires Inv(s) && PendingOf(s.mem) == Some(p) && s.mem.own.value.identity.control in s.mem.limits && Steady(s.log)
    requires var record := s.mem.limits[s.mem.own.value.identity.control];
      record.settlementFor == Some(p.sentAt) || record.confirmationFor == Some(p.sentAt)
    ensures Answered(s.mem, s.log)
  {
    hide TicketsBy, OwnOk, CallTime, LastCall, Outstanding, Answered, Tracked;
    var k := s.mem.own.value.identity.control;
    assert RecordTimely(s.mem, k, s.log, s.clock);
    var record := s.mem.limits[k];
    if record.settlementFor == Some(p.sentAt) {
      StampAnswers(s.mem, s.log, record.settledAt);
    } else {
      StampAnswers(s.mem, s.log, record.confirmedAt);
    }
  }

  lemma SettledKeeps(s: State, p: Request, now: nat, target: Identity)
    requires Inv(s) && Current(s, now) && PendingOf(s.mem) == Some(p) && s.mem.own.value.identity.control == target.control
    ensures var r := SettledExternally(s, p, now, target);
      && Inv(r.state) && Uncalled(s, r.state)
      && (!r.outcome.Died? ==> Calm(s, r.state) && r.state.mem.own == s.mem.own)
      && (r.outcome.Done? ==>
            && (Steady(s.log) ==> Answered(r.state.mem, s.log))
            && target.control in r.state.mem.limits && r.state.mem.limits[target.control].settlementFor == Some(p.sentAt))
  {
    hide Inv, Normalized, Persisted, Answered, CallCount;
    PreparedKeeps(s, now, target);
    var prepared := Prepared(s, now, target);
    if prepared.outcome.Done? {
      var t, record := prepared.state, prepared.outcome.value;
      var stamped := record.(settledAt := Some(now), settlementFor := Some(p.sentAt));
      if record.settlementFor != Some(p.sentAt) {
        StampFits(t, now, stamped);
        PersistKeeps(t, t.mem.(limits := t.mem.limits[target.control := stamped]), true);
      }
      var r := SettledExternally(s, p, now, target);
      if r.outcome.Done? && Steady(s.log) { StampHolds(r.state, p); }
    }
  }

  lemma StampedKeeps(s: State, p: Request, now: nat, target: Identity)
    requires Inv(s) && Current(s, now) && PendingOf(s.mem) == Some(p) && s.mem.own.value.identity.control == target.control
    ensures var r := Stamped(s, p, now, target);
      && Inv(r.state) && Uncalled(s, r.state)
      && (!r.outcome.Died? ==> Calm(s, r.state) && r.state.mem.own == s.mem.own)
      && (r.outcome.Done? ==>
            var record := Normalized(s.mem, target.control, now);
            && (Steady(s.log) ==> Answered(r.state.mem, s.log))
            && r.state.mem.limits == s.mem.limits[target.control :=
                 if record.confirmationFor == Some(p.sentAt) then record
                 else record.(confirmedAt := Some(now), confirmationFor := Some(p.sentAt))])
  {
    hide Inv, Normalized, Persisted, Answered, CallCount;
    PreparedKeeps(s, now, target);
    var prepared := Prepared(s, now, target);
    if prepared.outcome.Done? {
      var t, record := prepared.state, prepared.outcome.value;
      var stamped := record.(confirmedAt := Some(now), confirmationFor := Some(p.sentAt));
      if record.confirmationFor != Some(p.sentAt) {
        StampFits(t, now, stamped);
        PersistKeeps(t, t.mem.(limits := t.mem.limits[target.control := stamped]), true);
      }
      var r := Stamped(s, p, now, target);
      if r.outcome.Done? && Steady(s.log) { StampHolds(r.state, p); }
    }
  }

  // ---------------------------------------------------------------- forgetting a request

  ghost predicate AnsweredFor(s: State) { Steady(s.log) && PendingOf(s.mem).Some? ==> Answered(s.mem, s.log) }

  /** A justified resolution of the pending request, with memory forgetting it in the same step. */
  lemma Closes(s: State, e: Event, p: Request, own: Ownership)
    requires Inv(s) && Justified(s.log, e) && PendingOf(s.mem) == Some(p) && Resolves(e, p.ticket) && AnsweredFor(s)
    requires own.pending.None? && own.baseline == Baseline(s.mem) && own.pause != Some(ExternalConflict)
    requires own.expected.Some? ==>
      ExpectedAfter(s.log + [e]) == own.expected && ShownEver(s.log + [e], own.expected.value)
    ensures Inv(s.With(e).(mem := s.mem.(own := Some(own)))) && Outstanding(s.log + [e]) == {}
  {
    hide GoodLog, TicketsBy, Justified, Timely, Answered, AcquiredEver, ShownEver, ReservedAs, WellMade, Closed;
    hide Durable;
    var next := s.mem.(own := Some(own));
    Appended(s.log, e);
    QuietEvent(s.mem, s.log, e, s.issued, s.clock);
    assert Outstanding(s.log + [e]) == {};
    if Steady(s.log) { AnsweredStays(s.mem, s.log, e); }
    OwnRewritten(s.mem, Some(own), s.log + [e], s.issued, s.clock);
    Moves(s, e, next);
  }

  /** The end of ownership of the baseline, once nothing is pending. */
  lemma Drops(s: State, why: Why, own: Option<Ownership>)
    requires Inv(s) && PendingOf(s.mem).None? && Baseline(s.mem).Some?
    requires Justified(s.log, Dropped(Baseline(s.mem).value, why))
    requires own.Some? ==> own.value.pending.None? && own.value.baseline.None? && own.value.expected.None?
    ensures Inv(s.With(Dropped(Baseline(s.mem).value, why)).(mem := s.mem.(own := own)))
  {
    hide GoodLog, TicketsBy, Justified, Timely, AcquiredEver, ShownEver, Closed, Durable;
    var e := Dropped(Baseline(s.mem).value, why);
    Appended(s.log, e);
    QuietEvent(s.mem, s.log, e, s.issued, s.clock);
    assert Outstanding(s.log + [e]) == Outstanding(s.log) == {};
    OwnRewritten(s.mem, own, s.log + [e], s.issued, s.clock);
    Moves(s, e, s.mem.(own := own));
  }

  /** From now on the setting just shown is expected. */
  lemma Expects(s: State, read: Readback, own: Ownership)
    requires Inv(s) && PendingOf(s.mem).None? && FreshShown(s.log) == Some(read)
    requires own.pending.None? && own.baseline == Baseline(s.mem) && own.expected == Some(read.setting)
    requires Baseline(s.mem).Some? ==> own.pause != Some(ExternalConflict)
    ensures Inv(s.With(Watched(read.setting)).(mem := s.mem.(own := Some(own))))
  {
    hide GoodLog, TicketsBy, Timely, AcquiredEver, ShownEver, Closed, Durable, CallTime, LastCall;
    var e := Watched(read.setting);
    Appended(s.log, e);
    assert Outstanding(s.log) == {};
    QuietEvent(s.mem, s.log, e, s.issued, s.clock);
    assert s.log[..|s.log|] == s.log && (s.log + [e])[..|s.log|] == s.log;
    FreshIsShown(s.log, |s.log|);
    ShownGrows(s.log + [e], |s.log|, read.setting);
    OwnRewritten(s.mem, Some(own), s.log + [e], s.issued, s.clock);
    Moves(s, e, s.mem.(own := Some(own)));
  }

  /** Ownership is rewritten without touching request, baseline, expectation and control. */
  lemma Cosmetic(s: State, own: Ownership)
    requires Inv(s) && s.mem.own.Some? && own.pending == s.mem.own.value.pending && own.baseline == s.mem.own.value.baseline
    requires own.expected == s.mem.own.value.expected && own.identity.control == s.mem.own.value.identity.control
    requires own.pause == s.mem.own.value.pause || own.pause != Some(ExternalConflict)
    requires s.mem.own.value.restoring ==> own.restoring
    ensures Inv(s.(mem := s.mem.(own := Some(own))))
  {
    hide GoodLog, TicketsBy, CallTime, LastCall, Outstanding, AcquiredEver, ReservedAs, ShownEver, WellMade, Closed;
    OwnRewritten(s.mem, Some(own), s.log, s.issued, s.clock);
    OwnMoves(s, s.mem.(own := Some(own)));
  }

  // ---------------------------------------------------------------- giving up to another writer

  /** The setting that the new one is measured against. */
  ghost predicate Refers(own: Ownership, read: Readback, reference: Setting) {
    own.baseline.Some? ==>
      && read.setting != reference
      && if own.pending.Some? then reference == own.pending.value.seen.setting else own.expected == Some(reference)
  }

  /** The overtaken request is superseded; nothing is outstanding any more. */
  lemma Overtakes(s: State, own: Ownership, read: Readback)
    requires Inv(s) && s.mem.own == Some(own) && FreshShown(s.log) == Some(read) && AnsweredFor(s)
    requires own.pending.Some? ==> OvertakeJustified(s.log, own.pending.value, read)
    ensures var log := Overtaken(s.log, own, read);
      && Inv(s.(mem := s.mem.(own := Some(own.(pending := None))), log := log))
      && Outstanding(log) == {} && FreshShown(log) == Some(read) && CallCount(log) == CallCount(s.log)
      && ExpectedAfter(log) == ExpectedAfter(s.log) && (Steady(log) <==> Steady(s.log))
  {
    hide GoodLog, TicketsBy, Timely, AnsweredFor, OvertakeJustified, CallTime, LastCall, Closed, Durable;
    hide AcquiredEver, ShownEver;
    if own.pending.Some? {
      var e := Superseded(own.pending.value, read);
      Appended(s.log, e);
      if own.expected.Some? {
        assert (s.log + [e])[..|s.log|] == s.log;
        ShownGrows(s.log + [e], |s.log|, own.expected.value);
      }
      Closes(s, e, own.pending.value, own.(pending := None));
    } else {
      assert s.mem.(own := Some(own.(pending := None))) == s.mem;
    }
  }

  lemma Abandons(s: State, own: Ownership, read: Readback, target: Identity, reference: Setting)
    requires Inv(s) && s.mem.own == Some(own) && FreshShown(s.log) == Some(read) && AnsweredFor(s)
    requires own.pending.Some? ==> OvertakeJustified(s.log, own.pending.value, read)
    requires Refers(own, read, reference)
    ensures var log := Abandoned(s.log, own, read, reference);
      && Inv(s.(mem := s.mem.(own := Some(Adopted(own, target, read.setting))), log := log))
      && CallCount(log) == CallCount(s.log) && (Steady(log) <==> Steady(s.log)) && FreshShown(log) == Some(read)
  {
    hide Inv, AnsweredFor, OvertakeJustified, Outstanding, CallCount, Steady, FreshShown, IsReference;
    hide ExpectedAfter, Booked;
    hide BaselineAfter, Overtaken;
    Overtakes(s, own, read);
    var first := s.(mem := s.mem.(own := Some(own.(pending := None))), log := Overtaken(s.log, own, read));
    var adopted := Adopted(own, target, read.setting);
    if own.baseline.Some? {
      var why := External(read, reference);
      var e := Dropped(own.baseline.value, why);
      var second := first.With(e).(mem := s.mem.(own := Some(adopted.(expected := None))));
      Referred(s, own, read, reference);
      BaselineIs(first);
      Drops(first, why, Some(adopted.(expected := None)));
      Appended(first.log, e);
      Expects(second, read, adopted);
      Appended(second.log, Watched(read.setting));
      assert Abandoned(s.log, own, read, reference) == second.log + [Watched(read.setting)];
    } else {
      Expects(first, read, adopted);
      Appended(first.log, Watched(read.setting));
      assert Abandoned(s.log, own, read, reference) == first.log + [Watched(read.setting)];
    }
  }

  lemma BaselineIs(s: State)
    requires Inv(s)
    ensures BaselineAfter(s.log) == Baseline(s.mem)
  {
    hide DataInv, TicketsBy, GoodLog;
  }

  lemma Referred(s: State, own: Ownership, read: Readback, reference: Setting)
    requires Inv(s) && s.mem.own == Some(own) && own.baseline.Some? && Refers(own, read, reference)
    ensures IsReference(Overtaken(s.log, own, read), reference)
  {
    hide DataInv, TicketsBy, GoodLog;
    if own.pending.Some? { Appended(s.log, Superseded(own.pending.value, read)); }
  }

  /** The baseline was given up because another setting was shown. */
  ghost predicate EndedByOther(log: seq<Event>, held: Option<Setting>) {
    && |log| >= 2 && log[|log| - 2].Dropped? && log[|log| - 2].why.External? && held == Some(log[|log| - 2].baseline)
    && log[|log| - 1] == Watched(log[|log| - 2].why.read.setting)
    && FreshShown(log) == Some(log[|log| - 2].why.read)
  }

  /** The last thing that happened ended ownership on the gateway's latest reading, equal to the baseline `held`. */
  ghost predicate EndedOnMatch(log: seq<Event>, held: Option<Setting>) {
    && |log| > 0 && log[|log| - 1].Dropped? && log[|log| - 1].why.Matched?
    && FreshShown(log) == Some(log[|log| - 1].why.read)
    && held == Some(log[|log| - 1].baseline) && log[|log| - 1].why.read.setting == log[|log| - 1].baseline
  }

  /** Giving up: the request is superseded, never confirmed, its safety wait has been started, the new setting is
      expected and only an unrelated pause survives. */
  lemma GivenUpKeeps(s: State, own: Ownership, read: Readback, now: nat, target: Identity, reference: Setting)
    requires Inv(s) && Current(s, now) && s.mem.own == Some(own) && own.identity.control == target.control
    requires FreshShown(s.log) == Some(read) && Refers(own, read, reference)
    requires own.pending.Some? ==> OvertakeJustified(s.log, own.pending.value, read)
    requires own.pending.Some? && own.pending.value.notBefore.None? ==> CallTime(s.log, own.pending.value.ticket).None?
    ensures var r := GivenUp(s, own, read, now, target, reference);
      && Inv(r.state) && Uncalled(s, r.state)
      && (r.outcome.Done? ==>
            && r.state.mem.own == Some(Adopted(own, target, read.setting))
            && r.state.log == Abandoned(s.log, own, read, reference)
            && (own.baseline.Some? ==> EndedByOther(r.state.log, own.baseline))
            && (own.pending.Some? && own.pending.value.notBefore.Some? ==>
                  target.control in r.state.mem.limits
                  && r.state.mem.limits[target.control].settlementFor == Some(own.pending.value.sentAt))
            && ((own.pending.Some? ==> own.pending.value.notBefore.None?) ==>
                  r.state.mem.limits == s.mem.limits))
  {
    hide Inv, Persisted, OvertakeJustified, Answered, CallCount, FreshShown, SettledExternally;
    var waited := if own.pending.Some? && own.pending.value.notBefore.Some?
                  then SettledExternally(s, own.pending.value, now, target) else After(s, Done(()));
    if own.pending.Some? && own.pending.value.notBefore.Some? {
      SettledKeeps(s, own.pending.value, now, target);
    } else if own.pending.Some? && Steady(s.log) {
      GoodOf(s);
      NeverCalledAnswers(s.mem, s.log);
    }
    if waited.outcome.Done? {
      var t := waited.state;
      Abandons(t, own, read, target, reference);
      var u := t.(log := Abandoned(t.log, own, read, reference));
      assert u.(mem := u.mem.(own := Some(Adopted(own, target, read.setting))))
          == t.(mem := t.mem.(own := Some(Adopted(own, target, read.setting))), log := u.log);
      PersistKeeps(u, u.mem.(own := Some(Adopted(own, target, read.setting))), false);
    }
  }

  lemma GoodOf(s: State)
    requires Inv(s)
    ensures GoodLog(s.log)
  {
    hide DataInv, TicketsBy, GoodLog;
  }

  // ---------------------------------------------------------------- the matched command

  lemma MatchIs(s: State, own: Ownership, p: Request, read: Readback, now: nat)
    requires Inv(s) && s.mem.own == Some(own) && own.pending == Some(p) && FreshShown(s.log) == Some(read)
    requires ReadMatches(p, read) && (p.restore || read.setting.slew == p.seen.setting.slew)
    ensures MatchJustified(s.log, p, read) && Matches(p, read)
    ensures p.restore ==> own.baseline == Some(read.setting)
  {
    hide TicketsBy, GoodLog, CallTime, LastCall, ReservedAs, Closed, FreshShown, ExpectedAfter, Durable;
  }

  /** Reported as applied: nothing changes yet. */
  lemma Reports(s: State, own: Ownership, p: Request, read: Readback)
    requires Inv(s) && s.mem.own == Some(own) && own.pending == Some(p) && MatchJustified(s.log, p, read)
    ensures var t := s.With(Applied(p, read));
      && Inv(t) && CallCount(t.log) == CallCount(s.log) && (Steady(t.log) <==> Steady(s.log))
      && FreshShown(t.log) == Some(read) && MatchJustified(t.log, p, read)
      && (AnsweredFor(s) ==> AnsweredFor(t))
  {
    hide Inv, CallTime, Closed, Answered;
    var e := Applied(p, read);
    Notes(s, e);
    Appended(s.log, e);
    QuietTimes(s.log, e);
    ClosedAfter(s.log, e, p.ticket);
    assert (s.log + [e])[..|s.log|] == s.log;
    ReservedGrows(s.log + [e], |s.log|, p);
    if Steady(s.log) && Answered(s.mem, s.log) { AnsweredStays(s.mem, s.log, e); }
  }

  /** The request is confirmed and forgotten; the setting just shown is expected. */
  lemma Confirms(s: State, own: Ownership, p: Request, read: Readback)
    requires Inv(s) && s.mem.own == Some(own) && own.pending == Some(p) && MatchJustified(s.log, p, read) && AnsweredFor(s)
    requires |s.log| > 0 && s.log[|s.log| - 1] == Applied(p, read)
    ensures var kept := own.(pending := None, expected := Some(read.setting));
      var t := s.With(Confirmed(p, read)).(mem := s.mem.(own := Some(kept)));
      && Inv(t) && CallCount(t.log) == CallCount(s.log) && (Steady(t.log) <==> Steady(s.log))
      && FreshShown(t.log) == Some(read) && Outstanding(t.log) == {}
  {
    hide Inv, AnsweredFor, CallTime, Closed;
    var e := Confirmed(p, read);
    Appended(s.log, e);
    assert (s.log + [e])[..|s.log|] == s.log;
    FreshIsShown(s.log + [e], |s.log|);
    PendingFits(s, own);
    Closes(s, e, p, own.(pending := None, expected := Some(read.setting)));
  }

  lemma PendingFits(s: State, own: Ownership)
    requires Inv(s) && s.mem.own == Some(own) && own.pending.Some?
    ensures own.baseline.Some? && own.pause != Some(ExternalConflict) && own.pending.value.ticket < s.issued
    ensures WellMade(own.pending.value, own.baseline.value) && ReservedAs(s.log, own.pending.value)
    ensures !Closed(s.log, own.pending.value.ticket) && (own.pending.value.restore ==> own.restoring)
  {
    hide TicketsBy, GoodLog, Timely, Closed, ReservedAs, AcquiredEver, ShownEver, Outstanding;
  }

  /** The end of a restoration. */
  lemma Returns(s: State, read: Readback)
    requires Inv(s) && PendingOf(s.mem).None? && Baseline(s.mem) == Some(read.setting) && FreshShown(s.log) == Some(read)
    ensures var t := s.With(Dropped(read.setting, Matched(read))).(mem := s.mem.(own := None));
      && Inv(t) && CallCount(t.log) == CallCount(s.log) && (Steady(t.log) <==> Steady(s.log))
      && EndedOnMatch(t.log, Some(read.setting))
  {
    hide Inv, FreshShown;
    var why := Matched(read);
    Appended(s.log, Dropped(read.setting, why));
    BaselineIs(s);
    NothingOutstanding(s);
    Drops(s, why, None);
  }

  lemma NothingOutstanding(s: State)
    requires Inv(s) && PendingOf(s.mem).None?
    ensures Outstanding(s.log) == {}
  {
    hide TicketsBy, GoodLog, Timely, Tracked, Known;
  }

  /** The matched command: its wait is anchored and it is reported before it is forgotten; a restoration ends ownership,
      a change keeps the baseline. */
  lemma SettlingKeeps(s: State, own: Ownership, p: Request, read: Readback, now: nat, target: Identity)
    requires Inv(s) && Current(s, now) && s.mem.own == Some(own) && own.pending == Some(p)
    requires own.identity.control == target.control && FreshShown(s.log) == Some(read)
    requires ReadMatches(p, read) && (p.restore || read.setting.slew == p.seen.setting.slew)
    ensures var r := Settling(s, own, p, read, now, target);
      && Inv(r.state) && Uncalled(s, r.state)
      && (r.outcome.Done? ==>
            var log := s.log + [Applied(p, read)] + [Confirmed(p, read)];
            if p.restore then
              && r.state.mem.own.None? && own.baseline == Some(read.setting) && EndedOnMatch(r.state.log, own.baseline)
              && r.state.log == log + [Dropped(read.setting, Matched(read))]
            else
              r.state.mem.own == Some(own.(pending := None, expected := Some(read.setting))) && r.state.log == log)
  {
    hide Inv, Persisted, AnsweredFor, CallCount, FreshShown, Stamped, MatchJustified, Steady, EndedOnMatch;
    StampedKeeps(s, p, now, target);
    MatchIs(s, own, p, read, now);
    var stamped := Stamped(s, p, now, target);
    if stamped.outcome.Done? {
      var t := stamped.state;
      AnsweredIs(s, t);
      Reports(t, own, p, read);
      var reported := t.With(Applied(p, read));
      PersistKeeps(reported, reported.mem, false);
      var audited := Audited(reported);
      if audited.outcome.Done? {
        var u := audited.state;
        SameAnswer(reported, u);
        var kept := own.(pending := None, expected := Some(read.setting));
        Confirms(u, own, p, read);
        var v := u.With(Confirmed(p, read));
        if p.restore {
          var w := v.With(Dropped(read.setting, Matched(read)));
          var settled := v.(mem := v.mem.(own := Some(kept)));
          Returns(settled, read);
          assert w.(mem := w.mem.(own := None))
              == settled.With(Dropped(read.setting, Matched(read))).(mem := settled.mem.(own := None));
          PersistKeeps(w, w.mem.(own := None), false);
        } else {
          PersistKeeps(v, v.mem.(own := Some(kept)), false);
        }
      }
    }
  }

  lemma AnsweredIs(s: State, t: State)
    requires PendingOf(t.mem).Some? && t.log == s.log && (Steady(s.log) ==> Answered(t.mem, s.log))
    ensures AnsweredFor(t)
  {}

  lemma SameAnswer(s: State, t: State)
    requires AnsweredFor(s) && Calm(s, t) && t.mem == s.mem
    ensures AnsweredFor(t)
  {}

  // ---------------------------------------------------------------- one pass of reconciliation

  lemma RefreshedKeeps(s: State, own: Ownership, now: nat)
    requires Inv(s) && Current(s, now) && s.mem.own == Some(own)
    ensures var r := Refreshed(s, own, now);
      && Inv(r.state) && Uncalled(s, r.state) && (!r.outcome.Died? ==> Calm(s, r.state))
      && (r.outcome.Done? ==>
            && r.state.mem == s.mem.(own := Some(r.outcome.value))
            && r.outcome.value == own.(pending := if own.pending.Some? then Some(Reread(own.pending.value, now)) else None))
  {
    hide Inv, Persisted, CallCount, Steady;
    if own.pending.Some? {
      var p := own.pending.value;
      var q := if p.sentAt > now then p.(sentAt := now) else p;
      if p.sentAt > now {
        Retimed(s, own, q, now);
        PersistKeeps(s, s.mem.(own := Some(own.(pending := Some(q)))), false);
      }
      var first := if p.sentAt > now then OwnSaved(s, Some(own.(pending := Some(q)))) else After(s, Done(()));
      if first.outcome.Done? && Reread(p, now) != q {
        var t, moved := first.state, own.(pending := Some(q));
        StillCurrent(s, t, now);
        Retimed(t, moved, Reread(p, now), now);
        PersistKeeps(t, t.mem.(own := Some(own.(pending := Some(Reread(p, now))))), false);
      }
    }
  }

  lemma StillCurrent(s: State, t: State, now: nat)
    requires Current(s, now) && Uncalled(s, t)
    ensures Current(t, now)
  {}

  /** Re-time the pending request to the present. */
  lemma Retimed(s: State, own: Ownership, q: Request, now: nat)
    requires Inv(s) && Current(s, now) && s.mem.own == Some(own) && own.pending.Some?
    requires var p := own.pending.value; q == p.(notBefore := Some(now)) || (p.sentAt > now && q == p.(sentAt := now))
    ensures Inv(s.(mem := s.mem.(own := Some(own.(pending := Some(q))))))
  {
    hide GoodLog, CallTime, LastCall, Outstanding, AcquiredEver, ShownEver, Closed, TicketReserved;
    StillReserved(s.log, own.pending.value, q);
    OwnRewritten(s.mem, Some(own.(pending := Some(q))), s.log, s.issued, s.clock);
    OwnMoves(s, s.mem.(own := Some(own.(pending := Some(q)))));
  }

  lemma StillReserved(log: seq<Event>, p: Request, q: Request)
    requires SameCommand(p, q)
    ensures ReservedAs(log, p) ==> ReservedAs(log, q)
  {}

  lemma UnconfirmingKeeps(s: State, own: Ownership)
    requires Inv(s) && s.mem.own == Some(own)
    ensures var r := Unconfirming(s, own);
      && Inv(r.state) && Uncalled(s, r.state) && (!r.outcome.Died? ==> Calm(s, r.state))
      && (r.outcome.Done? ==> r.state.mem == s.mem.(own := Some(own.(pause := Some(Unconfirmed)))))
  {
    hide Inv, Persisted, CallCount, Steady;
    if own.pause != Some(Unconfirmed) {
      var next := own.(pause := Some(Unconfirmed));
      Cosmetic(s, next);
      PersistKeeps(s, s.mem.(own := Some(next)), false);
      var saved := OwnSaved(s, Some(next));
      if saved.outcome.Done? { PersistKeeps(saved.state, saved.state.mem, false); }
    }
  }

  /** What became of ownership: the same baseline and purpose, or an end on what the gateway has just shown. */
  ghost predicate Accounts(own: Ownership, t: State) {
    if t.mem.own.None? then EndedOnMatch(t.log, own.baseline)
    else if Baseline(t.mem).Some? then Baseline(t.mem) == own.baseline && t.mem.own.value.restoring == own.restoring
    else own.baseline.None? || EndedByOther(t.log, own.baseline)
  }

  /** Nothing to report means that nothing is pending on this control, and nothing stands in the way. */
  ghost predicate Clear(t: State, target: Identity) {
    PendingOf(t.mem).None? && (t.mem.own.Some? ==> t.mem.own.value.identity == target && t.mem.own.value.pause.None?)
  }

  lemma AuditKeeps(s: State)
    requires Inv(s)
    ensures var r := Audited(s);
      Inv(r.state) && Uncalled(s, r.state) && (!r.outcome.Died? ==> Calm(s, r.state) && r.state.mem == s.mem)
  {
    hide Inv, Persisted, CallCount, Steady;
    assert s.(mem := s.mem) == s;
    PersistKeeps(s, s.mem, false);
  }

  lemma OvertakeIs(s: State, own: Ownership, p: Request, read: Readback)
    requires Inv(s) && s.mem.own == Some(own) && own.pending == Some(p) && FreshShown(s.log) == Some(read)
    requires ReadMatches(p, read) && !p.restore && read.setting.slew != p.seen.setting.slew
    ensures OvertakeJustified(s.log, p, read)
  {
    hide TicketsBy, GoodLog, CallTime, LastCall, ReservedAs, Closed, FreshShown, ExpectedAfter, Durable;
  }

  /** With a request pending: a match confirms it, or, when somebody else changed the slew rate, supersedes it; without
      one it stays pending, and after ten minutes pauses control. */
  lemma PendingReconciledKeeps(s: State, own: Ownership, p: Request, read: Readback, now: nat, target: Identity)
    requires Inv(s) && Current(s, now) && s.mem.own == Some(own) && own.pending == Some(p) && own.identity == target
    requires p.notBefore.Some? && FreshShown(s.log) == Some(read)
    ensures var r := PendingReconciled(s, own, p, read, now, target);
      && Inv(r.state) && Uncalled(s, r.state)
      && (r.outcome.Done? ==> Accounts(own, r.state) && (r.outcome.value.None? ==> Clear(r.state, target)))
      && (r.outcome.Done? && !ReadMatches(p, read) ==>
            && r.state.log == s.log && PendingOf(r.state.mem) == Some(p)
            && if now - p.sentAt >= READBACK_MAX_AGE then
                 r.outcome.value == Some(Unconfirmed) && r.state.mem.own == Some(own.(pause := Some(Unconfirmed)))
               else r.outcome.value == Some(ChangePending) && r.state.mem == s.mem)
      && (r.outcome.Done? && ReadMatches(p, read) ==>
            && PendingOf(r.state.mem).None?
            && if !p.restore && read.setting.slew != p.seen.setting.slew then
                 r.state.mem.own == Some(Adopted(own, target, read.setting))
               else if p.restore then r.state.mem.own.None?
               else r.state.mem.own == Some(own.(pending := None, expected := Some(read.setting))))
  {
    hide Inv, Persisted, CallCount, Steady, FreshShown, OvertakeJustified, EndedByOther, EndedOnMatch, GivenUp;
    hide Settling;
    if ReadMatches(p, read) {
      PendingFits(s, own);
      if !p.restore && read.setting.slew != p.seen.setting.slew {
        AuditKeeps(s);
        var audited := Audited(s);
        if audited.outcome.Done? {
          OvertakeIs(s, own, p, read);
          GivenUpKeeps(audited.state, own, read, now, target, p.seen.setting);
        }
      } else {
        SettlingKeeps(s, own, p, read, now, target);
      }
    } else {
      UnconfirmingKeeps(s, own);
    }
  }

  lemma RealiasedKeeps(s: State, own: Ownership, target: Identity)
    requires Inv(s) && s.mem.own == Some(own) && own.identity.control == target.control
    ensures var r := Realiased(s, own, target);
      && Inv(r.state) && Uncalled(s, r.state)
      && (r.outcome.Done? ==>
            && Calm(s, r.state) && r.outcome.value == own.(identity := target)
            && r.state.mem == s.mem.(own := Some(r.outcome.value)))
  {
    hide Inv, Persisted, CallCount, Steady;
    if own.identity != target {
      Cosmetic(s, own.(identity := target));
      PersistKeeps(s, s.mem.(own := Some(own.(identity := target))), false);
    }
  }

  /** A conflict latched by an older version is never a record with a baseline. */
  lemma Unlatched(s: State)
    requires Inv(s) && s.mem.own.Some? && s.mem.own.value.pause == Some(ExternalConflict)
    ensures Baseline(s.mem).None?
  {
    hide TicketsBy, GoodLog, Timely, Outstanding, Tracked;
  }

  lemma ReadReconciledKeeps(s: State, own: Ownership, read: Readback, now: nat, target: Identity)
    requires Inv(s) && Current(s, now) && s.mem.own == Some(own) && own.identity == target
    requires own.pending.Some? ==> own.pending.value.notBefore.Some?
    requires FreshShown(s.log) == Some(read)
    ensures var r := ReadReconciled(s, own, read, now, target);
      && Inv(r.state) && Uncalled(s, r.state)
      && (r.outcome.Done? ==> Accounts(own, r.state) && (r.outcome.value.None? ==> Clear(r.state, target)))
      && (r.outcome.Done? && own.pending.None? && read.pending ==> r == After(s, Done(Some(ChangePending))))
      && (r.outcome.Done? && own.pending.None? && !read.pending ==>
            if own.pause == Some(ExternalConflict) || (own.expected.Some? && own.expected.value != read.setting) then
              && r.state.mem.own == Some(Adopted(own, target, read.setting))
              && r.outcome.value == (if own.pause == Some(ExternalConflict) then None else own.pause)
            else r == After(s, Done(own.pause)))
  {
    hide Inv, Persisted, CallCount, Steady, FreshShown, EndedByOther, EndedOnMatch, GivenUp, PendingReconciled;
    if own.pending.Some? {
      PendingReconciledKeeps(s, own, own.pending.value, read, now, target);
    } else if own.pause == Some(ExternalConflict) {
      Unlatched(s);
      if !read.pending { GivenUpKeeps(s, own, read, now, target, read.setting); }
    } else if !read.pending && own.expected.Some? && own.expected.value != read.setting {
      GivenUpKeeps(s, own, read, now, target, own.expected.value);
    }
  }

  lemma BlindKeeps(s: State, own: Ownership, unsupported: bool, now: nat)
    requires Inv(s) && s.mem.own == Some(own)
    ensures var r := Blind(s, own, unsupported, now);
      && Inv(r.state) && Uncalled(s, r.state) && (!r.outcome.Died? ==> Calm(s, r.state))
      && (r.outcome.Done? ==> r.outcome.value.Some? && Accounts(own, r.state))
      && (r.outcome.Done? ==>
            if own.pending.Some? && now - own.pending.value.sentAt >= 600_000_000 then
              r.outcome.value == Some(Unconfirmed) && r.state.mem.own == Some(own.(pause := Some(Unconfirmed)))
            else if own.pending.None? && unsupported then
              r.outcome.value == Some(Unsupported) && r.state.mem.own == Some(own.(pause := Some(Unsupported)))
            else r.state == s && r.outcome.value == Some(if unsupported then Unsupported else Unavailable))
  {
    hide Inv, Persisted, CallCount, Steady;
    UnconfirmingKeeps(s, own);
    var next := own.(pause := Some(Unsupported));
    Cosmetic(s, next);
    PersistKeeps(s, s.mem.(own := Some(next)), false);
  }

  lemma OwnReconciledKeeps(s: State, own: Ownership, now: nat, target: Option<Identity>)
    requires Inv(s) && Current(s, now) && s.mem.own == Some(own)
    ensures var r := OwnReconciled(s, own, now, target);
      && Inv(r.state) && Uncalled(s, r.state)
      && (r.outcome.Done? ==> Accounts(own, r.state))
      && (r.outcome == Done(None) ==> target.Some? && Clear(r.state, target.value))
  {
    hide Inv, Persisted, CallCount, Steady, FreshShown, EndedByOther, EndedOnMatch, Refreshed, Looked, Realiased, Blind;
    hide ReadReconciled, BaselineAfter, Outstanding, Booked, CallTime, LastCall;
    RefreshedKeeps(s, own, now);
    var first := Refreshed(s, own, now);
    if first.outcome.Done? {
      var t, kept := first.state, first.outcome.value;
      LookKeeps(t, now, target);
      var (u, feedback) := Looked(t, now, target);
      match feedback {
        case Unusable(unsupported) => BlindKeeps(u, kept, unsupported, now);
        case Seen(read) =>
          if kept.identity.control == target.value.control {
            RealiasedKeeps(u, kept, target.value);
            var second := Realiased(u, kept, target.value);
            if second.outcome.Done? {
              ReadReconciledKeeps(second.state, second.outcome.value, read, now, target.value);
            }
          }
      }
    }
  }

  lemma ReadiedKeeps(s: State, now: nat, target: Option<Identity>)
    requires Inv(s) && Current(s, now)
    ensures var r := Readied(s, now, target);
      && Inv(r.state) && Uncalled(s, r.state)
      && (!r.outcome.Died? ==> Calm(s, r.state) && r.state.mem.own == s.mem.own)
      && (r.outcome.Done? && target.None? ==> r.state.mem == s.mem)
      && (r.outcome.Done? && target.Some? ==>
            r.state.mem.limits == s.mem.limits[target.value.control := Normalized(s.mem, target.value.control, now)])
  {
    hide Inv, Prepared, Normalized, CallCount, Steady;
    if target.Some? { PreparedKeeps(s, now, target.value); }
  }

  /** Reconciliation: never a command; ownership keeps its baseline or ends on what the gateway has just shown; nothing
      to report means that nothing is pending. */
  lemma ReconciledKeeps(s: State, now: nat, target: Option<Identity>)
    requires Inv(s)
    ensures var r := Reconciled(s, now, target);
      && Inv(r.state) && CallCount(r.state.log) == CallCount(s.log) && r.state.issued == s.issued
      && Current(r.state, now) && (Steady(r.state.log) ==> Steady(s.log))
      && (r.outcome.Done? && s.mem.own.Some? ==> Accounts(s.mem.own.value, r.state))
      && (r.outcome.Done? && s.mem.own.None? ==> r.outcome.value.None? && r.state.mem.own.None?)
      && (r.outcome == Done(None) ==> PendingOf(r.state.mem).None?)
      && (r.outcome == Done(None) && s.mem.own.Some? ==> target.Some? && Clear(r.state, target.value))
  {
    hide Inv, CallCount, FreshShown, Accounts, OwnReconciled, Readied, Ticked, BaselineAfter, Outstanding;
    hide Booked, CallTime, LastCall;
    TickKeeps(s, now);
    assert Ticked(s, now).mem == s.mem && Ticked(s, now).issued == s.issued by { TickedSame(s, now); }
    ReadiedKeeps(Ticked(s, now), now, target);
    var readied := Readied(Ticked(s, now), now, target);
    if readied.outcome.Done? && readied.state.mem.own.Some? {
      OwnReconciledKeeps(readied.state, readied.state.mem.own.value, now, target);
    }
  }

  lemma TickedSame(s: State, now: nat)
    ensures var t := Ticked(s, now); t.mem == s.mem && t.disk == s.disk && t.issued == s.issued && t.world == s.world
  {}

  // ---------------------------------------------------------------- resuming and watching

  lemma ResumedKeeps(s: State)
    requires Inv(s)
    ensures var r := Resumed(s);
      && Inv(r.state) && Uncalled(s, r.state) && (!r.outcome.Died? ==> Calm(s, r.state))
      && (PendingOf(s.mem).Some? ==> r == After(s, Done(())))
      && (r.outcome.Done? && PendingOf(s.mem).None? ==>
            r.state.mem.own == if Baseline(s.mem).Some? then Some(s.mem.own.value.(pause := None)) else None)
  {
    hide Inv, Persisted, CallCount, Steady;
    if PendingOf(s.mem).None? {
      var own := if Baseline(s.mem).Some? then Some(s.mem.own.value.(pause := None)) else None;
      Unowned(s, own);
      PersistKeeps(s, s.mem.(own := own), false);
    }
  }

  lemma Unowned(s: State, own: Option<Ownership>)
    requires Inv(s) && PendingOf(s.mem).None?
    requires own == if Baseline(s.mem).Some? then Some(s.mem.own.value.(pause := None)) else None
    ensures Inv(s.(mem := s.mem.(own := own)))
  {
    hide GoodLog, CallTime, LastCall, Outstanding, AcquiredEver, ShownEver, Closed, TicketsBy;
    OwnRewritten(s.mem, own, s.log, s.issued, s.clock);
    OwnMoves(s, s.mem.(own := own));
  }

  lemma WatchingKeeps(s: State, now: nat, target: Identity)
    requires Inv(s)
    ensures var r := Watching(s, now, target);
      && Inv(r.state) && Uncalled(s, r.state)
      && (r.outcome.Done? && s.mem.own.Some? ==> r.state.mem == s.mem)
      && (r.outcome.Done? && s.mem.own.None? ==>
            var f := Looked(s, now, Some(target)).1;
            if f.Seen? && !f.read.pending then
              r.state.mem.own == Some(Ownership(target, Some(f.read.setting), None, None, None, false))
            else if f.Unusable? && f.unsupported then
              r.state.mem.own == Some(Ownership(target, None, None, None, Some(Unsupported), false))
            else r.state.mem.own.None?)
      && (r.outcome.Done? && s.mem.own.None? && r.state.mem.own.Some? ==>
            || r.state.mem.own == Some(Ownership(target, None, None, None, Some(Unsupported), false))
            || (FreshShown(r.state.log).Some?
                && var shown := FreshShown(r.state.log).value.setting;
                   r.state.mem.own == Some(Ownership(target, Some(shown), None, None, None, false))))
  {
    hide Inv, Persisted, CallCount, Steady, FreshShown, Looked, BaselineAfter, Outstanding, Booked, CallTime, LastCall;
    LookKeeps(s, now, Some(target));
    var (t, feedback) := Looked(s, now, Some(target));
    if t.mem.own.None? {
      match feedback {
        case Unusable(unsupported) =>
          var own := Ownership(target, None, None, None, Some(Unsupported), false);
          Unsupporting(t, own);
          PersistKeeps(t, t.mem.(own := Some(own)), false);
        case Seen(read) =>
          var own := Ownership(target, Some(read.setting), None, None, None, false);
          Expects(t, read, own);
          var u := t.With(Watched(read.setting));
          Appended(t.log, Watched(read.setting));
          PersistKeeps(u, u.mem.(own := Some(own)), false);
      }
    }
  }

  lemma Unsupporting(s: State, own: Ownership)
    requires Inv(s) && s.mem.own.None? && own.pending.None? && own.baseline.None? && own.expected.None?
    ensures Inv(s.(mem := s.mem.(own := Some(own))))
  {
    hide GoodLog, CallTime, LastCall, Outstanding, Closed, TicketsBy;
    OwnRewritten(s.mem, Some(own), s.log, s.issued, s.clock);
    OwnMoves(s, s.mem.(own := Some(own)));
  }
}
