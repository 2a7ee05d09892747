/**
 Where a pending request and a held baseline can come from: over every run they were in memory or on disk before, or a
 reservation or a takeover of the run put them there.
 */
module ExportTraces {
  import opened Common
  import opened ExportLog
  import opened ExportState
  import opened ExportTiming
  import opened ExportSteps
  import opened ExportRuns

  ghost predicate HasTicket(s: State, ticket: nat) { PendingIs(s.mem, ticket) || PendingIs(s.disk, ticket) }

  /** The baseline is held, and not about to be given back. */
  ghost predicate KeptBy(d: Data, b: Setting) { Baseline(d) == Some(b) && !d.own.value.restoring }

  ghost predicate Keeps(s: State, b: Setting) { KeptBy(s.mem, b) || KeptBy(s.disk, b) }

  /** A state to trace back to, a ticket issued by then, and a baseline. */
  datatype Probe = Probe(start: State, ticket: nat, baseline: Setting)
  {
    ghost predicate Pending() { HasTicket(start, ticket) }

    ghost predicate Held(log: seq<Event>) {
      Keeps(start, baseline) || exists k | |start.log| <= k < |log| :: log[k].Acquired? && log[k].baseline == baseline
    }
  }

  /** This record has its ticket and its baseline from where they may come. */
  ghost predicate From(q: Probe, log: seq<Event>, own: Option<Ownership>) {
    own.Some? ==>
      && (own.value.pending.Some? && own.value.pending.value.ticket == q.ticket ==> q.Pending())
      && (own.value.baseline == Some(q.baseline) && !own.value.restoring ==> q.Held(log))
  }

  ghost predicate Traced(q: Probe, s: State) {
    && q.ticket < q.start.issued <= s.issued && |q.start.log| <= |s.log| && s.log[..|q.start.log|] == q.start.log
    && From(q, s.log, s.mem.own) && From(q, s.log, s.disk.own)
    && (forall k | |q.start.log| <= k < |s.log| ::
          && (s.log[k].Applied? && s.log[k].request.ticket == q.ticket ==> q.Pending())
          && (s.log[k].Call? && KeptBy(s.log[k].disk, q.baseline) ==> q.Held(s.log[..k])))
  }

  lemma Begins(s: State, ticket: nat, b: Setting)
    requires ticket < s.issued
    ensures Traced(Probe(s, ticket, b), s)
  {
    assert s.log[..|s.log|] == s.log;
  }

  /** From `s` on to `t`, with all origins accounted for. */
  ghost predicate Onto(q: Probe, s: State, t: State) { Traced(q, t) && (q.Held(s.log) ==> q.Held(t.log)) }

  lemma HeldLonger(q: Probe, log: seq<Event>, e: Event)
    requires q.Held(log)
    ensures q.Held(log + [e])
  {
    assert forall k | 0 <= k < |log| :: (log + [e])[k] == log[k];
  }

  lemma Note(q: Probe, s: State, e: Event)
    requires Traced(q, s)
    requires e.Applied? ==> (e.request.ticket == q.ticket ==> q.Pending())
    requires e.Call? ==> From(q, s.log, e.disk.own)
    ensures Onto(q, s, s.With(e))
  {
    var after := s.log + [e];
    if q.Held(s.log) { HeldLonger(q, s.log, e); }
    assert after[..|q.start.log|] == s.log[..|q.start.log|];
    forall k | |q.start.log| <= k < |after|
      ensures after[k].Applied? && after[k].request.ticket == q.ticket ==> q.Pending()
      ensures after[k].Call? && KeptBy(after[k].disk, q.baseline) ==> q.Held(after[..k])
    {
      if k < |s.log| {
        assert after[k] == s.log[k] && after[..k] == s.log[..k];
      } else {
        assert after[..k] == s.log;
      }
    }
  }

  lemma Same(q: Probe, s: State, t: State)
    requires Traced(q, s) && t.log == s.log && t.issued >= s.issued
    requires From(q, s.log, t.mem.own) && From(q, s.log, t.disk.own)
    ensures Onto(q, s, t)
  {}

  lemma Parts(q: Probe, s: State)
    requires Traced(q, s)
    ensures From(q, s.log, s.mem.own) && From(q, s.log, s.disk.own)
  {
    hide From;
  }

  lemma Restart(q: Probe, s: State)
    requires Traced(q, s)
    ensures Onto(q, s, Restarted(s))
  {
    hide Traced, From;
    Note(q, s, Crash(s.disk));
    Parts(q, s.With(Crash(s.disk)));
    Same(q, s.With(Crash(s.disk)), Restarted(s));
  }

  lemma Persist(q: Probe, s: State, d: Data, flush: bool)
    requires Traced(q, s) && From(q, s.log, d.own)
    ensures Onto(q, s, Persisted(s, d, flush).state)
  {
    hide Traced, From;
    var fate := if flush && s.world.Fate().Delayed? then Written else s.world.Fate();
    var reached := fate.Written? || fate.FailedWritten? || fate.DiedWritten?;
    var t := s.(mem := d, disk := if reached then d else s.disk, world := s.world.AfterSave());
    Parts(q, s);
    Same(q, s, t);
    Restart(q, t);
  }

  lemma Tick(q: Probe, s: State, now: nat)
    requires Traced(q, s)
    ensures Onto(q, s, Ticked(s, now)) && Ticked(s, now).mem == s.mem
  {
    hide Traced, From;
    Parts(q, s);
    Note(q, s, ClockBack);
    Same(q, s, s.(clock := now));
  }

  /** What the environment still has to answer plays no part. */
  lemma Anyway(q: Probe, s: State, t: State)
    requires Traced(q, s) && t == s.(world := t.world)
    ensures Onto(q, s, t)
  {
    hide Traced, From;
    Parts(q, s);
    Same(q, s, t);
  }

  lemma Glance(q: Probe, s: State, now: nat, target: Option<Identity>)
    requires Traced(q, s)
    ensures var t := Looked(s, now, target).0; Onto(q, s, t) && t.mem == s.mem
  {
    hide Traced, From;
    var t, f := s.(world := s.world.AfterLook()), Settled(s.world.Glimpse(), now);
    Anyway(q, s, t);
    if f.Seen? { Note(q, t, Observed(f.read)); }
  }

  lemma Timing(q: Probe, s: State, control: string, record: Record, flush: bool)
    requires Traced(q, s)
    ensures Onto(q, s, TimingSaved(s, control, record, flush).state)
  {
    hide Traced, From, Persisted;
    Parts(q, s);
    Persist(q, s, s.mem.(limits := s.mem.limits[control := record]), flush);
  }

  lemma Own(q: Probe, s: State, own: Option<Ownership>)
    requires Traced(q, s) && From(q, s.log, own)
    ensures Onto(q, s, OwnSaved(s, own).state)
  {
    hide Traced, From, Persisted;
    Persist(q, s, s.mem.(own := own), false);
  }

  lemma Audit(q: Probe, s: State)
    requires Traced(q, s)
    ensures Onto(q, s, Audited(s).state)
  {
    hide Traced, From, Persisted;
    Parts(q, s);
    Persist(q, s, s.mem, false);
  }

  lemma Prepare(q: Probe, s: State, now: nat, target: Identity)
    requires Traced(q, s)
    ensures Onto(q, s, Prepared(s, now, target).state)
  {
    hide Traced, Persisted, Normalized;
    Timing(q, s, target.control, Normalized(s.mem, target.control, now), false);
  }

  // ---------------------------------------------------------------- reconciliation

  /** The record under which an operation works has its parts from where they may come. */
  ghost predicate Works(q: Probe, s: State, own: Ownership) { Traced(q, s) && From(q, s.log, Some(own)) }

  lemma Settle(q: Probe, s: State, p: Request, now: nat, target: Identity)
    requires Traced(q, s)
    ensures Onto(q, s, SettledExternally(s, p, now, target).state) && Onto(q, s, Stamped(s, p, now, target).state)
  {
    hide Traced, Persisted, Normalized, Probe.Held;
    Prepare(q, s, now, target);
    var prepared := Prepared(s, now, target);
    if prepared.outcome.Done? {
      var t, record := prepared.state, prepared.outcome.value;
      Timing(q, t, target.control, record.(settledAt := Some(now), settlementFor := Some(p.sentAt)), true);
      Timing(q, t, target.control, record.(confirmedAt := Some(now), confirmationFor := Some(p.sentAt)), true);
    }
  }

  lemma Abandon(q: Probe, s: State, own: Ownership, read: Readback, reference: Setting)
    requires Traced(q, s)
    ensures Onto(q, s, s.(log := Abandoned(s.log, own, read, reference)))
  {
    hide Traced, Probe.Held;
    var t := if own.pending.Some? then s.With(Superseded(own.pending.value, read)) else s;
    if own.pending.Some? { Note(q, s, Superseded(own.pending.value, read)); }
    var u := t;
    if own.baseline.Some? {
      u := t.With(Dropped(own.baseline.value, External(read, reference)));
      Note(q, t, Dropped(own.baseline.value, External(read, reference)));
    }
    Note(q, u, Watched(read.setting));
    assert u.With(Watched(read.setting)) == s.(log := Abandoned(s.log, own, read, reference));
  }

  lemma GiveUp(q: Probe, s: State, own: Ownership, read: Readback, now: nat, target: Identity, reference: Setting)
    requires Traced(q, s)
    ensures Onto(q, s, GivenUp(s, own, read, now, target, reference).state)
  {
    hide Traced, Persisted, Probe.Held, SettledExternally, Abandoned;
    if own.pending.Some? { Settle(q, s, own.pending.value, now, target); }
    var waited := if own.pending.Some? && own.pending.value.notBefore.Some?
                  then SettledExternally(s, own.pending.value, now, target) else After(s, Done(()));
    if waited.outcome.Done? {
      var t := waited.state;
      Abandon(q, t, own, read, reference);
      Own(q, t.(log := Abandoned(t.log, own, read, reference)), Some(Adopted(own, target, read.setting)));
    }
  }

  lemma Refresh(q: Probe, s: State, own: Ownership, now: nat)
    requires Works(q, s, own)
    ensures var r := Refreshed(s, own, now);
      Onto(q, s, r.state) && (r.outcome.Done? ==> Works(q, r.state, r.outcome.value))
  {
    hide Traced, Persisted, Probe.Held;
    if own.pending.Some? {
      var p := own.pending.value;
      var first := own.(pending := Some(if p.sentAt > now then p.(sentAt := now) else p));
      Own(q, s, Some(first));
      var t := if p.sentAt > now then OwnSaved(s, Some(first)).state else s;
      Own(q, t, Some(own.(pending := Some(Reread(p, now)))));
    }
  }

  lemma Unconfirm(q: Probe, s: State, own: Ownership)
    requires Works(q, s, own)
    ensures Onto(q, s, Unconfirming(s, own).state)
  {
    hide Traced, Persisted, Probe.Held;
    Own(q, s, Some(own.(pause := Some(Unconfirmed))));
    Audit(q, OwnSaved(s, Some(own.(pause := Some(Unconfirmed)))).state);
  }

  lemma SettleMatch(q: Probe, s: State, own: Ownership, p: Request, read: Readback, now: nat, target: Identity)
    requires Works(q, s, own) && own.pending == Some(p)
    ensures Onto(q, s, Settling(s, own, p, read, now, target).state)
  {
    hide Traced, Persisted, Probe.Held, Stamped;
    Settle(q, s, p, now, target);
    var stamped := Stamped(s, p, now, target);
    if stamped.outcome.Done? {
      var t := stamped.state;
      Note(q, t, Applied(p, read));
      Audit(q, t.With(Applied(p, read)));
      var u := Audited(t.With(Applied(p, read))).state;
      Note(q, u, Confirmed(p, read));
      var v := u.With(Confirmed(p, read));
      Own(q, v, Some(own.(pending := None, expected := Some(read.setting))));
      Note(q, v, Dropped(read.setting, Matched(read)));
      Own(q, v.With(Dropped(read.setting, Matched(read))), None);
    }
  }

  lemma ReconcilePending(q: Probe, s: State, own: Ownership, p: Request, read: Readback, now: nat, target: Identity)
    requires Works(q, s, own) && own.pending == Some(p)
    ensures Onto(q, s, PendingReconciled(s, own, p, read, now, target).state)
  {
    hide Traced, From, Persisted, Probe.Held, Settling, GivenUp, Unconfirming;
    Audit(q, s);
    GiveUp(q, Audited(s).state, own, read, now, target, p.seen.setting);
    SettleMatch(q, s, own, p, read, now, target);
    Unconfirm(q, s, own);
  }

  lemma ReconcileRead(q: Probe, s: State, own: Ownership, read: Readback, now: nat, target: Identity)
    requires Works(q, s, own)
    ensures Onto(q, s, ReadReconciled(s, own, read, now, target).state)
  {
    hide Traced, From, Probe.Held, PendingReconciled, GivenUp;
    GiveUp(q, s, own, read, now, target, read.setting);
    if own.pending.Some? { ReconcilePending(q, s, own, own.pending.value, read, now, target); }
    if own.expected.Some? { GiveUp(q, s, own, read, now, target, own.expected.value); }
  }

  lemma Realias(q: Probe, s: State, own: Ownership, target: Identity)
    requires Works(q, s, own)
    ensures var r := Realiased(s, own, target);
      Onto(q, s, r.state) && (r.outcome.Done? ==> Works(q, r.state, r.outcome.value))
  {
    hide Traced, Persisted, Probe.Held;
    Own(q, s, Some(own.(identity := target)));
  }

  lemma BeBlind(q: Probe, s: State, own: Ownership, unsupported: bool, now: nat)
    requires Works(q, s, own)
    ensures Onto(q, s, Blind(s, own, unsupported, now).state)
  {
    hide Traced, Persisted, Probe.Held, Unconfirming;
    Unconfirm(q, s, own);
    Own(q, s, Some(own.(pause := Some(Unsupported))));
  }

  lemma ReconcileOwn(q: Probe, s: State, own: Ownership, now: nat, target: Option<Identity>)
    requires Works(q, s, own)
    ensures Onto(q, s, OwnReconciled(s, own, now, target).state)
  {
    hide Traced, Probe.Held, Refreshed, Looked, Realiased, ReadReconciled, Blind;
    Refresh(q, s, own, now);
    var first := Refreshed(s, own, now);
    if first.outcome.Done? {
      var t, kept := first.state, first.outcome.value;
      Glance(q, t, now, target);
      var (u, feedback) := Looked(t, now, target);
      if feedback.Unusable? {
        BeBlind(q, u, kept, feedback.unsupported, now);
      } else {
        Realias(q, u, kept, target.value);
        var second := Realiased(u, kept, target.value);
        if second.outcome.Done? { ReconcileRead(q, second.state, second.outcome.value, feedback.read, now, target.value); }
      }
    }
  }

  lemma Reconcile(q: Probe, s: State, now: nat, target: Option<Identity>)
    requires Traced(q, s)
    ensures Onto(q, s, Reconciled(s, now, target).state)
  {
    hide Traced, From, Probe.Held, OwnReconciled, Prepared, Ticked;
    Tick(q, s, now);
    var t := Ticked(s, now);
    if target.Some? { Prepare(q, t, now, target.value); }
    var readied := Readied(t, now, target);
    Parts(q, readied.state);
    if readied.state.mem.own.Some? { ReconcileOwn(q, readied.state, readied.state.mem.own.value, now, target); }
  }

  lemma Resume(q: Probe, s: State)
    requires Traced(q, s)
    ensures Onto(q, s, Resumed(s).state)
  {
    hide Traced, Persisted, Probe.Held;
    Parts(q, s);
    Own(q, s, None);
    if s.mem.own.Some? { Own(q, s, Some(s.mem.own.value.(pause := None))); }
  }

  lemma Watch(q: Probe, s: State, now: nat, target: Identity)
    requires Traced(q, s)
    ensures Onto(q, s, Watching(s, now, target).state)
  {
    hide Traced, Persisted, Probe.Held, Looked;
    Glance(q, s, now, Some(target));
    var (t, feedback) := Looked(s, now, Some(target));
    Own(q, t, Some(Ownership(target, None, None, None, Some(Unsupported), false)));
    if feedback.Seen? {
      Note(q, t, Watched(feedback.read.setting));
      Own(q, t.With(Watched(feedback.read.setting)),
          Some(Ownership(target, Some(feedback.read.setting), None, None, None, false)));
    }
  }

  // ---------------------------------------------------------------- dispatch

  /** An order on which the command and what takes it back have their parts from where they may come. */
  ghost predicate Orders(q: Probe, s: State, o: Order) {
    Works(q, s, o.own) && From(q, s.log, o.previous)
  }

  lemma Withdraw(q: Probe, s: State, previous: Option<Ownership>, baseline: Setting, ticket: nat)
    requires Traced(q, s) && From(q, s.log, previous)
    ensures Onto(q, s, Withdrawn(s, previous, baseline, ticket).state)
  {
    hide Traced, Persisted, Probe.Held;
    Own(q, s, previous);
    Note(q, s, Dropped(baseline, Unsent(ticket)));
    Own(q, s.With(Dropped(baseline, Unsent(ticket))), previous);
  }

  lemma SaveReservation(q: Probe, s: State, o: Order)
    requires Orders(q, s, o)
    ensures Onto(q, s, ReservationSaved(s, o).state)
  {
    hide Traced, From, Persisted, Probe.Held;
    Own(q, s, Some(o.own));
    Timing(q, OwnSaved(s, Some(o.own)).state, o.target.control, o.Reservation(), true);
  }

  lemma Unreserve(q: Probe, s: State, o: Order)
    requires Orders(q, s, o)
    ensures Onto(q, s, Unreserved(s, o).state)
  {
    hide Traced, From, Persisted, Probe.Held, Withdrawn;
    Withdraw(q, s, o.previous, o.baseline, o.request.ticket);
    Timing(q, Withdrawn(s, o.previous, o.baseline, o.request.ticket).state, o.target.control, o.timing, false);
  }

  /** A takeover is recorded where nothing was held. */
  lemma TakeOver(q: Probe, s: State, request: Request, baseline: Setting)
    requires Traced(q, s)
    ensures var t := s.(issued := s.issued + 1, log := TakenOver(s.log, s.mem, request, baseline));
      && Onto(q, s, t)
      && (Baseline(s.mem).None? && baseline == q.baseline ==> q.Held(t.log))
  {
    hide Traced, From;
    var e, f := Reserved(request), Acquired(baseline, request.seen);
    Note(q, s, e);
    Note(q, s.With(e), f);
    var t := s.(log := TakenOver(s.log, s.mem, request, baseline));
    Parts(q, t);
    Same(q, t, t.(issued := s.issued + 1));
    if Baseline(s.mem).None? {
      assert t.log[|t.log| - 1] == f && |q.start.log| <= |s.log| by { Longer(q, s); }
    }
  }

  lemma Longer(q: Probe, s: State)
    requires Traced(q, s)
    ensures |q.start.log| <= |s.log| && q.ticket < s.issued
  {}

  lemma Reserve(q: Probe, s: State, o: Order)
    requires Traced(q, s) && From(q, s.log, o.previous) && o.own.pending == Some(o.request) && o.request.ticket == s.issued
    requires o.own.baseline == Some(o.baseline)
    requires Baseline(s.mem).Some? ==> From(q, s.log, Some(o.own.(pending := None)))
    ensures var r := Reserving(s, o); Onto(q, s, r.state) && (r.outcome.Done? ==> Orders(q, r.state, o))
  {
    hide Traced, Probe.Held, ReservationSaved, Unreserved, TakenOver;
    TakeOver(q, s, o.request, o.baseline);
    Longer(q, s);
    var begun := s.(issued := s.issued + 1, log := TakenOver(s.log, s.mem, o.request, o.baseline));
    SaveReservation(q, begun, o);
    Unreserve(q, ReservationSaved(begun, o).state, o);
  }

  lemma BackOut(q: Probe, s: State, o: Order, blocked: Reason, latest: Feedback, m: Moment)
    requires Orders(q, s, o)
    ensures Onto(q, s, BackedOut(s, o, blocked, latest, m).state)
  {
    hide Traced, Persisted, Probe.Held, Withdrawn, GivenUp;
    Timing(q, s, o.target.control, o.timing, false);
    var t := TimingSaved(s, o.target.control, o.timing, false).state;
    Withdraw(q, t, o.previous, o.baseline, o.request.ticket);
    Audit(q, Withdrawn(t, o.previous, o.baseline, o.request.ticket).state);
    if latest.Seen? && m.target.Some? {
      GiveUp(q, t, o.own, latest.read, m.now, m.target.value, o.request.seen.setting);
      Audit(q, GivenUp(t, o.own, latest.read, m.now, m.target.value, o.request.seen.setting).state);
    }
  }

  lemma CallService(q: Probe, s: State, control: string, request: Request, now: nat)
    requires Traced(q, s)
    ensures Onto(q, s, Called(s, control, request, now).0)
  {
    hide Traced, From, Probe.Held;
    var t := s.(world := s.world.AfterAnswer());
    Anyway(q, s, t);
    Restart(q, t);
    var e := Call(control, now, request, s.disk);
    Parts(q, t);
    Note(q, t, e);
    Restart(q, t.With(e));
    Note(q, t.With(e), Declined(request.ticket));
  }

  lemma Refuse(q: Probe, s: State, o: Order)
    requires Orders(q, s, o)
    ensures Onto(q, s, Refusing(s, o).state)
  {
    hide Traced, Persisted, Probe.Held, Ticked;
    var m, moved := s.Next(o.target), s.(world := s.world.AfterMoment());
    Anyway(q, s, moved);
    Tick(q, moved, m.now);
    var begun, again := Ticked(moved, m.now), o.Reservation().(attemptedAt := Some(m.now), checkedAt := m.now);
    Timing(q, begun, o.target.control, again, true);
    var t := TimingSaved(begun, o.target.control, again, true).state;
    var own := o.own.(pending := None, pause := Some(ServiceRejected));
    Note(q, t, Refused(o.request.ticket));
    Own(q, t.With(Refused(o.request.ticket)), Some(own));
    Audit(q, OwnSaved(t.With(Refused(o.request.ticket)), Some(own)).state);
  }

  lemma Follow(q: Probe, s: State, o: Order, response: Response, now: nat)
    requires Orders(q, s, o) && o.own.pending == Some(o.request)
    ensures Onto(q, s, Followed(s, o, response, now).state)
  {
    hide Traced, Persisted, Probe.Held, Refusing, Reconciled;
    Refuse(q, s, o);
    var own := o.own.(pending := Some(o.request.(notBefore := Some(now))));
    Own(q, s, Some(own));
    Audit(q, OwnSaved(s, Some(own)).state);
    var t := Kept(s, o, now).state;
    var m, moved := t.Next(o.target), t.(world := t.world.AfterMoment());
    Anyway(q, t, moved);
    Reconcile(q, moved, m.now, m.target);
  }

  lemma Send(q: Probe, s: State, o: Order, window: (nat, nat))
    requires Orders(q, s, o) && o.own.pending == Some(o.request)
    ensures Onto(q, s, Sending(s, o, window).state)
  {
    hide Traced, Probe.Held, Looked, Ticked, BackedOut, Called, Followed, Blocks;
    var m, moved := s.Next(o.target), s.(world := s.world.AfterMoment());
    Anyway(q, s, moved);
    Tick(q, moved, m.now);
    Glance(q, Ticked(moved, m.now), m.now, m.target);
    var (t, latest) := Looked(Ticked(moved, m.now), m.now, m.target);
    var blocked := Blocks(o, m, latest, window);
    if blocked.Some? {
      BackOut(q, t, o, blocked.value, latest, m);
    } else {
      CallService(q, t, o.target.control, o.request, m.now);
      var (u, response) := Called(t, o.target.control, o.request, m.now);
      BackOut(q, u, o, Unavailable, latest, m);
      Follow(q, u, o, response, m.now);
    }
  }

  lemma Dispatch(q: Probe, s: State, own: Ownership, baseline: Setting, watts: Option<int>, now: nat, read: Readback,
                 target: Identity, restore: bool, option: nat, window: (nat, nat))
    requires Works(q, s, own) && (s.mem.own.Some? ==> own == s.mem.own.value) && own.baseline == Baseline(s.mem)
    requires own.baseline.Some? ==> own.baseline == Some(baseline)
    ensures Onto(q, s, Dispatched(s, own, baseline, watts, now, read, target, restore, option, window).state)
  {
    hide Traced, Probe.Held, Prepared, NextEligible, Reserving, Sending;
    Prepare(q, s, now, target);
    var prepared := Prepared(s, now, target);
    if prepared.outcome.Done? && AtMost(NextEligible(prepared.outcome.value, option), now) {
      var t, timing := prepared.state, prepared.outcome.value;
      PreparedOwn(s, now, target);
      var request := Request(t.issued, watts, now, None, restore, read, if restore then Some(baseline.slew) else None);
      var o := Order(own.(baseline := Some(baseline), pending := Some(request)), request, baseline, target, timing,
                     t.mem.own, option);
      Parts(q, t);
      Reserve(q, t, o);
      var reserved := Reserving(t, o);
      if reserved.outcome.Done? { Send(q, reserved.state, o, window); }
    }
  }

  lemma PreparedOwn(s: State, now: nat, target: Identity)
    ensures Prepared(s, now, target).outcome.Done? ==> Prepared(s, now, target).state.mem.own == s.mem.own
  {
    hide Normalized;
  }

  lemma Execute(q: Probe, s: State, watts: Option<int>, now: nat, target: Option<Identity>, option: nat, window: (nat, nat))
    requires Traced(q, s)
    ensures Onto(q, s, Executed(s, watts, now, target, option, window).state)
  {
    hide Traced, Probe.Held, Reconciled, Looked, Dispatched;
    Reconcile(q, s, now, target);
    var t := Reconciled(s, now, target).state;
    Glance(q, t, now, target);
    var (u, feedback) := Looked(t, now, target);
    if feedback.Seen? {
      var read := feedback.read;
      var own := if u.mem.own.Some? then u.mem.own.value else Ownership(target.value, None, None, None, None, false);
      var baseline := if own.baseline.Some? then own.baseline.value else read.setting;
      Parts(q, u);
      Dispatch(q, u, own, baseline, watts, now, read, target.value, false, option, window);
    }
  }

  lemma GiveBack(q: Probe, s: State, own: Ownership, baseline: Setting, now: nat, target: Option<Identity>, option: nat)
    requires Traced(q, s) && s.mem.own == Some(own) && own.baseline == Some(baseline)
    ensures Onto(q, s, GivenBack(s, own, baseline, now, target, option).state)
  {
    hide Traced, Probe.Held, Looked, Dispatched, Persisted;
    Glance(q, s, now, target);
    var (t, feedback) := Looked(s, now, target);
    if feedback.Seen? {
      var read := feedback.read;
      Note(q, t, Dropped(baseline, Matched(read)));
      Own(q, t.With(Dropped(baseline, Matched(read))), None);
      Parts(q, t);
      Dispatch(q, t, own, baseline, baseline.watts, now, read, target.value, true, option, (now, now + READBACK_MAX_AGE));
    }
  }

  lemma Restore(q: Probe, s: State, now: nat, target: Option<Identity>, option: nat)
    requires Traced(q, s)
    ensures Onto(q, s, Restoration(s, now, target, option).state)
  {
    hide Traced, Probe.Held, Reconciled, GivenBack, Persisted;
    if Baseline(s.mem).Some? {
      Parts(q, s);
      var own := s.mem.own.value.(restoring := true);
      Own(q, s, Some(own));
      var t := OwnSaved(s, Some(own)).state;
      Reconcile(q, t, now, target);
      var u := Reconciled(t, now, target).state;
      if Baseline(u.mem).Some? { GiveBack(q, u, u.mem.own.value, Baseline(u.mem).value, now, target, option); }
    }
  }

  lemma Step(q: Probe, s: State, op: Operation)
    requires Traced(q, s)
    ensures Traced(q, Stepped(s, op))
  {
    hide Traced, From, Probe.Held, Reconciled, Executed, Restoration, Resumed, Watching, Persisted;
    if !op.Restarts? { Anyway(q, s, s.(world := op.world)); }
    match op {
      case Reconciles(now, target, world) => Reconcile(q, s.(world := world), now, target);
      case Executes(watts, now, target, option, window, world) =>
        Execute(q, s.(world := world), watts, now, target, option, window);
      case Restores(now, target, option, world) => Restore(q, s.(world := world), now, target, option);
      case Resumes(world) => Resume(q, s.(world := world));
      case Watches(now, shown, world) => Watch(q, s.(world := world), now, shown);
      case Saves(flush, world) =>
        Parts(q, s);
        Persist(q, s.(world := world), s.mem, flush);
      case Restarts => Restart(q, s);
    }
  }

  /** Over every run: a request of before can only be applied if it was pending, and a baseline can only be held, or be
      changed under, if it was held before or a takeover of the run recorded it. */
  lemma {:induction false} RunTraces(q: Probe, s: State, ops: seq<Operation>)
    requires Traced(q, s)
    ensures Traced(q, Ran(s, ops))
  {
    hide Traced, Stepped;
    if |ops| > 0 {
      RunTraces(q, s, ops[..|ops| - 1]);
      Step(q, Ran(s, ops[..|ops| - 1]), ops[|ops| - 1]);
    }
  }
}
