/**
 The export-limit control transaction: persist once, dispatch once, reconcile with later gateway readback. The
 environment is adversarial - saves may be delayed, fail or be cut short by a crash, the gateway answers what it
 likes, other writers change the setting, and the clock may jump. Each method is proved to do what its function in
 `ExportSteps` says, for every environment, and to keep the invariant of store and history.
 */
module ExportLimit {
  import opened Common
  import opened ExportLog
  import opened ExportState
  import opened ExportTiming
  import opened ExportSteps
  import opened ExportKeeps
  import opened ExportDispatch
  import opened ExportRuns

  class ExportLimitControl {
    var mem: Data
    var disk: Data
    var issued: nat
    var clock: nat   // the latest instant seen
    var world: World // what the environment is going to answer
    ghost var log: seq<Event>

    ghost function Snapshot(): State
      reads this
    {
      State(mem, disk, issued, log, clock, world)
    }

    ghost predicate Valid()
      reads this
    {
      Inv(Snapshot())
    }

    constructor (latched: Option<Identity>, now: nat)
      ensures Valid() && Snapshot() == Start(latched, now)
    {
      var own := if latched.None? then None
                 else Some(Ownership(latched.value, None, None, None, Some(ExternalConflict), false));
      mem, disk := Data(own, map[]), Data(own, map[]);
      issued, clock, world := 0, now, World([], [], [], []);
      log := [];
      new;
      StartKeeps(latched, now);
    }

    // -------------------------------------------------------------- the store and the gateway

    method Tick(now: nat)
      modifies this`log, this`clock
      ensures Snapshot() == Ticked(old(Snapshot()), now)
    {
      if now >= clock { clock := now; } else { log := log + [ClockBack]; }
    }

    /** The process ends; a new one starts from the disk. */
    method Restart()
      modifies this`mem, this`log
      ensures Snapshot() == Restarted(old(Snapshot()))
    {
      mem, log := disk, log + [Crash(disk)];
    }

    /** Replace the in-memory copy; it may or may not reach the disk, unless a flush is demanded and succeeds. */
    method Persist(d: Data, flush: bool) returns (r: Outcome<()>)
      modifies this`mem, this`disk, this`log, this`world
      ensures After(Snapshot(), r) == Persisted(old(Snapshot()), d, flush)
      ensures r.Done? && flush ==> disk == d
      ensures !r.Died? ==> mem == d && log == old(log)
    {
      mem := d;
      var fault := world.Fate();
      world := world.AfterSave();
      if flush && fault == Delayed { fault := Written; }
      if fault == Written || fault == FailedWritten || fault == DiedWritten { disk := mem; }
      if fault == DiedUnwritten || fault == DiedWritten {
        Restart();
        return Died;
      }
      r := if fault == Written || fault == Delayed then Done(()) else Raised;
    }

    method SaveOwn(own: Option<Ownership>) returns (r: Outcome<()>)
      modifies this`mem, this`disk, this`log, this`world
      ensures After(Snapshot(), r) == OwnSaved(old(Snapshot()), own)
      ensures !r.Died? ==> mem == old(mem).(own := own) && log == old(log)
    {
      hide Persisted;
      r := Persist(mem.(own := own), false);
    }

    method SaveTiming(control: string, record: Record, flush: bool) returns (r: Outcome<()>)
      modifies this`mem, this`disk, this`log, this`world
      ensures After(Snapshot(), r) == TimingSaved(old(Snapshot()), control, record, flush)
      ensures r.Done? && flush ==> disk == mem
      ensures !r.Died? ==> mem == old(mem).(limits := old(mem).limits[control := record]) && log == old(log)
    {
      hide Persisted;
      r := Persist(mem.(limits := mem.limits[control := record]), flush);
    }

    /** Another part of the program saves the store, as writing an audit entry does. */
    method Audit() returns (r: Outcome<()>)
      modifies this`mem, this`disk, this`log, this`world
      ensures After(Snapshot(), r) == Audited(old(Snapshot()))
      ensures !r.Died? ==> mem == old(mem) && log == old(log)
    {
      hide Persisted;
      r := Persist(mem, false);
    }

    /** Whatever the gateway's sensor shows, seen through the freshness rule. */
    method ReadGateway(now: nat, target: Option<Identity>) returns (f: Feedback)
      modifies this`log, this`world
      ensures (Snapshot(), f) == Looked(old(Snapshot()), now, target)
      ensures f.Seen? ==>
        f.read.at <= now <= f.read.at + READBACK_MAX_AGE && target.Some? && log == old(log) + [Observed(f.read)]
      ensures f.Unusable? ==> log == old(log)
    {
      if target.None? { return Unusable(false); }
      f := Settled(world.Glimpse(), now);
      world := world.AfterLook();
      if f.Seen? { log := log + [Observed(f.read)]; }
    }

    method PrepareCooldown(now: nat, target: Identity) returns (r: Outcome<Record>)
      modifies this`mem, this`disk, this`log, this`world
      ensures After(Snapshot(), r) == Prepared(old(Snapshot()), now, target)
      ensures !r.Died? ==> mem.own == old(mem).own && log == old(log)
      ensures r.Done? ==>
        r.value == Normalized(old(mem), target.control, now)
        && mem == old(mem).(limits := old(mem).limits[target.control := r.value])
    {
      hide Persisted, Normalized;
      var record := Normalized(mem, target.control, now);
      var _ :- SaveTiming(target.control, record, false);
      r := Done(record);
    }

    // -------------------------------------------------------------- reconciliation

    /** Start the separate safety wait of a request overtaken by another writer, once. */
    method SettleExternally(p: Request, now: nat, target: Identity) returns (r: Outcome<()>)
      modifies this`mem, this`disk, this`log, this`world
      ensures After(Snapshot(), r) == SettledExternally(old(Snapshot()), p, now, target)
      ensures !r.Died? ==> mem.own == old(mem).own && log == old(log)
      ensures r.Done? ==>
        target.control in mem.limits && mem.limits[target.control].settlementFor == Some(p.sentAt)
    {
      hide Persisted, Normalized;
      var record :- PrepareCooldown(now, target);
      if record.settlementFor != Some(p.sentAt) {
        r := SaveTiming(target.control, record.(settledAt := Some(now), settlementFor := Some(p.sentAt)), true);
        return r;
      }
      r := Done(());
    }

    /** Give up ownership to another writer: the pending request, if any, is superseded, never confirmed, after its own
        safety wait has been started; the new setting is expected. */
    method Adopt(own: Ownership, read: Readback, now: nat, target: Identity, ghost reference: Setting)
      returns (r: Outcome<()>)
      modifies this`mem, this`disk, this`log, this`world
      ensures After(Snapshot(), r) == GivenUp(old(Snapshot()), own, read, now, target, reference)
      ensures r.Done? ==> mem.own == Some(Adopted(own, target, read.setting))
      ensures r.Done? ==> log == Abandoned(old(log), own, read, reference)
      ensures r.Done? && own.pending.Some? ==>
        |log| > |old(log)| && log[|old(log)|] == Superseded(own.pending.value, read)
      ensures r.Done? && own.pending.Some? && own.pending.value.notBefore.Some? ==>
        && target.control in mem.limits
        && mem.limits[target.control].settlementFor == Some(own.pending.value.sentAt)
      ensures r.Done? && (own.pending.Some? ==> own.pending.value.notBefore.None?) ==> mem.limits == old(mem).limits
    {
      hide Persisted, SettledExternally;
      if own.pending.Some? && own.pending.value.notBefore.Some? {
        var _ :- SettleExternally(own.pending.value, now, target);
      }
      if own.pending.Some? { log := log + [Superseded(own.pending.value, read)]; }
      if own.baseline.Some? { log := log + [Dropped(own.baseline.value, External(read, reference))]; }
      log := log + [Watched(read.setting)];
      assert log == Abandoned(old(log), own, read, reference);
      r := SaveOwn(Some(Adopted(own, target, read.setting)));
    }

    /** After a crash or a clock jump, only reads from now on can confirm the pending request. */
    method RefreshPending(own: Ownership, now: nat) returns (r: Outcome<Ownership>)
      modifies this`mem, this`disk, this`log, this`world
      ensures After(Snapshot(), r) == Refreshed(old(Snapshot()), own, now)
      ensures r.Done? ==> log == old(log) && r.value == own.(pending := r.value.pending)
      ensures r.Done? ==>
        r.value.pending == if own.pending.Some? then Some(Reread(own.pending.value, now)) else None
    {
      hide Persisted;
      var state := own;
      if state.pending.Some? && state.pending.value.sentAt > now {
        state := state.(pending := Some(state.pending.value.(sentAt := now)));
        var _ :- SaveOwn(Some(state));
      }
      if state.pending.Some? && (state.pending.value.notBefore.None? || state.pending.value.notBefore.value > now) {
        state := state.(pending := Some(state.pending.value.(notBefore := Some(now))));
        var _ :- SaveOwn(Some(state));
      }
      r := Done(state);
    }

    /** Pause once for a request that was never confirmed. */
    method PauseUnconfirmed(own: Ownership) returns (r: Outcome<()>)
      modifies this`mem, this`disk, this`log, this`world
      ensures After(Snapshot(), r) == Unconfirming(old(Snapshot()), own)
    {
      hide Persisted;
      if own.pause != Some(Unconfirmed) {
        var _ :- SaveOwn(Some(own.(pause := Some(Unconfirmed))));
        var _ :- Audit();
      }
      r := Done(());
    }

    /** The wait after a confirmation starts at its first observation, once per request. */
    method StampConfirmation(p: Request, now: nat, target: Identity) returns (r: Outcome<()>)
      modifies this`mem, this`disk, this`log, this`world
      ensures After(Snapshot(), r) == Stamped(old(Snapshot()), p, now, target)
      ensures !r.Died? ==> mem.own == old(mem).own && log == old(log)
      ensures r.Done? ==>
        var record := Normalized(old(mem), target.control, now);
        mem.limits == old(mem).limits[target.control :=
          if record.confirmationFor == Some(p.sentAt) then record
          else record.(confirmedAt := Some(now), confirmationFor := Some(p.sentAt))]
    {
      hide Persisted, Normalized;
      var record :- PrepareCooldown(now, target);
      if record.confirmationFor != Some(p.sentAt) {
        r := SaveTiming(target.control, record.(confirmedAt := Some(now), confirmationFor := Some(p.sentAt)), true);
        return r;
      }
      r := Done(());
    }

    /** The matched command is confirmed: anchor the wait, audit, and only then forget the request. */
    method ConfirmPending(own: Ownership, p: Request, read: Readback, now: nat, target: Identity) returns (r: Outcome<()>)
      modifies this`mem, this`disk, this`log, this`world
      ensures After(Snapshot(), r) == Settling(old(Snapshot()), own, p, read, now, target)
      ensures r.Done? ==>
        if p.restore then
          && mem.own.None?
          && log == old(log) + [Applied(p, read)] + [Confirmed(p, read)] + [Dropped(read.setting, Matched(read))]
        else
          && mem.own == Some(own.(pending := None, expected := Some(read.setting)))
          && log == old(log) + [Applied(p, read)] + [Confirmed(p, read)]
    {
      hide Persisted, Stamped;
      var _ :- StampConfirmation(p, now, target);
      log := log + [Applied(p, read)];
      var _ :- Audit();
      log := log + [Confirmed(p, read)];
      if p.restore {
        log := log + [Dropped(read.setting, Matched(read))];
        r := SaveOwn(None);
      } else {
        r := SaveOwn(Some(own.(pending := None, expected := Some(read.setting))));
      }
    }

    /** Resolve the pending request against a usable readback of the controlled entity. */
    method ReconcilePending(own: Ownership, p: Request, read: Readback, now: nat, target: Identity)
      returns (r: Outcome<Option<Reason>>)
      modifies this`mem, this`disk, this`log, this`world
      ensures After(Snapshot(), r) == PendingReconciled(old(Snapshot()), own, p, read, now, target)
    {
      hide Persisted, GivenUp, Settling, Unconfirming;
      if ReadMatches(p, read) {
        if !p.restore && read.setting.slew != p.seen.setting.slew {
          var _ :- Audit();
          var _ :- Adopt(own, read, now, target, p.seen.setting);
          return Done(PauseOf(mem));
        }
        var _ :- ConfirmPending(own, p, read, now, target);
        return Done(PauseOf(mem));
      }
      if now - p.sentAt >= READBACK_MAX_AGE {
        var _ :- PauseUnconfirmed(own);
        return Done(Some(Unconfirmed));
      }
      r := Done(Some(ChangePending));
    }

    /** Reconcile with a usable readback of this control. */
    method ReconcileRead(own: Ownership, read: Readback, now: nat, target: Identity) returns (r: Outcome<Option<Reason>>)
      modifies this`mem, this`disk, this`log, this`world
      ensures After(Snapshot(), r) == ReadReconciled(old(Snapshot()), own, read, now, target)
    {
      hide GivenUp, PendingReconciled;
      if own.pause == Some(ExternalConflict) && own.pending.None? {
        if read.pending { return Done(Some(ChangePending)); }
        var _ :- Adopt(own, read, now, target, read.setting);
        return Done(None);
      }
      if own.pending.Some? {
        r := ReconcilePending(own, own.pending.value, read, now, target);
        return r;
      }
      if read.pending { return Done(Some(ChangePending)); }
      if own.expected.Some? && own.expected.value != read.setting {
        var _ :- Adopt(own, read, now, target, own.expected.value);
        return Done(PauseOf(mem));
      }
      r := Done(own.pause);
    }

    method ReconcileOwn(own: Ownership, now: nat, target: Option<Identity>) returns (r: Outcome<Option<Reason>>)
      modifies this`mem, this`disk, this`log, this`world
      ensures After(Snapshot(), r) == OwnReconciled(old(Snapshot()), own, now, target)
    {
      hide Persisted, Refreshed, Looked, ReadReconciled, Unconfirming;
      var state :- RefreshPending(own, now);
      var feedback := ReadGateway(now, target);
      if feedback.Unusable? {
        if state.pending.Some? && now - state.pending.value.sentAt >= READBACK_MAX_AGE {
          var _ :- PauseUnconfirmed(state);
          return Done(Some(Unconfirmed));
        }
        if feedback.unsupported && state.pending.None? {
          var _ :- SaveOwn(Some(state.(pause := Some(Unsupported))));
          return Done(Some(Unsupported));
        }
        return Done(Some(IssueOf(feedback.unsupported)));
      }
      if state.identity.control != target.value.control { return Done(Some(TargetChanged)); }
      if state.identity != target.value {
        state := state.(identity := target.value);
        var _ :- SaveOwn(Some(state));
      }
      r := ReconcileRead(state, feedback.read, now, target.value);
    }

    /** Resolve durable commands and reconcile external changes. Nothing to report means nothing is pending; a baseline
        is kept, or it has ended on what the gateway has just shown. */
    method Reconcile(now: nat, target: Option<Identity>) returns (r: Outcome<Option<Reason>>)
      requires Valid()
      modifies this`mem, this`disk, this`log, this`clock, this`world
      ensures After(Snapshot(), r) == Reconciled(old(Snapshot()), now, target)
      ensures Valid() && CallCount(log) == CallCount(old(log))
      ensures r == Done(None) ==> PendingOf(mem).None?
      ensures r.Done? && old(mem).own.Some? ==> Accounts(old(mem).own.value, Snapshot())
      ensures r == Done(None) && old(mem).own.Some? ==> target.Some? && Clear(Snapshot(), target.value)
    {
      hide Inv, OwnReconciled, Prepared, CallCount, Accounts, Clear;
      ReconciledKeeps(Snapshot(), now, target);
      Tick(now);
      if target.Some? { var _ :- PrepareCooldown(now, target.value); }
      if mem.own.None? { return Done(None); }
      r := ReconcileOwn(mem.own.value, now, target);
    }

    /** A user resumes control: with a command still uncertain nothing changes, else the pause goes, and so does
        ownership that holds no baseline. */
    method Resume() returns (r: Outcome<()>)
      requires Valid()
      modifies this`mem, this`disk, this`log, this`world
      ensures After(Snapshot(), r) == Resumed(old(Snapshot()))
      ensures Valid()
      ensures PendingOf(old(mem)).Some? ==> r.Done? && mem == old(mem) && disk == old(disk) && log == old(log)
      ensures r.Done? && PendingOf(old(mem)).None? ==>
        mem.own == if Baseline(old(mem)).Some? then Some(old(mem).own.value.(pause := None)) else None
    {
      hide Inv, Persisted;
      ResumedKeeps(Snapshot());
      if mem.own.None? {
        r := SaveOwn(None);
        return r;
      }
      if PendingOf(mem).Some? { return Done(()); }
      var own := mem.own.value.(pause := None);
      r := SaveOwn(if own.baseline.Some? then Some(own) else None);
    }

    /** While nothing is owned, remember what the gateway shows, so that a later external change can be seen, or that
        it cannot be controlled. */
    method Watch(now: nat, target: Identity) returns (r: Outcome<()>)
      requires Valid()
      modifies this`mem, this`disk, this`log, this`world
      ensures After(Snapshot(), r) == Watching(old(Snapshot()), now, target)
      ensures Valid()
      ensures r.Done? && old(mem).own.Some? ==> mem == old(mem)
    {
      hide Inv, Persisted, Looked;
      WatchingKeeps(Snapshot(), now, target);
      var feedback := ReadGateway(now, Some(target));
      if mem.own.Some? { return Done(()); }
      if feedback.Unusable? {
        if !feedback.unsupported { return Done(()); }
        r := SaveOwn(Some(Ownership(target, None, None, None, Some(Unsupported), false)));
      } else if feedback.read.pending {
        r := Done(());
      } else {
        log := log + [Watched(feedback.read.setting)];
        r := SaveOwn(Some(Ownership(target, Some(feedback.read.setting), None, None, None, false)));
      }
    }

    // -------------------------------------------------------------- dispatch

    /** Back to the ownership before the reservation: a takeover of its own is withdrawn. */
    method RollBack(o: Order) returns (r: Outcome<()>)
      modifies this`mem, this`disk, this`log, this`world
      ensures After(Snapshot(), r) == Withdrawn(old(Snapshot()), o.previous, o.baseline, o.request.ticket)
      ensures !r.Died? ==> mem == old(mem).(own := o.previous)
    {
      hide Persisted;
      if o.previous.None? || o.previous.value.baseline.None? {
        log := log + [Dropped(o.baseline, Unsent(o.request.ticket))];
      }
      r := SaveOwn(o.previous);
    }

    /** Make the reservation durable; any failure before the service boundary takes it all back. */
    method Reserve(o: Order) returns (r: Outcome<()>)
      modifies this`mem, this`disk, this`log, this`issued, this`world
      ensures After(Snapshot(), r) == Reserving(old(Snapshot()), o)
      ensures r.Done? ==>
        && disk == mem
        && mem == old(mem).(own := Some(o.own), limits := old(mem).limits[o.target.control := o.Reservation()])
      ensures r.Raised? ==> mem.own == o.previous
    {
      hide Persisted, Withdrawn;
      issued, log := issued + 1, TakenOver(log, mem, o.request, o.baseline);
      var saved := SaveReservation(o);
      if saved.Raised? {
        var _ :- RollBack(o);
        var put := SaveTiming(o.target.control, o.timing, false);
        return if put.Died? then Died else Raised;
      }
      r := saved;
    }

    method SaveReservation(o: Order) returns (r: Outcome<()>)
      modifies this`mem, this`disk, this`log, this`world
      ensures After(Snapshot(), r) == ReservationSaved(old(Snapshot()), o)
      ensures r.Done? ==>
        && disk == mem
        && mem == old(mem).(own := Some(o.own), limits := old(mem).limits[o.target.control := o.Reservation()])
    {
      hide Persisted;
      var _ :- SaveOwn(Some(o.own));
      r := SaveTiming(o.target.control, o.Reservation(), true);
    }

    /** The last look before the service boundary. */
    method CheckDispatch(o: Order, window: (nat, nat)) returns (blocked: Option<Reason>, latest: Feedback, m: Moment)
      modifies this`log, this`clock, this`world
      ensures var s := old(Snapshot());
        && m == s.Next(o.target)
        && (Snapshot(), latest) == Looked(Ticked(s.(world := s.world.AfterMoment()), m.now), m.now, m.target)
        && blocked == Blocks(o, m, latest, window)
      ensures blocked.None? ==> Unblocked(o, m, latest, window)
      ensures blocked == Some(ExternalChanged) ==> latest.Seen? && latest.read.setting != o.request.seen.setting
    {
      hide Looked, NextEligible;
      m := if |world.moments| > 0 then world.moments[0] else Moment(clock, Some(o.target), false);
      world := world.AfterMoment();
      Tick(m.now);
      latest := ReadGateway(m.now, m.target);
      blocked := None;
      if latest.Unusable? {
        blocked := Some(IssueOf(latest.unsupported));
      } else if !AtMost(NextEligible(o.timing, o.option), m.now) {
        blocked := Some(RateLimited);
      } else if m.target.value.control != o.target.control {
        blocked := Some(TargetChanged);
      } else if latest.read.pending {
        blocked := Some(ChangePending);
      } else if latest.read.setting != o.request.seen.setting {
        blocked := Some(ExternalChanged);
      }
      if !o.request.restore {
        if !(window.0 <= m.now < window.1) {
          blocked := Some(TariffExpired);
        } else if blocked.None? && m.veto {
          blocked := Some(Vetoed);
        }
      }
    }

    /** A command that was not sent: timing and ownership go back, unless somebody else has changed the setting. */
    method BackOut(o: Order, blocked: Reason, latest: Feedback, m: Moment) returns (r: Outcome<()>)
      modifies this`mem, this`disk, this`log, this`world
      ensures After(Snapshot(), r) == BackedOut(old(Snapshot()), o, blocked, latest, m)
      ensures r.Done? && blocked != ExternalChanged ==>
        mem == old(mem).(own := o.previous, limits := old(mem).limits[o.target.control := o.timing])
    {
      hide Persisted, GivenUp;
      var _ :- SaveTiming(o.target.control, o.timing, false);
      if blocked == ExternalChanged && latest.Seen? && m.target.Some? {
        var _ :- Adopt(o.own, latest.read, m.now, m.target.value, o.request.seen.setting);
      } else {
        var _ :- RollBack(o);
      }
      if o.request.restore { var _ :- Audit(); }
      r := Done(());
    }

    /** The service call, made with the disk as it is: the environment records it unless it provably never left, records
        a refusal, and answers. */
    method CallService(control: string, request: Request, now: nat) returns (response: Response)
      modifies this`mem, this`log, this`world
      ensures (Snapshot(), response) == Called(old(Snapshot()), control, request, now)
      ensures disk == old(disk) && (Reached(response) ==> mem == old(mem))
      ensures Reached(response) ==>
        log == old(log) + [Call(control, now, request, disk)]
               + (if response.Invalid? then [Declined(request.ticket)] else [])
    {
      response, world := world.Answer(), world.AfterAnswer();
      if response.TargetUnavailable? { return; }
      if response.DiedBefore? {
        Restart();
        return;
      }
      log := log + [Call(control, now, request, disk)];
      if response.Invalid? { log := log + [Declined(request.ticket)]; }
      if response.DiedAfter? { Restart(); }
    }

    /** A refusal by the service: the attempt keeps its reservation, nothing stays uncertain, control pauses. */
    method Refuse(o: Order) returns (r: Outcome<Result>)
      modifies this`mem, this`disk, this`log, this`clock, this`world
      ensures After(Snapshot(), r) == Refusing(old(Snapshot()), o)
      ensures r.Done? ==> mem.own == Some(o.own.(pending := None, pause := Some(ServiceRejected)))
    {
      hide Persisted;
      var m := if |world.moments| > 0 then world.moments[0] else Moment(clock, Some(o.target), false);
      world := world.AfterMoment();
      Tick(m.now);
      var _ :- SaveTiming(o.target.control, o.Reservation().(attemptedAt := Some(m.now), checkedAt := m.now), true);
      log := log + [Refused(o.request.ticket)];
      var _ :- SaveOwn(Some(o.own.(pending := None, pause := Some(ServiceRejected))));
      if o.request.restore { var _ :- Audit(); }
      r := Done(Result(Errored, Some(ServiceRejected), true));
    }

    /** Keep the uncertain command with the earliest read that can confirm it. */
    method KeepPending(o: Order, now: nat) returns (r: Outcome<()>)
      modifies this`mem, this`disk, this`log, this`world
      ensures After(Snapshot(), r) == Kept(old(Snapshot()), o, now)
      ensures r.Done? ==> PendingOf(mem) == Some(o.request.(notBefore := Some(now))) && log == old(log)
    {
      hide Persisted;
      var _ :- SaveOwn(Some(o.own.(pending := Some(o.request.(notBefore := Some(now))))));
      r := Audit();
    }

    /** What follows a command that did reach the service: a refusal pauses; anything else stays pending, with an earliest
        read, until evidence resolves it. */
    method AfterCall(o: Order, response: Response, now: nat) returns (r: Outcome<Result>)
      requires Sent(Snapshot(), o) && ExportKeeps.Current(Snapshot(), now) && Reached(response)
      requires response.Invalid? ==> Declined(o.request.ticket) in log
      modifies this`mem, this`disk, this`log, this`clock, this`world
      ensures After(Snapshot(), r) == Followed(old(Snapshot()), o, response, now)
      ensures Valid() && CallCount(log) == CallCount(old(log))
      ensures response.Cancelled? ==> !r.Done?
      ensures response.Cancelled? && r.Raised? ==> PendingOf(mem) == Some(o.request.(notBefore := Some(now)))
      ensures r.Done? && response.Invalid? ==>
        && r.value == Result(Errored, Some(ServiceRejected), true)
        && mem.own == Some(o.own.(pending := None, pause := Some(ServiceRejected)))
      ensures r.Done? && !response.Invalid? ==> r.value == Result(Pending, Some(ChangePending), true)
      ensures forall j: nat | j < |log| && log[j].Call? && log[j].request.ticket == o.request.ticket ::
        || (PendingIs(mem, o.request.ticket) && PendingIs(disk, o.request.ticket))
        || exists k | j < k < |log| :: Resolves(log[k], o.request.ticket) && Evidence(log, j, k)
    {
      hide Inv, Sent, CallCount, Accounts, Refusing, Kept, Reconciled, Evidence;
      FollowedKeeps(Snapshot(), o, response, now);
      ghost var end := Followed(Snapshot(), o, response, now).state;
      Accounted(end, o.request.ticket);
      if response.Invalid? {
        r := Refuse(o);
        return r;
      }
      var _ :- KeepPending(o, now);
      if response.Cancelled? { return Raised; }
      var m := if |world.moments| > 0 then world.moments[0] else Moment(clock, Some(o.target), false);
      world := world.AfterMoment();
      KeptKeeps(old(Snapshot()), o, now);
      Unanswered(Kept(old(Snapshot()), o, now).state, Snapshot());
      var _ :- Reconcile(m.now, m.target);
      r := Done(Result(Pending, Some(ChangePending), true));
    }

    /** Cross the service boundary at most once with a durable reservation. */
    method Send(o: Order, window: (nat, nat)) returns (r: Outcome<Result>)
      requires Holds(Snapshot(), o) && OnDisk(Snapshot(), o)
      modifies this`mem, this`disk, this`log, this`clock, this`world
      ensures After(Snapshot(), r) == Sending(old(Snapshot()), o, window)
      ensures SendsOnce(old(Snapshot()), o, window, After(Snapshot(), r))
    {
      hide Inv, Holds, OnDisk, WellOrdered, Unblocked, SendsOnce, Looked, Ticked, Blocks, BackedOut, Called;
      hide Followed, Sent;
      SendingKeeps(Snapshot(), o, window);
      ghost var s := Snapshot();
      ChecksKeep(s, o, s.Next(o.target));
      var blocked, latest, m := CheckDispatch(o, window);
      if blocked.Some? {
        var _ :- BackOut(o, blocked.value, latest, m);
        return Done(Result(Rejected, blocked, false));
      }
      ghost var t := Snapshot();
      var response := CallService(o.target.control, o.request, m.now);
      match response {
        case DiedBefore | DiedAfter => return Died;
        case TargetUnavailable =>
          var _ :- BackOut(o, Unavailable, latest, m);
          return Done(Result(Rejected, Some(Unavailable), false));
        case Accepted | Cancelled | Invalid | Failed =>
          CallReaches(t, o, m, latest, window);
          r := AfterCall(o, response, m.now);
      }
    }

    // -------------------------------------------------------------- the operations

    /** Send one command for `own`, which holds the baseline kept so far or, on a takeover, the setting just read. */
    method Dispatch(own: Ownership, baseline: Setting, watts: Option<int>, now: nat, read: Readback, target: Identity,
                    restore: bool, option: nat, window: (nat, nat))
      returns (r: Outcome<Result>)
      requires Valid() && ExportKeeps.Current(Snapshot(), now) && FreshShown(log) == Some(read)
      requires Fits(Snapshot(), own, baseline, read, target, restore) && (restore ==> watts == baseline.watts)
      modifies this
      ensures After(Snapshot(), r)
           == Dispatched(old(Snapshot()), own, baseline, watts, now, read, target, restore, option, window)
      ensures Dispatches(old(Snapshot()), baseline, target, now, After(Snapshot(), r))
    {
      hide Inv, Normalized, NextEligible, Prepared, Reserving, Sending, Opens, Holds, OnDisk, Fits, Dispatches;
      hide FreshShown;
      hide SendsOnce, Unblocked;
      ghost var s := Snapshot();
      DispatchedKeeps(s, own, baseline, watts, now, read, target, restore, option, window);
      PreparedKeeps(s, now, target);
      var timing :- PrepareCooldown(now, target);
      if !AtMost(NextEligible(timing, option), now) { return Done(Result(Rejected, Some(RateLimited), false)); }
      var request := Request(issued, watts, now, None, restore, read, if restore then Some(baseline.slew) else None);
      var o := Order(own.(baseline := Some(baseline), pending := Some(request)), request, baseline, target, timing,
                     mem.own, option);
      OrderOpens(s, Snapshot(), own, baseline, watts, now, read, target, restore, option, timing);
      ReservingKeeps(Snapshot(), o, now);
      var _ :- Reserve(o);
      Durably(Snapshot(), o);
      r := Send(o, window);
    }

    /** Act on a tariff transition without waiting for confirmation: only on a reconciled control that is not being
        restored, and with at most one call, reported exactly. */
    method Execute(watts: Option<int>, now: nat, target: Option<Identity>, option: nat, window: (nat, nat))
      returns (r: Outcome<Result>)
      requires Valid()
      modifies this
      ensures After(Snapshot(), r) == Executed(old(Snapshot()), watts, now, target, option, window)
      ensures Valid() && CallCount(log) <= CallCount(old(log)) + 1
      ensures r.Done? ==> CallCount(log) == CallCount(old(log)) + (if r.value.sent then 1 else 0)
      ensures CallCount(log) > CallCount(old(log)) ==>
        var t := Reconciled(old(Snapshot()), now, target);
        && t.outcome == Done(None) && target.Some? && Clear(t.state, target.value)
        && (t.state.mem.own.Some? ==> !t.state.mem.own.value.restoring)
      ensures r.Done? && r.value.sent ==> r.value.verdict == Pending || r.value.verdict == Errored
      ensures r.Done? && !r.value.sent ==>
        r.value.verdict == Rejected || r.value == Result(Skipped, Some(AlreadyDesired), false)
    {
      hide Inv, CallCount, FreshShown, Reconciled, Looked, Dispatched, Accounts, Dispatches, Booked, Outstanding;
      hide CallTime;
      hide LastCall, BaselineAfter, Steady, EndedOnMatch;
      ExecutedKeeps(Snapshot(), watts, now, target, option, window);
      ReconciledKeeps(Snapshot(), now, target);
      var issue :- Reconcile(now, target);
      if issue.Some? { return Done(Result(Rejected, issue, false)); }
      ghost var t := Snapshot();
      LookKeeps(t, now, target);
      var feedback := ReadGateway(now, target);
      if feedback.Unusable? { return Done(Result(Rejected, Some(IssueOf(feedback.unsupported)), false)); }
      var read := feedback.read;
      if read.pending { return Done(Result(Rejected, Some(ChangePending), false)); }
      if mem.own.Some? && mem.own.value.restoring { return Done(Result(Rejected, Some(Restoring), false)); }
      if read.setting.watts == watts { return Done(Result(Skipped, Some(AlreadyDesired), false)); }
      var own := if mem.own.Some? then mem.own.value else Ownership(target.value, None, None, None, None, false);
      var baseline := if own.baseline.Some? then own.baseline.value else read.setting;
      StillCurrent(t, Snapshot(), now);
      FitsIdle(Snapshot(), own, baseline, read, target.value);
      r := Dispatch(own, baseline, watts, now, read, target.value, false, option, window);
    }

    /** Give the setting found at takeover back; the baseline stays until the gateway shows it. */
    method Restore(now: nat, target: Option<Identity>, option: nat) returns (r: Outcome<Result>)
      requires Valid()
      modifies this
      ensures After(Snapshot(), r) == Restoration(old(Snapshot()), now, target, option)
      ensures Valid() && CallCount(log) <= CallCount(old(log)) + 1
      ensures r.Done? ==> CallCount(log) == CallCount(old(log)) + (if r.value.sent then 1 else 0)
      ensures r.Done? && r.value.verdict == Restored ==>
        mem.own.None? && Baseline(old(mem)).Some? && EndedOnMatch(log, Baseline(old(mem)))
      ensures Baseline(old(mem)).None? ==>
        r == Done(Result(Skipped, Some(NotOwned), false)) && mem == old(mem) && log == old(log)
    {
      hide Inv, CallCount, FreshShown, Reconciled, GivenBack, Accounts, Clear, EndedOnMatch, EndedByOther;
      hide Persisted, Steady;
      RestorationKeeps(Snapshot(), now, target, option);
      if Baseline(mem).None? { return Done(Result(Skipped, Some(NotOwned), false)); }
      ghost var s := Snapshot();
      var own := mem.own.value.(restoring := true);
      Cosmetic(s, own);
      PersistKeeps(s, mem.(own := Some(own)), false);
      var _ :- SaveOwn(Some(own));
      ReconciledKeeps(Snapshot(), now, target);
      StaysRestoring(Snapshot(), own, now, target);
      var issue :- Reconcile(now, target);
      if mem.own.None? { return Done(Result(Restored, Some(BaselineRestored), false)); }
      if issue.Some? { return Done(Result(Pending, issue, false)); }
      if Baseline(mem).None? { return Done(Result(Skipped, Some(NotOwned), false)); }
      r := GiveBack(mem.own.value, mem.own.value.baseline.value, now, target, option);
    }

    /** Restore the held baseline of a reconciled control. */
    method GiveBack(own: Ownership, baseline: Setting, now: nat, target: Option<Identity>, option: nat)
      returns (r: Outcome<Result>)
      requires Valid() && ExportKeeps.Current(Snapshot(), now) && mem.own == Some(own) && own.baseline == Some(baseline)
      requires own.restoring && target.Some? && Clear(Snapshot(), target.value)
      modifies this
      ensures After(Snapshot(), r) == GivenBack(old(Snapshot()), own, baseline, now, target, option)
      ensures ReportsCalls(old(Snapshot()), After(Snapshot(), r))
      ensures r.Done? && r.value.verdict == Restored ==> mem.own.None? && EndedOnMatch(log, Some(baseline))
    {
      hide Inv, CallCount, FreshShown, Looked, Dispatched, Dispatches, Booked, Outstanding, CallTime, LastCall;
      hide BaselineAfter;
      hide Steady, EndedOnMatch, Persisted, ReportsCalls;
      GivenBackKeeps(Snapshot(), own, baseline, now, target, option);
      ghost var s := Snapshot();
      LookKeeps(s, now, target);
      var feedback := ReadGateway(now, target);
      if feedback.Unusable? { return Done(Result(Pending, Some(IssueOf(feedback.unsupported)), false)); }
      var read := feedback.read;
      if read.setting == baseline {
        log := log + [Dropped(baseline, Matched(read))];
        var _ :- SaveOwn(None);
        return Done(Result(Restored, Some(BaselineRestored), false));
      }
      StillCurrent(s, Snapshot(), now);
      FitsRestoring(Snapshot(), own, baseline, read, target.value);
      var sent :- Dispatch(own, baseline, baseline.watts, now, read, target.value, true, option,
                           (now, now + READBACK_MAX_AGE));
      if sent.verdict == Rejected { return Done(sent.(verdict := Pending)); }
      if sent.verdict == Pending && mem.own.None? {
        return Done(sent.(verdict := Restored, reason := Some(BaselineRestored)));
      }
      r := Done(sent);
    }
  }

  lemma CallReaches(s: State, o: Order, m: Moment, latest: Feedback, window: (nat, nat))
    requires Holds(s, o) && ExportKeeps.Current(s, m.now) && OnDisk(s, o) && Unblocked(o, m, latest, window)
    ensures var (t, response) := Called(s, o.target.control, o.request, m.now);
      Reached(response) ==>
        && Sent(t, o) && ExportKeeps.Current(t, m.now) && (response.Invalid? ==> Declined(o.request.ticket) in t.log)
  {
    hide Inv, Holds, WellOrdered, Unblocked, CallCount, CallTime, Called;
    CallKeeps(s, o, m, latest, window);
    HoldsInv(s, o);
  }

  lemma Durably(s: State, o: Order)
    requires Inv(s) && o.request.ticket < s.issued && s.disk == s.mem && o.target.control in s.mem.limits
    requires s.mem.limits[o.target.control] == o.Reservation()
    ensures OnDisk(s, o)
  {}

  lemma FitsIdle(s: State, own: Ownership, baseline: Setting, read: Readback, target: Identity)
    requires PendingOf(s.mem).None?
    requires s.mem.own.Some? ==> s.mem.own.value.identity == target && s.mem.own.value.pause.None?
    requires s.mem.own.Some? ==> !s.mem.own.value.restoring
    requires own == if s.mem.own.Some? then s.mem.own.value else Ownership(target, None, None, None, None, false)
    requires baseline == if own.baseline.Some? then own.baseline.value else read.setting
    ensures Fits(s, own, baseline, read, target, false)
  {}

  lemma FitsRestoring(s: State, own: Ownership, baseline: Setting, read: Readback, target: Identity)
    requires Clear(s, target) && s.mem.own == Some(own) && own.baseline == Some(baseline) && own.restoring
    ensures Fits(s, own, baseline, read, target, true)
  {}

  lemma StaysRestoring(s: State, own: Ownership, now: nat, target: Option<Identity>)
    requires Inv(s) && s.mem.own == Some(own) && own.restoring
    ensures var r := Reconciled(s, now, target);
      r.outcome.Done? && Baseline(r.state.mem).Some? ==> r.state.mem.own.value.restoring
  {
    hide Inv, Reconciled, EndedOnMatch, EndedByOther, Clear;
    ReconciledKeeps(s, now, target);
  }

  /** Any sequence of operations, in any environment, is a run of the functions, and leaves a history to which the
      theorems apply. */
  method Run(latched: Option<Identity>, now: nat, script: seq<Operation>) returns (c: ExportLimitControl)
    ensures fresh(c) && c.Valid() && GoodLog(c.log) && CallCount(c.log) <= |script|
    ensures c.Snapshot() == Ran(Start(latched, now), script)
  {
    hide Inv, Ran, CallCount, Reconciled, Executed, Restoration, Resumed, Watching, Persisted, Accounts, Clear;
    hide EndedOnMatch;
    c := new ExportLimitControl(latched, now);
    ghost var start := Start(latched, now);
    StartKeeps(latched, now);
    RanNothing(start);
    for i := 0 to |script|
      invariant fresh(c) && c.Valid() && c.Snapshot() == Ran(start, script[..i])
    {
      RanNext(start, script, i);
      StepKeeps(c.Snapshot(), script[i]);
      if !script[i].Restarts? {
        Unanswered(c.Snapshot(), c.Snapshot().(world := script[i].world));
        c.world := script[i].world;
      }
      match script[i] {
        case Reconciles(at, target, _) => var _ := c.Reconcile(at, target);
        case Executes(watts, at, target, option, window, _) => var _ := c.Execute(watts, at, target, option, window);
        case Restores(at, target, option, _) => var _ := c.Restore(at, target, option);
        case Resumes(_) => var _ := c.Resume();
        case Watches(at, shown, _) => var _ := c.Watch(at, shown);
        case Saves(flush, _) => var _ := c.Persist(c.mem, flush);
        case Restarts => c.Restart();
      }
    }
    assert script[..|script|] == script;
    RunKeeps(start, script);
    GoodOf(c.Snapshot());
    NoCalls(start);
  }

  lemma NoCalls(s: State)
    requires s.log == []
    ensures CallCount(s.log) == 0
  {}
}
