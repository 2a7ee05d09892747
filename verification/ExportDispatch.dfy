/** Dispatch keeps the invariant of store and history: a command crosses the service boundary at most once, only with
    everything on disk that is needed to answer for it, and what was not sent is taken back. */
module ExportDispatch {
  import opened Common
  import opened ExportLog
  import opened ExportState
  import opened ExportTiming
  import opened ExportSteps
  import opened ExportKeeps

  /** Ownership that a reservation can be taken back to. */
  ghost predicate Revertible(previous: Option<Ownership>, own: Ownership) {
    previous.Some? ==>
      && previous.value.pending.None? && previous.value.expected == own.expected
      && (previous.value.baseline.Some? ==>
            previous.value.baseline == own.baseline && previous.value.pause != Some(ExternalConflict))
  }

  /** An order as it is made out: its request is new, its purpose is that of the record, and its baseline is the one
      held or, on a takeover, the setting just shown. */
  ghost predicate WellOrdered(o: Order) {
    && o.own.pending == Some(o.request) && o.own.baseline == Some(o.baseline) && o.own.identity == o.target
    && o.own.pause != Some(ExternalConflict) && o.request.notBefore.None? && o.own.restoring == o.request.restore
    && WellMade(o.request, o.baseline) && Revertible(o.previous, o.own)
    && (o.previous.None? || o.previous.value.baseline.None? ==> o.request.seen.setting == o.baseline)
  }

  predicate Held(o: Order) { o.previous.Some? && o.previous.value.baseline.Some? }

  /** What the history knows of an order that is reserved and not yet called. */
  ghost predicate Waiting(log: seq<Event>, o: Order) {
    && Booked(log).Some? && Booked(log).value.request == o.request && (Booked(log).value.takeover <==> !Held(o))
    && Outstanding(log) == {} && CallTime(log, o.request.ticket).None?
  }

  ghost predicate TimingHolds(s: State, o: Order) {
    Steady(s.log) ==>
      && TimingOk(o.timing, o.target.control, s.log, s.clock)
      && o.request.sentAt <= s.clock && Unclaimed(o.timing, o.request.sentAt)
  }

  /** A reserved, not yet dispatched command. */
  ghost predicate Holds(s: State, o: Order) {
    Inv(s) && s.mem.own == Some(o.own) && WellOrdered(o) && Waiting(s.log, o) && TimingHolds(s, o)
  }

  lemma PendingIsOrdered(s: State, o: Order)
    requires s.mem.own == Some(o.own) && WellOrdered(o)
    ensures PendingOf(s.mem) == Some(o.request) && Baseline(s.mem) == Some(o.baseline)
    ensures o.own.pending == Some(o.request) && o.own.identity == o.target && o.request.notBefore.None?
  {}

  // ---------------------------------------------------------------- reserving

  /** A fresh request on an idle record. */
  ghost predicate Opens(s: State, o: Order, now: nat) {
    && Inv(s) && Current(s, now) && PendingOf(s.mem).None? && o.previous == s.mem.own && WellOrdered(o)
    && o.request.ticket == s.issued && o.request.sentAt == now && FreshShown(s.log) == Some(o.request.seen)
    && o.own.expected == Expected(s.mem)
    && o.target.control in s.mem.limits && s.mem.limits[o.target.control] == o.timing
    && (Steady(s.log) ==> Unclaimed(o.timing, now))
  }

  lemma RequestFits(s: State, o: Order, d: Data, log: seq<Event>, now: nat)
    requires DataInv(d, log, s.issued + 1, s.clock) && Current(s, now) && (Steady(log) ==> Steady(s.log))
    requires PendingOf(d).None? && WellOrdered(o) && o.request.ticket == s.issued && o.request.sentAt == now
    requires Outstanding(log) == {} && CallTime(log, o.request.ticket).None? && ReservedAs(log, o.request)
    requires AcquiredEver(log, o.baseline) && o.own.expected == Expected(d)
    ensures DataInv(d.(own := Some(o.own)), log, s.issued + 1, s.clock)
  {
    hide CallTime, LastCall, AcquiredEver, ReservedAs, ShownEver, WellMade;
    RequestAdded(d, o.own, log, s.issued + 1, s.clock);
  }

  lemma HeldBaseline(s: State)
    requires Inv(s) && Baseline(s.mem).Some?
    ensures AcquiredEver(s.log, Baseline(s.mem).value)
  {
    hide GoodLog, TicketsBy, Timely, AcquiredEver, ReservedAs, ShownEver, Outstanding, WellMade, Tracked;
  }

  /** The next ticket is given out; nothing of it is known yet. */
  lemma TicketIsNew(s: State)
    requires Inv(s)
    ensures CallTime(s.log, s.issued).None? && !Closed(s.log, s.issued)
  {
    hide GoodLog, DataInv, Tracked, CallTime, Closed;
  }

  lemma Reserved(s: State, o: Order, now: nat)
    requires Opens(s, o, now)
    ensures var t := s.(issued := s.issued + 1, log := TakenOver(s.log, s.mem, o.request, o.baseline));
      && Inv(t.(mem := t.mem.(own := Some(o.own)))) && Waiting(t.log, o)
      && CallCount(t.log) == CallCount(s.log) && (Steady(t.log) <==> Steady(s.log))
      && (forall k :: LastCall(t.log, k) == LastCall(s.log, k))
  {
    hide Inv, WellOrdered, CallTime, LastCall, CallCount, Closed, ReservedAs, FreshShown, Booked;
    var e := Event.Reserved(o.request);
    TicketIsNew(s);
    NothingOutstanding(s);
    Appended(s.log, e);
    QuietTimes(s.log, e);
    Reserves(s, o.request);
    var t := s.With(e).(issued := s.issued + 1);
    SameOutstanding(s.log, e);
    assert Held(o) <==> Baseline(s.mem).Some?;
    if Held(o) { Joins(s, t, o, now); } else { TakesOver(s, t, o, now); }
  }

  lemma SameOutstanding(log: seq<Event>, e: Event)
    requires e.Reserved? || e.Acquired? || e.ClockBack? || e.Observed?
    ensures Outstanding(log + [e]) == Outstanding(log)
  {
    Appended(log, e);
  }

  /** A reserved request joins ownership that already holds its baseline. */
  lemma Joins(s: State, t: State, o: Order, now: nat)
    requires Opens(s, o, now) && Held(o) && t == s.With(Event.Reserved(o.request)).(issued := s.issued + 1) && Inv(t)
    requires Outstanding(t.log) == {} && CallTime(t.log, o.request.ticket).None? && ReservedAs(t.log, o.request)
    requires !Closed(t.log, o.request.ticket) && (Steady(t.log) ==> Steady(s.log))
    ensures Inv(t.(mem := t.mem.(own := Some(o.own))))
  {
    hide TicketsBy, GoodLog, DataInv, CallTime, Closed, ReservedAs, AcquiredEver, Outstanding, WellMade, FreshShown;
    HeldBaseline(t);
    RequestFits(s, o, t.mem, t.log, now);
    OwnMoves(t, t.mem.(own := Some(o.own)));
  }

  lemma TakesOver(s: State, t: State, o: Order, now: nat)
    requires Opens(s, o, now) && !Held(o) && t == s.With(Event.Reserved(o.request)).(issued := s.issued + 1) && Inv(t)
    requires Outstanding(t.log) == {} && CallTime(t.log, o.request.ticket).None? && ReservedAs(t.log, o.request)
    requires !Closed(t.log, o.request.ticket) && (Steady(t.log) ==> Steady(s.log))
    requires Booked(t.log) == Some(Booking(o.request, false)) && FreshShown(t.log) == Some(o.request.seen)
    ensures var e := Acquired(o.baseline, o.request.seen);
      && Inv(t.With(e).(mem := t.mem.(own := Some(o.own)))) && Waiting(t.log + [e], o)
      && CallCount(t.log + [e]) == CallCount(t.log) && (Steady(t.log + [e]) <==> Steady(t.log))
      && (forall k :: LastCall(t.log + [e], k) == LastCall(t.log, k))
  {
    hide TicketsBy, GoodLog, DataInv, CallTime, LastCall, Closed, ReservedAs, AcquiredEver, Outstanding;
    hide WellMade, FreshShown;
    hide CallCount;
    var e := Acquired(o.baseline, o.request.seen);
    Appended(t.log, e);
    QuietTimes(t.log, e);
    QuietEvent(t.mem, t.log, e, t.issued, t.clock);
    SameOutstanding(t.log, e);
    ClosedAfter(t.log, e, o.request.ticket);
    Remembered(t.log, o);
    RequestFits(s, o, t.mem, t.log + [e], now);
    Moves(t, e, t.mem.(own := Some(o.own)));
  }

  lemma Remembered(log: seq<Event>, o: Order)
    requires WellOrdered(o) && !Held(o) && ReservedAs(log, o.request)
    ensures var after := log + [Acquired(o.baseline, o.request.seen)];
      AcquiredEver(after, o.baseline) && ReservedAs(after, o.request)
  {
    var e := Acquired(o.baseline, o.request.seen);
    assert e in log + [e];
    assert (log + [e])[..|log|] == log;
    ReservedGrows(log + [e], |log|, o.request);
  }

  /** A timing record sound for a control whose pending request, if any, was not called. */
  lemma TimingKeeps(s: State, control: string, record: Record, flush: bool)
    requires Inv(s) && (Steady(s.log) ==> TimingOk(record, control, s.log, s.clock))
    requires PendingOf(s.mem).Some? ==> CallTime(s.log, PendingOf(s.mem).value.ticket).None?
    ensures var r := TimingSaved(s, control, record, flush);
      && Inv(r.state) && Uncalled(s, r.state)
      && (!r.outcome.Died? ==> Calm(s, r.state) && r.state.mem == s.mem.(limits := s.mem.limits[control := record]))
      && (r.outcome.Done? && flush ==> r.state.disk == r.state.mem)
      && (r.outcome.Died? ==> r.state.log == s.log + [Crash(r.state.disk)])
  {
    hide GoodLog, TicketsBy, DataInv, CallTime, TimingOk, Persisted, Tracked, CallCount;
    TimingUsable(s.mem, control, record, s.log, s.issued, s.clock);
    LimitsKeep(s, s.mem.(limits := s.mem.limits[control := record]));
    PersistKeeps(s, s.mem.(limits := s.mem.limits[control := record]), flush);
  }

  /** An unsent command goes back to the ownership before its reservation. */
  lemma WithdrawnKeeps(s: State, o: Order)
    requires Holds(s, o)
    ensures var r := Withdrawn(s, o.previous, o.baseline, o.request.ticket);
      && Inv(r.state) && Uncalled(s, r.state)
      && (!r.outcome.Died? ==>
            && r.state.mem == s.mem.(own := o.previous)
            && r.state.log == (if Held(o) then s.log else s.log + [Dropped(o.baseline, Unsent(o.request.ticket))])
            && (Steady(s.log) ==> TimingOk(o.timing, o.target.control, r.state.log, r.state.clock)))
  {
    hide Inv, WellOrdered, CallTime, LastCall, CallCount, Steady, Persisted, TimingOk;
    GoodOf(s);
    PendingIsOrdered(s, o);
    NeverCalledAnswers(s.mem, s.log);
    if Held(o) {
      Unreserves(s, o);
      PersistKeeps(s, s.mem.(own := o.previous), false);
    } else {
      var e := Dropped(o.baseline, Unsent(o.request.ticket));
      Unacquires(s, o);
      Appended(s.log, e);
      if Steady(s.log) { SameTiming(s, o, e); }
      PersistKeeps(s.With(e), s.mem.(own := o.previous), false);
    }
  }

  lemma SameTiming(s: State, o: Order, e: Event)
    requires !e.Call? && TimingOk(o.timing, o.target.control, s.log, s.clock)
    ensures TimingOk(o.timing, o.target.control, s.log + [e], s.clock)
  {
    hide LastCall, CallTime;
    QuietTimes(s.log, e);
  }

  lemma Unreserves(s: State, o: Order)
    requires Holds(s, o) && Held(o) && Answered(s.mem, s.log)
    ensures Inv(s.(mem := s.mem.(own := o.previous)))
  {
    hide GoodLog, TicketsBy, Timely, CallTime, LastCall, AcquiredEver, ShownEver, ReservedAs, Booked, Closed;
    hide WellMade, Answered;
    OwnRewritten(s.mem, o.previous, s.log, s.issued, s.clock);
    OwnMoves(s, s.mem.(own := o.previous));
  }

  lemma Unacquires(s: State, o: Order)
    requires Holds(s, o) && !Held(o) && Answered(s.mem, s.log)
    ensures var e := Dropped(o.baseline, Unsent(o.request.ticket));
      Inv(s.With(e).(mem := s.mem.(own := o.previous)))
  {
    hide GoodLog, TicketsBy, Timely, CallTime, LastCall, AcquiredEver, ShownEver, ReservedAs, Booked, Closed;
    hide WellMade, Answered;
    var e := Dropped(o.baseline, Unsent(o.request.ticket));
    Appended(s.log, e);
    OwnRewritten(s.mem, o.previous, s.log, s.issued, s.clock);
    QuietEvent(s.mem.(own := o.previous), s.log, e, s.issued, s.clock);
    Moves(s, e, s.mem.(own := o.previous));
  }

  /** A reservation that is not durable is taken back: ownership as before, and timing with it. */
  lemma UnreservedKeeps(s: State, o: Order)
    requires Holds(s, o)
    ensures var r := Unreserved(s, o);
      && Inv(r.state) && Uncalled(s, r.state) && !r.outcome.Done?
      && (r.outcome.Raised? ==> r.state.mem.own == o.previous)
  {
    hide Inv, WellOrdered, Waiting, CallTime, CallCount, Steady, Persisted, TimingOk, Withdrawn;
    WithdrawnKeeps(s, o);
    var back := Withdrawn(s, o.previous, o.baseline, o.request.ticket);
    if back.outcome.Done? {
      PreviousIdle(o);
      TimingKeeps(back.state, o.target.control, o.timing, false);
    }
  }

  lemma PreviousIdle(o: Order)
    requires WellOrdered(o)
    ensures o.previous.Some? ==> o.previous.value.pending.None?
  {}

  /** The order in memory, before anything is saved. */
  lemma Opened(s: State, o: Order, now: nat)
    requires Opens(s, o, now)
    ensures var t := s.(issued := s.issued + 1, log := TakenOver(s.log, s.mem, o.request, o.baseline));
      && Inv(t.(mem := t.mem.(own := Some(o.own)))) && CallCount(t.log) == CallCount(s.log)
      && Waiting(t.log, o) && TimingHolds(t, o) && (Steady(t.log) <==> Steady(s.log))
      && (Steady(t.log) ==> TimingOk(o.Reservation(), o.target.control, t.log, t.clock))
  {
    hide Inv, WellOrdered, Waiting, CallTime, LastCall, CallCount, TakenOver;
    Reserved(s, o, now);
    if Steady(s.log) {
      OrderTiming(s, o, now);
      var log := TakenOver(s.log, s.mem, o.request, o.baseline);
      assert LastCall(log, o.target.control) == LastCall(s.log, o.target.control);
    }
  }

  lemma OrderTiming(s: State, o: Order, now: nat)
    requires Opens(s, o, now) && Steady(s.log)
    ensures TimingOk(o.timing, o.target.control, s.log, s.clock) && o.request.sentAt <= s.clock
    ensures TimingOk(o.Reservation(), o.target.control, s.log, s.clock)
  {
    hide CallTime, LastCall, OwnOk, Timely, Tracked, WellOrdered;
    IdleTiming(s.mem, o.target.control, s.log, s.issued, s.clock);
    TimingReserved(o.timing, o.target.control, s.log, s.issued, s.clock, now, o.option);
  }

  lemma ReservationKeeps(s: State, o: Order)
    requires Inv(s.(mem := s.mem.(own := Some(o.own)))) && Waiting(s.log, o) && WellOrdered(o) && TimingHolds(s, o)
    requires Steady(s.log) ==> TimingOk(o.Reservation(), o.target.control, s.log, s.clock)
    ensures var r := ReservationSaved(s, o);
      && Inv(r.state) && Uncalled(s, r.state)
      && (!r.outcome.Died? ==> Holds(r.state, o) && Calm(s, r.state))
      && (r.outcome.Done? ==>
            && r.state.disk == r.state.mem
            && r.state.mem == s.mem.(own := Some(o.own), limits := s.mem.limits[o.target.control := o.Reservation()]))
  {
    hide Inv, CallTime, CallCount, Persisted, TimingOk, Steady, Booked, Outstanding, WellMade;
    PersistKeeps(s, s.mem.(own := Some(o.own)), false);
    var saved := OwnSaved(s, Some(o.own));
    if saved.outcome.Done? {
      PendingIsOrdered(saved.state, o);
      TimingKeeps(saved.state, o.target.control, o.Reservation(), true);
    }
  }

  /** Durable on success; on failure nothing was sent and all is taken back. */
  lemma ReservingKeeps(s: State, o: Order, now: nat)
    requires Opens(s, o, now)
    ensures var r := Reserving(s, o);
      && Inv(r.state) && CallCount(r.state.log) == CallCount(s.log) && r.state.clock == s.clock
      && (r.outcome.Raised? ==> r.state.mem.own == s.mem.own)
      && (r.outcome.Done? ==>
            && Holds(r.state, o) && r.state.disk == r.state.mem && o.request.ticket < r.state.issued
            && r.state.log == TakenOver(s.log, s.mem, o.request, o.baseline)
            && r.state.mem == s.mem.(own := Some(o.own), limits := s.mem.limits[o.target.control := o.Reservation()]))
  {
    hide Inv, Holds, WellOrdered, Waiting, TimingHolds, CallTime, CallCount, TakenOver, TimingOk;
    hide ReservationSaved, Unreserved;
    hide Steady;
    Opened(s, o, now);
    var begun := s.(issued := s.issued + 1, log := TakenOver(s.log, s.mem, o.request, o.baseline));
    ReservationKeeps(begun, o);
    var saved := ReservationSaved(begun, o);
    if saved.outcome.Raised? { UnreservedKeeps(saved.state, o); }
  }

  // ---------------------------------------------------------------- the service boundary

  /** A reservation survives the passage of time and a look at the gateway. */
  lemma Stays(s: State, t: State, o: Order)
    requires Holds(s, o) && Inv(t) && t.mem == s.mem && t.clock >= s.clock && (Steady(t.log) ==> Steady(s.log))
    requires Outstanding(t.log) == Outstanding(s.log) && Booked(t.log) == Booked(s.log)
    requires forall k :: CallTime(t.log, k) == CallTime(s.log, k)
    requires forall k :: LastCall(t.log, k) == LastCall(s.log, k)
    ensures Holds(t, o)
  {
    hide Inv, WellOrdered, CallTime, LastCall, Outstanding, Booked;
  }

  /** What the last look before the service boundary has established when it does not block. */
  ghost predicate Unblocked(o: Order, m: Moment, latest: Feedback, window: (nat, nat)) {
    && latest.Seen? && !latest.read.pending && latest.read.setting == o.request.seen.setting
    && m.target.Some? && m.target.value.control == o.target.control && AtMost(NextEligible(o.timing, o.option), m.now)
    && (!o.request.restore ==> window.0 <= m.now < window.1)
  }

  lemma BlocksUnless(o: Order, m: Moment, latest: Feedback, window: (nat, nat))
    ensures Blocks(o, m, latest, window).None? ==> Unblocked(o, m, latest, window)
    ensures Blocks(o, m, latest, window) == Some(ExternalChanged) ==>
      && latest.Seen? && m.target.Some? && m.target.value.control == o.target.control
      && latest.read.setting != o.request.seen.setting
  {}

  /** An unsent command restores ownership and timing, or, if the setting has changed, gives them up. */
  lemma BackedOutKeeps(s: State, o: Order, blocked: Reason, latest: Feedback, m: Moment)
    requires Holds(s, o) && Current(s, m.now)
    requires blocked == ExternalChanged ==>
      && latest.Seen? && m.target.Some? && m.target.value.control == o.target.control
      && latest.read.setting != o.request.seen.setting && FreshShown(s.log) == Some(latest.read)
    ensures var r := BackedOut(s, o, blocked, latest, m);
      && Inv(r.state) && Uncalled(s, r.state)
      && (r.outcome.Done? ==> r.state.mem == s.mem.(
            own := if blocked == ExternalChanged then Some(Adopted(o.own, m.target.value, latest.read.setting))
                   else o.previous,
            limits := s.mem.limits[o.target.control := o.timing]))
  {
    hide Inv, WellOrdered, Waiting, CallTime, CallCount, Steady, Persisted, TimingOk, Withdrawn, GivenUp;
    hide FreshShown, EndedByOther;
    PendingIsOrdered(s, o);
    NotCalled(s, o);
    TimingKeeps(s, o.target.control, o.timing, false);
    var saved := TimingSaved(s, o.target.control, o.timing, false);
    if saved.outcome.Done? {
      var t := saved.state;
      assert Holds(t, o);
      if blocked == ExternalChanged {
        Overwrites(t, o, latest.read);
        GivenUpKeeps(t, o.own, latest.read, m.now, m.target.value, o.request.seen.setting);
        var given := GivenUp(t, o.own, latest.read, m.now, m.target.value, o.request.seen.setting);
        if given.outcome.Done? { AuditKeeps(given.state); }
      } else {
        WithdrawnKeeps(t, o);
        var back := Withdrawn(t, o.previous, o.baseline, o.request.ticket);
        if back.outcome.Done? { AuditKeeps(back.state); }
      }
    }
  }

  lemma HoldsInv(s: State, o: Order)
    requires Holds(s, o)
    ensures Inv(s) && s.mem.own == Some(o.own) && WellOrdered(o)
  {
    hide Inv, WellOrdered;
  }

  lemma NotCalled(s: State, o: Order)
    requires Holds(s, o)
    ensures CallTime(s.log, o.request.ticket).None?
  {
    hide Inv, WellOrdered, TimingHolds;
  }

  lemma Overwrites(s: State, o: Order, read: Readback)
    requires Holds(s, o) && FreshShown(s.log) == Some(read) && read.setting != o.request.seen.setting
    ensures OvertakeJustified(s.log, o.request, read)
  {
    hide CallTime, Closed, FreshShown, TimingHolds, Booked, Outstanding, Inv;
    PendingFits(s, o.own);
  }

  /** On disk is the order, with its reservation. */
  ghost predicate OnDisk(s: State, o: Order) {
    && s.disk == s.mem && o.request.ticket < s.issued
    && o.target.control in s.mem.limits && s.mem.limits[o.target.control] == o.Reservation()
  }

  /** The command crosses the boundary while the disk holds everything needed to answer for it. */
  lemma Dispatching(s: State, o: Order, m: Moment, latest: Feedback, window: (nat, nat))
    requires Holds(s, o) && Current(s, m.now) && OnDisk(s, o) && Unblocked(o, m, latest, window)
    ensures var e := Call(o.target.control, m.now, o.request, s.disk);
      Justified(s.log, e) && Inv(s.With(e)) && CallTime(s.log + [e], o.request.ticket) == Some(m.now)
  {
    hide CallTime, LastCall, Outstanding, BaselineAfter, AcquiredEver, ReservedAs, ShownEver, FreshShown, ExpectedAfter;
    hide GoodLog, Durable, Booked, Closed, WellMade;
    var e := Call(o.target.control, m.now, o.request, s.disk);
    PendingFits(s, o.own);
    BaselineIs(s);
    if Steady(s.log) { SpacedBy(s, o, m); }
    assert CallJustified(s.log, e);
    CalledKeeps(s, e);
  }

  lemma SpacedBy(s: State, o: Order, m: Moment)
    requires TimingOk(o.timing, o.target.control, s.log, s.clock) && AtMost(NextEligible(o.timing, o.option), m.now)
    ensures LastCall(s.log, o.target.control).Some? ==>
      LastCall(s.log, o.target.control).value.time + MIN_CHANGE <= m.now
  {
    hide LastCall;
  }

  predicate Reached(response: Response) {
    response.Accepted? || response.Cancelled? || response.Failed? || response.Invalid?
  }

  lemma CallKeeps(s: State, o: Order, m: Moment, latest: Feedback, window: (nat, nat))
    requires Holds(s, o) && Current(s, m.now) && OnDisk(s, o) && Unblocked(o, m, latest, window)
    ensures var (t, response) := Called(s, o.target.control, o.request, m.now);
      && Inv(t) && CallCount(s.log) <= CallCount(t.log) <= CallCount(s.log) + 1 && t.clock == s.clock
      && (response.TargetUnavailable? ==> t == s.(world := t.world))
      && (Reached(response) ==>
            && CallCount(t.log) == CallCount(s.log) + 1 && t.mem == s.mem && t.issued == s.issued && Current(t, m.now)
            && CallTime(t.log, o.request.ticket) == Some(m.now)
            && (response.Invalid? ==> Declined(o.request.ticket) in t.log))
  {
    hide Holds, Unblocked, Inv, CallCount, CallTime, Justified;
    Dispatching(s, o, m, latest, window);
    var e, t := Call(o.target.control, m.now, o.request, s.disk), s.(world := s.world.AfterAnswer());
    HoldsInv(s, o);
    Unanswered(s, t);
    Unanswered(s.With(e), t.With(e));
    Appended(s.log, e);
    RestartKeeps(t);
    RestartKeeps(t.With(e));
    assert t.disk == s.disk;
    if s.world.Answer().Invalid? {
      var f := Declined(o.request.ticket);
      CanDecline(s.log, e, f);
      Notes(t.With(e), f);
      Appended(s.log + [e], f);
      QuietTimes(s.log + [e], f);
      assert f in s.log + [e] + [f];
    }
  }

  lemma CanDecline(log: seq<Event>, e: Event, f: Event)
    requires e.Call? && f == Declined(e.request.ticket)
    ensures Justified(log + [e], f)
  {}

  /** What the environment still has to answer is no part of the invariant. */
  lemma Unanswered(s: State, t: State)
    requires Inv(s) && t == s.(world := t.world)
    ensures Inv(t)
  {
    hide DataInv, TicketsBy, GoodLog, Tracked;
  }

  // ---------------------------------------------------------------- after the call

  lemma Reanchored(s: State, control: string, now: nat)
    requires Inv(s) && Current(s, now) && control in s.mem.limits
    ensures var r := s.mem.limits[control].(attemptedAt := Some(now), checkedAt := now);
      Inv(s.(mem := s.mem.(limits := s.mem.limits[control := r])))
  {
    hide OwnOk, Tracked, CallTime, Closed, TicketReserved;
    var r, d := s.mem.limits[control].(attemptedAt := Some(now), checkedAt := now), s.mem;
    if Steady(s.log) {
      assert RecordTimely(d, control, s.log, s.clock) && ControlHeld(d, control, s.log);
      var n := d.(limits := d.limits[control := r]);
      assert RecordTimely(n, control, s.log, s.clock);
      if LastCall(s.log, control).Some? { LastCallHasTime(s.log, control); }
      assert ControlHeld(n, control, s.log);
    }
    LimitsRewritten(d, control, r, s.log, s.issued, s.clock);
    LimitsKeep(s, d.(limits := d.limits[control := r]));
  }

  /** A reservation stamped with the present answers for every earlier call. */
  lemma AnsweredBy(s: State, now: nat)
    requires Inv(s) && Current(s, now) && PendingOf(s.mem).Some? && s.mem.own.value.identity.control in s.mem.limits
    requires s.mem.limits[s.mem.own.value.identity.control].attemptedAt == Some(now)
    ensures AnsweredFor(s)
  {
    hide CallTime, Outstanding, DataInv, Tracked, Closed, TicketReserved;
    var k := s.mem.own.value.identity.control;
    if LastCall(s.log, k).Some? { LastCallHasTime(s.log, k); }
  }

  /** An order whose command has reached the service. */
  ghost predicate Sent(s: State, o: Order) {
    && Inv(s) && s.mem.own == Some(o.own) && WellOrdered(o) && CallTime(s.log, o.request.ticket).Some?
    && o.target.control in s.mem.limits && s.mem.limits[o.target.control] == o.Reservation()
  }

  lemma Refuses(s: State, o: Order, t: State)
    requires Inv(t) && Sent(s, o) && t.mem.own == Some(o.own) && AnsweredFor(t) && Declined(o.request.ticket) in t.log
    ensures var own := o.own.(pending := None, pause := Some(ServiceRejected));
      && Inv(t.With(Refused(o.request.ticket)).(mem := t.mem.(own := Some(own))))
      && CallCount(t.log + [Refused(o.request.ticket)]) == CallCount(t.log)
  {
    hide Inv, AnsweredFor, CallTime, Closed, ShownEver;
    var e := Refused(o.request.ticket);
    PendingFits(t, o.own);
    ExpectedIs(t);
    Appended(t.log, e);
    assert (t.log + [e])[..|t.log|] == t.log;
    if o.own.expected.Some? { ShownGrows(t.log + [e], |t.log|, o.own.expected.value); }
    Closes(t, e, o.request, o.own.(pending := None, pause := Some(ServiceRejected)));
  }

  lemma ExpectedIs(s: State)
    requires Inv(s)
    ensures Expected(s.mem).Some? ==> ExpectedAfter(s.log) == Expected(s.mem) && ShownEver(s.log, Expected(s.mem).value)
  {
    hide GoodLog, TicketsBy, Timely, Outstanding, WellMade, AcquiredEver, ReservedAs, Closed;
  }

  /** A refusal keeps its reservation, forgets the request, keeps the baseline and pauses control. */
  lemma RefusingKeeps(s: State, o: Order)
    requires Sent(s, o) && Declined(o.request.ticket) in s.log
    ensures var r := Refusing(s, o);
      && Inv(r.state) && CallCount(r.state.log) == CallCount(s.log)
      && (r.outcome.Done? ==>
            && r.outcome.value == Result(Errored, Some(ServiceRejected), true)
            && r.state.mem.own == Some(o.own.(pending := None, pause := Some(ServiceRejected)))
            && o.target.control in r.state.mem.limits
            && r.state.mem.limits[o.target.control].attemptedAt == Some(s.Next(o.target).now))
  {
    hide Inv, CallTime, CallCount, Persisted, Ticked, AnsweredFor, Steady, Booked, BaselineAfter, Outstanding, LastCall;
    var m, moved := s.Next(o.target), s.(world := s.world.AfterMoment());
    Unanswered(s, moved);
    TickKeeps(moved, m.now);
    TickedSame(moved, m.now);
    var begun := Ticked(moved, m.now);
    assert Declined(o.request.ticket) in begun.log by { TickGrows(moved, m.now); }
    var again := o.Reservation().(attemptedAt := Some(m.now), checkedAt := m.now);
    Reanchored(begun, o.target.control, m.now);
    PersistKeeps(begun, begun.mem.(limits := begun.mem.limits[o.target.control := again]), true);
    var saved := TimingSaved(begun, o.target.control, again, true);
    if saved.outcome.Done? {
      var t := saved.state;
      PendingIsOrdered(t, o);
      StillCurrent(begun, t, m.now);
      AnsweredBy(t, m.now);
      Refuses(s, o, t);
      var own := o.own.(pending := None, pause := Some(ServiceRejected));
      PersistKeeps(t.With(Refused(o.request.ticket)), t.mem.(own := Some(own)), false);
      var forgot := OwnSaved(t.With(Refused(o.request.ticket)), Some(own));
      if forgot.outcome.Done? { AuditKeeps(forgot.state); }
    }
  }

  lemma TickGrows(s: State, now: nat)
    ensures forall e | e in s.log :: e in Ticked(s, now).log
  {}

  /** The command stays pending, with the earliest read that can confirm it. */
  lemma KeptKeeps(s: State, o: Order, now: nat)
    requires Sent(s, o) && Current(s, now)
    ensures var r := Kept(s, o, now);
      && Inv(r.state) && Uncalled(s, r.state)
      && (!r.outcome.Died? ==>
            && r.state.log == s.log
            && r.state.mem.own == Some(o.own.(pending := Some(o.request.(notBefore := Some(now))))))
  {
    hide Inv, CallTime, CallCount, Persisted, Steady;
    PendingIsOrdered(s, o);
    var own := o.own.(pending := Some(o.request.(notBefore := Some(now))));
    Retimed(s, o.own, o.request.(notBefore := Some(now)), now);
    PersistKeeps(s, s.mem.(own := Some(own)), false);
    var saved := OwnSaved(s, Some(own));
    if saved.outcome.Done? { AuditKeeps(saved.state); }
  }

  /** What follows a call that reached the service: a refusal pauses, anything else stays pending until it is reconciled,
      and a cancellation is passed on. */
  lemma FollowedKeeps(s: State, o: Order, response: Response, now: nat)
    requires Sent(s, o) && Current(s, now) && Reached(response)
    requires response.Invalid? ==> Declined(o.request.ticket) in s.log
    ensures var r := Followed(s, o, response, now);
      && Inv(r.state) && CallCount(r.state.log) == CallCount(s.log)
      && (response.Cancelled? ==> !r.outcome.Done?)
      && (response.Cancelled? && r.outcome.Raised? ==>
            r.state.mem.own == Some(o.own.(pending := Some(o.request.(notBefore := Some(now))))))
      && (r.outcome.Done? && response.Invalid? ==>
            && r.outcome.value == Result(Errored, Some(ServiceRejected), true)
            && r.state.mem.own == Some(o.own.(pending := None, pause := Some(ServiceRejected))))
      && (r.outcome.Done? && !response.Invalid? ==>
            && r.outcome.value == Result(Pending, Some(ChangePending), true)
            && Accounts(o.own.(pending := Some(o.request.(notBefore := Some(now)))), r.state))
  {
    hide Inv, Sent, CallCount, Accounts, Refusing, Kept, Reconciled;
    if response.Invalid? {
      RefusingKeeps(s, o);
    } else {
      KeptKeeps(s, o, now);
      var kept := Kept(s, o, now);
      if kept.outcome.Done? && !response.Cancelled? {
        var t := kept.state;
        var m, moved := t.Next(o.target), t.(world := t.world.AfterMoment());
        Unanswered(t, moved);
        ReconciledKeeps(moved, m.now, m.target);
      }
    }
  }

  // ---------------------------------------------------------------- the operations

  ghost predicate OneCall(s: State, t: State) { CallCount(t.log) == CallCount(s.log) + 1 }

  /** At most one call, only past the last look, with the result reporting it; a command that was not sent restores
      ownership and timing. */
  ghost predicate SendsOnce(s: State, o: Order, window: (nat, nat), r: After<Result>) {
    && Inv(r.state) && CallCount(s.log) <= CallCount(r.state.log) <= CallCount(s.log) + 1
    && (OneCall(s, r.state) ==> exists latest :: Unblocked(o, s.Next(o.target), latest, window))
    && (r.outcome.Done? ==>
          var res := r.outcome.value;
          && (res.sent <==> OneCall(s, r.state))
          && (res.sent ==> res.verdict == Pending || res.verdict == Errored)
          && (!res.sent ==> res.verdict == Rejected && r.state.mem.limits == s.mem.limits[o.target.control := o.timing])
          && (!res.sent && res.reason != Some(ExternalChanged) ==> r.state.mem.own == o.previous)
          && (res.sent && r.state.mem.own.None? ==> EndedOnMatch(r.state.log, Some(o.baseline))))
  }

  /** The look and the clock of the last check leave the reservation as it is. */
  lemma ChecksKeep(s: State, o: Order, m: Moment)
    requires Holds(s, o) && OnDisk(s, o)
    ensures var (t, latest) := Looked(Ticked(s.(world := s.world.AfterMoment()), m.now), m.now, m.target);
      && Holds(t, o) && OnDisk(t, o) && Current(t, m.now) && CallCount(t.log) == CallCount(s.log) && t.mem == s.mem
      && (latest.Seen? ==> FreshShown(t.log) == Some(latest.read))
  {
    hide Inv, WellOrdered, Waiting, TimingHolds, CallCount, FreshShown, Booked, Outstanding, BaselineAfter;
    hide CallTime, LastCall;
    hide Looked;
    var moved := s.(world := s.world.AfterMoment());
    Unanswered(s, moved);
    TickKeeps(moved, m.now);
    TickedSame(moved, m.now);
    var begun := Ticked(moved, m.now);
    LookKeeps(begun, m.now, m.target);
    var (t, latest) := Looked(begun, m.now, m.target);
    Stays(s, t, o);
  }

  lemma SendingKeeps(s: State, o: Order, window: (nat, nat))
    requires Holds(s, o) && OnDisk(s, o)
    ensures SendsOnce(s, o, window, Sending(s, o, window))
  {
    hide Inv, Holds, WellOrdered, Unblocked, CallCount, FreshShown, Looked, Ticked, Blocks, BackedOut, Called, Followed;
    hide CallTime, EndedOnMatch, Accounts;
    var m := s.Next(o.target);
    var (t, latest) := Looked(Ticked(s.(world := s.world.AfterMoment()), m.now), m.now, m.target);
    ChecksKeep(s, o, m);
    HoldsInv(s, o);
    HoldsInv(t, o);
    BlocksUnless(o, m, latest, window);
    var blocked := Blocks(o, m, latest, window);
    if blocked.Some? {
      BackedOutKeeps(t, o, blocked.value, latest, m);
    } else {
      CallKeeps(t, o, m, latest, window);
      var (u, response) := Called(t, o.target.control, o.request, m.now);
      if response.TargetUnavailable? {
        StillHolds(t, u, o);
        BackedOutKeeps(u, o, Unavailable, latest, m);
      } else if Reached(response) {
        FollowedKeeps(u, o, response, m.now);
        Ending(o, Followed(u, o, response, m.now), m.now);
      }
    }
  }

  lemma Ending(o: Order, r: After<Result>, now: nat)
    requires WellOrdered(o)
    ensures r.state.mem.own.None? && Accounts(o.own.(pending := Some(o.request.(notBefore := Some(now)))), r.state) ==>
      EndedOnMatch(r.state.log, Some(o.baseline))
  {}

  lemma StillHolds(s: State, t: State, o: Order)
    requires Holds(s, o) && t == s.(world := t.world)
    ensures Holds(t, o)
  {
    hide DataInv, TicketsBy, GoodLog, Tracked, WellOrdered, Waiting;
  }

  /** Ownership as a command is prepared for it: the record, or none, and the baseline held or just shown. */
  ghost predicate Fits(s: State, own: Ownership, baseline: Setting, read: Readback, target: Identity, restore: bool) {
    && PendingOf(s.mem).None? && own.pending.None? && own.identity == target && own.restoring == restore
    && own.pause != Some(ExternalConflict) && own.expected == Expected(s.mem)
    && own.baseline == Baseline(s.mem) && (s.mem.own.Some? ==> own == s.mem.own.value)
    && (if own.baseline.Some? then own.baseline == Some(baseline) else baseline == read.setting && !restore)
  }

  function OrderOf(s: State, own: Ownership, baseline: Setting, watts: Option<int>, now: nat, read: Readback,
                   target: Identity, restore: bool, option: nat, timing: Record): Order {
    var request := Request(s.issued, watts, now, None, restore, read, if restore then Some(baseline.slew) else None);
    Order(own.(baseline := Some(baseline), pending := Some(request)), request, baseline, target, timing, s.mem.own, option)
  }

  /** What one command can lead to, from the deadline check on. */
  ghost predicate Dispatches(s: State, baseline: Setting, target: Identity, now: nat, r: After<Result>) {
    && Inv(r.state) && CallCount(s.log) <= CallCount(r.state.log) <= CallCount(s.log) + 1
    && (r.outcome.Done? ==>
          var res := r.outcome.value;
          && (res.sent <==> OneCall(s, r.state))
          && (res.sent ==> res.verdict == Pending || res.verdict == Errored)
          && (!res.sent ==>
                res.verdict == Rejected
                && r.state.mem.limits == s.mem.limits[target.control := Normalized(s.mem, target.control, now)])
          && (!res.sent && res.reason != Some(ExternalChanged) ==> r.state.mem.own == s.mem.own)
          && (res.sent && r.state.mem.own.None? ==> EndedOnMatch(r.state.log, Some(baseline))))
  }

  /** An idle control whose wait is over has no stamp for a request of this instant. */
  lemma Unspoken(s: State, control: string, option: nat, now: nat)
    requires Inv(s) && PendingOf(s.mem).None?
    requires control in s.mem.limits && AtMost(NextEligible(s.mem.limits[control], option), now)
    ensures Steady(s.log) ==> Unclaimed(s.mem.limits[control], now)
  {
    hide CallTime, LastCall, OwnOk, Tracked, GoodLog, NextEligible, Timely;
    if Steady(s.log) {
      IdleTiming(s.mem, control, s.log, s.issued, s.clock);
      EligibleIsUnclaimed(s.mem.limits[control], control, s.log, s.clock, option, now);
    }
  }

  lemma OrderOpens(s: State, t: State, own: Ownership, baseline: Setting, watts: Option<int>, now: nat, read: Readback,
                   target: Identity, restore: bool, option: nat, timing: Record)
    requires Inv(t) && Current(t, now) && t.mem == s.mem.(limits := t.mem.limits) && FreshShown(t.log) == Some(read)
    requires Fits(s, own, baseline, read, target, restore) && (restore ==> watts == baseline.watts)
    requires target.control in t.mem.limits && t.mem.limits[target.control] == timing
    requires AtMost(NextEligible(timing, option), now)
    ensures Opens(t, OrderOf(t, own, baseline, watts, now, read, target, restore, option, timing), now)
  {
    hide Inv, Unclaimed, NextEligible, FreshShown;
    Unspoken(t, target.control, option, now);
    if Baseline(t.mem).Some? && t.mem.own.value.pause == Some(ExternalConflict) { Unlatched(t); }
  }

  lemma DispatchedKeeps(s: State, own: Ownership, baseline: Setting, watts: Option<int>, now: nat, read: Readback,
                        target: Identity, restore: bool, option: nat, window: (nat, nat))
    requires Inv(s) && Current(s, now) && FreshShown(s.log) == Some(read)
    requires Fits(s, own, baseline, read, target, restore) && (restore ==> watts == baseline.watts)
    ensures Dispatches(s, baseline, target, now,
                       Dispatched(s, own, baseline, watts, now, read, target, restore, option, window))
  {
    hide Inv, CallCount, FreshShown, Normalized, NextEligible, EndedOnMatch, Prepared, Reserving, Sending, Opens, Holds;
    hide Steady, Fits, Unblocked;
    PreparedKeeps(s, now, target);
    var prepared := Prepared(s, now, target);
    if prepared.outcome.Done? && AtMost(NextEligible(prepared.outcome.value, option), now) {
      var t, timing := prepared.state, prepared.outcome.value;
      var o := OrderOf(t, own, baseline, watts, now, read, target, restore, option, timing);
      OrderOpens(s, t, own, baseline, watts, now, read, target, restore, option, timing);
      ReservingKeeps(t, o, now);
      var reserved := Reserving(t, o);
      if reserved.outcome.Done? { SendingKeeps(reserved.state, o, window); }
    }
  }

  /** An operation with at most one call, reported exactly. */
  ghost predicate ReportsCalls(s: State, r: After<Result>) {
    && Inv(r.state) && CallCount(s.log) <= CallCount(r.state.log) <= CallCount(s.log) + 1
    && (r.outcome.Done? ==> (r.outcome.value.sent <==> OneCall(s, r.state)))
  }

  /** A tariff transition is sent only on a reconciled control that is not being restored, and is not repeated. */
  lemma ExecutedKeeps(s: State, watts: Option<int>, now: nat, target: Option<Identity>, option: nat, window: (nat, nat))
    requires Inv(s)
    ensures var r := Executed(s, watts, now, target, option, window);
      && ReportsCalls(s, r)
      && (OneCall(s, r.state) ==>
            var t := Reconciled(s, now, target);
            t.outcome == Done(None) && target.Some? && Clear(t.state, target.value)
            && (t.state.mem.own.Some? ==> !t.state.mem.own.value.restoring))
      && (r.outcome.Done? ==>
            var res := r.outcome.value;
            if res.sent then res.verdict == Pending || res.verdict == Errored
            else res.verdict == Rejected || res == Result(Skipped, Some(AlreadyDesired), false))
  {
    hide Inv, CallCount, FreshShown, EndedOnMatch, Reconciled, Looked, Dispatched, Accounts, Normalized, Booked;
    hide Outstanding;
    hide CallTime, LastCall, BaselineAfter, Steady;
    ReconciledKeeps(s, now, target);
    var first := Reconciled(s, now, target);
    if first.outcome == Done(None) {
      var t := first.state;
      LookKeeps(t, now, target);
      var (u, feedback) := Looked(t, now, target);
      if feedback.Seen? && !(u.mem.own.Some? && u.mem.own.value.restoring) {
        var read := feedback.read;
        var own := if u.mem.own.Some? then u.mem.own.value else Ownership(target.value, None, None, None, None, false);
        var baseline := if own.baseline.Some? then own.baseline.value else read.setting;
        StillCurrent(t, u, now);
        assert Fits(u, own, baseline, read, target.value, false);
        DispatchedKeeps(u, own, baseline, watts, now, read, target.value, false, option, window);
      }
    }
  }

  /** Restoring the baseline of a reconciled control: shown, it ends ownership; otherwise one command is sent. */
  lemma GivenBackKeeps(s: State, own: Ownership, baseline: Setting, now: nat, target: Option<Identity>, option: nat)
    requires Inv(s) && Current(s, now) && s.mem.own == Some(own) && own.baseline == Some(baseline) && own.restoring
    requires target.Some? && Clear(s, target.value)
    ensures var r := GivenBack(s, own, baseline, now, target, option);
      && ReportsCalls(s, r)
      && (r.outcome.Done? && r.outcome.value.verdict == Restored ==>
            r.state.mem.own.None? && EndedOnMatch(r.state.log, Some(baseline)))
  {
    hide Inv, CallCount, FreshShown, EndedOnMatch, Looked, Dispatched, Persisted, Normalized, Booked, Outstanding;
    hide CallTime, LastCall, BaselineAfter, Steady;
    LookKeeps(s, now, target);
    var (t, feedback) := Looked(s, now, target);
    if feedback.Seen? {
      var read := feedback.read;
      if read.setting == baseline {
        Returns(t, read);
        var e := Dropped(baseline, Matched(read));
        PersistKeeps(t.With(e), t.mem.(own := None), false);
      } else {
        StillCurrent(s, t, now);
        assert Fits(t, own, baseline, read, target.value, true);
        DispatchedKeeps(t, own, baseline, baseline.watts, now, read, target.value, true, option,
                        (now, now + READBACK_MAX_AGE));
      }
    }
  }

  /** RESTORED is reported only after the gateway has shown the baseline held at entry. */
  lemma RestorationKeeps(s: State, now: nat, target: Option<Identity>, option: nat)
    requires Inv(s)
    ensures var r := Restoration(s, now, target, option);
      && ReportsCalls(s, r)
      && (Baseline(s.mem).None? ==> r == After(s, Done(Result(Skipped, Some(NotOwned), false))))
      && (r.outcome.Done? && r.outcome.value.verdict == Restored ==>
            r.state.mem.own.None? && Baseline(s.mem).Some? && EndedOnMatch(r.state.log, Baseline(s.mem)))
  {
    hide Inv, CallCount, EndedOnMatch, EndedByOther, Persisted, GivenBack, Reconciled, Steady, Clear;
    if Baseline(s.mem).Some? {
      var own := s.mem.own.value.(restoring := true);
      Cosmetic(s, own);
      PersistKeeps(s, s.mem.(own := Some(own)), false);
      var saved := OwnSaved(s, Some(own));
      if saved.outcome.Done? {
        ReconciledKeeps(saved.state, now, target);
        var second := Reconciled(saved.state, now, target);
        if second.outcome == Done(None) && Baseline(second.state.mem).Some? {
          GivenBackKeeps(second.state, second.state.mem.own.value, Baseline(second.state.mem).value, now, target, option);
        }
      }
    }
  }
}
