/**
 The export-limit store, in memory and on disk, with its history and what the environment is going to answer: the
 invariant that ties them together, and how the history's events preserve it.
 */
module ExportState {
  import opened Common
  import opened ExportLog

  /** What a service call leads to. */
  datatype Response = Accepted | TargetUnavailable | Cancelled | Invalid | Failed | DiedBefore | DiedAfter

  /** What the gateway's sensor shows: a reading, or none, perhaps because the control is not supported. */
  datatype Look = Look(raw: Option<Readback>, unsupported: bool)

  /** The clock, the registered identity of the control, and a veto of the planner, when they are asked for again. */
  datatype Moment = Moment(now: nat, target: Option<Identity>, veto: bool)

  /** The environment's answers, taken from the front; beyond them nothing is shown, saves and calls succeed, and
      nothing has moved. */
  datatype World = World(looks: seq<Look>, faults: seq<Fault>, answers: seq<Response>, moments: seq<Moment>)
  {
    function Glimpse(): Look { if |looks| > 0 then looks[0] else Look(None, false) }

    function AfterLook(): World { if |looks| > 0 then this.(looks := looks[1..]) else this }

    function Fate(): Fault { if |faults| > 0 then faults[0] else Written }

    function AfterSave(): World { if |faults| > 0 then this.(faults := faults[1..]) else this }

    function Answer(): Response { if |answers| > 0 then answers[0] else Accepted }

    function AfterAnswer(): World { if |answers| > 0 then this.(answers := answers[1..]) else this }

    function AfterMoment(): World { if |moments| > 0 then this.(moments := moments[1..]) else this }
  }

  datatype State = State(mem: Data, disk: Data, issued: nat, log: seq<Event>, clock: nat, world: World)
  {
    function With(e: Event): State { this.(log := log + [e]) }

    function Next(target: Identity): Moment {
      if |world.moments| > 0 then world.moments[0] else Moment(clock, Some(target), false)
    }
  }

  // ---------------------------------------------------------------- the invariant

  ghost predicate PendingIs(d: Data, ticket: nat) { PendingOf(d).Some? && PendingOf(d).value.ticket == ticket }

  predicate AtLeast(stamp: Option<nat>, at: nat) { stamp.Some? && stamp.value >= at }

  predicate AtMost(stamp: Option<nat>, at: nat) { stamp.Some? ==> stamp.value <= at }

  /** The record holds the control back for five minutes from `at` or later. */
  predicate Anchored(r: Record, at: nat) {
    AtLeast(r.attemptedAt, at) || AtLeast(r.confirmedAt, at) || AtLeast(r.settledAt, at)
  }

  ghost predicate PendingTimely(p: Request, log: seq<Event>, clock: nat) {
    && p.sentAt <= clock && AtMost(p.notBefore, clock)
    && (p.notBefore.Some? && CallTime(log, p.ticket).Some? ==> CallTime(log, p.ticket).value <= p.notBefore.value)
  }

  /** A stamp made on behalf of a request is no earlier than that request, and than its call. */
  ghost predicate StampedFor(stamp: Option<nat>, whom: Option<nat>, d: Data, control: string, log: seq<Event>) {
    whom.Some? ==>
      && stamp.Some? && whom.value <= stamp.value
      && (PendingOf(d).Some? && d.own.value.identity.control == control && PendingOf(d).value.sentAt == whom.value
          && CallTime(log, PendingOf(d).value.ticket).Some?
          ==> CallTime(log, PendingOf(d).value.ticket).value <= stamp.value)
  }

  ghost predicate RecordTimely(d: Data, control: string, log: seq<Event>, clock: nat)
    requires control in d.limits
  {
    var r := d.limits[control];
    && r.checkedAt <= clock && AtMost(r.attemptedAt, clock) && AtMost(r.confirmedAt, clock) && AtMost(r.settledAt, clock)
    && StampedFor(r.confirmedAt, r.confirmationFor, d, control, log)
    && StampedFor(r.settledAt, r.settlementFor, d, control, log)
  }

  /** The last call of a control is either still pending here or has left its mark on the record. */
  ghost predicate ControlHeld(d: Data, control: string, log: seq<Event>) {
    LastCall(log, control).Some? ==>
      && control in d.limits
      && ((PendingIs(d, LastCall(log, control).value.ticket) && d.own.value.identity.control == control)
          || Anchored(d.limits[control], LastCall(log, control).value.time))
  }

  ghost predicate Timely(d: Data, log: seq<Event>, clock: nat) {
    && (PendingOf(d).Some? ==> PendingTimely(PendingOf(d).value, log, clock))
    && (forall k | k in d.limits :: RecordTimely(d, k, log, clock))
    && (forall k :: ControlHeld(d, k, log))
  }

  /** Everything recorded has its origin in the history, and a held baseline is never under an old conflict pause. */
  ghost predicate Known(d: Data, log: seq<Event>) {
    && (PendingOf(d).Some? ==> ReservedAs(log, PendingOf(d).value))
    && (Baseline(d).Some? ==> AcquiredEver(log, Baseline(d).value) && d.own.value.pause != Some(ExternalConflict))
    && (Expected(d).Some? ==> ShownEver(log, Expected(d).value))
  }

  /** A pending request is well made for the baseline; a restoration is pending only while restoring. */
  ghost predicate PendingOk(d: Data, issued: nat) {
    PendingOf(d).Some? ==>
      && Baseline(d).Some? && PendingOf(d).value.ticket < issued && WellMade(PendingOf(d).value, Baseline(d).value)
      && (PendingOf(d).value.restore ==> d.own.value.restoring)
  }

  ghost predicate OwnOk(d: Data, log: seq<Event>, issued: nat) {
    (forall t | t in Outstanding(log) :: PendingIs(d, t)) && PendingOk(d, issued) && Known(d, log)
  }

  ghost predicate DataInv(d: Data, log: seq<Event>, issued: nat, clock: nat) {
    OwnOk(d, log, issued) && (Steady(log) ==> Timely(d, log, clock))
  }

  /** Every ticket of the history has been issued; on a steady clock calls lie in the past. */
  ghost predicate TicketsBy(log: seq<Event>, issued: nat, clock: nat) {
    && (forall t: nat :: CallTime(log, t).Some? ==> t < issued && (Steady(log) ==> CallTime(log, t).value <= clock))
    && (forall t: nat :: TicketReserved(log, t) ==> t < issued)
    && (forall t: nat :: Closed(log, t) ==> t < issued)
  }

  /** Memory is what the history says it is, and so is the disk where the history can tell. */
  ghost predicate Tracked(mem: Data, disk: Data, log: seq<Event>) {
    && BaselineAfter(log) == Baseline(mem)
    && (Expected(mem).Some? ==> ExpectedAfter(log) == Expected(mem))
    && (PendingOf(mem).Some? ==> !Closed(log, PendingOf(mem).value.ticket))
    && (Durable(log) ==> Baseline(disk) == BaselineAfter(log))
  }

  ghost predicate Inv(s: State) {
    && GoodLog(s.log) && TicketsBy(s.log, s.issued, s.clock) && Tracked(s.mem, s.disk, s.log)
    && DataInv(s.mem, s.log, s.issued, s.clock) && DataInv(s.disk, s.log, s.issued, s.clock)
  }

  // ---------------------------------------------------------------- events

  lemma Appended(log: seq<Event>, e: Event)
    ensures (log + [e])[..|log + [e]| - 1] == log && (log + [e])[|log + [e]| - 1] == e
    ensures Steady(log + [e]) <==> Steady(log) && !e.ClockBack?
    ensures CallCount(log + [e]) == CallCount(log) + (if e.Call? then 1 else 0)
    ensures !e.Observed? && !e.Call? && !e.Crash? ==> FreshShown(log + [e]) == FreshShown(log)
  {
    assert ClockBack in log + [e] <==> ClockBack in log || e == ClockBack;
  }

  /** What has its origin in a history has it in a longer one. */
  lemma KnownStays(d: Data, log: seq<Event>, e: Event)
    requires Known(d, log)
    ensures Known(d, log + [e])
  {
    hide AcquiredEver, ReservedAs, ShownEver;
    var after := log + [e];
    assert after[..|log|] == log;
    if PendingOf(d).Some? { ReservedGrows(after, |log|, PendingOf(d).value); }
    if Baseline(d).Some? { AcquiredGrows(after, |log|, Baseline(d).value); }
    if Expected(d).Some? { ShownGrows(after, |log|, Expected(d).value); }
  }

  lemma TicketsAfter(log: seq<Event>, e: Event, t: nat)
    ensures TicketReserved(log + [e], t) <==> TicketReserved(log, t) || (e.Reserved? && e.request.ticket == t)
  {
    if TicketReserved(log, t) {
      var x :| x in log && x.Reserved? && x.request.ticket == t;
      assert x in log + [e];
    }
    assert e in log + [e];
  }

  lemma ClosedAfter(log: seq<Event>, e: Event, t: nat)
    ensures Closed(log + [e], t) <==> !e.Crash? && (Resolves(e, t) || Closed(log, t))
  {
    Appended(log, e);
  }

  /** Events that are neither calls nor clock jumps leave each copy's facts alone. */
  lemma QuietEvent(d: Data, log: seq<Event>, e: Event, issued: nat, clock: nat)
    requires DataInv(d, log, issued, clock) && !e.Call? && !e.ClockBack?
    ensures DataInv(d, log + [e], issued, clock)
  {
    hide OwnOk, Timely;
    Appended(log, e);
    OwnStays(d, log, e, issued);
    if Steady(log) { QuietTimely(d, log, e, clock); }
  }

  lemma OwnStays(d: Data, log: seq<Event>, e: Event, issued: nat)
    requires OwnOk(d, log, issued) && !e.Call?
    ensures OwnOk(d, log + [e], issued)
  {
    hide Known, WellMade;
    Appended(log, e);
    KnownStays(d, log, e);
    assert Outstanding(log + [e]) <= Outstanding(log);
  }

  lemma QuietTimes(log: seq<Event>, e: Event)
    requires !e.Call?
    ensures forall t :: CallTime(log + [e], t) == CallTime(log, t)
    ensures forall k :: LastCall(log + [e], k) == LastCall(log, k)
  {
    Appended(log, e);
  }

  lemma QuietTimely(d: Data, log: seq<Event>, e: Event, clock: nat)
    requires Timely(d, log, clock) && !e.Call?
    ensures Timely(d, log + [e], clock)
  {
    hide CallTime, LastCall;
    QuietTimes(log, e);
    forall k | k in d.limits ensures RecordTimely(d, k, log + [e], clock) { assert RecordTimely(d, k, log, clock); }
    forall k ensures ControlHeld(d, k, log + [e]) { assert ControlHeld(d, k, log); }
  }

  /** Events that issue no ticket and call nothing keep the tickets in order. */
  lemma QuietTickets(log: seq<Event>, e: Event, issued: nat, clock: nat)
    requires TicketsBy(log, issued, clock) && !e.Call? && !e.Reserved?
    requires forall t: nat | Resolves(e, t) :: t < issued
    ensures TicketsBy(log + [e], issued, clock)
  {
    hide CallTime, TicketReserved, Closed;
    Appended(log, e);
    QuietTimes(log, e);
    forall t: nat | TicketReserved(log + [e], t) ensures t < issued { TicketsAfter(log, e, t); }
    forall t: nat | Closed(log + [e], t) ensures t < issued { ClosedAfter(log, e, t); }
  }

  /** The clock moves on, or is seen to have moved back. */
  lemma ClockMoves(s: State, now: nat)
    requires Inv(s)
    ensures now >= s.clock ==> Inv(s.(clock := now))
    ensures now < s.clock ==> Inv(s.With(ClockBack))
  {
    hide CallTime, LastCall, Timely, OwnOk, TicketReserved;
    if now >= s.clock {
      hide Tracked, GoodLog;
      if Steady(s.log) {
        LaterTimely(s.mem, s.log, s.clock, now);
        LaterTimely(s.disk, s.log, s.clock, now);
      }
    } else {
      hide TicketsBy, GoodLog;
      Appended(s.log, ClockBack);
      QuietTickets(s.log, ClockBack, s.issued, s.clock);
      OwnStays(s.mem, s.log, ClockBack, s.issued);
      OwnStays(s.disk, s.log, ClockBack, s.issued);
      GoodExtends(s.log, ClockBack);
    }
  }

  lemma LaterTimely(d: Data, log: seq<Event>, clock: nat, now: nat)
    requires Timely(d, log, clock) && clock <= now
    ensures Timely(d, log, now)
  {
    hide CallTime, LastCall;
    forall k | k in d.limits ensures RecordTimely(d, k, log, now) { assert RecordTimely(d, k, log, clock); }
  }

  /** Power is lost: memory becomes whatever the disk held. */
  lemma Crashes(s: State)
    requires Inv(s)
    ensures Inv(s.With(Crash(s.disk)).(mem := s.disk))
  {
    hide DataInv, TicketsBy, AcquiredEver, ShownEver, GoodLog;
    assert Known(s.disk, s.log) by { KnownOf(s.disk, s.log, s.issued, s.clock); }
    Appended(s.log, Crash(s.disk));
    QuietEvent(s.disk, s.log, Crash(s.disk), s.issued, s.clock);
    QuietTickets(s.log, Crash(s.disk), s.issued, s.clock);
    GoodExtends(s.log, Crash(s.disk));
  }

  lemma KnownOf(d: Data, log: seq<Event>, issued: nat, clock: nat)
    requires DataInv(d, log, issued, clock)
    ensures Known(d, log)
  {}

  /** A justified event, with memory following it in the same step. */
  lemma Moves(s: State, e: Event, next: Data)
    requires Inv(s) && Justified(s.log, e) && !e.Call? && !e.Reserved? && !e.ClockBack? && !e.Crash?
    requires DataInv(next, s.log + [e], s.issued, s.clock) && Baseline(next) == BaselineAfter(s.log + [e])
    requires Expected(next).Some? ==> ExpectedAfter(s.log + [e]) == Expected(next)
    requires PendingOf(next).Some? ==> !Closed(s.log + [e], PendingOf(next).value.ticket)
    requires forall t: nat | Resolves(e, t) :: t < s.issued
    ensures Inv(s.With(e).(mem := next))
  {
    hide DataInv, TicketsBy, Justified, GoodLog;
    Appended(s.log, e);
    QuietEvent(s.disk, s.log, e, s.issued, s.clock);
    QuietTickets(s.log, e, s.issued, s.clock);
    GoodExtends(s.log, e);
  }

  /** An event that says nothing about the baseline, the expectation or a resolution. */
  predicate Plain(e: Event) { e.Observed? || e.Declined? || e.Applied? }

  lemma Notes(s: State, e: Event)
    requires Inv(s) && Justified(s.log, e) && Plain(e)
    ensures Inv(s.With(e)) && Outstanding(s.With(e).log) == Outstanding(s.log) && Booked(s.With(e).log) == Booked(s.log)
  {
    hide DataInv, TicketsBy, Justified, GoodLog;
    Appended(s.log, e);
    QuietEvent(s.mem, s.log, e, s.issued, s.clock);
    Moves(s, e, s.mem);
  }

  /** Memory is rewritten; baseline and expectation stay, and nothing closed comes back. */
  lemma OwnMoves(s: State, next: Data)
    requires Inv(s) && DataInv(next, s.log, s.issued, s.clock)
    requires Baseline(next) == Baseline(s.mem) && (Expected(next).Some? ==> Expected(next) == Expected(s.mem))
    requires PendingOf(next).Some? ==> !Closed(s.log, PendingOf(next).value.ticket)
    ensures Inv(s.(mem := next))
  {
    hide DataInv, TicketsBy, GoodLog;
  }

  /** A request is given the next ticket. */
  lemma Reserves(s: State, r: Request)
    requires Inv(s) && FreshShown(s.log) == Some(r.seen) && r.ticket == s.issued
    ensures Inv(s.With(Reserved(r)).(issued := s.issued + 1)) && ReservedAs(s.log + [Reserved(r)], r)
    ensures Booked(s.log + [Reserved(r)]) == Some(Booking(r, false)) && !Closed(s.log + [Reserved(r)], r.ticket)
  {
    hide CallTime, LastCall, Known, Timely, WellMade, TicketReserved, GoodLog, Closed;
    var e := Reserved(r);
    Appended(s.log, e);
    QuietTimes(s.log, e);
    forall t: nat | TicketReserved(s.log + [e], t) ensures t < s.issued + 1 { TicketsAfter(s.log, e, t); }
    forall t: nat ensures Closed(s.log + [e], t) == Closed(s.log, t) { ClosedAfter(s.log, e, t); }
    QuietEvent(s.mem, s.log, e, s.issued, s.clock);
    QuietEvent(s.disk, s.log, e, s.issued, s.clock);
    GoodExtends(s.log, e);
    assert e in s.log + [e];
  }

  lemma {:induction false} LastCallHasTime(log: seq<Event>, control: string)
    requires GoodLog(log) && LastCall(log, control).Some?
    ensures CallTime(log, LastCall(log, control).value.ticket) == Some(LastCall(log, control).value.time)
  {
    var e := log[|log| - 1];
    if !(e.Call? && e.control == control) { LastCallHasTime(log[..|log| - 1], control); }
  }

  /** A command reaches the gateway while memory and disk agree on it. */
  lemma CalledKeeps(s: State, e: Event)
    requires Inv(s) && s.mem == s.disk && e.Call? && CallJustified(s.log, e) && e.disk == s.disk
    requires e.request.ticket < s.issued && (Steady(s.log) ==> e.time <= s.clock)
    requires Steady(s.log) ==> NotStampedFor(s.disk, e.control, e.request.sentAt)
    ensures Inv(s.With(e)) && CallTime(s.log + [e], e.request.ticket) == Some(e.time)
  {
    hide Known, TicketReserved, WellMade, GoodLog, Timely, Booked, Closed;
    var log, after, ticket := s.log, s.log + [e], e.request.ticket;
    Appended(log, e);
    assert forall t :: CallTime(after, t) == if t == ticket then Some(e.time) else CallTime(log, t);
    assert forall k :: LastCall(after, k) == if k == e.control then Some(Last(ticket, e.time)) else LastCall(log, k);
    forall t: nat | TicketReserved(after, t) ensures t < s.issued { TicketsAfter(log, e, t); }
    forall t: nat ensures Closed(after, t) == Closed(log, t) { ClosedAfter(log, e, t); }
    KnownStays(s.disk, log, e);
    assert BaselineAfter(after) == BaselineAfter(log);
    assert Outstanding(after) == Outstanding(log) + {ticket};
    if Steady(log) { CalledTimely(s.disk, log, s.clock, e); }
    GoodExtends(log, e);
  }

  lemma GoodExtends(log: seq<Event>, e: Event)
    requires GoodLog(log) && Justified(log, e)
    ensures GoodLog(log + [e])
  {
    Appended(log, e);
  }

  /** No stamp of the control speaks for a request sent at `sentAt`. */
  ghost predicate NotStampedFor(d: Data, control: string, sentAt: nat) {
    control in d.limits ==>
      d.limits[control].confirmationFor != Some(sentAt) && d.limits[control].settlementFor != Some(sentAt)
  }

  lemma CalledTimely(d: Data, log: seq<Event>, clock: nat, e: Event)
    requires Timely(d, log, clock) && e.Call? && CallJustified(log, e) && e.disk == d && Steady(log)
    requires NotStampedFor(d, e.control, e.request.sentAt)
    requires forall t :: CallTime(log + [e], t) == if t == e.request.ticket then Some(e.time) else CallTime(log, t)
    requires forall k ::
      LastCall(log + [e], k) == if k == e.control then Some(Last(e.request.ticket, e.time)) else LastCall(log, k)
    ensures Timely(d, log + [e], clock)
  {
    hide CallTime, LastCall, Outstanding, BaselineAfter, Booked;
    forall k | k in d.limits ensures RecordTimely(d, k, log + [e], clock) { assert RecordTimely(d, k, log, clock); }
    forall k ensures ControlHeld(d, k, log + [e]) { assert ControlHeld(d, k, log); }
  }

  // ---------------------------------------------------------------- rewriting one copy

  /** A new timing record for one control. */
  lemma LimitsRewritten(d: Data, control: string, r: Record, log: seq<Event>, issued: nat, clock: nat)
    requires DataInv(d, log, issued, clock)
    requires Steady(log) ==> RecordTimely(d.(limits := d.limits[control := r]), control, log, clock)
    requires Steady(log) ==> ControlHeld(d.(limits := d.limits[control := r]), control, log)
    ensures DataInv(d.(limits := d.limits[control := r]), log, issued, clock)
  {
    hide CallTime, LastCall, Outstanding;
    var n := d.(limits := d.limits[control := r]);
    if Steady(log) {
      forall k | k in n.limits ensures RecordTimely(n, k, log, clock) {
        if k != control { assert RecordTimely(d, k, log, clock); }
      }
      forall k ensures ControlHeld(n, k, log) {
        if k != control { assert ControlHeld(d, k, log); }
      }
    }
  }

  /** A new ownership record that keeps the pending request's identity, or drops one that is answered for. */
  lemma OwnRewritten(d: Data, own: Option<Ownership>, log: seq<Event>, issued: nat, clock: nat)
    requires DataInv(d, log, issued, clock) && OwnOk(d.(own := own), log, issued)
    requires Steady(log) && PendingOf(d.(own := own)).Some? ==>
      PendingTimely(PendingOf(d.(own := own)).value, log, clock) && SamePending(d, d.(own := own))
    requires Steady(log) && PendingOf(d.(own := own)).None? && PendingOf(d).Some? ==> Answered(d, log)
    ensures DataInv(d.(own := own), log, issued, clock)
  {
    hide CallTime, LastCall, Outstanding;
    var n := d.(own := own);
    if Steady(log) {
      forall k | k in n.limits ensures RecordTimely(n, k, log, clock) { assert RecordTimely(d, k, log, clock); }
      forall k ensures ControlHeld(n, k, log) { assert ControlHeld(d, k, log); }
    }
  }

  /** Same request on the same control, possibly with a later earliest read. */
  ghost predicate SamePending(d: Data, n: Data) {
    && PendingOf(d).Some? && PendingOf(n).Some? && PendingOf(d).value.ticket == PendingOf(n).value.ticket
    && PendingOf(d).value.sentAt == PendingOf(n).value.sentAt
    && d.own.value.identity.control == n.own.value.identity.control
  }

  /** If the pending request was the control's last call, the record already holds the control back. */
  ghost predicate Answered(d: Data, log: seq<Event>)
    requires PendingOf(d).Some?
  {
    var k := d.own.value.identity.control;
    LastCall(log, k).Some? && LastCall(log, k).value.ticket == PendingOf(d).value.ticket ==>
      k in d.limits && Anchored(d.limits[k], LastCall(log, k).value.time)
  }

  /** A freshly reserved request joins an idle record. */
  lemma RequestAdded(d: Data, own: Ownership, log: seq<Event>, issued: nat, clock: nat)
    requires DataInv(d, log, issued, clock) && PendingOf(d).None? && own.pending.Some?
    requires OwnOk(d.(own := Some(own)), log, issued) && CallTime(log, own.pending.value.ticket).None?
    requires Steady(log) ==> PendingTimely(own.pending.value, log, clock)
    ensures DataInv(d.(own := Some(own)), log, issued, clock)
  {
    hide CallTime, LastCall, Outstanding;
    var n := d.(own := Some(own));
    if Steady(log) {
      forall k | k in n.limits ensures RecordTimely(n, k, log, clock) { assert RecordTimely(d, k, log, clock); }
      forall k ensures ControlHeld(n, k, log) { assert ControlHeld(d, k, log); }
    }
  }
}
