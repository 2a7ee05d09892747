/**
 Two ways in which the history can mislead, each with the exact condition: a command sent under a baseline that is not
 the setting it replaces, and a change reported as applied although it was never sent.
 */
module ExportExact {
  import opened Common
  import opened ExportLog
  import opened ExportState
  import opened ExportTiming
  import opened ExportSteps
  import opened ExportKeeps
  import opened ExportDispatch
  import opened ExportRuns
  import opened ExportTraces

  // ---------------------------------------------------------------- an obliging environment

  /** Saves and calls succeed and the clock stands still; the gateway shows these readings. */
  function Showing(shown: seq<Readback>): World {
    World(seq(|shown|, i requires 0 <= i < |shown| => Look(Some(shown[i]), false)), [], [], [])
  }

  ghost predicate Obliging(s: State) { s.world.faults == [] && s.world.moments == [] }

  lemma SavesNow(s: State, d: Data, flush: bool)
    requires Obliging(s)
    ensures Persisted(s, d, flush) == After(s.(mem := d, disk := d), Done(()))
  {}

  lemma PreparesNow(s: State, now: nat, target: Identity)
    requires Obliging(s)
    ensures var record := Normalized(s.mem, target.control, now);
      var d := s.mem.(limits := s.mem.limits[target.control := record]);
      Prepared(s, now, target) == After(s.(mem := d, disk := d), Done(record))
  {
    hide Persisted, Normalized;
    var record := Normalized(s.mem, target.control, now);
    SavesNow(s, s.mem.(limits := s.mem.limits[target.control := record]), false);
  }

  lemma LooksNow(s: State, now: nat, target: Identity, read: Readback)
    requires |s.world.looks| > 0 && s.world.looks[0] == Look(Some(read), false) && read.at == now
    ensures Looked(s, now, Some(target)) ==
      (s.(world := s.world.(looks := s.world.looks[1..]), log := s.log + [Observed(read)]), Seen(read))
  {}

  ghost predicate Prefixes(a: seq<Event>, b: seq<Event>) { |a| <= |b| && b[..|a|] == a }

  /** The reading that matches a request. */
  function Matching(p: Request, now: nat): Readback {
    Readback(Setting(p.watts, if p.slew.Some? then p.slew.value else p.seen.setting.slew), false, now)
  }

  // ---------------------------------------------------------------- applied without a call

  lemma RefreshesNow(s: State, own: Ownership, p: Request, now: nat)
    requires Obliging(s) && s.mem.own == Some(own) && own.pending == Some(p)
    ensures var kept := own.(pending := Some(Reread(p, now)));
      var r := Refreshed(s, own, now);
      && r.outcome == Done(kept) && r.state.mem == s.mem.(own := Some(kept)) && r.state.log == s.log
      && r.state == s.(mem := r.state.mem, disk := r.state.disk)
  {
    var first := own.(pending := Some(if p.sentAt > now then p.(sentAt := now) else p));
    SavesNow(s, s.mem.(own := Some(first)), false);
    var t := if p.sentAt > now then OwnSaved(s, Some(first)).state else s;
    SavesNow(t, t.mem.(own := Some(own.(pending := Some(Reread(p, now))))), false);
  }

  lemma StampsNow(s: State, p: Request, now: nat, target: Identity)
    requires Obliging(s)
    ensures var r := Stamped(s, p, now, target);
      && r.outcome.Done? && r.state.mem.own == s.mem.own && r.state.log == s.log
      && r.state == s.(mem := r.state.mem, disk := r.state.disk)
  {
    hide Persisted, Normalized;
    PreparesNow(s, now, target);
    var t, record := Prepared(s, now, target).state, Normalized(s.mem, target.control, now);
    var stamped := record.(confirmedAt := Some(now), confirmationFor := Some(p.sentAt));
    SavesNow(t, t.mem.(limits := t.mem.limits[target.control := stamped]), true);
  }

  /** What a match leaves behind. */
  function Settlement(log: seq<Event>, q: Request, read: Readback): seq<Event> {
    log + [Observed(read)] + [Applied(q, read)] + [Confirmed(q, read)]
    + (if q.restore then [Dropped(read.setting, Matched(read))] else [])
  }

  lemma SettlesNow(s: State, own: Ownership, q: Request, read: Readback, now: nat, target: Identity)
    requires Obliging(s) && s.mem.own == Some(own)
    ensures var r := Settling(s, own, q, read, now, target);
      && r.outcome.Done? && Obliging(r.state) && r.state.clock == s.clock
      && r.state.log == s.log + [Applied(q, read)] + [Confirmed(q, read)]
                        + (if q.restore then [Dropped(read.setting, Matched(read))] else [])
      && r.state.mem.own == if q.restore then None else Some(own.(pending := None, expected := Some(read.setting)))
  {
    hide Persisted, Stamped;
    StampsNow(s, q, now, target);
    var t := Stamped(s, q, now, target).state.With(Applied(q, read));
    SavesNow(t, t.mem, false);
    var v := t.(disk := t.mem).With(Confirmed(q, read));
    SavesNow(v.With(Dropped(read.setting, Matched(read))), v.mem.(own := None), false);
    SavesNow(v, v.mem.(own := Some(own.(pending := None, expected := Some(read.setting)))), false);
  }

  /** A pending request whose watts are shown is reported as applied, called or not. */
  lemma MatchesNow(s: State, own: Ownership, p: Request)
    requires s.mem.own == Some(own) && own.pending == Some(p) && (p.restore || p.slew.None?)
    ensures var read, q := Matching(p, s.clock), Reread(p, s.clock);
      var r := Reconciled(s.(world := Showing([Matching(p, s.clock)])), s.clock, Some(own.identity));
      && r.outcome.Done? && Obliging(r.state) && r.state.clock == s.clock && r.state.log == Settlement(s.log, q, read)
      && r.state.mem.own == if p.restore then None else Some(own.(pending := None, expected := Some(read.setting)))
  {
    hide Persisted, Normalized, Refreshed, Looked, Settling, Prepared;
    var now, target, read, q := s.clock, own.identity, Matching(p, s.clock), Reread(p, s.clock);
    var begun := s.(world := Showing([read]));
    PreparesNow(begun, now, target);
    var t := Prepared(begun, now, target).state;
    RefreshesNow(t, own, p, now);
    var kept, u := own.(pending := Some(q)), Refreshed(t, own, now).state;
    LooksNow(u, now, target, read);
    var v := Looked(u, now, Some(target)).0;
    SettlesNow(v, kept, q, read, now, target);
    assert ReadMatches(q, read);
    assert PendingReconciled(v, kept, q, read, now, target).state == Settling(v, kept, q, read, now, target).state;
  }

  ghost predicate MayApplyUnsent(s: State, ticket: nat) {
    exists ops: seq<Operation>, k: nat :: UnsentApplied(Ran(s, ops).log, ticket, k)
  }

  lemma RanOne(s: State, op: Operation)
    ensures Ran(s, [op]) == Stepped(s, op)
  {
    hide Stepped;
    RanMore(s, op, []);
    assert [] + [op] == [op];
  }

  lemma PendingSlew(s: State, own: Ownership, p: Request)
    requires Inv(s) && s.mem.own == Some(own) && own.pending == Some(p)
    ensures p.restore || p.slew.None?
    ensures p.restore ==> own.restoring
  {
    hide Inv;
    PendingFits(s, own);
  }

  /** Whatever is pending and was never called can be reported as applied at the next reconciliation. */
  lemma AppliesNext(s: State, ticket: nat) returns (op: Operation, k: nat)
    requires Inv(s) && PendingIs(s.mem, ticket) && CallTime(s.log, ticket).None?
    ensures UnsentApplied(Stepped(s, op).log, ticket, k)
  {
    hide Inv, CallTime, Reconciled;
    var own, p := s.mem.own.value, PendingOf(s.mem).value;
    PendingSlew(s, own, p);
    MatchesNow(s, own, p);
    var read := Matching(p, s.clock);
    op, k := Reconciles(s.clock, Some(own.identity), Showing([read])), |s.log| + 1;
    var log := Stepped(s, op).log;
    assert log == Settlement(s.log, Reread(p, s.clock), read);
    assert log[..k] == s.log + [Observed(read)];
    QuietTimes(s.log, Observed(read));
  }

  /** A change can be reported as applied without ever having been sent exactly if it already was, or if its request is
      on record, in memory or on disk, and was not called. */
  lemma UnsentAppliedExactly(s: State, ticket: nat)
    requires Inv(s) && ticket < s.issued
    ensures MayApplyUnsent(s, ticket) <==>
      || (exists k: nat :: UnsentApplied(s.log, ticket, k))
      || (CallTime(s.log, ticket).None? && HasTicket(s, ticket))
  {
    hide Inv, CallTime, Stepped, UnsentApplied;
    if k: nat :| UnsentApplied(s.log, ticket, k) {
      RanNothing(s);
      assert UnsentApplied(Ran(s, []).log, ticket, k);
    } else if CallTime(s.log, ticket).None? && PendingIs(s.mem, ticket) {
      var op, k := AppliesNext(s, ticket);
      RanOne(s, op);
      assert UnsentApplied(Ran(s, [op]).log, ticket, k);
    } else if CallTime(s.log, ticket).None? && PendingIs(s.disk, ticket) {
      var t := RestartsFirst(s);
      QuietTimes(s.log, Crash(s.disk));
      var op, k := AppliesNext(t, ticket);
      RanMore(s, op, [Restarts]);
      assert UnsentApplied(Ran(s, [Restarts] + [op]).log, ticket, k);
    } else if MayApplyUnsent(s, ticket) {
      var ops: seq<Operation>, k: nat :| UnsentApplied(Ran(s, ops).log, ticket, k);
      LaterApplied(s, ops, ticket, k);
    }
  }

  lemma RestartsFirst(s: State) returns (t: State)
    requires Inv(s)
    ensures t == Ran(s, [Restarts]) && Inv(t) && t.mem == t.disk == s.disk && t.log == s.log + [Crash(s.disk)]
    ensures t.issued == s.issued
  {
    hide Inv;
    t := Restarted(s);
    RanOne(s, Restarts);
    RestartKeeps(s);
  }

  lemma LaterApplied(s: State, ops: seq<Operation>, ticket: nat, k: nat)
    requires Inv(s) && ticket < s.issued && UnsentApplied(Ran(s, ops).log, ticket, k)
    ensures k < |s.log| ==> UnsentApplied(s.log, ticket, k)
    ensures k >= |s.log| ==> CallTime(s.log, ticket).None? && HasTicket(s, ticket)
  {
    hide Inv, Ran, CallTime, From;
    var q, t := Probe(s, ticket, Setting(None, 0)), Ran(s, ops);
    Begins(s, ticket, q.baseline);
    RunTraces(q, s, ops);
    if k < |s.log| {
      assert t.log[..k] == s.log[..k] && t.log[k] == t.log[..|s.log|][k];
    } else {
      CalledBefore(t.log[..k], |s.log|, ticket);
      assert t.log[..k][..|s.log|] == s.log;
    }
  }

  lemma {:induction false} CalledBefore(log: seq<Event>, n: nat, ticket: nat)
    requires n <= |log| && CallTime(log, ticket).None?
    ensures CallTime(log[..n], ticket).None?
  {
    if n < |log| {
      CalledBefore(log[..|log| - 1], n, ticket);
      assert log[..|log| - 1][..n] == log[..n];
    } else {
      assert log[..n] == log;
    }
  }

  // ---------------------------------------------------------------- a command under an older baseline

  ghost predicate Open(log: seq<Event>, i: nat) {
    i < |log| && log[i].Acquired? && forall m | i < m < |log| :: !log[m].Call? && !log[m].Acquired?
  }

  ghost predicate MayMislead(s: State, i: nat) {
    exists ops: seq<Operation>, k: nat :: Misled(Ran(s, ops).log, i, k)
  }

  lemma LaterMisled(s: State, ops: seq<Operation>, i: nat, k: nat)
    requires Inv(s) && i < |s.log| && s.log[i].Acquired? && Misled(Ran(s, ops).log, i, k)
    ensures k < |s.log| ==> Misled(s.log, i, k)
    ensures k >= |s.log| ==> Open(s.log, i) && Keeps(s, s.log[i].baseline)
  {
    hide Inv, Ran, From, BaselineAfter;
    var t := Ran(s, ops);
    var ticket := IssuedTicket(s, i);
    var q := Probe(s, ticket, s.log[i].baseline);
    Begins(s, ticket, q.baseline);
    RunTraces(q, s, ops);
    RunKeeps(s, ops);
    assert forall m | 0 <= m < |s.log| :: t.log[m] == t.log[..|s.log|][m] == s.log[m];
    if k < |s.log| {
      assert t.log[..k] == s.log[..k];
    } else {
      GoodOf(t);
      CallKeepsBaseline(t.log, k);
      assert q.Held(t.log[..k]);
    }
  }

  lemma IssuedTicket(s: State, i: nat) returns (ticket: nat)
    requires Inv(s) && i < |s.log| && s.log[i].Acquired?
    ensures ticket < s.issued
  {
    hide DataInv, Tracked, CallTime, Closed;
    GoodPrefix(s.log, i);
    var k := BookedWas(s.log[..i]);
    ticket := s.log[k].request.ticket;
    TicketFound(s.log, s.log[k]);
  }

  lemma CallKeepsBaseline(log: seq<Event>, k: nat)
    requires GoodLog(log) && k < |log| && log[k].Call? && !log[k].request.restore && BaselineAfter(log[..k]).Some?
    ensures KeptBy(log[k].disk, BaselineAfter(log[..k]).value)
  {
    hide CallTime, Outstanding, Booked, BaselineAfter;
    GoodPrefix(log, k);
  }

  // ---------------------------------------------------------------- three steps to an older baseline

  /** With nothing shown, reconciliation still puts the timing record in order. */
  lemma ReadiesNow(s: State, own: Ownership)
    requires s.mem.own == Some(own) && own.pending.None?
    ensures var r := Reconciled(s.(world := Showing([])), s.clock, Some(own.identity));
      && r.outcome.Done? && r.state.mem.own == s.mem.own && r.state.log == s.log && r.state.clock == s.clock
      && own.identity.control in r.state.mem.limits && WellFormed(r.state.mem.limits[own.identity.control], s.clock)
  {
    hide Persisted, Normalized;
    var begun := s.(world := Showing([]));
    PreparesNow(begun, s.clock, own.identity);
    NormalizationSettles(s.mem, own.identity.control, s.clock, s.clock);
  }

  lemma ResumesNow(s: State, own: Ownership)
    requires s.mem.own == Some(own) && own.pending.None? && own.baseline.Some?
    ensures var t := Resumed(s.(world := Showing([]))).state;
      && t.mem == s.mem.(own := Some(own.(pause := None))) && t.log == s.log && t.clock == s.clock
  {
    hide Persisted;
    SavesNow(s.(world := Showing([])), s.mem.(own := Some(own.(pause := None))), false);
  }

  /** Idle, unpaused, holding `b` and not giving it back, with its timing record in order. */
  ghost predicate Poised(s: State, b: Setting) {
    && Inv(s) && s.mem.own.Some? && PendingOf(s.mem).None? && KeptBy(s.mem, b) && s.mem.own.value.pause.None?
    && s.mem.own.value.identity.control in s.mem.limits
    && WellFormed(s.mem.limits[s.mem.own.value.identity.control], s.clock)
  }

  function MuchLater(clock: nat): nat { clock + MAX_SAVED_INTERVAL + MIN_CHANGE }

  lemma LaterIsEligible(d: Data, control: string, clock: nat)
    requires control in d.limits && WellFormed(d.limits[control], clock)
    ensures var r := Normalized(d, control, MuchLater(clock));
      && r == d.limits[control].(checkedAt := MuchLater(clock))
      && AtMost(NextEligible(r, 0), MuchLater(clock))
  {}

  /** What the gateway shows to an idle control that expects it reports nothing. */
  lemma ReconcilesIdle(s: State, own: Ownership, now: nat, read: Readback, record: Record)
    requires Obliging(s) && s.mem.own == Some(own) && own.pending.None? && own.pause.None? && now >= s.clock
    requires |s.world.looks| > 0 && s.world.looks[0] == Look(Some(read), false) && read.at == now && !read.pending
    requires own.expected.Some? ==> own.expected == Some(read.setting)
    requires record == Normalized(s.mem, own.identity.control, now)
    ensures var r := Reconciled(s, now, Some(own.identity));
      && r.outcome == Done(None) && r.state.log == s.log + [Observed(read)] && r.state.clock == now
      && r.state.mem == s.mem.(limits := s.mem.limits[own.identity.control := record])
      && r.state.world == s.world.(looks := s.world.looks[1..]) && r.state.issued == s.issued
  {
    hide Persisted, Normalized, Looked;
    PreparesNow(s.(clock := now), now, own.identity);
    var t := Prepared(s.(clock := now), now, own.identity).state;
    LooksNow(t, now, own.identity, read);
  }

  /** A reservation is durable when saves succeed. */
  lemma ReservesNow(s: State, o: Order)
    requires Obliging(s)
    ensures var r := Reserving(s, o);
      && r.outcome.Done? && Obliging(r.state) && r.state.log == TakenOver(s.log, s.mem, o.request, o.baseline)
      && r.state.world == s.world && r.state.clock == s.clock && r.state.mem.own == Some(o.own)
      && r.state.disk == r.state.mem && r.state.issued == s.issued + 1
  {
    hide Persisted, TakenOver;
    var begun := s.(issued := s.issued + 1, log := TakenOver(s.log, s.mem, o.request, o.baseline));
    SavesNow(begun, begun.mem.(own := Some(o.own)), false);
    var t := OwnSaved(begun, Some(o.own)).state;
    SavesNow(t, t.mem.(limits := t.mem.limits[o.target.control := o.Reservation()]), true);
  }

  /** A durable order is called when the last look shows the same setting. */
  lemma SendsNow(s: State, o: Order, window: (nat, nat), read: Readback)
    requires Obliging(s) && s.world.answers == [] && Underway(s, o) && !o.request.restore
    requires |s.world.looks| > 0 && s.world.looks[0] == Look(Some(read), false) && read.at == s.clock && !read.pending
    requires read.setting == o.request.seen.setting && AtMost(NextEligible(o.timing, o.option), s.clock)
    requires window.0 <= s.clock < window.1
    ensures var e := Call(o.target.control, s.clock, o.request, s.disk);
      Prefixes(s.log + [Observed(read)] + [e], Sending(s, o, window).state.log)
  {
    hide NextEligible, Looked, Followed, Traced, From, Probe.Held;
    LooksNow(s, s.clock, o.target, read);
    var t := Looked(s, s.clock, Some(o.target)).0;
    assert s.(world := s.world.AfterMoment()) == s && Ticked(s, s.clock) == s;
    var u := Called(t, o.target.control, o.request, s.clock).0;
    var q := Probe(u, 0, o.baseline);
    Continues(u, o);
    Follow(q, u, o, Accepted, s.clock);
    Extends(q, Followed(u, o, Accepted, s.clock).state);
  }

  /** The order in memory, for a baseline that is kept. */
  ghost predicate Underway(s: State, o: Order) {
    && s.mem.own == Some(o.own) && o.own.pending == Some(o.request) && o.own.baseline == Some(o.baseline)
    && !o.own.restoring && (o.previous.Some? ==> o.previous.value.pending.None?) && s.issued > 0
  }

  lemma Continues(s: State, o: Order)
    requires Underway(s, o)
    ensures Orders(Probe(s, 0, o.baseline), s, o)
  {
    var q := Probe(s, 0, o.baseline);
    Begins(s, 0, o.baseline);
    Parts(q, s);
  }

  lemma Extends(q: Probe, t: State)
    requires Traced(q, t)
    ensures Prefixes(q.start.log, t.log)
  {}

  /** A setting other than `b`, and a wish that differs from it. */
  function Other(b: Setting): Setting { Setting(b.watts, b.slew + 1) }

  function Wish(b: Setting): Option<int> { if b.watts.None? then Some(0) else None }

  /** The next change after a long enough wait, while the gateway shows what was expected and then something else. */
  function Strike(s: State, own: Ownership, b: Setting): Operation {
    var now := MuchLater(s.clock);
    var known := if own.expected.Some? then own.expected.value else b;
    Executes(Wish(b), now, Some(own.identity), 0, (0, now + 1),
             Showing([Readback(known, false, now), Readback(Other(b), false, now), Readback(Other(b), false, now)]))
  }

  lemma DispatchesNow(s: State, own: Ownership, b: Setting, read: Readback, watts: Option<int>)
    requires Obliging(s) && s.world.answers == []
    requires s.mem.own == Some(own) && own.pending.None? && own.baseline == Some(b) && !own.restoring
    requires |s.world.looks| > 0 && s.world.looks[0] == Look(Some(read), false) && read.at == s.clock && !read.pending
    requires own.identity.control in s.mem.limits
    requires var r := Normalized(s.mem, own.identity.control, s.clock); AtMost(NextEligible(r, 0), s.clock)
    ensures var request := Request(s.issued, watts, s.clock, None, false, read, None);
      var t := Dispatched(s, own, b, watts, s.clock, read, own.identity, false, 0, (0, s.clock + 1)).state;
      exists d: Data ::
        Prefixes(s.log + [Reserved(request)] + [Observed(read)] + [Call(own.identity.control, s.clock, request, d)], t.log)
  {
    hide Persisted, Normalized, NextEligible, Reserving, Sending;
    PreparesNow(s, s.clock, own.identity);
    var t, timing := Prepared(s, s.clock, own.identity).state, Normalized(s.mem, own.identity.control, s.clock);
    var request := Request(s.issued, watts, s.clock, None, false, read, None);
    var o := Order(own.(baseline := Some(b), pending := Some(request)), request, b, own.identity, timing, t.mem.own, 0);
    ReservesNow(t, o);
    var u := Reserving(t, o).state;
    SendsNow(u, o, (0, s.clock + 1), read);
    assert u.log == s.log + [Reserved(request)];
    assert Dispatched(s, own, b, watts, s.clock, read, own.identity, false, 0, (0, s.clock + 1)).state
        == Sending(u, o, (0, s.clock + 1)).state;
    assert Prefixes(s.log + [Reserved(request)] + [Observed(read)] + [Call(own.identity.control, s.clock, request, u.disk)],
                    Sending(u, o, (0, s.clock + 1)).state.log);
  }

  /** What the strike adds to the history. */
  function Blow(s: State, own: Ownership, b: Setting, d: Data): seq<Event> {
    var now := MuchLater(s.clock);
    var read := Readback(Other(b), false, now);
    var request := Request(s.issued, Wish(b), now, None, false, read, None);
    s.log + [Observed(Readback(if own.expected.Some? then own.expected.value else b, false, now))] + [Observed(read)]
    + [Reserved(request)] + [Observed(read)] + [Call(own.identity.control, now, request, d)]
  }

  lemma StrikesNow(s: State, own: Ownership, b: Setting)
    requires Poised(s, b) && s.mem.own == Some(own)
    ensures exists d: Data :: Prefixes(Blow(s, own, b, d), Stepped(s, Strike(s, own, b)).log)
  {
    hide Inv, Persisted, Normalized, NextEligible, Reconciled, Dispatched, Looked, WellFormed;
    var now, control := MuchLater(s.clock), own.identity.control;
    var known := Readback(if own.expected.Some? then own.expected.value else b, false, now);
    var other := Readback(Other(b), false, now);
    var begun := s.(world := Showing([known, other, other]));
    var record := Normalized(s.mem, control, now);
    LaterIsEligible(s.mem, control, s.clock);
    ReconcilesIdle(begun, own, now, known, record);
    var t := Reconciled(begun, now, Some(own.identity)).state;
    LooksNow(t, now, own.identity, other);
    var u := Looked(t, now, Some(own.identity)).0;
    NormalizationSettles(s.mem, control, now, now);
    assert Normalized(u.mem, control, now) == record.(checkedAt := now);
    assert record.(checkedAt := now) == record;
    DispatchesNow(u, own, b, other, Wish(b));
    assert Stepped(s, Strike(s, own, b))
        == Dispatched(u, own, b, Wish(b), now, other, own.identity, false, 0, (0, now + 1)).state;
    var request := Request(u.issued, Wish(b), now, None, false, other, None);
    var d: Data :| Prefixes(u.log + [Reserved(request)] + [Observed(other)] + [Call(control, now, request, d)],
                            Stepped(s, Strike(s, own, b)).log);
    assert Blow(s, own, b, d) == u.log + [Reserved(request)] + [Observed(other)] + [Call(control, now, request, d)];
  }

  /** What precedes the call leaves the baseline alone. */
  lemma BlowKeeps(log: seq<Event>, a: Event, b: Event, c: Event, d: Event)
    requires (a.Observed? || a.Reserved?) && (b.Observed? || b.Reserved?)
    requires (c.Observed? || c.Reserved?) && (d.Observed? || d.Reserved?)
    ensures BaselineAfter(log + [a] + [b] + [c] + [d]) == BaselineAfter(log)
  {
    hide BaselineAfter;
    QuietBaseline(log, a);
    QuietBaseline(log + [a], b);
    QuietBaseline(log + [a] + [b], c);
    QuietBaseline(log + [a] + [b] + [c], d);
  }

  /** The blow is a command under the older baseline. */
  lemma BlowMisleads(s: State, own: Ownership, b: Setting, d: Data, after: seq<Event>, i: nat)
    requires Poised(s, b) && Open(s.log, i) && s.log[i].baseline == b && Prefixes(Blow(s, own, b, d), after)
    ensures Misled(after, i, |s.log| + 4)
  {
    hide Inv, BaselineAfter;
    var blow, k := Blow(s, own, b, d), |s.log| + 4;
    assert after[..k] == blow[..k] == s.log + [blow[k - 4]] + [blow[k - 3]] + [blow[k - 2]] + [blow[k - 1]];
    BlowKeeps(s.log, blow[k - 4], blow[k - 3], blow[k - 2], blow[k - 1]);
    BaselineIs(s);
    assert forall m | 0 <= m <= k :: after[m] == after[..|blow|][m] == blow[m];
    assert forall m | 0 <= m < |s.log| :: blow[m] == s.log[m];
  }

  lemma QuietBaseline(log: seq<Event>, e: Event)
    requires e.Observed? || e.Reserved?
    ensures BaselineAfter(log + [e]) == BaselineAfter(log)
  {
    Appended(log, e);
  }

  /** From a record that keeps the baseline to one that is poised: settle what is pending, put the timing record in order
      and clear a pause. */
  lemma BecomesPoised(s: State, b: Setting, i: nat) returns (ops: seq<Operation>)
    requires Inv(s) && KeptBy(s.mem, b) && Open(s.log, i)
    ensures var t := Ran(s, ops); Poised(t, b) && Open(t.log, i) && t.log[i] == s.log[i]
  {
    hide Inv, Reconciled, Stepped, WellFormed;
    var first := Settles(s, b, i);
    RunKeeps(s, first);
    var t := Ran(s, first);
    var own := t.mem.own.value;
    var second := Reconciles(t.clock, Some(own.identity), Showing([]));
    ReadiesNow(t, own);
    assert Stepped(t, second) == Reconciled(t.(world := Showing([])), t.clock, Some(own.identity)).state by {
      Unfolds(t, second);
    }
    StepKeeps(t, second);
    RanMore(s, second, first);
    var u := Stepped(t, second);
    var third := Resumes(Showing([]));
    ResumesNow(u, own);
    assert Stepped(u, third) == Resumed(u.(world := Showing([]))).state by { Unfolds(u, third); }
    StepKeeps(u, third);
    RanMore(s, third, first + [second]);
    ops := first + [second] + [third];
  }

  lemma Unfolds(s: State, op: Operation)
    ensures op.Reconciles? ==> Stepped(s, op) == Reconciled(s.(world := op.world), op.now, op.target).state
    ensures op.Resumes? ==> Stepped(s, op) == Resumed(s.(world := op.world)).state
  {}

  /** What is pending is settled by showing what it commanded; the baseline stays. */
  lemma Settles(s: State, b: Setting, i: nat) returns (ops: seq<Operation>)
    requires Inv(s) && KeptBy(s.mem, b) && Open(s.log, i)
    ensures var t := Ran(s, ops);
      PendingOf(t.mem).None? && KeptBy(t.mem, b) && Open(t.log, i) && t.log[i] == s.log[i]
  {
    hide Inv, Reconciled;
    if PendingOf(s.mem).None? {
      ops := [];
    } else {
      var own, p := s.mem.own.value, PendingOf(s.mem).value;
      PendingSlew(s, own, p);
      MatchesNow(s, own, p);
      var op := Reconciles(s.clock, Some(own.identity), Showing([Matching(p, s.clock)]));
      ops := [op];
      RanOne(s, op);
      assert Ran(s, ops).log == Settlement(s.log, Reread(p, s.clock), Matching(p, s.clock));
    }
  }

  /** A command under the baseline of a takeover can change another setting than that exactly if one already has, or if
      nothing has been called since and memory or disk still keeps the baseline. */
  lemma MisledExactly(s: State, i: nat)
    requires Inv(s) && i < |s.log| && s.log[i].Acquired?
    ensures MayMislead(s, i) <==>
      || (exists k: nat :: Misled(s.log, i, k))
      || (Open(s.log, i) && Keeps(s, s.log[i].baseline))
  {
    hide Inv, Stepped, Misled, KeptBy, Open;
    var b := s.log[i].baseline;
    if k: nat :| Misled(s.log, i, k) {
      RanNothing(s);
      assert Misled(Ran(s, []).log, i, k);
    } else if Open(s.log, i) && KeptBy(s.mem, b) {
      var ops, k := Misleads(s, b, i);
      assert Misled(Ran(s, ops).log, i, k);
    } else if Open(s.log, i) && KeptBy(s.disk, b) {
      var t := RestartsFirst(s);
      StaysOpen(s.log, Crash(s.disk), i);
      var ops, k := Misleads(t, b, i);
      RanJoins(s, [Restarts], ops);
      assert Misled(Ran(s, [Restarts] + ops).log, i, k);
    } else if MayMislead(s, i) {
      var ops: seq<Operation>, k: nat :| Misled(Ran(s, ops).log, i, k);
      LaterMisled(s, ops, i, k);
    }
  }

  lemma StaysOpen(log: seq<Event>, e: Event, i: nat)
    requires Open(log, i) && e.Crash?
    ensures Open(log + [e], i) && (log + [e])[i] == log[i]
  {}

  lemma {:induction false} RanJoins(s: State, first: seq<Operation>, ops: seq<Operation>)
    ensures Ran(s, first + ops) == Ran(Ran(s, first), ops)
  {
    hide Stepped;
    if |ops| == 0 {
      assert first + ops == first;
    } else {
      RanJoins(s, first, ops[..|ops| - 1]);
      assert (first + ops)[..|first + ops| - 1] == first + ops[..|ops| - 1];
    }
  }

  lemma Misleads(s: State, b: Setting, i: nat) returns (ops: seq<Operation>, k: nat)
    requires Inv(s) && KeptBy(s.mem, b) && Open(s.log, i) && s.log[i].baseline == b
    ensures Misled(Ran(s, ops).log, i, k)
  {
    hide Inv, Stepped, KeptBy, Open, Misled;
    var first := BecomesPoised(s, b, i);
    var t := Ran(s, first);
    var own := t.mem.own.value;
    StrikesNow(t, own, b);
    var d: Data :| Prefixes(Blow(t, own, b, d), Stepped(t, Strike(t, own, b)).log);
    BlowMisleads(t, own, b, d, Stepped(t, Strike(t, own, b)).log, i);
    RanMore(s, Strike(t, own, b), first);
    ops, k := first + [Strike(t, own, b)], |t.log| + 4;
  }

  // ---------------------------------------------------------------- a run that gets there

  /** From the empty store: a change to `watts` while the gateway shows `a`, and the process ends before the call. */
  function Interrupted(a: Setting, watts: Option<int>, now: nat, target: Identity): Operation {
    var shown := Look(Some(Readback(a, false, now)), false);
    Executes(watts, now, Some(target), 0, (0, now + 1), World([shown, shown], [], [DiedBefore], []))
  }

  lemma PreparesFirst(s: State, now: nat, target: Identity)
    requires Obliging(s) && s.mem.own.None? && now == s.clock
    requires target.control in s.mem.limits ==>
      s.mem.limits[target.control] == Record(now, None, None, None, None, None, MIN_CHANGE)
    ensures var record := Record(now, None, None, None, None, None, MIN_CHANGE);
      var d := s.mem.(limits := s.mem.limits[target.control := record]);
      Prepared(s, now, target) == After(s.(mem := d, disk := d), Done(record))
  {
    PreparesNow(s, now, target);
  }

  /** The reservation is durable and the last look finds nothing in the way, but the process ends before the call. */
  lemma DiesNow(s: State, o: Order, read: Readback)
    requires Obliging(s) && s.world.answers == [DiedBefore] && !o.request.restore
    requires s.world.looks == [Look(Some(read), false)] && read.at == s.clock && !read.pending
    requires read.setting == o.request.seen.setting && AtMost(NextEligible(o.timing, o.option), s.clock)
    ensures var t := Sending(s, o, (0, s.clock + 1)).state;
      t.mem == t.disk == s.disk && t.log == s.log + [Observed(read)] + [Crash(s.disk)] && t.issued == s.issued
      && t.clock == s.clock
  {
    hide NextEligible, Looked;
    LooksNow(s, s.clock, o.target, read);
    assert s.(world := s.world.AfterMoment()) == s && Ticked(s, s.clock) == s;
  }

  lemma InterruptedRun(a: Setting, watts: Option<int>, now: nat, target: Identity)
    requires watts != a.watts
    ensures var read := Readback(a, false, now);
      var p := Request(0, watts, now, None, false, read, None);
      var own := Ownership(target, None, Some(p), Some(a), None, false);
      var t := Stepped(Start(None, now), Interrupted(a, watts, now, target));
      && t.mem.own == Some(own) && t.mem == t.disk && t.issued == 1 && t.clock == now
      && t.log == [Observed(read), Reserved(p), Acquired(a, read), Observed(read), Crash(t.disk)]
  {
    hide Persisted, Prepared, Looked, Reserving, Sending, Normalized;
    var read, shown := Readback(a, false, now), Look(Some(Readback(a, false, now)), false);
    var s := Start(None, now).(world := World([shown, shown], [], [DiedBefore], []));
    PreparesFirst(s, now, target);
    var t := Prepared(s, now, target).state;
    LooksNow(t, now, target, read);
    var u := Looked(t, now, Some(target)).0;
    PreparesFirst(u, now, target);
    var v, timing := Prepared(u, now, target).state, Prepared(u, now, target).outcome.value;
    var p := Request(0, watts, now, None, false, read, None);
    var own := Ownership(target, None, Some(p), Some(a), None, false);
    var o := Order(own, p, a, target, timing, None, 0);
    ReservesNow(v, o);
    DiesNow(Reserving(v, o).state, o, read);
    assert Reconciled(s, now, Some(target)) == After(t, Done(None));
  }

  /** The change that was never sent is reported as applied once somebody else sets the same watts, and the next command
      may be sent under a baseline that it does not replace. */
  lemma UnsentChangeIsApplied(a: Setting, watts: Option<int>, now: nat, target: Identity)
    requires watts != a.watts
    ensures var p := Request(0, watts, now, None, false, Readback(a, false, now), None);
      var read := Matching(p, now);
      var t := Ran(Start(None, now), [Interrupted(a, watts, now, target), Reconciles(now, Some(target), Showing([read]))]);
      && Inv(t) && |t.log| == 8 && t.log[2] == Acquired(a, p.seen)
      && t.log[6] == Applied(p.(notBefore := Some(now)), read) && (forall k | 0 <= k < 8 :: !t.log[k].Call?)
      && UnsentApplied(t.log, 0, 6) && MayMislead(t, 2)
  {
    hide Inv, Stepped, Reconciled, MayMislead;
    var s, first := Start(None, now), Interrupted(a, watts, now, target);
    var p := Request(0, watts, now, None, false, Readback(a, false, now), None);
    var own, read := Ownership(target, None, Some(p), Some(a), None, false), Matching(p, now);
    var second := Reconciles(now, Some(target), Showing([read]));
    StartKeeps(None, now);
    InterruptedRun(a, watts, now, target);
    RanOne(s, first);
    RanMore(s, second, [first]);
    assert [first] + [second] == [first, second];
    RunKeeps(s, [first, second]);
    var u := Stepped(s, first);
    MatchesNow(u, own, p);
    Unfolds(u, second);
    var t := Stepped(u, second);
    assert t.log == Settlement(u.log, Reread(p, now), read);
    assert forall k | 0 <= k < |t.log[..6]| :: !t.log[..6][k].Call?;
    NoCallNoTime(t.log[..6], 0);
    MisledExactly(t, 2);
  }

  lemma {:induction false} NoCallNoTime(log: seq<Event>, ticket: nat)
    requires forall k | 0 <= k < |log| :: !log[k].Call?
    ensures CallTime(log, ticket).None?
  {
    if |log| > 0 { NoCallNoTime(log[..|log| - 1], ticket); }
  }
}
